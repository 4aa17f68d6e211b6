/** Decimal numerals, and the C library functions that the status file, the file names and
    the client messages are built with: `%d`, `atoi`, `strtok`, `strcspn`, `fgets`.

    A character buffer is a sequence that ends in a NUL; the C string at index `i` of it is
    what lies before the next NUL. */
module CText {
  import opened Wrappers

  const NUL: char := '\0'

  predicate IsDigit(c: char) {
    '0' <= c <= '9'
  }

  predicate AllDigits(s: string) {
    forall i :: 0 <= i < |s| ==> IsDigit(s[i])
  }

  function DigitChar(d: nat): (c: char)
    requires d < 10
  {
    ('0' as int + d) as char
  }

  function DigitOf(c: char): (d: nat)
    requires IsDigit(c)
    ensures d < 10 && DigitChar(d) == c
  {
    c as int - '0' as int
  }

  /** `%d` of a natural number. */
  function Digits(n: nat): (s: string)
    ensures |s| >= 1 && AllDigits(s)
  {
    if n < 10 then [DigitChar(n)] else Digits(n / 10) + [DigitChar(n % 10)]
  }

  /** `%d` */
  function Decimal(n: int): (s: string)
    ensures |s| >= 1
  {
    if n < 0 then "-" + Digits(-n) else Digits(n)
  }

  lemma DecimalChars(n: int)
    ensures forall c :: c in Decimal(n) ==> IsDigit(c) || c == '-'
  {
  }

  /** The digits that start `s`, read on top of the value `acc`. */
  function ReadDigits(s: string, acc: nat): nat {
    if s != [] && IsDigit(s[0]) then ReadDigits(s[1..], 10 * acc + DigitOf(s[0])) else acc
  }

  /** `isspace` of the C locale. */
  predicate IsSpace(c: char) {
    c == ' ' || 9 <= c as int <= 13
  }

  function SkipSpaces(s: string): string {
    if s != [] && IsSpace(s[0]) then SkipSpaces(s[1..]) else s
  }

  /** `atoi`, without the overflow of its int result. */
  function Atoi(s: string): int {
    var t := SkipSpaces(s);
    if t != [] && t[0] == '-' then -(ReadDigits(t[1..], 0) as int)
    else if t != [] && t[0] == '+' then ReadDigits(t[1..], 0)
    else ReadDigits(t, 0)
  }

  lemma {:induction false} ReadDigitsConcat(s: string, t: string, acc: nat)
    requires AllDigits(s)
    ensures ReadDigits(s + t, acc) == ReadDigits(t, ReadDigits(s, acc))
  {
    if s == [] {
      assert s + t == t;
    } else {
      assert (s + t)[1..] == s[1..] + t;
      ReadDigitsConcat(s[1..], t, 10 * acc + DigitOf(s[0]));
    }
  }

  lemma {:induction false} ReadOneDigit(d: nat, acc: nat)
    requires d < 10
    ensures ReadDigits([DigitChar(d)], acc) == 10 * acc + d
  {
    var s := [DigitChar(d)];
    assert ReadDigits(s, acc) == ReadDigits(s[1..], 10 * acc + DigitOf(s[0]));
    assert s[1..] == [];
  }

  lemma {:induction false} ReadDigitsOfDigits(n: nat)
    ensures ReadDigits(Digits(n), 0) == n
  {
    if n < 10 {
      ReadOneDigit(n, 0);
    } else {
      ReadDigitsOfDigits(n / 10);
      ReadDigitsConcat(Digits(n / 10), [DigitChar(n % 10)], 0);
      ReadOneDigit(n % 10, n / 10);
    }
  }

  /** Reading back a printed number, whatever non-digit text follows it. */
  lemma {:induction false} AtoiOfDecimal(n: int, rest: string)
    requires rest == [] || !IsDigit(rest[0])
    ensures Atoi(Decimal(n) + rest) == n
  {
    var m := if n < 0 then -n else n;
    ReadDigitsConcat(Digits(m), rest, 0);
    ReadDigitsOfDigits(m);
    var t := Decimal(n) + rest;
    assert t[0] == Decimal(n)[0];
    if n < 0 {
      assert t[1..] == Digits(m) + rest;
    }
  }

  lemma DecimalInjective(a: int, b: int)
    requires Decimal(a) == Decimal(b)
    ensures a == b
  {
    AtoiOfDecimal(a, []);
    AtoiOfDecimal(b, []);
    assert Decimal(a) + [] == Decimal(a) == Decimal(b) + [];
  }

  function Pow10(k: nat): (p: nat)
    ensures p >= 1
  {
    if k == 0 then 1 else 10 * Pow10(k - 1)
  }

  lemma {:induction false} DigitsLength(n: nat, k: nat)
    requires k >= 1
    ensures |Digits(n)| <= k <==> n < Pow10(k)
  {
    if n >= 10 && k > 1 {
      DigitsLength(n / 10, k - 1);
    }
  }

  lemma Multiple(d: nat, k: int)
    ensures k >= 1 ==> d * k >= d
    ensures k <= -1 ==> d * k <= 0 - d
  {
  }

  lemma Quotient(d: nat, q: nat, r: nat)
    requires r < d
    ensures (d * q + r) / d == q
  {
    var x := d * q + r;
    Multiple(d, x / d - q);
    assert d * (x / d - q) == d * (x / d) - d * q;
    assert d * (x / d) == x - x % d;
  }

  lemma QuotientOfTenth(n: nat, p: nat)
    requires p >= 1
    ensures n / (10 * p) == n / 10 / p
  {
    var a := n / 10;
    var q, c := a / p, a % p;
    assert a == p * q + c;
    assert n == (10 * p) * q + (10 * c + n % 10);
    Quotient(10 * p, q, 10 * c + n % 10);
  }

  /** The numeral's digits are those of the number: the one of weight 10^k is its k-th from the right. */
  lemma {:induction false} DigitAt(n: nat, k: nat)
    requires k < |Digits(n)|
    ensures Digits(n)[|Digits(n)| - 1 - k] as int - '0' as int == n / Pow10(k) % 10
  {
    if k > 0 {
      DigitAt(n / 10, k - 1);
      QuotientOfTenth(n, Pow10(k - 1));
    }
  }

  /** A negative number is printed as a minus sign and the numeral of its opposite. */
  lemma SignOf(n: int)
    ensures n < 0 ==> Decimal(n) == "-" + Decimal(-n)
    ensures n >= 0 ==> IsDigit(Decimal(n)[0])
  {
  }

  lemma {:induction false} SkipAll(spaces: string, t: string)
    requires (forall c :: c in spaces ==> c in " \t\n") && t != [] && !IsSpace(t[0])
    ensures SkipSpaces(spaces + t) == t
  {
    if spaces == [] {
      assert spaces + t == t;
    } else {
      assert spaces[0] in spaces;
      assert (spaces + t)[1..] == spaces[1..] + t;
      SkipAll(spaces[1..], t);
    }
  }

  /** `atoi` passes over white space, and takes a plus sign. */
  lemma AtoiOfSpaced(spaces: string, t: string)
    requires (forall c :: c in spaces ==> c in " \t\n") && t != [] && !IsSpace(t[0])
    ensures Atoi(spaces + t) == Atoi(t)
    ensures IsDigit(t[0]) ==> Atoi("+" + t) == Atoi(t)
  {
    SkipAll(spaces, t);
    assert ("+" + t)[1..] == t;
  }

  /** The range of a 32-bit int. */
  predicate IsInt32(n: int) {
    -0x8000_0000 <= n <= 0x7fff_ffff
  }

  lemma PowersOf10()
    ensures Pow10(8) == 100_000_000 && Pow10(9) == 1_000_000_000 && Pow10(10) == 10_000_000_000
  {
    assert Pow10(3) == 1000;
    assert Pow10(6) == 1000 * Pow10(3);
    assert Pow10(8) == 100 * Pow10(6);
  }

  /** An int prints in at most 11 characters, and in at most 10 exactly when it is above -10^9. */
  lemma DecimalLength(n: int)
    requires IsInt32(n)
    ensures |Decimal(n)| <= 11
    ensures |Decimal(n)| <= 10 <==> -1_000_000_000 < n
  {
    PowersOf10();
    var m := if n < 0 then -n else n;
    DigitsLength(m, 10);
    DigitsLength(m, 9);
  }

  /** The C string that starts at index `i` of a buffer. */
  function CStr(buf: string, i: nat): string
    decreases |buf| - i
  {
    if i < |buf| && buf[i] != NUL then [buf[i]] + CStr(buf, i + 1) else []
  }

  lemma {:induction false} CStrAt(pre: string, s: string, post: string)
    requires NUL !in s
    ensures CStr(pre + s + [NUL] + post, |pre|) == s
    decreases |s|
  {
    var buf := pre + s + [NUL] + post;
    if s == [] {
      assert buf[|pre|] == NUL;
    } else {
      CStrAt(pre + [s[0]], s[1..], post);
      assert (pre + [s[0]]) + s[1..] + [NUL] + post == buf;
      assert buf[|pre|] == s[0];
    }
  }

  /** What one call of `strtok` does: the buffer with the delimiter after the token
      overwritten by NUL, where the token starts (None for a NULL result), and where the
      next call resumes. */
  datatype Token = Token(buf: string, start: Option<nat>, next: nat)

  function SkipDelimiters(buf: string, i: nat, delims: string): (r: nat)
    ensures i <= r
    decreases |buf| - i
  {
    if i < |buf| && buf[i] != NUL && buf[i] in delims then SkipDelimiters(buf, i + 1, delims) else i
  }

  function SpanToken(buf: string, i: nat, delims: string): (r: nat)
    ensures i <= r
    ensures i <= |buf| ==> r <= |buf|
    decreases |buf| - i
  {
    if i < |buf| && buf[i] != NUL && buf[i] !in delims then SpanToken(buf, i + 1, delims) else i
  }

  /** `strtok(buf + i, delims)`, or `strtok(NULL, delims)` when the previous call left off at `i`. */
  function Strtok(buf: string, i: nat, delims: string): Token {
    var start := SkipDelimiters(buf, i, delims);
    if start >= |buf| || buf[start] == NUL then Token(buf, None, start)
    else
      var end := SpanToken(buf, start, delims);
      if end < |buf| && buf[end] != NUL then Token(buf[end := NUL], Some(start), end + 1)
      else Token(buf, Some(start), end)
  }

  /** A token that `strtok` reads whole: not empty, no delimiter, no NUL. */
  predicate IsToken(s: string, delims: string) {
    s != [] && NUL !in s && forall c :: c in s ==> c !in delims
  }

  lemma {:induction false} SpanTokenAt(pre: string, s: string, post: string, delims: string)
    requires NUL !in s && forall c :: c in s ==> c !in delims
    requires post != [] && (post[0] == NUL || post[0] in delims)
    ensures SpanToken(pre + s + post, |pre|, delims) == |pre| + |s|
    decreases |s|
  {
    var buf := pre + s + post;
    if s == [] {
      assert buf[|pre|] == post[0];
    } else {
      SpanTokenAt(pre + [s[0]], s[1..], post, delims);
      assert (pre + [s[0]]) + s[1..] + post == buf;
      assert buf[|pre|] == s[0];
    }
  }

  /** A token ended by a delimiter: the delimiter becomes the NUL that ends the token. */
  lemma StrtokInner(pre: string, s: string, d: char, post: string, delims: string)
    requires IsToken(s, delims) && d in delims && d != NUL
    ensures Strtok(pre + s + [d] + post, |pre|, delims)
         == Token(pre + s + [NUL] + post, Some(|pre|), |pre| + |s| + 1)
    ensures CStr(pre + s + [NUL] + post, |pre|) == s
  {
    var buf := pre + s + [d] + post;
    assert buf == pre + s + ([d] + post);
    SpanTokenAt(pre, s, [d] + post, delims);
    assert buf[|pre|] == s[0];
    assert s[0] in s;
    assert SkipDelimiters(buf, |pre|, delims) == |pre|;
    assert buf[|pre| + |s|] == d;
    assert buf[|pre| + |s| := NUL] == pre + s + [NUL] + post;
    CStrAt(pre, s, post);
  }

  /** A token ended by the end of the string. */
  lemma StrtokLast(pre: string, s: string, post: string, delims: string)
    requires IsToken(s, delims)
    ensures Strtok(pre + s + [NUL] + post, |pre|, delims) == Token(pre + s + [NUL] + post, Some(|pre|), |pre| + |s|)
    ensures CStr(pre + s + [NUL] + post, |pre|) == s
  {
    var buf := pre + s + [NUL] + post;
    assert buf == pre + s + ([NUL] + post);
    SpanTokenAt(pre, s, [NUL] + post, delims);
    assert buf[|pre|] == s[0];
    assert s[0] in s;
    assert SkipDelimiters(buf, |pre|, delims) == |pre|;
    assert buf[|pre| + |s|] == NUL;
    CStrAt(pre, s, post);
  }

  /** `s[strcspn(s, stop)] = '\0'`: the string before the first stop character. */
  function CutAt(s: string, stop: char): string {
    if s == [] || s[0] == stop then [] else [s[0]] + CutAt(s[1..], stop)
  }

  /** How many characters `fgets` takes, at most `limit`. */
  function LineLength(input: string, limit: nat): (n: nat)
    ensures n <= |input| && n <= limit
    ensures input != [] && limit > 0 ==> n > 0
  {
    if input == [] || limit == 0 then 0
    else if input[0] == '\n' then 1
    else 1 + LineLength(input[1..], limit - 1)
  }

  /** What `fgets(line, size, file)` leaves in `line`, with its ending NUL. */
  function FgetsLine(input: string, size: nat): (line: string)
    requires size >= 1
    ensures |line| <= size
  {
    input[..LineLength(input, size - 1)] + [NUL]
  }

  /** What `fgets(line, size, file)` leaves to be read. */
  function FgetsRest(input: string, size: nat): (rest: string)
    requires size >= 2
    ensures input != [] ==> |rest| < |input|
  {
    input[LineLength(input, size - 1)..]
  }

  lemma {:induction false} LineLengthAt(line: string, rest: string, limit: nat)
    requires '\n' !in line && |line| < limit
    ensures LineLength(line + ['\n'] + rest, limit) == |line| + 1
  {
    var input := line + ['\n'] + rest;
    if line == [] {
      assert input[0] == '\n';
    } else {
      assert input[0] == line[0];
      assert input[1..] == line[1..] + ['\n'] + rest;
      LineLengthAt(line[1..], rest, limit - 1);
    }
  }

  /** A line that is longer than the buffer is taken in parts. */
  lemma {:induction false} LongLine(line: string, rest: string, limit: nat)
    requires '\n' !in line && limit <= |line|
    ensures LineLength(line + rest, limit) == limit
  {
    if limit > 0 {
      assert (line + rest)[1..] == line[1..] + rest;
      LongLine(line[1..], rest, limit - 1);
    }
  }

  lemma FgetsAt(line: string, rest: string, size: nat)
    requires '\n' !in line && |line| + 1 < size
    ensures FgetsLine(line + ['\n'] + rest, size) == line + ['\n', NUL]
    ensures FgetsRest(line + ['\n'] + rest, size) == rest
  {
    LineLengthAt(line, rest, size - 1);
    var input := line + ['\n'] + rest;
    assert input[..|line| + 1] + [NUL] == line + ['\n', NUL];
    assert input[|line| + 1..] == rest;
  }
}
