/** strtok keeps its place in one variable of the whole process, and the threads of
    v4/server/server.c share it: a worker cuts lines of the status file under fileLock, while
    handlers cut their messages and the lines of remarks.txt without it. This module says what the
    two calls of a thread for one line return when calls of other threads come between them, and
    before them while the place is still in the buffer that the line was read into. */
module SharedTokens {
  import opened Wrappers
  import opened CText

  // ------------------------------------------------- strtok on the text that is left

  function SkipText(s: string, delims: string): string {
    if s != [] && s[0] in delims then SkipText(s[1..], delims) else s
  }

  function SpanText(s: string, delims: string): (w: string)
    ensures w <= s
  {
    if s != [] && s[0] !in delims then [s[0]] + SpanText(s[1..], delims) else []
  }

  /** The next token of a text; empty if there is none. */
  function WordOf(s: string, delims: string): string {
    SpanText(SkipText(s, delims), delims)
  }

  /** The text after the next token and the delimiter that ends it. */
  function AfterWord(s: string, delims: string): string {
    var t := SkipText(s, delims);
    var n := |SpanText(t, delims)|;
    if n < |t| then t[n + 1..] else []
  }

  lemma {:induction false} SkipDelimitersText(buf: string, i: nat, delims: string)
    ensures CStr(buf, SkipDelimiters(buf, i, delims)) == SkipText(CStr(buf, i), delims)
    decreases |buf| - i
  {
    if i < |buf| && buf[i] != NUL && buf[i] in delims {
      SkipDelimitersText(buf, i + 1, delims);
      assert CStr(buf, i)[1..] == CStr(buf, i + 1);
    }
  }

  lemma {:induction false} SpanTokenText(buf: string, i: nat, delims: string)
    ensures SpanToken(buf, i, delims) == i + |SpanText(CStr(buf, i), delims)|
    ensures CStr(buf, SpanToken(buf, i, delims)) == CStr(buf, i)[|SpanText(CStr(buf, i), delims)|..]
    decreases |buf| - i
  {
    var s := CStr(buf, i);
    if i < |buf| && buf[i] != NUL {
      assert s[1..] == CStr(buf, i + 1);
      if buf[i] !in delims {
        SpanTokenText(buf, i + 1, delims);
        assert s[1 + |SpanText(s[1..], delims)|..] == s[1..][|SpanText(s[1..], delims)|..];
      }
    }
  }

  lemma {:induction false} SpanWhole(s: string, delims: string)
    requires forall c :: c in s ==> c !in delims
    ensures SkipText(s, delims) == s == SpanText(s, delims)
  {
    if s != [] {
      SpanWhole(s[1..], delims);
    }
  }

  /** The string at `i` ends where the buffer is cut. */
  lemma {:induction false} CutText(buf: string, i: nat, end: nat)
    requires i <= end < |buf| && end <= i + |CStr(buf, i)|
    ensures CStr(buf[end := NUL], i) == CStr(buf, i)[..end - i]
    decreases end - i
  {
    if i < end {
      CutText(buf, i + 1, end);
    }
  }

  /** A change before `i` does not show in the string at `i`. */
  lemma {:induction false} LaterText(buf: string, buf': string, i: nat)
    requires |buf'| == |buf| && forall k :: i <= k < |buf| ==> buf'[k] == buf[k]
    ensures CStr(buf', i) == CStr(buf, i)
    decreases |buf| - i
  {
    if i < |buf| {
      LaterText(buf, buf', i + 1);
    }
  }

  lemma {:induction false} FirstOfSkip(s: string, delims: string)
    ensures SkipText(s, delims) != [] ==> SkipText(s, delims)[0] !in delims
  {
    if s != [] && s[0] in delims {
      FirstOfSkip(s[1..], delims);
    }
  }

  /** A call of strtok in terms of the text that it finds and the text that it leaves. */
  lemma StrtokText(buf: string, i: nat, delims: string)
    ensures var t, s := Strtok(buf, i, delims), CStr(buf, i);
            && (t.start.None? <==> WordOf(s, delims) == "")
            && (t.start.Some? ==> CStr(t.buf, t.start.value) == WordOf(s, delims))
            && CStr(t.buf, t.next) == AfterWord(s, delims)
  {
    var start := SkipDelimiters(buf, i, delims);
    SkipDelimitersText(buf, i, delims);
    SpanTokenText(buf, start, delims);
    var s, end := CStr(buf, start), SpanToken(buf, start, delims);
    assert s == SkipText(CStr(buf, i), delims);
    if start < |buf| && buf[start] != NUL {
      FirstOfSkip(CStr(buf, i), delims);
      if end < |buf| && buf[end] != NUL {
        CutText(buf, start, end);
        LaterText(buf, buf[end := NUL], end + 1);
        assert CStr(buf, end)[1..] == CStr(buf, end + 1);
      }
    }
  }

  lemma {:induction false} SpanEnds(buf: string, i: nat, delims: string)
    ensures var end := SpanToken(buf, i, delims);
            end < |buf| && buf[end] != NUL ==> buf[end] in delims
    decreases |buf| - i
  {
    if i < |buf| && buf[i] != NUL && buf[i] !in delims {
      SpanEnds(buf, i + 1, delims);
    }
  }

  /** The only character that a call writes is the delimiter before its next place. */
  lemma StrtokWrites(buf: string, i: nat, delims: string)
    ensures var t := Strtok(buf, i, delims);
            || t.buf == buf
            || (i < t.next <= |buf| && buf[t.next - 1] in delims && t.buf == buf[t.next - 1 := NUL])
  {
    SpanEnds(buf, SkipDelimiters(buf, i, delims), delims);
  }

  lemma {:induction false} TextEnds(buf: string, i: nat)
    ensures var end := i + |CStr(buf, i)|;
            end < |buf| ==> buf[end] == NUL
    decreases |buf| - i
  {
    if i < |buf| && buf[i] != NUL {
      TextEnds(buf, i + 1);
    }
  }

  /** A text without delimiters is taken whole: nothing is written, and the place is at its end. */
  lemma StrtokWhole(buf: string, i: nat, delims: string)
    requires forall c :: c in CStr(buf, i) ==> c !in delims
    ensures Strtok(buf, i, delims).buf == buf && Strtok(buf, i, delims).next == i + |CStr(buf, i)|
  {
    if CStr(buf, i) != "" {
      assert buf[i] in CStr(buf, i);
      assert SkipDelimiters(buf, i, delims) == i;
      SpanWhole(CStr(buf, i), delims);
      SpanTokenText(buf, i, delims);
      TextEnds(buf, i);
    }
  }

  /** A string that starts a buffer, with its NUL, is what is read there. */
  lemma {:induction false} TextOfPrefix(p: string, buf: string, n: nat)
    requires p <= buf && |p| > 0 && p[|p| - 1] == NUL && n < |p|
    ensures CStr(buf, n) == CStr(p, n) && n + |CStr(p, n)| < |p|
    ensures forall c :: c in CStr(p, n) ==> c in p[n..]
    decreases |p| - n
  {
    if p[n] != NUL {
      TextOfPrefix(p, buf, n + 1);
      assert p[n..][1..] == p[n + 1..];
    }
  }

  /** A call changes nothing before the place where it starts. */
  lemma StrtokLeaves(buf: string, i: nat, delims: string)
    ensures var t := Strtok(buf, i, delims);
            && i <= t.next && |t.buf| == |buf|
            && forall k :: 0 <= k < i && k < |buf| ==> t.buf[k] == buf[k]
  {
  }

  // ------------------------------------------------------------ other threads' calls

  /** What another thread does: strtok on its own buffer; strtok(NULL); or it fills its buffer anew,
      so that `text` is now at the place if the place is in that buffer. */
  datatype Call = Start(buffer: string, delims: string) | Next(delims: string) | Refilled(text: string)

  /** Where strtok's place is: in the buffer of the thread that we follow, or in another. */
  datatype Place = InOwn(next: nat) | Elsewhere(buffer: string, next: nat)

  datatype Memory = Memory(own: string, place: Place)

  function TokenText(t: Token): Option<string> {
    if t.start.None? then None else Some(CStr(t.buf, t.start.value))
  }

  /** strtok(NULL): the token that it returns, and the memory after it. */
  function Resume(m: Memory, delims: string): (Option<string>, Memory) {
    match m.place
    case InOwn(next) =>
      var t := Strtok(m.own, next, delims);
      (TokenText(t), Memory(t.buf, InOwn(t.next)))
    case Elsewhere(buffer, next) =>
      var t := Strtok(buffer, next, delims);
      (TokenText(t), Memory(m.own, Elsewhere(t.buf, t.next)))
  }

  function Perform(m: Memory, call: Call): Memory {
    match call
    case Start(buffer, delims) =>
      var t := Strtok(buffer, 0, delims);
      Memory(m.own, Elsewhere(t.buf, t.next))
    case Next(delims) => Resume(m, delims).1
    case Refilled(text) => if m.place.InOwn? then m else Memory(m.own, Elsewhere(text, 0))
  }

  function PerformAll(m: Memory, calls: seq<Call>): Memory
    decreases |calls|
  {
    if calls == [] then m else PerformAll(Perform(m, calls[0]), calls[1..])
  }

  lemma {:induction false} PerformBoth(m: Memory, a: seq<Call>, b: seq<Call>)
    ensures PerformAll(PerformAll(m, a), b) == PerformAll(m, a + b)
    decreases |a|
  {
    if a == [] {
      assert a + b == b;
    } else {
      assert (a + b)[1..] == a[1..] + b;
      PerformBoth(Perform(m, a[0]), a[1..], b);
    }
  }

  /** The text that is still to be cut. */
  function TextAt(m: Memory): string {
    match m.place
    case InOwn(next) => CStr(m.own, next)
    case Elsewhere(buffer, next) => CStr(buffer, next)
  }

  /** The text that a call leaves to be cut, of a text `s` that it finds. */
  function Leaves(s: string, inOwn: bool, call: Call): string {
    match call
    case Start(buffer, delims) => AfterWord(CStr(buffer, 0), delims)
    case Next(delims) => AfterWord(s, delims)
    case Refilled(text) => if inOwn then s else CStr(text, 0)
  }

  /** The text that the calls leave to be cut. */
  function Left(s: string, inOwn: bool, calls: seq<Call>): string
    decreases |calls|
  {
    if calls == [] then s
    else Left(Leaves(s, inOwn, calls[0]), inOwn && !calls[0].Start?, calls[1..])
  }

  /** The own buffer still starts with the token that the first call cut off. */
  predicate OwnKept(m: Memory, token: string) {
    && NUL !in token && |token| < |m.own| && m.own[..|token|] == token && m.own[|token|] == NUL
    && (m.place.InOwn? ==> |token| <= m.place.next)
  }

  lemma OwnText(m: Memory, token: string)
    requires OwnKept(m, token)
    ensures CStr(m.own, 0) == token
  {
    var post := m.own[|token| + 1..];
    CStrAt("", token, post);
    assert "" + token + [NUL] + post == m.own;
  }

  lemma ResumeText(m: Memory, delims: string, token: string)
    requires OwnKept(m, token)
    ensures var (w, m') := Resume(m, delims);
            && w == (if WordOf(TextAt(m), delims) == "" then None else Some(WordOf(TextAt(m), delims)))
            && TextAt(m') == AfterWord(TextAt(m), delims)
            && OwnKept(m', token)
  {
    match m.place {
      case InOwn(next) =>
        StrtokText(m.own, next, delims);
        StrtokLeaves(m.own, next, delims);
        var t := Strtok(m.own, next, delims);
        assert t.buf[..|token|] == m.own[..|token|];
      case Elsewhere(buffer, next) => StrtokText(buffer, next, delims);
    }
  }

  /** Any calls of other threads leave the own token alone, and the text that they leave is known
      from the texts alone. */
  lemma {:induction false} PerformText(m: Memory, calls: seq<Call>, token: string)
    requires OwnKept(m, token)
    ensures OwnKept(PerformAll(m, calls), token)
    ensures TextAt(PerformAll(m, calls)) == Left(TextAt(m), m.place.InOwn?, calls)
    decreases |calls|
  {
    if calls != [] {
      match calls[0] {
        case Start(buffer, delims) => StrtokText(buffer, 0, delims);
        case Next(delims) => ResumeText(m, delims, token);
        case Refilled(text) =>
      }
      PerformText(Perform(m, calls[0]), calls[1..], token);
    }
  }

  // ---------------------------------------------------- calls on the buffer of a line

  /** The delimiters of the program's second calls. */
  predicate IsDelimiter(c: char) {
    c == ':' || c == ',' || c == ' '
  }

  predicate FewDelims(call: Call) {
    call.Next? ==> forall c :: c in call.delims ==> IsDelimiter(c)
  }

  ghost predicate AllFew(calls: seq<Call>) {
    forall k :: 0 <= k < |calls| ==> FewDelims(calls[k])
  }

  lemma FewTail(calls: seq<Call>)
    requires AllFew(calls) && calls != []
    ensures FewDelims(calls[0]) && AllFew(calls[1..])
  {
    assert forall k :: 0 <= k < |calls[1..]| ==> calls[1..][k] == calls[k + 1];
  }

  /** The own buffer starts with `p`, and from the place on `p` has no delimiter. */
  predicate Settled(m: Memory, p: string) {
    && |p| > 0 && p[|p| - 1] == NUL && p <= m.own
    && (m.place.InOwn? ==> forall k :: m.place.next <= k < |p| ==> !IsDelimiter(p[k]))
  }

  lemma SettledStep(m: Memory, p: string, call: Call)
    requires Settled(m, p) && FewDelims(call)
    ensures Settled(Perform(m, call), p)
  {
    if call.Next? && m.place.InOwn? {
      var n := m.place.next;
      StrtokWrites(m.own, n, call.delims);
      StrtokLeaves(m.own, n, call.delims);
    }
  }

  /** Then no call writes into `p`. */
  lemma {:induction false} SettledStays(m: Memory, p: string, calls: seq<Call>)
    requires Settled(m, p) && AllFew(calls)
    ensures Settled(PerformAll(m, calls), p)
    decreases |calls|
  {
    if calls != [] {
      FewTail(calls);
      SettledStep(m, p, calls[0]);
      SettledStays(Perform(m, calls[0]), p, calls[1..]);
    }
  }

  predicate HasStart(calls: seq<Call>) {
    exists k :: 0 <= k < |calls| && calls[k].Start?
  }

  predicate HasNext(calls: seq<Call>) {
    exists k :: 0 <= k < |calls| && calls[k].Next?
  }

  lemma HasSplit(calls: seq<Call>)
    requires calls != []
    ensures HasStart(calls) <==> calls[0].Start? || HasStart(calls[1..])
    ensures HasNext(calls) <==> calls[0].Next? || HasNext(calls[1..])
  {
    assert forall k :: 0 <= k < |calls[1..]| ==> calls[1..][k] == calls[k + 1];
    if k :| 0 <= k < |calls| && calls[k].Start? {
      assert k > 0 ==> calls[1..][k - 1].Start?;
    }
    if k :| 0 <= k < |calls| && calls[k].Next? {
      assert k > 0 ==> calls[1..][k - 1].Next?;
    }
  }

  /** The position of the place in the own buffer, if it is there. */
  function Position(m: Memory): Option<nat> {
    if m.place.InOwn? then Some(m.place.next) else None
  }

  lemma {:induction false} StaysElsewhere(m: Memory, calls: seq<Call>)
    requires m.place.Elsewhere?
    ensures PerformAll(m, calls).place.Elsewhere?
    decreases |calls|
  {
    if calls != [] {
      StaysElsewhere(Perform(m, calls[0]), calls[1..]);
    }
  }

  lemma EndOfText(p: string, n: nat)
    requires |p| > 0 && p[|p| - 1] == NUL && n < |p|
    ensures n + |CStr(p, n)| < |p| && CStr(p, n + |CStr(p, n)|) == ""
  {
    TextOfPrefix(p, p, n);
    TextEnds(p, n);
  }

  /** Where calls leave the place: elsewhere after a first call of another thread; at the end of the
      string after second calls alone. */
  lemma {:induction false} PositionAfter(m: Memory, p: string, calls: seq<Call>)
    requires Settled(m, p) && AllFew(calls) && m.place.InOwn? && m.place.next < |p|
    ensures Position(PerformAll(m, calls))
         == if HasStart(calls) then None
            else if HasNext(calls) then Some(m.place.next + |CStr(p, m.place.next)|)
            else Some(m.place.next)
    decreases |calls|
  {
    if calls != [] {
      FewTail(calls);
      HasSplit(calls);
      SettledStep(m, p, calls[0]);
      var n, m' := m.place.next, Perform(m, calls[0]);
      match calls[0] {
        case Start(buffer, delims) => StaysElsewhere(m', calls[1..]);
        case Next(delims) =>
          TextOfPrefix(p, m.own, n);
          StrtokWhole(m.own, n, delims);
          EndOfText(p, n);
          PositionAfter(m', p, calls[1..]);
        case Refilled(text) => PositionAfter(m, p, calls[1..]);
      }
    }
  }

  // ------------------------------------------- a line of two tokens, and its two calls

  /** A line as the program cuts it: a token, a separator, and another token. */
  datatype Line = Line(head: string, sep: char, tail: string)

  predicate IsLine(line: Line) {
    && line.head != "" && line.tail != "" && (line.sep == ':' || line.sep == ',')
    && (forall c :: c in line.head ==> !IsDelimiter(c) && c != NUL)
    && (forall c :: c in line.tail ==> !IsDelimiter(c) && c != NUL)
  }

  /** The line in a buffer, and when its separator has been overwritten. */
  function Uncut(line: Line): string {
    line.head + [line.sep] + line.tail + [NUL]
  }

  function CutUp(line: Line): string {
    line.head + [NUL] + line.tail + [NUL]
  }

  /** The buffer after the line has been read into it, over what was there. */
  function Fill(own: string, line: Line): string {
    Uncut(line) + if |own| > |Uncut(line)| then own[|Uncut(line)|..] else ""
  }

  /** What another thread does first, apart from filling its own buffer. */
  function FirstReal(calls: seq<Call>): Option<Call> {
    if calls == [] then None else if calls[0].Refilled? then FirstReal(calls[1..]) else Some(calls[0])
  }

  /** Calls that come after the line has been read and before its first call cut it: the place is still
      inside its first token, and the first of them is a second call that stops at the separator. */
  predicate Cuts(line: Line, position: Option<nat>, calls: seq<Call>) {
    && position.Some? && position.value < |line.head|
    && FirstReal(calls).Some? && FirstReal(calls).value.Next? && line.sep in FirstReal(calls).value.delims
  }

  /** The delimiter sets of the program: each second call stops at one character. */
  predicate OneDelim(call: Call) {
    call.Next? ==> call.delims == ":" || call.delims == "," || call.delims == " "
  }

  ghost predicate AllOne(calls: seq<Call>) {
    forall k :: 0 <= k < |calls| ==> OneDelim(calls[k])
  }

  lemma OneIsFew(calls: seq<Call>)
    requires AllOne(calls)
    ensures AllFew(calls)
    ensures calls != [] ==> OneDelim(calls[0]) && AllOne(calls[1..])
  {
    forall k | 0 <= k < |calls|
      ensures FewDelims(calls[k])
    {
      assert OneDelim(calls[k]);
    }
    if calls != [] {
      assert forall k :: 0 <= k < |calls[1..]| ==> calls[1..][k] == calls[k + 1];
    }
  }

  lemma Regrouped(head: string, n: nat, sep: string, tail: string, more: string)
    requires n <= |head|
    ensures head[..n] + head[n..] + sep + (tail + [NUL] + more) == (head + sep + tail + [NUL]) + more
  {
    assert head == head[..n] + head[n..];
  }

  lemma Prefixed(p: string, own: string)
    requires p <= own
    ensures own == p + own[|p|..]
  {
  }

  /** A second call inside the first token that stops at the separator. */
  lemma NextCuts(line: Line, own: string, n: nat)
    requires IsLine(line) && Uncut(line) <= own && n < |line.head|
    ensures var t := Strtok(own, n, [line.sep]);
            && t.next == |line.head| + 1 && t.buf == CutUp(line) + own[|Uncut(line)|..]
            && t.start == Some(n) && CStr(t.buf, n) == line.head[n..]
  {
    var pre, s, more := line.head[..n], line.head[n..], own[|Uncut(line)|..];
    assert forall c :: c in s ==> c in line.head;
    StrtokInner(pre, s, line.sep, line.tail + [NUL] + more, [line.sep]);
    Prefixed(Uncut(line), own);
    Regrouped(line.head, n, [line.sep], line.tail, more);
    Regrouped(line.head, n, [NUL], line.tail, more);
  }

  lemma CharOfLine(line: Line, k: nat)
    requires IsLine(line) && k < |Uncut(line)| - 1
    ensures Uncut(line)[k] != NUL
    ensures if k == |line.head| then Uncut(line)[k] == line.sep else !IsDelimiter(Uncut(line)[k])
  {
    if k < |line.head| {
      assert line.head[k] in line.head;
    } else if k > |line.head| {
      assert line.tail[k - |line.head| - 1] in line.tail;
    }
  }

  lemma InPieces(p: string, own: string, n: nat)
    requires p <= own && n < |p| && p[|p| - 1] == NUL
    ensures p[..n] + p[n..|p| - 1] + [NUL] + own[|p|..] == own
  {
    assert p[..n] + p[n..|p| - 1] + [NUL] == p;
    Prefixed(p, own);
  }

  lemma RestOfLine(line: Line, own: string, n: nat, delims: string)
    requires IsLine(line) && Uncut(line) <= own && n < |Uncut(line)| - 1
    requires forall c :: c in delims ==> IsDelimiter(c)
    requires n <= |line.head| ==> line.sep !in delims
    ensures Strtok(own, n, delims).buf == own && Strtok(own, n, delims).next == |Uncut(line)| - 1
  {
    var p := Uncut(line);
    var s := p[n..|p| - 1];
    forall k | 0 <= k < |s|
      ensures s[k] !in delims && s[k] != NUL
    {
      CharOfLine(line, n + k);
    }
    StrtokLast(p[..n], s, own[|p|..], delims);
    InPieces(p, own, n);
  }

  /** A second call there that does not, or one right at the separator, takes the rest whole. */
  lemma NextTakesRest(line: Line, own: string, n: nat, delims: string)
    requires IsLine(line) && Uncut(line) <= own && n <= |line.head|
    requires delims == ":" || delims == "," || delims == " "
    requires n < |line.head| ==> line.sep !in delims
    ensures var t := Strtok(own, n, delims);
            t.buf == own && t.next == |Uncut(line)| - 1
  {
    var rest := own[|Uncut(line)|..];
    if line.sep !in delims {
      RestOfLine(line, own, n, delims);
    } else {
      assert own[n] == line.sep;
      assert Strtok(own, n, delims) == Strtok(own, n + 1, delims) by {
        assert SkipDelimiters(own, n, delims) == SkipDelimiters(own, n + 1, delims);
      }
      RestOfLine(line, own, n + 1, delims);
    }
  }

  lemma CutUpText(line: Line, own: string)
    requires IsLine(line) && CutUp(line) <= own
    ensures own[..|line.head|] == line.head && own[|line.head|] == NUL
    ensures CStr(own, |line.head|) == "" && CStr(own, |line.head| + 1) == line.tail
    ensures CStr(CutUp(line), |line.head|) == "" && CStr(CutUp(line), |line.head| + 1) == line.tail
  {
    var post := own[|CutUp(line)|..];
    CStrAt(line.head + [NUL], line.tail, post);
    assert own == (line.head + [NUL]) + line.tail + [NUL] + post;
    CStrAt(line.head + [NUL], line.tail, "");
    assert CutUp(line) == (line.head + [NUL]) + line.tail + [NUL] + "";
  }

  /** The memory after a first call, with the place at the separator or behind it. */
  lemma AfterFirst(line: Line, own: string, cut: bool)
    requires IsLine(line) && CutUp(line) <= own
    ensures var m := Memory(own, InOwn(if cut then |line.head| else |line.head| + 1));
            && OwnKept(m, line.head) && Settled(m, CutUp(line))
            && TextAt(m) == (if cut then "" else line.tail)
  {
    CutUpText(line, own);
    forall k | |line.head| <= k < |CutUp(line)|
      ensures !IsDelimiter(CutUp(line)[k])
    {
      var j := k - |line.head| - 1;
      assert 0 <= j < |line.tail| ==> line.tail[j] in line.tail;
    }
  }

  /** A second call while the place is in the first token or at the separator. */
  lemma NextInHead(line: Line, m: Memory, delims: string)
    requires IsLine(line) && Uncut(line) <= m.own && m.place.InOwn? && m.place.next <= |line.head|
    requires delims == ":" || delims == "," || delims == " "
    ensures Settled(Perform(m, Next(delims)),
                    if m.place.next < |line.head| && line.sep in delims then CutUp(line) else Uncut(line))
  {
    var n := m.place.next;
    if n < |line.head| && line.sep in delims {
      assert delims == [line.sep];
      NextCuts(line, m.own, n);
      AfterFirst(line, Strtok(m.own, n, delims).buf, false);
    } else {
      NextTakesRest(line, m.own, n, delims);
    }
  }

  /** Behind the separator, or elsewhere, no call writes into the line. */
  lemma BehindHead(line: Line, m: Memory)
    requires IsLine(line) && Uncut(line) <= m.own && (m.place.InOwn? ==> m.place.next > |line.head|)
    ensures Settled(m, Uncut(line))
  {
    forall k | |line.head| < k < |Uncut(line)|
      ensures !IsDelimiter(Uncut(line)[k])
    {
      var j := k - |line.head| - 1;
      assert j < |line.tail| ==> line.tail[j] in line.tail;
    }
  }

  /** What calls before the first one do to the line. */
  lemma {:induction false} BeforeLeaves(line: Line, m: Memory, calls: seq<Call>)
    requires IsLine(line) && Uncut(line) <= m.own && AllOne(calls)
    ensures (if Cuts(line, Position(m), calls) then CutUp(line) else Uncut(line)) <= PerformAll(m, calls).own
    decreases |calls|
  {
    if m.place.Elsewhere? || m.place.next > |line.head| {
      BehindHead(line, m);
      OneIsFew(calls);
      SettledStays(m, Uncut(line), calls);
    } else if calls != [] {
      OneIsFew(calls);
      OneIsFew(calls[1..]);
      var m' := Perform(m, calls[0]);
      match calls[0] {
        case Start(buffer, delims) =>
          BehindHead(line, m');
          SettledStays(m', Uncut(line), calls[1..]);
        case Next(delims) =>
          NextInHead(line, m, delims);
          SettledStays(m', if Cuts(line, Position(m), calls) then CutUp(line) else Uncut(line), calls[1..]);
        case Refilled(text) => BeforeLeaves(line, m, calls[1..]);
      }
    }
  }

  /** A thread's first call for a line: the line is read into its buffer, `before` comes, and it cuts
      off the first token. */
  function CutFirst(line: Line, m: Memory, before: seq<Call>): (Option<string>, Memory) {
    var m' := PerformAll(Memory(Fill(m.own, line), m.place), before);
    var t := Strtok(m'.own, 0, [line.sep]);
    (TokenText(t), Memory(t.buf, InOwn(t.next)))
  }

  lemma FirstOfCutUp(line: Line, own: string)
    requires IsLine(line) && CutUp(line) <= own
    ensures var t := Strtok(own, 0, [line.sep]);
            TokenText(t) == Some(line.head) && t.next == |line.head| && t.buf == own
  {
    var post := own[|line.head| + 1..];
    StrtokLast("", line.head, post, [line.sep]);
    assert own == "" + line.head + [NUL] + post;
  }

  /** The token is always the line's; whether the second token is still to be had depends on `before`. */
  lemma FirstCallLeaves(line: Line, m: Memory, before: seq<Call>)
    requires IsLine(line) && AllOne(before)
    ensures var (token, m') := CutFirst(line, m, before);
            var cut := Cuts(line, Position(m), before);
            && token == Some(line.head) && OwnKept(m', line.head)
            && m'.place == InOwn(if cut then |line.head| else |line.head| + 1)
            && TextAt(m') == (if cut then "" else line.tail)
            && Settled(m', CutUp(line))
  {
    var m0 := Memory(Fill(m.own, line), m.place);
    BeforeLeaves(line, m0, before);
    var own := PerformAll(m0, before).own;
    if Cuts(line, Position(m), before) {
      FirstOfCutUp(line, own);
      AfterFirst(line, own, true);
    } else {
      NextCuts(line, own, 0);
      assert line.head[0..] == line.head;
      AfterFirst(line, Strtok(own, 0, [line.sep]).buf, false);
    }
  }

  /** Where calls leave the place when it is at the separator of a line that has been cut, or behind it. */
  lemma PositionFrom(line: Line, m: Memory, cut: bool, calls: seq<Call>)
    requires IsLine(line) && AllFew(calls) && Settled(m, CutUp(line))
    requires m.place == InOwn(if cut then |line.head| else |line.head| + 1)
    ensures Position(PerformAll(m, calls))
         == if HasStart(calls) then None
            else if HasNext(calls) then Some(if cut then |line.head| else |CutUp(line)| - 1)
            else Some(if cut then |line.head| else |line.head| + 1)
  {
    CutUpText(line, CutUp(line));
    PositionAfter(m, CutUp(line), calls);
  }

  /** Where calls after the first one for a line leave the place. */
  lemma PositionInLine(line: Line, m: Memory, before: seq<Call>, calls: seq<Call>)
    requires IsLine(line) && AllOne(before) && AllOne(calls)
    ensures var cut := Cuts(line, Position(m), before);
            Position(PerformAll(CutFirst(line, m, before).1, calls))
            == if HasStart(calls) then None
               else if HasNext(calls) then Some(if cut then |line.head| else |CutUp(line)| - 1)
               else Some(if cut then |line.head| else |line.head| + 1)
  {
    FirstCallLeaves(line, m, before);
    OneIsFew(calls);
    PositionFrom(line, CutFirst(line, m, before).1, Cuts(line, Position(m), before), calls);
  }
}
