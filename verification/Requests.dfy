/** Request numbers (generateUniqueRequestID of v4/server/server.c) and the first message of a
    connection (v4/client/client.c, handleClients of v4/server/server.c). */
module Requests {
  import opened Wrappers
  import opened CText

  /** From the time in seconds and the value of rand(). */
  function GenerateUniqueRequestID(now: nat, random: nat): (id: int)
    ensures 0 <= id <= 999_999_999
    ensures id / 1000 == now % 1_000_000 && id % 1000 == random % 1000
  {
    var timePart := now % 1_000_000;
    var randomPart := random % 1000;
    timePart * 1000 + randomPart
  }

  /** Exactly when two requests are given the same number. */
  lemma SameIdIff(now: nat, random: nat, now': nat, random': nat)
    ensures GenerateUniqueRequestID(now, random) == GenerateUniqueRequestID(now', random')
       <==> now % 1_000_000 == now' % 1_000_000 && random % 1000 == random' % 1000
  {
    var t, r := now % 1_000_000, random % 1000;
    var t', r' := now' % 1_000_000, random' % 1000;
    if 1000 * t + r == 1000 * t' + r' {
      assert 1000 * (t - t') == r' - r;
      assert t == t';
    }
  }

  /** Requests created at different seconds less than 10^6 apart never share a number. */
  lemma DifferentTimesDiffer(now: nat, random: nat, now': nat, random': nat)
    requires now < now' < now + 1_000_000
    ensures GenerateUniqueRequestID(now, random) != GenerateUniqueRequestID(now', random')
  {
    SameIdIff(now, random, now', random');
  }

  /** The time leads: of two requests of the same 10^6-second period, the one of the later
      second has the larger number. */
  lemma LaterIsLarger(now: nat, random: nat, now': nat, random': nat)
    requires now % 1_000_000 < now' % 1_000_000
    ensures GenerateUniqueRequestID(now, random) < GenerateUniqueRequestID(now', random')
  {
    assert random % 1000 < 1000;
  }

  /** Two requests of the same second can share one. */
  lemma NotUnique(now: nat)
    ensures exists r, r' :: r != r' && 0 <= r && 0 <= r'
                         && GenerateUniqueRequestID(now, r) == GenerateUniqueRequestID(now, r')
  {
    assert GenerateUniqueRequestID(now, 7) == GenerateUniqueRequestID(now, 1007);
  }

  /** What handleClients makes of a first message: a new request, a status query, another
      command (ignored), or a NULL token handed on to strcmp or atoi. */
  datatype Request = New | StatusOf(id: int) | Ignored | NullToken

  /** `buffer` is the message with a NUL after it. */
  function ParseRequest(buffer: string): Request {
    var command := Strtok(buffer, 0, ":");
    if command.start.None? then NullToken
    else
      var status := CStr(command.buf, command.start.value);
      if status == "status" then
        var argument := Strtok(command.buf, command.next, ":");
        if argument.start.None? then NullToken
        else StatusOf(Atoi(CStr(argument.buf, argument.start.value)))
      else if status == "new" then New
      else Ignored
  }

  /** The client's status message; the rest of its 1024-byte buffer follows the NUL. */
  function StatusMessage(id: int): string {
    "status" + ":" + Decimal(id)
  }

  /** The message once its colon has been overwritten. */
  function CutMessage(id: int, rest: string): string {
    "status" + [NUL] + Decimal(id) + [NUL] + rest
  }

  lemma StatusIsToken()
    ensures IsToken("status", ":")
  {
  }

  lemma Regroup(s: string, c: string, d: string, n: string, rest: string)
    ensures s + c + d + n + rest == "" + s + c + (d + n + rest)
  {
  }

  lemma FirstWord(id: int, rest: string)
    ensures Strtok(StatusMessage(id) + [NUL] + rest, 0, ":") == Token(CutMessage(id, rest), Some(0), 7)
    ensures CStr(CutMessage(id, rest), 0) == "status"
  {
    var s, number := "status", Decimal(id);
    StatusIsToken();
    StrtokInner("", s, ':', number + [NUL] + rest, ":");
    Regroup(s, ":", number, [NUL], rest);
    Regroup(s, [NUL], number, [NUL], rest);
  }

  lemma SecondWord(id: int, rest: string, delims: string)
    requires delims == ":" || delims == " "
    ensures Strtok(CutMessage(id, rest), 7, delims) == Token(CutMessage(id, rest), Some(7), 7 + |Decimal(id)|)
    ensures CStr(CutMessage(id, rest), 7) == Decimal(id)
  {
    DecimalChars(id);
    StrtokLast("status" + [NUL], Decimal(id), rest, delims);
  }

  /** The server reads back the id that the client printed. */
  lemma StatusRoundTrip(id: int, rest: string)
    ensures ParseRequest(StatusMessage(id) + [NUL] + rest) == StatusOf(id)
  {
    FirstWord(id, rest);
    SecondWord(id, rest, ":");
    AtoiOfDecimal(id, []);
    assert Decimal(id) + [] == Decimal(id);
  }

  /** "new" is recognised whatever the client's argument memory holds after it. */
  lemma NewRecognised(rest: string)
    ensures ParseRequest("new" + [NUL] + rest) == New
  {
    StrtokLast("", "new", rest, ":");
    assert "" + "new" + [NUL] + rest == "new" + [NUL] + rest;
  }

  /** Any other command is ignored, with or without an argument. */
  lemma OthersIgnored(command: string, rest: string)
    requires IsToken(command, ":") && command != "new" && command != "status"
    ensures ParseRequest(command + [NUL] + rest) == Ignored
    ensures ParseRequest(command + ":" + rest + [NUL]) == Ignored
  {
    StrtokLast("", command, rest, ":");
    assert "" + command + [NUL] + rest == command + [NUL] + rest;
    StrtokInner("", command, ':', rest + [NUL], ":");
    assert "" + command + [':'] + (rest + [NUL]) == command + ":" + rest + [NUL];
  }

  /** A status command without an argument, and a message without a command, give a NULL token. */
  lemma NullTokens(rest: string)
    ensures ParseRequest("status" + [NUL] + rest) == NullToken
    ensures ParseRequest([NUL] + rest) == NullToken
  {
    StatusIsToken();
    StrtokLast("", "status", rest, ":");
    assert "" + "status" + [NUL] + rest == "status" + [NUL] + rest;
  }

  /** The text that tells a client its number, for a buffer of 30 bytes. */
  function Reply(id: int): string {
    "Your RequestID is : " + Decimal(id) + "\n"
  }

  /** With its NUL it fits exactly when the number has at most eight digits; the numbers of nine
      need one byte more. */
  lemma ReplyFits(now: nat, random: nat)
    ensures var id := GenerateUniqueRequestID(now, random);
            && (|Reply(id)| + 1 <= 30 <==> id <= 99_999_999)
            && (|Reply(id)| + 1 <= 30 <==> now % 1_000_000 < 100_000)
            && |Reply(id)| + 1 <= 31
            && Atoi(Reply(id)[20..]) == id
  {
    var id := GenerateUniqueRequestID(now, random);
    PowersOf10();
    DigitsLength(id, 8);
    DigitsLength(id, 9);
    AtoiOfDecimal(id, "\n");
    assert Reply(id)[20..] == Decimal(id) + "\n";
  }
}
