/** How a source file travels: send_file of v4/client/utils/file_transfer.c and recv_file of
    v4/server/utils/file_transfer.c.

    The client sends a 4-byte size and then the file in chunks of up to 1023 bytes, each with
    one NUL more. The server counts every byte it receives, NULs included, towards the size. */
module FileTransfer {
  import opened Wrappers

  type Byte = b: int | 0 <= b < 256

  const BUFFER_SIZE: nat := 1024
  /** BUFFER_SIZE - 1 */
  const CHUNK: nat := 1023

  /** The payload the sender puts on the wire for a file. */
  function Frame(file: seq<Byte>): (stream: seq<Byte>)
    decreases |file|
  {
    if |file| < CHUNK then file + [0] else file[..CHUNK] + [0] + Frame(file[CHUNK..])
  }

  /** The bytes of a list of sends or of reads, in order. */
  function Concat(segments: seq<seq<Byte>>): seq<Byte> {
    if segments == [] then [] else segments[0] + Concat(segments[1..])
  }

  /** The stream without its NULs. */
  function Strip(stream: seq<Byte>): seq<Byte> {
    if stream == [] then [] else (if stream[0] == 0 then [] else [stream[0]]) + Strip(stream[1..])
  }

  predicate NulFree(file: seq<Byte>) {
    forall k :: 0 <= k < |file| ==> file[k] != 0
  }

  /** Every send or read moves 1 to 1024 bytes. */
  predicate FitBuffer(segments: seq<seq<Byte>>) {
    forall k :: 0 <= k < |segments| ==> 1 <= |segments[k]| <= BUFFER_SIZE
  }

  /** One way in which TCP may deliver the stream. */
  predicate Splits(segments: seq<seq<Byte>>, stream: seq<Byte>) {
    Concat(segments) == stream && FitBuffer(segments)
  }

  /** The bytes of a 32-bit int on a little-endian machine. */
  function IntBytes(n: int): (bytes: seq<Byte>)
    requires 0 <= n < 0x8000_0000
    ensures |bytes| == 4
    ensures bytes[0] == n % 256 && bytes[1] == n / 256 % 256 && bytes[2] == n / 65536 % 256 && bytes[3] == n / 16777216
  {
    [n % 256, n / 256 % 256, n / 65536 % 256, n / 16777216]
  }

  /** The int that memcpy makes of four bytes. */
  function BytesInt(bytes: seq<Byte>): (n: int)
    requires |bytes| == 4
    ensures -0x8000_0000 <= n < 0x8000_0000
    ensures bytes[0] as int + 256 * bytes[1] as int + 65536 * bytes[2] as int + 16777216 * bytes[3] as int
         == if bytes[3] < 128 then n else n + 0x1_0000_0000
  {
    var b0: int, b1: int, b2: int, b3: int := bytes[0], bytes[1], bytes[2], bytes[3];
    var u := b0 + 256 * b1 + 65536 * b2 + 16777216 * b3;
    if u < 0x8000_0000 then u else u - 0x1_0000_0000
  }

  lemma SizeRoundTrip(n: int)
    requires 0 <= n < 0x8000_0000
    ensures BytesInt(IntBytes(n)) == n
  {
    assert n / 65536 == n / 256 / 256;
    assert n / 16777216 == n / 65536 / 256;
  }

  /** An int compared with a size_t. */
  function AsSize(n: int): (size: nat)
    requires -0x8000_0000 <= n < 0x8000_0000
    ensures size < 0x1_0000_0000_0000_0000 && (size == n || size == n + 0x1_0000_0000_0000_0000)
  {
    if n < 0 then n + 0x1_0000_0000_0000_0000 else n
  }

  // ---------------------------------------------------------------- the sender

  lemma {:induction false} ConcatSnoc(segments: seq<seq<Byte>>, last: seq<Byte>)
    ensures Concat(segments + [last]) == Concat(segments) + last
  {
    if segments == [] {
      assert segments + [last] == [last];
      assert [last][1..] == [];
    } else {
      assert (segments + [last])[1..] == segments[1..] + [last];
      ConcatSnoc(segments[1..], last);
    }
  }

  lemma {:induction false} ConcatConcat(a: seq<seq<Byte>>, b: seq<seq<Byte>>)
    ensures Concat(a + b) == Concat(a) + Concat(b)
  {
    if a == [] {
      assert a + b == b;
    } else {
      assert (a + b)[1..] == a[1..] + b;
      ConcatConcat(a[1..], b);
    }
  }

  /** The size on the wire: one byte more for every chunk, and one chunk more than full ones. */
  lemma {:induction false} FrameLength(file: seq<Byte>)
    ensures |Frame(file)| == |file| + |file| / 1023 + 1
    decreases |file|
  {
    if |file| >= CHUNK {
      FrameLength(file[CHUNK..]);
    }
  }

  /** What is still to be sent when the reader stands at `position`. */
  function Unsent(file: seq<Byte>, position: nat, eof: bool): seq<Byte>
    requires position <= |file|
  {
    if eof then [] else Frame(file[position..])
  }

  lemma FrameStep(file: seq<Byte>, position: nat, n: nat)
    requires position <= |file| && n == if |file| - position < CHUNK then |file| - position else CHUNK
    ensures Unsent(file, position, false)
         == (file[position..position + n] + [0]) + Unsent(file, position + n, n < CHUNK)
  {
    var rest := file[position..];
    assert rest[..n] == file[position..position + n];
    if n == CHUNK {
      assert rest[n..] == file[position + n..];
    } else {
      assert rest[..n] == rest;
    }
  }

  /** The sending loop's invariant: what is sent and what is unsent make up the frame. */
  predicate Sending(sends: seq<seq<Byte>>, file: seq<Byte>, position: nat, eof: bool) {
    && position <= |file|
    && Concat(sends) + Unsent(file, position, eof) == Frame(file)
    && (if eof then |sends| == |file| / 1023 + 1 else position == 1023 * |sends|)
    && FitBuffer(sends)
  }

  lemma SendingStarts(file: seq<Byte>)
    ensures Sending([], file, 0, false)
  {
    assert file[0..] == file;
  }

  lemma ChunkCount(size: nat, position: nat, count: nat)
    requires position == 1023 * count && position <= size < position + 1023
    ensures count == size / 1023
  {
  }

  /** One chunk, read at `position`, moves from what is unsent to what is sent. */
  lemma ChunkSent(sends: seq<seq<Byte>>, file: seq<Byte>, position: nat, n: nat, sent: seq<Byte>)
    requires Sending(sends, file, position, false)
    requires n == if |file| - position < CHUNK then |file| - position else CHUNK
    requires sent == file[position..position + n] + [0]
    ensures Sending(sends + [sent], file, position + n, n < CHUNK)
  {
    FrameStep(file, position, n);
    ConcatSnoc(sends, sent);
    Associative(Concat(sends), sent, Unsent(file, position + n, n < CHUNK));
    if n < CHUNK {
      ChunkCount(|file|, position, |sends|);
    }
  }

  lemma SendingEnds(sends: seq<seq<Byte>>, file: seq<Byte>, position: nat)
    requires Sending(sends, file, position, true)
    ensures Concat(sends) == Frame(file) && |sends| == |file| / 1023 + 1 && FitBuffer(sends)
  {
    assert Concat(sends) + [] == Concat(sends);
  }

  predicate Zeroed(buffer: array<Byte>)
    reads buffer
  {
    forall k :: 0 <= k < buffer.Length ==> buffer[k] == 0
  }

  method Bzero(buffer: array<Byte>)
    modifies buffer
    ensures Zeroed(buffer)
  {
    forall k | 0 <= k < buffer.Length {
      buffer[k] := 0;
    }
  }

  /** One turn of the sending loop: `fread` fills the start of the zeroed buffer, and one byte
      more than was read is sent. */
  method ReadAndSend(buffer: array<Byte>, file: seq<Byte>, position: nat) returns (bytesRead: nat, sent: seq<Byte>)
    requires buffer.Length == BUFFER_SIZE && Zeroed(buffer) && position <= |file|
    modifies buffer
    ensures Zeroed(buffer)
    ensures bytesRead == if |file| - position < CHUNK then |file| - position else CHUNK
    ensures sent == file[position..position + bytesRead] + [0]
  {
    bytesRead := if |file| - position < CHUNK then |file| - position else CHUNK;
    forall k | 0 <= k < bytesRead {
      buffer[k] := file[position + k];
    }
    sent := buffer[..bytesRead + 1];
    Bzero(buffer);
  }

  /** The turn, and what it does for the loop. */
  method SendChunk(buffer: array<Byte>, file: seq<Byte>, position: nat, sends: seq<seq<Byte>>)
    returns (sends': seq<seq<Byte>>, position': nat, eof: bool)
    requires buffer.Length == BUFFER_SIZE && Zeroed(buffer) && Sending(sends, file, position, false)
    modifies buffer
    ensures Zeroed(buffer) && Sending(sends', file, position', eof)
    ensures position < position' <= |file| || eof
  {
    var bytesRead, sent := ReadAndSend(buffer, file, position);
    ChunkSent(sends, file, position, bytesRead, sent);
    return sends + [sent], position + bytesRead, bytesRead < CHUNK;
  }

  /** The 4 bytes of the size, as memcpy takes them from the int. */
  method SizeHeader(size: nat) returns (header: seq<Byte>)
    requires size < 0x8000_0000
    ensures |header| == 4 && BytesInt(header) == size
    ensures header[0] == size % 256 && header[1] == size / 256 % 256
    ensures header[2] == size / 65536 % 256 && header[3] == size / 16777216
  {
    header := IntBytes(size);
    SizeRoundTrip(size);
  }

  /** The sending loop. The file ends for the reader when a read comes back short, so a file
      of a whole number of chunks is followed by a chunk that holds only a NUL. */
  method SendFile(file: seq<Byte>) returns (header: seq<Byte>, sends: seq<seq<Byte>>)
    requires |file| < 0x8000_0000
    ensures |header| == 4 && BytesInt(header) == |file|
    ensures header[0] == |file| % 256 && header[1] == |file| / 256 % 256
    ensures header[2] == |file| / 65536 % 256 && header[3] == |file| / 16777216
    ensures Concat(sends) == Frame(file)
    ensures |sends| == |file| / 1023 + 1
    ensures FitBuffer(sends)
  {
    var buffer := new Byte[BUFFER_SIZE];
    Bzero(buffer);
    header := SizeHeader(|file|);
    sends := [];
    var position: nat, eof := 0, false;
    SendingStarts(file);
    while !eof
      invariant Zeroed(buffer)
      invariant Sending(sends, file, position, eof)
      decreases !eof, |file| - position
    {
      sends, position, eof := SendChunk(buffer, file, position, sends);
    }
    SendingEnds(sends, file, position);
  }

  // -------------------------------------------------------------- the receiver

  /** How many reads the receiving loop makes when it has `total` bytes already: it stops after
      the read that reaches `size`, or when nothing is left. */
  function Reads(segments: seq<seq<Byte>>, total: nat, size: nat): (n: nat)
    ensures n <= |segments|
  {
    if segments == [] then 0
    else if total + |segments[0]| >= size then 1
    else 1 + Reads(segments[1..], total + |segments[0]|, size)
  }

  /** What the receiver writes to its file. */
  function Received(segments: seq<seq<Byte>>, size: nat): seq<Byte> {
    Concat(segments[..Reads(segments, 0, size)])
  }

  /** The receiving loop, over the reads that the connection yields before it is closed; a
      read of 0 bytes then ends the transfer with an error. */
  method RecvFile(header: seq<Byte>, segments: seq<seq<Byte>>) returns (r: int, file: seq<Byte>)
    requires |header| == 4
    requires FitBuffer(segments)
    ensures file == Received(segments, AsSize(BytesInt(header)))
    ensures r == if |file| >= AsSize(BytesInt(header)) && segments != [] then 0 else -1
  {
    var fileSize := BytesInt(header);
    var total: nat, k: nat := 0, 0;
    file := [];
    assert segments[0..] == segments;
    assert segments[..0] == [];
    while true
      invariant k <= |segments|
      invariant file == Concat(segments[..k]) && total == |file|
      invariant k > 0 ==> total < AsSize(fileSize)
      invariant Reads(segments, 0, AsSize(fileSize)) == k + Reads(segments[k..], total, AsSize(fileSize))
      decreases |segments| - k
    {
      var buffer: seq<Byte> := if k < |segments| then segments[k] else [];
      var bytesRead := |buffer|;
      total := total + bytesRead;
      if bytesRead <= 0 {
        assert segments[..k] == segments[..Reads(segments, 0, AsSize(fileSize))];
        return -1, file;
      }
      assert segments[..k + 1] == segments[..k] + [segments[k]];
      ConcatSnoc(segments[..k], segments[k]);
      assert segments[k..][1..] == segments[k + 1..];
      file := file + buffer;
      k := k + 1;
      if total >= AsSize(fileSize) {
        break;
      }
    }
    r := 0;
  }

  // ---------------------------------------------------------------- both ends

  lemma {:induction false} StripNulFree(file: seq<Byte>)
    requires NulFree(file)
    ensures Strip(file) == file
  {
    if file != [] {
      StripNulFree(file[1..]);
    }
  }

  lemma {:induction false} StripConcat(a: seq<Byte>, b: seq<Byte>)
    ensures Strip(a + b) == Strip(a) + Strip(b)
  {
    if a == [] {
      assert a + b == b;
    } else {
      assert (a + b)[1..] == a[1..] + b;
      StripConcat(a[1..], b);
    }
  }

  lemma StripChunk(file: seq<Byte>)
    requires NulFree(file)
    ensures Strip(file + [0]) == file
  {
    StripNulFree(file);
    StripConcat(file, [0]);
    assert [0 as Byte][1..] == [];
    assert Strip([0]) == [];
  }

  lemma {:induction false} StripFrame(file: seq<Byte>)
    requires NulFree(file)
    ensures Strip(Frame(file)) == file
    decreases |file|
  {
    if |file| < CHUNK {
      StripChunk(file);
    } else {
      StripChunk(file[..CHUNK]);
      StripConcat(file[..CHUNK] + [0], Frame(file[CHUNK..]));
      StripFrame(file[CHUNK..]);
    }
  }

  /** What the first `t` bytes on the wire say, when they are not all: `t` bytes of the file
      less one for every full chunk among them. */
  lemma {:induction false} StripFramePrefix(file: seq<Byte>, t: nat)
    requires NulFree(file) && t < |Frame(file)|
    ensures t - t / 1024 <= |file|
    ensures Strip(Frame(file)[..t]) == file[..t - t / 1024]
    decreases |file|
  {
    if t < BUFFER_SIZE {
      assert Frame(file)[..t] == file[..t];
      StripNulFree(file[..t]);
    } else {
      var first, rest, u := file[..CHUNK], file[CHUNK..], t - BUFFER_SIZE;
      StripFramePrefix(rest, u);
      StripChunk(first);
      assert Frame(file)[..t] == (first + [0]) + Frame(rest)[..u];
      StripConcat(first + [0], Frame(rest)[..u]);
      assert t - t / 1024 == CHUNK + (u - u / 1024);
      assert first + rest[..u - u / 1024] == file[..t - t / 1024];
    }
  }

  /** The loop stops at the first read that reaches the size, if the stream is long enough. */
  lemma {:induction false} ReadsReach(segments: seq<seq<Byte>>, total: nat, size: nat)
    requires FitBuffer(segments)
    requires segments != [] && total + |Concat(segments)| >= size
    ensures total + |Concat(segments[..Reads(segments, total, size)])| >= size
    ensures total < size ==> total + |Concat(segments[..Reads(segments, total, size)])| < size + BUFFER_SIZE
  {
    if total + |segments[0]| >= size {
      assert segments[..1] == [segments[0]];
      assert segments[..1][1..] == [];
    } else {
      var t := total + |segments[0]|;
      ReadsReach(segments[1..], t, size);
      var n := Reads(segments[1..], t, size);
      assert segments[..1 + n][1..] == segments[1..][..n];
    }
  }

  lemma {:induction false} ConcatPrefix(segments: seq<seq<Byte>>, n: nat)
    requires n <= |segments|
    ensures |Concat(segments[..n])| <= |Concat(segments)|
    ensures Concat(segments[..n]) == Concat(segments)[..|Concat(segments[..n])|]
  {
    assert segments == segments[..n] + segments[n..];
    ConcatConcat(segments[..n], segments[n..]);
  }

  /** For every file without NULs and every way the stream is split: the transfer succeeds, and
      what is written is, but for NULs, a prefix of the file that misses at most one byte for
      every 1024. */
  lemma Delivery(file: seq<Byte>, segments: seq<seq<Byte>>)
    requires NulFree(file) && Splits(segments, Frame(file))
    ensures segments != []
    ensures var got := Received(segments, |file|);
            && |file| <= |got| <= |Frame(file)|
            && got == Frame(file)[..|got|]
            && (|file| > 0 ==> |got| < |file| + BUFFER_SIZE)
            && Strip(got) <= file
            && |Strip(got)| >= |file| - |file| / 1024
  {
    FrameLength(file);
    assert Concat(segments) != [];
    ReadsReach(segments, 0, |file|);
    ConcatPrefix(segments, Reads(segments, 0, |file|));
    var t := |Received(segments, |file|)|;
    if t < |Frame(file)| {
      StripFramePrefix(file, t);
    } else {
      StripFrame(file);
      assert Frame(file)[..t] == Frame(file);
    }
    assert t - t / 1024 >= |file| - |file| / 1024;
  }

  /** The stream cut into reads as large as possible. */
  function Cut(stream: seq<Byte>): (segments: seq<seq<Byte>>)
    ensures FitBuffer(segments)
    decreases |stream|
  {
    if stream == [] then []
    else if |stream| <= BUFFER_SIZE then [stream]
    else [stream[..BUFFER_SIZE]] + Cut(stream[BUFFER_SIZE..])
  }

  lemma {:induction false} ConcatCut(stream: seq<Byte>)
    ensures Concat(Cut(stream)) == stream
    decreases |stream|
  {
    if stream != [] && |stream| > BUFFER_SIZE {
      ConcatCut(stream[BUFFER_SIZE..]);
      assert Cut(stream)[1..] == Cut(stream[BUFFER_SIZE..]);
    } else if stream != [] {
      assert Cut(stream)[1..] == [];
    }
  }

  /** A size that is met exactly at the end of `a` stops the loop there. */
  lemma {:induction false} ReadsOfCut(a: seq<Byte>, b: seq<seq<Byte>>, total: nat)
    requires a != []
    ensures Reads(Cut(a) + b, total, total + |a|) == |Cut(a)|
    decreases |a|
  {
    assert (Cut(a) + b)[0] == Cut(a)[0];
    if |a| > BUFFER_SIZE {
      var rest := a[BUFFER_SIZE..];
      ReadsOfCut(rest, b, total + BUFFER_SIZE);
      assert (Cut(a) + b)[1..] == Cut(rest) + b;
    }
  }

  /** The stream split so that a read ends exactly at the file's size. */
  function WorstSplit(file: seq<Byte>): seq<seq<Byte>>
    requires |file| <= |Frame(file)|
  {
    Cut(Frame(file)[..|file|]) + Cut(Frame(file)[|file|..])
  }

  lemma WorstSplitSplits(file: seq<Byte>)
    requires |file| <= |Frame(file)|
    ensures Splits(WorstSplit(file), Frame(file))
  {
    var a, b := Frame(file)[..|file|], Frame(file)[|file|..];
    ConcatCut(a);
    ConcatCut(b);
    ConcatConcat(Cut(a), Cut(b));
    assert a + b == Frame(file);
  }

  lemma WorstDelivery(file: seq<Byte>)
    requires NulFree(file) && file != [] && |file| < |Frame(file)|
    ensures |Strip(Received(WorstSplit(file), |file|))| == |file| - |file| / 1024
  {
    var a, b := Frame(file)[..|file|], Frame(file)[|file|..];
    ReadsOfCut(a, Cut(b), 0);
    assert WorstSplit(file)[..|Cut(a)|] == Cut(a);
    ConcatCut(a);
    StripFramePrefix(file, |file|);
  }

  /** The file arrives complete under every split of the stream exactly when it has fewer than
      1024 bytes. */
  lemma CompleteIffSmall(file: seq<Byte>)
    requires NulFree(file)
    ensures (forall segments | Splits(segments, Frame(file)) :: Strip(Received(segments, |file|)) == file)
       <==> |file| < BUFFER_SIZE
  {
    FrameLength(file);
    if |file| < BUFFER_SIZE {
      forall segments | Splits(segments, Frame(file))
        ensures Strip(Received(segments, |file|)) == file
      {
        Delivery(file, segments);
      }
    } else {
      WorstSplitSplits(file);
      WorstDelivery(file);
      assert |Strip(Received(WorstSplit(file), |file|))| < |file|;
    }
  }

  /** What is stored is the file byte for byte exactly when it has the file's length and no NUL of
      the framing in it. */
  lemma ExactByLength(file: seq<Byte>, segments: seq<seq<Byte>>)
    requires NulFree(file) && Splits(segments, Frame(file))
    ensures Received(segments, |file|) == file
       <==> |file| < BUFFER_SIZE && |Received(segments, |file|)| == |file|
  {
    Delivery(file, segments);
    var got := Received(segments, |file|);
    if |got| == |file| {
      if |file| < CHUNK {
        assert Frame(file)[..|file|] == file;
      } else {
        assert Frame(file)[..CHUNK] == file[..CHUNK];
        if |file| == CHUNK {
          assert got == file[..CHUNK] == file;
        } else {
          assert Frame(file)[CHUNK] == 0;
          assert got[CHUNK] == 0;
        }
      }
    }
  }

  /** One of the reads ends `t` bytes into the stream. */
  predicate ReadEndsAt(segments: seq<seq<Byte>>, t: nat) {
    exists n :: 1 <= n <= |segments| && |Concat(segments[..n])| == t
  }

  lemma ConcatFirst(segments: seq<seq<Byte>>, n: nat)
    requires FitBuffer(segments) && 1 <= n <= |segments|
    ensures Concat(segments[..n]) == segments[0] + Concat(segments[1..][..n - 1])
    ensures n == 1 ==> |Concat(segments[..n])| == |segments[0]|
    ensures n > 1 ==> |Concat(segments[..n])| > |segments[0]|
  {
    assert segments[..n][1..] == segments[1..][..n - 1];
    if n > 1 {
      assert segments[1..][..n - 1][0] == segments[1];
    }
  }

  /** The loop ends with exactly `size` bytes if and only if one of the reads ends there. */
  lemma {:induction false} StopsExactly(segments: seq<seq<Byte>>, total: nat, size: nat)
    requires FitBuffer(segments) && segments != [] && total <= size
    ensures total + |Concat(segments[..Reads(segments, total, size)])| == size
       <==> ReadEndsAt(segments, size - total)
  {
    var rest, t := segments[1..], total + |segments[0]|;
    ConcatFirst(segments, Reads(segments, total, size));
    if n :| 1 <= n <= |segments| && |Concat(segments[..n])| == size - total {
      ConcatFirst(segments, n);
      assert t < size ==> ReadEndsAt(rest, size - t) by {
        assert |Concat(rest[..n - 1])| == size - t;
      }
    }
    if t < size && rest != [] {
      StopsExactly(rest, t, size);
      if m :| 1 <= m <= |rest| && |Concat(rest[..m])| == size - t {
        ConcatFirst(segments, m + 1);
      }
    }
  }

  /** The NULs stay in the stored file: it is the file byte for byte exactly when the file has
      fewer than 1024 bytes and one of the reads into which TCP splits the stream ends at the
      file's last byte. */
  lemma ByteExactIff(file: seq<Byte>, segments: seq<seq<Byte>>)
    requires NulFree(file) && Splits(segments, Frame(file))
    ensures Received(segments, |file|) == file <==> |file| < BUFFER_SIZE && ReadEndsAt(segments, |file|)
  {
    Delivery(file, segments);
    ExactByLength(file, segments);
    StopsExactly(segments, 0, |file|);
  }

  /** Sender and receiver together. */
  method Transfer(file: seq<Byte>, segments: seq<seq<Byte>>) returns (r: int, stored: seq<Byte>)
    requires |file| < 0x8000_0000 && NulFree(file) && Splits(segments, Frame(file))
    ensures r == 0
    ensures stored == file <==> |file| < BUFFER_SIZE && ReadEndsAt(segments, |file|)
    ensures Strip(stored) <= file && |Strip(stored)| >= |file| - |file| / 1024
    ensures |file| < BUFFER_SIZE ==> Strip(stored) == file
  {
    var header, sends := SendFile(file);
    Delivery(file, segments);
    ByteExactIff(file, segments);
    r, stored := RecvFile(header, segments);
  }
}
