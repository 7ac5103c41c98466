/**
  Three readers that bound what they keep: captured process output, the body of a media part, and the request
  line of the login callback. Each is fed by reads whose sizes the peer chooses; the results must depend on
  the bytes and not on how they are cut up.
 */
module BoundedReaders {
  import opened Wrappers

  /** All bytes of the chunks, in order. */
  function Concat(chunks: seq<Bytes>): Bytes {
    if chunks == [] then [] else chunks[0] + Concat(chunks[1..])
  }

  lemma {:induction false} ConcatSnoc(chunks: seq<Bytes>, last: Bytes)
    ensures Concat(chunks + [last]) == Concat(chunks) + last
  {
    if chunks == [] {
      assert [last][1..] == [];
    } else {
      ConcatSnoc(chunks[1..], last);
      assert (chunks + [last])[1..] == chunks[1..] + [last];
    }
  }

  lemma ConcatStep(chunks: seq<Bytes>, i: nat)
    requires i < |chunks|
    ensures Concat(chunks[..i + 1]) == Concat(chunks[..i]) + chunks[i]
  {
    ConcatSnoc(chunks[..i], chunks[i]);
    assert chunks[..i] + [chunks[i]] == chunks[..i + 1];
  }

  // ----- Captured process output

  /** `read_capped`: keep the first `limit` bytes and drain the rest. */
  method ReadCapped(pieces: seq<Bytes>, limit: nat) returns (retained: Bytes)
    ensures retained == Concat(pieces)[..Min(limit, |Concat(pieces)|)]
  {
    retained := [];
    for i := 0 to |pieces|
      invariant retained == Concat(pieces[..i])[..Min(limit, |Concat(pieces[..i])|)]
    {
      ConcatStep(pieces, i);
      var remaining := Max(0, limit - |retained|);
      retained := retained + pieces[i][..Min(|pieces[i]|, remaining)];
    }
    assert pieces[..|pieces|] == pieces;
  }

  // ----- The body of a media part

  datatype Frame = Data(bytes: Bytes) | Interrupted | Stalled

  datatype BodyError = TooLarge | BadRequest | Timeout

  /** The data before the first frame that is not data. */
  function DataOf(frames: seq<Frame>): seq<Bytes> {
    if frames == [] || !frames[0].Data? then [] else [frames[0].bytes] + DataOf(frames[1..])
  }

  lemma {:induction false} DataOfPrefix(frames: seq<Frame>, i: nat)
    requires i <= |frames| && forall j :: 0 <= j < i ==> frames[j].Data?
    ensures i <= |DataOf(frames)| && forall j :: 0 <= j < i ==> DataOf(frames)[j] == frames[j].bytes
    ensures i == |frames| || !frames[i].Data? ==> |DataOf(frames)| == i
  {
    if i > 0 {
      DataOfPrefix(frames[1..], i - 1);
    }
  }

  lemma {:induction false} ConcatGrows(chunks: seq<Bytes>, i: nat)
    requires i <= |chunks|
    ensures Concat(chunks[..i]) <= Concat(chunks)
  {
    if i > 0 {
      ConcatGrows(chunks[1..], i - 1);
      assert chunks[..i][1..] == chunks[1..][..i - 1];
    }
  }

  /** `buffer_upload_body`: the body is accepted iff it arrives whole and fits, however it is framed. */
  method BufferUploadBody(frames: seq<Frame>) returns (body: Result<Bytes, BodyError>)
    ensures body.Ok? <==> |DataOf(frames)| == |frames| && |Concat(DataOf(frames))| <= MAX_CHUNK_BYTES
    ensures body.Ok? ==> body.value == Concat(DataOf(frames))
    ensures body == Err(TooLarge) <==> |Concat(DataOf(frames))| > MAX_CHUNK_BYTES
    ensures body == Err(Timeout) <==>
            && |Concat(DataOf(frames))| <= MAX_CHUNK_BYTES
            && |DataOf(frames)| < |frames| && frames[|DataOf(frames)|].Stalled?
  {
    var bytes: Bytes := [];
    ghost var data := DataOf(frames);
    for i := 0 to |frames|
      invariant forall j :: 0 <= j < i ==> frames[j].Data?
      invariant i <= |data| && bytes == Concat(data[..i]) && |bytes| <= MAX_CHUNK_BYTES
    {
      DataOfPrefix(frames, i);
      if !frames[i].Data? {
        assert data[..i] == data;
        return Err(if frames[i].Stalled? then Timeout else BadRequest);
      }
      DataOfPrefix(frames, i + 1);
      ConcatStep(data, i);
      ConcatGrows(data, i + 1);
      if |bytes| + |frames[i].bytes| > MAX_CHUNK_BYTES {
        return Err(TooLarge);
      }
      bytes := bytes + frames[i].bytes;
    }
    DataOfPrefix(frames, |frames|);
    assert data[..|frames|] == data;
    body := Ok(bytes);
  }

  // ----- The request line of the login callback

  const LINE_LIMIT: nat := 4096
  const READ_SIZE: nat := 256
  const NEWLINE: Byte := 10
  const RETURN: Byte := 13

  datatype LineError = LineTooLarge | EmptyLine | ClosedEarly

  predicate FirstNewline(s: Bytes, at: nat) {
    at < |s| && s[at] == NEWLINE && forall j :: 0 <= j < at ==> s[j] != NEWLINE
  }

  function TrimReturns(line: Bytes): Bytes {
    if line != [] && line[|line| - 1] == RETURN then TrimReturns(line[..|line| - 1]) else line
  }

  /** The request line before a newline, or the error for an empty one. */
  function LineBefore(s: Bytes, at: nat): Result<Bytes, LineError>
    requires at <= |s|
  {
    var line := TrimReturns(s[..at]);
    if line == [] then Err(EmptyLine) else Ok(line)
  }

  /** Only returns at the end are trimmed, and all of them. */
  lemma {:induction false} TrimReturnsIs(line: Bytes)
    ensures var t := TrimReturns(line);
            && t <= line && (t == [] || t[|t| - 1] != RETURN)
            && forall i :: |t| <= i < |line| ==> line[i] == RETURN
  {
    if line != [] && line[|line| - 1] == RETURN {
      TrimReturnsIs(line[..|line| - 1]);
    }
  }

  /** The line is the bytes before the newline but for returns at their end, and never empty. */
  lemma LineIs(s: Bytes, at: nat)
    requires at <= |s|
    ensures match LineBefore(s, at)
            case Ok(line) =>
              && line != [] && line <= s[..at] && line[|line| - 1] != RETURN
              && forall i :: |line| <= i < at ==> s[i] == RETURN
            case Err(error) => error == EmptyLine && forall i :: 0 <= i < at ==> s[i] == RETURN
  {
    TrimReturnsIs(s[..at]);
    assert forall i :: 0 <= i < at ==> s[..at][i] == s[i];
  }

  /** Where the read that delivers position `at` ends. */
  function EndOfRead(pieces: seq<Bytes>, at: nat): nat
    requires at < |Concat(pieces)|
  {
    if at < |pieces[0]| then |pieces[0]| else |pieces[0]| + EndOfRead(pieces[1..], at - |pieces[0]|)
  }

  /** Where the first newline is. */
  function NewlineAt(s: Bytes): Option<nat> {
    if s == [] then None
    else if s[0] == NEWLINE then Some(0)
    else
      match NewlineAt(s[1..])
      case None => None
      case Some(at) => Some(at + 1)
  }

  lemma {:induction false} NewlineAtIs(s: Bytes)
    ensures if NewlineAt(s).Some? then FirstNewline(s, NewlineAt(s).value) else NEWLINE !in s
    ensures forall at: nat :: FirstNewline(s, at) ==> NewlineAt(s) == Some(at)
  {
    if s != [] && s[0] != NEWLINE {
      NewlineAtIs(s[1..]);
      forall at: nat | FirstNewline(s, at) ensures NewlineAt(s) == Some(at) {
        assert FirstNewline(s[1..], at - 1);
      }
    }
  }

  /** The line or error that a sequence of reads gives: the newline counts iff its read ends within the limit. */
  function RequestLine(pieces: seq<Bytes>): Result<Bytes, LineError> {
    var s := Concat(pieces);
    NewlineAtIs(s);
    match NewlineAt(s)
    case Some(at) => if EndOfRead(pieces, at) <= LINE_LIMIT then LineBefore(s, at) else Err(LineTooLarge)
    case None => Err(if |s| <= LINE_LIMIT then ClosedEarly else LineTooLarge)
  }

  method FindNewline(s: Bytes) returns (at: Option<nat>)
    ensures at.Some? ==> FirstNewline(s, at.value)
    ensures at.None? ==> NEWLINE !in s
  {
    for i := 0 to |s|
      invariant NEWLINE !in s[..i]
    {
      if s[i] == NEWLINE {
        return Some(i);
      }
    }
    return None;
  }

  /**
    `read_http_request_line` over reads of at most 256 bytes; interrupted reads deliver nothing and are left
    out. The largest buffer is returned beside the line.
   */
  method ReadRequestLine(pieces: seq<Bytes>) returns (line: Result<Bytes, LineError>, buffered: nat)
    requires forall i :: 0 <= i < |pieces| ==> 0 < |pieces[i]| <= READ_SIZE
    ensures buffered <= LINE_LIMIT + READ_SIZE
    ensures line == RequestLine(pieces)
  {
    NewlineAtIs(Concat(pieces));
    var request: Bytes := [];
    buffered := 0;
    var i := 0;
    while true
      invariant 0 <= i <= |pieces| && request == Concat(pieces[..i]) && |request| == buffered
      invariant |request| <= LINE_LIMIT + READ_SIZE
      invariant i > 0 ==> |Concat(pieces[..i - 1])| <= LINE_LIMIT && NEWLINE !in Concat(pieces[..i - 1])
      decreases |pieces| - i
    {
      ConcatGrows(pieces, i);
      var newline := FindNewline(request);
      if |request| > LINE_LIMIT {
        StreamIsTooLarge(pieces, i);
        return Err(LineTooLarge), buffered;
      }
      if newline.Some? {
        StreamHasLine(pieces, i, newline.value);
        return LineBefore(request, newline.value), buffered;
      }
      if i == |pieces| {
        assert pieces[..i] == pieces;
        return Err(ClosedEarly), buffered;
      }
      ConcatStep(pieces, i);
      request := request + pieces[i];
      buffered := |request|;
      i := i + 1;
    }
  }

  /** The read that delivers `at` ends at the first prefix longer than `at`. */
  lemma {:induction false} EndOfReadIs(pieces: seq<Bytes>, i: nat, at: nat)
    requires 0 < i <= |pieces| && at < |Concat(pieces)|
    requires |Concat(pieces[..i - 1])| <= at < |Concat(pieces[..i])|
    ensures EndOfRead(pieces, at) == |Concat(pieces[..i])|
  {
    assert pieces[..i][1..] == pieces[1..][..i - 1];
    if i > 1 {
      assert pieces[..i - 1][1..] == pieces[1..][..i - 2];
      EndOfReadIs(pieces[1..], i - 1, at - |pieces[0]|);
    } else {
      assert pieces[..1][1..] == [];
    }
  }

  lemma {:induction false} EndOfReadBeyond(pieces: seq<Bytes>, at: nat)
    requires at < |Concat(pieces)|
    ensures at < EndOfRead(pieces, at)
  {
    if at >= |pieces[0]| {
      EndOfReadBeyond(pieces[1..], at - |pieces[0]|);
    }
  }

  lemma StreamHasLine(pieces: seq<Bytes>, i: nat, at: nat)
    requires 0 < i <= |pieces| && FirstNewline(Concat(pieces[..i]), at)
    requires NEWLINE !in Concat(pieces[..i - 1])
    ensures FirstNewline(Concat(pieces), at) && EndOfRead(pieces, at) == |Concat(pieces[..i])|
    ensures forall other :: FirstNewline(Concat(pieces), other) ==> other == at
    ensures LineBefore(Concat(pieces), at) == LineBefore(Concat(pieces[..i]), at)
  {
    ConcatGrows(pieces, i);
    ConcatStep(pieces, i - 1);
    assert Concat(pieces[..i - 1]) <= Concat(pieces[..i]);
    assert at >= |Concat(pieces[..i - 1])|;
    EndOfReadIs(pieces, i, at);
    assert Concat(pieces)[..at] == Concat(pieces[..i])[..at];
  }

  lemma StreamIsTooLarge(pieces: seq<Bytes>, i: nat)
    requires 0 < i <= |pieces| && |Concat(pieces[..i])| > LINE_LIMIT
    requires NEWLINE !in Concat(pieces[..i - 1])
    ensures |Concat(pieces)| > LINE_LIMIT
    ensures forall at: nat :: FirstNewline(Concat(pieces), at) ==> EndOfRead(pieces, at) > LINE_LIMIT
  {
    ConcatGrows(pieces, i);
    ConcatGrows(pieces, i - 1);
    ConcatStep(pieces, i - 1);
    forall at: nat | FirstNewline(Concat(pieces), at) ensures EndOfRead(pieces, at) > LINE_LIMIT {
      assert at >= |Concat(pieces[..i - 1])|;
      if at < |Concat(pieces[..i])| {
        EndOfReadIs(pieces, i, at);
      } else {
        EndOfReadBeyond(pieces, at);
      }
    }
  }

  /** The read that delivers a position ends after it, within one read's length and within the stream. */
  lemma {:induction false} EndOfReadBounds(pieces: seq<Bytes>, at: nat)
    requires forall i :: 0 <= i < |pieces| ==> 0 < |pieces[i]| <= READ_SIZE
    requires at < |Concat(pieces)|
    ensures at < EndOfRead(pieces, at) <= Min(at + READ_SIZE, |Concat(pieces)|)
  {
    if at >= |pieces[0]| {
      EndOfReadBounds(pieces[1..], at - |pieces[0]|);
    }
  }

  /** The pieces are the stream, cut into reads. */
  predicate IsCut(pieces: seq<Bytes>, s: Bytes) {
    Concat(pieces) == s && forall i :: 0 <= i < |pieces| ==> 0 < |pieces[i]| <= READ_SIZE
  }

  /** Chunk independence: with the newline at 3840 or before, every way to cut the stream gives the same line. */
  lemma LineIsChunkIndependent(s: Bytes, at: nat, pieces: seq<Bytes>)
    requires IsCut(pieces, s) && FirstNewline(s, at)
    ensures at <= LINE_LIMIT - READ_SIZE || |s| <= LINE_LIMIT ==> RequestLine(pieces) == LineBefore(s, at)
    ensures LINE_LIMIT <= at ==> RequestLine(pieces) == Err(LineTooLarge)
  {
    NewlineAtIs(s);
    EndOfReadBounds(pieces, at);
  }

  lemma {:induction false} EndOfReadAfter(front: seq<Bytes>, rest: seq<Bytes>, at: nat)
    requires |Concat(front)| <= at < |Concat(front)| + |Concat(rest)|
    ensures Concat(front + rest) == Concat(front) + Concat(rest)
    ensures EndOfRead(front + rest, at) == |Concat(front)| + EndOfRead(rest, at - |Concat(front)|)
  {
    if front == [] {
      assert front + rest == rest;
    } else {
      EndOfReadAfter(front[1..], rest, at - |front[0]|);
      assert (front + rest)[1..] == front[1..] + rest;
    }
  }

  /** One way to cut a stream. */
  function FullReads(s: Bytes): seq<Bytes> {
    if s == [] then [] else if |s| <= READ_SIZE then [s] else [s[..READ_SIZE]] + FullReads(s[READ_SIZE..])
  }

  lemma {:induction false} FullReadsCut(s: Bytes)
    ensures IsCut(FullReads(s), s)
  {
    if |s| > READ_SIZE {
      FullReadsCut(s[READ_SIZE..]);
      assert FullReads(s)[1..] == FullReads(s[READ_SIZE..]);
    } else if s != [] {
      assert [s][1..] == [];
    }
  }

  /** A stream cut in full reads but for one read of its own in the middle. */
  lemma CutAt(s: Bytes, from: nat, to: nat, at: nat) returns (pieces: seq<Bytes>)
    requires from <= at < to <= |s| && to - from <= READ_SIZE
    ensures IsCut(pieces, s) && EndOfRead(pieces, at) == to
  {
    var front, read, back := FullReads(s[..from]), s[from..to], FullReads(s[to..]);
    FullReadsCut(s[..from]);
    FullReadsCut(s[to..]);
    var rest := [read] + back;
    assert rest[1..] == back && Concat(rest) == read + s[to..];
    assert s[..from] + (read + s[to..]) == s;
    pieces := front + rest;
    EndOfReadAfter(front, rest, at);
  }

  /**
    All ways to cut a stream give the same line exactly when the first newline, if there is one, is at 3840 or
    before, or at 4096 or after, or the whole stream is within the limit.
   */
  lemma CutsAgreeIff(s: Bytes)
    ensures (forall p, q :: IsCut(p, s) && IsCut(q, s) ==> RequestLine(p) == RequestLine(q)) <==>
            var at := NewlineAt(s);
            at.None? || at.value <= LINE_LIMIT - READ_SIZE || LINE_LIMIT <= at.value || |s| <= LINE_LIMIT
  {
    NewlineAtIs(s);
    var at := NewlineAt(s);
    if at.None? || at.value <= LINE_LIMIT - READ_SIZE || LINE_LIMIT <= at.value || |s| <= LINE_LIMIT {
      forall p, q | IsCut(p, s) && IsCut(q, s) ensures RequestLine(p) == RequestLine(q) {
        if at.Some? {
          LineIsChunkIndependent(s, at.value, p);
          LineIsChunkIndependent(s, at.value, q);
        }
      }
    } else {
      var late := CutAt(s, LINE_LIMIT + 1 - READ_SIZE, LINE_LIMIT + 1, at.value);
      var early := CutAt(s, at.value, at.value + 1, at.value);
      assert RequestLine(late) == Err(LineTooLarge) != RequestLine(early);
    }
  }
}
