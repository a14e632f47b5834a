/** Newline-delimited frames of at most 4096 bytes (crates/svd-proto/src/framing.rs). */
module Framing {
  import opened Outcomes
  import opened Bits

  const MAX_FRAME_SIZE: nat := 4096
  const NEWLINE: byte := 10

  datatype FrameError = TooLarge | ConnectionClosed | Utf8

  /** A connection: the bytes still to be read on one side and those written on the other. */
  class Stream {
    var pending: seq<byte>

    constructor ()
      ensures pending == []
    {
      pending := [];
    }

    /** The next byte, or none at the end of the stream. */
    method Read() returns (b: Option<byte>)
      modifies this
      ensures old(pending) == [] ==> b.None? && pending == []
      ensures old(pending) != [] ==> b == Some(old(pending)[0]) && pending == old(pending)[1..]
    {
      if pending == [] {
        return None;
      }
      b, pending := Some(pending[0]), pending[1..];
    }

    method Write(bytes: seq<byte>)
      modifies this
      ensures pending == old(pending) + bytes
    {
      pending := pending + bytes;
    }
  }

  /** What reading a frame from these bytes gives, and what is left of them. */
  function ReadFrom(s: seq<byte>, valid: seq<byte> -> bool): (Result<seq<byte>, FrameError>, seq<byte>) {
    FrameFrom(s, 0, valid)
  }

  /** The same with the first n bytes already taken for content. */
  function FrameFrom(s: seq<byte>, n: nat, valid: seq<byte> -> bool): (Result<seq<byte>, FrameError>, seq<byte>)
    requires n <= |s|
    decreases |s| - n
  {
    if n == |s| then (Err(ConnectionClosed), [])
    else if s[n] == NEWLINE then (if valid(s[..n]) then Ok(s[..n]) else Err(Utf8), s[n + 1..])
    else if n + 1 >= MAX_FRAME_SIZE then (Err(TooLarge), s[n + 1..])
    else FrameFrom(s, n + 1, valid)
  }

  /** `read_frame`; whether a content is UTF-8 is given. */
  method ReadFrame(stream: Stream, valid: seq<byte> -> bool) returns (r: Result<seq<byte>, FrameError>)
    modifies stream
    ensures (r, stream.pending) == ReadFrom(old(stream.pending), valid)
  {
    var buf := [];
    ghost var s := stream.pending;
    while true
      invariant |buf| <= |s| && buf == s[..|buf|] && stream.pending == s[|buf|..]
      invariant FrameFrom(s, |buf|, valid) == ReadFrom(s, valid)
      decreases |s| - |buf|
    {
      var next := stream.Read();
      if next.None? {
        return Err(ConnectionClosed);
      }
      if next.value == NEWLINE {
        return if valid(buf) then Ok(buf) else Err(Utf8);
      }
      buf := buf + [next.value];
      if |buf| >= MAX_FRAME_SIZE {
        return Err(TooLarge);
      }
    }
  }

  /** `write_frame`, given the serialised value. */
  method WriteFrame(stream: Stream, serialized: seq<byte>) returns (r: Result<(), FrameError>)
    modifies stream
    ensures r == if |serialized| + 1 > MAX_FRAME_SIZE then Err(TooLarge) else Ok(())
    ensures stream.pending == old(stream.pending) + if r.Ok? then serialized + [NEWLINE] else []
  {
    if |serialized| + 1 > MAX_FRAME_SIZE {
      return Err(TooLarge);
    }
    stream.Write(serialized);
    stream.Write([NEWLINE]);
    assert old(stream.pending) + serialized + [NEWLINE] == old(stream.pending) + (serialized + [NEWLINE]);
    r := Ok(());
  }

  /** What the writer accepts and the serialiser never breaks over lines. */
  predicate IsWritable(content: seq<byte>) { |content| + 1 <= 4096 && NEWLINE !in content }

  lemma {:induction false} FrameAt(content: seq<byte>, rest: seq<byte>, n: nat, valid: seq<byte> -> bool)
    requires IsWritable(content) && n <= |content|
    ensures FrameFrom(content + [NEWLINE] + rest, n, valid) == (if valid(content) then Ok(content) else Err(Utf8), rest)
    decreases |content| - n
  {
    var s := content + [NEWLINE] + rest;
    if n < |content| {
      assert s[n] == content[n];
      FrameAt(content, rest, n + 1, valid);
    } else {
      assert s[..n] == content && s[n + 1..] == rest;
    }
  }

  /** Whatever is read was framed so: the content, writable, then a newline, then what is left. */
  lemma {:induction false} FrameIsFramed(s: seq<byte>, n: nat, valid: seq<byte> -> bool)
    requires n <= |s| && n < MAX_FRAME_SIZE && NEWLINE !in s[..n]
    ensures var (r, rest) := FrameFrom(s, n, valid);
            r.Ok? ==> IsWritable(r.value) && valid(r.value) && s == r.value + [NEWLINE] + rest
    decreases |s| - n
  {
    if n < |s| && s[n] != NEWLINE && n + 1 < MAX_FRAME_SIZE {
      assert s[..n + 1] == s[..n] + [s[n]];
      FrameIsFramed(s, n + 1, valid);
    }
  }

  /**
   * Framing: a content can be read off a stream exactly when it is UTF-8, has no newline and is one the
   * writer accepts; and it is read exactly when the stream starts with its frame, which is consumed.
   */
  lemma ReadsExactlyFrames(s: seq<byte>, content: seq<byte>, rest: seq<byte>, valid: seq<byte> -> bool)
    ensures ReadFrom(s, valid) == (Ok(content), rest)
            <==> IsWritable(content) && valid(content) && s == content + [NEWLINE] + rest
  {
    FrameIsFramed(s, 0, valid);
    if IsWritable(content) && valid(content) && s == content + [NEWLINE] + rest {
      FrameAt(content, rest, 0, valid);
    }
  }

  function Frames(contents: seq<seq<byte>>): seq<byte> {
    if contents == [] then [] else contents[0] + [NEWLINE] + Frames(contents[1..])
  }

  /** What this many reads in a row give. */
  function ReadMany(s: seq<byte>, n: nat, valid: seq<byte> -> bool): (seq<Result<seq<byte>, FrameError>>, seq<byte>)
    decreases n
  {
    if n == 0 then ([], s)
    else
      var (first, rest) := ReadFrom(s, valid);
      var (others, left) := ReadMany(rest, n - 1, valid);
      ([first] + others, left)
  }

  function Succeeding(contents: seq<seq<byte>>): seq<Result<seq<byte>, FrameError>> {
    if contents == [] then [] else [Ok(contents[0])] + Succeeding(contents[1..])
  }

  /** Any sequence of written frames is read back one by one, whatever follows it. */
  lemma {:induction false} WrittenFramesAreReadBack(contents: seq<seq<byte>>, after: seq<byte>,
                                                    valid: seq<byte> -> bool)
    requires forall c | c in contents :: IsWritable(c) && valid(c)
    ensures ReadMany(Frames(contents) + after, |contents|, valid)
            == (Succeeding(contents), after)
  {
    if contents == [] {
      assert Frames(contents) + after == after;
    } else {
      var s := Frames(contents) + after;
      assert s == contents[0] + [NEWLINE] + (Frames(contents[1..]) + after);
      ReadsExactlyFrames(s, contents[0], Frames(contents[1..]) + after, valid);
      WrittenFramesAreReadBack(contents[1..], after, valid);
    }
  }
}
