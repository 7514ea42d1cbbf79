/** Length-prefixed frames on a byte stream (benchkit/protocol/frame.go). */
module Framing {
  import opened Outcomes

  newtype byte = x: int | 0 <= x < 256

  type Bytes = seq<byte>

  const MAX_UINT32: nat := 0xffff_ffff

  /** binary.BigEndian.PutUint32 */
  function Header(n: nat): (h: Bytes)
    ensures |h| == 4
  {
    [(n / 0x100_0000 % 256) as byte, (n / 0x1_0000 % 256) as byte, (n / 0x100 % 256) as byte, (n % 256) as byte]
  }

  /** binary.BigEndian.Uint32 */
  function Size(h: Bytes): nat
    requires |h| == 4
  {
    h[0] as int * 0x100_0000 + h[1] as int * 0x1_0000 + h[2] as int * 0x100 + h[3] as int
  }

  lemma HeaderRoundTrip(n: nat)
    requires n <= MAX_UINT32
    ensures Size(Header(n)) == n
  {
    var a := n / 0x100;
    var b := a / 0x100;
    assert n / 0x1_0000 == b && n / 0x100_0000 == b / 0x100;
    assert n == 0x100 * a + n % 256 && a == 0x100 * b + a % 256 && b == 0x100 * (b / 0x100) + b % 256;
  }

  function Framed(payload: Bytes): Bytes {
    Header(|payload|) + payload
  }

  /** The outcome of one ReadFrame: a payload, a limit exceeded, or a stream that ended. */
  datatype Read = Payload(bytes: Bytes) | TooLarge | Ended | Truncated

  function ReadOne(input: Bytes, maxBytes: int): Read {
    if input == [] then Ended
    else if |input| < 4 then Truncated
    else
      var size := Size(input[..4]);
      if maxBytes < 0 || size > maxBytes then TooLarge
      else if |input| - 4 < size then (if |input| == 4 then Ended else Truncated)
      else Payload(input[4..4 + size])
  }

  function Rest(input: Bytes, r: Read): Bytes {
    match r
    case Payload(bytes) => if 4 + |bytes| <= |input| then input[4 + |bytes|..] else []
    case TooLarge => if |input| >= 4 then input[4..] else []
    case _ => []
  }

  datatype Write = Written | NotMarshalled | FrameTooLarge | WriteFailed

  /** `room` is how many bytes the stream will still take. */
  class FrameWriter {
    var out: Bytes
    var room: nat

    constructor (room: nat)
      ensures out == [] && this.room == room
    {
      out, this.room := [], room;
    }

    /** As many bytes as there is room for, and whether that was all. */
    method Put(bytes: Bytes) returns (ok: bool)
      modifies this
      ensures var n := if |bytes| <= old(room) then |bytes| else old(room);
              out == old(out) + bytes[..n] && room == old(room) - n && ok == (n == |bytes|)
    {
      var n := if |bytes| <= room then |bytes| else room;
      out, room := out + bytes[..n], room - n;
      return n == |bytes|;
    }

    /**
      Nothing is written for a frame that cannot be marshalled or whose length does
      not fit the header; otherwise the stream gains the frame, or what of it there
      was room for, and only a whole frame counts as written.
     */
    method WriteFrame(marshalled: Option<Bytes>) returns (r: Write)
      modifies this
      ensures r.NotMarshalled? <==> marshalled.None?
      ensures r.FrameTooLarge? <==> marshalled.Some? && |marshalled.value| > MAX_UINT32
      ensures r.NotMarshalled? || r.FrameTooLarge? ==> out == old(out) && room == old(room)
      ensures r.Written? || r.WriteFailed? ==>
                var frame := Framed(marshalled.value);
                var n := if |frame| <= old(room) then |frame| else old(room);
                out == old(out) + frame[..n] && room == old(room) - n && (r.Written? <==> n == |frame|)
    {
      if marshalled.None? { return NotMarshalled; }
      var payload := marshalled.value;
      if |payload| > MAX_UINT32 { return FrameTooLarge; }
      hide Header;
      ghost var frame := Framed(payload);
      var ok := Put(Header(|payload|));
      if !ok {
        assert frame[..old(room)] == Header(|payload|)[..old(room)];
        return WriteFailed;
      }
      ok := Put(payload);
      ghost var n := if |frame| <= old(room) then |frame| else old(room);
      assert frame[..n] == Header(|payload|) + payload[..n - 4];
      return if ok then Written else WriteFailed;
    }
  }

  class FrameReader {
    var input: Bytes
    const maxBytes: int

    constructor (input: Bytes, maxBytes: int)
      ensures this.input == input && this.maxBytes == maxBytes
    {
      this.input, this.maxBytes := input, maxBytes;
    }

    method ReadFrame() returns (r: Read)
      modifies this
      ensures r == ReadOne(old(input), maxBytes) && input == Rest(old(input), r)
    {
      if |input| < 4 {
        r := if input == [] then Ended else Truncated;
        input := [];
        return;
      }
      var header := input[..4];
      ghost var whole := input;
      input := input[4..];
      var size := Size(header);
      if maxBytes < 0 || size > maxBytes { return TooLarge; }
      if |input| < size {
        r := if input == [] then Ended else Truncated;
        input := [];
        return;
      }
      var payload := input[..size];
      input := input[size..];
      assert payload == whole[4..4 + size] && input == whole[4 + size..];
      return Payload(payload);
    }
  }

  function WriteAll(payloads: seq<Bytes>): Bytes {
    if payloads == [] then [] else Framed(payloads[0]) + WriteAll(payloads[1..])
  }

  /** Read frame after frame until one fails; the payloads, and how it ended. */
  function ReadAll(input: Bytes, maxBytes: int): (seq<Bytes>, Read)
    decreases |input|
  {
    var r := ReadOne(input, maxBytes);
    if r.Payload? then
      var (rest, end) := ReadAll(Rest(input, r), maxBytes);
      ([r.bytes] + rest, end)
    else ([], r)
  }

  predicate Fits(payloads: seq<Bytes>, maxBytes: nat) {
    maxBytes <= MAX_UINT32 && forall i :: 0 <= i < |payloads| ==> |payloads[i]| <= maxBytes
  }

  /** One written frame is read back whole, whatever follows it, or refused exactly when it is over the limit. */
  lemma ReadsFramed(payload: Bytes, rest: Bytes, maxBytes: nat)
    requires |payload| <= MAX_UINT32
    ensures ReadOne(Framed(payload) + rest, maxBytes) == if |payload| <= maxBytes then Payload(payload) else TooLarge
    ensures Rest(Framed(payload) + rest, Payload(payload)) == rest
  {
    var input := Framed(payload) + rest;
    HeaderRoundTrip(|payload|);
    assert input[..4] == Header(|payload|);
    assert input[4..4 + |payload|] == payload && input[4 + |payload|..] == rest;
  }

  /** What is written is read back, frame by frame, up to a clean end. */
  lemma {:induction false} StreamRoundTrip(payloads: seq<Bytes>, maxBytes: nat)
    requires Fits(payloads, maxBytes)
    ensures ReadAll(WriteAll(payloads), maxBytes) == (payloads, Ended)
  {
    if payloads != [] {
      var rest := WriteAll(payloads[1..]);
      ReadsFramed(payloads[0], rest, maxBytes);
      StreamRoundTrip(payloads[1..], maxBytes);
      assert payloads == [payloads[0]] + payloads[1..];
    }
  }

  /** A frame cut short is reported as the end of the stream, never as a frame. */
  lemma CutFrame(payload: Bytes, cut: nat, maxBytes: nat)
    requires |payload| <= maxBytes <= MAX_UINT32 && cut < |Framed(payload)|
    ensures ReadOne(Framed(payload)[..cut], maxBytes) == if cut == 0 || cut == 4 then Ended else Truncated
  {
    HeaderRoundTrip(|payload|);
    var input := Framed(payload)[..cut];
    if cut >= 4 { assert input[..4] == Header(|payload|); }
  }

  /** The stream is cut between two frames, or right after a header. */
  predicate CutCleanly(payloads: seq<Bytes>, cut: nat) {
    || cut == 0
    || (payloads != []
        && if cut < |Framed(payloads[0])| then cut == 4 else CutCleanly(payloads[1..], cut - |Framed(payloads[0])|))
  }

  /**
    A stream cut anywhere yields a prefix of the frames and then an end, never a different
    frame; the end is that of a whole stream exactly if the cut is clean.
   */
  lemma {:induction false} CutStream(payloads: seq<Bytes>, cut: nat, maxBytes: nat)
    requires Fits(payloads, maxBytes) && cut <= |WriteAll(payloads)|
    ensures var (read, end) := ReadAll(WriteAll(payloads)[..cut], maxBytes);
            read <= payloads && end == if CutCleanly(payloads, cut) then Ended else Truncated
    decreases |payloads|
  {
    if payloads != [] {
      var first, rest := Framed(payloads[0]), WriteAll(payloads[1..]);
      hide Framed, ReadOne, Size;
      if cut < |first| {
        assert (first + rest)[..cut] == first[..cut];
        CutFrame(payloads[0], cut, maxBytes);
      } else {
        assert (first + rest)[..cut] == first + rest[..cut - |first|];
        ReadsFramed(payloads[0], rest[..cut - |first|], maxBytes);
        CutStream(payloads[1..], cut - |first|, maxBytes);
      }
    }
  }
}
