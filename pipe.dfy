/**
 * Pipe identifiers, pipe types, pipe information records and stream-pipe sets (src/pipe.rs).
 * A pipe identifier is a USB endpoint address: bit 7 is the direction (1 = IN, toward the
 * host) as in section 9.6.6 of the USB 2.0 specification, the low bits the endpoint number.
 */
module Pipes {
  import opened Wrappers
  import opened D3xxErrors

  /** The eight pipes of an FT60x device, four in and four out. */
  datatype Pipe = In0 | In1 | In2 | In3 | Out0 | Out1 | Out2 | Out3

  /** The endpoint address of a pipe (`pipe as u8`). */
  function PipeByte(p: Pipe): bv8
  {
    match p
    case In0 => 0x82
    case In1 => 0x83
    case In2 => 0x84
    case In3 => 0x85
    case Out0 => 0x02
    case Out1 => 0x03
    case Out2 => 0x04
    case Out3 => 0x05
  }

  /** `Pipe::try_from(u8)`: the pipe whose endpoint address is `b`, if there is one. */
  function PipeFromByte(b: bv8): (r: Option<Pipe>)
    ensures r.Some? <==> (0x02 <= b <= 0x05 || 0x82 <= b <= 0x85)
    ensures r.Some? ==> PipeByte(r.value) == b
  {
    match b
    case 0x82 => Some(In0)
    case 0x83 => Some(In1)
    case 0x84 => Some(In2)
    case 0x85 => Some(In3)
    case 0x02 => Some(Out0)
    case 0x03 => Some(Out1)
    case 0x04 => Some(Out2)
    case 0x05 => Some(Out3)
    case _ => None
  }

  /** An output (host-to-device) pipe: the direction bit of its address is clear. */
  predicate IsOut(p: Pipe)
  {
    PipeByte(p) & 0x80 == 0
  }

  /** An input (device-to-host) pipe: defined in the source as "not an output pipe". */
  predicate IsIn(p: Pipe)
  {
    !IsOut(p)
  }

  /** Every pipe survives the trip through its endpoint address. */
  lemma PipeByteRoundTrip(p: Pipe)
    ensures PipeFromByte(PipeByte(p)) == Some(p)
  {
  }

  /** Distinct pipes have distinct endpoint addresses. */
  lemma PipeByteInjective(p: Pipe, q: Pipe)
    requires PipeByte(p) == PipeByte(q)
    ensures p == q
  {
    PipeByteRoundTrip(p);
    PipeByteRoundTrip(q);
  }

  /**
   * Exactly one of `is_in`, `is_out` holds, the in pipes are In0..In3, and the direction
   * agrees with the address range (0x82..0x85 in, 0x02..0x05 out).
   */
  lemma Direction(p: Pipe)
    ensures IsIn(p) != IsOut(p)
    ensures IsIn(p) <==> p in {In0, In1, In2, In3}
    ensures IsIn(p) <==> 0x82 <= PipeByte(p) <= 0x85
    ensures IsOut(p) <==> 0x02 <= PipeByte(p) <= 0x05
  {
  }

  /** The USB transfer type of a pipe. */
  datatype PipeType = Control | Isochronous | Bulk | Interrupt

  /** The driver's encoding of a pipe type. */
  function PipeTypeValue(t: PipeType): int
  {
    match t
    case Control => 0
    case Isochronous => 1
    case Bulk => 2
    case Interrupt => 3
  }

  /** `PipeType::try_from(i32)`. */
  function PipeTypeFromValue(v: i32): (r: Option<PipeType>)
    ensures r.Some? <==> 0 <= v <= 3
    ensures r.Some? ==> PipeTypeValue(r.value) == v
  {
    match v
    case 0 => Some(Control)
    case 1 => Some(Isochronous)
    case 2 => Some(Bulk)
    case 3 => Some(Interrupt)
    case _ => None
  }

  lemma PipeTypeRoundTrip(t: PipeType)
    ensures PipeTypeFromValue(PipeTypeValue(t)) == Some(t)
  {
  }

  /** The driver's `FT_PIPE_INFORMATION` record as it arrives from the driver. */
  datatype PipeInformation = PipeInformation(
    pipeType: i32, pipeId: bv8, maximumPacketSize: u16, interval: u8)

  /** A decoded pipe description. */
  datatype PipeInfo = PipeInfo(pipeType: PipeType, pipe: Pipe, maxPacketSize: nat, interval: u8)

  /**
   * `PipeInfo::try_from(FT_PIPE_INFORMATION)` (and the identical `PipeInfo::new` of
   * src/descriptor.rs): the type is decoded first, then the identifier; either failure is
   * `OtherError`.
   */
  function PipeInfoFrom(raw: PipeInformation): (r: D3xxResult<PipeInfo>)
  {
    match PipeTypeFromValue(raw.pipeType)
    case None => Err(OtherError)
    case Some(t) =>
      match PipeFromByte(raw.pipeId)
      case None => Err(OtherError)
      case Some(p) => Ok(PipeInfo(t, p, raw.maximumPacketSize, raw.interval))
  }

  /**
   * Decoding fails, always with `OtherError`, exactly when the type or the identifier is
   * invalid; otherwise the decoded fields encode back to the raw ones and the packet size and
   * interval are copied unchanged.
   */
  lemma PipeInfoFromSpec(raw: PipeInformation)
    ensures PipeInfoFrom(raw).Err? <==> !(0 <= raw.pipeType <= 3) || PipeFromByte(raw.pipeId).None?
    ensures PipeInfoFrom(raw).Err? ==> PipeInfoFrom(raw).error == OtherError
    ensures PipeInfoFrom(raw).Ok? ==>
      var info := PipeInfoFrom(raw).value;
      PipeTypeValue(info.pipeType) == raw.pipeType && PipeByte(info.pipe) == raw.pipeId &&
      info.maxPacketSize == raw.maximumPacketSize && info.interval == raw.interval
  {
  }

  /** The example of the source's unit test: 0x82 with type Control is In0, Control, 64, 0. */
  lemma PipeInfoExample()
    ensures PipeInfoFrom(PipeInformation(0, 0x82, 64, 0)) == Ok(PipeInfo(Control, In0, 64, 0))
  {
  }

  /** The pipes to configure for stream transfers, each with its stream size. */
  datatype StreamPipes = StreamPipes(pipes: map<Pipe, nat>)

  /** `StreamPipes::none()`, also `StreamPipes::default()`. */
  function NoStreamPipes(): (s: StreamPipes)
    ensures |s.pipes| == 0
  {
    StreamPipes(map[])
  }

  /**
   * `with_pipe`: inserts (or overwrites) the stream size of `p`. The builder takes the set by
   * value and hands it back, so the in-place `insert` is an update of the value.
   */
  function WithPipe(s: StreamPipes, p: Pipe, streamSize: nat): (r: StreamPipes)
    ensures r.pipes.Keys == s.pipes.Keys + {p}
    ensures r.pipes[p] == streamSize
    ensures forall q :: q in s.pipes && q != p ==> r.pipes[q] == s.pipes[q]
  {
    StreamPipes(s.pipes[p := streamSize])
  }

  /** Adding the same pipe twice keeps only the later size; distinct pipes commute. */
  lemma WithPipeOverwrites(s: StreamPipes, p: Pipe, a: nat, b: nat)
    ensures WithPipe(WithPipe(s, p, a), p, b) == WithPipe(s, p, b)
  {
  }

  lemma WithPipeCommutes(s: StreamPipes, p: Pipe, q: Pipe, a: nat, b: nat)
    requires p != q
    ensures WithPipe(WithPipe(s, p, a), q, b) == WithPipe(WithPipe(s, q, b), p, a)
  {
  }
}
