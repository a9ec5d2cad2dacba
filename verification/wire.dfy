/** Bytes on the HID channel: the outbound control packet format, the log of
    written packets and the inbound events a blocking read can produce. */
module Wire {
  import opened Wrappers

  newtype byte = x: int | 0 <= x < 256

  /** The fill byte of `bytes.ljust(n, b"0")`: the ASCII digit '0', not NUL. */
  const PAD: byte := 0x30

  function Max(a: int, b: int): int { if a < b then b else a }

  /** `bytes(data).ljust(msgLen, b"0")`: the data left-aligned, padded with PAD up
      to `msgLen` bytes, never truncated. */
  function CreateMsgData(data: seq<byte>, msgLen: int): (r: seq<byte>)
    ensures |r| == Max(|data|, msgLen)
    ensures r[..|data|] == data
    ensures forall i :: |data| <= i < |r| ==> r[i] == PAD
  {
    if msgLen <= |data| then data else data + seq(msgLen - |data|, _ => PAD)
  }

  /** What the base station reads from a control packet whose parameter count
      it knows: direction byte, opcode and `arity` parameters. */
  function ParseControl(packet: seq<byte>, arity: nat): (r: Option<(byte, byte, seq<byte>)>)
    ensures r.Some? <==> 2 + arity <= |packet|
  {
    if |packet| < 2 + arity then None
    else Some((packet[0], packet[1], packet[2..2 + arity]))
  }

  /** Decoding a control packet on the device side recovers the direction byte,
      the opcode and the parameters, and everything after them is padding. */
  lemma ControlRoundTrip(dir: byte, opcode: byte, params: seq<byte>, msgLen: int)
    ensures var packet := CreateMsgData([dir, opcode] + params, msgLen);
      ParseControl(packet, |params|) == Some((dir, opcode, params)) &&
      forall i :: 2 + |params| <= i < |packet| ==> packet[i] == PAD
  {
  }

  /** The padding is not self-delimiting: a trailing data byte equal to PAD
      yields the same packet as leaving it out, so the receiver must know the
      parameter count of each opcode. */
  lemma PaddingAbsorbsTrailingPad(data: seq<byte>, msgLen: int)
    requires |data| < msgLen
    ensures CreateMsgData(data + [PAD], msgLen) == CreateMsgData(data, msgLen)
  {
  }

  /** The outbound half of the HID device: its maximum packet size and the
      packets written to it so far. */
  class Channel {
    const packetSize: int
    var written: seq<seq<byte>>

    constructor (packetSize: int)
      ensures this.packetSize == packetSize && written == []
    {
      this.packetSize := packetSize;
      written := [];
    }

    /** `device.write(packet)`. */
    method Write(packet: seq<byte>)
      modifies this
      ensures written == old(written) + [packet]
    {
      written := written + [packet];
    }
  }

  /** One outcome of a blocking read: a packet, a read timeout raised as an
      exception, a termination signal delivered while waiting, or a fatal
      transport error. hidapi's `read(size, timeout)` reports a timeout as an
      empty packet and never raises, so for `Headset.listen` a timeout is
      `Data([])` and any exception the read raises is `ReadFailure`. `Timeout`
      is pyusb's `USBTimeoutError`, which only the `nova.py` loop receives;
      `listen` would never see it and skips it. */
  datatype Inbound = Data(msg: seq<byte>) | Timeout | Interrupt | ReadFailure
}
