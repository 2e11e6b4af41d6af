/** The rtl_tcp wire format as the bridge speaks it: the 12-byte banner sent to
    every client that connects, and the 5-byte command frame a client sends
    (one code byte, then a big-endian 32-bit value). */
module Wire {

  /** Outcome of decoding a received block. */
  datatype Result<T, E> = Success(value: T) | Failure(error: E)

  /** rtl_tcp command codes. */
  const CmdSetFreq: bv8 := 0x01
  const CmdSetSampleRate: bv8 := 0x02
  const CmdSetTunerGainMode: bv8 := 0x03
  const CmdSetGain: bv8 := 0x04
  const CmdSetFreqCor: bv8 := 0x05
  const CmdSetAgcMode: bv8 := 0x08
  const CmdSetTunerGainIndex: bv8 := 0x0d

  /** The codes the bridge recognises but only logs: gain mode, gain,
      frequency correction, AGC mode and gain index. */
  const LoggedCodes: set<bv8> :=
    {CmdSetTunerGainMode, CmdSetGain, CmdSetFreqCor, CmdSetAgcMode, CmdSetTunerGainIndex}

  /** The three fields of the banner. */
  const Magic: string := "RTL0"
  const TunerType: bv32 := 1
  const GainCount: bv32 := 0xFF

  /** The banner exactly as the bridge writes it to the socket:
      'R' 'T' 'L' '0', then 00 00 00 01, then 00 00 00 FF. */
  const Handshake: seq<bv8> :=
    [0x52, 0x54, 0x4C, 0x30, 0x00, 0x00, 0x00, 0x01, 0x00, 0x00, 0x00, 0xFF]

  /** A decoded command frame. */
  datatype Command = Command(code: bv8, value: bv32)

  /** A block too short to hold a whole frame (the bridge indexes bytes 1 to 4
      without checking the length first). */
  datatype FrameError = TooShort(length: nat)

  /** The big-endian value of four bytes, computed with shifts and ors. Encoding
      it gives back the four bytes it was decoded from, so the decoding is a
      bijection between four bytes and 32-bit values. */
  function BigEndian(b0: bv8, b1: bv8, b2: bv8, b3: bv8): (r: bv32)
    ensures EncodeU32(r) == [b0, b1, b2, b3]
  {
    ((b0 as bv32) << 24) | ((b1 as bv32) << 16) | ((b2 as bv32) << 8) | ((b3 as bv32) << 0)
  }

  /** The four big-endian bytes of a 32-bit value, most significant first. */
  function EncodeU32(v: bv32): (r: seq<bv8>)
    ensures |r| == 4
  {
    [(v >> 24) as bv8, ((v >> 16) & 0xFF) as bv8, ((v >> 8) & 0xFF) as bv8, (v & 0xFF) as bv8]
  }

  /** Decodes the first frame of a received block: code from byte 0, value from
      bytes 1 to 4. Bytes after the fifth are not looked at. */
  function DecodeFrame(data: seq<bv8>): (r: Result<Command, FrameError>)
    ensures r.Success? <==> |data| >= 5
    ensures r.Failure? ==> r.error == TooShort(|data|)
    ensures r.Success? ==> r.value.code == data[0]
    ensures r.Success? ==> EncodeU32(r.value.value) == data[1..5]
  {
    if |data| < 5 then Failure(TooShort(|data|))
    else Success(Command(data[0], BigEndian(data[1], data[2], data[3], data[4])))
  }

  /** What an rtl_tcp client puts on the wire for a command. */
  function EncodeFrame(c: Command): (r: seq<bv8>)
    ensures |r| == 5 && r[0] == c.code
  {
    [c.code] + EncodeU32(c.value)
  }

  /** The banner is the magic "RTL0" followed by the tuner type 1 and the gain
      count 255, each as four big-endian bytes. */
  lemma HandshakeLayout()
    ensures |Handshake| == 12
    ensures forall i :: 0 <= i < 4 ==> Handshake[i] as int == Magic[i] as int
    ensures Handshake[4..8] == EncodeU32(TunerType)
    ensures Handshake[8..12] == EncodeU32(GainCount)
    ensures BigEndian(Handshake[4], Handshake[5], Handshake[6], Handshake[7]) == 1
    ensures BigEndian(Handshake[8], Handshake[9], Handshake[10], Handshake[11]) == 255
  {
  }

  /** Two bytes joined by a shift and an or hold their base-256 value. */
  lemma JoinBytesValue(hi: bv8, lo: bv8)
    ensures (((hi as bv16) << 8) | (lo as bv16)) as int == hi as int * 0x100 + lo as int
  {
  }

  /** Two 16-bit halves joined by a shift and an or hold their base-65536 value. */
  lemma JoinHalvesValue(hi: bv16, lo: bv16)
    ensures (((hi as bv32) << 16) | (lo as bv32)) as int == hi as int * 0x1_0000 + lo as int
  {
  }

  /** The four-byte decoding is the join of its two 16-bit halves. */
  lemma BigEndianHalves(b0: bv8, b1: bv8, b2: bv8, b3: bv8)
    ensures BigEndian(b0, b1, b2, b3)
         == ((((((b0 as bv16) << 8) | (b1 as bv16)) as bv32) << 16) | ((((b2 as bv16) << 8) | (b3 as bv16)) as bv32))
  {
  }

  /** The shift-and-or decoding is the positional base-256 value, as an
      unbounded integer: no byte is lost and nothing wraps around. */
  lemma BigEndianIsPositional(b0: bv8, b1: bv8, b2: bv8, b3: bv8)
    ensures BigEndian(b0, b1, b2, b3) as int
         == b0 as int * 0x100_0000 + b1 as int * 0x1_0000 + b2 as int * 0x100 + b3 as int
  {
    var hi: bv16 := ((b0 as bv16) << 8) | (b1 as bv16);
    var lo: bv16 := ((b2 as bv16) << 8) | (b3 as bv16);
    BigEndianHalves(b0, b1, b2, b3);
    JoinHalvesValue(hi, lo);
    JoinBytesValue(b0, b1);
    JoinBytesValue(b2, b3);
  }

  /** Decoding the big-endian encoding of any 32-bit value gives it back. */
  lemma DecodeEncodeU32(v: bv32)
    ensures var b := EncodeU32(v); BigEndian(b[0], b[1], b[2], b[3]) == v
  {
  }

  /** 100 MHz travels as 05 F5 E1 00. */
  lemma EncodeU32Example()
    ensures EncodeU32(100000000) == [0x05, 0xF5, 0xE1, 0x00]
  {
  }

  /** A frame followed by anything decodes to the command it encodes. */
  lemma FrameRoundTrip(c: Command, rest: seq<bv8>)
    ensures DecodeFrame(EncodeFrame(c) + rest) == Success(c)
  {
  }

  /** Only the first five bytes of a block matter, and they are exactly the
      encoding of the decoded command: one command per block. */
  lemma DecodeReadsFirstFrame(data: seq<bv8>)
    requires |data| >= 5
    ensures DecodeFrame(data) == DecodeFrame(data[..5])
    ensures EncodeFrame(DecodeFrame(data).value) == data[..5]
  {
  }
}
