/**
  The binary command link of the acousto-optic deflector (AOD/UTCDeflectorDemo.py, class Deflector).

  A command frame is `[0xAA, len, type, payload..., crc]`, where `crc` is CRC-8 with polynomial
  0x31, initial value 0xFF, no reflection and no final XOR (the CRC-8/NRSC-5 parameter set),
  taken over every byte before it. The serial port is modelled by the log of frames written to
  it and a `closed` flag; the calibration file (DevReader) is an oracle `freqOf` from angle to
  frequency that yields None where the lookup raises.
*/
module Deflector {
  import opened Wrappers

  type Byte = bv8

  const Preamble: Byte := 0xAA
  const CrcPoly: Byte := 0x31
  const CrcInit: Byte := 0xFF

  /** Command codes. */
  const PreampType: Byte := 0xA2
  const AmpType: Byte := 0xA3
  const SetFreqType: Byte := 0xA5
  const SetAmplType: Byte := 0xA7

  /** Line speed the port is opened with. */
  const Baudrate: nat := 115200

  /** The largest value a 2-byte unsigned field can hold, plus one. */
  const Field16Limit: int := 0x1_0000

  // ---------------------------------------------------------------------------------------
  // CRC-8, bit by bit

  /** One clock of the CRC register: shift left, feeding the polynomial back when bit 7 falls out. */
  function CrcShift(c: Byte): Byte {
    if c & 0x80 != 0 then (c << 1) ^ CrcPoly else c << 1
  }

  /** Feeds one byte, most significant bit first, into the register `c`: eight clocks. */
  function CrcUpdate(c: Byte, b: Byte): Byte {
    CrcShift(CrcShift(CrcShift(CrcShift(CrcShift(CrcShift(CrcShift(CrcShift(c ^ b))))))))
  }

  /** The register after feeding `data` into a register holding `c`. */
  function Crc8From(c: Byte, data: seq<Byte>): Byte
    decreases |data|
  {
    if data == [] then c else Crc8From(CrcUpdate(c, data[0]), data[1..])
  }

  /** CRC-8 with polynomial 0x31, initial value 0xFF, no reflection, no final XOR. */
  function Crc8(data: seq<Byte>): Byte {
    Crc8From(CrcInit, data)
  }

  /** The catalogue check value of this CRC-8 parameter set: the CRC of ASCII "123456789" is 0xF7. */
  lemma Crc8CheckValue()
    ensures Crc8([0x31, 0x32, 0x33, 0x34, 0x35, 0x36, 0x37, 0x38, 0x39]) == 0xF7
  {
    assert Crc8From(0x54, [0x39]) == 0xF7;
    assert Crc8From(0xB7, [0x38, 0x39]) == 0xF7;
    assert Crc8From(0x16, [0x37, 0x38, 0x39]) == 0xF7;
    assert Crc8From(0x9D, [0x36, 0x37, 0x38, 0x39]) == 0xF7;
    assert Crc8From(0xCB, [0x35, 0x36, 0x37, 0x38, 0x39]) == 0xF7;
    assert Crc8From(0x2D, [0x34, 0x35, 0x36, 0x37, 0x38, 0x39]) == 0xF7;
    assert Crc8From(0x60, [0x33, 0x34, 0x35, 0x36, 0x37, 0x38, 0x39]) == 0xF7;
    assert Crc8From(0x58, [0x32, 0x33, 0x34, 0x35, 0x36, 0x37, 0x38, 0x39]) == 0xF7;
  }

  /** Feeding `a + b` is feeding `a`, then `b`. */
  lemma {:induction false} Crc8FromAppend(c: Byte, a: seq<Byte>, b: seq<Byte>)
    ensures Crc8From(c, a + b) == Crc8From(Crc8From(c, a), b)
    decreases |a|
  {
    if a != [] {
      assert (a + b)[1..] == a[1..] + b;
      Crc8FromAppend(CrcUpdate(c, a[0]), a[1..], b);
    } else {
      assert a + b == b;
    }
  }

  /** Distinct registers stay distinct after a clock: bit 0 of the polynomial is set, so the
      bit shifted out can be read back from bit 0. */
  lemma CrcShiftInjective(x: Byte, y: Byte)
    requires CrcShift(x) == CrcShift(y)
    ensures x == y
  {
  }

  lemma CrcUpdateInjective(r: Byte, a: Byte, b: Byte)
    requires CrcUpdate(r, a) == CrcUpdate(r, b)
    ensures a == b
  {
    var x, y := r ^ a, r ^ b;
    CrcShiftInjective(CrcShift(CrcShift(CrcShift(CrcShift(CrcShift(CrcShift(CrcShift(x))))))),
                      CrcShift(CrcShift(CrcShift(CrcShift(CrcShift(CrcShift(CrcShift(y))))))));
    CrcShiftInjective(CrcShift(CrcShift(CrcShift(CrcShift(CrcShift(CrcShift(x)))))),
                      CrcShift(CrcShift(CrcShift(CrcShift(CrcShift(CrcShift(y)))))));
    CrcShiftInjective(CrcShift(CrcShift(CrcShift(CrcShift(CrcShift(x))))),
                      CrcShift(CrcShift(CrcShift(CrcShift(CrcShift(y))))));
    CrcShiftInjective(CrcShift(CrcShift(CrcShift(CrcShift(x)))), CrcShift(CrcShift(CrcShift(CrcShift(y)))));
    CrcShiftInjective(CrcShift(CrcShift(CrcShift(x))), CrcShift(CrcShift(CrcShift(y))));
    CrcShiftInjective(CrcShift(CrcShift(x)), CrcShift(CrcShift(y)));
    CrcShiftInjective(CrcShift(x), CrcShift(y));
    CrcShiftInjective(x, y);
  }

  /** Two registers that agree after the same data agreed before it. */
  lemma {:induction false} Crc8FromInjective(x: Byte, y: Byte, data: seq<Byte>)
    requires Crc8From(x, data) == Crc8From(y, data)
    ensures x == y
    decreases |data|
  {
    if data != [] {
      Crc8FromInjective(CrcUpdate(x, data[0]), CrcUpdate(y, data[0]), data[1..]);
      assert CrcUpdate(data[0], x) == CrcUpdate(data[0], y);
      CrcUpdateInjective(data[0], x, y);
    }
  }

  /** The register after `data`, split around position `i`. */
  lemma Crc8FromAround(c: Byte, data: seq<Byte>, i: nat)
    requires i < |data|
    ensures Crc8From(c, data) == Crc8From(CrcUpdate(Crc8From(c, data[..i]), data[i]), data[i + 1..])
  {
    assert data == data[..i] + data[i..];
    Crc8FromAppend(c, data[..i], data[i..]);
    assert data[i..][1..] == data[i + 1..];
  }

  /** Changing any one byte of the input changes the CRC. */
  lemma SingleByteChangesCrc(data: seq<Byte>, i: nat, v: Byte)
    requires i < |data| && v != data[i]
    ensures Crc8(data[i := v]) != Crc8(data)
  {
    var bad := data[i := v];
    assert bad[..i] == data[..i];
    assert bad[i + 1..] == data[i + 1..];
    Crc8FromAround(CrcInit, data, i);
    Crc8FromAround(CrcInit, bad, i);
    var r := Crc8From(CrcInit, data[..i]);
    if Crc8(bad) == Crc8(data) {
      Crc8FromInjective(CrcUpdate(r, v), CrcUpdate(r, data[i]), data[i + 1..]);
      CrcUpdateInjective(r, v, data[i]);
    }
  }

  // ---------------------------------------------------------------------------------------
  // Frames

  /** The frame `__make_command` builds; the source cannot put more than 255 payload bytes in
      the length byte (`bytes()` raises first). */
  function MakeCommand(kind: Byte, data: seq<Byte>): (frame: seq<Byte>)
    requires |data| <= 255
    ensures |frame| == |data| + 4
    ensures frame[0] == Preamble && frame[1] == |data| as Byte && frame[2] == kind
    ensures frame[3..|frame| - 1] == data
    ensures frame[|frame| - 1] == Crc8(frame[..|frame| - 1])
  {
    var header := [Preamble, |data| as Byte, kind] + data;
    var frame := header + [Crc8(header)];
    assert frame[..|frame| - 1] == header;
    assert frame[3..|frame| - 1] == data;
    frame
  }

  /** A frame whose preamble, length byte and trailing CRC are consistent. The source has no
      decoder; this is the acceptance rule a receiver would apply. */
  predicate WellFormed(frame: seq<Byte>) {
    && |frame| >= 4
    && frame[0] == Preamble
    && |frame| - 4 <= 255
    && frame[1] == (|frame| - 4) as Byte
    && frame[|frame| - 1] == Crc8(frame[..|frame| - 1])
  }

  function FrameKind(frame: seq<Byte>): Byte
    requires WellFormed(frame)
  {
    frame[2]
  }

  function FramePayload(frame: seq<Byte>): seq<Byte>
    requires WellFormed(frame)
  {
    frame[3..|frame| - 1]
  }

  /** Every frame built is accepted, and its type and payload read back unchanged. */
  lemma MakeCommandRoundTrip(kind: Byte, data: seq<Byte>)
    requires |data| <= 255
    ensures WellFormed(MakeCommand(kind, data))
    ensures FrameKind(MakeCommand(kind, data)) == kind
    ensures FramePayload(MakeCommand(kind, data)) == data
  {
  }

  /** An accepted frame is exactly the one built from its own type and payload. */
  lemma WellFormedIsMadeCommand(frame: seq<Byte>)
    requires WellFormed(frame)
    ensures |FramePayload(frame)| <= 255
    ensures frame == MakeCommand(FrameKind(frame), FramePayload(frame))
  {
    var n := |frame|;
    var made := MakeCommand(FrameKind(frame), FramePayload(frame));
    assert |made| == n;
    assert made[..n - 1] == frame[..n - 1] by {
      forall k | 0 <= k < n - 1 ensures made[k] == frame[k] {
        if k >= 3 {
          assert made[k] == made[3..n - 1][k - 3];
        }
      }
    }
    assert made == made[..n - 1] + [made[n - 1]];
    assert frame == frame[..n - 1] + [frame[n - 1]];
  }

  /** Corrupting any single byte of an accepted frame makes it rejected. */
  lemma SingleByteCorruptionDetected(frame: seq<Byte>, i: nat, v: Byte)
    requires WellFormed(frame) && i < |frame| && v != frame[i]
    ensures !WellFormed(frame[i := v])
  {
    var n := |frame|;
    var bad := frame[i := v];
    if i < n - 1 {
      assert bad[..n - 1] == frame[..n - 1][i := v];
      SingleByteChangesCrc(frame[..n - 1], i, v);
    } else {
      assert bad[..n - 1] == frame[..n - 1];
    }
  }

  // ---------------------------------------------------------------------------------------
  // Numeric fields

  /** Python's `int()` of a number: truncation toward zero. */
  function TruncToInt(x: real): (r: int)
    ensures 0.0 <= x ==> 0 <= r && r as real <= x < r as real + 1.0
    ensures x < 0.0 ==> r <= 0 && r as real - 1.0 < x <= r as real
  {
    if x >= 0.0 then x.Floor else -((-x).Floor)
  }

  /** `v.to_bytes(2, 'little')` for a `v` that fits: low byte first. */
  function Le16(v: bv16): (bytes: seq<Byte>)
    ensures |bytes| == 2
  {
    [(v & 0xFF) as Byte, (v >> 8) as Byte]
  }

  /** The 16-bit value a receiver reads from a 2-byte little-endian field. */
  function FromLe16(bytes: seq<Byte>): bv16
    requires |bytes| == 2
  {
    ((bytes[1] as bv16) << 8) | (bytes[0] as bv16)
  }

  lemma Le16RoundTrip(v: bv16)
    ensures FromLe16(Le16(v)) == v
  {
  }

  /** Two different field values never share an encoding. */
  lemma Le16Injective(v: bv16, w: bv16)
    requires Le16(v) == Le16(w)
    ensures v == w
  {
    Le16RoundTrip(v);
    Le16RoundTrip(w);
  }

  /** The frequency in hundredths of a hertz that `set_freq` encodes. */
  function FreqField(freq: real): int {
    TruncToInt(freq * 100.0)
  }

  /** The amplitude in tenths of a percent that `set_ampl` encodes. */
  function AmplField(ampl: real): int {
    TruncToInt(ampl * 10.0)
  }

  predicate Fits16(v: int) {
    0 <= v < Field16Limit
  }

  // ---------------------------------------------------------------------------------------
  // Fixed frame sequences

  function StartFrames(): seq<seq<Byte>> {
    [MakeCommand(PreampType, [1]), MakeCommand(AmpType, [1])]
  }

  function StopFrames(): seq<seq<Byte>> {
    [MakeCommand(PreampType, [0]), MakeCommand(AmpType, [0])]
  }

  /** `start` switches the preamplifier on, then the amplifier, and `stop` switches them off in
      the same order (not reversed); these are the bytes on the wire. */
  lemma StartStopBytes()
    ensures StartFrames() == [[0xAA, 0x01, 0xA2, 0x01, 0x1C], [0xAA, 0x01, 0xA3, 0x01, 0xE8]]
    ensures StopFrames() == [[0xAA, 0x01, 0xA2, 0x00, 0x2D], [0xAA, 0x01, 0xA3, 0x00, 0xD9]]
  {
    assert CrcUpdate(0xFF, 0xAA) == 0x8B && CrcUpdate(0x8B, 0x01) == 0xA1;
    assert CrcUpdate(0xA1, 0xA2) == 0x53 && CrcUpdate(0xA1, 0xA3) == 0x62;
    assert CrcUpdate(0x53, 0x01) == 0x1C && CrcUpdate(0x62, 0x01) == 0xE8;
    assert CrcUpdate(0x53, 0x00) == 0x2D && CrcUpdate(0x62, 0x00) == 0xD9;
    assert Crc8([0xAA, 0x01, 0xA2, 0x01]) == 0x1C;
    assert Crc8([0xAA, 0x01, 0xA3, 0x01]) == 0xE8;
    assert Crc8([0xAA, 0x01, 0xA2, 0x00]) == 0x2D;
    assert Crc8([0xAA, 0x01, 0xA3, 0x00]) == 0xD9;
    OneBytePayloadFrame(PreampType, 0x01, 0x1C);
    OneBytePayloadFrame(AmpType, 0x01, 0xE8);
    OneBytePayloadFrame(PreampType, 0x00, 0x2D);
    OneBytePayloadFrame(AmpType, 0x00, 0xD9);
  }

  lemma OneBytePayloadFrame(kind: Byte, b: Byte, crc: Byte)
    requires Crc8([Preamble, 0x01, kind, b]) == crc
    ensures MakeCommand(kind, [b]) == [Preamble, 0x01, kind, b, crc]
  {
    var payload: seq<Byte> := [b];
    assert [Preamble, |payload| as Byte, kind] + payload == [Preamble, 0x01, kind, b];
  }

  /** The frame that sets a frequency field `v`. */
  function SetFreqFrame(v: int): seq<Byte>
    requires Fits16(v)
  {
    MakeCommand(SetFreqType, Le16(v as bv16))
  }

  function SetAmplFrame(v: int): seq<Byte>
    requires Fits16(v)
  {
    MakeCommand(SetAmplType, Le16(v as bv16))
  }

  /** A set frame carries its field back to the receiver intact. */
  lemma SetFrameCarriesField(kind: Byte, v: int)
    requires Fits16(v)
    ensures var frame := MakeCommand(kind, Le16(v as bv16));
      WellFormed(frame) && |frame| == 6 && FrameKind(frame) == kind && FromLe16(FramePayload(frame)) == v as bv16
  {
    MakeCommandRoundTrip(kind, Le16(v as bv16));
    Le16RoundTrip(v as bv16);
  }

  // ---------------------------------------------------------------------------------------
  // The port as a value

  /** What a port has written so far and whether it has been closed. */
  datatype Link = Link(frames: seq<seq<Byte>>, closed: bool)

  /** The port after it is asked to send field `v` of `kind`, and whether the call returns
      normally (it raises only when the port is already closed). */
  function AfterSendField(p: Link, kind: Byte, v: int): (r: (Link, bool))
    ensures r.1 == !p.closed
    ensures p.frames <= r.0.frames && (p.closed ==> r.0 == p)
    ensures !p.closed ==> (r.0.closed <==> !Fits16(v))
  {
    if p.closed then (p, false)
    else if Fits16(v) then (Link(p.frames + [MakeCommand(kind, Le16(v as bv16))], false), true)
    else (Link(p.frames + StopFrames(), true), true)
  }

  /** The port after `set_angle(angle)`: nothing happens when the calibration has no frequency
      for the angle (the lookup raises first); otherwise that frequency is sent. */
  function AfterSetAngle(freqOf: real -> Option<real>, p: Link, angle: real): (r: (Link, bool))
    ensures r.1 == (freqOf(angle).Some? && !p.closed)
    ensures p.frames <= r.0.frames && (p.closed ==> r.0 == p)
    ensures !r.1 ==> r.0 == p
  {
    if freqOf(angle).None? then (p, false)
    else AfterSendField(p, SetFreqType, FreqField(freqOf(angle).value))
  }

  /** The port after `set_ampl(ampl)`. */
  function AfterSetAmpl(p: Link, ampl: real): (r: (Link, bool))
    ensures r.1 == !p.closed
    ensures p.frames <= r.0.frames && (p.closed ==> r.0 == p)
  {
    AfterSendField(p, SetAmplType, AmplField(ampl))
  }

  // ---------------------------------------------------------------------------------------
  // The port

  /** A `Deflector`: the frames it has written and whether its serial port has been closed.
      Writing to a closed port raises; the methods report that as `ok == false` with nothing sent. */
  class Port {
    var frames: seq<seq<Byte>>
    var closed: bool
    const freqOf: real -> Option<real>

    constructor (freqOf: real -> Option<real>)
      ensures frames == [] && !closed && this.freqOf == freqOf
    {
      frames := [];
      closed := false;
      this.freqOf := freqOf;
    }

    function State(): Link
      reads this
    {
      Link(frames, closed)
    }

    method Start() returns (ok: bool)
      modifies this
      ensures ok == !old(closed) && closed == old(closed)
      ensures ok ==> frames == old(frames) + StartFrames()
      ensures !ok ==> frames == old(frames)
    {
      ok := !closed;
      if ok {
        frames := frames + [MakeCommand(PreampType, [1])];
        frames := frames + [MakeCommand(AmpType, [1])];
      }
    }

    method Stop() returns (ok: bool)
      modifies this
      ensures ok == !old(closed) && closed == old(closed)
      ensures ok ==> frames == old(frames) + StopFrames()
      ensures !ok ==> frames == old(frames)
    {
      ok := !closed;
      if ok {
        frames := frames + [MakeCommand(PreampType, [0])];
        frames := frames + [MakeCommand(AmpType, [0])];
      }
    }

    method Close()
      modifies this
      ensures closed && frames == old(frames)
    {
      closed := true;
    }

    /** Sends one set frame for field `v`, or, when `v` does not fit in two bytes, recovers by
        sending the stop frames and closing the port; the recovery swallows the error. */
    method SendField(kind: Byte, v: int) returns (ok: bool)
      modifies this
      ensures ok == !old(closed)
      ensures !old(closed) && Fits16(v) ==> frames == old(frames) + [MakeCommand(kind, Le16(v as bv16))] && !closed
      ensures !old(closed) && !Fits16(v) ==> frames == old(frames) + StopFrames() && closed
      ensures old(closed) ==> frames == old(frames) && closed
    {
      if closed {
        // the write (or the recovery's first write) raises
        return false;
      }
      if Fits16(v) {
        frames := frames + [MakeCommand(kind, Le16(v as bv16))];
      } else {
        var stopped := Stop();
        Close();
      }
      ok := true;
    }

    method SetFreq(freq: real) returns (ok: bool)
      modifies this
      ensures ok == !old(closed)
      ensures !old(closed) && Fits16(FreqField(freq)) ==>
        frames == old(frames) + [SetFreqFrame(FreqField(freq))] && !closed
      ensures !old(closed) && !Fits16(FreqField(freq)) ==> frames == old(frames) + StopFrames() && closed
      ensures old(closed) ==> frames == old(frames) && closed
    {
      ok := SendField(SetFreqType, FreqField(freq));
    }

    method SetAmpl(ampl: real) returns (ok: bool)
      modifies this
      ensures ok == !old(closed)
      ensures !old(closed) && Fits16(AmplField(ampl)) ==>
        frames == old(frames) + [SetAmplFrame(AmplField(ampl))] && !closed
      ensures !old(closed) && !Fits16(AmplField(ampl)) ==> frames == old(frames) + StopFrames() && closed
      ensures old(closed) ==> frames == old(frames) && closed
      ensures (State(), ok) == AfterSetAmpl(old(State()), ampl)
    {
      ok := SendField(SetAmplType, AmplField(ampl));
    }

    /** Looks the angle up in the calibration (raising when it has no frequency for it), then
        sets that frequency. */
    method SetAngle(angle: real) returns (ok: bool)
      modifies this
      ensures ok == (freqOf(angle).Some? && !old(closed))
      ensures freqOf(angle).None? ==> frames == old(frames) && closed == old(closed)
      ensures freqOf(angle).Some? && !old(closed) && Fits16(FreqField(freqOf(angle).value)) ==>
        frames == old(frames) + [SetFreqFrame(FreqField(freqOf(angle).value))] && !closed
      ensures freqOf(angle).Some? && !old(closed) && !Fits16(FreqField(freqOf(angle).value)) ==>
        frames == old(frames) + StopFrames() && closed
      ensures old(closed) ==> frames == old(frames) && closed
      ensures (State(), ok) == AfterSetAngle(freqOf, old(State()), angle)
    {
      var freq := freqOf(angle);
      if freq.None? {
        return false;
      }
      ok := SetFreq(freq.value);
    }
  }

  /** The fixed start and stop frames are well formed. */
  lemma StartStopFramesWellFormed()
    ensures forall f :: f in StartFrames() ==> WellFormed(f)
    ensures forall f :: f in StopFrames() ==> WellFormed(f)
  {
    MakeCommandRoundTrip(PreampType, [1]);
    MakeCommandRoundTrip(AmpType, [1]);
    MakeCommandRoundTrip(PreampType, [0]);
    MakeCommandRoundTrip(AmpType, [0]);
  }
}
