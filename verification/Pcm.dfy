/** Conversion of 32-bit float audio to 16-bit PCM (`f32le_to_s16le` in `speech/audio.py`).
    How four bytes make a float is a parameter. */
module Pcm {
  import opened Common

  datatype Float = NaN | NegInf | Num(x: real) | PosInf

  /** `int(y)`, which truncates toward zero. */
  function Trunc(y: real): int { if y >= 0.0 then y.Floor else -((-y).Floor) }

  function Clamp(f: Float): real
    requires !f.NaN?
  {
    match f
    case NegInf => -1.0
    case PosInf => 1.0
    case Num(x) => if x > 1.0 then 1.0 else if x < -1.0 then -1.0 else x
  }

  function Quantize(f: Float): int {
    if f.NaN? then 0
    else
      var x := Clamp(f);
      if x >= 1.0 then 32767 else if x < 0.0 then Trunc(x * 32768.0) else Trunc(x * 32767.0)
  }

  /** The two bytes of a sample, low byte first, and the sample of two bytes. */
  function Encode(v: int): seq<Byte>
    requires -32768 <= v <= 32767
  {
    var u := if v < 0 then v + 65536 else v;
    [(u % 256) as Byte, (u / 256) as Byte]
  }

  function Decode(b: seq<Byte>): int
    requires |b| == 2
  {
    var u := b[0] as int + 256 * b[1] as int;
    if u >= 32768 then u - 65536 else u
  }

  lemma SampleRoundTrip(v: int)
    requires -32768 <= v <= 32767
    ensures Decode(Encode(v)) == v
  {
  }

  /** Saturation keeps every sample in range, and the extremes are reached. */
  lemma QuantizeInRange(f: Float)
    ensures -32768 <= Quantize(f) <= 32767
    ensures !f.NaN? && Clamp(f) == 1.0 ==> Quantize(f) == 32767
    ensures !f.NaN? && Clamp(f) == -1.0 ==> Quantize(f) == -32768
  {
  }

  /** The order on floats, the infinities included. */
  predicate AtMost(a: Float, b: Float) {
    !a.NaN? && !b.NaN? && (a.NegInf? || b.PosInf? || (a.Num? && b.Num? && a.x <= b.x))
  }

  /** A higher float never becomes a lower sample. */
  lemma QuantizeMonotone(a: Float, b: Float)
    requires AtMost(a, b)
    ensures Quantize(a) <= Quantize(b)
  {
    var x, y := Clamp(a), Clamp(b);
    QuantizeInRange(a);
    QuantizeInRange(b);
    if x < 0.0 && y < 0.0 {
      assert (-(x * 32768.0)).Floor >= (-(y * 32768.0)).Floor;
    } else if 0.0 <= x && y < 1.0 {
      assert (x * 32767.0).Floor <= (y * 32767.0).Floor;
    }
  }

  /** The bytes of sample `k`. */
  function Word(out: seq<Byte>, k: nat): seq<Byte>
    requires 2 * k + 2 <= |out|
  {
    out[2 * k..2 * k + 2]
  }

  /** Each group of four bytes becomes one sample; bytes left over are dropped, so the output
      always ends on a sample boundary. */
  method F32leToS16le(frame: seq<Byte>, decode: seq<Byte> -> Float) returns (out: seq<Byte>)
    ensures |out| == 2 * (|frame| / 4)
    ensures forall k :: 0 <= k < |frame| / 4 ==> Decode(Word(out, k)) == Quantize(decode(frame[4 * k..4 * k + 4]))
  {
    out := [];
    for i := 0 to |frame| / 4
      invariant |out| == 2 * i
      invariant forall k :: 0 <= k < i ==> Decode(Word(out, k)) == Quantize(decode(frame[4 * k..4 * k + 4]))
    {
      var v := decode(frame[4 * i..4 * i + 4]);
      QuantizeInRange(v);
      SampleRoundTrip(Quantize(v));
      ghost var before := out;
      out := out + Encode(Quantize(v));
      assert Word(out, i) == Encode(Quantize(v));
      assert forall k :: 0 <= k < i ==> Word(out, k) == Word(before, k);
    }
  }
}
