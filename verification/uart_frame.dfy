/**
 * The serial frame the testbench drives on the device's `rx` line for one
 * byte: an idle-high slot, a low start bit, the eight data bits
 * least-significant first, and a high stop bit.
 *
 * `Decode` is the reading of a frame a correct receiver performs; the
 * testbench relies on it when it expects the device to report back the byte
 * it sent.
 */
module UartFrame {

  datatype Option<T> = None | Some(value: T)

  const Idle: int := 1
  const StartBit: int := 0
  const StopBit: int := 1
  const DataBitCount: nat := 8
  /** Start bit, eight data bits, stop bit. */
  const FrameSlots: nat := 10

  function Pow2(n: nat): (r: nat)
    ensures r >= 1
  {
    if n == 0 then 1 else 2 * Pow2(n - 1)
  }

  /** Python's `b >> i` on an unbounded integer: halving `i` times, rounding
      toward minus infinity (Dafny's `/` by a positive divisor floors, as
      Python's shift does, for negative `b` as well). */
  function Shr(b: int, i: nat): int
    decreases i
  {
    if i == 0 then b else Shr(b / 2, i - 1)
  }

  /** Python's `(b >> i) & 1`: bit `i` of `b` in two's complement. Dafny's `%`
      by 2 is never negative, as `& 1` is not. */
  function Bit(b: int, i: nat): (r: int)
    ensures r == 0 || r == 1
  {
    Shr(b, i) % 2
  }

  /** Bits 0 .. n-1 of `b`, least significant first. */
  function Bits(b: int, n: nat): (r: seq<int>)
    ensures |r| == n
  {
    seq(n, i requires 0 <= i < n => Bit(b, i))
  }

  /** The data slots of a frame: bits 0 .. 7 of `b`, least significant first. */
  function DataBits(b: int): (r: seq<int>)
    ensures |r| == DataBitCount
  {
    Bits(b, DataBitCount)
  }

  /** The 10-slot frame for `b`: start bit, data bit `i` in slot `1 + i`,
      stop bit. */
  function Frame(b: int): (r: seq<int>)
    ensures |r| == FrameSlots
    ensures r[0] == StartBit && r[FrameSlots - 1] == StopBit
    ensures forall i :: 0 <= i < DataBitCount ==> r[1 + i] == Bit(b, i)
  {
    [StartBit] + DataBits(b) + [StopBit]
  }

  /** The levels `uart_send_byte` drives, one per bit period: the idle slot,
      then the frame. */
  function Waveform(b: int): seq<int>
  {
    [Idle] + Frame(b)
  }

  predicate IsBinary(levels: seq<int>)
  {
    forall k :: 0 <= k < |levels| ==> levels[k] == 0 || levels[k] == 1
  }

  /** The number whose bits, least significant first, are `bits`. */
  function Value(bits: seq<int>): int
  {
    if bits == [] then 0 else bits[0] + 2 * Value(bits[1..])
  }

  /** A receiver's reading of 10 sampled slots: a low start bit, eight binary
      data bits taken least significant first, and a high stop bit; anything
      else is not a frame. */
  function Decode(f: seq<int>): Option<int>
  {
    if |f| == FrameSlots && f[0] == StartBit && f[FrameSlots - 1] == StopBit
       && IsBinary(f[1..FrameSlots - 1])
    then Some(Value(f[1..FrameSlots - 1]))
    else None
  }

  /** Shifting `b` right once more is shifting `b / 2`; stated from the
      outside so that it can peel the lowest bit. */
  lemma {:induction false} BitsTail(b: int, n: nat)
    requires n > 0
    ensures Bits(b, n)[0] == b % 2
    ensures Bits(b, n)[1..] == Bits(b / 2, n - 1)
  {
    forall i | 0 <= i < n - 1
      ensures Bits(b, n)[1..][i] == Bits(b / 2, n - 1)[i]
    {
      assert Shr(b, i + 1) == Shr(b / 2, i);
    }
  }

  /** Reading back the low `n` bits of a number below 2^n gives the number. */
  lemma {:induction false} ValueOfBits(b: int, n: nat)
    requires 0 <= b < Pow2(n)
    ensures Value(Bits(b, n)) == b
  {
    if n == 0 {
      assert Bits(b, n) == [];
    } else {
      BitsTail(b, n);
      ValueOfBits(b / 2, n - 1);
    }
  }

  /** Binary digits determine their value, which lies below 2^n, and the bits
      of that value are the digits again. */
  lemma {:induction false} BitsOfValue(bits: seq<int>)
    requires IsBinary(bits)
    ensures 0 <= Value(bits) < Pow2(|bits|)
    ensures Bits(Value(bits), |bits|) == bits
  {
    if bits != [] {
      var n := |bits|;
      var v := Value(bits);
      assert IsBinary(bits[1..]);
      BitsOfValue(bits[1..]);
      assert v % 2 == bits[0] && v / 2 == Value(bits[1..]);
      BitsTail(v, n);
      assert bits == [bits[0]] + bits[1..];
    }
  }

  lemma Pow2Times(n: nat, k: int)
    requires n > 0
    ensures Pow2(n) * k == 2 * (Pow2(n - 1) * k)
  {
  }

  /** Shifting a number below 2^i right by `i` leaves nothing. */
  lemma {:induction false} ShrSmall(b: int, i: nat)
    requires 0 <= b < Pow2(i)
    ensures Shr(b, i) == 0
    decreases i
  {
    if i > 0 {
      ShrSmall(b / 2, i - 1);
    }
  }

  /** Adding a multiple of 2^n to `b` adds the matching multiple of
      2^(n - i) to `b >> i`, for every shift `i` up to `n`. */
  lemma {:induction false} ShrShift(b: int, k: int, n: nat, i: nat)
    requires i <= n
    ensures Shr(b + Pow2(n) * k, i) == Shr(b, i) + Pow2(n - i) * k
    decreases i
  {
    if i > 0 {
      var m := Pow2(n - 1) * k;
      Pow2Times(n, k);
      assert (b + 2 * m) / 2 == b / 2 + m;
      ShrShift(b / 2, k, n - 1, i - 1);
    }
  }

  /** Bit `i` of `b`, for `i` below 8, depends only on `b % 256`. */
  lemma BitModulo(b: int, i: nat)
    requires i < DataBitCount
    ensures Bit(b, i) == Bit(b % 256, i)
  {
    var low, high := b % 256, b / 256;
    var m := Pow2(7 - i) * high;
    assert Shr(b, i) == Shr(low, i) + 2 * m by {
      var p := Pow2(8);
      assert p == 256;
      assert b == low + p * high;
      ShrShift(low, high, 8, i);
      EvenMultiple(i, high);
    }
    assert (Shr(low, i) + 2 * m) % 2 == Shr(low, i) % 2;
  }

  lemma EvenMultiple(i: nat, k: int)
    requires i < DataBitCount
    ensures Pow2(8 - i) * k == 2 * (Pow2(7 - i) * k)
  {
  }

  /** Only bits 0 .. 7 of the byte reach the line: the frame of any integer is
      the frame of its remainder modulo 256 (Python's `%`, which agrees with
      Dafny's for a positive modulus). */
  lemma FrameModulo(b: int)
    ensures Frame(b) == Frame(b % 256)
  {
    forall i | 0 <= i < DataBitCount
      ensures DataBits(b)[i] == DataBits(b % 256)[i]
    {
      BitModulo(b, i);
    }
    assert DataBits(b) == DataBits(b % 256);
  }

  /** Round trip: the frame of a byte decodes to that byte. */
  lemma RoundTrip(b: int)
    requires 0 <= b < 256
    ensures Decode(Frame(b)) == Some(b)
  {
    var f := Frame(b);
    assert f[1..FrameSlots - 1] == DataBits(b);
    assert Pow2(8) == 256;
    ValueOfBits(b, DataBitCount);
  }

  /** The converse: whatever decodes is the frame of the byte it decodes to,
      so a frame decodes exactly when it is the frame of some byte. */
  lemma DecodeIsFrame(f: seq<int>)
    ensures Decode(f).Some? ==> 0 <= Decode(f).value < 256 && Frame(Decode(f).value) == f
    ensures Decode(f).Some? <==> exists b :: 0 <= b < 256 && Frame(b) == f
  {
    if Decode(f).Some? {
      var data := f[1..FrameSlots - 1];
      var v := Value(data);
      BitsOfValue(data);
      assert Pow2(8) == 256;
      assert DataBits(v) == data;
      assert f == [f[0]] + data + [f[FrameSlots - 1]];
    }
    if exists b :: 0 <= b < 256 && Frame(b) == f {
      var b :| 0 <= b < 256 && Frame(b) == f;
      RoundTrip(b);
    }
  }

  /** The slot layout of what `uart_send_byte` drives, whatever the byte: 11
      binary levels, idle high in slot 0, start low in slot 1, bit `i` of the
      byte in slot `2 + i`, stop high in slot 10. */
  lemma WaveformSlots(b: int)
    ensures |Waveform(b)| == 11 && IsBinary(Waveform(b))
    ensures Waveform(b)[0] == 1 && Waveform(b)[1] == 0 && Waveform(b)[10] == 1
    ensures forall i :: 0 <= i < DataBitCount ==> Waveform(b)[2 + i] == (Shr(b, i) % 2)
    ensures Waveform(b)[1..] == Frame(b)
  {
  }

  /** Bits go out least significant first: for 0x01 the first data slot is
      high and the last is low, and for 0x80 the other way round. */
  lemma LsbFirst()
    ensures Frame(0x01)[1] == 1 && Frame(0x01)[8] == 0
    ensures Frame(0x80)[1] == 0 && Frame(0x80)[8] == 1
  {
    assert Pow2(7) == 0x80;
    ShrSmall(0x01, 7);
    ShrSmall(0, 7);
    ShrShift(0, 1, 7, 7);
  }
}
