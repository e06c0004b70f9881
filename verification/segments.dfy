/** The segment table (`char_map`) and the unpacking of a mask into booleans
    (`bits_to_vec`) of src/lib.rs. */
module Segments {
  import opened Wrappers
  import opened Decimal

  type Byte = bv8

  /** `char_map` looked up with `get`: the 8-bit segment mask of a digit
      character, absent for every other character. Read most significant bit
      first, the bits are the cap, the upper band's left, middle and right
      strokes, the lower band's left, middle and right strokes, and an unused
      last bit. */
  function SegmentMask(c: char): (m: Option<Byte>)
    ensures m.Some? <==> IsDigit(c)
    ensures m.Some? ==> m.value & 1 == 0
  {
    match c
    case '0' => Some(0xDE /* 11011110 */)
    case '1' => Some(0x12 /* 00010010 */)
    case '2' => Some(0xBC /* 10111100 */)
    case '3' => Some(0xB6 /* 10110110 */)
    case '4' => Some(0x72 /* 01110010 */)
    case '5' => Some(0xE6 /* 11100110 */)
    case '6' => Some(0xEE /* 11101110 */)
    case '7' => Some(0x92 /* 10010010 */)
    case '8' => Some(0xFE /* 11111110 */)
    case '9' => Some(0xF6 /* 11110110 */)
    case _ => None
  }

  /** The `unwrap` of the looked-up mask: defined only for characters the
      table holds, which are exactly the digits. */
  function Lookup(c: char): (m: Byte)
    requires SegmentMask(c).Some?
    ensures IsDigit(c)
    ensures m & 1 == 0
  {
    SegmentMask(c).value
  }

  /** Bit `k` of `m`, counting from the least significant bit. */
  predicate Bit(m: Byte, k: nat)
    requires k < 8
  {
    (m >> k) & 1 == 1
  }

  /** The last `k` bits of `current`, most significant first: the loop of
      `bits_to_vec`, which stores the low bit at the highest free index and
      shifts right. */
  function BitsFrom(current: Byte, k: nat): (b: seq<bool>)
    requires k <= 8
    ensures |b| == k
  {
    if k == 0 then [] else BitsFrom(current >> 1, k - 1) + [current & 1 != 0]
  }

  /** The loop of `bits_to_vec` reads bit `k - 1 - i` of its input into
      position `i`. */
  lemma {:induction false} BitsFromBits(current: Byte, k: nat)
    requires k <= 8
    ensures forall i :: 0 <= i < k ==> BitsFrom(current, k)[i] == Bit(current, k - 1 - i)
  {
    if k > 0 {
      var front := BitsFrom(current >> 1, k - 1);
      var b := BitsFrom(current, k);
      assert b == front + [current & 1 != 0];
      BitsFromBits(current >> 1, k - 1);
      forall i | 0 <= i < k
        ensures b[i] == Bit(current, k - 1 - i)
      {
        if i < k - 1 {
          assert b[i] == front[i] == Bit(current >> 1, k - 2 - i);
          ShiftBit(current, k - 2 - i);
        } else {
          assert b[i] == (current & 1 != 0);
        }
      }
    }
  }

  /** Shifting right by one moves every bit one place down. */
  lemma ShiftBit(c: Byte, j: nat)
    requires j < 7
    ensures Bit(c >> 1, j) == Bit(c, j + 1)
  {
    if j == 0 {
    } else if j == 1 {
    } else if j == 2 {
    } else if j == 3 {
    } else if j == 4 {
    } else if j == 5 {
    } else {
    }
  }

  /** `bits_to_vec`: the eight bits of `m`, most significant first. */
  function BitsToVec(m: Byte): (b: seq<bool>)
    ensures |b| == 8
    ensures forall i :: 0 <= i < 8 ==> b[i] == Bit(m, 7 - i)
  {
    BitsFromBits(m, 8);
    BitsFrom(m, 8)
  }

  /** Packs booleans, most significant first, into the low bits of a byte. */
  function PackBits(b: seq<bool>): (m: Byte)
    requires |b| <= 8
    ensures forall i :: 0 <= i < |b| ==> Bit(m, |b| - 1 - i) == b[i]
    ensures forall k :: |b| <= k < 8 ==> !Bit(m, k)
  {
    if |b| == 0 then 0
    else
      var p := PackBits(b[..|b| - 1]);
      var low: Byte := if b[|b| - 1] then 1 else 0;
      var m := (p << 1) | low;
      ShiftIn(p, low, m);
      m
  }

  /** Shifting left and or-ing in a low bit moves every bit up by one. */
  lemma ShiftIn(p: Byte, low: Byte, m: Byte)
    requires low <= 1 && m == (p << 1) | low
    ensures Bit(m, 0) == (low == 1)
    ensures forall k :: 1 <= k < 8 ==> Bit(m, k) == Bit(p, k - 1)
  {
    forall k | 1 <= k < 8
      ensures Bit(m, k) == Bit(p, k - 1)
    {
      ShiftInAt(p, low, m, k);
    }
  }

  lemma ShiftInAt(p: Byte, low: Byte, m: Byte, k: nat)
    requires low <= 1 && m == (p << 1) | low && 1 <= k < 8
    ensures Bit(m, k) == Bit(p, k - 1)
  {
  }

  /** Unpacking is the inverse of packing. */
  lemma UnpackPack(b: seq<bool>)
    requires |b| == 8
    ensures BitsToVec(PackBits(b)) == b
  {
  }

  /** Packing is the inverse of unpacking: no bit of the mask is lost. */
  lemma PackUnpack(m: Byte)
    ensures PackBits(BitsToVec(m)) == m
  {
    var b := BitsToVec(m);
    var p := PackBits(b);
    forall k | 0 <= k < 8
      ensures Bit(p, k) == Bit(m, k)
    {
      assert Bit(p, 8 - 1 - (7 - k)) == b[7 - k];
    }
    BitsDetermineByte(p, m);
  }

  lemma BitsDetermineByte(x: Byte, y: Byte)
    requires forall k :: 0 <= k < 8 ==> Bit(x, k) == Bit(y, k)
    ensures x == y
  {
    assert Bit(x, 0) == Bit(y, 0) && Bit(x, 1) == Bit(y, 1);
    assert Bit(x, 2) == Bit(y, 2) && Bit(x, 3) == Bit(y, 3);
    assert Bit(x, 4) == Bit(y, 4) && Bit(x, 5) == Bit(y, 5);
    assert Bit(x, 6) == Bit(y, 6) && Bit(x, 7) == Bit(y, 7);
  }

  /** The unit test of `bits_to_vec`. */
  lemma BitsToVecExample()
    ensures BitsToVec(0xC1) == [true, true, false, false, false, false, false, true]
  {
  }

  /** The last unpacked bit of every table mask is unset. */
  lemma PaddingBitUnused(c: char)
    requires IsDigit(c)
    ensures !BitsToVec(Lookup(c))[7]
  {
  }

  /** The strokes of a seven-segment display, named by where they are drawn. */
  datatype Segment = Top | UpperLeft | Middle | UpperRight | LowerLeft | Bottom | LowerRight

  /** Where each stroke sits in an unpacked mask. */
  function Position(s: Segment): (p: nat)
    ensures p < 7
  {
    match s
    case Top => 0
    case UpperLeft => 1
    case Middle => 2
    case UpperRight => 3
    case LowerLeft => 4
    case Bottom => 5
    case LowerRight => 6
  }

  /** The conventional seven-segment shapes of the decimal digits, stated
      independently of any bit encoding. */
  function LitSegments(d: nat): set<Segment>
    requires d < 10
  {
    match d
    case 0 => {Top, UpperLeft, UpperRight, LowerLeft, Bottom, LowerRight}
    case 1 => {UpperRight, LowerRight}
    case 2 => {Top, UpperRight, Middle, LowerLeft, Bottom}
    case 3 => {Top, UpperRight, Middle, LowerRight, Bottom}
    case 4 => {UpperLeft, UpperRight, Middle, LowerRight}
    case 5 => {Top, UpperLeft, Middle, LowerRight, Bottom}
    case 6 => {Top, UpperLeft, Middle, LowerLeft, LowerRight, Bottom}
    case 7 => {Top, UpperRight, LowerRight}
    case 8 => {Top, UpperLeft, UpperRight, Middle, LowerLeft, LowerRight, Bottom}
    case 9 => {Top, UpperLeft, UpperRight, Middle, LowerRight, Bottom}
  }

  /** The table draws every digit with exactly the strokes of its
      seven-segment shape. */
  lemma MaskMatchesShape(c: char)
    requires IsDigit(c)
    ensures forall s :: BitsToVec(Lookup(c))[Position(s)] <==> s in LitSegments(DigitValue(c))
  {
  }

  /** Distinct digits get distinct masks, so the drawing is unambiguous. */
  lemma MaskInjective(c1: char, c2: char)
    requires IsDigit(c1) && IsDigit(c2)
    requires Lookup(c1) == Lookup(c2)
    ensures c1 == c2
  {
  }
}
