/**
 * The culling-plane mask of the camera-relative sky transform: before its
 * children are traversed, every frustum plane beyond the standard four sides
 * (plus the near and far planes when the culling mode uses them) is switched
 * off in the frustum's result mask, so a reflection camera's extra clip plane
 * does not cull the sky.
 *
 * The masks are 32-bit integers; a `Word` holds their bits, bit `k` at index
 * `k`, so that `&`, `~` and `<<` act bit by bit.
 */
module SkyCull {

  type Word = w: seq<bool> | |w| == 32 witness seq(32, _ => false)

  /** The culling-mode bits consulted (`osg::CullSettings`): 0x2 and 0x4. */
  const NearPlaneCullingBit := 1
  const FarPlaneCullingBit := 2

  /** The word with only bit `i` set; zero once `i` has been shifted past the top. */
  function MaskAt(i: nat): (m: Word)
    ensures forall k :: 0 <= k < 32 ==> (m[k] <==> k == i)
  {
    seq(32, k => k == i)
  }

  /** `w << 1`: every bit moves up one place, the top bit is lost and bit 0 is cleared. */
  function ShiftLeft(w: Word): (r: Word)
    ensures !r[0] && forall k :: 1 <= k < 32 ==> r[k] == w[k - 1]
  {
    seq(32, k requires 0 <= k < 32 => k > 0 && w[k - 1])
  }

  /** `x & ~m`. */
  function AndNot(x: Word, m: Word): (r: Word)
    ensures forall k :: 0 <= k < 32 ==> (r[k] <==> x[k] && !m[k])
  {
    seq(32, k requires 0 <= k < 32 => x[k] && !m[k])
  }

  /** The number of standard frustum planes for a culling mode: four sides, then near and far if used. */
  function StandardPlanes(mode: Word): (n: nat)
    ensures 4 <= n <= 6
    ensures n == 4 + (if mode[NearPlaneCullingBit] then 1 else 0) + (if mode[FarPlaneCullingBit] then 1 else 0)
  {
    4 + (if mode[NearPlaneCullingBit] then 1 else 0) + (if mode[FarPlaneCullingBit] then 1 else 0)
  }

  /** `x` with the bits of planes `lo` .. `hi - 1` cleared and every other bit kept. */
  function Cleared(x: Word, lo: nat, hi: nat): Word {
    seq(32, k requires 0 <= k < 32 => x[k] && !(lo <= k < hi))
  }

  /** Shifting the one-bit word of plane `i` gives that of plane `i + 1`. */
  lemma ShiftMask(i: nat)
    ensures ShiftLeft(MaskAt(i)) == MaskAt(i + 1)
  {
    assert forall k :: 0 <= k < 32 ==> ShiftLeft(MaskAt(i))[k] == MaskAt(i + 1)[k];
  }

  /** One more iteration of the loop extends the cleared range by plane `i` when `i >= lo`. */
  lemma ClearStep(x: Word, lo: nat, i: nat)
    ensures Cleared(x, lo, i + 1) == if i >= lo then AndNot(Cleared(x, lo, i), MaskAt(i)) else Cleared(x, lo, i)
  {
  }

  /**
   * The body of the cull callback as far as the mask goes: count the
   * standard planes for the culling mode, then walk the plane list with a
   * shifting one-bit mask and clear the bit of every plane past them.
   */
  method CullResultMask(cullingMode: Word, planeCount: nat, resultMask: Word) returns (r: Word)
    ensures r == Cleared(resultMask, StandardPlanes(cullingMode), planeCount)
  {
    var numPlanes := 4;
    if cullingMode[NearPlaneCullingBit] {
      numPlanes := numPlanes + 1;
    }
    if cullingMode[FarPlaneCullingBit] {
      numPlanes := numPlanes + 1;
    }
    var mask := MaskAt(0);
    r := resultMask;
    var i := 0;
    while i < planeCount
      invariant i <= planeCount
      invariant mask == MaskAt(i)
      invariant r == Cleared(resultMask, numPlanes, i)
    {
      ClearStep(resultMask, numPlanes, i);
      if i >= numPlanes {
        r := AndNot(r, mask);
      }
      ShiftMask(i);
      mask := ShiftLeft(mask);
      i := i + 1;
    }
    assert Cleared(resultMask, numPlanes, 0) == resultMask;
  }

  /**
   * What the callback promises: the standard planes and every plane past the
   * list keep their bit, the extra planes lose it, and no bit is ever set.
   */
  lemma ClearedMeaning(x: Word, lo: nat, hi: nat)
    ensures forall k :: 0 <= k < 32 && k < lo ==> Cleared(x, lo, hi)[k] == x[k]
    ensures forall k :: 0 <= k < 32 && hi <= k ==> Cleared(x, lo, hi)[k] == x[k]
    ensures forall k :: 0 <= k < 32 && lo <= k < hi ==> !Cleared(x, lo, hi)[k]
    ensures forall k :: 0 <= k < 32 && Cleared(x, lo, hi)[k] ==> x[k]
  {
  }

  /** With no plane past the standard ones, the mask is left as it was. */
  lemma NothingExtra(x: Word, lo: nat, hi: nat)
    requires hi <= lo
    ensures Cleared(x, lo, hi) == x
  {
  }

  /** Running the callback again on its own result changes nothing. */
  lemma ClearedIdempotent(x: Word, lo: nat, hi: nat)
    ensures Cleared(Cleared(x, lo, hi), lo, hi) == Cleared(x, lo, hi)
  {
  }

  // ---------------------------------------------------------------------
  // The words as the integers they stand for

  function Pow2(n: nat): (p: nat)
    ensures p >= 1
  {
    if n == 0 then 1 else 2 * Pow2(n - 1)
  }

  /** The unsigned value of a bit string, bit `k` weighing 2^k. */
  function ToNat(w: seq<bool>): nat
    decreases |w|
  {
    if w == [] then 0 else ToNat(w[..|w| - 1]) + (if w[|w| - 1] then Pow2(|w| - 1) else 0)
  }

  /** An n-bit string is below 2^n. */
  lemma {:induction false} ToNatBound(w: seq<bool>)
    ensures ToNat(w) < Pow2(|w|)
    decreases |w|
  {
    if w != [] {
      ToNatBound(w[..|w| - 1]);
    }
  }

  /** A string whose only set bit is `i` has the value 2^i, or 0 when `i` is past its end. */
  lemma {:induction false} OneBitValue(w: seq<bool>, i: nat)
    requires forall k :: 0 <= k < |w| ==> w[k] == (k == i)
    ensures ToNat(w) == if i < |w| then Pow2(i) else 0
    decreases |w|
  {
    if w != [] {
      var init := w[..|w| - 1];
      assert forall k :: 0 <= k < |init| ==> init[k] == w[k];
      OneBitValue(init, i);
    }
  }

  /** A zero bit put below a string doubles its value. */
  lemma {:induction false} PrependZero(v: seq<bool>)
    ensures ToNat([false] + v) == 2 * ToNat(v)
    decreases |v|
  {
    if v != [] {
      var init := v[..|v| - 1];
      PrependZero(init);
      assert ([false] + v)[..|v|] == [false] + init;
    }
  }

  /** `MaskAt(i)` is the integer the loop's `mask` holds: 1 shifted left `i` times, 0 once shifted out. */
  lemma MaskValue(i: nat)
    ensures ToNat(MaskAt(i)) == if i < 32 then Pow2(i) else 0
  {
    OneBitValue(MaskAt(i), i);
  }

  /** The culling-mode bits tested are the values 0x2 and 0x4, and the loop's mask starts at 0x1. */
  lemma CullingBitValues()
    ensures ToNat(MaskAt(0)) == 0x1
    ensures ToNat(MaskAt(NearPlaneCullingBit)) == 0x2 && ToNat(MaskAt(FarPlaneCullingBit)) == 0x4
  {
    MaskValue(0);
    MaskValue(NearPlaneCullingBit);
    MaskValue(FarPlaneCullingBit);
  }

  /** Powers of two add their exponents. */
  lemma {:induction false} Pow2Add(a: nat, b: nat)
    ensures Pow2(a + b) == Pow2(a) * Pow2(b)
    decreases a
  {
    if a > 0 {
      Pow2Add(a - 1, b);
      assert Pow2(a + b) == 2 * Pow2(a - 1 + b);
    }
  }

  /** The two powers the 32-bit words need. */
  lemma WordPowers()
    ensures Pow2(31) == 0x8000_0000 && Pow2(32) == 0x1_0000_0000
  {
    assert Pow2(4) == 16;
    Pow2Add(4, 4);
    Pow2Add(8, 8);
    Pow2Add(16, 16);
  }

  /** `ShiftLeft` is `<< 1` on 32-bit unsigned values: doubling modulo 2^32. */
  lemma ShiftValue(w: Word)
    ensures ToNat(ShiftLeft(w)) == 2 * ToNat(w) % 0x1_0000_0000
  {
    var low := w[..31];
    assert ShiftLeft(w) == [false] + low;
    PrependZero(low);
    ToNatBound(low);
    WordPowers();
    assert w[..31] == w[..|w| - 1];
    if w[31] {
      assert 2 * ToNat(w) == 2 * ToNat(low) + 0x1_0000_0000;
    } else {
      assert 2 * ToNat(w) == 2 * ToNat(low);
    }
  }
}
