/** The 64-bit mixer that scores a member for a key: a permutation of the words, so different members never tie. */
module Mixer {

  // ---- The steps of the mixer, each beside the step that undoes it ----

  function Golden(x: bv64): bv64 {
    x * 0x9E37_79B9_7F4A_7C15
  }

  function UnGolden(x: bv64): bv64 {
    x * 0xF1DE_83E1_9937_733D
  }

  function First(x: bv64): bv64 {
    x * 0xBF58_476D_1CE4_E5B9
  }

  function UnFirst(x: bv64): bv64 {
    x * 0x96DE_1B17_3F11_9089
  }

  function Second(x: bv64): bv64 {
    x * 0x94D0_49BB_1331_11EB
  }

  function UnSecond(x: bv64): bv64 {
    x * 0x3196_42B2_D24D_8EC3
  }

  function Fold30(x: bv64): bv64 {
    x ^ (x >> 30)
  }

  function Unfold30(y: bv64): bv64 {
    y ^ (y >> 30) ^ (y >> 60)
  }

  function Fold27(x: bv64): bv64 {
    x ^ (x >> 27)
  }

  function Unfold27(y: bv64): bv64 {
    y ^ (y >> 27) ^ (y >> 54)
  }

  function Fold31(x: bv64): bv64 {
    x ^ (x >> 31)
  }

  function Unfold31(y: bv64): bv64 {
    y ^ (y >> 31) ^ (y >> 62)
  }

  function Xor(a: bv64, x: bv64): bv64 {
    a ^ x
  }

  /** `mix`. */
  function Mix(a: bv64, b: bv64): bv64 {
    Fold31(Second(Fold27(First(Fold30(Xor(a, Golden(b)))))))
  }

  function Unmix(a: bv64, y: bv64): bv64 {
    UnGolden(Xor(a, Unfold30(UnFirst(Unfold27(UnSecond(Unfold31(y)))))))
  }

  lemma GoldenIs(x: bv64)
    ensures Golden(x) == x * 0x9E37_79B9_7F4A_7C15 && UnGolden(x) == x * 0xF1DE_83E1_9937_733D
  {
  }

  lemma GoldenBack(x: bv64)
    ensures UnGolden(x * 0x9E37_79B9_7F4A_7C15) == x
  {
  }

  lemma GoldenForth(x: bv64)
    ensures Golden(x * 0xF1DE_83E1_9937_733D) == x
  {
  }

  lemma GoldenUndone(x: bv64)
    ensures UnGolden(Golden(x)) == x && Golden(UnGolden(x)) == x
  {
    hide *;
    GoldenIs(x);
    GoldenBack(x);
    GoldenForth(x);
  }

  lemma FirstIs(x: bv64)
    ensures First(x) == x * 0xBF58_476D_1CE4_E5B9 && UnFirst(x) == x * 0x96DE_1B17_3F11_9089
  {
  }

  lemma FirstBack(x: bv64)
    ensures UnFirst(x * 0xBF58_476D_1CE4_E5B9) == x
  {
  }

  lemma FirstForth(x: bv64)
    ensures First(x * 0x96DE_1B17_3F11_9089) == x
  {
  }

  lemma FirstUndone(x: bv64)
    ensures UnFirst(First(x)) == x && First(UnFirst(x)) == x
  {
    hide *;
    FirstIs(x);
    FirstBack(x);
    FirstForth(x);
  }

  lemma SecondIs(x: bv64)
    ensures Second(x) == x * 0x94D0_49BB_1331_11EB && UnSecond(x) == x * 0x3196_42B2_D24D_8EC3
  {
  }

  lemma SecondBack(x: bv64)
    ensures UnSecond(x * 0x94D0_49BB_1331_11EB) == x
  {
  }

  lemma SecondForth(x: bv64)
    ensures Second(x * 0x3196_42B2_D24D_8EC3) == x
  {
  }

  lemma SecondUndone(x: bv64)
    ensures UnSecond(Second(x)) == x && Second(UnSecond(x)) == x
  {
    hide *;
    SecondIs(x);
    SecondBack(x);
    SecondForth(x);
  }

  lemma Fold30Is(x: bv64)
    ensures Fold30(x) == x ^ (x >> 30) && Unfold30(x) == x ^ (x >> 30) ^ (x >> 60)
  {
  }

  lemma Fold30Back(x: bv64)
    ensures Unfold30(x ^ (x >> 30)) == x
  {
  }

  lemma Fold30Forth(x: bv64)
    ensures Fold30(x ^ (x >> 30) ^ (x >> 60)) == x
  {
  }

  lemma Fold30Undone(x: bv64)
    ensures Unfold30(Fold30(x)) == x && Fold30(Unfold30(x)) == x
  {
    hide *;
    Fold30Is(x);
    Fold30Back(x);
    Fold30Forth(x);
  }

  lemma Fold27Is(x: bv64)
    ensures Fold27(x) == x ^ (x >> 27) && Unfold27(x) == x ^ (x >> 27) ^ (x >> 54)
  {
  }

  lemma Fold27Back(x: bv64)
    ensures Unfold27(x ^ (x >> 27)) == x
  {
  }

  lemma Fold27Forth(x: bv64)
    ensures Fold27(x ^ (x >> 27) ^ (x >> 54)) == x
  {
  }

  lemma Fold27Undone(x: bv64)
    ensures Unfold27(Fold27(x)) == x && Fold27(Unfold27(x)) == x
  {
    hide *;
    Fold27Is(x);
    Fold27Back(x);
    Fold27Forth(x);
  }

  lemma Fold31Is(x: bv64)
    ensures Fold31(x) == x ^ (x >> 31) && Unfold31(x) == x ^ (x >> 31) ^ (x >> 62)
  {
  }

  lemma Fold31Back(x: bv64)
    ensures Unfold31(x ^ (x >> 31)) == x
  {
  }

  lemma Fold31Forth(x: bv64)
    ensures Fold31(x ^ (x >> 31) ^ (x >> 62)) == x
  {
  }

  lemma Fold31Undone(x: bv64)
    ensures Unfold31(Fold31(x)) == x && Fold31(Unfold31(x)) == x
  {
    hide *;
    Fold31Is(x);
    Fold31Back(x);
    Fold31Forth(x);
  }

  lemma XorUndone(a: bv64, x: bv64)
    ensures Xor(a, Xor(a, x)) == x
  {
  }

  /** For every key, mixing is a bijection of the 64-bit words. */
  lemma MixIsBijective(a: bv64, b: bv64)
    ensures Unmix(a, Mix(a, b)) == b
    ensures Mix(a, Unmix(a, b)) == b
  {
    Forward(a, b);
    Backward(a, b);
  }

  lemma Forward(a: bv64, b: bv64)
    ensures Unmix(a, Mix(a, b)) == b
  {
    hide Golden, UnGolden, First, UnFirst, Second, UnSecond;
    hide Fold30, Unfold30, Fold27, Unfold27, Fold31, Unfold31, Xor;
    var x0 := Xor(a, Golden(b));
    var x1 := Fold30(x0);
    var x2 := First(x1);
    var x3 := Fold27(x2);
    Fold31Undone(Second(x3));
    SecondUndone(x3);
    Fold27Undone(x2);
    FirstUndone(x1);
    Fold30Undone(x0);
    XorUndone(a, Golden(b));
    GoldenUndone(b);
  }

  lemma Backward(a: bv64, y: bv64)
    ensures Mix(a, Unmix(a, y)) == y
  {
    hide Golden, UnGolden, First, UnFirst, Second, UnSecond;
    hide Fold30, Unfold30, Fold27, Unfold27, Fold31, Unfold31, Xor;
    var x4 := Unfold31(y);
    var x3 := UnSecond(x4);
    var x2 := Unfold27(x3);
    var x1 := UnFirst(x2);
    var x0 := Unfold30(x1);
    GoldenUndone(Xor(a, x0));
    XorUndone(a, x0);
    Fold30Undone(x1);
    FirstUndone(x2);
    Fold27Undone(x3);
    SecondUndone(x4);
    Fold31Undone(y);
  }

  /** Two members whose ids hash differently never have the same score. */
  lemma XorSame(a: bv64, c: bv64, x: bv64)
    requires Xor(a, x) == Xor(c, x)
    ensures a == c
  {
  }

  /** For one member different keys never score the same either. */
  lemma KeysDiffer(a: bv64, c: bv64, b: bv64)
    requires Mix(a, b) == Mix(c, b)
    ensures a == c
  {
    hide Golden, UnGolden, First, UnFirst, Second, UnSecond;
    hide Fold30, Unfold30, Fold27, Unfold27, Fold31, Unfold31, Xor;
    var (x0, y0) := (Xor(a, Golden(b)), Xor(c, Golden(b)));
    var (x1, y1) := (Fold30(x0), Fold30(y0));
    var (x2, y2) := (First(x1), First(y1));
    var (x3, y3) := (Fold27(x2), Fold27(y2));
    var (x4, y4) := (Second(x3), Second(y3));
    Fold31Undone(x4);
    Fold31Undone(y4);
    SecondUndone(x3);
    SecondUndone(y3);
    Fold27Undone(x2);
    Fold27Undone(y2);
    FirstUndone(x1);
    FirstUndone(y1);
    Fold30Undone(x0);
    Fold30Undone(y0);
    XorSame(a, c, Golden(b));
  }

  /** The first number the generator the mixer is taken from gives for seed zero. */
  lemma CheckValue()
    ensures Mix(0, 1) == 0xE220_A839_7B1D_CDAF
  {
  }

  lemma NeverTie(key: bv64, b: bv64, c: bv64)
    requires Mix(key, b) == Mix(key, c)
    ensures b == c
  {
    hide Mix, Unmix;
    MixIsBijective(key, b);
    MixIsBijective(key, c);
  }
}
