/** Facts of real arithmetic that the solver does not find on its own, kept small so
    that each proof using them stays cheap. */
module RealFacts {

  lemma MulNonneg(a: real, b: real)
    requires 0.0 <= a && 0.0 <= b
    ensures 0.0 <= a * b
  {
  }

  lemma MulPositive(a: real, b: real)
    requires 0.0 < a && 0.0 < b
    ensures 0.0 < a * b
  {
  }

  lemma DivMonotone(a: real, b: real, w: real)
    requires a <= b && 0.0 < w
    ensures a / w <= b / w
  {
    var q1, q2 := a / w, b / w;
    assert (q2 - q1) * w == b - a;
    if q2 < q1 {
      assert (q1 - q2) * w > 0.0;
    }
  }

  lemma QuotientAtLeastOne(a: real, w: real)
    requires 0.0 < w <= a
    ensures 1.0 <= a / w
  {
    var q := a / w;
    assert q * w == a;
  }

  lemma QuotientAtMostOne(a: real, w: real)
    requires 0.0 < w && a <= w
    ensures a / w <= 1.0
  {
    DivMonotone(a, w, w);
    DivSelf(w);
  }

  lemma DivLeIff(a: real, b: real, w: real)
    requires 0.0 < w
    ensures a / w <= b / w <==> a <= b
  {
    if a <= b {
      DivMonotone(a, b, w);
    } else {
      DivMonotone(b, a, w);
      assert (a / w) * w == a && (b / w) * w == b;
    }
  }

  lemma DivSign(a: real, w: real)
    requires 0.0 < w
    ensures 0.0 <= a / w <==> 0.0 <= a
  {
  }

  lemma DivSelf(w: real)
    requires w != 0.0
    ensures w / w == 1.0
  {
    var q := w / w;
    assert q * w == w;
    assert (q - 1.0) * w == 0.0;
  }

  lemma MulDivCancel(a: real, w: real)
    requires w != 0.0
    ensures (a * w) / w == a
  {
    var q := (a * w) / w;
    assert q * w == a * w;
    assert (q - a) * w == 0.0;
  }
}
