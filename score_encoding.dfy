// The packed hand score of `encodeScoreFast`: a category and up to five
// kickers, four bits each, most significant first, zero-filled to six fields.

module ScoreEncoding {

  /** 16^n. */
  function Pow16(n: nat): (p: int)
    ensures p >= 1
  {
    if n == 0 then 1 else 16 * Pow16(n - 1)
  }

  /** The value of a sequence of base-16 fields, most significant first. */
  function Horner(ds: seq<int>): int
  {
    if |ds| == 0 then 0 else Horner(ds[..|ds| - 1]) * 16 + ds[|ds| - 1]
  }

  function Zeros(n: nat): (z: seq<int>)
    ensures |z| == n && forall i :: 0 <= i < n ==> z[i] == 0
  {
    seq(n, _ => 0)
  }

  /** The six fields of a score: the category, the kickers in the order given,
      then zeros up to five kicker slots. */
  function Fields(cat: int, ks: seq<int>): (f: seq<int>)
    requires |ks| <= 5
    ensures |f| == 6 && f[0] == cat && f[1..1 + |ks|] == ks
  {
    [cat] + ks + Zeros(5 - |ks|)
  }

  /** The packed score: the number whose six hexadecimal digits are `Fields`. */
  function Encode(cat: int, ks: seq<int>): int
    requires |ks| <= 5
  {
    Horner(Fields(cat, ks))
  }

  /** Every field fits in four bits. */
  predicate FieldsFit(cat: int, ks: seq<int>)
  {
    0 <= cat < 16 && forall i :: 0 <= i < |ks| ==> 0 <= ks[i] < 16
  }

  /** Lexicographic "less than" on sequences of equal length. */
  predicate LexLess(a: seq<int>, b: seq<int>)
  {
    |a| == |b| && exists i :: 0 <= i < |a| && a[..i] == b[..i] && a[i] < b[i]
  }

  /** `encodeScoreFast`: start from the category, shift in each kicker, then
      shift left once more per missing kicker. */
  method EncodeScoreFast(catScore: int, kickers: seq<int>) returns (s: int)
    requires |kickers| <= 5
    ensures s == Encode(catScore, kickers)
  {
    s := catScore;
    var i := 0;
    while i < |kickers|
      invariant 0 <= i <= |kickers|
      invariant s == Horner([catScore] + kickers[..i])
    {
      assert ([catScore] + kickers[..i + 1])[..i + 1] == [catScore] + kickers[..i];
      s := s * 16 + kickers[i];
      i := i + 1;
    }
    assert kickers[..i] == kickers;
    ShiftIsZeroFill([catScore] + kickers, 5 - |kickers|);
    s := s * Pow16(5 - |kickers|);
  }

  /** Shifting left by `n` fields appends `n` zero fields. */
  lemma {:induction false} ShiftIsZeroFill(ds: seq<int>, n: nat)
    ensures Horner(ds) * Pow16(n) == Horner(ds + Zeros(n))
  {
    if n > 0 {
      ShiftIsZeroFill(ds, n - 1);
      var longer := ds + Zeros(n);
      assert longer[..|longer| - 1] == ds + Zeros(n - 1);
      calc {
        Horner(longer);
        Horner(ds + Zeros(n - 1)) * 16 + 0;
        Horner(ds) * Pow16(n - 1) * 16;
        { assert Pow16(n) == 16 * Pow16(n - 1); }
        Horner(ds) * Pow16(n);
      }
    } else {
      assert ds + Zeros(0) == ds;
    }
  }

  /** A value of four-bit fields lies below 16^(number of fields). */
  lemma {:induction false} HornerBounds(ds: seq<int>)
    requires forall i :: 0 <= i < |ds| ==> 0 <= ds[i] < 16
    ensures 0 <= Horner(ds) < Pow16(|ds|)
  {
    if |ds| > 0 {
      HornerBounds(ds[..|ds| - 1]);
    }
  }

  /** The leading field carries weight 16^(number of fields after it). */
  lemma {:induction false} HornerFront(x: int, rest: seq<int>)
    ensures Horner([x] + rest) == x * Pow16(|rest|) + Horner(rest)
  {
    if |rest| > 0 {
      var all := [x] + rest;
      assert all[..|all| - 1] == [x] + rest[..|rest| - 1];
      HornerFront(x, rest[..|rest| - 1]);
    } else {
      assert [x] + rest == [x];
    }
  }

  /** `score >> 20` recovers the category when every field fits. */
  lemma {:induction false} EncodeCategory(cat: int, ks: seq<int>)
    requires |ks| <= 5 && FieldsFit(cat, ks)
    ensures Encode(cat, ks) / 0x10_0000 == cat
    ensures 0 <= Encode(cat, ks) < 0x100_0000
  {
    var f := Fields(cat, ks);
    var rest := ks + Zeros(5 - |ks|);
    assert f == [cat] + rest;
    HornerFront(cat, rest);
    HornerBounds(rest);
    assert Pow16(5) == 0x10_0000;
    var h := Horner(rest);
    assert Encode(cat, ks) == cat * 0x10_0000 + h;
  }

  /** Lexicographic order, decided on all fields but the last, then the last. */
  lemma LexLessSnoc(a: seq<int>, b: seq<int>)
    requires |a| == |b| > 0
    ensures LexLess(a, b) <==>
      LexLess(a[..|a| - 1], b[..|b| - 1]) || (a[..|a| - 1] == b[..|b| - 1] && a[|a| - 1] < b[|b| - 1])
  {
    var n := |a|;
    var pa, pb := a[..n - 1], b[..n - 1];
    if LexLess(a, b) {
      var j :| 0 <= j < n && a[..j] == b[..j] && a[j] < b[j];
      if j < n - 1 {
        assert pa[..j] == a[..j] && pb[..j] == b[..j];
        assert pa[j] == a[j] && pb[j] == b[j];
      } else {
        assert pa == a[..j] && pb == b[..j];
      }
    }
    if LexLess(pa, pb) {
      var j :| 0 <= j < n - 1 && pa[..j] == pb[..j] && pa[j] < pb[j];
      assert a[..j] == pa[..j] && b[..j] == pb[..j];
    }
    if pa == pb && a[n - 1] < b[n - 1] {
      assert a[..n - 1] == b[..n - 1];
    }
  }

  /** For fields that fit in four bits, integer order of the values is the
      lexicographic order of the fields, and equal values have equal fields. */
  lemma {:induction false} HornerOrder(a: seq<int>, b: seq<int>)
    requires |a| == |b|
    requires Digits(a) && Digits(b)
    ensures Horner(a) < Horner(b) <==> LexLess(a, b)
    ensures Horner(a) == Horner(b) <==> a == b
    decreases |a|
  {
    var n := |a|;
    if n == 0 {
      return;
    }
    var pa, pb := a[..n - 1], b[..n - 1];
    DigitsPrefix(a);
    DigitsPrefix(b);
    HornerOrder(pa, pb);
    LexLessSnoc(a, b);
    Base16Step(Horner(pa), Horner(pb), a[n - 1], b[n - 1]);
    SnocEquality(a, b);
  }

  /** Every entry is a base-16 digit. */
  ghost predicate Digits(ds: seq<int>)
  {
    forall i :: 0 <= i < |ds| ==> 0 <= ds[i] < 16
  }

  lemma DigitsPrefix(ds: seq<int>)
    requires Digits(ds) && |ds| > 0
    ensures Digits(ds[..|ds| - 1]) && 0 <= ds[|ds| - 1] < 16
  {
    var p := ds[..|ds| - 1];
    forall i | 0 <= i < |p| ensures 0 <= p[i] < 16 {
      assert p[i] == ds[i];
    }
  }

  /** Appending one base-16 digit keeps the order of the prefixes and breaks
      ties by the digit. */
  lemma Base16Step(p: int, q: int, x: int, y: int)
    requires 0 <= x < 16 && 0 <= y < 16
    ensures p * 16 + x < q * 16 + y <==> p < q || (p == q && x < y)
    ensures p * 16 + x == q * 16 + y <==> p == q && x == y
  {
  }

  /** Two non-empty sequences of the same length are equal exactly when
      their prefixes and their last entries are. */
  lemma SnocEquality(a: seq<int>, b: seq<int>)
    requires |a| == |b| > 0
    ensures a == b <==> a[..|a| - 1] == b[..|b| - 1] && a[|a| - 1] == b[|b| - 1]
  {
    assert a == a[..|a| - 1] + [a[|a| - 1]] && b == b[..|b| - 1] + [b[|b| - 1]];
  }

  /** Integer comparison of two packed scores is the lexicographic comparison
      of (category, k1, ..., k5) with zero fill. */
  lemma EncodeOrder(c1: int, ks1: seq<int>, c2: int, ks2: seq<int>)
    requires |ks1| <= 5 && |ks2| <= 5
    requires FieldsFit(c1, ks1) && FieldsFit(c2, ks2)
    ensures Encode(c1, ks1) < Encode(c2, ks2) <==> LexLess(Fields(c1, ks1), Fields(c2, ks2))
    ensures Encode(c1, ks1) == Encode(c2, ks2) <==> Fields(c1, ks1) == Fields(c2, ks2)
  {
    var f1, f2 := Fields(c1, ks1), Fields(c2, ks2);
    forall i | 0 <= i < 6 ensures 0 <= f1[i] < 16 && 0 <= f2[i] < 16 {
      if 1 <= i < 1 + |ks1| { assert f1[i] == ks1[i - 1]; }
      if 1 <= i < 1 + |ks2| { assert f2[i] == ks2[i - 1]; }
    }
    HornerOrder(f1, f2);
  }

  /** A higher category always wins, whatever the kickers. */
  lemma {:induction false} CategoryDominates(c1: int, ks1: seq<int>, c2: int, ks2: seq<int>)
    requires |ks1| <= 5 && |ks2| <= 5
    requires FieldsFit(c1, ks1) && FieldsFit(c2, ks2)
    requires c1 < c2
    ensures Encode(c1, ks1) < Encode(c2, ks2)
  {
    EncodeOrder(c1, ks1, c2, ks2);
    assert Fields(c1, ks1)[..0] == Fields(c2, ks2)[..0];
  }
}
