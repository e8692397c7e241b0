/** The edit distance behind "did you mean" hints: two rolling rows against the recursive
    definition, and what a distance must satisfy. */
module EditDistance {
  import opened Wrappers

  function Min(a: nat, b: nat): nat {
    if a < b then a else b
  }

  function Cost(x: char, y: char): nat {
    if x == y then 0 else 1
  }

  /** How many insertions, deletions and replacements turn the first `i` characters of `a`
      into the first `j` characters of `b`. */
  function Dist(a: string, b: string, i: nat, j: nat): nat
    requires i <= |a| && j <= |b|
    decreases i + j
  {
    if i == 0 then j
    else if j == 0 then i
    else Min(Min(Dist(a, b, i - 1, j) + 1, Dist(a, b, i, j - 1) + 1), Dist(a, b, i - 1, j - 1) + Cost(a[i - 1], b[j - 1]))
  }

  lemma DistUnfolds(a: string, b: string, i: nat, j: nat)
    requires i <= |a| && j <= |b|
    ensures Dist(a, b, i, j) ==
            if i == 0 then j
            else if j == 0 then i
            else Min(Min(Dist(a, b, i - 1, j) + 1, Dist(a, b, i, j - 1) + 1), Dist(a, b, i - 1, j - 1) + Cost(a[i - 1], b[j - 1]))
  {
  }

  function Distance(a: string, b: string): nat {
    Dist(a, b, |a|, |b|)
  }

  /** Keeps only two rows of the table. */
  method Levenshtein(a: string, b: string) returns (d: nat)
    ensures d == Distance(a, b)
  {
    hide Dist;
    EdgeCells(a, b);
    var na, nb := |a|, |b|;
    if na == 0 {
      return nb;
    }
    if nb == 0 {
      return na;
    }
    var prev, curr := new nat[nb + 1](j => j), new nat[nb + 1](_ => 0);
    var i := 1;
    while i <= na
      invariant 1 <= i <= na + 1 && prev != curr && fresh(prev) && fresh(curr) && prev.Length == curr.Length == nb + 1
      invariant forall k :: 0 <= k <= nb ==> prev[k] == Dist(a, b, i - 1, k)
    {
      curr[0] := i;
      var j := 1;
      while j <= nb
        invariant 1 <= j <= nb + 1
        invariant forall k :: 0 <= k <= nb ==> prev[k] == Dist(a, b, i - 1, k)
        invariant forall k :: 0 <= k < j ==> curr[k] == Dist(a, b, i, k)
      {
        CellUnfolds(a, b, i, j);
        var cost := if a[i - 1] == b[j - 1] then 0 else 1;
        var c1 := Min(prev[j] + 1, curr[j - 1] + 1);
        curr[j] := Min(c1, prev[j - 1] + cost);
        j := j + 1;
      }
      prev, curr := curr, prev;
      i := i + 1;
    }
    d := prev[nb];
  }

  lemma CellUnfolds(a: string, b: string, i: nat, j: nat)
    requires 0 < i <= |a| && 0 < j <= |b|
    ensures Dist(a, b, i, j) == Min(Min(Dist(a, b, i - 1, j) + 1, Dist(a, b, i, j - 1) + 1), Dist(a, b, i - 1, j - 1) + Cost(a[i - 1], b[j - 1]))
  {
  }

  lemma EdgeCells(a: string, b: string)
    ensures forall j :: 0 <= j <= |b| ==> Dist(a, b, 0, j) == j
    ensures forall i :: 0 <= i <= |a| ==> Dist(a, b, i, 0) == i
  {
  }

  // ---- a metric ----

  lemma {:induction false} DistSymmetric(a: string, b: string, i: nat, j: nat)
    requires i <= |a| && j <= |b|
    ensures Dist(a, b, i, j) == Dist(b, a, j, i)
    decreases i + j
  {
    hide Dist;
    DistUnfolds(a, b, i, j);
    DistUnfolds(b, a, j, i);
    if i > 0 && j > 0 {
      DistSymmetric(a, b, i - 1, j);
      DistSymmetric(a, b, i, j - 1);
      DistSymmetric(a, b, i - 1, j - 1);
    }
  }

  // The last step is the best of three.
  lemma LastStep(a: string, b: string, i: nat, j: nat)
    requires 0 < i <= |a| && 0 < j <= |b|
    ensures var d := Dist(a, b, i, j);
            && d <= Dist(a, b, i - 1, j) + 1 && d <= Dist(a, b, i, j - 1) + 1 && d <= Dist(a, b, i - 1, j - 1) + Cost(a[i - 1], b[j - 1])
            && (d == Dist(a, b, i - 1, j) + 1 || d == Dist(a, b, i, j - 1) + 1 || d == Dist(a, b, i - 1, j - 1) + Cost(a[i - 1], b[j - 1]))
  {
  }

  /** Going by way of a third string is never shorter. */
  lemma {:induction false} Triangle(a: string, b: string, c: string, i: nat, j: nat, k: nat)
    requires i <= |a| && j <= |b| && k <= |c|
    ensures Dist(a, c, i, k) <= Dist(a, b, i, j) + Dist(b, c, j, k)
    decreases i + j + k
  {
    hide Dist;
    if j == 0 {
      EmptySide(a, b, c, i, k);
      LengthBound(a, c, i, k);
    } else if i == 0 {
      EmptyFirst(a, b, c, j, k);
      LengthGap(b, c, j, k);
    } else if k == 0 {
      EmptyLast(a, b, c, i, j);
      DistSymmetric(a, b, i, j);
      LengthGap(b, a, j, i);
    } else {
      LastStep(a, b, i, j);
      LastStep(b, c, j, k);
      LastStep(a, c, i, k);
      Triangle(a, b, c, i - 1, j, k);
      Triangle(a, b, c, i, j, k - 1);
      Triangle(a, b, c, i, j - 1, k);
      Triangle(a, b, c, i - 1, j - 1, k);
      Triangle(a, b, c, i, j - 1, k - 1);
      Triangle(a, b, c, i - 1, j - 1, k - 1);
    }
  }

  lemma EmptySide(a: string, b: string, c: string, i: nat, k: nat)
    requires i <= |a| && k <= |c|
    ensures Dist(a, b, i, 0) == i && Dist(b, c, 0, k) == k
  {
  }

  lemma EmptyFirst(a: string, b: string, c: string, j: nat, k: nat)
    requires j <= |b| && k <= |c|
    ensures Dist(a, b, 0, j) == j && Dist(a, c, 0, k) == k
  {
  }

  lemma EmptyLast(a: string, b: string, c: string, i: nat, j: nat)
    requires i <= |a| && j <= |b|
    ensures Dist(a, c, i, 0) == i && Dist(b, c, j, 0) == j
  {
  }

  lemma {:induction false} LengthBound(a: string, c: string, i: nat, k: nat)
    requires i <= |a| && k <= |c|
    ensures Dist(a, c, i, k) <= i + k
    decreases i + k
  {
    if i > 0 && k > 0 {
      LengthBound(a, c, i - 1, k);
    }
  }

  lemma {:induction false} LengthGap(b: string, c: string, j: nat, k: nat)
    requires j <= |b| && k <= |c|
    ensures k <= j + Dist(b, c, j, k)
    decreases j + k
  {
    if j > 0 && k > 0 {
      LengthGap(b, c, j - 1, k);
      LengthGap(b, c, j, k - 1);
      LengthGap(b, c, j - 1, k - 1);
    }
  }

  lemma {:induction false} ZeroIffSame(a: string, b: string, i: nat, j: nat)
    requires i <= |a| && j <= |b|
    ensures Dist(a, b, i, j) == 0 <==> a[..i] == b[..j]
    decreases i + j
  {
    if i > 0 && j > 0 {
      ZeroIffSame(a, b, i - 1, j - 1);
      assert a[..i] == a[..i - 1] + [a[i - 1]] && b[..j] == b[..j - 1] + [b[j - 1]];
    }
  }

  lemma IsMetric(a: string, b: string, c: string)
    ensures Distance(a, b) == Distance(b, a)
    ensures Distance(a, b) == 0 <==> a == b
    ensures Distance(a, c) <= Distance(a, b) + Distance(b, c)
  {
    DistSymmetric(a, b, |a|, |b|);
    ZeroIffSame(a, b, |a|, |b|);
    Triangle(a, b, c, |a|, |b|, |c|);
    assert a[..|a|] == a && b[..|b|] == b;
  }

  // ---- hints ----

  const REACH: nat := 2

  /** The name a hint proposes: the first of the nearest names in reach. */
  method Hint(name: string, candidates: seq<string>) returns (best: Option<nat>)
    ensures best.None? <==> forall i :: 0 <= i < |candidates| ==> Distance(name, candidates[i]) > 2
    ensures best.Some? ==>
              && best.value < |candidates| && Distance(name, candidates[best.value]) <= 2
              && (forall i :: 0 <= i < |candidates| ==> Distance(name, candidates[best.value]) <= Distance(name, candidates[i]))
              && (forall i :: 0 <= i < best.value ==> Distance(name, candidates[best.value]) < Distance(name, candidates[i]))
  {
    best := None;
    var bestDist := REACH + 1;
    var i := 0;
    while i < |candidates|
      invariant i <= |candidates|
      invariant best.None? ==> bestDist == REACH + 1
      invariant forall k :: 0 <= k < i ==> bestDist <= Distance(name, candidates[k]) || Distance(name, candidates[k]) > REACH
      invariant best.Some? ==>
                  && best.value < i && bestDist == Distance(name, candidates[best.value]) <= REACH
                  && (forall k :: 0 <= k < best.value ==> bestDist < Distance(name, candidates[k]))
    {
      var d := Levenshtein(name, candidates[i]);
      if d <= REACH && d < bestDist {
        best, bestDist := Some(i), d;
      }
      i := i + 1;
    }
  }
}
