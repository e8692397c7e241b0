/** The edit distance counts edits: as many as are needed, and no fewer do. */
module Edits {
  import opened Wrappers
  import opened EditDistance

  /** One change of a text at a place. */
  datatype Edit = Insert(at: nat, c: char) | Delete(at: nat) | Replace(at: nat, c: char)

  function Apply(s: string, e: Edit): Option<string> {
    match e
    case Insert(i, c) => if i <= |s| then Some(s[..i] + [c] + s[i..]) else None
    case Delete(i) => if i < |s| then Some(s[..i] + s[i + 1..]) else None
    case Replace(i, c) => if i < |s| then Some(s[..i] + [c] + s[i + 1..]) else None
  }

  /** The changes one after the other; None if one of them has no place. */
  function ApplyAll(s: string, es: seq<Edit>): Option<string>
    decreases |es|
  {
    if es == [] then Some(s)
    else
      var t :- Apply(s, es[0]);
      ApplyAll(t, es[1..])
  }

  lemma {:induction false} ApplyBoth(s: string, es: seq<Edit>, fs: seq<Edit>)
    ensures ApplyAll(s, es + fs) == if ApplyAll(s, es).Some? then ApplyAll(ApplyAll(s, es).value, fs) else None
    decreases |es|
  {
    if es == [] {
      assert es + fs == fs;
    } else {
      assert (es + fs)[1..] == es[1..] + fs;
      if Apply(s, es[0]).Some? {
        ApplyBoth(Apply(s, es[0]).value, es[1..], fs);
      }
    }
  }

  lemma ApplyBefore(s: string, e: Edit, z: string)
    requires Apply(s, e).Some?
    ensures Apply(s + z, e) == Some(Apply(s, e).value + z)
  {
    var i := e.at;
    assert (s + z)[..i] == s[..i] && (s + z)[i..] == s[i..] + z;
    if i < |s| {
      assert (s + z)[i + 1..] == s[i + 1..] + z;
    }
    match e
    case Insert(_, c) => assert s[..i] + [c] + (s[i..] + z) == s[..i] + [c] + s[i..] + z;
    case Delete(_) => assert s[..i] + (s[i + 1..] + z) == s[..i] + s[i + 1..] + z;
    case Replace(_, c) => assert s[..i] + [c] + (s[i + 1..] + z) == s[..i] + [c] + s[i + 1..] + z;
  }

  /** Changes leave what comes behind alone. */
  lemma {:induction false} ApplyAllBefore(s: string, es: seq<Edit>, z: string)
    requires ApplyAll(s, es).Some?
    ensures ApplyAll(s + z, es) == Some(ApplyAll(s, es).value + z)
    decreases |es|
  {
    if es != [] {
      ApplyBefore(s, es[0], z);
      ApplyAllBefore(Apply(s, es[0]).value, es[1..], z);
    }
  }

  // ---- as many as are needed ----

  lemma {:induction false} ScriptOf(a: string, b: string, i: nat, j: nat) returns (es: seq<Edit>)
    requires i <= |a| && j <= |b|
    ensures |es| == Dist(a, b, i, j) && ApplyAll(a[..i], es) == Some(b[..j])
    decreases i + j
  {
    hide Dist, Apply, ApplyAll;
    if i == 0 || j == 0 {
      es := EdgeScript(a, b, i, j);
    } else {
      LastStep(a, b, i, j);
      var d := Dist(a, b, i, j);
      if d == Dist(a, b, i - 1, j) + 1 {
        var fs := ScriptOf(a, b, i - 1, j);
        es := [Delete(i - 1)] + fs;
        DeleteLast(a, i, fs);
      } else if d == Dist(a, b, i, j - 1) + 1 {
        var fs := ScriptOf(a, b, i, j - 1);
        es := fs + [Insert(j - 1, b[j - 1])];
        InsertLast(a[..i], fs, b, j);
      } else {
        var fs := ScriptOf(a, b, i - 1, j - 1);
        assert a[..i] == a[..i - 1] + [a[i - 1]] && b[..j] == b[..j - 1] + [b[j - 1]];
        ApplyAllBefore(a[..i - 1], fs, [b[j - 1]]);
        if a[i - 1] == b[j - 1] {
          es := fs;
        } else {
          es := [Replace(i - 1, b[j - 1])] + fs;
          ReplaceLast(a, i, b[j - 1], fs);
        }
      }
    }
  }

  lemma DeleteLast(a: string, i: nat, fs: seq<Edit>)
    requires 0 < i <= |a|
    ensures ApplyAll(a[..i], [Delete(i - 1)] + fs) == ApplyAll(a[..i - 1], fs)
  {
    assert ([Delete(i - 1)] + fs)[1..] == fs;
    assert a[..i][..i - 1] + a[..i][i..] == a[..i - 1];
  }

  lemma ReplaceLast(a: string, i: nat, c: char, fs: seq<Edit>)
    requires 0 < i <= |a|
    ensures ApplyAll(a[..i], [Replace(i - 1, c)] + fs) == ApplyAll(a[..i - 1] + [c], fs)
  {
    assert ([Replace(i - 1, c)] + fs)[1..] == fs;
    assert a[..i][..i - 1] + [c] + a[..i][i..] == a[..i - 1] + [c];
  }

  lemma InsertLast(s: string, fs: seq<Edit>, b: string, j: nat)
    requires 0 < j <= |b| && ApplyAll(s, fs) == Some(b[..j - 1])
    ensures ApplyAll(s, fs + [Insert(j - 1, b[j - 1])]) == Some(b[..j])
  {
    hide Apply;
    var last := [Insert(j - 1, b[j - 1])];
    ApplyBoth(s, fs, last);
    assert last[1..] == [];
    assert Apply(b[..j - 1], last[0]) == Some(b[..j]) by {
      InsertEnd(b[..j - 1], b[j - 1]);
      assert b[..j - 1] + [b[j - 1]] == b[..j];
    }
  }

  lemma InsertEnd(s: string, c: char)
    ensures Apply(s, Insert(|s|, c)) == Some(s + [c])
  {
    assert s[..|s|] + [c] + s[|s|..] == s + [c];
  }

  lemma {:induction false} EdgeScript(a: string, b: string, i: nat, j: nat) returns (es: seq<Edit>)
    requires i <= |a| && j <= |b| && (i == 0 || j == 0)
    ensures |es| == Dist(a, b, i, j) && ApplyAll(a[..i], es) == Some(b[..j])
    decreases i + j
  {
    if i == 0 && j == 0 {
      es := [];
    } else if i == 0 {
      var fs := EdgeScript(a, b, 0, j - 1);
      es := fs + [Insert(j - 1, b[j - 1])];
      InsertLast(a[..0], fs, b, j);
    } else {
      var fs := EdgeScript(a, b, i - 1, 0);
      es := [Delete(i - 1)] + fs;
      DeleteLast(a, i, fs);
    }
  }

  // ---- no fewer do ----

  /** The table looks at nothing but the characters up to its place. */
  lemma {:induction false} SamePrefixes(a: string, b: string, c: string, d: string, i: nat, j: nat)
    requires i <= |a| && i <= |c| && j <= |b| && j <= |d| && a[..i] == c[..i] && b[..j] == d[..j]
    ensures Dist(a, b, i, j) == Dist(c, d, i, j)
    decreases i + j
  {
    if i > 0 && j > 0 {
      assert a[..i - 1] == a[..i][..i - 1] && c[..i - 1] == c[..i][..i - 1];
      assert b[..j - 1] == b[..j][..j - 1] && d[..j - 1] == d[..j][..j - 1];
      assert a[i - 1] == a[..i][i - 1] == c[i - 1] && b[j - 1] == b[..j][j - 1] == d[j - 1];
      SamePrefixes(a, b, c, d, i - 1, j);
      SamePrefixes(a, b, c, d, i, j - 1);
      SamePrefixes(a, b, c, d, i - 1, j - 1);
    }
  }

  /** The same text behind both adds nothing. */
  lemma {:induction false} SameEnds(a: string, b: string, z: string)
    ensures Distance(a + z, b + z) <= Distance(a, b)
    decreases |z|
  {
    hide Dist;
    if z == "" {
      assert a + z == a && b + z == b;
    } else {
      var y, c := z[..|z| - 1], z[|z| - 1];
      var p, q := a + z, b + z;
      assert p == (a + y) + [c] && q == (b + y) + [c];
      SameEnds(a, b, y);
      LastStep(p, q, |p|, |q|);
      assert p[..|p| - 1] == a + y && q[..|q| - 1] == b + y;
      SamePrefixes(p, q, a + y, b + y, |p| - 1, |q| - 1);
    }
  }

  lemma Self(a: string)
    ensures Distance(a, a) == 0
  {
    IsMetric(a, a, a);
  }

  lemma OneMore(a: string, c: char)
    ensures Distance(a, a + [c]) <= 1 && Distance(a + [c], a) <= 1
  {
    hide Dist;
    var b := a + [c];
    Self(a);
    assert b[..|a|] == a[..|a|];
    SamePrefixes(a, b, a, a, |a|, |a|);
    if |a| > 0 {
      LastStep(a, b, |a|, |b|);
    } else {
      EdgeCells(a, b);
    }
    IsMetric(a, b, a);
  }

  lemma OneOther(a: string, c: char, d: char)
    ensures Distance(a + [c], a + [d]) <= 1
  {
    hide Dist;
    var p, q := a + [c], a + [d];
    Self(a);
    LastStep(p, q, |p|, |q|);
    assert p[..|a|] == a == q[..|a|] == a[..|a|];
    SamePrefixes(p, q, a, a, |a|, |a|);
  }

  lemma OneEdit(s: string, e: Edit)
    requires Apply(s, e).Some?
    ensures Distance(s, Apply(s, e).value) <= 1
  {
    hide Dist;
    var i := e.at;
    match e
    case Insert(_, c) =>
      OneMore(s[..i], c);
      SameEnds(s[..i], s[..i] + [c], s[i..]);
      assert s == s[..i] + s[i..];
    case Delete(_) =>
      OneMore(s[..i], s[i]);
      SameEnds(s[..i] + [s[i]], s[..i], s[i + 1..]);
      assert s == s[..i] + [s[i]] + s[i + 1..];
    case Replace(_, c) =>
      OneOther(s[..i], s[i], c);
      SameEnds(s[..i] + [s[i]], s[..i] + [c], s[i + 1..]);
      assert s == s[..i] + [s[i]] + s[i + 1..];
  }

  lemma {:induction false} AtLeast(a: string, es: seq<Edit>)
    requires ApplyAll(a, es).Some?
    ensures Distance(a, ApplyAll(a, es).value) <= |es|
    decreases |es|
  {
    hide Dist, Apply;
    if es == [] {
      Self(a);
    } else {
      var b := Apply(a, es[0]).value;
      OneEdit(a, es[0]);
      AtLeast(b, es[1..]);
      IsMetric(a, b, ApplyAll(a, es).value);
    }
  }

  /** The distance is the least number of insertions, deletions and replacements that turn one text
      into the other. */
  lemma LeastEdits(a: string, b: string, n: nat)
    ensures Distance(a, b) <= n <==> exists es :: |es| <= n && ApplyAll(a, es) == Some(b)
  {
    hide Dist, ApplyAll;
    if es :| |es| <= n && ApplyAll(a, es) == Some(b) {
      AtLeast(a, es);
    }
    var es := ScriptOf(a, b, |a|, |b|);
    assert a[..|a|] == a && b[..|b|] == b;
  }
}
