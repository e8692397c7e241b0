/** Where the text of a type is cut: at bars, and at commas outside of brackets; and the two loops
    that cut it. */
module TypeCuts {
  import opened Wrappers
  import opened Types
  import opened TypeNames

  // ---- the splitting loops ----

  function DepthAfter(c: char, depth: int): int {
    if c == '[' || c == '(' then depth + 1 else if c == ']' || c == ')' then depth - 1 else depth
  }

  // What is still to be cut off at place `i`.
  function Uncut(s: string, i: nat, start: nat, depth: int): seq<string> {
    if start <= i <= |s| then SplitTop(s, i, start, depth) else []
  }

  // What one more character adds to the parts.
  lemma SplitStep(parts: seq<string>, s: string, i: nat, start: nat, depth: int)
    requires start <= i <= |s|
    ensures var c := if i < |s| then s[i] else ',';
            var part := Trimmed(s[start..i]);
            parts + Uncut(s, i, start, depth) ==
            if c == ',' && depth == 0 then (if part != "" then parts + [part] else parts) + Uncut(s, i + 1, i + 1, 0)
            else parts + Uncut(s, i + 1, start, DepthAfter(c, depth))
  {
    hide Trimmed, DepthAfter, SplitTop;
    SplitTopUnfolds(s, i, start, depth);
  }

  lemma SplitTopUnfolds(s: string, i: nat, start: nat, depth: int)
    requires start <= i <= |s|
    ensures var c := if i < |s| then s[i] else ',';
            var cut, part := c == ',' && depth == 0, Trimmed(s[start..i]);
            SplitTop(s, i, start, depth) == (if cut && part != "" then [part] else []) +
              if i == |s| then [] else SplitTop(s, i + 1, if cut then i + 1 else start, if cut then 0 else DepthAfter(c, depth))
  {
    hide Trimmed;
    assert forall r: seq<string> :: r + [] == r;
  }

  // ---- where the text is cut ----

  // How many brackets are open before place `i`.
  function Depth(s: string, i: nat): int
    requires i <= |s|
  {
    if i == 0 then 0 else DepthAfter(s[i - 1], Depth(s, i - 1))
  }

  predicate TopComma(s: string, i: nat) {
    i < |s| && s[i] == ',' && Depth(s, i) == 0
  }

  /** The commas outside of brackets before place `i`. */
  function Cuts(s: string, i: nat): (r: seq<nat>)
    requires i <= |s|
    ensures (forall k: nat :: k in r <==> k < i && TopComma(s, k)) && (forall k :: 0 <= k < |r| ==> r[k] < i)
    ensures forall k, l :: 0 <= k < l < |r| ==> r[k] < r[l]
  {
    if i == 0 then [] else Cuts(s, i - 1) + if TopComma(s, i - 1) then [i - 1] else []
  }

  // Behind the last cut before place `i`.
  function CutEnd(s: string, i: nat): (r: nat)
    requires i <= |s|
    ensures r <= i
  {
    var cuts := Cuts(s, i);
    if cuts == [] then 0 else cuts[|cuts| - 1] + 1
  }

  /** The text before the first cut, between each two, and after the last one. */
  function Pieces(s: string): (r: seq<string>)
    ensures |r| == |Cuts(s, |s|)| + 1
  {
    Closed(s, |s|) + [s[CutEnd(s, |s|)..]]
  }

  // The pieces that end at a cut before place `i`.
  function Closed(s: string, i: nat): (r: seq<string>)
    requires i <= |s|
    ensures |r| == |Cuts(s, i)|
  {
    if i == 0 then [] else Closed(s, i - 1) + if TopComma(s, i - 1) then [s[CutEnd(s, i - 1)..i - 1]] else []
  }

  function Joined(parts: seq<string>, c: char): string {
    if parts == [] then "" else if |parts| == 1 then parts[0] else Joined(parts[..|parts| - 1], c) + [c] + parts[|parts| - 1]
  }

  // What one more character adds.
  lemma CutNext(s: string, i: nat)
    requires i < |s|
    ensures Depth(s, i + 1) == DepthAfter(s[i], Depth(s, i))
    ensures if TopComma(s, i)
            then Closed(s, i + 1) == Closed(s, i) + [s[CutEnd(s, i)..i]] && CutEnd(s, i + 1) == i + 1 && Cuts(s, i + 1) == Cuts(s, i) + [i]
            else Closed(s, i + 1) == Closed(s, i) && CutEnd(s, i + 1) == CutEnd(s, i) && Cuts(s, i + 1) == Cuts(s, i)
  {
    assert Closed(s, i) + [] == Closed(s, i) && Cuts(s, i) + [] == Cuts(s, i);
  }

  lemma NothingCut(s: string)
    ensures Closed(s, 0) == [] && Cuts(s, 0) == [] && CutEnd(s, 0) == 0 && Depth(s, 0) == 0
  {
  }

  /** Each piece begins behind one cut and ends at the next. */
  lemma {:induction false} PieceAt(s: string, i: nat, k: nat)
    requires i <= |s| && k < |Cuts(s, i)|
    ensures Closed(s, i)[k] == s[(if k == 0 then 0 else Cuts(s, i)[k - 1] + 1)..Cuts(s, i)[k]]
    decreases i
  {
    hide Cuts, Closed;
    if i > 0 {
      CutNext(s, i - 1);
      if k < |Cuts(s, i - 1)| {
        PieceAt(s, i - 1, k);
      }
    } else {
      NothingCut(s);
    }
  }

  lemma {:induction false} ClosedJoined(s: string, i: nat)
    requires i <= |s|
    ensures Closed(s, i) == [] <==> CutEnd(s, i) == 0
    ensures Closed(s, i) != [] ==> Joined(Closed(s, i), ',') + [','] == s[..CutEnd(s, i)]
    decreases i
  {
    hide Closed, Cuts, CutEnd, Depth;
    NothingCut(s);
    if i > 0 {
      ClosedJoined(s, i - 1);
      CutNext(s, i - 1);
      if TopComma(s, i - 1) {
        var closed, last := Closed(s, i - 1), s[CutEnd(s, i - 1)..i - 1];
        assert (closed + [last])[..|closed|] == closed;
        assert s[..i - 1] + [','] == s[..i];
        assert s[..CutEnd(s, i - 1)] + last == s[..i - 1];
      }
    }
  }

  /** Joined with commas the pieces are the text: nothing is lost but the commas cut at. */
  lemma PiecesRejoin(s: string)
    ensures Joined(Pieces(s), ',') == s
  {
    hide Closed, Cuts, CutEnd;
    ClosedJoined(s, |s|);
    var closed, last := Closed(s, |s|), s[CutEnd(s, |s|)..];
    assert (closed + [last])[..|closed|] == closed;
    assert s[..CutEnd(s, |s|)] + last == s;
  }

  /** The pieces without blanks around them; empty ones are left out. */
  function Kept(pieces: seq<string>): seq<string> {
    if pieces == [] then []
    else
      var part := Trimmed(pieces[|pieces| - 1]);
      Kept(pieces[..|pieces| - 1]) + if part != "" then [part] else []
  }

  lemma KeptNext(pieces: seq<string>, piece: string)
    ensures Kept(pieces + [piece]) == Kept(pieces) + if Trimmed(piece) != "" then [Trimmed(piece)] else []
  {
    hide Trimmed;
    assert (pieces + [piece])[..|pieces|] == pieces;
  }

  // One step of the scan: what is kept so far, and where the next piece begins.
  lemma CommaStep(parts: seq<string>, s: string, i: nat, start: nat, depth: int)
    requires i <= |s| && start == CutEnd(s, i) && depth == Depth(s, i) && parts == Kept(Closed(s, i))
    ensures var c, part := if i < |s| then s[i] else ',', Trimmed(s[start..i]);
            var cut := c == ',' && depth == 0;
            var parts' := if cut && part != "" then parts + [part] else parts;
            if i < |s| then DepthAfter(c, depth) == Depth(s, i + 1) && CutEnd(s, i + 1) == (if cut then i + 1 else start) && parts' == Kept(Closed(s, i + 1))
            else parts' == KeptOf(s)
  {
    hide Trimmed, Kept, Cuts, CutEnd, Closed, Depth;
    KeptNext(Closed(s, i), s[start..i]);
    if i < |s| {
      CutNext(s, i);
    } else {
      assert s[start..i] == s[start..];
      assert parts + [] == parts;
    }
  }

  /** The pieces that are kept; the last one only if all brackets are closed at the end. */
  function KeptOf(s: string): seq<string> {
    Kept(if Depth(s, |s|) == 0 then Pieces(s) else Closed(s, |s|))
  }

  // Before place `i` the scan has done what it should.
  ghost predicate Scanned(s: string, parts: seq<string>, i: nat, start: nat, depth: int) {
    && start <= i <= |s| + 1 && SplitTop(s, 0, 0, 0) == parts + Uncut(s, i, start, depth)
    && if i <= |s| then depth == Depth(s, i) && start == CutEnd(s, i) && parts == Kept(Closed(s, i)) else parts == KeptOf(s)
  }

  lemma ScanStarts(s: string)
    ensures Scanned(s, [], 0, 0, 0)
  {
    hide SplitTop;
    NothingCut(s);
    assert [] + SplitTop(s, 0, 0, 0) == SplitTop(s, 0, 0, 0);
  }

  lemma ScanStep(s: string, parts: seq<string>, i: nat, start: nat, depth: int)
    requires Scanned(s, parts, i, start, depth) && i <= |s|
    ensures var c, part := if i < |s| then s[i] else ',', Trimmed(s[start..i]);
            if c == ',' && depth == 0 then Scanned(s, if part != "" then parts + [part] else parts, i + 1, i + 1, 0)
            else Scanned(s, parts, i + 1, start, DepthAfter(c, depth))
  {
    hide SplitTop, Trimmed, Kept, KeptOf, Cuts, CutEnd, Closed, Depth, Uncut;
    SplitStep(parts, s, i, start, depth);
    CommaStep(parts, s, i, start, depth);
  }

  lemma ScanEnds(s: string, parts: seq<string>, i: nat, start: nat, depth: int)
    requires Scanned(s, parts, i, start, depth) && i > |s|
    ensures parts == SplitTop(s, 0, 0, 0) == KeptOf(s)
  {
    hide SplitTop, KeptOf;
    assert parts + [] == parts;
  }

  /** The scan with a depth counter keeps the pieces between the commas outside of brackets. */
  method SplitAtTopLevelCommas(s: string) returns (parts: seq<string>)
    ensures parts == SplitTop(s, 0, 0, 0) == KeptOf(s)
  {
    hide SplitTop, Trimmed, KeptOf, Scanned;
    parts := [];
    var start, depth, i := 0, 0, 0;
    ScanStarts(s);
    while i <= |s|
      invariant i <= |s| + 1 && start <= i && Scanned(s, parts, i, start, depth)
    {
      ScanStep(s, parts, i, start, depth);
      var c := if i < |s| then s[i] else ',';
      if c == '[' || c == '(' {
        depth := depth + 1;
      } else if c == ']' || c == ')' {
        depth := depth - 1;
      } else if c == ',' && depth == 0 {
        var part := Trimmed(s[start..i]);
        if part != "" {
          parts := parts + [part];
        }
        start := i + 1;
      }
      i := i + 1;
    }
    ScanEnds(s, parts, i, start, depth);
  }

  // What is still to be cut off at place `start`.
  function Rest(s: string, c: char, start: nat): seq<string> {
    if start <= |s| then SplitAt(s, c, start) else []
  }

  lemma BarStep(parts: seq<string>, s: string, start: nat)
    requires start < |s|
    ensures var end := Find(s, '|', start);
            parts + Rest(s, '|', start) == parts + [s[start..end]] + Rest(s, '|', end + 1)
  {
  }

  lemma BarEnds(parts: seq<string>, s: string, start: nat)
    requires start >= |s|
    ensures parts + Rest(s, '|', start) == parts && Rest(s, '|', 0) == SplitAt(s, '|', 0) && [] + Rest(s, '|', 0) == Rest(s, '|', 0)
  {
  }

  predicate Free(parts: seq<string>, c: char) {
    forall p :: p in parts ==> c !in p
  }

  lemma FreeMore(part: string, parts: seq<string>, c: char)
    ensures Free([], c)
    ensures c !in part ==> Free([part], c) && (Free(parts, c) ==> Free([part] + parts, c))
  {
  }

  // The text without a separator at its very end.
  function Unended(s: string, c: char): string {
    if s != "" && s[|s| - 1] == c then s[..|s| - 1] else s
  }

  lemma JoinedFirst(part: string, parts: seq<string>, c: char)
    requires parts != []
    ensures Joined([part] + parts, c) == part + [c] + Joined(parts, c)
    decreases |parts|
  {
    var n := |parts|;
    assert ([part] + parts)[..n] == [part] + parts[..n - 1];
    if n == 1 {
      assert [part] + parts[..0] == [part];
    } else {
      JoinedFirst(part, parts[..n - 1], c);
      assert part + [c] + Joined(parts[..n - 1], c) + [c] + parts[n - 1] == part + [c] + (Joined(parts[..n - 1], c) + [c] + parts[n - 1]);
    }
  }

  /** No part holds the separator, and joined with it the parts are the text, but for a
      separator at its end. */
  lemma {:induction false} SplitRejoin(s: string, c: char, start: nat)
    requires start <= |s|
    ensures Free(SplitAt(s, c, start), c)
    ensures Joined(SplitAt(s, c, start), c) == Unended(s[start..], c)
    decreases |s| - start
  {
    hide SplitAt, Find, Joined, Unended, Free;
    PartsUnfold(s, c, start);
    if start == |s| {
      FreeMore("", [], c);
      NoPart(c);
      assert s[start..] == "";
    } else {
      var end := Find(s, c, start);
      if end < |s| {
        SplitRejoin(s, c, end + 1);
        PartsUnfold(s, c, end + 1);
        FreeMore(s[start..end], SplitAt(s, c, end + 1), c);
        OnePartMore(s, c, start, end, SplitAt(s, c, end + 1));
      } else {
        assert s[start..end] == s[start..];
        FreeMore(s[start..], [], c);
        OnePart(s[start..], c);
      }
    }
  }

  lemma PartsUnfold(s: string, c: char, start: nat)
    requires start <= |s|
    ensures SplitAt(s, c, start) ==
            if start == |s| then []
            else var end := Find(s, c, start); if end < |s| then [s[start..end]] + SplitAt(s, c, end + 1) else [s[start..end]]
  {
    hide Find;
  }

  lemma NoPart(c: char)
    ensures Joined([], c) == "" == Unended("", c)
  {
  }

  lemma OnePart(part: string, c: char)
    ensures Joined([part], c) == part && (c !in part ==> Unended(part, c) == part)
  {
  }

  // A part, the separator, and the parts after it.
  lemma OnePartMore(s: string, c: char, start: nat, end: nat, rest: seq<string>)
    requires start <= end < |s| && s[end] == c && Joined(rest, c) == Unended(s[end + 1..], c) && (rest == [] <==> end + 1 == |s|)
    ensures Joined([s[start..end]] + rest, c) == Unended(s[start..], c)
  {
    hide Joined;
    var part := s[start..end];
    assert s[start..] == part + [c] + s[end + 1..];
    if rest == [] {
      OnePart(part, c);
      assert [part] + rest == [part];
      assert s[start..][..|s[start..]| - 1] == part;
    } else {
      JoinedFirst(part, rest, c);
      assert Unended(s[start..], c) == part + [c] + Unended(s[end + 1..], c);
    }
  }

  /** The parts between the bars: joined with bars they are the text, but for a bar at its end. */
  method SplitAtBars(s: string) returns (parts: seq<string>)
    ensures parts == SplitAt(s, '|', 0)
    ensures Free(parts, '|') && Joined(parts, '|') == Unended(s, '|')
  {
    hide SplitAt, Joined, Free, Unended, Find, Rest;
    parts := [];
    var start := 0;
    BarEnds([], s, |s|);
    while start < |s|
      invariant Rest(s, '|', 0) == parts + Rest(s, '|', start)
    {
      BarStep(parts, s, start);
      var end := Find(s, '|', start);
      parts := parts + [s[start..end]];
      start := end + 1;
    }
    BarEnds(parts, s, start);
    SplitRejoin(s, '|', 0);
    assert s[0..] == s;
  }
}
