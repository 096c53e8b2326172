/** Finite directed graphs over configuration names: walks, cycles, and what a Kahn-style
    peel leaves behind. Every reference check of the configuration is stated in these terms. */
module Graph {

  /** Names are compared for equality and nothing else. */
  datatype Name = Name(text: string)

  type Edges = set<(Name, Name)>

  ghost predicate Walk(E: Edges, p: seq<Name>) {
    forall i, j | 0 <= i && j == i + 1 && j < |p| :: (p[i], p[j]) in E
  }

  ghost predicate WalkBetween(E: Edges, p: seq<Name>, a: Name, b: Name) {
    |p| > 0 && p[0] == a && p[|p| - 1] == b && Walk(E, p)
  }

  ghost predicate Reaches(E: Edges, a: Name, b: Name) {
    exists p :: WalkBetween(E, p, a, b)
  }

  ghost predicate OnCycle(E: Edges, n: Name) {
    exists p :: |p| > 1 && WalkBetween(E, p, n, n)
  }

  ghost predicate Acyclic(E: Edges) {
    forall n :: !OnCycle(E, n)
  }

  ghost predicate FromCycle(E: Edges, n: Name) {
    exists c :: OnCycle(E, c) && Reaches(E, c, n)
  }

  ghost predicate ToCycle(E: Edges, n: Name) {
    exists c :: Reaches(E, n, c) && OnCycle(E, c)
  }

  ghost predicate Distinct<T>(s: seq<T>) {
    forall i, j | 0 <= i < j < |s| :: s[i] != s[j]
  }

  lemma SubsetSize<T>(a: set<T>, b: set<T>)
    requires a <= b
    ensures |a| <= |b|
  {
    assert b == a + (b - a);
  }

  // ----- removal orders -----

  /** Every name was removed only after all its predecessors. */
  ghost predicate Peeled(E: Edges, order: seq<Name>) {
    forall i, m | 0 <= i < |order| && (m, order[i]) in E :: m in order[..i]
  }

  /** No name of R can be removed next: each still has a predecessor in R. */
  ghost predicate Stuck(E: Edges, R: set<Name>) {
    forall n {:trigger Fed(E, R, n)} | n in R :: Fed(E, R, n)
  }

  ghost predicate Fed(E: Edges, R: set<Name>, n: Name) {
    exists m :: m in R && (m, n) in E
  }

  lemma {:induction false} WalkIntoPeeled(E: Edges, order: seq<Name>, p: seq<Name>, i: nat) returns (j: nat)
    requires Peeled(E, order)
    requires i < |order| && |p| > 0 && p[|p| - 1] == order[i] && Walk(E, p)
    ensures j <= i && order[j] == p[0] && (|p| > 1 ==> j < i)
  {
    if |p| == 1 {
      j := i;
    } else {
      var k := WalkIntoPeeled(E, order, p[1..], i);
      assert (p[0], p[1]) in E;
      assert p[0] in order[..k];
      j :| 0 <= j < k && order[j] == p[0];
    }
  }

  lemma PeeledNotFromCycle(E: Edges, order: seq<Name>, n: Name)
    requires Peeled(E, order) && Distinct(order) && n in order
    ensures !FromCycle(E, n)
  {
    if FromCycle(E, n) {
      var c :| OnCycle(E, c) && Reaches(E, c, n);
      var p :| WalkBetween(E, p, c, n);
      var i :| 0 <= i < |order| && order[i] == n;
      var j := WalkIntoPeeled(E, order, p, i);
      var q :| |q| > 1 && WalkBetween(E, q, c, c);
      var k := WalkIntoPeeled(E, order, q, j);
    }
  }

  lemma {:induction false} Pigeonhole(s: seq<Name>, R: set<Name>) returns (i: nat, j: nat)
    requires forall k | 0 <= k < |s| :: s[k] in R
    requires |s| > |R|
    ensures i < j < |s| && s[i] == s[j]
    decreases |s|
  {
    if k :| 1 <= k < |s| && s[k] == s[0] {
      i, j := 0, k;
    } else {
      var a, b := Pigeonhole(s[1..], R - {s[0]});
      i, j := a + 1, b + 1;
    }
  }

  lemma {:induction false} BackwardWalk(E: Edges, R: set<Name>, n: Name, k: nat) returns (p: seq<Name>)
    requires Stuck(E, R) && n in R
    ensures |p| == k + 1 && p[k] == n && Walk(E, p)
    ensures forall i | 0 <= i < |p| :: p[i] in R
    decreases k
  {
    if k == 0 {
      p := [n];
    } else {
      assert Fed(E, R, n);
      var m :| m in R && (m, n) in E;
      var q := BackwardWalk(E, R, m, k - 1);
      p := q + [n];
      WalkAppend(E, q, n);
    }
  }

  lemma WalkAppend(E: Edges, p: seq<Name>, n: Name)
    requires Walk(E, p) && |p| > 0 && (p[|p| - 1], n) in E
    ensures Walk(E, p + [n])
  {
  }

  lemma WalkSlice(E: Edges, p: seq<Name>, lo: nat, hi: nat)
    requires Walk(E, p) && lo <= hi <= |p|
    ensures Walk(E, p[lo..hi])
  {
    forall i, j | 0 <= i && j == i + 1 && j < hi - lo ensures (p[lo..hi][i], p[lo..hi][j]) in E {
      assert (p[lo + i], p[lo + j]) in E;
    }
  }

  lemma StuckFromCycle(E: Edges, R: set<Name>, n: Name)
    requires Stuck(E, R) && n in R
    ensures FromCycle(E, n)
    ensures exists c :: c in R && OnCycle(E, c)
  {
    var p := BackwardWalk(E, R, n, |R|);
    var i, j := Pigeonhole(p, R);
    WalkSlice(E, p, i, j + 1);
    WalkSlice(E, p, i, |p|);
    assert WalkBetween(E, p[i..j + 1], p[i], p[i]);
    assert WalkBetween(E, p[i..|p|], p[i], n);
    assert OnCycle(E, p[i]) && Reaches(E, p[i], n);
  }

  /** A maximal peel removes exactly the names that no cycle leads to. */
  lemma PeelExact(E: Edges, order: seq<Name>, R: set<Name>, n: Name)
    requires Peeled(E, order) && Distinct(order) && Stuck(E, R)
    requires n in R || n in order
    ensures n in R <==> FromCycle(E, n)
  {
    if n in R {
      StuckFromCycle(E, R, n);
    } else {
      PeeledNotFromCycle(E, order, n);
    }
  }

  // ----- reversal -----

  ghost function Reverse(E: Edges): Edges {
    set e | e in E :: (e.1, e.0)
  }

  ghost function Reversed(p: seq<Name>): (q: seq<Name>)
    ensures |q| == |p| && forall i | 0 <= i < |p| :: q[i] == p[|p| - 1 - i]
  {
    seq(|p|, i requires 0 <= i < |p| => p[|p| - 1 - i])
  }

  lemma ReverseEdge(E: Edges, a: Name, b: Name)
    ensures (a, b) in Reverse(E) <==> (b, a) in E
  {
    if (b, a) in E {
      assert (b, a).1 == a && (b, a).0 == b;
    }
  }

  lemma WalkReversed(E: Edges, p: seq<Name>, a: Name, b: Name)
    requires WalkBetween(E, p, a, b)
    ensures WalkBetween(Reverse(E), Reversed(p), b, a)
  {
    var q := Reversed(p);
    forall i, j | 0 <= i && j == i + 1 && j < |q|
      ensures (q[i], q[j]) in Reverse(E)
    {
      ReverseEdge(E, q[i], q[j]);
      assert q[i] == p[|p| - 1 - i] && q[j] == p[|p| - 1 - j];
    }
  }

  lemma ReverseTwice(E: Edges)
    ensures Reverse(Reverse(E)) == E
  {
    forall e | e in E ensures e in Reverse(Reverse(E)) {
      ReverseEdge(E, e.1, e.0);
      ReverseEdge(Reverse(E), e.0, e.1);
    }
    forall e | e in Reverse(Reverse(E)) ensures e in E {
      ReverseEdge(Reverse(E), e.0, e.1);
      ReverseEdge(E, e.1, e.0);
    }
  }

  lemma ReachesReversed(E: Edges, a: Name, b: Name)
    ensures Reaches(E, a, b) <==> Reaches(Reverse(E), b, a)
  {
    if Reaches(E, a, b) {
      var p :| WalkBetween(E, p, a, b);
      WalkReversed(E, p, a, b);
    }
    if Reaches(Reverse(E), b, a) {
      var p :| WalkBetween(Reverse(E), p, b, a);
      WalkReversed(Reverse(E), p, b, a);
      ReverseTwice(E);
    }
  }

  lemma OnCycleReversed(E: Edges, n: Name)
    ensures OnCycle(E, n) <==> OnCycle(Reverse(E), n)
  {
    if OnCycle(E, n) {
      var p :| |p| > 1 && WalkBetween(E, p, n, n);
      WalkReversed(E, p, n, n);
      assert |Reversed(p)| > 1;
    }
    if OnCycle(Reverse(E), n) {
      var p :| |p| > 1 && WalkBetween(Reverse(E), p, n, n);
      WalkReversed(Reverse(E), p, n, n);
      ReverseTwice(E);
      assert |Reversed(p)| > 1;
    }
  }

  lemma FromCycleReversed(E: Edges, n: Name)
    ensures FromCycle(Reverse(E), n) <==> ToCycle(E, n)
  {
    forall c ensures OnCycle(E, c) <==> OnCycle(Reverse(E), c) { OnCycleReversed(E, c); }
    forall c ensures Reaches(E, n, c) <==> Reaches(Reverse(E), c, n) { ReachesReversed(E, n, c); }
  }

  // ----- restriction to a set closed under successors -----

  ghost function Restrict(E: Edges, R: set<Name>): Edges {
    set e | e in E && e.0 in R && e.1 in R
  }

  ghost predicate Closed(E: Edges, R: set<Name>) {
    forall e | e in E && e.0 in R :: e.1 in R
  }

  lemma {:induction false} WalkStays(E: Edges, R: set<Name>, p: seq<Name>)
    requires Closed(E, R) && Walk(E, p) && |p| > 0 && p[0] in R
    ensures Walk(Restrict(E, R), p)
  {
    if |p| > 1 {
      assert (p[0], p[1]) in E;
      WalkStays(E, R, p[1..]);
      forall i, j | 0 <= i && j == i + 1 && j < |p| ensures (p[i], p[j]) in Restrict(E, R) {
        if i > 0 {
          assert p[1..][i - 1] == p[i] && p[1..][j - 1] == p[j];
        }
      }
    }
  }

  lemma ToCycleWithin(E: Edges, R: set<Name>, n: Name)
    requires Closed(E, R) && n in R
    ensures ToCycle(E, n) <==> ToCycle(Restrict(E, R), n)
  {
    if ToCycle(E, n) {
      var c :| Reaches(E, n, c) && OnCycle(E, c);
      var p :| WalkBetween(E, p, n, c);
      var q :| |q| > 1 && WalkBetween(E, q, c, c);
      WalkStays(E, R, p);
      LastIn(E, R, p);
      WalkStays(E, R, q);
      assert WalkBetween(Restrict(E, R), p, n, c) && WalkBetween(Restrict(E, R), q, c, c);
      assert Reaches(Restrict(E, R), n, c) && OnCycle(Restrict(E, R), c);
    }
    if ToCycle(Restrict(E, R), n) {
      var c :| Reaches(Restrict(E, R), n, c) && OnCycle(Restrict(E, R), c);
      var p :| WalkBetween(Restrict(E, R), p, n, c);
      var q :| |q| > 1 && WalkBetween(Restrict(E, R), q, c, c);
      assert WalkBetween(E, p, n, c);
      assert WalkBetween(E, q, c, c);
      assert Reaches(E, n, c) && OnCycle(E, c);
    }
  }

  lemma {:induction false} LastIn(E: Edges, R: set<Name>, p: seq<Name>)
    requires Closed(E, R) && Walk(E, p) && |p| > 0 && p[0] in R
    ensures p[|p| - 1] in R
  {
    if |p| > 1 {
      assert (p[0], p[1]) in E;
      LastIn(E, R, p[1..]);
    }
  }

  // ----- peeling in both directions -----

  lemma CycleBothWays(E: Edges, c: Name)
    requires OnCycle(E, c)
    ensures FromCycle(E, c) && ToCycle(E, c)
  {
    assert WalkBetween(E, [c], c, c);
    assert Reaches(E, c, c);
  }

  /** Peeling what was left by a first peel, against the edges: only names between two cycles survive. */
  lemma PeelBothWays(E: Edges, order: seq<Name>, R: set<Name>, order2: seq<Name>, R2: set<Name>, n: Name)
    requires Peeled(E, order) && Distinct(order) && Stuck(E, R) && Closed(E, R)
    requires Peeled(Reverse(Restrict(E, R)), order2) && Distinct(order2) && Stuck(Reverse(Restrict(E, R)), R2)
    requires n in R2 ==> n in R
    requires n in R ==> n in R2 || n in order2
    requires n in R || n in order
    ensures n in R2 <==> FromCycle(E, n) && ToCycle(E, n)
  {
    PeelExact(E, order, R, n);
    if n in R {
      PeelExact(Reverse(Restrict(E, R)), order2, R2, n);
      FromCycleReversed(Restrict(E, R), n);
      ToCycleWithin(E, R, n);
    }
  }
}
