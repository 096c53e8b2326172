/** The proxy list of a group and its cache (adapter/outboundgroup/groupbase.go), under provider updates at any
    moment (adapter/provider/provider.go). */
module GroupProxies {
  datatype Proxy = Proxy(id: nat, name: string, kind: string)

  type Matcher = string -> bool

  /** setProxies replaces the list and bumps the version together: a version stands for one list. */
  datatype Provider = Provider(compatible: bool, listAt: nat -> seq<Proxy>)

  datatype Group = Group(
    providers: seq<Provider>,
    filters: seq<Matcher>,
    excludeFilters: seq<Matcher>,
    excludeTypes: seq<Matcher>,
    emptyFallback: Proxy)

  /** Which version of provider `i` a call sees when it reads the list in filter pass `k`. */
  type Reading = (nat, nat) -> nat

  /** Lists are read after versions, and versions only grow. */
  ghost predicate NotOlder(versions: seq<nat>, at: Reading) {
    forall k: nat, i: nat | i < |versions| :: at(k, i) >= versions[i]
  }

  // ----- filtering and removing repeated names -----

  ghost function NamesOf(xs: seq<Proxy>): set<string> {
    set p | p in xs :: p.name
  }

  ghost function Matching(f: Matcher, xs: seq<Proxy>): seq<Proxy> {
    if xs == [] then []
    else
      var last := xs[|xs| - 1];
      Matching(f, xs[..|xs| - 1]) + if f(last.name) then [last] else []
  }

  /** The matches of the first filter, then those of the second, and so on; each filter has its own list. */
  ghost function Blocks(filters: seq<Matcher>, lists: seq<seq<Proxy>>): seq<Proxy>
    requires |filters| == |lists|
  {
    if |filters| == 0 then []
    else
      var n := |filters| - 1;
      Blocks(filters[..n], lists[..n]) + Matching(filters[n], lists[n])
  }

  /** Keeps the first proxy of each name. */
  ghost function DistinctNames(xs: seq<Proxy>): seq<Proxy> {
    if xs == [] then []
    else
      var front := DistinctNames(xs[..|xs| - 1]);
      var last := xs[|xs| - 1];
      if last.name in NamesOf(front) then front else front + [last]
  }

  ghost predicate NoRepeats(xs: seq<Proxy>) {
    forall i, j | 0 <= i < j < |xs| :: xs[i].name != xs[j].name
  }

  lemma {:induction false} DistinctNamesNoRepeats(xs: seq<Proxy>)
    ensures NoRepeats(DistinctNames(xs)) && NamesOf(DistinctNames(xs)) == NamesOf(xs)
    decreases |xs|
  {
    if xs != [] {
      var front, last := xs[..|xs| - 1], xs[|xs| - 1];
      DistinctNamesNoRepeats(front);
      assert xs == front + [last];
      assert NamesOf(xs) == NamesOf(front) + {last.name};
      assert NamesOf(DistinctNames(front) + [last]) == NamesOf(DistinctNames(front)) + {last.name};
      forall i | 0 <= i < |DistinctNames(front)| ensures DistinctNames(front)[i].name in NamesOf(DistinctNames(front)) {
      }
    }
  }

  lemma DistinctNamesStep(xs: seq<Proxy>, p: Proxy)
    ensures DistinctNames(xs + [p]) ==
      if p.name in NamesOf(DistinctNames(xs)) then DistinctNames(xs) else DistinctNames(xs) + [p]
  {
    assert (xs + [p])[..|xs|] == xs;
  }

  lemma MatchStep(f: Matcher, list: seq<Proxy>, before: seq<Proxy>, j: nat)
    requires j < |list|
    ensures var p, was := list[j], DistinctNames(before + Matching(f, list[..j]));
      DistinctNames(before + Matching(f, list[..j + 1])) ==
        if f(p.name) && p.name !in NamesOf(was) then was + [p] else was
  {
    assert list[..j + 1][..j] == list[..j];
    DistinctNamesStep(before + Matching(f, list[..j]), list[j]);
    assert before + (Matching(f, list[..j]) + [list[j]]) == before + Matching(f, list[..j]) + [list[j]];
    assert before + (Matching(f, list[..j]) + []) == before + Matching(f, list[..j]);
  }

  // ----- the order that several filters impose -----

  /** The first filter that matches, or the number of filters. */
  ghost function Rank(filters: seq<Matcher>, name: string): (r: nat)
    ensures r <= |filters|
  {
    if filters == [] then 0
    else if filters[0](name) then 0
    else 1 + Rank(filters[1..], name)
  }

  lemma {:induction false} RankIsFirst(filters: seq<Matcher>, name: string, k: nat)
    requires k <= |filters|
    ensures Rank(filters, name) == k <==>
      ((k < |filters| ==> filters[k](name)) && forall i | 0 <= i < k :: !filters[i](name))
  {
    if filters != [] {
      if k > 0 {
        RankIsFirst(filters[1..], name, k - 1);
        assert k < |filters| ==> filters[1..][k - 1] == filters[k];
        assert forall i | 0 < i < k :: filters[1..][i - 1] == filters[i];
      } else {
        RankIsFirst(filters[1..], name, 0);
      }
    }
  }

  /** Where a name first occurs, or the length of the list. */
  ghost function Pos(base: seq<Proxy>, name: string): (r: nat)
    ensures r <= |base|
  {
    if base == [] then 0
    else if base[0].name == name then 0
    else 1 + Pos(base[1..], name)
  }

  lemma {:induction false} PosIsFirst(base: seq<Proxy>, name: string, j: nat)
    requires j <= |base|
    ensures Pos(base, name) == j <==>
      ((j < |base| ==> base[j].name == name) && forall i | 0 <= i < j :: base[i].name != name)
  {
    if base != [] {
      if j > 0 {
        PosIsFirst(base[1..], name, j - 1);
        assert j < |base| ==> base[1..][j - 1] == base[j];
        assert forall i | 0 < i < j :: base[1..][i - 1] == base[i];
      } else {
        PosIsFirst(base[1..], name, 0);
      }
    }
  }

  /** `name` comes before place (k, j) when proxies are ordered by first matching filter, then by position. */
  ghost predicate Before(filters: seq<Matcher>, base: seq<Proxy>, name: string, k: nat, j: nat) {
    Rank(filters, name) < k || (Rank(filters, name) == k && Pos(base, name) < j)
  }

  ghost predicate Precedes(filters: seq<Matcher>, base: seq<Proxy>, p: Proxy, q: Proxy) {
    Before(filters, base, p.name, Rank(filters, q.name), Pos(base, q.name))
  }

  ghost predicate FirstOccurrence(base: seq<Proxy>, p: Proxy) {
    Pos(base, p.name) < |base| && base[Pos(base, p.name)] == p
  }

  ghost predicate Increasing(filters: seq<Matcher>, base: seq<Proxy>, r: seq<Proxy>) {
    forall a, b | 0 <= a < b < |r| :: Precedes(filters, base, r[a], r[b])
  }

  lemma RankAtMost(filters: seq<Matcher>, name: string, k: nat)
    requires k < |filters| && filters[k](name)
    ensures Rank(filters, name) <= k
  {
    RankIsFirst(filters, name, Rank(filters, name));
  }

  lemma PosAtMost(base: seq<Proxy>, name: string, j: nat)
    requires j < |base| && base[j].name == name
    ensures Pos(base, name) <= j
  {
    PosIsFirst(base, name, Pos(base, name));
  }

  // ----- the same order where every filter has its own list -----

  /** The first filter that matches a name which its list holds, or the number of filters. */
  ghost function Stage(filters: seq<Matcher>, lists: seq<seq<Proxy>>, name: string): (r: nat)
    requires |filters| == |lists|
    ensures r <= |filters|
  {
    if filters == [] then 0
    else if filters[0](name) && name in NamesOf(lists[0]) then 0
    else 1 + Stage(filters[1..], lists[1..], name)
  }

  lemma {:induction false} StageIsFirst(filters: seq<Matcher>, lists: seq<seq<Proxy>>, name: string, k: nat)
    requires |filters| == |lists| && k <= |filters|
    ensures Stage(filters, lists, name) == k <==>
      && (k < |filters| ==> filters[k](name) && name in NamesOf(lists[k]))
      && forall i | 0 <= i < k :: !(filters[i](name) && name in NamesOf(lists[i]))
  {
    if filters != [] {
      if k > 0 {
        StageIsFirst(filters[1..], lists[1..], name, k - 1);
        assert k < |filters| ==> filters[1..][k - 1] == filters[k] && lists[1..][k - 1] == lists[k];
        assert forall i | 0 < i < k :: filters[1..][i - 1] == filters[i] && lists[1..][i - 1] == lists[i];
      } else {
        StageIsFirst(filters[1..], lists[1..], name, 0);
      }
    }
  }

  /** `name` comes before place (k, j): in an earlier filter's list, or in the same one at an earlier position. */
  ghost predicate StagedBefore(filters: seq<Matcher>, lists: seq<seq<Proxy>>, name: string, k: nat, j: nat)
    requires |filters| == |lists|
  {
    var s := Stage(filters, lists, name);
    s < k || (s == k && s < |lists| && Pos(lists[s], name) < j)
  }

  /** `p` is the first of its name in the list of the first filter that takes the name. */
  ghost predicate StagedFirst(filters: seq<Matcher>, lists: seq<seq<Proxy>>, p: Proxy)
    requires |filters| == |lists|
  {
    var s := Stage(filters, lists, p.name);
    s < |lists| && filters[s](p.name) && FirstOccurrence(lists[s], p)
  }

  ghost predicate StagedPrecedes(filters: seq<Matcher>, lists: seq<seq<Proxy>>, p: Proxy, q: Proxy)
    requires |filters| == |lists|
  {
    var s := Stage(filters, lists, q.name);
    s < |lists| && StagedBefore(filters, lists, p.name, s, Pos(lists[s], q.name))
  }

  ghost predicate StagedOrder(filters: seq<Matcher>, lists: seq<seq<Proxy>>, r: seq<Proxy>)
    requires |filters| == |lists|
  {
    forall a, b | 0 <= a < b < |r| :: StagedPrecedes(filters, lists, r[a], r[b])
  }

  /** `r` holds exactly the names before place (k, j), each by its first proxy, in order. */
  ghost predicate SortedUpTo(filters: seq<Matcher>, lists: seq<seq<Proxy>>, k: nat, j: nat, r: seq<Proxy>)
    requires |filters| == |lists|
  {
    && StagedOrder(filters, lists, r)
    && (forall a | 0 <= a < |r| :: StagedFirst(filters, lists, r[a]) && StagedBefore(filters, lists, r[a].name, k, j))
    && (forall name | StagedBefore(filters, lists, name, k, j) :: name in NamesOf(r))
  }

  /** A name that comes up at place (k, j) and is not there yet belongs exactly there. */
  lemma NewNamePlace(filters: seq<Matcher>, lists: seq<seq<Proxy>>, k: nat, j: nat, r: seq<Proxy>)
    requires |filters| == |lists| && k < |filters| && j < |lists[k]| && SortedUpTo(filters, lists, k, j, r)
    requires filters[k](lists[k][j].name) && lists[k][j].name !in NamesOf(r)
    ensures Stage(filters, lists, lists[k][j].name) == k && Pos(lists[k], lists[k][j].name) == j
  {
    var name := lists[k][j].name;
    StageAtMost(filters, lists, k, j);
    PosAtMost(lists[k], name, j);
    assert !StagedBefore(filters, lists, name, k, j);
  }

  lemma StageAtMost(filters: seq<Matcher>, lists: seq<seq<Proxy>>, k: nat, j: nat)
    requires |filters| == |lists| && k < |filters| && j < |lists[k]| && filters[k](lists[k][j].name)
    ensures Stage(filters, lists, lists[k][j].name) <= k
  {
    var name := lists[k][j].name;
    assert name in NamesOf(lists[k]);
    StageIsFirst(filters, lists, name, Stage(filters, lists, name));
  }

  /** Between places (k, j) and (k, j + 1) lies at most the name at `j`, if filter `k` takes it first. */
  lemma NextPlace(filters: seq<Matcher>, lists: seq<seq<Proxy>>, k: nat, j: nat, name: string)
    requires |filters| == |lists| && k < |filters| && j < |lists[k]|
    requires StagedBefore(filters, lists, name, k, j + 1) && !StagedBefore(filters, lists, name, k, j)
    ensures name == lists[k][j].name && filters[k](name)
  {
    PosIsFirst(lists[k], name, j);
    StageIsFirst(filters, lists, name, k);
  }

  lemma AppendedStaysSorted(filters: seq<Matcher>, lists: seq<seq<Proxy>>, k: nat, j: nat, r: seq<Proxy>)
    requires |filters| == |lists| && k < |filters| && j < |lists[k]| && SortedUpTo(filters, lists, k, j, r)
    requires filters[k](lists[k][j].name)
    requires Stage(filters, lists, lists[k][j].name) == k && Pos(lists[k], lists[k][j].name) == j
    ensures StagedOrder(filters, lists, r + [lists[k][j]])
    ensures forall a | 0 <= a < |r + [lists[k][j]]| ::
      && StagedFirst(filters, lists, (r + [lists[k][j]])[a])
      && StagedBefore(filters, lists, (r + [lists[k][j]])[a].name, k, j + 1)
  {
  }

  lemma SortedStep(filters: seq<Matcher>, lists: seq<seq<Proxy>>, k: nat, j: nat, r: seq<Proxy>)
    requires |filters| == |lists| && k < |filters| && j < |lists[k]| && SortedUpTo(filters, lists, k, j, r)
    ensures var p := lists[k][j];
      SortedUpTo(filters, lists, k, j + 1, if filters[k](p.name) && p.name !in NamesOf(r) then r + [p] else r)
  {
    var p := lists[k][j];
    var added := filters[k](p.name) && p.name !in NamesOf(r);
    var r' := if added then r + [p] else r;
    NamesOfAppend(r, p);
    if added {
      NewNamePlace(filters, lists, k, j, r);
      AppendedStaysSorted(filters, lists, k, j, r);
    }
    forall name | StagedBefore(filters, lists, name, k, j + 1) ensures name in NamesOf(r') {
      if !StagedBefore(filters, lists, name, k, j) {
        NextPlace(filters, lists, k, j, name);
      }
    }
  }

  lemma {:induction false} BlockSorts(filters: seq<Matcher>, lists: seq<seq<Proxy>>, k: nat, j: nat, before: seq<Proxy>)
    requires |filters| == |lists| && k < |filters| && j <= |lists[k]|
    requires SortedUpTo(filters, lists, k, 0, DistinctNames(before))
    ensures SortedUpTo(filters, lists, k, j, DistinctNames(before + Matching(filters[k], lists[k][..j])))
    decreases j
  {
    if j == 0 {
      assert before + [] == before;
    } else {
      BlockSorts(filters, lists, k, j - 1, before);
      SortedStep(filters, lists, k, j - 1, DistinctNames(before + Matching(filters[k], lists[k][..j - 1])));
      MatchStep(filters[k], lists[k], before, j - 1);
    }
  }

  /** Having read all of list `k`, the next place is the start of the next list. */
  lemma NextList(filters: seq<Matcher>, lists: seq<seq<Proxy>>, k: nat, r: seq<Proxy>)
    requires |filters| == |lists| && k < |filters| && SortedUpTo(filters, lists, k, |lists[k]|, r)
    ensures SortedUpTo(filters, lists, k + 1, 0, r)
  {
    forall name | StagedBefore(filters, lists, name, k + 1, 0) ensures name in NamesOf(r) {
      StageIsFirst(filters, lists, name, k);
      if Stage(filters, lists, name) == k {
        var p :| p in lists[k] && p.name == name;
        var j :| 0 <= j < |lists[k]| && lists[k][j] == p;
        PosAtMost(lists[k], name, j);
      }
      assert StagedBefore(filters, lists, name, k, |lists[k]|);
    }
  }

  /** Removing repeated names from the matches of each filter in its list sorts by filter, then by position. */
  lemma {:induction false} BlocksSort(filters: seq<Matcher>, lists: seq<seq<Proxy>>, k: nat)
    requires |filters| == |lists| && k <= |filters|
    ensures SortedUpTo(filters, lists, k, 0, DistinctNames(Blocks(filters[..k], lists[..k])))
    decreases k
  {
    if k > 0 {
      BlocksSort(filters, lists, k - 1);
      BlocksStep(filters, lists, k - 1);
      BlockSorts(filters, lists, k - 1, |lists[k - 1]|, Blocks(filters[..k - 1], lists[..k - 1]));
      NextList(filters, lists, k - 1, DistinctNames(Blocks(filters[..k], lists[..k])));
    } else {
      NothingBefore(filters, lists);
    }
  }

  lemma BlocksStep(filters: seq<Matcher>, lists: seq<seq<Proxy>>, k: nat)
    requires |filters| == |lists| && k < |filters|
    ensures lists[k][..|lists[k]|] == lists[k]
    ensures Blocks(filters[..k + 1], lists[..k + 1]) == Blocks(filters[..k], lists[..k]) + Matching(filters[k], lists[k])
  {
    assert filters[..k + 1][..k] == filters[..k] && lists[..k + 1][..k] == lists[..k];
  }

  lemma NothingBefore(filters: seq<Matcher>, lists: seq<seq<Proxy>>)
    requires |filters| == |lists|
    ensures SortedUpTo(filters, lists, 0, 0, [])
  {
  }

  ghost function Repeat(base: seq<Proxy>, n: nat): seq<seq<Proxy>> {
    seq(n, _ => base)
  }

  /** With one list for all filters, the stage of a listed name is its rank. */
  lemma {:induction false} StageOnRepeat(filters: seq<Matcher>, base: seq<Proxy>, name: string)
    requires name in NamesOf(base)
    ensures Stage(filters, Repeat(base, |filters|), name) == Rank(filters, name)
  {
    if filters != [] {
      assert Repeat(base, |filters|)[1..] == Repeat(base, |filters| - 1);
      StageOnRepeat(filters[1..], base, name);
    }
  }

  ghost function Anything(): Matcher {
    name => true
  }

  /** All proxies, each name once: by first matching filter, unmatched ones last, otherwise in the given order. */
  ghost function Reordered(filters: seq<Matcher>, proxies: seq<Proxy>): seq<Proxy> {
    DistinctNames(Blocks(filters + [Anything()], Repeat(proxies, |filters| + 1)))
  }

  lemma ReorderedUnfolds(filters: seq<Matcher>, proxies: seq<Proxy>)
    ensures Reordered(filters, proxies) ==
      DistinctNames(Blocks(filters, Repeat(proxies, |filters|)) + Matching(Anything(), proxies))
  {
    var all, n := filters + [Anything()], |filters|;
    assert all[..n] == filters && Repeat(proxies, n + 1)[..n] == Repeat(proxies, n);
  }

  lemma {:induction false} RankLonger(filters: seq<Matcher>, name: string)
    ensures Rank(filters + [Anything()], name) == Rank(filters, name)
  {
    if filters != [] {
      assert (filters + [Anything()])[1..] == filters[1..] + [Anything()];
      RankLonger(filters[1..], name);
    }
  }

  lemma MemberName(xs: seq<Proxy>, a: nat)
    requires a < |xs|
    ensures xs[a] in xs && xs[a].name in NamesOf(xs)
  {
  }

  lemma ReorderedMember(filters: seq<Matcher>, proxies: seq<Proxy>, r: seq<Proxy>, a: nat)
    requires var all := filters + [Anything()];
      SortedUpTo(all, Repeat(proxies, |all|), |all|, 0, r) && a < |r|
    ensures FirstOccurrence(proxies, r[a])
    ensures var all := filters + [Anything()];
      Stage(all, Repeat(proxies, |all|), r[a].name) == Rank(filters, r[a].name) < |all|
  {
    var all := filters + [Anything()];
    assert StagedFirst(all, Repeat(proxies, |all|), r[a]);
    MemberName(proxies, Pos(proxies, r[a].name));
    StageOnRepeat(all, proxies, r[a].name);
    RankLonger(filters, r[a].name);
  }

  lemma ReorderedSorts(filters: seq<Matcher>, proxies: seq<Proxy>)
    ensures var all := filters + [Anything()];
      SortedUpTo(all, Repeat(proxies, |all|), |all|, 0, Reordered(filters, proxies))
  {
    var all := filters + [Anything()];
    var lists := Repeat(proxies, |all|);
    BlocksSort(all, lists, |all|);
    assert all[..|all|] == all && lists[..|all|] == lists;
  }

  /** The order is stable and total. */
  lemma ReorderedIsSorted(filters: seq<Matcher>, proxies: seq<Proxy>)
    ensures var r := Reordered(filters, proxies);
      && Increasing(filters, proxies, r)
      && (forall a | 0 <= a < |r| :: FirstOccurrence(proxies, r[a]))
      && NoRepeats(r) && NamesOf(r) == NamesOf(proxies)
  {
    var all := filters + [Anything()];
    var lists := Repeat(proxies, |all|);
    var r := Reordered(filters, proxies);
    ReorderedSorts(filters, proxies);
    forall a | 0 <= a < |r| ensures FirstOccurrence(proxies, r[a]) {
      ReorderedMember(filters, proxies, r, a);
    }
    forall a, b | 0 <= a < b < |r| ensures Precedes(filters, proxies, r[a], r[b]) {
      assert StagedPrecedes(all, lists, r[a], r[b]);
      ReorderedMember(filters, proxies, r, a);
      ReorderedMember(filters, proxies, r, b);
    }
    DistinctNamesNoRepeats(Blocks(all, lists));
    SortedNames(all, proxies, r);
  }

  /** A list is determined by its members once it is ordered like that. */
  lemma {:induction false} IncreasingIsUnique(filters: seq<Matcher>, base: seq<Proxy>, r: seq<Proxy>, s: seq<Proxy>)
    requires Increasing(filters, base, r) && Increasing(filters, base, s) && forall p :: p in r <==> p in s
    ensures r == s
    decreases |r|
  {
    if r == [] {
      HeadIn(s);
    } else {
      SameHead(filters, base, r, s);
      assert r == [r[0]] + r[1..] && s == [s[0]] + s[1..];
      forall p ensures p in r[1..] <==> p in s[1..] {
        HeadOnce(filters, base, r, p);
        HeadOnce(filters, base, s, p);
      }
      IncreasingIsUnique(filters, base, r[1..], s[1..]);
    }
  }

  lemma HeadIn(s: seq<Proxy>)
    ensures |s| > 0 ==> s[0] in s
  {
  }

  lemma HeadPrecedes(filters: seq<Matcher>, base: seq<Proxy>, r: seq<Proxy>, i: nat)
    requires Increasing(filters, base, r) && 0 < i < |r|
    ensures Precedes(filters, base, r[0], r[i])
  {
  }

  lemma SameHead(filters: seq<Matcher>, base: seq<Proxy>, r: seq<Proxy>, s: seq<Proxy>)
    requires Increasing(filters, base, r) && Increasing(filters, base, s) && forall p :: p in r <==> p in s
    requires r != []
    ensures s != [] && r[0] == s[0]
  {
    assert r[0] in s;
    var i :| 0 <= i < |s| && s[i] == r[0];
    assert s[0] in r;
    var j :| 0 <= j < |r| && r[j] == s[0];
    if i > 0 && j > 0 {
      HeadPrecedes(filters, base, s, i);
      HeadPrecedes(filters, base, r, j);
    }
  }

  lemma HeadOnce(filters: seq<Matcher>, base: seq<Proxy>, r: seq<Proxy>, p: Proxy)
    requires Increasing(filters, base, r) && r != []
    ensures p in r[1..] <==> p in r && p != r[0]
  {
    if p in r[1..] {
      var i :| 0 <= i < |r[1..]| && r[1..][i] == p;
      assert Precedes(filters, base, r[0], r[i + 1]);
    }
    if p in r && p != r[0] {
      var i :| 0 <= i < |r| && r[i] == p;
      assert r[1..][i - 1] == p;
    }
  }

  /** The reordered list is the only one with the properties above. */
  lemma ReorderedIsUnique(filters: seq<Matcher>, proxies: seq<Proxy>, r: seq<Proxy>)
    requires Increasing(filters, proxies, r) && NamesOf(r) == NamesOf(proxies)
    requires forall a | 0 <= a < |r| :: FirstOccurrence(proxies, r[a])
    ensures r == Reordered(filters, proxies)
  {
    var s := Reordered(filters, proxies);
    ReorderedIsSorted(filters, proxies);
    forall p ensures p in r <==> p in s {
      if p in r { SameMember(proxies, r, s, p); }
      if p in s { SameMember(proxies, s, r, p); }
    }
    IncreasingIsUnique(filters, proxies, r, s);
  }

  lemma SameMember(base: seq<Proxy>, r: seq<Proxy>, s: seq<Proxy>, p: Proxy)
    requires NamesOf(r) == NamesOf(s) && p in r
    requires forall a | 0 <= a < |r| :: FirstOccurrence(base, r[a])
    requires forall a | 0 <= a < |s| :: FirstOccurrence(base, s[a])
    ensures p in s
  {
    assert p.name in NamesOf(s);
    var q :| q in s && q.name == p.name;
    var a :| 0 <= a < |r| && r[a] == p;
    var b :| 0 <= b < |s| && s[b] == q;
    assert FirstOccurrence(base, r[a]) && FirstOccurrence(base, s[b]);
  }

  lemma SortedNames(all: seq<Matcher>, proxies: seq<Proxy>, r: seq<Proxy>)
    requires |all| > 0 && all[|all| - 1] == Anything() && SortedUpTo(all, Repeat(proxies, |all|), |all|, 0, r)
    ensures NamesOf(r) == NamesOf(proxies)
  {
    var lists := Repeat(proxies, |all|);
    forall p | p in proxies ensures p.name in NamesOf(r) {
      var j :| 0 <= j < |proxies| && proxies[j] == p;
      StageAtMost(all, lists, |all| - 1, j);
      assert StagedBefore(all, lists, p.name, |all|, 0);
    }
    forall p | p in r ensures p.name in NamesOf(proxies) {
      var a :| 0 <= a < |r| && r[a] == p;
      assert StagedFirst(all, lists, r[a]);
      MemberName(proxies, Pos(proxies, p.name));
    }
  }

  // ----- one filter pass over the whole group -----

  ghost function ListOf(g: Group, at: Reading, k: nat, i: nat): seq<Proxy>
    requires i < |g.providers|
  {
    g.providers[i].listAt(at(k, i))
  }

  ghost function ListsOf(g: Group, at: Reading, i: nat, n: nat): seq<seq<Proxy>>
    requires i < |g.providers|
  {
    seq(n, k requires 0 <= k < n => ListOf(g, at, k, i))
  }

  ghost function Provided(g: Group, at: Reading, i: nat): seq<Proxy>
    requires i < |g.providers|
  {
    if g.filters == [] || g.providers[i].compatible then ListOf(g, at, 0, i)
    else DistinctNames(Blocks(g.filters, ListsOf(g, at, i, |g.filters|)))
  }

  ghost function Collected(g: Group, at: Reading, n: nat): seq<Proxy>
    requires n <= |g.providers|
  {
    if n == 0 then [] else Collected(g, at, n - 1) + Provided(g, at, n - 1)
  }

  predicate MatchesAny(fs: seq<Matcher>, text: string) {
    exists k :: 0 <= k < |fs| && fs[k](text)
  }

  predicate Excluded(fs: seq<Matcher>, byType: bool, p: Proxy) {
    MatchesAny(fs, if byType then p.kind else p.name)
  }

  ghost function Remaining(fs: seq<Matcher>, byType: bool, xs: seq<Proxy>): seq<Proxy> {
    if xs == [] then []
    else
      var last := xs[|xs| - 1];
      Remaining(fs, byType, xs[..|xs| - 1]) + if Excluded(fs, byType, last) then [] else [last]
  }

  predicate Allowed(g: Group, p: Proxy) {
    !Excluded(g.excludeFilters, false, p) && !Excluded(g.excludeTypes, true, p)
  }

  ghost predicate Several(g: Group) {
    |g.providers| > 1 && |g.filters| > 1
  }

  ghost function Ordered(g: Group, proxies: seq<Proxy>): seq<Proxy> {
    if Several(g) then Reordered(g.filters, proxies) else proxies
  }

  ghost function Pass(g: Group, at: Reading): seq<Proxy> {
    Remaining(g.excludeTypes, true, Remaining(g.excludeFilters, false, Ordered(g, Collected(g, at, |g.providers|))))
  }

  lemma {:induction false} RemainingKeepsOrder(
      fs: seq<Matcher>, byType: bool, filters: seq<Matcher>, base: seq<Proxy>, xs: seq<Proxy>)
    requires Increasing(filters, base, xs)
    ensures Increasing(filters, base, Remaining(fs, byType, xs))
    ensures forall p :: p in Remaining(fs, byType, xs) <==> p in xs && !Excluded(fs, byType, p)
    decreases |xs|
  {
    if xs != [] {
      var front, last := xs[..|xs| - 1], xs[|xs| - 1];
      RemainingKeepsOrder(fs, byType, filters, base, front);
      var r := Remaining(fs, byType, front);
      assert xs == front + [last];
      forall a | 0 <= a < |r| ensures Precedes(filters, base, r[a], last) {
        assert r[a] in front;
        var b :| 0 <= b < |front| && front[b] == r[a];
        assert xs[b] == r[a];
      }
    }
  }

  /** With several providers and several filters, a pass yields each name at most once, ordered stably by the
      first filter that matches, and exactly the names that are not excluded. */
  lemma PassIsOrdered(g: Group, at: Reading)
    requires |g.providers| > 1 && |g.filters| > 1
    ensures var all, r := Collected(g, at, |g.providers|), Pass(g, at);
      && Increasing(g.filters, all, r) && NoRepeats(r)
      && (forall p | p in r :: FirstOccurrence(all, p) && Allowed(g, p))
      && (forall p | p in all && FirstOccurrence(all, p) && Allowed(g, p) :: p in r)
  {
    var all := Collected(g, at, |g.providers|);
    var ordered := Reordered(g.filters, all);
    ReorderedIsSorted(g.filters, all);
    RemainingKeepsOrder(g.excludeFilters, false, g.filters, all, ordered);
    RemainingKeepsOrder(g.excludeTypes, true, g.filters, all, Remaining(g.excludeFilters, false, ordered));
    IncreasingIsDistinct(g.filters, all, Pass(g, at));
    forall p | p in all && FirstOccurrence(all, p) && Allowed(g, p) ensures p in ordered {
      assert p.name in NamesOf(ordered);
      var q :| q in ordered && q.name == p.name;
      var a :| 0 <= a < |ordered| && ordered[a] == q;
      assert FirstOccurrence(all, ordered[a]);
    }
    forall p | p in ordered ensures FirstOccurrence(all, p) {
      var a :| 0 <= a < |ordered| && ordered[a] == p;
      assert FirstOccurrence(all, ordered[a]);
    }
  }

  lemma IncreasingIsDistinct(filters: seq<Matcher>, base: seq<Proxy>, r: seq<Proxy>)
    requires Increasing(filters, base, r)
    ensures NoRepeats(r)
  {
    forall i, j | 0 <= i < j < |r| ensures r[i].name != r[j].name {
      assert Precedes(filters, base, r[i], r[j]);
    }
  }

  // ----- what a pass contains, from the providers' lists and the patterns alone -----

  /** The proxies of provider `i` are taken as they are: there are no filters, or it is compatible. */
  ghost predicate Unfiltered(g: Group, i: nat) {
    i < |g.providers| && (|g.filters| == 0 || g.providers[i].compatible)
  }

  /** Provider `i` offers `p`: any of its proxies if they are taken as they are, and otherwise one that some filter
      matches in the list it is matched against. */
  ghost predicate Offers(g: Group, at: Reading, i: nat, p: Proxy) {
    && i < |g.providers|
    && if Unfiltered(g, i) then p in g.providers[i].listAt(at(0, i)) else exists k: nat :: MatchedIn(g, at, i, k, p)
  }

  ghost predicate MatchedIn(g: Group, at: Reading, i: nat, k: nat, p: Proxy) {
    i < |g.providers| && k < |g.filters| && g.filters[k](p.name) && p in g.providers[i].listAt(at(k, i))
  }

  ghost predicate Offered(g: Group, at: Reading, p: Proxy) {
    exists i: nat :: Offers(g, at, i, p)
  }

  /** No exclusion pattern matches the name, and none the type. */
  ghost predicate Admitted(g: Group, p: Proxy) {
    && (forall k | 0 <= k < |g.excludeFilters| :: !g.excludeFilters[k](p.name))
    && (forall k | 0 <= k < |g.excludeTypes| :: !g.excludeTypes[k](p.kind))
  }

  /** `q` stands for `p` in the list `r`: it bears the same name, and is there unless it is excluded itself. */
  ghost predicate StandsFor(g: Group, at: Reading, r: seq<Proxy>, p: Proxy, q: Proxy) {
    q.name == p.name && Offered(g, at, q) && (Admitted(g, q) ==> q in r)
  }

  /** `r` holds only what is offered and admitted. */
  ghost predicate OnlyOffered(g: Group, at: Reading, r: seq<Proxy>) {
    forall p | p in r :: Offered(g, at, p) && Admitted(g, p)
  }

  /** Every offered name is represented. */
  ghost predicate EachRepresented(g: Group, at: Reading, r: seq<Proxy>) {
    forall i: nat, p | Offers(g, at, i, p) :: Represented(g, at, r, p)
  }

  ghost predicate Represented(g: Group, at: Reading, r: seq<Proxy>, p: Proxy) {
    exists q :: StandsFor(g, at, r, p, q)
  }

  /** Where nothing has to be merged, the proxies that are taken as they are stand for themselves. */
  ghost predicate UnfilteredKept(g: Group, at: Reading, r: seq<Proxy>) {
    |g.providers| == 1 || |g.filters| <= 1 ==>
      forall i: nat, p | Unfiltered(g, i) && Offers(g, at, i, p) && Admitted(g, p) :: p in r
  }

  ghost predicate Filtered(g: Group, at: Reading, r: seq<Proxy>) {
    OnlyOffered(g, at, r) && EachRepresented(g, at, r) && UnfilteredKept(g, at, r)
  }

  ghost function MatchedLists(g: Group, at: Reading, i: nat): seq<seq<Proxy>>
    requires i < |g.providers|
  {
    seq(|g.filters|, k requires 0 <= k < |g.filters| => g.providers[i].listAt(at(k, i)))
  }

  /** What a filtered provider contributes: the matched names, each once, by first filter and then by position. */
  lemma FilteredIsSorted(g: Group, at: Reading, i: nat)
    requires i < |g.providers| && !Unfiltered(g, i)
    ensures SortedUpTo(g.filters, MatchedLists(g, at, i), |g.filters|, 0, Provided(g, at, i))
    ensures NoRepeats(Provided(g, at, i))
  {
    var n, lists := |g.filters|, MatchedLists(g, at, i);
    assert lists == ListsOf(g, at, i, n);
    BlocksSort(g.filters, lists, n);
    assert g.filters[..n] == g.filters && lists[..n] == lists;
    DistinctNamesNoRepeats(Blocks(g.filters, lists));
  }

  lemma FilteredIsOffered(g: Group, at: Reading, i: nat, p: Proxy)
    requires i < |g.providers| && !Unfiltered(g, i)
    ensures p in Provided(g, at, i) ==> StagedFirst(g.filters, MatchedLists(g, at, i), p) && Offers(g, at, i, p)
    ensures Offers(g, at, i, p) ==> p.name in NamesOf(Provided(g, at, i))
  {
    var r, lists := Provided(g, at, i), MatchedLists(g, at, i);
    FilteredIsSorted(g, at, i);
    if p in r {
      var a :| 0 <= a < |r| && r[a] == p;
      assert StagedFirst(g.filters, lists, r[a]);
      assert MatchedIn(g, at, i, Stage(g.filters, lists, p.name), p);
    }
    if Offers(g, at, i, p) {
      var k: nat :| MatchedIn(g, at, i, k, p);
      var j :| 0 <= j < |lists[k]| && lists[k][j] == p;
      StageAtMost(g.filters, lists, k, j);
      assert StagedBefore(g.filters, lists, p.name, |g.filters|, 0);
    }
  }

  lemma UnfilteredIsList(g: Group, at: Reading, i: nat)
    requires Unfiltered(g, i)
    ensures Provided(g, at, i) == g.providers[i].listAt(at(0, i))
  {
  }

  lemma ProvidedIsOffered(g: Group, at: Reading, i: nat, p: Proxy)
    requires i < |g.providers|
    ensures p in Provided(g, at, i) ==> Offers(g, at, i, p)
    ensures Offers(g, at, i, p) ==> p.name in NamesOf(Provided(g, at, i))
    ensures Offers(g, at, i, p) && Unfiltered(g, i) ==> p in Provided(g, at, i)
  {
    if Unfiltered(g, i) {
      UnfilteredIsList(g, at, i);
    } else {
      FilteredIsOffered(g, at, i, p);
    }
  }

  /** The providers' contributions follow one another. */
  lemma {:induction false} ProvidersInOrder(g: Group, at: Reading, i: nat, n: nat)
    requires i < n <= |g.providers|
    ensures Collected(g, at, i) + Provided(g, at, i) <= Collected(g, at, n)
    decreases n
  {
    if i < n - 1 {
      ProvidersInOrder(g, at, i, n - 1);
    }
  }

  lemma {:induction false} CollectedMembers(g: Group, at: Reading, n: nat)
    requires n <= |g.providers|
    ensures forall p | p in Collected(g, at, n) :: Offered(g, at, p)
    decreases n
  {
    if n > 0 {
      CollectedMembers(g, at, n - 1);
      forall p | p in Provided(g, at, n - 1) ensures Offered(g, at, p) {
        ProvidedIsOffered(g, at, n - 1, p);
      }
    }
  }

  lemma ProvidedIsCollected(g: Group, at: Reading, i: nat, p: Proxy)
    requires i < |g.providers| && p in Provided(g, at, i)
    ensures p in Collected(g, at, |g.providers|)
  {
    ProvidersInOrder(g, at, i, |g.providers|);
    assert p in Collected(g, at, i) + Provided(g, at, i);
  }

  /** The exclusion loops keep the admitted proxies, in their order. */
  lemma {:induction false} RemainingPicks(fs: seq<Matcher>, byType: bool, xs: seq<Proxy>) returns (places: seq<nat>)
    ensures var r := Remaining(fs, byType, xs);
      && |places| == |r| && (forall a | 0 <= a < |r| :: places[a] < |xs| && xs[places[a]] == r[a])
      && (forall a, b | 0 <= a < b < |r| :: places[a] < places[b])
      && (forall j: nat | j < |xs| ::
            j in places <==> forall k | 0 <= k < |fs| :: !fs[k](if byType then xs[j].kind else xs[j].name))
    decreases |xs|
  {
    places := [];
    if xs != [] {
      var n := |xs| - 1;
      places := RemainingPicks(fs, byType, xs[..n]);
      if !Excluded(fs, byType, xs[n]) {
        places := places + [n];
      }
    }
  }

  lemma {:induction false} RemainingMembers(fs: seq<Matcher>, byType: bool, xs: seq<Proxy>, p: Proxy)
    ensures p in Remaining(fs, byType, xs) <==>
      p in xs && forall k | 0 <= k < |fs| :: !fs[k](if byType then p.kind else p.name)
    decreases |xs|
  {
    if xs != [] {
      assert xs == xs[..|xs| - 1] + [xs[|xs| - 1]];
      RemainingMembers(fs, byType, xs[..|xs| - 1], p);
    }
  }

  lemma PassMembers(g: Group, at: Reading, p: Proxy)
    ensures p in Pass(g, at) <==> p in Ordered(g, Collected(g, at, |g.providers|)) && Admitted(g, p)
  {
    var ordered := Ordered(g, Collected(g, at, |g.providers|));
    RemainingMembers(g.excludeFilters, false, ordered, p);
    RemainingMembers(g.excludeTypes, true, Remaining(g.excludeFilters, false, ordered), p);
  }

  /** Merging several filtered providers keeps every name and adds none. */
  lemma OrderedMembers(g: Group, proxies: seq<Proxy>)
    ensures NamesOf(Ordered(g, proxies)) == NamesOf(proxies)
    ensures forall p | p in Ordered(g, proxies) :: p in proxies
    ensures |g.providers| == 1 || |g.filters| <= 1 ==> Ordered(g, proxies) == proxies
  {
    if Several(g) {
      ReorderedIsSorted(g.filters, proxies);
      var r := Reordered(g.filters, proxies);
      forall p | p in r ensures p in proxies {
        var a :| 0 <= a < |r| && r[a] == p;
        assert FirstOccurrence(proxies, r[a]);
      }
    }
  }

  /** Every filter pass, for every group. */
  lemma PassIsFiltered(g: Group, at: Reading)
    ensures Filtered(g, at, Pass(g, at))
  {
    var all, r := Collected(g, at, |g.providers|), Pass(g, at);
    CollectedMembers(g, at, |g.providers|);
    OrderedMembers(g, all);
    forall p | p in r ensures Offered(g, at, p) && Admitted(g, p) {
      PassMembers(g, at, p);
    }
    forall i: nat, p | Offers(g, at, i, p) ensures Represented(g, at, r, p) {
      var q := Representative(g, at, i, p);
    }
    forall i: nat, p | Unfiltered(g, i) && Offers(g, at, i, p) && Admitted(g, p)
      ensures |g.providers| == 1 || |g.filters| <= 1 ==> p in r
    {
      ProvidedIsOffered(g, at, i, p);
      ProvidedIsCollected(g, at, i, p);
      PassMembers(g, at, p);
    }
  }

  lemma Representative(g: Group, at: Reading, i: nat, p: Proxy) returns (q: Proxy)
    requires Offers(g, at, i, p)
    ensures StandsFor(g, at, Pass(g, at), p, q)
  {
    var all := Collected(g, at, |g.providers|);
    ProvidedIsOffered(g, at, i, p);
    var c :| c in Provided(g, at, i) && c.name == p.name;
    ProvidedIsCollected(g, at, i, c);
    OrderedMembers(g, all);
    assert p.name in NamesOf(Ordered(g, all));
    q :| q in Ordered(g, all) && q.name == p.name;
    CollectedMembers(g, at, |g.providers|);
    PassMembers(g, at, q);
  }

  // ----- the methods -----

  /** The nested loops that collect matches filter by filter, skipping names already taken. */
  method FilterInOrder(filters: seq<Matcher>, lists: seq<seq<Proxy>>) returns (newProxies: seq<Proxy>, proxiesSet: set<string>)
    requires |filters| == |lists|
    ensures newProxies == DistinctNames(Blocks(filters, lists)) && proxiesSet == NamesOf(newProxies)
  {
    newProxies, proxiesSet := [], {};
    for k := 0 to |filters|
      invariant newProxies == DistinctNames(Blocks(filters[..k], lists[..k])) && proxiesSet == NamesOf(newProxies)
    {
      ghost var before := Blocks(filters[..k], lists[..k]);
      assert before + Matching(filters[k], lists[k][..0]) == before;
      for j := 0 to |lists[k]|
        invariant newProxies == DistinctNames(before + Matching(filters[k], lists[k][..j]))
        invariant proxiesSet == NamesOf(newProxies)
      {
        var p := lists[k][j];
        MatchStep(filters[k], lists[k], before, j);
        if filters[k](p.name) && p.name !in proxiesSet {
          NamesOfAppend(newProxies, p);
          proxiesSet := proxiesSet + {p.name};
          newProxies := newProxies + [p];
        }
      }
      assert lists[k][..|lists[k]|] == lists[k];
      assert filters[..k + 1][..k] == filters[..k] && lists[..k + 1][..k] == lists[..k];
    }
    assert filters[..|filters|] == filters && lists[..|lists|] == lists;
  }

  lemma NamesOfAppend(xs: seq<Proxy>, p: Proxy)
    ensures NamesOf(xs + [p]) == NamesOf(xs) + {p.name}
  {
    assert p in xs + [p];
    forall q | q in xs ensures q.name in NamesOf(xs + [p]) {
      assert q in xs + [p];
    }
  }

  method Reorder(filters: seq<Matcher>, proxies: seq<Proxy>) returns (r: seq<Proxy>)
    ensures r == Reordered(filters, proxies)
  {
    var proxiesSet;
    r, proxiesSet := FilterInOrder(filters, seq(|filters|, _ => proxies));
    ghost var matched := Blocks(filters, Repeat(proxies, |filters|));
    assert seq(|filters|, _ => proxies) == Repeat(proxies, |filters|);
    assert matched + Matching(Anything(), proxies[..0]) == matched;
    for j := 0 to |proxies|
      invariant r == DistinctNames(matched + Matching(Anything(), proxies[..j])) && proxiesSet == NamesOf(r)
    {
      var p := proxies[j];
      MatchStep(Anything(), proxies, matched, j);
      if p.name !in proxiesSet {
        NamesOfAppend(r, p);
        proxiesSet := proxiesSet + {p.name};
        r := r + [p];
      }
    }
    assert proxies[..|proxies|] == proxies;
    ReorderedUnfolds(filters, proxies);
  }

  method MatchAny(fs: seq<Matcher>, text: string) returns (any: bool)
    ensures any == MatchesAny(fs, text)
  {
    for k := 0 to |fs|
      invariant forall i | 0 <= i < k :: !fs[i](text)
    {
      if fs[k](text) {
        return true;
      }
    }
    any := false;
  }

  method Exclude(fs: seq<Matcher>, byType: bool, proxies: seq<Proxy>) returns (r: seq<Proxy>)
    ensures r == Remaining(fs, byType, proxies)
  {
    r := [];
    for j := 0 to |proxies|
      invariant r == Remaining(fs, byType, proxies[..j])
    {
      assert proxies[..j + 1][..j] == proxies[..j];
      var any := MatchAny(fs, if byType then proxies[j].kind else proxies[j].name);
      if !any {
        r := r + [proxies[j]];
      }
    }
    assert proxies[..|proxies|] == proxies;
  }

  /** The group with its cache. */
  class GroupBase {
    const group: Group
    var providerVersions: seq<nat>
    var providerProxies: seq<Proxy>
    ghost var cachedAt: Reading

    /** The cached list is a filter pass over lists no older than the recorded versions. */
    ghost predicate Valid()
      reads this
    {
      if providerVersions == [] then providerProxies == []
      else
        && |providerVersions| == |group.providers| && NotOlder(providerVersions, cachedAt)
        && providerProxies == Pass(group, cachedAt) && providerProxies != []
    }

    constructor (group: Group)
      ensures Valid() && this.group == group && providerVersions == []
    {
      this.group := group;
      providerVersions, providerProxies := [], [];
      cachedAt := (k, i) => 0;
    }

    method Collect(at: Reading) returns (proxies: seq<Proxy>)
      ensures proxies == Collected(group, at, |group.providers|)
    {
      proxies := [];
      for i := 0 to |group.providers|
        invariant proxies == Collected(group, at, i)
      {
        var provided := Provide(i, at);
        proxies := proxies + provided;
      }
    }

    method Provide(i: nat, at: Reading) returns (proxies: seq<Proxy>)
      requires i < |group.providers|
      ensures proxies == Provided(group, at, i)
    {
      if group.filters == [] || group.providers[i].compatible {
        return group.providers[i].listAt(at(0, i));
      }
      var lists := seq(|group.filters|, k requires 0 <= k < |group.filters| => group.providers[i].listAt(at(k, i)));
      assert lists == ListsOf(group, at, i, |group.filters|);
      var names;
      proxies, names := FilterInOrder(group.filters, lists);
    }

    /** One call: it has read `versions`, and reads the lists as `at` says. Whatever the interleaving, it returns
        what a filter pass over lists no older than `versions` gives, or the fallback if that is empty. */
    method GetProxies(versions: seq<nat>, at: Reading) returns (proxies: seq<Proxy>, ghost seen: Reading)
      requires Valid() && |versions| == |group.providers| && NotOlder(versions, at)
      modifies this
      ensures Valid() && NotOlder(versions, seen)
      ensures |group.providers| > 0 ==>
        proxies == if Pass(group, seen) == [] then [group.emptyFallback] else Pass(group, seen)
      ensures |group.providers| > 0 ==>
        Filtered(group, seen, proxies) || (Filtered(group, seen, []) && proxies == [group.emptyFallback])
      ensures proxies == [] <==> |group.providers| == 0
      ensures seen == at || (versions == old(providerVersions) && seen == old(cachedAt))
    {
      if versions == providerVersions {
        PassIsFiltered(group, cachedAt);
        return providerProxies, if versions == [] then at else cachedAt;
      }
      proxies := Collect(at);
      seen := at;
      PassIsFiltered(group, at);
      if |group.providers| > 1 && |group.filters| > 1 {
        proxies := Reorder(group.filters, proxies);
      }
      proxies := Exclude(group.excludeFilters, false, proxies);
      proxies := Exclude(group.excludeTypes, true, proxies);
      if proxies == [] {
        return [group.emptyFallback], at;
      }
      providerVersions, providerProxies := versions, proxies;
      cachedAt := at;
    }
  }
}
