/** Named rule lists that refer to each other: verifySubRule (config/config.go) and the evaluation that
    depends on it, matchSubRules (rules/logic/logic.go). `M` is the connection metadata. */
module SubRules {
  import opened Graph
  import opened Options

  /** A plain rule yields an adapter name when it matches; a SUB-RULE rule guards another list. */
  datatype Rule<!M> =
    | Plain(matches: M -> Option<Name>)
    | SubRule(condition: M -> bool, target: Name)

  type RuleSets<!M> = map<Name, seq<Rule<M>>>

  datatype Verdict = Ok | NotFound(list: Name, index: nat, target: Name) | Circular(path: seq<Name>)

  ghost function CallEdges<M>(sub: RuleSets<M>): Edges {
    set n, i | n in sub && 0 <= i < |sub[n]| && sub[n][i].SubRule? :: (n, sub[n][i].target)
  }

  ghost predicate NoDangling<M(!new)>(sub: RuleSets<M>) {
    forall n, i | n in sub && 0 <= i < |sub[n]| && sub[n][i].SubRule? :: sub[n][i].target in sub
  }

  lemma CallEdge<M>(sub: RuleSets<M>, a: Name, b: Name)
    ensures (a, b) in CallEdges(sub) <==>
            a in sub && exists i :: 0 <= i < |sub[a]| && sub[a][i].SubRule? && sub[a][i].target == b
  {
    if a in sub {
      if i :| 0 <= i < |sub[a]| && sub[a][i].SubRule? && sub[a][i].target == b {
        assert (a, sub[a][i].target) in CallEdges(sub);
      }
    }
  }

  function Elements(path: seq<Name>): set<Name> {
    set n | n in path
  }

  // ----- verifySubRule -----

  /** The recursive check of list `n`, reached along `arr`. */
  function Verify<M>(n: Name, sub: RuleSets<M>, arr: seq<Name>): Verdict
    requires n in sub && n !in arr
    decreases sub.Keys - Elements(arr), 1, 0
  {
    VerifyFrom(n, sub, arr, 0)
  }

  function VerifyFrom<M>(n: Name, sub: RuleSets<M>, arr: seq<Name>, i: nat): Verdict
    requires n in sub && n !in arr && i <= |sub[n]|
    decreases sub.Keys - Elements(arr), 0, |sub[n]| - i
  {
    if i == |sub[n]| then Ok
    else if sub[n][i].Plain? then VerifyFrom(n, sub, arr, i + 1)
    else
      var target := sub[n][i].target;
      if target !in sub then NotFound(n, i, target)
      else if target in arr + [n] then Circular(arr + [n, target])
      else
        assert n in sub.Keys - Elements(arr) && n !in sub.Keys - Elements(arr + [n]);
        var v := Verify(target, sub, arr + [n]);
        if v != Ok then v else VerifyFrom(n, sub, arr, i + 1)
  }

  lemma {:induction false} VerifiedRule<M>(n: Name, sub: RuleSets<M>, arr: seq<Name>, i: nat, k: nat)
    requires n in sub && n !in arr && i <= k < |sub[n]| && sub[n][k].SubRule?
    requires VerifyFrom(n, sub, arr, i) == Ok
    ensures var target := sub[n][k].target; target in sub && target !in arr + [n] && Verify(target, sub, arr + [n]) == Ok
    decreases k - i
  {
    if i < k {
      VerifiedRule(n, sub, arr, i + 1, k);
    }
  }

  /** A verified list is never re-entered: no walk of calls from it returns to the path it was reached by. */
  lemma {:induction false} VerifiedWalk<M>(n: Name, sub: RuleSets<M>, arr: seq<Name>, p: seq<Name>)
    requires n in sub && n !in arr && Verify(n, sub, arr) == Ok
    requires |p| > 1 && p[0] == n && Walk(CallEdges(sub), p)
    ensures p[|p| - 1] !in arr + [n] && p[|p| - 1] in sub
    decreases |p|
  {
    assert (p[0], p[1]) in CallEdges(sub);
    CallEdge(sub, p[0], p[1]);
    var k :| 0 <= k < |sub[n]| && sub[n][k].SubRule? && sub[n][k].target == p[1];
    VerifiedRule(n, sub, arr, 0, k);
    if |p| > 2 {
      WalkSlice(CallEdges(sub), p, 1, |p|);
      VerifiedWalk(p[1], sub, arr + [n], p[1..]);
    }
  }

  /** What an error says about the lists. */
  ghost predicate Blames<M>(sub: RuleSets<M>, v: Verdict) {
    match v
    case Ok => false
    case NotFound(list, index, target) =>
      list in sub && index < |sub[list]| && sub[list][index].SubRule? && sub[list][index].target == target && target !in sub
    case Circular(path) =>
      |path| > 1 && Walk(CallEdges(sub), path) && exists j :: 0 <= j < |path| - 1 && path[j] == path[|path| - 1]
  }

  lemma {:induction false} VerifyBlames<M>(n: Name, sub: RuleSets<M>, arr: seq<Name>, i: nat)
    requires n in sub && n !in arr && i <= |sub[n]| && Walk(CallEdges(sub), arr + [n])
    requires VerifyFrom(n, sub, arr, i) != Ok
    ensures Blames(sub, VerifyFrom(n, sub, arr, i))
    decreases sub.Keys - Elements(arr), |sub[n]| - i
  {
    if sub[n][i].SubRule? && sub[n][i].target in sub {
      var target := sub[n][i].target;
      assert (n, target) in CallEdges(sub);
      WalkAppend(CallEdges(sub), arr + [n], target);
      assert arr + [n] + [target] == arr + [n, target];
      if target in arr + [n] {
        var j :| 0 <= j < |arr| + 1 && (arr + [n])[j] == target;
        assert (arr + [n, target])[j] == target;
      } else if Verify(target, sub, arr + [n]) != Ok {
        assert n in sub.Keys - Elements(arr) && n !in sub.Keys - Elements(arr + [n]);
        VerifyBlames(target, sub, arr + [n], 0);
      } else {
        VerifyBlames(n, sub, arr, i + 1);
      }
    } else if sub[n][i].Plain? {
      VerifyBlames(n, sub, arr, i + 1);
    }
  }

  lemma CircularIsCycle<M(!new)>(sub: RuleSets<M>, path: seq<Name>)
    requires Blames(sub, Circular(path))
    ensures !Acyclic(CallEdges(sub))
  {
    var E := CallEdges(sub);
    var j :| 0 <= j < |path| - 1 && path[j] == path[|path| - 1];
    WalkSlice(E, path, j, |path|);
    assert WalkBetween(E, path[j..|path|], path[j], path[j]);
    assert OnCycle(E, path[j]);
  }

  /** The names are visited in no particular order. */
  method VerifySubRule<M(!new)>(sub: RuleSets<M>) returns (r: Verdict)
    ensures r == Ok <==> NoDangling(sub) && Acyclic(CallEdges(sub))
    ensures r != Ok ==> Blames(sub, r)
  {
    var rest := sub.Keys;
    while rest != {}
      invariant rest <= sub.Keys
      invariant forall n | n in sub && n !in rest :: Verify(n, sub, []) == Ok
    {
      var name :| name in rest;
      rest := rest - {name};
      r := Verify(name, sub, []);
      if r != Ok {
        VerifyBlames(name, sub, [], 0);
        if r.Circular? {
          CircularIsCycle(sub, r.path);
        }
        return;
      }
    }
    AllVerified(sub);
    return Ok;
  }

  lemma AllVerified<M(!new)>(sub: RuleSets<M>)
    requires forall n | n in sub :: Verify(n, sub, []) == Ok
    ensures NoDangling(sub) && Acyclic(CallEdges(sub))
  {
    forall n, i | n in sub && 0 <= i < |sub[n]| && sub[n][i].SubRule? ensures sub[n][i].target in sub {
      VerifiedRule(n, sub, [], 0, i);
    }
    forall n | OnCycle(CallEdges(sub), n) ensures false {
      var p :| |p| > 1 && WalkBetween(CallEdges(sub), p, n, n);
      assert (p[0], p[1]) in CallEdges(sub);
      CallEdge(sub, p[0], p[1]);
      VerifiedWalk(n, sub, [], p);
    }
  }

  // ----- matchSubRules -----

  ghost predicate Verified<M(!new)>(sub: RuleSets<M>) {
    NoDangling(sub) && Acyclic(CallEdges(sub))
  }

  /** `path` is the chain of lists being evaluated. It never repeats on verified lists. */
  ghost predicate Calling<M(!new)>(sub: RuleSets<M>, name: Name, path: seq<Name>) {
    Verified(sub) && name in sub && name !in path && Walk(CallEdges(sub), path + [name])
  }

  lemma CallsOn<M(!new)>(sub: RuleSets<M>, name: Name, path: seq<Name>, i: nat)
    requires Calling(sub, name, path) && i < |sub[name]| && sub[name][i].SubRule?
    ensures Calling(sub, sub[name][i].target, path + [name])
    ensures sub.Keys - Elements(path + [name]) < sub.Keys - Elements(path)
  {
    var E, target := CallEdges(sub), sub[name][i].target;
    assert (name, target) in E;
    WalkAppend(E, path + [name], target);
    if target in path + [name] {
      var j :| 0 <= j < |path| + 1 && (path + [name])[j] == target;
      var loop := path + [name] + [target];
      WalkSlice(E, loop, j, |loop|);
      assert WalkBetween(E, loop[j..|loop|], target, target);
      assert OnCycle(E, target);
    }
    assert name in sub.Keys - Elements(path) && name !in sub.Keys - Elements(path + [name]);
  }

  /** The evaluation of list `name` from rule `i` on. Adapters accepted by `pass` are skipped. */
  function Evaluate<M(!new)>(sub: RuleSets<M>, name: Name, i: nat, md: M, pass: Name -> bool, ghost path: seq<Name>): Option<Name>
    requires Calling(sub, name, path) && i <= |sub[name]|
    decreases sub.Keys - Elements(path), |sub[name]| - i
  {
    if i == |sub[name]| then None
    else
      var outcome := match sub[name][i]
        case Plain(matches) => matches(md)
        case SubRule(condition, target) =>
          if condition(md) then CallsOn(sub, name, path, i); Evaluate(sub, target, 0, md, pass, path + [name]) else None;
      if outcome.Some? && !pass(outcome.value) then outcome else Evaluate(sub, name, i + 1, md, pass, path)
  }

  /** The adapters of the matching plain rules, with every matching SUB-RULE rule replaced by its list. */
  ghost function Flatten<M(!new)>(sub: RuleSets<M>, name: Name, i: nat, md: M, path: seq<Name>): seq<Name>
    requires Calling(sub, name, path) && i <= |sub[name]|
    decreases sub.Keys - Elements(path), |sub[name]| - i
  {
    if i == |sub[name]| then []
    else
      (match sub[name][i]
       case Plain(matches) => (if matches(md).Some? then [matches(md).value] else [])
       case SubRule(condition, target) =>
         if condition(md) then CallsOn(sub, name, path, i); Flatten(sub, target, 0, md, path + [name]) else [])
      + Flatten(sub, name, i + 1, md, path)
  }

  ghost function FirstKept(adapters: seq<Name>, pass: Name -> bool): Option<Name> {
    if adapters == [] then None
    else if pass(adapters[0]) then FirstKept(adapters[1..], pass)
    else Some(adapters[0])
  }

  lemma {:induction false} FirstKeptConcat(a: seq<Name>, b: seq<Name>, pass: Name -> bool)
    ensures FirstKept(a + b, pass) == if FirstKept(a, pass).Some? then FirstKept(a, pass) else FirstKept(b, pass)
    ensures FirstKept(a, pass).Some? ==> !pass(FirstKept(a, pass).value)
  {
    if a == [] {
      assert a + b == b;
    } else {
      assert (a + b)[1..] == a[1..] + b;
      FirstKeptConcat(a[1..], b, pass);
    }
  }

  /** Evaluating nested lists is scanning the flat list for the first adapter that is not passed over. */
  lemma {:induction false} EvaluateIsFlatScan<M(!new)>(sub: RuleSets<M>, name: Name, i: nat, md: M, pass: Name -> bool, path: seq<Name>)
    requires Calling(sub, name, path) && i <= |sub[name]|
    ensures Evaluate(sub, name, i, md, pass, path) == FirstKept(Flatten(sub, name, i, md, path), pass)
    decreases sub.Keys - Elements(path), |sub[name]| - i
  {
    if i < |sub[name]| {
      var rest := Flatten(sub, name, i + 1, md, path);
      EvaluateIsFlatScan(sub, name, i + 1, md, pass, path);
      match sub[name][i]
      case Plain(matches) =>
        var here := if matches(md).Some? then [matches(md).value] else [];
        FirstKeptConcat(here, rest, pass);
      case SubRule(condition, target) =>
        if condition(md) {
          CallsOn(sub, name, path, i);
          EvaluateIsFlatScan(sub, target, 0, md, pass, path + [name]);
          FirstKeptConcat(Flatten(sub, target, 0, md, path + [name]), rest, pass);
        } else {
          FirstKeptConcat([], rest, pass);
        }
    }
  }

  // ----- evaluation in terms of rules and their positions -----

  /** Following rule `steps[0]` of list `name`, then rule `steps[1]` of the list it calls, and so on, every sub-rule
      condition holds and the plain rule at the end matches with adapter `a`. */
  ghost predicate Yields<M>(sub: RuleSets<M>, md: M, name: Name, a: Name, steps: seq<nat>)
    decreases |steps|
  {
    && |steps| > 0 && name in sub && steps[0] < |sub[name]|
    && match sub[name][steps[0]]
       case Plain(matches) => |steps| == 1 && matches(md) == Some(a)
       case SubRule(condition, target) => condition(md) && Yields(sub, md, target, a, steps[1..])
  }

  /** Rule positions in the order in which nested lists are read. */
  ghost predicate Before(s: seq<nat>, t: seq<nat>) {
    |s| > 0 && |t| > 0 && (s[0] < t[0] || (s[0] == t[0] && Before(s[1..], t[1..])))
  }

  ghost predicate StartsFrom(i: nat, s: seq<nat>) {
    |s| > 0 && i <= s[0]
  }

  /** Every adapter that list `name` yields from rule `i` on is passed over. */
  ghost predicate AllPassed<M>(sub: RuleSets<M>, md: M, name: Name, i: nat, pass: Name -> bool) {
    forall b, s | StartsFrom(i, s) && Yields(sub, md, name, b, s) :: pass(b)
  }

  /** At `steps` the list yields `a`, which is not passed over, and all it yields before is. */
  ghost predicate FirstFrom<M>(sub: RuleSets<M>, md: M, name: Name, i: nat, pass: Name -> bool, a: Name, steps: seq<nat>) {
    && StartsFrom(i, steps) && Yields(sub, md, name, a, steps) && !pass(a)
    && forall b, s | StartsFrom(i, s) && Before(s, steps) && Yields(sub, md, name, b, s) :: pass(b)
  }

  /** Rule `i` itself yields nothing that is not passed over. */
  ghost predicate RulePassed<M>(sub: RuleSets<M>, md: M, name: Name, i: nat, pass: Name -> bool) {
    forall b, s | |s| > 0 && s[0] == i && Yields(sub, md, name, b, s) :: pass(b)
  }

  lemma PassedOn<M>(sub: RuleSets<M>, md: M, name: Name, i: nat, pass: Name -> bool)
    requires RulePassed(sub, md, name, i, pass)
    ensures AllPassed(sub, md, name, i + 1, pass) ==> AllPassed(sub, md, name, i, pass)
    ensures forall a, steps | FirstFrom(sub, md, name, i + 1, pass, a, steps) :: FirstFrom(sub, md, name, i, pass, a, steps)
  {
  }

  lemma PlainRule<M>(sub: RuleSets<M>, md: M, name: Name, i: nat, pass: Name -> bool)
    requires name in sub && i < |sub[name]| && sub[name][i].Plain?
    ensures var a := sub[name][i].matches(md);
      && (a.Some? && !pass(a.value) ==> FirstFrom(sub, md, name, i, pass, a.value, [i]))
      && (a.None? || pass(a.value) ==> RulePassed(sub, md, name, i, pass))
  {
    var a := sub[name][i].matches(md);
    if a.Some? {
      assert Yields(sub, md, name, a.value, [i]);
      forall s | StartsFrom(i, s) ensures !Before(s, [i]) {
        assert [i][1..] == [];
      }
    }
  }

  lemma CalledRule<M>(sub: RuleSets<M>, md: M, name: Name, i: nat, pass: Name -> bool, a: Name, steps: seq<nat>)
    requires name in sub && i < |sub[name]| && sub[name][i].SubRule? && sub[name][i].condition(md)
    requires FirstFrom(sub, md, sub[name][i].target, 0, pass, a, steps)
    ensures FirstFrom(sub, md, name, i, pass, a, [i] + steps)
  {
    var whole := [i] + steps;
    assert whole[1..] == steps;
    forall b, s | StartsFrom(i, s) && Before(s, whole) && Yields(sub, md, name, b, s) ensures pass(b) {
      assert Yields(sub, md, sub[name][i].target, b, s[1..]) && StartsFrom(0, s[1..]);
    }
  }

  lemma CalledPassed<M>(sub: RuleSets<M>, md: M, name: Name, i: nat, pass: Name -> bool)
    requires name in sub && i < |sub[name]| && sub[name][i].SubRule?
    requires sub[name][i].condition(md) ==> AllPassed(sub, md, sub[name][i].target, 0, pass)
    ensures RulePassed(sub, md, name, i, pass)
  {
    forall b, s | |s| > 0 && s[0] == i && Yields(sub, md, name, b, s) ensures pass(b) {
      assert Yields(sub, md, sub[name][i].target, b, s[1..]) && StartsFrom(0, s[1..]);
    }
  }

  /** Evaluation gives the first adapter, in reading order, that the nested lists yield and that is not passed over. */
  lemma {:induction false} EvaluateIsFirst<M(!new)>(
      sub: RuleSets<M>, name: Name, i: nat, md: M, pass: Name -> bool, path: seq<Name>) returns (steps: seq<nat>)
    requires Calling(sub, name, path) && i <= |sub[name]|
    ensures var a := Evaluate(sub, name, i, md, pass, path);
      && (a.None? ==> AllPassed(sub, md, name, i, pass))
      && (a.Some? ==> FirstFrom(sub, md, name, i, pass, a.value, steps))
    decreases sub.Keys - Elements(path), |sub[name]| - i
  {
    steps := [i];
    if i < |sub[name]| {
      var later := EvaluateIsFirst(sub, name, i + 1, md, pass, path);
      match sub[name][i]
      case Plain(matches) =>
        PlainRule(sub, md, name, i, pass);
        if matches(md).None? || pass(matches(md).value) {
          PassedOn(sub, md, name, i, pass);
          steps := later;
        }
      case SubRule(condition, target) =>
        if condition(md) {
          CallsOn(sub, name, path, i);
          var inner := EvaluateIsFirst(sub, target, 0, md, pass, path + [name]);
          var a := Evaluate(sub, target, 0, md, pass, path + [name]);
          if a.Some? {
            CalledRule(sub, md, name, i, pass, a.value, inner);
            return [i] + inner;
          }
        }
        CalledPassed(sub, md, name, i, pass);
        PassedOn(sub, md, name, i, pass);
        steps := later;
    }
  }
}
