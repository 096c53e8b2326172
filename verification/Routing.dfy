/** Choosing a proxy for a connection: match and getRules (tunnel/tunnel.go) and the metadata step of a
    rematch proxy (adapter/outbound/rematch.go). */
module Routing {
  import opened Graph
  import opened Options
  import opened GroupSort
  import opened SubRules

  type Id = nat

  datatype Kind = Pass | PassRule | Rematch | Other

  /** The fields of the connection that a rematch overwrites, its network, and everything else. */
  datatype Metadata = Metadata(udp: bool, rematchName: Name, specialRules: Name, rest: nat)

  /** What a rematch proxy writes; an absent target leaves the field alone. */
  datatype Targets = Targets(rematchName: Option<Name>, subRule: Option<Name>)

  /** The live configuration. `groupOf` tells from which of the sorted groups an adapter was built, and
      `unwrap` which member a group currently selects for a connection. */
  datatype Router = Router(
    rules: seq<Rule<Metadata>>,
    subRules: RuleSets<Metadata>,
    proxies: map<Name, Id>,
    groups: seq<Group>,
    adapters: set<Id>,
    groupOf: Id -> Option<nat>,
    name: Id -> Name,
    kind: Id -> Kind,
    supportUDP: Id -> bool,
    targets: Id -> Targets,
    unwrap: (Id, Metadata) -> Option<Id>)

  const DIRECT := Name("DIRECT")
  const PASS_RULE := Name("PASS-RULE")

  /** A group only ever selects one of its members: a provider's proxy or a group that it lists. */
  ghost predicate SelectsMember(r: Router, id: Id, q: Id) {
    && r.groupOf(id).Some? && r.groupOf(id).value < |r.groups|
    && (r.groupOf(q).Some? ==>
          && r.groupOf(q).value < |r.groups|
          && r.groups[r.groupOf(q).value].name in r.groups[r.groupOf(id).value].proxies)
  }

  /** What a configuration that passed the checks of GroupSort and SubRules provides. */
  ghost predicate WellBuilt(r: Router) {
    && DependencyOrdered(r.groups)
    && Verified(r.subRules)
    && r.proxies.Values <= r.adapters
    && forall id, md {:trigger r.unwrap(id, md)} | id in r.adapters && r.unwrap(id, md).Some? ::
         r.unwrap(id, md).value in r.adapters && SelectsMember(r, id, r.unwrap(id, md).value)
  }

  function Level(r: Router, id: Id): nat {
    match r.groupOf(id)
    case None => 0
    case Some(i) => i + 1
  }

  lemma UnwrapDescends(r: Router, id: Id, md: Metadata)
    requires WellBuilt(r) && id in r.adapters && r.unwrap(id, md).Some?
    ensures r.unwrap(id, md).value in r.adapters
    ensures Level(r, r.unwrap(id, md).value) < Level(r, id)
  {
    assert SelectsMember(r, id, r.unwrap(id, md).value);
  }

  // ----- one rule -----

  datatype Fate = Passed | Rematched(proxy: Id) | Kept

  /** The first PASS or REMATCH adapter on the unwrap chain decides. */
  function FateOf(r: Router, id: Id, md: Metadata): (f: Fate)
    requires WellBuilt(r) && id in r.adapters
    ensures f.Rematched? ==> f.proxy in r.adapters
    decreases Level(r, id)
  {
    match r.kind(id)
    case Pass => Passed
    case Rematch => Rematched(id)
    case _ =>
      if r.unwrap(id, md).None? then Kept
      else UnwrapDescends(r, id, md); FateOf(r, r.unwrap(id, md).value, md)
  }

  predicate HasPassRule(r: Router, id: Id, md: Metadata)
    requires WellBuilt(r) && id in r.adapters
    decreases Level(r, id)
  {
    r.kind(id) == PassRule
    || (r.unwrap(id, md).Some? && (UnwrapDescends(r, id, md); HasPassRule(r, r.unwrap(id, md).value, md)))
  }

  /** The adapters that a sub-rule list passes over. */
  function PassedOver(r: Router, md: Metadata): set<Name>
    requires WellBuilt(r)
  {
    {PASS_RULE} + set a | a in r.proxies && HasPassRule(r, r.proxies[a], md)
  }

  function RuleOutcome(r: Router, rule: Rule<Metadata>, md: Metadata): Option<Name>
    requires WellBuilt(r)
  {
    match rule
    case Plain(matches) => matches(md)
    case SubRule(condition, target) =>
      if condition(md) && target in r.subRules then
        var passed := PassedOver(r, md);
        Evaluate(r.subRules, target, 0, md, (a: Name) => a in passed, [])
      else None
  }

  /** A rule settles the round when it yields a known adapter whose chain meets no PASS, and which carries
      UDP if the flow is UDP; a chain that meets a REMATCH settles it in any case. */
  predicate Settles(r: Router, rule: Rule<Metadata>, md: Metadata)
    requires WellBuilt(r)
  {
    var a := RuleOutcome(r, rule, md);
    && a.Some? && a.value in r.proxies
    && var fate := FateOf(r, r.proxies[a.value], md);
       fate.Rematched? || (fate.Kept? && (md.udp ==> r.supportUDP(r.proxies[a.value])))
  }

  // ----- unwrap chains -----

  /** `c` starts at `id`, goes on to what each adapter unwraps to, and ends where nothing is unwrapped. */
  ghost predicate UnwrapChain(r: Router, id: Id, md: Metadata, c: seq<Id>) {
    && |c| > 0 && c[0] == id
    && (forall i, j | 0 <= i && j == i + 1 && j < |c| :: r.unwrap(c[i], md) == Some(c[j]))
    && r.unwrap(c[|c| - 1], md).None?
  }

  predicate Marked(k: Kind) {
    k.Pass? || k.Rematch?
  }

  /** Position `i` holds the first PASS or REMATCH adapter. */
  ghost predicate FirstMark(r: Router, c: seq<Id>, i: nat) {
    i < |c| && Marked(r.kind(c[i])) && forall j | 0 <= j < i :: !Marked(r.kind(c[j]))
  }

  ghost predicate Unmarked(r: Router, c: seq<Id>) {
    forall j | 0 <= j < |c| :: !Marked(r.kind(c[j]))
  }

  ghost predicate FirstIs(r: Router, c: seq<Id>, k: Kind) {
    exists i: nat :: FirstMark(r, c, i) && r.kind(c[i]) == k
  }

  ghost predicate FirstRematch(r: Router, c: seq<Id>, q: Id) {
    exists i: nat :: FirstMark(r, c, i) && r.kind(c[i]).Rematch? && c[i] == q
  }

  lemma ChainTail(r: Router, id: Id, md: Metadata, c: seq<Id>)
    requires UnwrapChain(r, id, md, c)
    ensures r.unwrap(id, md).None? <==> |c| == 1
    ensures |c| > 1 ==> r.unwrap(id, md) == Some(c[1]) && UnwrapChain(r, c[1], md, c[1..])
  {
    if |c| > 1 {
      assert r.unwrap(c[0], md) == Some(c[1]);
    }
  }

  /** Every adapter of a well-built router has an unwrap chain. */
  lemma {:induction false} ChainExists(r: Router, id: Id, md: Metadata) returns (c: seq<Id>)
    requires WellBuilt(r) && id in r.adapters
    ensures UnwrapChain(r, id, md, c)
    decreases Level(r, id)
  {
    c := [id];
    if r.unwrap(id, md).Some? {
      UnwrapDescends(r, id, md);
      var rest := ChainExists(r, r.unwrap(id, md).value, md);
      c := [id] + rest;
    }
  }

  lemma FirstMarkShifts(r: Router, c: seq<Id>)
    requires |c| > 1 && !Marked(r.kind(c[0]))
    ensures Unmarked(r, c) <==> Unmarked(r, c[1..])
    ensures forall k: Kind :: FirstIs(r, c, k) <==> FirstIs(r, c[1..], k)
    ensures forall q: Id :: FirstRematch(r, c, q) <==> FirstRematch(r, c[1..], q)
  {
    assert forall i: nat :: FirstMark(r, c[1..], i) <==> FirstMark(r, c, i + 1) by {
      forall i: nat ensures FirstMark(r, c[1..], i) <==> FirstMark(r, c, i + 1) {
        ShiftMark(r, c, i);
      }
    }
    assert !FirstMark(r, c, 0);
    forall k: Kind ensures FirstIs(r, c, k) <==> FirstIs(r, c[1..], k) {
      if FirstIs(r, c, k) {
        var i: nat :| FirstMark(r, c, i) && r.kind(c[i]) == k;
        assert FirstMark(r, c[1..], i - 1);
      }
      if FirstIs(r, c[1..], k) {
        var i: nat :| FirstMark(r, c[1..], i) && r.kind(c[1..][i]) == k;
        assert FirstMark(r, c, i + 1);
      }
    }
    forall q: Id ensures FirstRematch(r, c, q) <==> FirstRematch(r, c[1..], q) {
      if FirstRematch(r, c, q) {
        var i: nat :| FirstMark(r, c, i) && r.kind(c[i]).Rematch? && c[i] == q;
        assert FirstMark(r, c[1..], i - 1);
      }
      if FirstRematch(r, c[1..], q) {
        var i: nat :| FirstMark(r, c[1..], i) && r.kind(c[1..][i]).Rematch? && c[1..][i] == q;
        assert FirstMark(r, c, i + 1);
      }
    }
    assert forall j | 0 <= j < |c[1..]| :: c[1..][j] == c[j + 1];
  }

  lemma HeadDecides(r: Router, c: seq<Id>)
    requires |c| > 0 && Marked(r.kind(c[0]))
    ensures !Unmarked(r, c)
    ensures forall k: Kind :: FirstIs(r, c, k) <==> r.kind(c[0]) == k
    ensures forall q: Id :: FirstRematch(r, c, q) <==> r.kind(c[0]).Rematch? && c[0] == q
  {
    assert FirstMark(r, c, 0);
    assert forall i: nat | FirstMark(r, c, i) :: i == 0;
  }

  lemma ShiftMark(r: Router, c: seq<Id>, i: nat)
    requires |c| > 1 && !Marked(r.kind(c[0]))
    ensures FirstMark(r, c[1..], i) <==> FirstMark(r, c, i + 1)
  {
    if i + 1 < |c| {
      assert c[1..][i] == c[i + 1];
      assert forall j | 0 <= j < i :: c[1..][j] == c[j + 1];
      assert forall j | 0 < j < i + 1 :: c[j] == c[1..][j - 1];
    }
  }

  /** The fate of an adapter in terms of the kinds on its chain alone: the first PASS or REMATCH decides. */
  lemma {:induction false} FateByKinds(r: Router, id: Id, md: Metadata, c: seq<Id>)
    requires WellBuilt(r) && id in r.adapters && UnwrapChain(r, id, md, c)
    ensures FateOf(r, id, md).Passed? <==> FirstIs(r, c, Pass)
    ensures FateOf(r, id, md).Kept? <==> Unmarked(r, c)
    ensures forall q: Id :: FateOf(r, id, md) == Rematched(q) <==> FirstRematch(r, c, q)
    decreases Level(r, id)
  {
    ChainTail(r, id, md, c);
    if Marked(r.kind(id)) {
      HeadDecides(r, c);
    } else if |c| > 1 {
      UnwrapDescends(r, id, md);
      FateByKinds(r, c[1], md, c[1..]);
      FirstMarkShifts(r, c);
    } else {
      assert forall i: nat :: !FirstMark(r, c, i);
    }
  }

  /** CheckPassRule holds exactly if a PASS-RULE adapter is somewhere on the chain. */
  lemma {:induction false} PassRuleByKinds(r: Router, id: Id, md: Metadata, c: seq<Id>)
    requires WellBuilt(r) && id in r.adapters && UnwrapChain(r, id, md, c)
    ensures HasPassRule(r, id, md) <==> exists i :: 0 <= i < |c| && r.kind(c[i]).PassRule?
    decreases Level(r, id)
  {
    ChainTail(r, id, md, c);
    assert r.kind(c[0]).PassRule? ==> HasPassRule(r, id, md);
    if |c| > 1 {
      UnwrapDescends(r, id, md);
      PassRuleByKinds(r, c[1], md, c[1..]);
      if i :| 0 <= i < |c[1..]| && r.kind(c[1..][i]).PassRule? {
        assert r.kind(c[i + 1]).PassRule?;
      }
      if i :| 1 <= i < |c| && r.kind(c[i]).PassRule? {
        assert r.kind(c[1..][i - 1]).PassRule?;
      }
    }
  }

  // ----- what a rule yields, and when it is skipped -----

  /** A sub-rule list passes over PASS-RULE and every known adapter with a PASS-RULE adapter on its chain. */
  ghost predicate Skips(r: Router, md: Metadata, a: Name) {
    || a == Name("PASS-RULE")
    || (a in r.proxies && exists c, i :: UnwrapChain(r, r.proxies[a], md, c) && 0 <= i < |c| && r.kind(c[i]).PassRule?)
  }

  lemma PassedOverIsSkips(r: Router, md: Metadata, a: Name)
    requires WellBuilt(r)
    ensures a in PassedOver(r, md) <==> Skips(r, md, a)
  {
    if a in r.proxies {
      var c := ChainExists(r, r.proxies[a], md);
      PassRuleByKinds(r, r.proxies[a], md, c);
      if c', i :| UnwrapChain(r, r.proxies[a], md, c') && 0 <= i < |c'| && r.kind(c'[i]).PassRule? {
        PassRuleByKinds(r, r.proxies[a], md, c');
      }
    }
  }

  /** The adapter that the sub-rule list `name` comes to: the first it yields, in reading order, that is not skipped. */
  ghost predicate FirstUnskipped(r: Router, md: Metadata, name: Name, a: Name, steps: seq<nat>) {
    && Yields(r.subRules, md, name, a, steps) && !Skips(r, md, a)
    && forall b, s | Before(s, steps) && Yields(r.subRules, md, name, b, s) :: Skips(r, md, b)
  }

  ghost predicate AllSkipped(r: Router, md: Metadata, name: Name) {
    forall b, s | Yields(r.subRules, md, name, b, s) :: Skips(r, md, b)
  }

  /** A plain rule yields what it matches with; a matching sub-rule yields the first adapter of its nested lists that
      is not skipped, if there is one; everything else yields nothing. */
  lemma OutcomeOfRule(r: Router, rule: Rule<Metadata>, md: Metadata) returns (steps: seq<nat>)
    requires WellBuilt(r)
    ensures rule.Plain? ==> RuleOutcome(r, rule, md) == rule.matches(md)
    ensures rule.SubRule? && (!rule.condition(md) || rule.target !in r.subRules) ==> RuleOutcome(r, rule, md).None?
    ensures rule.SubRule? && rule.condition(md) && rule.target in r.subRules ==>
      var a := RuleOutcome(r, rule, md);
      && (a.None? ==> AllSkipped(r, md, rule.target))
      && (a.Some? ==> FirstUnskipped(r, md, rule.target, a.value, steps))
  {
    steps := [];
    if rule.SubRule? && rule.condition(md) && rule.target in r.subRules {
      var passed := PassedOver(r, md);
      var pass := (a: Name) => a in passed;
      steps := EvaluateIsFirst(r.subRules, rule.target, 0, md, pass, []);
      forall b: Name ensures pass(b) <==> Skips(r, md, b) {
        PassedOverIsSkips(r, md, b);
      }
      assert forall b, s | Yields(r.subRules, md, rule.target, b, s) :: StartsFrom(0, s);
    }
  }

  /** The chain of the adapter that `a` names. */
  ghost predicate ChainOf(r: Router, a: Name, md: Metadata, c: seq<Id>) {
    a in r.proxies && UnwrapChain(r, r.proxies[a], md, c)
  }

  /** Why a rule does not decide a round: it yields no known adapter, or one whose chain meets PASS before any REMATCH,
      or one whose chain meets neither and that cannot carry a UDP flow. */
  ghost predicate Passes(r: Router, rule: Rule<Metadata>, md: Metadata)
    requires WellBuilt(r)
  {
    var a := RuleOutcome(r, rule, md);
    || a.None? || a.value !in r.proxies
    || exists c :: ChainOf(r, a.value, md, c)
         && (FirstIs(r, c, Pass) || (Unmarked(r, c) && md.udp && !r.supportUDP(r.proxies[a.value])))
  }

  lemma SettlesUnlessPasses(r: Router, rule: Rule<Metadata>, md: Metadata)
    requires WellBuilt(r)
    ensures Settles(r, rule, md) <==> !Passes(r, rule, md)
  {
    var a := RuleOutcome(r, rule, md);
    if a.Some? && a.value in r.proxies {
      var c := ChainExists(r, r.proxies[a.value], md);
      assert ChainOf(r, a.value, md, c);
      FateByKinds(r, r.proxies[a.value], md, c);
      forall c' | ChainOf(r, a.value, md, c') ensures c' == c {
        ChainUnique(r, r.proxies[a.value], md, c, c');
      }
    }
  }

  lemma {:induction false} ChainUnique(r: Router, id: Id, md: Metadata, c: seq<Id>, d: seq<Id>)
    requires UnwrapChain(r, id, md, c) && UnwrapChain(r, id, md, d)
    ensures c == d
    decreases |c|
  {
    ChainTail(r, id, md, c);
    ChainTail(r, id, md, d);
    if |c| > 1 {
      ChainUnique(r, c[1], md, c[1..], d[1..]);
      assert c == [c[0]] + c[1..] && d == [d[0]] + d[1..];
    }
  }

  // ----- one round after the other -----

  function GetRules(r: Router, md: Metadata): seq<Rule<Metadata>> {
    if md.specialRules in r.subRules then r.subRules[md.specialRules] else r.rules
  }

  function Applied(md: Metadata, t: Targets): Metadata {
    var named := if t.rematchName.Some? then md.(rematchName := t.rematchName.value) else md;
    if t.subRule.Some? then named.(specialRules := t.subRule.value) else named
  }

  ghost function FirstSettling(r: Router, rules: seq<Rule<Metadata>>, md: Metadata, i: nat): (k: nat)
    requires WellBuilt(r) && i <= |rules|
    ensures i <= k <= |rules|
    ensures k < |rules| ==> Settles(r, rules[k], md)
    ensures forall j | i <= j < k :: !Settles(r, rules[j], md)
    decreases |rules| - i
  {
    if i == |rules| || Settles(r, rules[i], md) then i else FirstSettling(r, rules, md, i + 1)
  }

  ghost function RematchNames(r: Router): set<Name> {
    set id | id in r.adapters :: r.name(id)
  }

  /** The adapter chosen, the position of the deciding rule in the list in force, and the metadata at the end. */
  datatype Decision = Decision(adapter: Option<Id>, rule: Option<nat>, md: Metadata)

  /** The specification: take the first rule that settles the round; restart after a rematch, unless that
      rematch proxy has been taken before. */
  ghost function Route(r: Router, md: Metadata, chain: seq<Name>): Decision
    requires WellBuilt(r)
    decreases RematchNames(r) - Elements(chain)
  {
    var rules := GetRules(r, md);
    var k := FirstSettling(r, rules, md, 0);
    if k == |rules| then
      Decision(if DIRECT in r.proxies then Some(r.proxies[DIRECT]) else None, None, md)
    else
      var id := r.proxies[RuleOutcome(r, rules[k], md).value];
      match FateOf(r, id, md)
      case Rematched(q) =>
        if r.name(q) in chain then Decision(Some(q), Some(k), md)
        else
          assert r.name(q) in RematchNames(r) - Elements(chain) && r.name(q) !in RematchNames(r) - Elements(chain + [r.name(q)]);
          Route(r, Applied(md, r.targets(q)), chain + [r.name(q)])
      case _ => Decision(Some(id), Some(k), md)
  }

  /** The metadata of a connection, overwritten in place between rounds. */
  class Connection {
    const udp: bool
    const rest: nat
    var rematchName: Name
    var specialRules: Name

    constructor (md: Metadata)
      ensures View() == md
    {
      udp, rest, rematchName, specialRules := md.udp, md.rest, md.rematchName, md.specialRules;
    }

    function View(): Metadata
      reads this
    {
      Metadata(udp, rematchName, specialRules, rest)
    }

    method ApplyMetadata(t: Targets)
      modifies this
      ensures View() == Applied(old(View()), t)
    {
      if t.rematchName.Some? {
        rematchName := t.rematchName.value;
      }
      if t.subRule.Some? {
        specialRules := t.subRule.value;
      }
    }
  }

  /** The unwrap loop over one matched adapter. */
  method Nested(r: Router, adapter: Id, md: Metadata) returns (fate: Fate)
    requires WellBuilt(r) && adapter in r.adapters
    ensures fate == FateOf(r, adapter, md)
  {
    var current := Some(adapter);
    while current.Some?
      invariant current.Some? ==> current.value in r.adapters && FateOf(r, current.value, md) == FateOf(r, adapter, md)
      invariant current.None? ==> FateOf(r, adapter, md) == Kept
      decreases current.Some?, if current.Some? then Level(r, current.value) else 0
    {
      if r.kind(current.value) == Pass {
        return Passed;
      }
      if r.kind(current.value) == Rematch {
        return Rematched(current.value);
      }
      if r.unwrap(current.value, md).Some? {
        UnwrapDescends(r, current.value, md);
      }
      current := r.unwrap(current.value, md);
    }
    return Kept;
  }

  /** The loop over the rules in force: the position of the deciding rule, its adapter and what became of it. */
  method FirstMatch(r: Router, md: Metadata, rules: seq<Rule<Metadata>>) returns (i: nat, id: Id, fate: Fate)
    requires WellBuilt(r)
    ensures i == FirstSettling(r, rules, md, 0)
    ensures i < |rules| ==> id == r.proxies[RuleOutcome(r, rules[i], md).value] && fate == FateOf(r, id, md)
  {
    i, id, fate := 0, 0, Passed;
    while i < |rules|
      invariant i <= |rules|
      invariant FirstSettling(r, rules, md, 0) == FirstSettling(r, rules, md, i)
    {
      var ada := RuleOutcome(r, rules[i], md);
      if ada.Some? && ada.value in r.proxies {
        id := r.proxies[ada.value];
        fate := Nested(r, id, md);
        if fate.Rematched? || (fate.Kept? && !(md.udp && !r.supportUDP(id))) {
          return;
        }
      }
      i := i + 1;
    }
  }

  method Match(r: Router, metadata: Connection) returns (adapter: Option<Id>, rule: Option<nat>)
    requires WellBuilt(r)
    modifies metadata
    ensures Decision(adapter, rule, metadata.View()) == Route(r, old(metadata.View()), [])
  {
    var rematchChain: seq<Name> := [];
    while true
      invariant Route(r, metadata.View(), rematchChain) == Route(r, old(metadata.View()), [])
      decreases RematchNames(r) - Elements(rematchChain)
    {
      var md := metadata.View();
      var rules := GetRules(r, md);
      var i, id, fate := FirstMatch(r, md, rules);
      if i == |rules| {
        return if DIRECT in r.proxies then Some(r.proxies[DIRECT]) else None, None;
      }
      if !fate.Rematched? {
        return Some(id), Some(i);
      }
      var name := r.name(fate.proxy);
      if name in rematchChain {
        return Some(fate.proxy), Some(i);
      }
      assert name in RematchNames(r) - Elements(rematchChain) && name !in RematchNames(r) - Elements(rematchChain + [name]);
      rematchChain := rematchChain + [name];
      metadata.ApplyMetadata(r.targets(fate.proxy));
    }
  }

  // ----- what the specification gives a caller -----

  ghost function AppliedAll(r: Router, md: Metadata, taken: seq<Id>): Metadata
    decreases |taken|
  {
    if taken == [] then md else AppliedAll(r, Applied(md, r.targets(taken[0])), taken[1..])
  }

  ghost function NamesOf(r: Router, taken: seq<Id>): (names: seq<Name>)
    ensures |names| == |taken| && forall i | 0 <= i < |taken| :: names[i] == r.name(taken[i])
  {
    seq(|taken|, i requires 0 <= i < |taken| => r.name(taken[i]))
  }

  /** The list in force: the special one whenever it exists. */
  ghost predicate InForce(r: Router, md: Metadata, rules: seq<Rule<Metadata>>) {
    rules == if md.specialRules in r.subRules then r.subRules[md.specialRules] else r.rules
  }

  /** `rules[k]` yields the adapter named `a` with the chain `c`, and every rule before it is passed. */
  ghost predicate FirstAt(r: Router, rules: seq<Rule<Metadata>>, md: Metadata, k: nat, a: Name, c: seq<Id>)
    requires WellBuilt(r)
  {
    && k < |rules| && RuleOutcome(r, rules[k], md) == Some(a) && ChainOf(r, a, md, c)
    && forall j | 0 <= j < k :: Passes(r, rules[j], md)
  }

  /** `d` is the first choice under its own metadata, in terms of the kinds on unwrap chains: no PASS or REMATCH is on
      the chosen chain and it carries UDP if it must, or it ends on a rematch proxy whose name was taken before; with
      no rule left it is DIRECT. */
  ghost predicate FirstChoice(r: Router, d: Decision, taken: seq<Name>)
    requires WellBuilt(r)
  {
    exists rules :: InForce(r, d.md, rules) &&
      match d.rule
      case None =>
        && (forall j | 0 <= j < |rules| :: Passes(r, rules[j], d.md))
        && d.adapter == if Name("DIRECT") in r.proxies then Some(r.proxies[Name("DIRECT")]) else None
      case Some(k) => exists a, c :: FirstAt(r, rules, d.md, k, a, c) && ChosenFrom(r, d, taken, a, c)
  }

  ghost predicate ChosenFrom(r: Router, d: Decision, taken: seq<Name>, a: Name, c: seq<Id>) {
    && d.adapter.Some? && a in r.proxies
    && ((Unmarked(r, c) && d.adapter.value == r.proxies[a] && (d.md.udp ==> r.supportUDP(d.adapter.value)))
        || (FirstRematch(r, c, d.adapter.value) && r.name(d.adapter.value) in taken))
  }

  /** Under `md` the first rule that is not passed meets the rematch proxy `q` on its chain, and no PASS before it. */
  ghost predicate Rematches(r: Router, md: Metadata, q: Id)
    requires WellBuilt(r)
  {
    exists rules, k, a, c :: InForce(r, md, rules) && FirstAt(r, rules, md, k, a, c) && FirstRematch(r, c, q)
  }

  /** What the first rule that settles a round yields, with its chain. */
  lemma FirstSettlingAt(r: Router, md: Metadata) returns (rules: seq<Rule<Metadata>>, k: nat, a: Name, c: seq<Id>)
    requires WellBuilt(r)
    ensures rules == GetRules(r, md) && InForce(r, md, rules) && k == FirstSettling(r, rules, md, 0)
    ensures forall j | 0 <= j < k :: Passes(r, rules[j], md)
    ensures k < |rules| ==> FirstAt(r, rules, md, k, a, c)
    ensures k < |rules| ==>
      var fate := FateOf(r, r.proxies[a], md);
      && (fate.Kept? ==> Unmarked(r, c) && (md.udp ==> r.supportUDP(r.proxies[a])))
      && (fate.Rematched? ==> FirstRematch(r, c, fate.proxy)) && !fate.Passed?
  {
    rules := GetRules(r, md);
    k := FirstSettling(r, rules, md, 0);
    a, c := DIRECT, [];
    forall j | 0 <= j < k ensures Passes(r, rules[j], md) {
      SettlesUnlessPasses(r, rules[j], md);
    }
    if k < |rules| {
      a := RuleOutcome(r, rules[k], md).value;
      c := ChainExists(r, r.proxies[a], md);
      FateByKinds(r, r.proxies[a], md, c);
      assert ChainOf(r, a, md, c);
    }
  }

  /** Each rematch proxy in `taken` is what the first rule not passed meets under the metadata its predecessors left. */
  ghost predicate Chain(r: Router, md: Metadata, taken: seq<Id>)
    requires WellBuilt(r)
    decreases |taken|
  {
    taken == [] || (Rematches(r, md, taken[0]) && Chain(r, Applied(md, r.targets(taken[0])), taken[1..]))
  }

  lemma {:induction false} ChainAt(r: Router, md: Metadata, taken: seq<Id>, i: nat)
    requires WellBuilt(r) && Chain(r, md, taken) && i < |taken|
    ensures Rematches(r, AppliedAll(r, md, taken[..i]), taken[i])
    decreases |taken|
  {
    if i > 0 {
      assert taken[..i][1..] == taken[1..][..i - 1];
      ChainAt(r, Applied(md, r.targets(taken[0])), taken[1..], i - 1);
    }
  }

  /** `i` is the last of the proxies taken that targets the sub-rule list, or the rematch name. */
  ghost predicate LastSubRule(r: Router, taken: seq<Id>, i: nat) {
    i < |taken| && r.targets(taken[i]).subRule.Some? && forall j | i < j < |taken| :: r.targets(taken[j]).subRule.None?
  }

  ghost predicate LastRematchName(r: Router, taken: seq<Id>, i: nat) {
    i < |taken| && r.targets(taken[i]).rematchName.Some? && forall j | i < j < |taken| :: r.targets(taken[j]).rematchName.None?
  }

  /** After any chain of rematch proxies each field holds what the last proxy that targets it wrote, or what it held
      at first; nothing else has changed. */
  lemma {:induction false} LastTargetStands(r: Router, md: Metadata, taken: seq<Id>)
    ensures var a := AppliedAll(r, md, taken);
      && a.udp == md.udp && a.rest == md.rest
      && ((forall id | id in taken :: r.targets(id).subRule.None?) ==> a.specialRules == md.specialRules)
      && ((forall id | id in taken :: r.targets(id).rematchName.None?) ==> a.rematchName == md.rematchName)
      && (forall i: nat | LastSubRule(r, taken, i) :: a.specialRules == r.targets(taken[i]).subRule.value)
      && (forall i: nat | LastRematchName(r, taken, i) :: a.rematchName == r.targets(taken[i]).rematchName.value)
    decreases |taken|
  {
    if taken != [] {
      var next, later := Applied(md, r.targets(taken[0])), taken[1..];
      LastTargetStands(r, next, later);
      forall i: nat | LastSubRule(r, taken, i)
        ensures AppliedAll(r, md, taken).specialRules == r.targets(taken[i]).subRule.value
      {
        if i > 0 {
          assert LastSubRule(r, later, i - 1);
        }
      }
      forall i: nat | LastRematchName(r, taken, i)
        ensures AppliedAll(r, md, taken).rematchName == r.targets(taken[i]).rematchName.value
      {
        if i > 0 {
          assert LastRematchName(r, later, i - 1);
        }
      }
    }
  }

  lemma NamesOfCons(r: Router, q: Id, later: seq<Id>, chain: seq<Name>)
    ensures chain + NamesOf(r, [q] + later) == (chain + [r.name(q)]) + NamesOf(r, later)
    ensures Distinct(NamesOf(r, later)) && (forall id | id in later :: r.name(id) != r.name(q)) ==> Distinct(NamesOf(r, [q] + later))
  {
  }

  /** The decision is the first choice under the final metadata, which was reached through rematch proxies
      of distinct names, none of them in `chain`, each met by the first rule of its round that is not passed. */
  lemma {:induction false} RouteIsFirstChoice(r: Router, md: Metadata, chain: seq<Name>) returns (taken: seq<Id>)
    requires WellBuilt(r)
    ensures forall id | id in taken :: id in r.adapters && r.name(id) !in chain
    ensures Distinct(NamesOf(r, taken)) && Chain(r, md, taken)
    ensures Route(r, md, chain).md == AppliedAll(r, md, taken)
    ensures FirstChoice(r, Route(r, md, chain), chain + NamesOf(r, taken))
    decreases RematchNames(r) - Elements(chain)
  {
    var rules, k, a, c := FirstSettlingAt(r, md);
    taken := [];
    if k < |rules| {
      var fate := FateOf(r, r.proxies[a], md);
      if fate.Rematched? && r.name(fate.proxy) !in chain {
        var q := fate.proxy;
        var next := chain + [r.name(q)];
        assert r.name(q) in RematchNames(r) - Elements(chain) && r.name(q) !in RematchNames(r) - Elements(next);
        var later := RouteIsFirstChoice(r, Applied(md, r.targets(q)), next);
        taken := [q] + later;
        assert taken[1..] == later;
        assert Rematches(r, md, q);
        NamesOfCons(r, q, later, chain);
        assert Route(r, md, chain) == Route(r, Applied(md, r.targets(q)), next);
      } else {
        assert ChosenFrom(r, Route(r, md, chain), chain + NamesOf(r, []), a, c);
      }
    }
  }
}
