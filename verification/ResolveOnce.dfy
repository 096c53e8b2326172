/** The memoised address lookup that rules share while a connection is matched (the ResolveIP helper of
    resolveMetadata in tunnel/tunnel.go). Rules that look at the address either ask for a lookup first or carry the
    no-resolve option (rules/common/ipcidr.go). */
module ResolveOnce {
  import opened Options

  type Addr = nat

  /** `matches` is the verdict on the destination address, if there is one; `resolves` asks for it first. */
  datatype Rule = Rule(resolves: bool, matches: Option<Addr> -> bool)

  /** What the connection starts with: `mapped` if the hosts file gave the address; `answers` is what the first,
      second, ... lookup would yield. */
  datatype Start = Start(hasHost: bool, dstIP: Option<Addr>, mapped: bool, answers: nat -> Option<Addr>)

  /** Whether the first request for the address leads to a lookup. */
  predicate NeedsLookup(c: Start) {
    !c.mapped && c.hasHost && c.dstIP.None?
  }

  /** The address once it was asked for. */
  function Known(c: Start): Option<Addr> {
    if NeedsLookup(c) then c.answers(0) else c.dstIP
  }

  /** Whether the address has been asked for when rule `i` gives its verdict. */
  predicate Asked(rules: seq<Rule>, before: bool, i: nat)
    requires i < |rules|
  {
    before || exists j :: 0 <= j <= i && rules[j].resolves
  }

  /** The address that rule `i` sees. */
  function SeenBy(c: Start, rules: seq<Rule>, before: bool, i: nat): Option<Addr>
    requires i < |rules|
  {
    if Asked(rules, before, i) then Known(c) else c.dstIP
  }

  ghost predicate FirstHit(c: Start, rules: seq<Rule>, before: bool, i: nat) {
    && i <= |rules|
    && (i < |rules| ==> rules[i].matches(SeenBy(c, rules, before, i)))
    && forall k | 0 <= k < i :: !rules[k].matches(SeenBy(c, rules, before, k))
  }

  /** What is left when every rule sees the looked-up address from the start. */
  ghost predicate EagerHit(c: Start, rules: seq<Rule>, i: nat) {
    && i <= |rules|
    && (i < |rules| ==> rules[i].matches(Known(c)))
    && forall k | 0 <= k < i :: !rules[k].matches(Known(c))
  }

  class Connection {
    ghost const start: Start
    const hasHost: bool
    const answers: nat -> Option<Addr>
    var dstIP: Option<Addr>
    var resolved: bool
    var lookups: nat
    ghost var asked: bool

    ghost predicate Valid()
      reads this
    {
      && hasHost == start.hasHost && answers == start.answers
      && dstIP == (if asked then Known(start) else start.dstIP)
      && lookups == (if asked && NeedsLookup(start) then 1 else 0)
      && resolved == (start.mapped || lookups > 0)
    }

    constructor (c: Start)
      ensures Valid() && start == c && !asked && lookups == 0
    {
      start, hasHost, answers, dstIP, resolved := c, c.hasHost, c.answers, c.dstIP, c.mapped;
      lookups, asked := 0, false;
    }

    method ResolveIP()
      requires Valid()
      modifies this
      ensures Valid() && asked && dstIP == Known(start)
      ensures lookups == if NeedsLookup(start) then 1 else 0
      ensures lookups == 1 <==> !start.mapped && start.hasHost && start.dstIP.None?
      ensures lookups == 1 ==> dstIP == start.answers(0)
      ensures lookups == 0 ==> dstIP == start.dstIP
    {
      if !resolved && hasHost && dstIP.None? {
        var ip := answers(lookups);
        lookups := lookups + 1;
        if ip.Some? {
          dstIP := ip;
        }
        resolved := true;
      }
      asked := true;
    }

    /** One round over a rule list. Over all rounds of a connection there is at most one lookup, and a rule sees its
        result exactly if it or a rule evaluated earlier asked for it. */
    method FirstMatch(rules: seq<Rule>) returns (i: nat)
      requires Valid()
      modifies this
      ensures Valid() && lookups <= 1
      ensures FirstHit(start, rules, old(asked), i)
      ensures i < |rules| ==> (asked <==> old(asked) || exists j :: 0 <= j <= i && rules[j].resolves)
      ensures i < |rules| ==> rules[i].matches(dstIP)
      ensures !asked ==> dstIP == start.dstIP
    {
      i := 0;
      while i < |rules|
        invariant i <= |rules| && Valid()
        invariant i == 0 ==> asked == old(asked)
        invariant i > 0 ==> asked == Asked(rules, old(asked), i - 1)
        invariant forall k | 0 <= k < i :: !rules[k].matches(SeenBy(start, rules, old(asked), k))
      {
        AskedNext(rules, old(asked), i);
        if rules[i].resolves {
          ResolveIP();
        }
        if rules[i].matches(dstIP) {
          return;
        }
        i := i + 1;
      }
    }
  }

  lemma AskedNext(rules: seq<Rule>, before: bool, i: nat)
    requires i < |rules|
    ensures Asked(rules, before, i) <==> rules[i].resolves || (if i == 0 then before else Asked(rules, before, i - 1))
  {
  }

  /** Looking the address up late makes no difference, provided no rule ahead of the first request tells the
      initial address from the one looked up. */
  lemma LazyIsEager(c: Start, rules: seq<Rule>, before: bool, i: nat)
    requires forall k | 0 <= k < |rules| && !Asked(rules, before, k) :: rules[k].matches(c.dstIP) == rules[k].matches(Known(c))
    ensures FirstHit(c, rules, before, i) <==> EagerHit(c, rules, i)
  {
    forall k | 0 <= k < |rules| ensures rules[k].matches(SeenBy(c, rules, before, k)) == rules[k].matches(Known(c)) {
    }
  }

  /** The proviso matters: a single no-resolve rule can tell them apart. */
  lemma NoResolveSeesLess(c: Start)
    requires NeedsLookup(c) && c.answers(0).Some?
    ensures exists rules: seq<Rule> :: FirstHit(c, rules, false, 1) && EagerHit(c, rules, 0)
  {
    var rules := [Rule(false, (a: Option<Addr>) => a.Some?)];
    assert !Asked(rules, false, 0);
    assert rules[0].matches(Known(c)) && !rules[0].matches(c.dstIP);
    assert FirstHit(c, rules, false, 1) && EagerHit(c, rules, 0);
  }
}
