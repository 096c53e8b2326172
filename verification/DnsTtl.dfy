/** Time-to-live arithmetic of cached DNS answers (dns/util.go, dns/resolver.go), in wrapping 32-bit words. */
module DnsTtl {
  const WORD: nat := 0x1_0000_0000
  const SECOND: nat := 1_000_000_000

  type uint32 = x: nat | x < WORD

  const TYPE_TXT := 16
  const TYPE_OPT := 41
  const SERVER_FAILURE := 2
  const SERVER_FAILURE_CACHE_TTL: uint32 := 5

  datatype Record = Record(rrtype: nat, data: nat, ttl: uint32)

  datatype Question = Question(name: string, qtype: nat, qclass: nat)

  datatype Message = Message(rcode: nat, answer: seq<Record>, ns: seq<Record>, extra: seq<Record>)

  function Sub(a: uint32, b: uint32): uint32 {
    if a >= b then a - b else a + WORD - b
  }

  function Clamp(value: uint32, low: uint32, high: uint32): uint32 {
    if value < low then low else if value > high then high else value
  }

  function AtLeastOne(x: int): int {
    if x < 1 then 1 else x
  }

  // ----- the least TTL of a section -----

  function MinTTL(records: seq<Record>): uint32 {
    if |records| == 0 then 0
    else
      var last := records[|records| - 1].ttl;
      if |records| == 1 then last
      else
        var rest := MinTTL(records[..|records| - 1]);
        if last < rest then last else rest
  }

  lemma {:induction false} MinTTLIsLeast(records: seq<Record>, i: nat)
    requires i < |records|
    ensures MinTTL(records) <= records[i].ttl
    decreases |records|
  {
    var n := |records| - 1;
    if i < n {
      MinTTLIsLeast(records[..n], i);
    }
  }

  lemma {:induction false} MinTTLIsTaken(records: seq<Record>) returns (i: nat)
    requires records != []
    ensures i < |records| && records[i].ttl == MinTTL(records)
    decreases |records|
  {
    var n := |records| - 1;
    i := n;
    if n > 0 && MinTTL(records[..n]) <= records[n].ttl {
      i := MinTTLIsTaken(records[..n]);
    }
  }

  /** The least element and nothing else. */
  lemma MinTTLUnique(records: seq<Record>, k: nat)
    requires k < |records| && forall i | 0 <= i < |records| :: records[k].ttl <= records[i].ttl
    ensures MinTTL(records) == records[k].ttl
  {
    var i := MinTTLIsTaken(records);
    MinTTLIsLeast(records, k);
  }

  method MinimalTTL(records: array<Record>) returns (ttl: uint32)
    ensures ttl == MinTTL(records[..])
  {
    if records.Length == 0 {
      return 0;
    }
    ttl := records[0].ttl;
    for i := 1 to records.Length
      invariant ttl == MinTTL(records[..i])
    {
      assert records[..i + 1][..i] == records[..i];
      if records[i].ttl < ttl {
        ttl := records[i].ttl;
      }
    }
    assert records[..records.Length] == records[..];
  }

  // ----- updateTTL and setMsgTTL, in place -----

  function Shifted(x: uint32, delta: uint32): uint32 {
    Clamp(Sub(x, delta), 1, x)
  }

  function Updated(records: seq<Record>, ttl: uint32): (r: seq<Record>) {
    var delta := Sub(MinTTL(records), ttl);
    seq(|records|, i requires 0 <= i < |records| => records[i].(ttl := Shifted(records[i].ttl, delta)))
  }

  method UpdateTTL(records: array<Record>, ttl: uint32)
    modifies records
    ensures records[..] == Updated(old(records[..]), ttl)
  {
    if records.Length == 0 {
      return;
    }
    var least := MinimalTTL(records);
    var delta := Sub(least, ttl);
    for i := 0 to records.Length
      invariant forall k | 0 <= k < i :: records[k] == old(records[k]).(ttl := Shifted(old(records[k]).ttl, delta))
      invariant forall k | i <= k < records.Length :: records[k] == old(records[k])
    {
      records[i] := records[i].(ttl := Shifted(records[i].ttl, delta));
    }
  }

  function WithTTL(records: seq<Record>, ttl: uint32, skipOPT: bool): seq<Record> {
    seq(|records|, i requires 0 <= i < |records| =>
      if skipOPT && records[i].rrtype == TYPE_OPT then records[i] else records[i].(ttl := ttl))
  }

  method SetTTL(records: array<Record>, ttl: uint32, skipOPT: bool)
    modifies records
    ensures records[..] == WithTTL(old(records[..]), ttl, skipOPT)
  {
    for i := 0 to records.Length
      invariant forall k | 0 <= k < i :: records[k] == WithTTL(old(records[..]), ttl, skipOPT)[k]
      invariant forall k | i <= k < records.Length :: records[k] == old(records[k])
    {
      if !(skipOPT && records[i].rrtype == TYPE_OPT) {
        records[i] := records[i].(ttl := ttl);
      }
    }
  }

  /** What is left of `x` when the least TTL of its section is to become `ttl`, in unbounded arithmetic. */
  function Kept(x: uint32, least: uint32, ttl: uint32): int {
    var y := x - least + ttl;
    if ttl <= least then AtLeastOne(y)
    else if y < WORD then x
    else AtLeastOne(y - WORD)
  }

  lemma ShiftedIsKept(x: uint32, least: uint32, ttl: uint32)
    requires least <= x
    ensures Shifted(x, Sub(least, ttl)) == Kept(x, least, ttl)
  {
    if ttl <= least {
      assert Sub(least, ttl) == least - ttl;
    } else {
      assert Sub(least, ttl) == least + WORD - ttl;
    }
  }

  /** What one record becomes, for all words: the arithmetic wraps, the clamp hides it. A record keeps its distance
      to the least one while that leaves it above zero; a larger target leaves it alone, or wraps it down. */
  lemma UpdatedExactly(records: seq<Record>, ttl: uint32, i: nat)
    requires i < |records|
    ensures Updated(records, ttl)[i].ttl == Kept(records[i].ttl, MinTTL(records), ttl)
  {
    MinTTLIsLeast(records, i);
    ShiftedIsKept(records[i].ttl, MinTTL(records), ttl);
  }

  /** Whatever the target, nothing is ever given a longer life than it had, except a zero that becomes one. */
  lemma NeverLonger(records: seq<Record>, ttl: uint32, i: nat)
    requires i < |records|
    ensures Updated(records, ttl)[i].ttl == 1 || Updated(records, ttl)[i].ttl <= records[i].ttl
  {
    UpdatedExactly(records, ttl, i);
  }

  lemma UpdatedLeast(records: seq<Record>, ttl: uint32)
    requires records != [] && ttl <= MinTTL(records)
    ensures MinTTL(Updated(records, ttl)) == AtLeastOne(ttl)
  {
    var k := MinTTLIsTaken(records);
    UpdatedExactly(records, ttl, k);
    forall i | 0 <= i < |records| ensures Updated(records, ttl)[k].ttl <= Updated(records, ttl)[i].ttl {
      UpdatedExactly(records, ttl, i);
      MinTTLIsLeast(records, i);
    }
    MinTTLUnique(Updated(records, ttl), k);
  }

  /** Differences between records survive, as long as neither is clamped. */
  lemma UpdatedSpread(records: seq<Record>, ttl: uint32, i: nat, j: nat)
    requires i < |records| && j < |records| && ttl <= MinTTL(records)
    requires Updated(records, ttl)[i].ttl > 1 && Updated(records, ttl)[j].ttl > 1
    ensures Updated(records, ttl)[i].ttl - Updated(records, ttl)[j].ttl == records[i].ttl - records[j].ttl
  {
    UpdatedExactly(records, ttl, i);
    UpdatedExactly(records, ttl, j);
  }

  // ----- what is stored -----

  function WithoutOPT(records: seq<Record>): (r: seq<Record>)
    ensures forall i | 0 <= i < |r| :: r[i].rrtype != TYPE_OPT && r[i] in records
    ensures (forall i | 0 <= i < |records| :: records[i].rrtype != TYPE_OPT) ==> r == records
  {
    if records == [] then []
    else
      var last := records[|records| - 1];
      WithoutOPT(records[..|records| - 1]) + if last.rrtype == TYPE_OPT then [] else [last]
  }

  function Stored(m: Message): Message {
    m.(extra := WithoutOPT(m.extra))
  }

  function LifeOf(m: Message): uint32 {
    if m.rcode == SERVER_FAILURE then SERVER_FAILURE_CACHE_TTL else MinTTL(m.answer + m.ns + m.extra)
  }

  datatype Entry = Entry(message: Message, expireTime: nat)

  predicate IsAcmeChallenge(q: Question) {
    q.qtype == TYPE_TXT && "_acme-challenge." <= q.name
  }

  predicate Cacheable(q: Question, m: Message) {
    !IsAcmeChallenge(q) && LifeOf(Stored(m)) != 0
  }

  /** Both caches keep an expiry in Unix seconds, so its fraction is cut off. Times are nanoseconds since 1970. */
  function WholeSeconds(time: nat): nat {
    time / SECOND * SECOND
  }

  function Expiry(life: nat, at: nat): nat {
    WholeSeconds(at + life * SECOND)
  }

  function EntryFor(m: Message, at: nat): Entry {
    Entry(Stored(m), Expiry(LifeOf(Stored(m)), at))
  }

  /** `r` is what `records` holds at the increasing `places`, which are those of all records but OPT records. */
  ghost predicate PicksOthers(records: seq<Record>, r: seq<Record>, places: seq<nat>) {
    && |places| == |r|
    && (forall a | 0 <= a < |r| :: places[a] < |records| && records[places[a]] == r[a])
    && (forall a, b | 0 <= a < b < |r| :: places[a] < places[b])
    && (forall j: nat | j < |records| :: j in places <==> records[j].rrtype != 41)
  }

  lemma PickOneMore(records: seq<Record>, r: seq<Record>, places: seq<nat>, x: Record)
    requires PicksOthers(records, r, places)
    ensures x.rrtype == 41 ==> PicksOthers(records + [x], r, places)
    ensures x.rrtype != 41 ==> PicksOthers(records + [x], r + [x], places + [|records|])
  {
    var more, longer := records + [x], places + [|records|];
    forall j: nat | j < |more| ensures j in longer <==> j in places || j == |records| { }
  }

  /** Filtering keeps the records that are no OPT records, all of them and in their order. */
  lemma {:induction false} WithoutOPTPicks(records: seq<Record>) returns (places: seq<nat>)
    ensures PicksOthers(records, WithoutOPT(records), places)
    decreases |records|
  {
    places := [];
    if records != [] {
      var front, last := records[..|records| - 1], records[|records| - 1];
      places := WithoutOPTPicks(front);
      PickOneMore(front, WithoutOPT(front), places, last);
      assert records == front + [last];
      if last.rrtype != 41 {
        places := places + [|front|];
      }
    }
  }

  /** What is stored at all: everything but challenges, provided it is a server failure or has records that can be
      kept, none of them with a zero TTL. */
  lemma CacheableExactly(q: Question, m: Message)
    ensures var all := m.answer + m.ns + WithoutOPT(m.extra);
      Cacheable(q, m) <==>
        && !(q.qtype == 16 && "_acme-challenge." <= q.name)
        && (m.rcode == 2 || (all != [] && forall i | 0 <= i < |all| :: all[i].ttl > 0))
  {
    var all := m.answer + m.ns + WithoutOPT(m.extra);
    if all != [] {
      var k := MinTTLIsTaken(all);
      forall i | 0 <= i < |all| ensures MinTTL(all) <= all[i].ttl {
        MinTTLIsLeast(all, i);
      }
    }
  }

  /** A server failure is kept for five seconds, anything else no longer than any of its records allows, each less the
      fraction of a second that is cut off. */
  lemma ExpiryBounds(m: Message, at: nat, i: nat)
    ensures m.rcode == 2 ==> at + 4 * SECOND < EntryFor(m, at).expireTime <= at + 5 * SECOND
    ensures var all := m.answer + m.ns + WithoutOPT(m.extra);
      m.rcode != 2 && i < |all| ==> EntryFor(m, at).expireTime <= at + all[i].ttl * SECOND
  {
    var all := m.answer + m.ns + WithoutOPT(m.extra);
    if m.rcode != 2 && i < |all| {
      MinTTLIsLeast(all, i);
    }
  }

  // ----- what is served -----

  /** Whole seconds until `expireTime`; a negative fraction of a second counts as none. */
  function Remaining(expireTime: nat, now: nat): nat {
    if expireTime <= now then 0 else (expireTime - now) / SECOND
  }

  /** A cache hit: the clock is read once for the expiry check and once more for the remaining time. */
  function Served(e: Entry, now: nat, later: nat): Message
    requires Remaining(e.expireTime, later) < WORD
  {
    var m := e.message;
    if e.expireTime < now then
      m.(answer := WithTTL(m.answer, 1, false), ns := WithTTL(m.ns, 1, false), extra := WithTTL(m.extra, 1, true))
    else
      var ttl := Remaining(e.expireTime, later);
      m.(answer := Updated(m.answer, ttl), ns := Updated(m.ns, ttl), extra := Updated(m.extra, ttl))
  }

  /** Seconds from storing to serving, rounded up. */
  function Elapsed(at: nat, later: nat): nat
    requires at <= later
  {
    (later - at + SECOND - 1) / SECOND
  }

  /** Seconds from storing to serving as the code counts them: begun seconds of the clock, at both ends. */
  function Ticks(at: nat, later: nat): int {
    (later + SECOND - 1) / SECOND - at / SECOND
  }

  /** Whether the clock's begun seconds agree with the elapsed ones. */
  predicate InStep(at: nat, later: nat) {
    later % SECOND == 0 || at % SECOND < later % SECOND
  }

  /** Cutting the expiry off costs up to one second. */
  lemma TicksAreElapsed(at: nat, later: nat)
    requires at <= later
    ensures Ticks(at, later) == Elapsed(at, later) + if InStep(at, later) then 0 else 1
  {
  }

  lemma RemainingIsLifeMinusTicks(life: nat, at: nat, later: nat)
    requires at <= later
    ensures Remaining(Expiry(life, at), later) == if Ticks(at, later) <= life then life - Ticks(at, later) else 0
    ensures Remaining(Expiry(life, at), later) <= life
    ensures later <= Expiry(life, at) ==> Ticks(at, later) <= life
    ensures Expiry(life, at) < later ==> life <= Elapsed(at, later)
  {
    TicksAreElapsed(at, later);
  }

  lemma SectionLife(m: Message, section: seq<Record>, i: nat)
    requires section in {m.answer, m.ns, m.extra} && i < |section| && m.rcode != SERVER_FAILURE
    ensures LifeOf(m) <= section[i].ttl
  {
    var all := m.answer + m.ns + m.extra;
    var k := if section == m.answer then i else if section == m.ns then |m.answer| + i else |m.answer| + |m.ns| + i;
    assert all[k] == section[i];
    MinTTLIsLeast(all, k);
  }

  lemma SectionLeast(m: Message, section: seq<Record>)
    requires section in {m.answer, m.ns, m.extra} && section != [] && m.rcode != SERVER_FAILURE
    ensures LifeOf(m) <= MinTTL(section)
  {
    var i := MinTTLIsTaken(section);
    SectionLife(m, section, i);
  }

  /** The records of a section as they are served: the same records, none outliving its source. */
  ghost predicate NotOutlived(section: seq<Record>, served: seq<Record>, age: nat) {
    && |served| == |section|
    && forall i | 0 <= i < |section| ::
         served[i] == section[i].(ttl := served[i].ttl)
         && (served[i].ttl == 1 || served[i].ttl + age <= section[i].ttl)
  }

  /** An expired entry is served with a TTL of one throughout. */
  lemma ExpiredIsOne(m: Message, at: nat, now: nat, later: nat, i: nat)
    requires at <= later && EntryFor(m, at).expireTime < now
    ensures Remaining(EntryFor(m, at).expireTime, later) < WORD
    ensures var r := Served(EntryFor(m, at), now, later);
      && (i < |r.answer| ==> r.answer[i].ttl == 1) && (i < |r.ns| ==> r.ns[i].ttl == 1)
      && (i < |r.extra| ==> r.extra[i].ttl == 1)
  {
    LifeBounds(Stored(m), at, later);
  }

  /** The entry expires between the two clock reads. */
  predicate Races(e: Entry, now: nat, later: nat) {
    now <= e.expireTime < later
  }

  /** A record more than a second above the least of its section, which the elapsed time has used up. */
  ghost predicate Overlong(section: seq<Record>, elapsed: nat) {
    MinTTL(section) < elapsed && exists i :: 0 <= i < |section| && section[i].ttl > MinTTL(section) + 1
  }

  lemma UpdatedNotOutlived(m: Message, section: seq<Record>, at: nat, later: nat)
    requires section in {m.answer, m.ns, m.extra} && m.rcode != SERVER_FAILURE && LifeOf(m) != 0
    requires at <= later <= Expiry(LifeOf(m), at)
    ensures Remaining(Expiry(LifeOf(m), at), later) <= LifeOf(m)
    ensures NotOutlived(section, Updated(section, Remaining(Expiry(LifeOf(m), at), later)), Elapsed(at, later))
  {
    RemainingIsLifeMinusTicks(LifeOf(m), at, later);
    TicksAreElapsed(at, later);
    var ttl := Remaining(Expiry(LifeOf(m), at), later);
    forall i | 0 <= i < |section|
      ensures Updated(section, ttl)[i].ttl == 1 || Updated(section, ttl)[i].ttl + Elapsed(at, later) <= section[i].ttl
    {
      SectionLife(m, section, i);
      SectionLeast(m, section);
      UpdatedExactly(section, ttl, i);
    }
  }

  /** With no time left, only the distance to the least record remains of a TTL. */
  lemma RacedNotOutlived(section: seq<Record>, elapsed: nat)
    requires forall i | 0 <= i < |section| :: section[i].ttl > 0
    ensures NotOutlived(section, Updated(section, 0), elapsed) <==> !Overlong(section, elapsed)
  {
    forall i | 0 <= i < |section|
      ensures Updated(section, 0)[i].ttl == AtLeastOne(section[i].ttl - MinTTL(section))
    {
      UpdatedExactly(section, 0, i);
    }
  }

  lemma SectionNotOutlived(m: Message, section: seq<Record>, at: nat, now: nat, later: nat)
    requires section in {m.answer, m.ns, m.extra} && m.rcode != SERVER_FAILURE && LifeOf(m) != 0
    requires at <= now <= later && now <= Expiry(LifeOf(m), at)
    ensures Remaining(Expiry(LifeOf(m), at), later) <= LifeOf(m)
    ensures NotOutlived(section, Updated(section, Remaining(Expiry(LifeOf(m), at), later)), Elapsed(at, later))
      <==> later <= Expiry(LifeOf(m), at) || !Overlong(section, Elapsed(at, later))
  {
    RemainingIsLifeMinusTicks(LifeOf(m), at, later);
    if later <= Expiry(LifeOf(m), at) {
      UpdatedNotOutlived(m, section, at, later);
    } else {
      forall i | 0 <= i < |section| ensures section[i].ttl > 0 {
        SectionLife(m, section, i);
      }
      RacedNotOutlived(section, Elapsed(at, later));
    }
  }

  ghost predicate AllNotOutlived(m: Message, served: Message, age: nat) {
    && NotOutlived(m.answer, served.answer, age)
    && NotOutlived(m.ns, served.ns, age)
    && NotOutlived(WithoutOPT(m.extra), served.extra, age)
  }

  ghost predicate SomeOverlong(m: Message, elapsed: nat) {
    Overlong(m.answer, elapsed) || Overlong(m.ns, elapsed) || Overlong(WithoutOPT(m.extra), elapsed)
  }

  /** A served answer never outlives its source, every TTL being one or at most what was stored less the elapsed
      seconds rounded up, exactly unless the entry expires between the two clock reads and holds a record more than
      a second above the least of its section, with that least used up. */
  lemma ServedNeverOutlives(m: Message, at: nat, now: nat, later: nat)
    requires at <= now <= later && m.rcode != SERVER_FAILURE && LifeOf(Stored(m)) != 0
    ensures Remaining(EntryFor(m, at).expireTime, later) < WORD
    ensures AllNotOutlived(m, Served(EntryFor(m, at), now, later), Elapsed(at, later))
      <==> !(Races(EntryFor(m, at), now, later) && SomeOverlong(m, Elapsed(at, later)))
  {
    var s := Stored(m);
    LifeBounds(s, at, later);
    if EntryFor(m, at).expireTime < now {
      ExpiredNotOutlived(m, at, now, later);
    } else {
      SectionNotOutlived(s, s.answer, at, now, later);
      SectionNotOutlived(s, s.ns, at, now, later);
      SectionNotOutlived(s, s.extra, at, now, later);
    }
  }

  lemma ExpiredNotOutlived(m: Message, at: nat, now: nat, later: nat)
    requires at <= later && EntryFor(m, at).expireTime < now
    ensures Remaining(EntryFor(m, at).expireTime, later) < WORD
    ensures AllNotOutlived(m, Served(EntryFor(m, at), now, later), Elapsed(at, later))
  {
    LifeBounds(Stored(m), at, later);
  }

  /** The exception occurs: stored with ten and a hundred seconds, an answer that expires one nanosecond before
      the second clock read is served with ninety seconds after more than ten. */
  lemma RacedAnswerOutlives(a: nat, b: nat) returns (m: Message)
    ensures m == Message(0, [Record(1, a, 10), Record(1, b, 100)], [], []) && LifeOf(Stored(m)) == 10
    ensures Elapsed(0, 10 * SECOND + 1) == 11 && Remaining(EntryFor(m, 0).expireTime, 10 * SECOND + 1) < WORD
    ensures Served(EntryFor(m, 0), 10 * SECOND, 10 * SECOND + 1).answer[1].ttl == 90
    ensures !AllNotOutlived(m, Served(EntryFor(m, 0), 10 * SECOND, 10 * SECOND + 1), 11)
  {
    m := Message(0, [Record(1, a, 10), Record(1, b, 100)], [], []);
    MinTTLUnique(m.answer, 0);
    assert m.answer + m.ns + WithoutOPT(m.extra) == m.answer;
    UpdatedExactly(m.answer, 0, 1);
  }

  lemma LifeBounds(m: Message, at: nat, later: nat)
    requires at <= later
    ensures Remaining(Expiry(LifeOf(m), at), later) <= LifeOf(m)
  {
    RemainingIsLifeMinusTicks(LifeOf(m), at, later);
  }

  /** How the least TTL of a served section relates to the time that is left of `life` seconds: it is that time,
      though at least one, exactly if the clock was in step or no more than one second is left; otherwise it is
      one second less. */
  ghost predicate LeastServed(served: seq<Record>, life: nat, at: nat, later: nat)
    requires at <= later
  {
    var left := life - Elapsed(at, later);
    && (MinTTL(served) == AtLeastOne(left) <==> InStep(at, later) || left <= 1)
    && MinTTL(served) == AtLeastOne(if InStep(at, later) then left else left - 1)
  }

  lemma SectionLeastServed(m: Message, section: seq<Record>, at: nat, later: nat)
    requires section in {m.answer, m.ns, m.extra} && section != [] && m.rcode != SERVER_FAILURE && at <= later
    ensures Remaining(Expiry(LifeOf(m), at), later) <= LifeOf(m)
    ensures LeastServed(Updated(section, Remaining(Expiry(LifeOf(m), at), later)), LifeOf(m), at, later)
  {
    RemainingIsLifeMinusTicks(LifeOf(m), at, later);
    TicksAreElapsed(at, later);
    SectionLeast(m, section);
    UpdatedLeast(section, Remaining(Expiry(LifeOf(m), at), later));
  }

  lemma {:induction false} MinTTLOfOnes(records: seq<Record>)
    requires records != [] && forall i | 0 <= i < |records| :: records[i].ttl == 1
    ensures MinTTL(records) == 1
  {
    MinTTLUnique(records, 0);
  }

  lemma SectionLeastExpired(section: seq<Record>, skipOPT: bool, life: nat, at: nat, now: nat, later: nat)
    requires section != [] && at <= now <= later && Expiry(life, at) < now
    requires skipOPT ==> forall i | 0 <= i < |section| :: section[i].rrtype != TYPE_OPT
    ensures LeastServed(WithTTL(section, 1, skipOPT), life, at, later)
  {
    MinTTLOfOnes(WithTTL(section, 1, skipOPT));
    RemainingIsLifeMinusTicks(life, at, later);
  }

  /** The shortest-lived record of each section is given the time that remains, up to the second that cutting the
      expiry off may cost. */
  lemma ServedLeastIsRemaining(m: Message, at: nat, now: nat, later: nat)
    requires at <= now <= later && m.rcode != SERVER_FAILURE && LifeOf(Stored(m)) != 0
    ensures Remaining(EntryFor(m, at).expireTime, later) < WORD
    ensures var r, life := Served(EntryFor(m, at), now, later), LifeOf(Stored(m));
      && (m.answer != [] ==> LeastServed(r.answer, life, at, later))
      && (m.ns != [] ==> LeastServed(r.ns, life, at, later))
      && (WithoutOPT(m.extra) != [] ==> LeastServed(r.extra, life, at, later))
  {
    var s := Stored(m);
    var life := LifeOf(s);
    LifeBounds(s, at, later);
    if EntryFor(m, at).expireTime < now {
      if s.answer != [] { SectionLeastExpired(s.answer, false, life, at, now, later); }
      if s.ns != [] { SectionLeastExpired(s.ns, false, life, at, now, later); }
      if s.extra != [] { SectionLeastExpired(s.extra, true, life, at, now, later); }
    } else {
      if s.answer != [] { SectionLeastServed(s, s.answer, at, later); }
      if s.ns != [] { SectionLeastServed(s, s.ns, at, later); }
      if s.extra != [] { SectionLeastServed(s, s.extra, at, later); }
    }
  }

  /** The second is really lost: stored at half past with ten seconds, an answer is served with eight after one. */
  lemma HalfSecondCostsOne(a: nat) returns (m: Message)
    ensures m == Message(0, [Record(1, a, 10)], [], []) && LifeOf(Stored(m)) == 10
    ensures Elapsed(SECOND / 2, SECOND / 2 + SECOND) == 1
    ensures Remaining(EntryFor(m, SECOND / 2).expireTime, SECOND / 2 + SECOND) == 8
    ensures Served(EntryFor(m, SECOND / 2), SECOND / 2 + SECOND, SECOND / 2 + SECOND).answer[0].ttl == 8
  {
    m := Message(0, [Record(1, a, 10)], [], []);
    assert m.answer + m.ns + WithoutOPT(m.extra) == m.answer;
    UpdatedExactly(m.answer, 8, 0);
  }

  /** A cached server failure, whose life of five seconds has nothing to do with its records, still never gives
      a record more than it had. */
  lemma ServedNeverLonger(m: Message, at: nat, now: nat, later: nat, i: nat)
    requires at <= now <= later && LifeOf(Stored(m)) != 0
    ensures Remaining(EntryFor(m, at).expireTime, later) < WORD
    ensures var r := Served(EntryFor(m, at), now, later);
      && (i < |m.answer| ==> r.answer[i].ttl == 1 || r.answer[i].ttl <= m.answer[i].ttl)
      && (i < |m.ns| ==> r.ns[i].ttl == 1 || r.ns[i].ttl <= m.ns[i].ttl)
      && (i < |WithoutOPT(m.extra)| ==> r.extra[i].ttl == 1 || r.extra[i].ttl <= WithoutOPT(m.extra)[i].ttl)
  {
    var s := Stored(m);
    LifeBounds(s, at, later);
    var left := Remaining(EntryFor(m, at).expireTime, later);
    if i < |s.answer| { NeverLonger(s.answer, left, i); }
    if i < |s.ns| { NeverLonger(s.ns, left, i); }
    if i < |s.extra| { NeverLonger(s.extra, left, i); }
  }

  /** Neither the cache nor a served answer holds an OPT record in its additional section. */
  lemma ServedHasNoOPT(m: Message, at: nat, now: nat, later: nat, i: nat)
    requires at <= later
    ensures Remaining(EntryFor(m, at).expireTime, later) < WORD
    ensures var r := Served(EntryFor(m, at), now, later).extra; i < |r| ==> r[i].rrtype != 41
    ensures Served(EntryFor(m, at), now, later).rcode == m.rcode
  {
    LifeBounds(Stored(m), at, later);
  }

  // ----- the cache -----

  /** What a stored answer was and when it was stored. */
  datatype Origin = Origin(message: Message, at: nat)

  /** Every entry is the one made of its origin. */
  ghost predicate Backed(entries: map<Question, Entry>, origins: map<Question, Origin>) {
    forall q | q in entries ::
      && q in origins && Cacheable(q, origins[q].message)
      && entries[q] == EntryFor(origins[q].message, origins[q].at)
  }

  lemma BackedUpdate(entries: map<Question, Entry>, origins: map<Question, Origin>, q: Question, origin: Origin)
    requires Backed(entries, origins) && Cacheable(q, origin.message)
    ensures Backed(entries[q := EntryFor(origin.message, origin.at)], origins[q := origin])
  {
  }

  class Cache {
    var entries: map<Question, Entry>
    ghost var origins: map<Question, Origin>

    ghost predicate Valid()
      reads this
    {
      Backed(entries, origins)
    }

    constructor ()
      ensures Valid() && entries == map[]
    {
      entries := map[];
      origins := map[];
    }

    method PutMsgToCache(q: Question, m: Message, now: nat)
      requires Valid()
      modifies this
      ensures Valid()
      ensures entries == if Cacheable(q, m) then old(entries)[q := EntryFor(m, now)] else old(entries)
      ensures Cacheable(q, m) ==> origins == old(origins)[q := Origin(m, now)]
      ensures !Cacheable(q, m) ==> origins == old(origins)
    {
      if q.qtype == TYPE_TXT && "_acme-challenge." <= q.name {
        return;
      }
      var msg := m.(extra := WithoutOPT(m.extra));
      var ttl := CacheTTL(msg);
      if ttl == 0 {
        return;
      }
      Store(q, msg, now + ttl * SECOND, Origin(m, now));
    }

    /** SetWithExpire: the expiry is kept in whole seconds. */
    method Store(q: Question, msg: Message, expires: nat, ghost origin: Origin)
      requires Valid() && Cacheable(q, origin.message)
      requires msg == Stored(origin.message) && expires == origin.at + LifeOf(msg) * SECOND
      modifies this
      ensures Valid() && entries == old(entries)[q := EntryFor(origin.message, origin.at)]
      ensures origins == old(origins)[q := origin]
    {
      BackedUpdate(entries, origins, q, origin);
      assert Entry(msg, WholeSeconds(expires)) == EntryFor(origin.message, origin.at);
      entries := entries[q := Entry(msg, WholeSeconds(expires))];
      origins := origins[q := origin];
    }

    /** The cache may drop an entry at any time. */
    method Evict(q: Question)
      requires Valid()
      modifies this`entries
      ensures Valid() && entries == old(entries) - {q}
    {
      entries := entries - {q};
    }

    /** The hit path of ExchangeContext. */
    method Lookup(q: Question, now: nat, later: nat) returns (hit: bool, m: Message, continueFetch: bool)
      requires Valid() && (q in origins ==> origins[q].at <= now) && now <= later
      ensures hit == (q in entries)
      ensures hit ==> Remaining(entries[q].expireTime, later) < WORD && m == Served(entries[q], now, later)
      ensures hit ==> continueFetch == (entries[q].expireTime < now)
      ensures hit && origins[q].message.rcode != SERVER_FAILURE ==>
        (AllNotOutlived(origins[q].message, m, Elapsed(origins[q].at, later)) <==>
          !(Races(entries[q], now, later) && SomeOverlong(origins[q].message, Elapsed(origins[q].at, later))))
    {
      hit, continueFetch := q in entries, false;
      m := Message(0, [], [], []);
      if !hit {
        return;
      }
      var e := entries[q];
      LifeBounds(e.message, origins[q].at, later);
      var answer := ToArray(e.message.answer);
      var ns := ToArray(e.message.ns);
      var extra := ToArray(e.message.extra);
      if e.expireTime < now {
        SetTTL(answer, 1, false);
        SetTTL(ns, 1, false);
        SetTTL(extra, 1, true);
        continueFetch := true;
      } else {
        var ttl := Remaining(e.expireTime, later);
        UpdateTTL(answer, ttl);
        UpdateTTL(ns, ttl);
        UpdateTTL(extra, ttl);
      }
      m := e.message.(answer := answer[..], ns := ns[..], extra := extra[..]);
      if origins[q].message.rcode != SERVER_FAILURE {
        ServedNeverOutlives(origins[q].message, origins[q].at, now, later);
      }
    }
  }

  method CacheTTL(m: Message) returns (ttl: uint32)
    ensures ttl == LifeOf(m)
  {
    if m.rcode == SERVER_FAILURE {
      ttl := SERVER_FAILURE_CACHE_TTL;
    } else {
      var all := ToArray(m.answer + m.ns + m.extra);
      ttl := MinimalTTL(all);
    }
  }

  method ToArray(records: seq<Record>) returns (a: array<Record>)
    ensures fresh(a) && a[..] == records
  {
    a := new Record[|records|](i requires 0 <= i < |records| => records[i]);
  }
}
