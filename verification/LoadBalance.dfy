/** The selection strategies of a load-balancing group (adapter/outboundgroup/loadbalance.go). */
module LoadBalance {
  // ----- jump consistent hashing -----

  const WORD: nat := 0x1_0000_0000_0000_0000
  const LCG: nat := 2862933555777941757
  const HALF: nat := 0x8000_0000
  const TOP: nat := 0x4000_0000_0000_0000
  const EXACT: nat := 0x20_0000_0000_0000

  type uint64 = x: nat | x < WORD

  ghost predicate Exact(round: real -> real, n: nat) {
    round(n as real) == n as real
  }

  ghost predicate ExactScaled(round: real -> real, n: nat) {
    round(n as real * HALF as real) == n as real * HALF as real
  }

  /** Within half a unit in the last of 53 binary places. */
  ghost predicate Accurate(round: real -> real, x: real) {
    (round(x) - x) * EXACT as real <= x && (x - round(x)) * EXACT as real <= x
  }

  /** Rounding to double precision: monotone, exact on small integers and on small multiples of 2^31, and accurate
      on the numbers that come up, which are far from overflow and underflow. */
  ghost predicate Rounds(round: real -> real) {
    && (forall x: real, y: real | x <= y :: round(x) <= round(y))
    && (forall n: nat | n <= EXACT :: Exact(round, n))
    && (forall n: nat | n <= HALF :: ExactScaled(round, n))
    && (forall x: real | 1.0 <= x <= TOP as real :: Accurate(round, x))
  }

  function NextKey(key: uint64): uint64 {
    (key * LCG + 1) % WORD
  }

  function Divisor(key: uint64): nat {
    key / 0x2_0000_0000 + 1
  }

  /** The next candidate after bucket `b`: int64(float64(b+1) * (2^31 / float64((key>>33)+1))). */
  function NextBucket(round: real -> real, key: uint64, b: nat): int {
    round((b + 1) as real * round(HALF as real / Divisor(key) as real)).Floor
  }

  lemma RealProduct(x: real, y: real)
    requires x > 0.0 && y >= 1.0
    ensures x <= x * y
    ensures x < 1.0 ==> x * y < y
  {
  }

  lemma ProductMonotone(x: real, y: real, z: real)
    requires x > 0.0 && y <= z
    ensures x * y <= x * z
  {
  }

  lemma Quotient(d: nat)
    requires 1 <= d <= HALF
    ensures 1.0 <= HALF as real / d as real <= HALF as real
  {
    var q := HALF as real / d as real;
    assert q * d as real == HALF as real;
    RealProduct(q, d as real);
  }

  lemma RoundedQuotient(round: real -> real, d: nat)
    requires Rounds(round) && 1 <= d <= HALF
    ensures 1.0 <= round(HALF as real / d as real) <= HALF as real
  {
    Quotient(d);
    assert Exact(round, 1) && Exact(round, HALF);
  }

  lemma RoundedProduct(round: real -> real, b: nat, q: real)
    requires Rounds(round) && 1 <= b <= HALF && 1.0 <= q <= HALF as real
    ensures b as real <= round(b as real * q) <= b as real * HALF as real
  {
    assert Exact(round, b) && ExactScaled(round, b);
    RoundedBetween(round, b as real, q, HALF as real);
  }

  lemma RoundedBetween(round: real -> real, x: real, y: real, z: real)
    requires Rounds(round) && x >= 1.0 && 1.0 <= y <= z
    ensures round(x) <= round(x * y) <= round(x * z)
  {
    RealProduct(x, y);
    ProductMonotone(x, y, z);
  }

  /** The growth factor is at least one, so each candidate is a later bucket; nothing overflows an int64. */
  lemma NextBucketGrows(round: real -> real, key: uint64, b: nat)
    requires Rounds(round) && b < HALF
    ensures b + 1 <= NextBucket(round, key, b) <= HALF * HALF
  {
    var q := round(HALF as real / Divisor(key) as real);
    RoundedQuotient(round, Divisor(key));
    RoundedProduct(round, b + 1, q);
    assert (b + 1) as real * HALF as real <= TOP as real;
  }

  // ----- which candidate it is -----

  lemma Congruent(x: int, y: int, k: int)
    requires x == y + k * WORD
    ensures x % WORD == y % WORD
  {
    var d := x / WORD - y / WORD - k;
    assert d * WORD == y % WORD - x % WORD;
    ProductSign(d, WORD);
  }

  /** The key step is affine modulo 2^64, maps 0 to 1 and 1 to the multiplier plus one; that determines it. */
  lemma KeyStep(a: uint64, b: uint64)
    ensures NextKey(0) == 1 && NextKey(1) == 2862933555777941758
    ensures (NextKey(a) + NextKey(b)) % 0x1_0000_0000_0000_0000 == (NextKey((a + b) % WORD) + 1) % 0x1_0000_0000_0000_0000
  {
    var s, c := (a + b) % WORD, (a + b) / WORD;
    assert a + b == s + c * WORD;
    var i, j, k := (a * LCG + 1) / WORD, (b * LCG + 1) / WORD, (s * LCG + 1) / WORD;
    assert NextKey(a) == a * LCG + 1 - i * WORD;
    assert NextKey(b) == b * LCG + 1 - j * WORD;
    assert NextKey(s) == s * LCG + 1 - k * WORD;
    assert (a + b) * LCG == s * LCG + c * LCG * WORD;
    Congruent(NextKey(a) + NextKey(b), NextKey(s) + 1, c * LCG + k - i - j);
  }

  lemma Scaled(x: real, y: real, z: real)
    requires x <= y && z > 0.0
    ensures x * z <= y * z
  {
  }

  lemma Cancel(x: real, y: real, z: real)
    requires x * z <= y * z && z > 0.0
    ensures x <= y
  {
  }

  lemma CancelStrict(x: real, y: real, z: real)
    requires x * z < y * z && z > 0.0
    ensures x < y
  {
  }

  lemma Between(x: real, q: real, h: real)
    requires 1.0 <= x <= h && 1.0 <= q <= h
    ensures 1.0 <= x * q <= h * h
  {
    RealProduct(x, q);
    ProductMonotone(x, q, h);
    Scaled(x, h, h);
  }

  lemma BelowTop(x: real, q: real)
    requires 1.0 <= x <= HALF as real && 1.0 <= q <= HALF as real
    ensures 1.0 <= x * q <= TOP as real
  {
    var h := HALF as real;
    Between(x, q, h);
    assert h * h == TOP as real;
  }

  lemma Reordered(b: real, q: real, d: real, e: real)
    ensures q * e * (b * d) == b * q * (d * e)
  {
    assert q * e * (b * d) == q * b * (e * d);
  }

  lemma Regrouped(b: real, x: real, d: real, h: real, f: real)
    requires x * d == h
    ensures x * f * (b * d) == b * h * f
  {
    assert x * f * (b * d) == b * (x * d) * f;
  }

  /** If `q` is `x` within one part in `e`, and x * d is `h`, then b * q is b * h / d within one part in `e`. */
  lemma QuotientBounds(b: real, x: real, q: real, d: real, h: real, e: real)
    requires b > 0.0 && d > 0.0 && x * d == h && (q - x) * e <= x && (x - q) * e <= x
    ensures b * h * (e - 1.0) <= b * q * (d * e) <= b * h * (e + 1.0)
  {
    assert x * (e - 1.0) <= q * e <= x * (e + 1.0);
    assert b * d > 0.0;
    Scaled(x * (e - 1.0), q * e, b * d);
    Scaled(q * e, x * (e + 1.0), b * d);
    Reordered(b, q, d, e);
    Regrouped(b, x, d, h, e - 1.0);
    Regrouped(b, x, d, h, e + 1.0);
  }

  lemma ProductBounds(b: real, x: real, q: real, d: real, y: real)
    requires 1.0 <= b <= HALF as real && 1.0 <= q <= HALF as real && d > 0.0 && x * d == HALF as real && y == b * q
    requires (q - x) * EXACT as real <= x && (x - q) * EXACT as real <= x
    ensures 1.0 <= y <= TOP as real
    ensures b * HALF as real * (EXACT as real - 1.0) <= y * (d * EXACT as real) <= b * HALF as real * (EXACT as real + 1.0)
  {
    BelowTop(b, q);
    QuotientBounds(b, x, q, d, HALF as real, EXACT as real);
  }

  /** The quotient 2^31 / d, rounded, times `b`, against the exact quotient. */
  lemma RoundedBounds(round: real -> real, b: nat, d: nat) returns (y: real)
    requires Rounds(round) && 1 <= b <= HALF && 1 <= d <= HALF
    ensures y == b as real * round(HALF as real / d as real) && 1.0 <= y <= TOP as real
    ensures b as real * HALF as real * (EXACT as real - 1.0) <= y * (d as real * EXACT as real)
    ensures y * (d as real * EXACT as real) <= b as real * HALF as real * (EXACT as real + 1.0)
  {
    var x := HALF as real / d as real;
    Quotient(d);
    RoundedQuotient(round, d);
    WithinOnePart(round, x);
    y := b as real * round(x);
    ProductBounds(b as real, x, round(x), d as real, y);
  }

  lemma WithinOnePart(round: real -> real, x: real)
    requires Rounds(round) && 1.0 <= x <= TOP as real
    ensures (round(x) - x) * EXACT as real <= x && (x - round(x)) * EXACT as real <= x
  {
    assert Accurate(round, x);
  }

  lemma {:induction false} RealProductOf(a: nat, b: nat)
    ensures (a * b) as real == a as real * b as real
    decreases a
  {
    if a > 0 {
      RealProductOf(a - 1, b);
      assert a * b == (a - 1) * b + b;
    }
  }

  /** After bucket `b` the next candidate is at least `n` if (b + 1) * 2^31 reaches n times the top 31 bits of the key
      plus one, up to the rounding of the quotient: one part in 2^53. */
  lemma CandidateAtLeast(round: real -> real, key: uint64, b: nat, n: nat)
    requires Rounds(round) && b < HALF && n <= EXACT
    ensures n * (key / 0x2_0000_0000 + 1) * EXACT <= (b + 1) * HALF * (EXACT - 1) ==> NextBucket(round, key, b) >= n
  {
    if n * (key / 0x2_0000_0000 + 1) * EXACT <= (b + 1) * HALF * (EXACT - 1) {
      var y := RoundedBounds(round, b + 1, Divisor(key));
      ProductAbove(y, b + 1, Divisor(key), n);
      WholeBelow(round, n, y);
    }
  }

  lemma ProductAbove(y: real, b: nat, d: nat, n: nat)
    requires 1 <= d && b as real * HALF as real * (EXACT as real - 1.0) <= y * (d as real * EXACT as real)
    requires n * d * EXACT <= b * HALF * (EXACT - 1)
    ensures n as real <= y
  {
    ThreeFactors(n, d, EXACT);
    ThreeFactors(b, HALF, EXACT - 1);
    Cancel(n as real, y, d as real * EXACT as real);
  }

  lemma ThreeFactors(a: nat, b: nat, c: nat)
    ensures (a * b * c) as real == a as real * b as real * c as real == a as real * (b as real * c as real)
  {
    RealProductOf(a, b);
    RealProductOf(a * b, c);
  }

  lemma WholeBelow(round: real -> real, n: nat, y: real)
    requires Rounds(round) && n <= EXACT && n as real <= y
    ensures n <= round(y).Floor
  {
    assert Exact(round, n);
    assert round(n as real) <= round(y);
  }

  /** And it is at most `n` if (b + 1) * 2^31 stays below n + 1 times as much, up to the rounding of the quotient and of
      the product. */
  lemma CandidateAtMost(round: real -> real, key: uint64, b: nat, n: nat)
    requires Rounds(round) && b < HALF
    ensures (b + 1) * HALF * (EXACT + 1) * (EXACT + 1) < (n + 1) * (key / 0x2_0000_0000 + 1) * EXACT * EXACT ==>
      NextBucket(round, key, b) <= n
  {
    if (b + 1) * HALF * (EXACT + 1) * (EXACT + 1) < (n + 1) * (key / 0x2_0000_0000 + 1) * EXACT * EXACT {
      var y := RoundedBounds(round, b + 1, Divisor(key));
      AtMostAfterRounding(round, y, b + 1, Divisor(key), n);
    }
  }

  lemma AtMostAfterRounding(round: real -> real, y: real, b: nat, d: nat, n: nat)
    requires Rounds(round) && 1 <= b && 1 <= d && 1.0 <= y <= TOP as real
    requires y * (d as real * EXACT as real) <= b as real * HALF as real * (EXACT as real + 1.0)
    requires b * HALF * (EXACT + 1) * (EXACT + 1) < (n + 1) * d * EXACT * EXACT
    ensures round(y).Floor <= n
  {
    RoundedUp(round, y);
    ProductBelow(round(y), y, b, d, n);
  }

  lemma RoundedUp(round: real -> real, y: real)
    requires Rounds(round) && 1.0 <= y <= TOP as real
    ensures round(y) * EXACT as real <= y * (EXACT as real + 1.0)
  {
    WithinOnePart(round, y);
  }

  lemma TwiceBelow(z: real, y: real, x: real, d: real, e: real, n: real)
    requires e > 0.0 && d > 0.0 && z * e <= y * (e + 1.0)
    requires y * (d * e) <= x * (e + 1.0) && x * (e + 1.0) * (e + 1.0) < n * d * e * e
    ensures z < n
  {
    assert d * e > 0.0;
    Scaled(z * e, y * (e + 1.0), d * e);
    Scaled(y * (d * e), x * (e + 1.0), e + 1.0);
    assert y * (e + 1.0) * (d * e) == y * (d * e) * (e + 1.0);
    assert z * e * (d * e) == z * (d * e * e);
    assert n * d * e * e == n * (d * e * e);
    CancelStrict(z, n, d * e * e);
  }

  lemma ProductBelow(z: real, y: real, b: nat, d: nat, n: nat)
    requires 1 <= b && 1 <= d && z * EXACT as real <= y * (EXACT as real + 1.0)
    requires y * (d as real * EXACT as real) <= b as real * HALF as real * (EXACT as real + 1.0)
    requires b * HALF * (EXACT + 1) * (EXACT + 1) < (n + 1) * d * EXACT * EXACT
    ensures z < (n + 1) as real
  {
    FourFactors(b, HALF, EXACT + 1, EXACT + 1);
    FourFactors(n + 1, d, EXACT, EXACT);
    TwiceBelow(z, y, b as real * HALF as real, d as real, EXACT as real, (n + 1) as real);
  }

  lemma FourFactors(a: nat, b: nat, c: nat, d: nat)
    ensures (a * b * c * d) as real == a as real * b as real * c as real * d as real
  {
    ThreeFactors(a, b, c);
    RealProductOf(a * b * c, d);
  }

  /** Together they fix the candidate wherever the exact quotient is not within rounding of a whole number. */
  lemma CandidateIs(round: real -> real, key: uint64, b: nat, n: nat)
    requires Rounds(round) && b < HALF && n <= EXACT
    ensures
      && n * (key / 0x2_0000_0000 + 1) * EXACT <= (b + 1) * HALF * (EXACT - 1)
      && (b + 1) * HALF * (EXACT + 1) * (EXACT + 1) < (n + 1) * (key / 0x2_0000_0000 + 1) * EXACT * EXACT
      ==> NextBucket(round, key, b) == n
  {
    CandidateAtLeast(round, key, b, n);
    CandidateAtMost(round, key, b, n);
  }

  /** The last candidate below `n`, from candidate `j` on. */
  ghost function Jump(round: real -> real, key: uint64, b: nat, j: nat, n: nat): nat
    requires Rounds(round) && n < HALF
    decreases n - j
  {
    if j >= n then b
    else
      NextBucketGrows(round, NextKey(key), j);
      Jump(round, NextKey(key), j, NextBucket(round, NextKey(key), j), n)
  }

  ghost function JumpHashOf(round: real -> real, key: uint64, n: nat): nat
    requires Rounds(round) && n < HALF
  {
    Jump(round, key, 0, 0, n)
  }

  method JumpHash(round: real -> real, start: uint64, buckets: nat) returns (bucket: nat)
    requires Rounds(round) && buckets < HALF
    ensures bucket == JumpHashOf(round, start, buckets)
    ensures buckets > 0 ==> bucket < buckets
  {
    var b, j: int, key := 0, 0, start;
    while j < buckets
      invariant 0 <= b <= j && (b < buckets || (b == 0 && buckets == 0))
      invariant Jump(round, key, b, j, buckets) == JumpHashOf(round, start, buckets)
      decreases buckets - j
    {
      b := j;
      key := NextKey(key);
      NextBucketGrows(round, key, b);
      j := NextBucket(round, key, b);
    }
    bucket := b;
  }

  lemma {:induction false} JumpInRange(round: real -> real, key: uint64, b: nat, j: nat, n: nat)
    requires Rounds(round) && n < HALF && (b < n || j < n)
    ensures Jump(round, key, b, j, n) < n
    decreases n - j
  {
    if j < n {
      NextBucketGrows(round, NextKey(key), j);
      JumpInRange(round, NextKey(key), j, NextBucket(round, NextKey(key), j), n);
    }
  }

  /** With more buckets a key keeps its bucket or moves to a new one. */
  lemma {:induction false} JumpMoves(round: real -> real, key: uint64, b: nat, j: nat, n: nat, more: nat)
    requires Rounds(round) && n <= more < HALF && b <= j
    ensures var was, now := Jump(round, key, b, j, n), Jump(round, key, b, j, more); now == was || now >= n
    decreases more - j
  {
    if j < n {
      NextBucketGrows(round, NextKey(key), j);
      JumpMoves(round, NextKey(key), j, NextBucket(round, NextKey(key), j), n, more);
    } else if j < more {
      NextBucketGrows(round, NextKey(key), j);
      JumpAtLeast(round, NextKey(key), j, NextBucket(round, NextKey(key), j), more);
    }
  }

  lemma {:induction false} JumpAtLeast(round: real -> real, key: uint64, b: nat, j: nat, n: nat)
    requires Rounds(round) && n < HALF && b <= j
    ensures Jump(round, key, b, j, n) >= b
    decreases n - j
  {
    if j < n {
      NextBucketGrows(round, NextKey(key), j);
      JumpAtLeast(round, NextKey(key), j, NextBucket(round, NextKey(key), j), n);
    }
  }

  /** Going from n to n+1 buckets leaves a key where it is or moves it to bucket n. */
  lemma JumpIsConsistent(round: real -> real, key: uint64, n: nat)
    requires Rounds(round) && 0 < n && n + 1 < HALF
    ensures JumpHashOf(round, key, n) < n
    ensures JumpHashOf(round, key, n + 1) in {JumpHashOf(round, key, n), n}
  {
    JumpInRange(round, key, 0, 0, n);
    JumpInRange(round, key, 0, 0, n + 1);
    JumpMoves(round, key, 0, 0, n, n + 1);
  }

  lemma JumpOn(round: real -> real, key: uint64, b: nat, j: nat, next: nat, n: nat)
    requires Rounds(round) && j < n < HALF && NextBucket(round, NextKey(key), j) == next
    ensures Jump(round, key, b, j, n) == Jump(round, NextKey(key), j, next, n)
  {
    NextBucketGrows(round, NextKey(key), j);
  }

  lemma KeysAfterOne()
    ensures NextKey(1) == 2862933555777941758 && 2862933555777941758 / 0x2_0000_0000 + 1 == 333289332
    ensures NextKey(2862933555777941758) == 7520437575244155655 && 7520437575244155655 / 0x2_0000_0000 + 1 == 875494161
    ensures NextKey(7520437575244155655) == 7839698697979377132 && 7839698697979377132 / 0x2_0000_0000 + 1 == 912661047
  {
  }

  lemma CandidatesOfKeyOne(round: real -> real)
    requires Rounds(round)
    ensures NextBucket(round, 2862933555777941758, 0) == 6
    ensures NextBucket(round, 7520437575244155655, 6) == 17
    ensures NextBucket(round, 7839698697979377132, 17) == 42
  {
    KeysAfterOne();
    CandidateIs(round, 2862933555777941758, 0, 6);
    CandidateIs(round, 7520437575244155655, 6, 17);
    CandidateIs(round, 7839698697979377132, 17, 42);
  }

  /** Key 1 goes to bucket 6 of 7 and to bucket 17 of 18, whatever the rounding of the last place. */
  lemma BucketsOfKeyOne(round: real -> real)
    requires Rounds(round)
    ensures JumpHashOf(round, 1, 7) == 6 && JumpHashOf(round, 1, 18) == 17
  {
    KeysAfterOne();
    CandidatesOfKeyOne(round);
    JumpOn(round, 1, 0, 0, 6, 7);
    JumpOn(round, 2862933555777941758, 0, 6, 17, 7);
    JumpOn(round, 1, 0, 0, 6, 18);
    JumpOn(round, 2862933555777941758, 0, 6, 17, 18);
    JumpOn(round, 7520437575244155655, 6, 17, 42, 18);
  }

  // ----- consistent hashing over proxies -----

  const MAX_RETRY := 5

  /** The first bucket tried that is alive, if there is one within the retries. */
  ghost predicate TriedFirst(round: real -> real, alive: seq<bool>, key: uint64, i: nat, id: nat)
    requires Rounds(round) && |alive| < HALF
  {
    && i < MAX_RETRY && id == JumpHashOf(round, (key + i) % WORD, |alive|) && id < |alive| && alive[id]
    && forall k | 0 <= k < i :: Dead(round, alive, key, k)
  }

  ghost predicate Dead(round: real -> real, alive: seq<bool>, key: uint64, k: nat)
    requires Rounds(round) && |alive| < HALF
  {
    var id := JumpHashOf(round, (key + k) % WORD, |alive|);
    id < |alive| && !alive[id]
  }

  /** Picks a live proxy whenever there is one: the first live bucket of five, else the first live proxy in the
      list; the first proxy if none is alive. */
  method ConsistentHashing(round: real -> real, hash: uint64, alive: seq<bool>) returns (id: nat)
    requires Rounds(round) && 0 < |alive| < HALF
    ensures id < |alive| && (alive[id] <==> exists k :: 0 <= k < |alive| && alive[k])
    ensures (forall k | 0 <= k < |alive| :: !alive[k]) ==> id == 0
    ensures (exists i: nat :: TriedFirst(round, alive, hash, i, id))
            || ((forall k | 0 <= k < MAX_RETRY :: Dead(round, alive, hash, k)) && forall k | 0 <= k < id :: !alive[k])
  {
    var key := hash;
    for i := 0 to MAX_RETRY
      invariant key == (hash + i) % WORD
      invariant forall k | 0 <= k < i :: Dead(round, alive, hash, k)
    {
      id := JumpHash(round, key, |alive|);
      if alive[id] {
        assert TriedFirst(round, alive, hash, i, id);
        return;
      }
      key := (key + 1) % WORD;
      NextSum(hash, i);
    }
    for k := 0 to |alive|
      invariant forall j | 0 <= j < k :: !alive[j]
    {
      if alive[k] {
        return k;
      }
    }
    id := 0;
  }

  lemma NextSum(key: uint64, i: nat)
    ensures ((key + i) % WORD + 1) % WORD == (key + i + 1) % WORD
  {
    var q := (key + i) / WORD;
    AddMultiple((key + i) % WORD + 1, WORD, q);
    assert key + i + 1 == (key + i) % WORD + 1 + q * WORD;
  }

  lemma {:induction false} AddMultiple(x: nat, n: nat, q: nat)
    requires n > 0
    ensures (x + q * n) % n == x % n
    decreases q
  {
    if q > 0 {
      AddMultiple(x, n, q - 1);
      assert x + q * n == (x + (q - 1) * n) + n;
      AddOnce(x + (q - 1) * n, n);
    }
  }

  lemma AddOnce(x: nat, n: nat)
    requires n > 0
    ensures (x + n) % n == x % n
  {
    var q, r := x / n, x % n;
    assert x + n == (q + 1) * n + r;
    QuotientUnique(x + n, n, q + 1, r);
  }

  lemma QuotientUnique(x: nat, n: nat, q: nat, r: nat)
    requires n > 0 && r < n && x == q * n + r
    ensures x % n == r
  {
    var d := x / n - q;
    assert d * n == r - x % n;
    ProductSign(d, n);
  }

  lemma ProductSign(d: int, n: nat)
    requires n > 0
    ensures d > 0 ==> d * n >= n
    ensures d < 0 ==> d * n <= -(n as int)
  {
  }

  // ----- round robin -----

  /** Whether the proxy at an unwrapped position is alive. */
  predicate AliveAt(alive: seq<bool>, pos: nat)
    requires |alive| > 0
  {
    alive[pos % |alive|]
  }

  /** How far the next live proxy is from `idx`, from offset `i` on; the length of the list if there is none. */
  function Offset(alive: seq<bool>, idx: nat, i: nat): nat
    requires 0 < |alive| && i <= |alive|
    decreases |alive| - i
  {
    if i == |alive| || AliveAt(alive, idx + i) then i else Offset(alive, idx, i + 1)
  }

  function Chosen(alive: seq<bool>, idx: nat): nat
    requires |alive| > 0
  {
    var i := Offset(alive, idx, 0);
    if i < |alive| then (idx + i) % |alive| else 0
  }

  function Advanced(alive: seq<bool>, idx: nat): nat
    requires |alive| > 0
  {
    var i := Offset(alive, idx, 0);
    (idx + if i < |alive| then i + 1 else i) % |alive|
  }

  /** The choice is the first live proxy from the index on, around the list, and the index moves just past it; with
      none alive it is the first proxy, and the index comes round to where it was. */
  lemma ChosenIsNext(alive: seq<bool>, idx: nat) returns (i: nat)
    requires |alive| > 0
    ensures i <= |alive| && forall pos | idx <= pos < idx + i :: !AliveAt(alive, pos)
    ensures i == |alive| ==> Chosen(alive, idx) == 0 && Advanced(alive, idx) == idx % |alive|
    ensures i < |alive| ==>
      && AliveAt(alive, idx + i) && Chosen(alive, idx) == (idx + i) % |alive|
      && Advanced(alive, idx) == (idx + i + 1) % |alive|
  {
    i := Offset(alive, idx, 0);
    NoneSkipped(alive, idx, 0);
    AddOnce(idx, |alive|);
  }

  lemma {:induction false} NoneSkipped(alive: seq<bool>, idx: nat, i: nat)
    requires 0 < |alive| && i <= |alive|
    ensures var r := Offset(alive, idx, i);
      && i <= r <= |alive| && (forall pos | idx + i <= pos < idx + r :: !AliveAt(alive, pos))
      && (r < |alive| ==> AliveAt(alive, idx + r))
    decreases |alive| - i
  {
    if i < |alive| && !AliveAt(alive, idx + i) {
      NoneSkipped(alive, idx, i + 1);
    }
  }

  class RoundRobin {
    var idx: nat

    constructor ()
      ensures idx == 0
    {
      idx := 0;
    }

    method Select(alive: seq<bool>, touch: bool) returns (id: nat)
      requires |alive| > 0
      modifies this
      ensures id == Chosen(alive, old(idx)) && id < |alive|
      ensures idx == if touch then Advanced(alive, old(idx)) else old(idx)
    {
      var i, length := 0, |alive|;
      while i < length
        invariant 0 <= i <= length && Offset(alive, idx, 0) == Offset(alive, idx, i)
      {
        id := (idx + i) % length;
        if alive[id] {
          i := i + 1;
          if touch {
            idx := (idx + i) % length;
          }
          return;
        }
        i := i + 1;
      }
      if touch {
        idx := (idx + i) % length;
      }
      id := 0;
    }

    /** A series of calls over the same list with the same proxies alive. */
    method SelectAll(alive: seq<bool>, touches: seq<bool>) returns (ids: seq<nat>)
      requires |alive| > 0
      modifies this
      ensures ids == Touched(alive, old(idx), touches)
    {
      ids := [];
      for k := 0 to |touches|
        invariant ids + Touched(alive, idx, touches[k..]) == Touched(alive, old(idx), touches)
      {
        assert touches[k..][0] == touches[k] && touches[k..][1..] == touches[k + 1..];
        ghost var was, before := idx, ids;
        var id := Select(alive, touches[k]);
        if touches[k] {
          ids := ids + [id];
          assert before + ([id] + Touched(alive, idx, touches[k + 1..])) == ids + Touched(alive, idx, touches[k + 1..]);
        }
      }
    }
  }

  /** What the touching calls of a series return. */
  ghost function Touched(alive: seq<bool>, idx: nat, touches: seq<bool>): seq<nat>
    requires |alive| > 0
    decreases |touches|
  {
    if touches == [] then []
    else if touches[0] then [Chosen(alive, idx)] + Touched(alive, Advanced(alive, idx), touches[1..])
    else Touched(alive, idx, touches[1..])
  }

  ghost function Touches(touches: seq<bool>): nat {
    if touches == [] then 0 else (if touches[0] then 1 else 0) + Touches(touches[1..])
  }

  /** Live positions from `from` up to `to`, unwrapped. */
  ghost function Live(alive: seq<bool>, from: nat, to: nat): nat
    requires |alive| > 0 && from <= to
  {
    if from == to then 0 else Live(alive, from, to - 1) + if AliveAt(alive, to - 1) then 1 else 0
  }

  lemma {:induction false} LiveSplit(alive: seq<bool>, a: nat, b: nat, c: nat)
    requires |alive| > 0 && a <= b <= c
    ensures Live(alive, a, c) == Live(alive, a, b) + Live(alive, b, c)
    decreases c
  {
    if b < c {
      LiveSplit(alive, a, b, c - 1);
    }
  }

  /** Any stretch as long as the list holds every live proxy once. */
  lemma {:induction false} LiveWindow(alive: seq<bool>, p: nat)
    requires |alive| > 0
    ensures Live(alive, p, p + |alive|) == Live(alive, 0, |alive|)
  {
    if p > 0 {
      var n := |alive|;
      LiveWindow(alive, p - 1);
      LiveSplit(alive, p - 1, p, p - 1 + n);
      AddOnce(p - 1, n);
      assert Live(alive, p - 1, p) == Live(alive, p - 1, p - 1) + if AliveAt(alive, p - 1) then 1 else 0;
    }
  }

  lemma {:induction false} OffsetSkipsDead(alive: seq<bool>, idx: nat, i: nat)
    requires 0 < |alive| && i <= |alive|
    ensures var r := Offset(alive, idx, i);
      && i <= r <= |alive| && (r < |alive| ==> AliveAt(alive, idx + r))
      && Live(alive, idx + i, idx + r) == 0
    decreases |alive| - i
  {
    if i < |alive| && !AliveAt(alive, idx + i) {
      OffsetSkipsDead(alive, idx, i + 1);
      var r := Offset(alive, idx, i);
      LiveSplit(alive, idx + i, idx + i + 1, idx + r);
      assert Live(alive, idx + i, idx + i + 1) == Live(alive, idx + i, idx + i);
    }
  }

  /** The unwrapped positions of `k` choices from `p` on. */
  ghost function Positions(alive: seq<bool>, p: nat, k: nat): seq<nat>
    requires |alive| > 0
    decreases k
  {
    if k == 0 then []
    else
      var pos := p + Offset(alive, p, 0);
      [pos] + Positions(alive, pos + 1, k - 1)
  }

  /** `k` choices starting at `p` stay within one turn from `start` as long as enough live positions remain in
      it; they increase, and reach every live position with fewer than `k` live ones before it. */
  lemma {:induction false} PositionsCover(alive: seq<bool>, start: nat, p: nat, k: nat)
    requires |alive| > 0 && start <= p <= start + |alive|
    requires Live(alive, start, p) + k <= Live(alive, 0, |alive|)
    ensures var r := Positions(alive, p, k);
      && |r| == k
      && (forall i | 0 <= i < k :: p <= r[i] < start + |alive| && AliveAt(alive, r[i]))
      && (forall i, j | 0 <= i < j < k :: r[i] < r[j])
      && (forall t: nat | p <= t < start + |alive| && AliveAt(alive, t) && Live(alive, p, t) < k :: t in r)
    decreases k
  {
    if k > 0 {
      var pos := p + Offset(alive, p, 0);
      NextInTurn(alive, start, p, k);
      PositionsCover(alive, start, pos + 1, k - 1);
      var r, rest := Positions(alive, p, k), Positions(alive, pos + 1, k - 1);
      assert r == [pos] + rest;
      forall t: nat | p <= t < start + |alive| && AliveAt(alive, t) && Live(alive, p, t) < k ensures t in r {
        NextCovers(alive, p, pos, t);
        assert t > pos ==> t in rest;
      }
    }
  }

  /** While live positions remain in the turn, the next choice is one of them, and uses one up. */
  lemma NextInTurn(alive: seq<bool>, start: nat, p: nat, k: nat)
    requires |alive| > 0 && start <= p <= start + |alive|
    requires k > 0 && Live(alive, start, p) + k <= Live(alive, 0, |alive|)
    ensures var pos := p + Offset(alive, p, 0);
      && p <= pos < start + |alive| && AliveAt(alive, pos) && Live(alive, p, pos) == 0
      && Live(alive, start, pos + 1) + k - 1 <= Live(alive, 0, |alive|)
  {
    var n, pos := |alive|, p + Offset(alive, p, 0);
    OffsetSkipsDead(alive, p, 0);
    LiveWindow(alive, start);
    LiveWindow(alive, p);
    LiveSplit(alive, start, p, pos);
    if pos >= start + n {
      LiveSplit(alive, start, start + n, pos);
    }
    assert pos < start + n;
    assert Live(alive, start, pos + 1) == Live(alive, start, pos) + if AliveAt(alive, pos) then 1 else 0;
  }

  /** A live position is not before the next choice; beyond it, one live position less is in between. */
  lemma NextCovers(alive: seq<bool>, p: nat, pos: nat, t: nat)
    requires |alive| > 0 && p <= pos && Live(alive, p, pos) == 0 && AliveAt(alive, pos) && p <= t && AliveAt(alive, t)
    ensures t >= pos && (t > pos ==> Live(alive, p, t) == 1 + Live(alive, pos + 1, t))
  {
    if t < pos {
      NoneLive(alive, p, pos, t);
    } else if t > pos {
      LiveSplit(alive, p, pos, t);
      LiveSplit(alive, pos, pos + 1, t);
      assert Live(alive, pos, pos + 1) == Live(alive, pos, pos) + 1;
    }
  }

  lemma NoneLive(alive: seq<bool>, p: nat, pos: nat, t: nat)
    requires |alive| > 0 && p <= t < pos && Live(alive, p, pos) == 0
    ensures !AliveAt(alive, t)
  {
    LiveSplit(alive, p, t, pos);
    LiveSplit(alive, t, t + 1, pos);
    assert Live(alive, t, t + 1) == Live(alive, t, t) + if AliveAt(alive, t) then 1 else 0;
  }

  lemma ModAdd(a: nat, b: nat, i: nat, n: nat)
    requires n > 0 && a % n == b % n
    ensures (a + i) % n == (b + i) % n
  {
    AddMultiple(a % n + i, n, a / n);
    AddMultiple(b % n + i, n, b / n);
    assert a + i == a % n + i + a / n * n;
    assert b + i == b % n + i + b / n * n;
  }

  lemma {:induction false} OffsetWraps(alive: seq<bool>, a: nat, b: nat, i: nat)
    requires 0 < |alive| && i <= |alive| && a % |alive| == b % |alive|
    ensures Offset(alive, a, i) == Offset(alive, b, i)
    decreases |alive| - i
  {
    if i < |alive| {
      ModAdd(a, b, i, |alive|);
      OffsetWraps(alive, a, b, i + 1);
    }
  }

  lemma ModMod(x: nat, n: nat)
    requires n > 0
    ensures x % n % n == x % n
  {
    QuotientUnique(x % n, n, 0, x % n);
  }

  /** The choices of a series are the unwrapped positions, wrapped; calls that do not touch do not count. */
  lemma {:induction false} TouchedArePositions(alive: seq<bool>, idx: nat, p: nat, touches: seq<bool>)
    requires 0 < |alive| && idx % |alive| == p % |alive| && Live(alive, 0, |alive|) > 0
    ensures var ids, r := Touched(alive, idx, touches), Positions(alive, p, Touches(touches));
      |ids| == |r| == Touches(touches) && forall i | 0 <= i < |ids| :: ids[i] == r[i] % |alive|
    decreases |touches|
  {
    if touches == [] {
    } else if !touches[0] {
      TouchedArePositions(alive, idx, p, touches[1..]);
    } else {
      var n, i := |alive|, Offset(alive, p, 0);
      OffsetWraps(alive, idx, p, 0);
      OffsetSkipsDead(alive, p, 0);
      LiveWindow(alive, p);
      assert i < n;
      ModAdd(idx, p, i, n);
      ModAdd(idx, p, i + 1, n);
      ModMod(idx + i + 1, n);
      TouchedArePositions(alive, Advanced(alive, idx), p + i + 1, touches[1..]);
    }
  }

  /** Where a live proxy comes up in the turn that starts at `idx`. */
  lemma TurnPosition(idx: nat, a: nat, n: nat) returns (t: nat)
    requires a < n
    ensures idx <= t < idx + n && t % n == a
  {
    var q, r := idx / n, idx % n;
    if r <= a {
      t := q * n + a;
      QuotientUnique(t, n, q, a);
    } else {
      t := (q + 1) * n + a;
      QuotientUnique(t, n, q + 1, a);
    }
  }

  lemma SameWindowDistinct(s: nat, t: nat, n: nat)
    requires n > 0 && s < t < s + n
    ensures s % n != t % n
  {
    var d := t / n - s / n;
    assert t - s == d * n + (t % n - s % n);
    ProductSign(d, n);
  }

  /** Fairness: as many touching calls as there are live proxies return each of them exactly once, wherever the
      series starts and however many calls without touch are mixed in. */
  lemma RoundRobinIsFair(alive: seq<bool>, idx: nat, touches: seq<bool>)
    requires 0 < |alive| && Touches(touches) == Live(alive, 0, |alive|) > 0
    ensures var ids := Touched(alive, idx, touches);
      && (forall i, j | 0 <= i < j < |ids| :: ids[i] != ids[j])
      && (forall a: nat :: a in ids <==> a < |alive| && alive[a])
  {
    var n, m := |alive|, Live(alive, 0, |alive|);
    var ids, r := Touched(alive, idx, touches), Positions(alive, idx, m);
    TouchedArePositions(alive, idx, idx, touches);
    PositionsCover(alive, idx, idx, m);
    forall i, j | 0 <= i < j < |ids| ensures ids[i] != ids[j] {
      SameWindowDistinct(r[i], r[j], n);
    }
    forall a: nat | a < n && alive[a] ensures a in ids {
      var t := TurnPosition(idx, a, n);
      LiveWindow(alive, idx);
      LiveSplit(alive, idx, t, idx + n);
      LiveSplit(alive, t, t + 1, idx + n);
      assert Live(alive, t, t + 1) == Live(alive, t, t) + 1;
      assert t in r;
      var i :| 0 <= i < |r| && r[i] == t;
      assert ids[i] == a;
    }
  }
}
