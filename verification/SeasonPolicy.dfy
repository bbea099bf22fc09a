/** The season score policy across its clamps: bounds, and how the rounded score
    responds to points, hints and time. */
module SeasonPolicy {
  import opened Wrappers
  import opened Reporting
  import opened Rounding

  lemma MultiplyMonotone(a: real, b: real, c: real, d: real)
    requires 0.0 <= a <= b && 0.0 <= c <= d
    ensures 0.0 <= a * c <= b * d
  {
    assert a * c <= b * c;
    assert b * c <= b * d;
  }

  lemma ScaleKeepsOrder(p: real, q: real, n: real)
    requires n > 0.0 && p > q
    ensures p * n > q * n
  {
    assert (p - q) * n > 0.0;
  }

  lemma DivideMonotone(a: real, b: real, n: real)
    requires a <= b && n > 0.0
    ensures a / n <= b / n
    ensures a >= 0.0 ==> a / n >= 0.0
    ensures b <= n ==> b / n <= 1.0
  {
    var p, q := a / n, b / n;
    assert p * n == a && q * n == b;
    if p > q { ScaleKeepsOrder(p, q, n); }
    if 0.0 > p { ScaleKeepsOrder(0.0, p, n); }
    if q > 1.0 { ScaleKeepsOrder(q, 1.0, n); }
  }

  lemma TimeMultiplierBounds(item: Item)
    ensures 1.0 <= TimeMultiplier(item) <= 1.2
  {}

  lemma HintMultiplierBounds(item: Item)
    requires item.hintsUsed >= 0
    ensures 0.8 <= HintMultiplier(item) <= 1.0
  {}

  /** A fifth more for finishing within half the allotted time, tapering to nothing at its end. */
  lemma TimeBonusIs(item: Item)
    requires item.ttlSeconds > 0 && item.durationSeconds.Some? && item.durationSeconds.value >= 0
    ensures 2 * item.durationSeconds.value <= item.ttlSeconds ==> TimeMultiplier(item) == 1.2
    ensures item.durationSeconds.value >= item.ttlSeconds ==> TimeMultiplier(item) == 1.0
    ensures item.ttlSeconds <= 2 * item.durationSeconds.value <= 2 * item.ttlSeconds ==>
              TimeMultiplier(item) == 1.4 - 0.4 * (item.durationSeconds.value as real / item.ttlSeconds as real)
  {
    var ttl, spent := item.ttlSeconds as real, item.durationSeconds.value as real;
    assert (2 * item.durationSeconds.value) as real == 2.0 * spent;
    DivideMonotone(spent, spent, ttl);
    if 2 * item.durationSeconds.value <= item.ttlSeconds { DivideMonotone(spent, ttl * 0.5, ttl); }
    if item.durationSeconds.value >= item.ttlSeconds { DivideMonotone(ttl, spent, ttl); }
    if item.ttlSeconds <= 2 * item.durationSeconds.value { DivideMonotone(ttl * 0.5, spent, ttl); }
    WholeAndHalf(ttl);
  }

  lemma WholeAndHalf(n: real)
    requires n > 0.0
    ensures n / n == 1.0 && (n * 0.5) / n == 0.5
  {}

  /** Four percent less for each hint up to the fifth, and no less after that. */
  lemma HintPenaltyIs(item: Item)
    requires item.hintsUsed >= 0
    ensures HintMultiplier(item) == if item.hintsUsed >= 5 then 0.8 else 1.0 - 0.04 * item.hintsUsed as real
  {}

  /** Same lab and policy inputs, with at least as many points, no more hints and no
      longer a time. A missing or impossible time earns no bonus, so it counts as the longest. */
  predicate NoBetter(low: Item, high: Item) {
    && low.difficulty == high.difficulty && low.ttlSeconds == high.ttlSeconds
    && low.hintsUsed >= high.hintsUsed >= 0
    && NoFaster(low.durationSeconds, high.durationSeconds)
  }

  predicate NoFaster(slow: Option<int>, fast: Option<int>) {
    slow == fast
    || (fast.Some? && fast.value >= 0 && (slow.None? || slow.value < 0 || slow.value >= fast.value))
  }

  lemma ClampMonotone(x: real, y: real)
    requires x <= y
    ensures Clamp(x, 0.0, 1.0) <= Clamp(y, 0.0, 1.0)
  {}

  lemma TimeMultiplierMonotone(low: Item, high: Item)
    requires low.ttlSeconds == high.ttlSeconds && NoFaster(low.durationSeconds, high.durationSeconds)
    ensures TimeMultiplier(low) <= TimeMultiplier(high)
  {
    TimeMultiplierBounds(high);
    if low.ttlSeconds > 0 && low.durationSeconds.Some? && low.durationSeconds.value >= 0 && low.durationSeconds != high.durationSeconds {
      var ttl := low.ttlSeconds as real;
      var slow, fast := low.durationSeconds.value as real / ttl, high.durationSeconds.value as real / ttl;
      DivideMonotone(high.durationSeconds.value as real, low.durationSeconds.value as real, ttl);
      DivideMonotone(1.0 - slow, 1.0 - fast, 0.5);
      ClampMonotone((1.0 - slow) / 0.5, (1.0 - fast) / 0.5);
    }
  }

  lemma HintMultiplierMonotone(low: Item, high: Item)
    requires low.hintsUsed >= high.hintsUsed >= 0
    ensures HintMultiplier(low) <= HintMultiplier(high)
  {}

  function Weighted(base: int, accuracy: real, time: real, hints: real): real { base as real * accuracy * time * hints }

  lemma WeightedMonotone(base: int, a: real, b: real, s: real, t: real, h: real, k: real)
    requires base >= 0 && 0.0 <= a <= b && 0.0 <= s <= t && 0.0 <= h <= k
    ensures 0.0 <= Weighted(base, a, s, h) <= Weighted(base, b, t, k)
  {
    MultiplyMonotone(base as real, base as real, a, b);
    MultiplyMonotone(base as real * a, base as real * b, s, t);
    MultiplyMonotone(base as real * a * s, base as real * b * t, h, k);
  }

  lemma SeasonScoreIs(item: Item, keys: Option<set<string>>)
    ensures var scored := EvidencePoints(item, keys);
            SeasonScore(item, keys) ==
            if scored.1 <= 0 then 0
            else Round(Weighted(BasePoints(item.difficulty), scored.0 as real / scored.1 as real, TimeMultiplier(item), HintMultiplier(item)))
  {}

  /** The score never leaves 0 .. round(1.2 * base). */
  lemma SeasonScoreBounds(item: Item, keys: Option<set<string>>)
    requires var scored := EvidencePoints(item, keys); 0 <= scored.0 <= scored.1
    requires item.hintsUsed >= 0
    ensures 0 <= SeasonScore(item, keys) <= Round(1.2 * BasePoints(item.difficulty) as real)
  {
    var scored := EvidencePoints(item, keys);
    SeasonScoreIs(item, keys);
    if scored.1 > 0 {
      var accuracy := scored.0 as real / scored.1 as real;
      DivideMonotone(scored.0 as real, scored.0 as real, scored.1 as real);
      TimeMultiplierBounds(item);
      HintMultiplierBounds(item);
      var exact := Weighted(BasePoints(item.difficulty), accuracy, TimeMultiplier(item), HintMultiplier(item));
      WeightedMonotone(BasePoints(item.difficulty), 0.0, accuracy, 0.0, TimeMultiplier(item), 0.0, HintMultiplier(item));
      WeightedMonotone(BasePoints(item.difficulty), accuracy, 1.0, TimeMultiplier(item), 1.2, HintMultiplier(item), 1.0);
      FullWeight(BasePoints(item.difficulty));
      RoundMonotone(0.0, exact);
      RoundMonotone(exact, 1.2 * BasePoints(item.difficulty) as real);
    }
  }

  lemma FullWeight(base: int)
    ensures Weighted(base, 1.0, 1.2, 1.0) == 1.2 * base as real
  {}

  /** More points never lower the rounded score, more hints or a longer time never raise it. */
  lemma SeasonScoreMonotone(low: Item, high: Item, keys: Option<set<string>>)
    requires NoBetter(low, high)
    requires EvidencePoints(low, keys).1 == EvidencePoints(high, keys).1
    requires 0 <= EvidencePoints(low, keys).0 <= EvidencePoints(high, keys).0
    ensures SeasonScore(low, keys) <= SeasonScore(high, keys)
  {
    var a, b := EvidencePoints(low, keys), EvidencePoints(high, keys);
    SeasonScoreIs(low, keys);
    SeasonScoreIs(high, keys);
    if a.1 > 0 {
      DivideMonotone(a.0 as real, b.0 as real, a.1 as real);
      TimeMultiplierMonotone(low, high);
      TimeMultiplierBounds(low);
      HintMultiplierMonotone(low, high);
      HintMultiplierBounds(low);
      var x := Weighted(BasePoints(low.difficulty), a.0 as real / a.1 as real, TimeMultiplier(low), HintMultiplier(low));
      var y := Weighted(BasePoints(high.difficulty), b.0 as real / a.1 as real, TimeMultiplier(high), HintMultiplier(high));
      WeightedMonotone(BasePoints(low.difficulty), a.0 as real / a.1 as real, b.0 as real / a.1 as real,
                       TimeMultiplier(low), TimeMultiplier(high), HintMultiplier(low), HintMultiplier(high));
      RoundMonotone(x, y);
    }
  }

  /** Full marks are worth at least what is left of the base after the hints, and so
      never less than four fifths of it. */
  lemma FullMarksFloor(item: Item, keys: Option<set<string>>)
    requires EvidencePoints(item, keys).0 == EvidencePoints(item, keys).1 > 0 && item.hintsUsed >= 0
    ensures var base := BasePoints(item.difficulty) as real;
            && Round(base * (if item.hintsUsed >= 5 then 0.8 else 1.0 - 0.04 * item.hintsUsed as real)) <= SeasonScore(item, keys)
            && Round(0.8 * base) <= SeasonScore(item, keys)
  {
    var base, most := BasePoints(item.difficulty), EvidencePoints(item, keys).1;
    SeasonScoreIs(item, keys);
    HintPenaltyIs(item);
    HintMultiplierBounds(item);
    TimeMultiplierBounds(item);
    WholeAndHalf(most as real);
    var exact := Weighted(base, 1.0, TimeMultiplier(item), HintMultiplier(item));
    WeightedMonotone(base, 1.0, 1.0, 1.0, TimeMultiplier(item), HintMultiplier(item), HintMultiplier(item));
    WeightedMonotone(base, 1.0, 1.0, 1.0, TimeMultiplier(item), 0.8, HintMultiplier(item));
    RoundMonotone(base as real * HintMultiplier(item), exact);
    RoundMonotone(0.8 * base as real, exact);
  }
}
