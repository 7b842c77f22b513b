// achievements/evaluators.py and achievements/service.py: the streak-gated
// bonus, and its materialisation from a truncated window of the daily rollup.
// Days are numbered; volumes and percentages are integers in their last decimal.

module Achievements {
  import opened Common

  datatype Tier = Tier(minAvg: int, percent: int)

  datatype Rule =
    | StreakVolumeTier(days: int, minDaily: int, tiers: seq<Tier>)
    | UnknownRule

  // Volume by day; a missing day counts as zero.
  type Volumes = map<int, int>

  function VolumeOn(v: Volumes, day: int): int {
    if day in v then v[day] else 0
  }

  // ── What the streak, the average and the level mean ─────────────────────

  predicate Qualifies(v: Volumes, minDaily: int, day: int) {
    VolumeOn(v, day) > 0 && VolumeOn(v, day) >= minDaily
  }

  function Total(v: Volumes, today: int, days: nat): int {
    if days == 0 then 0 else Total(v, today, days - 1) + VolumeOn(v, today - (days - 1))
  }

  // The longest qualifying run that ends today, up to `days` long.
  ghost predicate IsStreak(v: Volumes, minDaily: int, today: int, days: nat, count: nat) {
    && count <= days
    && (forall d | today - count < d <= today :: Qualifies(v, minDaily, d))
    && (count < days ==> !Qualifies(v, minDaily, today - count))
  }

  // The average reaches a level: compared without dividing.
  predicate Reaches(total: int, days: nat, t: Tier) {
    total >= t.minAvg * days
  }

  predicate SortedTiers(tiers: seq<Tier>) {
    forall j, k | 0 <= j < k < |tiers| :: tiers[j].minAvg <= tiers[k].minAvg
  }

  // `sorted` by the lower bound: stable.
  function Insert(t: Tier, sorted: seq<Tier>): seq<Tier> {
    if sorted == [] || t.minAvg >= sorted[|sorted| - 1].minAvg then sorted + [t]
    else Insert(t, sorted[..|sorted| - 1]) + [sorted[|sorted| - 1]]
  }

  function Sorted(tiers: seq<Tier>): seq<Tier> {
    if tiers == [] then [] else Insert(tiers[|tiers| - 1], Sorted(tiers[..|tiers| - 1]))
  }

  lemma {:induction false} InsertKeeps(t: Tier, sorted: seq<Tier>)
    ensures multiset(Insert(t, sorted)) == multiset(sorted) + multiset{t}
    ensures forall x | x in Insert(t, sorted) :: x == t || x in sorted
  {
    if sorted != [] && t.minAvg < sorted[|sorted| - 1].minAvg {
      var n := |sorted| - 1;
      InsertKeeps(t, sorted[..n]);
      assert sorted == sorted[..n] + [sorted[n]];
    }
  }

  lemma {:induction false} InsertSorts(t: Tier, sorted: seq<Tier>)
    requires SortedTiers(sorted)
    ensures SortedTiers(Insert(t, sorted))
  {
    if sorted != [] && t.minAvg < sorted[|sorted| - 1].minAvg {
      var n := |sorted| - 1;
      InsertSorts(t, sorted[..n]);
      InsertKeeps(t, sorted[..n]);
      forall k | 0 <= k < |Insert(t, sorted[..n])| ensures Insert(t, sorted[..n])[k].minAvg <= sorted[n].minAvg {
        assert Insert(t, sorted[..n])[k] in Insert(t, sorted[..n]);
      }
    }
  }

  lemma {:induction false} SortedSorts(tiers: seq<Tier>)
    ensures SortedTiers(Sorted(tiers)) && multiset(Sorted(tiers)) == multiset(tiers)
  {
    if tiers != [] {
      assert tiers == tiers[..|tiers| - 1] + [tiers[|tiers| - 1]];
      SortedSorts(tiers[..|tiers| - 1]);
      InsertSorts(tiers[|tiers| - 1], Sorted(tiers[..|tiers| - 1]));
      InsertKeeps(tiers[|tiers| - 1], Sorted(tiers[..|tiers| - 1]));
    }
  }

  // Tiers with one lower bound keep the order they were configured in.
  function WithBound(tiers: seq<Tier>, bound: int): seq<Tier> {
    if tiers == [] then []
    else
      WithBound(tiers[..|tiers| - 1], bound)
      + if tiers[|tiers| - 1].minAvg == bound then [tiers[|tiers| - 1]] else []
  }

  lemma {:induction false} WithBoundAppend(tiers: seq<Tier>, t: Tier, bound: int)
    ensures WithBound(tiers + [t], bound) == WithBound(tiers, bound) + if t.minAvg == bound then [t] else []
  {
  }

  lemma {:induction false} InsertStable(t: Tier, sorted: seq<Tier>, bound: int)
    requires SortedTiers(sorted)
    ensures WithBound(Insert(t, sorted), bound) == WithBound(sorted, bound) + if t.minAvg == bound then [t] else []
  {
    if sorted == [] || t.minAvg >= sorted[|sorted| - 1].minAvg {
      assert Insert(t, sorted) == sorted + [t];
      WithBoundAppend(sorted, t, bound);
    } else {
      var n := |sorted| - 1;
      var a := WithBound(sorted[..n], bound);
      InsertStable(t, sorted[..n], bound);
      WithBoundAppend(Insert(t, sorted[..n]), sorted[n], bound);
      assert Insert(t, sorted) == Insert(t, sorted[..n]) + [sorted[n]];
      if t.minAvg == bound {
        assert WithBound(Insert(t, sorted), bound) == (a + [t]) + [] == a + [t];
        assert WithBound(sorted, bound) == a + [] == a;
      } else {
        assert WithBound(Insert(t, sorted[..n]), bound) == a + [] == a;
        assert WithBound(Insert(t, sorted), bound) == a + (if sorted[n].minAvg == bound then [sorted[n]] else []);
      }
    }
  }

  lemma {:induction false} SortedStable(tiers: seq<Tier>, bound: int)
    ensures WithBound(Sorted(tiers), bound) == WithBound(tiers, bound)
  {
    if tiers != [] {
      SortedStable(tiers[..|tiers| - 1], bound);
      SortedSorts(tiers[..|tiers| - 1]);
      InsertStable(tiers[|tiers| - 1], Sorted(tiers[..|tiers| - 1]), bound);
    }
  }

  // ── One rule ────────────────────────────────────────────────────────────

  datatype Result = Result(streak: nat, active: bool, total: int, tiers: seq<Tier>, current: int, tierPercent: int,
                           bonus: int)

  // Everything `evaluate_streak_volume_tier` promises about its result.
  ghost predicate IsResult(days: nat, minDaily: int, tiers: seq<Tier>, v: Volumes, today: int, r: Result) {
    && IsStreak(v, minDaily, today, days, r.streak)
    && (r.active <==> r.streak == days)
    && r.total == Total(v, today, days)
    && r.tiers == Sorted(tiers)
    && -1 <= r.current < |r.tiers|
    && (forall k | 0 <= k <= r.current :: Reaches(r.total, days, r.tiers[k]))
    && (forall k | r.current < k < |r.tiers| :: !Reaches(r.total, days, r.tiers[k]))
    && r.tierPercent == (if r.current >= 0 then r.tiers[r.current].percent else 0)
    && r.bonus == (if r.active then r.tierPercent else 0)
  }

  method EvaluateStreakVolumeTier(days: int, minDaily: int, tiers: seq<Tier>, v: Volumes, today: int)
    returns (r: Option<Result>)
    ensures r.Some? <==> days > 0
    ensures r.Some? ==> IsResult(days, minDaily, tiers, v, today, r.value)
  {
    if days <= 0 {
      return None;
    }
    var sorted := Sorted(tiers);
    var streak := CountStreak(v, minDaily, today, days);
    var active := streak >= days;
    var total := TotalOver(v, today, days);
    SortedSorts(tiers);
    var current := FindLevel(sorted, total, days);
    var percent := if current >= 0 then sorted[current].percent else 0;
    r := Some(Result(streak, active, total, sorted, current, percent, if active then percent else 0));
  }

  method TotalOver(v: Volumes, today: int, days: nat) returns (total: int)
    ensures total == Total(v, today, days)
  {
    total := 0;
    for i := 0 to days
      invariant total == Total(v, today, i)
    {
      total := total + VolumeOn(v, today - i);
    }
  }

  // The last tier whose bound the average reaches.
  method FindLevel(sorted: seq<Tier>, total: int, days: nat) returns (current: int)
    requires SortedTiers(sorted)
    ensures -1 <= current < |sorted|
    ensures forall k | 0 <= k <= current :: Reaches(total, days, sorted[k])
    ensures forall k | current < k < |sorted| :: !Reaches(total, days, sorted[k])
  {
    current := -1;
    for i := 0 to |sorted|
      invariant -1 <= current < i
      invariant forall k | 0 <= k <= current :: Reaches(total, days, sorted[k])
      invariant forall k | current < k < i :: !Reaches(total, days, sorted[k])
    {
      if Reaches(total, days, sorted[i]) {
        ReachesBelow(total, days, sorted, i);
        current := i;
      }
    }
  }

  lemma ReachesBelow(total: int, days: nat, sorted: seq<Tier>, i: nat)
    requires SortedTiers(sorted) && i < |sorted| && Reaches(total, days, sorted[i])
    ensures forall k | 0 <= k <= i :: Reaches(total, days, sorted[k])
  {
  }

  // Walk back from today while the days qualify.
  method CountStreak(v: Volumes, minDaily: int, today: int, days: nat) returns (streak: nat)
    ensures IsStreak(v, minDaily, today, days, streak)
  {
    streak := 0;
    var day := today;
    while streak < days
      invariant streak <= days && day == today - streak
      invariant forall d | today - streak < d <= today :: Qualifies(v, minDaily, d)
    {
      var vol := VolumeOn(v, day);
      if vol > 0 && vol >= minDaily {
        streak := streak + 1;
        day := day - 1;
      } else {
        break;
      }
    }
  }

  lemma {:induction false} TotalAtLeast(v: Volumes, today: int, days: nat, bound: int)
    requires forall d | today - days < d <= today :: VolumeOn(v, d) >= bound
    ensures Total(v, today, days) >= bound * days
  {
    if days > 0 {
      TotalAtLeast(v, today, days - 1, bound);
      assert bound * days == bound * (days - 1) + bound;
    }
  }

  // An unlocked bonus means the average itself is at least the daily minimum.
  lemma ActiveAverage(days: nat, minDaily: int, tiers: seq<Tier>, v: Volumes, today: int, r: Result)
    requires IsResult(days, minDaily, tiers, v, today, r) && r.active
    ensures r.total >= minDaily * days
  {
    forall d | today - days < d <= today ensures VolumeOn(v, d) >= minDaily {
      assert Qualifies(v, minDaily, d);
    }
    TotalAtLeast(v, today, days, minDaily);
  }

  // The promise leaves no freedom: the result is determined.
  lemma ResultUnique(days: nat, minDaily: int, tiers: seq<Tier>, v: Volumes, today: int, r: Result, s: Result)
    requires IsResult(days, minDaily, tiers, v, today, r) && IsResult(days, minDaily, tiers, v, today, s)
    ensures r == s
  {
  }

  function LastReached(sorted: seq<Tier>, total: int, days: nat): int {
    if sorted == [] then -1
    else if Reaches(total, days, sorted[|sorted| - 1]) then |sorted| - 1
    else LastReached(sorted[..|sorted| - 1], total, days)
  }

  lemma {:induction false} IndexIs(sorted: seq<Tier>, total: int, days: nat, current: int)
    requires -1 <= current < |sorted|
    requires forall k | 0 <= k <= current :: Reaches(total, days, sorted[k])
    requires forall k | current < k < |sorted| :: !Reaches(total, days, sorted[k])
    ensures LastReached(sorted, total, days) == current
  {
    if sorted != [] && current < |sorted| - 1 {
      IndexIs(sorted[..|sorted| - 1], total, days, current);
    }
  }

  // ── The bonus of a trader ───────────────────────────────────────────────

  function Streak(v: Volumes, minDaily: int, day: int, days: nat): nat
    decreases days
  {
    if days == 0 || !Qualifies(v, minDaily, day) then 0 else 1 + Streak(v, minDaily, day - 1, days - 1)
  }

  function Level(sorted: seq<Tier>, total: int, days: nat): int {
    if sorted == [] then 0
    else if Reaches(total, days, sorted[|sorted| - 1]) then sorted[|sorted| - 1].percent
    else Level(sorted[..|sorted| - 1], total, days)
  }

  // What one rule contributes: never a negative bonus.
  function Contribution(rule: Rule, v: Volumes, today: int): nat {
    if rule.UnknownRule? || rule.days <= 0 || Streak(v, rule.minDaily, today, rule.days) < rule.days then 0
    else
      var percent := Level(Sorted(rule.tiers), Total(v, today, rule.days), rule.days);
      if percent <= 0 then 0 else percent
  }

  function Sum(rules: seq<Rule>, v: Volumes, today: int): nat {
    if rules == [] then 0 else Sum(rules[..|rules| - 1], v, today) + Contribution(rules[|rules| - 1], v, today)
  }

  // A cap of zero or less is no cap.
  function Bonus(rules: seq<Rule>, cap: int, v: Volumes, today: int): nat {
    var total := Sum(rules, v, today);
    if cap > 0 && cap < total then cap else total
  }

  lemma {:induction false} StreakCounts(v: Volumes, minDaily: int, day: int, days: nat, count: nat)
    requires IsStreak(v, minDaily, day, days, count)
    ensures Streak(v, minDaily, day, days) == count
    decreases days
  {
    if count > 0 {
      StreakCounts(v, minDaily, day - 1, days - 1, count - 1);
    }
  }

  lemma {:induction false} LevelIs(sorted: seq<Tier>, total: int, days: nat, current: int)
    requires -1 <= current < |sorted|
    requires forall k | 0 <= k <= current :: Reaches(total, days, sorted[k])
    requires forall k | current < k < |sorted| :: !Reaches(total, days, sorted[k])
    ensures Level(sorted, total, days) == if current >= 0 then sorted[current].percent else 0
  {
    if sorted != [] && current < |sorted| - 1 {
      LevelIs(sorted[..|sorted| - 1], total, days, current);
    }
  }

  // `evaluate_bonus`: unknown rules are skipped, only positive outcomes count.
  method EvaluateBonus(rules: seq<Rule>, cap: int, v: Volumes, today: int) returns (total: int, outcomes: seq<int>)
    ensures total == Bonus(rules, cap, v, today)
    ensures forall k | 0 <= k < |outcomes| :: outcomes[k] > 0
  {
    outcomes := [];
    total := 0;
    for k := 0 to |rules|
      invariant total == Sum(rules[..k], v, today)
      invariant forall j | 0 <= j < |outcomes| :: outcomes[j] > 0
    {
      assert rules[..k + 1][..k] == rules[..k];
      var rule := rules[k];
      if rule.UnknownRule? {
        continue;
      }
      var r := EvaluateStreakVolumeTier(rule.days, rule.minDaily, rule.tiers, v, today);
      if r.None? {
        continue;
      }
      StreakCounts(v, rule.minDaily, today, rule.days, r.value.streak);
      LevelIs(r.value.tiers, r.value.total, rule.days, r.value.current);
      if r.value.bonus > 0 {
        outcomes := outcomes + [r.value.bonus];
        total := total + r.value.bonus;
      }
    }
    assert rules[..|rules|] == rules;
    if cap > 0 {
      total := if cap < total then cap else total;
    }
  }

  // What the rules of a trader come to: a result for each known rule with days.
  ghost predicate AreResults(rules: seq<Rule>, v: Volumes, today: int, results: seq<Option<Result>>) {
    && |results| == |rules|
    && forall k | 0 <= k < |rules| ::
         if rules[k].StreakVolumeTier? && rules[k].days > 0
         then results[k].Some?
              && IsResult(rules[k].days, rules[k].minDaily, rules[k].tiers, v, today, results[k].value)
         else results[k].None?
  }

  function SumPositive(results: seq<Option<Result>>): nat {
    if results == [] then 0
    else
      var last := results[|results| - 1];
      SumPositive(results[..|results| - 1]) + if last.Some? && last.value.bonus > 0 then last.value.bonus else 0
  }

  lemma {:induction false} SumIsPositive(rules: seq<Rule>, v: Volumes, today: int, results: seq<Option<Result>>)
    requires AreResults(rules, v, today, results)
    ensures Sum(rules, v, today) == SumPositive(results)
  {
    if rules != [] {
      var n := |rules| - 1;
      SumIsPositive(rules[..n], v, today, results[..n]);
      if results[n].Some? {
        var r := results[n].value;
        StreakCounts(v, rules[n].minDaily, today, rules[n].days, r.streak);
        LevelIs(r.tiers, r.total, rules[n].days, r.current);
      }
    }
  }

  // A trader's bonus is the sum of the positive results, and a positive cap bounds
  // it: never more than the cap, the sum whenever that is within it.
  lemma {:induction false} BonusIsCappedSum(
      rules: seq<Rule>, cap: int, v: Volumes, today: int, results: seq<Option<Result>>)
    requires AreResults(rules, v, today, results)
    ensures cap > 0 ==> Bonus(rules, cap, v, today) <= cap
    ensures cap <= 0 || SumPositive(results) <= cap ==> Bonus(rules, cap, v, today) == SumPositive(results)
    ensures cap > 0 && SumPositive(results) > cap ==> Bonus(rules, cap, v, today) == cap
  {
    SumIsPositive(rules, v, today, results);
  }

  // ── The truncated window ────────────────────────────────────────────────

  // `_max_streak_lookback_days`
  method MaxStreakLookback(rules: seq<Rule>) returns (lookback: int)
    ensures lookback == Lookback(rules)
  {
    var best := 1;
    for k := 0 to |rules|
      invariant best + 2 == Lookback(rules[..k])
    {
      assert rules[..k + 1][..k] == rules[..k];
      if rules[k].StreakVolumeTier? {
        best := if rules[k].days > best then rules[k].days else best;
      }
    }
    assert rules[..|rules|] == rules;
    lookback := best + 2;
  }

  function Lookback(rules: seq<Rule>): int {
    if rules == [] then 3
    else
      var before, rule := Lookback(rules[..|rules| - 1]), rules[|rules| - 1];
      if rule.StreakVolumeTier? && rule.days + 2 > before then rule.days + 2 else before
  }

  function Since(v: Volumes, from: int): Volumes {
    map d | d in v && d >= from :: v[d]
  }

  predicate Agree(v: Volumes, w: Volumes, from: int, today: int) {
    forall d | from <= d <= today :: VolumeOn(v, d) == VolumeOn(w, d)
  }

  lemma {:induction false} StreakLocal(v: Volumes, w: Volumes, minDaily: int, day: int, days: nat, from: int)
    requires Agree(v, w, from, day) && day - days >= from - 1
    ensures Streak(v, minDaily, day, days) == Streak(w, minDaily, day, days)
    decreases days
  {
    if days > 0 {
      assert VolumeOn(v, day) == VolumeOn(w, day);
      StreakLocal(v, w, minDaily, day - 1, days - 1, from);
    }
  }

  lemma {:induction false} TotalLocal(v: Volumes, w: Volumes, today: int, days: nat, from: int)
    requires Agree(v, w, from, today) && today - days >= from - 1
    ensures Total(v, today, days) == Total(w, today, days)
  {
    if days > 0 {
      TotalLocal(v, w, today, days - 1, from);
      assert VolumeOn(v, today - (days - 1)) == VolumeOn(w, today - (days - 1));
    }
  }

  lemma {:induction false} SumLocal(rules: seq<Rule>, v: Volumes, w: Volumes, today: int, from: int)
    requires Agree(v, w, from, today) && from <= today - Lookback(rules)
    ensures Sum(rules, v, today) == Sum(rules, w, today)
  {
    if rules != [] {
      var rule := rules[|rules| - 1];
      SumLocal(rules[..|rules| - 1], v, w, today, from);
      if rule.StreakVolumeTier? && rule.days > 0 {
        StreakLocal(v, w, rule.minDaily, today, rule.days, from);
        TotalLocal(v, w, today, rule.days, from);
      }
    }
  }

  lemma {:induction false} LookbackPositive(rules: seq<Rule>)
    ensures Lookback(rules) >= 3
  {
    if rules != [] {
      LookbackPositive(rules[..|rules| - 1]);
    }
  }

  lemma {:induction false} NoVolumeNoBonus(rules: seq<Rule>, v: Volumes, today: int)
    requires VolumeOn(v, today) <= 0
    ensures Sum(rules, v, today) == 0
  {
    if rules != [] {
      NoVolumeNoBonus(rules[..|rules| - 1], v, today);
    }
  }

  // The days that were not loaded cannot change any bonus.
  lemma {:induction false} WindowSuffices(rules: seq<Rule>, cap: int, v: Volumes, today: int)
    ensures Bonus(rules, cap, Since(v, today - Lookback(rules)), today) == Bonus(rules, cap, v, today)
  {
    SumLocal(rules, Since(v, today - Lookback(rules)), v, today, today - Lookback(rules));
  }

  // ── Materialisation ─────────────────────────────────────────────────────

  function Of(history: map<nat, Volumes>, id: nat): Volumes {
    if id in history then history[id] else map[]
  }

  // `load_volume_window`: traders with a row on or after the day.
  function Window(history: map<nat, Volumes>, from: int): map<nat, Volumes> {
    map id | id in history && HasRecent(history[id], from) :: Since(history[id], from)
  }

  predicate HasRecent(v: Volumes, from: int) {
    exists day :: day in v && day >= from
  }

  // Who is looked at: recent volume, or a bonus to clear.
  function Visited(window: map<nat, Volumes>, current: map<nat, int>): set<nat> {
    window.Keys + set id | id in current && current[id] > 0
  }

  // The bonus computed from the loaded window.
  function Computed(window: map<nat, Volumes>, rules: seq<Rule>, cap: int, today: int, id: nat): nat {
    Bonus(rules, cap, Of(window, id), today)
  }

  class BonusTable {
    // The bonus column of the trader rows; ids without a row are not in it.
    var stored: map<nat, int>

    constructor (stored: map<nat, int>)
      ensures this.stored == stored
    {
      this.stored := stored;
    }

    // An UPDATE that touches no row for an unknown id.
    method SetTraderBonus(id: nat, bonus: int)
      modifies this
      ensures stored == if id in old(stored) then old(stored)[id := bonus] else old(stored)
    {
      if id in stored {
        stored := stored[id := bonus];
      }
    }

    method EvaluateOne(window: map<nat, Volumes>, id: nat, rules: seq<Rule>, cap: int, today: int,
                       ghost goal: map<nat, int>)
      returns (total: int)
      requires id in goal && IsGoal(goal, window, rules, cap, today)
      ensures total == goal[id]
    {
      var bonus, outcomes := EvaluateBonus(rules, cap, if id in window then window[id] else map[], today);
      assert bonus == Computed(window, rules, cap, today, id);
      total := bonus;
    }

    // Write a trader's bonus if it changed.
    method VisitOne(id: nat, total: int, current: int) returns (changed: bool)
      modifies this
      ensures changed <==> total != current
      ensures stored == if changed && id in old(stored) then old(stored)[id := total] else old(stored)
    {
      changed := total != current;
      if changed {
        SetTraderBonus(id, total);
      }
    }

    // The loop of `recompute_bonuses`: in any order, writing only changes.
    // `goal` is what the evaluations will come to.
    method VisitAll(window: map<nat, Volumes>, ids: set<nat>, rules: seq<Rule>, cap: int, today: int,
                    ghost goal: map<nat, int>)
      returns (changed: nat)
      requires goal.Keys == ids && IsGoal(goal, window, rules, cap, today)
      modifies this
      ensures stored == Updated(old(stored), goal, ids)
      ensures changed == |Differing(goal, old(stored))|
    {
      var current := stored;
      var todo := ids;
      changed := 0;
      while todo != {}
        invariant todo <= ids
        invariant stored == Updated(current, goal, ids - todo)
        invariant changed == |Differing(goal, current) * (ids - todo)|
        decreases todo
      {
        var id :| id in todo;
        var total := EvaluateOne(window, id, rules, cap, today, goal);
        OneMore(Differing(goal, current), ids, todo, id);
        OneMoreUpdated(current, goal, ids, todo, id);
        todo := todo - {id};
        var written := VisitOne(id, total, Get(current, id));
        changed := changed + if written then 1 else 0;
      }
      assert Differing(goal, current) * ids == Differing(goal, current) && ids - todo == ids;
    }

    // `recompute_bonuses`: only traders in the window or with a bonus to clear
    // are looked at.
    method RecomputeBonuses(history: map<nat, Volumes>, rules: seq<Rule>, cap: int, today: int) returns (changed: nat)
      modifies this
      ensures stored == Materialised(history, rules, cap, today, old(stored))
      ensures changed ==
              |Stale(history, rules, cap, today, old(stored)) - Overlooked(history, rules, today, old(stored))|
    {
      ghost var before := stored;
      var lookback := MaxStreakLookback(rules);
      var window := Window(history, today - lookback);
      ghost var goal := WindowIsEnough(history, rules, cap, today, before);
      changed := VisitAll(window, Visited(window, stored), rules, cap, today, goal);
    }
  }

  predicate IsGoal(goal: map<nat, int>, window: map<nat, Volumes>, rules: seq<Rule>, cap: int, today: int) {
    forall id {:trigger Computed(window, rules, cap, today, id)} | id in goal ::
      goal[id] == Computed(window, rules, cap, today, id)
  }

  function Differing(goal: map<nat, int>, current: map<nat, int>): set<nat> {
    set id | id in goal && goal[id] != Get(current, id)
  }

  function Updated(current: map<nat, int>, goal: map<nat, int>, done: set<nat>): map<nat, int> {
    map id | id in current :: if id in done && id in goal then goal[id] else current[id]
  }

  lemma OneMoreUpdated(current: map<nat, int>, goal: map<nat, int>, ids: set<nat>, todo: set<nat>, id: nat)
    requires id in todo && todo <= ids && id in goal
    ensures
      var before, after := Updated(current, goal, ids - todo), Updated(current, goal, ids - (todo - {id}));
      after == if goal[id] != Get(current, id) && id in current then before[id := goal[id]] else before
  {
  }

  lemma OneMore(stale: set<nat>, ids: set<nat>, todo: set<nat>, id: nat)
    requires id in todo && todo <= ids
    ensures |stale * (ids - (todo - {id}))| == |stale * (ids - todo)| + if id in stale then 1 else 0
  {
    if id in stale {
      assert stale * (ids - (todo - {id})) == stale * (ids - todo) + {id};
    } else {
      assert stale * (ids - (todo - {id})) == stale * (ids - todo);
    }
  }

  // The bonus a trader should have, from the whole history.
  function Target(history: map<nat, Volumes>, rules: seq<Rule>, cap: int, today: int, id: nat): nat {
    Bonus(rules, cap, Of(history, id), today)
  }

  function GoalFor(history: map<nat, Volumes>, rules: seq<Rule>, cap: int, today: int, ids: set<nat>): map<nat, int> {
    map id | id in ids :: Target(history, rules, cap, today, id)
  }

  // The ids whose stored bonus is not the one they should have.
  function Stale(history: map<nat, Volumes>, rules: seq<Rule>, cap: int, today: int, stored: map<nat, int>): set<nat> {
    set id | id in Window(history, today - Lookback(rules)).Keys + stored.Keys
             && Target(history, rules, cap, today, id) != Get(stored, id)
  }

  // The ids nobody looks at although their stored bonus is wrong: a negative one
  // without recent volume.
  function Overlooked(history: map<nat, Volumes>, rules: seq<Rule>, today: int, stored: map<nat, int>): set<nat> {
    set id | id in stored && stored[id] < 0 && id !in Window(history, today - Lookback(rules))
  }

  // What a recomputation leaves in the column.
  function Materialised(history: map<nat, Volumes>, rules: seq<Rule>, cap: int, today: int, before: map<nat, int>)
    : map<nat, int>
  {
    map id | id in before ::
      if id in Overlooked(history, rules, today, before) then before[id] else Target(history, rules, cap, today, id)
  }

  // A stored bonus is the bonus over the whole history afterwards exactly when it
  // was not a negative one that is overlooked.
  lemma {:induction false} MaterialisedExactly(
      history: map<nat, Volumes>, rules: seq<Rule>, cap: int, today: int, before: map<nat, int>, id: nat)
    requires id in before
    ensures Materialised(history, rules, cap, today, before)[id] == Target(history, rules, cap, today, id) <==>
            (before[id] >= 0 || id in Window(history, today - Lookback(rules)))
  {
    if id !in Window(history, today - Lookback(rules)) {
      SkippedHasNone(history, rules, cap, today, id);
    }
  }

  // A trader's loaded volumes give the same bonus as the whole history.
  lemma {:induction false} WindowOf(history: map<nat, Volumes>, rules: seq<Rule>, cap: int, today: int, id: nat)
    ensures Computed(Window(history, today - Lookback(rules)), rules, cap, today, id) ==
            Target(history, rules, cap, today, id)
  {
    var from := today - Lookback(rules);
    WindowSuffices(rules, cap, Of(history, id), today);
    if id !in Window(history, from) {
      assert Since(Of(history, id), from) == map[];
    }
  }

  // The truncated window and the skipped traders make no other difference.
  lemma WindowIsEnough(history: map<nat, Volumes>, rules: seq<Rule>, cap: int, today: int, before: map<nat, int>)
    returns (goal: map<nat, int>)
    ensures
      var window := Window(history, today - Lookback(rules));
      && goal.Keys == Visited(window, before)
      && IsGoal(goal, window, rules, cap, today)
      && Updated(before, goal, Visited(window, before)) == Materialised(history, rules, cap, today, before)
      && Stale(history, rules, cap, today, before) - Overlooked(history, rules, today, before) ==
         Differing(goal, before)
  {
    var window := Window(history, today - Lookback(rules));
    goal := GoalFor(history, rules, cap, today, Visited(window, before));
    forall id | id in goal ensures goal[id] == Computed(window, rules, cap, today, id) {
      WindowOf(history, rules, cap, today, id);
    }
    SkippedAreFine(history, rules, cap, today, before);
    assert Updated(before, goal, Visited(window, before)) == Materialised(history, rules, cap, today, before);
    StaleAreVisited(history, rules, cap, today, before);
  }

  // Whoever is skipped already has the right bonus, none, or a negative one.
  lemma {:induction false} SkippedAreFine(
      history: map<nat, Volumes>, rules: seq<Rule>, cap: int, today: int, before: map<nat, int>)
    ensures forall id | id in before && id !in Visited(Window(history, today - Lookback(rules)), before) ::
              id in Overlooked(history, rules, today, before) || Target(history, rules, cap, today, id) == before[id]
  {
    forall id | id in before && id !in Visited(Window(history, today - Lookback(rules)), before)
      ensures id in Overlooked(history, rules, today, before) || Target(history, rules, cap, today, id) == before[id]
    {
      SkippedHasNone(history, rules, cap, today, id);
    }
  }

  lemma {:induction false} StaleAreVisited(
      history: map<nat, Volumes>, rules: seq<Rule>, cap: int, today: int, before: map<nat, int>)
    ensures Stale(history, rules, cap, today, before) - Overlooked(history, rules, today, before) ==
            Differing(GoalFor(history, rules, cap, today, Visited(Window(history, today - Lookback(rules)), before)),
                      before)
  {
    SkippedAreFine(history, rules, cap, today, before);
  }

  // A trader outside the window has no bonus.
  lemma {:induction false} SkippedHasNone(history: map<nat, Volumes>, rules: seq<Rule>, cap: int, today: int, id: nat)
    requires id !in Window(history, today - Lookback(rules))
    ensures Bonus(rules, cap, Of(history, id), today) == 0
  {
    LookbackPositive(rules);
    var v := Of(history, id);
    assert today !in v;
    NoVolumeNoBonus(rules, v, today);
  }

  // Recomputing on the same rollup stores nothing new. It reports as changed
  // only ids that have volume and a bonus but no trader row to store it in.
  method RecomputeTwice(table: BonusTable, history: map<nat, Volumes>, rules: seq<Rule>, cap: int, today: int)
    returns (first: nat, second: nat)
    modifies table
    ensures table.stored == Materialised(history, rules, cap, today, old(table.stored))
    ensures second == |Unstorable(history, rules, cap, today, table.stored)|
  {
    first := table.RecomputeBonuses(history, rules, cap, today);
    ghost var once := table.stored;
    second := table.RecomputeBonuses(history, rules, cap, today);
    MaterialisedIsStable(history, rules, cap, today, old(table.stored));
    assert table.stored == once;
  }

  // The ids with recent volume and a bonus that have no trader row.
  function Unstorable(history: map<nat, Volumes>, rules: seq<Rule>, cap: int, today: int,
                      stored: map<nat, int>): set<nat>
  {
    set id | id in Window(history, today - Lookback(rules)).Keys && id !in stored
             && Target(history, rules, cap, today, id) > 0
  }

  lemma {:induction false} MaterialisedIsStable(
      history: map<nat, Volumes>, rules: seq<Rule>, cap: int, today: int, before: map<nat, int>)
    ensures
      var once := Materialised(history, rules, cap, today, before);
      && Materialised(history, rules, cap, today, once) == once
      && Stale(history, rules, cap, today, once) - Overlooked(history, rules, today, once)
         == Unstorable(history, rules, cap, today, once)
  {
    var once := Materialised(history, rules, cap, today, before);
    assert Overlooked(history, rules, today, once) == Overlooked(history, rules, today, before);
  }

  // Somebody with volume and a bonus but no trader row is counted in every run.
  lemma CountedForEver()
    ensures 5 in Unstorable(map[5 := map[0 := 100]], [StreakVolumeTier(1, 0, [Tier(0, 50)])], 0, 0, map[])
  {
    var v: Volumes, t, rule := map[0 := 100], Tier(0, 50), StreakVolumeTier(1, 0, [Tier(0, 50)]);
    assert [t][..0] == [] && Sorted([t]) == Insert(t, Sorted([t][..0])) == [t];
    assert Streak(v, 0, 0, 1) == 1 + Streak(v, 0, -1, 0) && Total(v, 0, 1) == 100;
    assert Level([t], 100, 1) == 50;
    assert [rule][..0] == [] && Sum([rule], v, 0) == Sum([rule][..0], v, 0) + Contribution(rule, v, 0) == 50;
    assert Lookback([rule]) == Lookback([rule][..0]) == 3;
    assert 0 in v && 0 >= 0 - 3;
  }

  // A negative bonus without recent volume stays.
  lemma NegativeStays()
    ensures Materialised(map[], [], 0, 0, map[5 := -3]) == map[5 := -3]
  {
  }
}
