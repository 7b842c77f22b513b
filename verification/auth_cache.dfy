// merchants/auth_cache.py: merchants by api key, cached in the process (L1) and
// in Redis (L2). Keys stand for their hashes; each call is one step at one
// reading of the clock.

module AuthCache {
  import opened Common

  const L1_TTL := 30
  const L1_MAX := 512
  const L2_TTL := 300
  const NEGATIVE_TTL := 5

  type Key = string

  datatype Merchant = Merchant(id: nat, data: int)

  // What the database answers for a key at a time.
  type History = (int, Key) -> Option<Merchant>

  // ── L1: a dictionary in insertion order ─────────────────────────────────

  datatype Slot = Slot(key: Key, value: Option<Merchant>, expires: int)

  function Lookup(l1: seq<Slot>, key: Key): (r: Option<Slot>)
    ensures r.Some? ==> r.value in l1 && r.value.key == key
    ensures r.None? ==> forall x | x in l1 :: x.key != key
  {
    if l1 == [] then None
    else if l1[0].key == key then Some(l1[0])
    else Lookup(l1[1..], key)
  }

  // `pop(key, None)`
  function Pop(l1: seq<Slot>, key: Key): (r: seq<Slot>)
    ensures |r| <= |l1|
    ensures forall x :: x in r <==> x in l1 && x.key != key
  {
    if l1 == [] then []
    else (if l1[0].key == key then [] else [l1[0]]) + Pop(l1[1..], key)
  }

  // Assignment keeps the place of a key that is there.
  function Put(l1: seq<Slot>, slot: Slot): (r: seq<Slot>)
    ensures |r| <= |l1| + 1 && slot in r
    ensures forall x | x in r :: x == slot || x in l1
  {
    if l1 == [] then [slot]
    else if l1[0].key == slot.key then [slot] + l1[1..]
    else [l1[0]] + Put(l1[1..], slot)
  }

  function PopAll(l1: seq<Slot>, keys: seq<Key>): (r: seq<Slot>)
    ensures |r| <= |l1|
    ensures forall x :: x in r ==> x in l1
    decreases keys
  {
    if keys == [] then l1 else PopAll(Pop(l1, keys[0]), keys[1..])
  }

  function ExpiredKeys(l1: seq<Slot>, now: int): seq<Key> {
    if l1 == [] then []
    else (if l1[0].expires < now then [l1[0].key] else []) + ExpiredKeys(l1[1..], now)
  }

  function MakeRoom(l1: seq<Slot>, now: int): (r: seq<Slot>)
    ensures |l1| <= L1_MAX ==> |r| < L1_MAX
    ensures forall x :: x in r ==> x in l1
  {
    if |l1| < L1_MAX then l1
    else
      var kept := PopAll(l1, ExpiredKeys(l1, now));
      if |kept| >= L1_MAX then kept[1..] else kept
  }

  // `_l1_set`
  function L1Set(l1: seq<Slot>, key: Key, value: Option<Merchant>, ttl: int, now: int): (r: seq<Slot>)
    ensures |l1| <= L1_MAX ==> |r| <= L1_MAX
    ensures forall x | x in r :: x == Slot(key, value, now + ttl) || x in l1
  {
    Put(MakeRoom(l1, now), Slot(key, value, now + ttl))
  }

  // `_l1_get`: an expired entry is dropped when it is met.
  function L1Get(l1: seq<Slot>, key: Key, now: int): (Option<Slot>, seq<Slot>) {
    match Lookup(l1, key)
    case None => (None, l1)
    case Some(x) => if x.expires < now then (None, Pop(l1, key)) else (Some(x), l1)
  }

  // ── L2 ──────────────────────────────────────────────────────────────────

  datatype Stored = Stored(merchant: Merchant, expires: int)

  datatype Redis = Redis(positive: map<Key, Stored>, negative: map<Key, int>, reverse: map<nat, (Key, int)>)

  predicate HasNegative(r: Redis, key: Key, now: int) {
    key in r.negative && now < r.negative[key]
  }

  predicate HasPositive(r: Redis, key: Key, now: int) {
    key in r.positive && now < r.positive[key].expires
  }

  // Which Redis commands of one call go through, and whether the payload parses.
  datatype Luck = Luck(readNegative: bool, readPositive: bool, parses: bool, write: bool, writeReverse: bool)

  function FromDatabase(l1: seq<Slot>, r: Redis, key: Key, found: Option<Merchant>, now: int,
                        luck: Luck): (seq<Slot>, Redis)
  {
    match found
    case None =>
      (L1Set(l1, key, None, NEGATIVE_TTL, now),
       if luck.write then r.(negative := r.negative[key := now + NEGATIVE_TTL]) else r)
    case Some(m) =>
      var r1 := if luck.write then r.(positive := r.positive[key := Stored(m, now + L2_TTL)]) else r;
      (L1Set(l1, key, found, L1_TTL, now),
       if luck.write && luck.writeReverse then r1.(reverse := r1.reverse[m.id := (key, now + L2_TTL)]) else r1)
  }

  // `get`: the answer, and what it leaves in both layers.
  function Serve(l1: seq<Slot>, r: Redis, key: Key, found: Option<Merchant>, now: int, luck: Luck)
    : (Option<Merchant>, seq<Slot>, Redis)
  {
    if key == "" then (None, l1, r)
    else
      var (hit, l) := L1Get(l1, key, now);
      if hit.Some? then (hit.value.value, l, r)
      else if luck.readNegative && HasNegative(r, key, now) then
        (None, L1Set(l, key, None, NEGATIVE_TTL, now), r)
      else if luck.readNegative && luck.readPositive && luck.parses && HasPositive(r, key, now) then
        var m := r.positive[key].merchant;
        (Some(m), L1Set(l, key, Some(m), L1_TTL, now), r)
      else
        var (l', r') := FromDatabase(l, r, key, found, now, luck);
        (found, l', r')
  }

  // Which Redis commands of an invalidation go through.
  datatype Fate = Fate(lookup: bool, deletePositive: bool, deleteNegative: bool, deleteReverse: bool)

  function Target(r: Redis, apiKey: Option<Key>, merchant: Option<nat>, now: int, fate: Fate): Option<Key> {
    if apiKey.Some? && apiKey.value != "" then apiKey
    else if merchant.Some? && fate.lookup && merchant.value in r.reverse && now < r.reverse[merchant.value].1 then
      Some(r.reverse[merchant.value].0)
    else None
  }

  // `invalidate`
  function Drop(l1: seq<Slot>, r: Redis, apiKey: Option<Key>, merchant: Option<nat>, now: int,
                fate: Fate): (seq<Slot>, Redis)
  {
    if (apiKey.None? || apiKey.value == "") && (merchant.None? || merchant.value == 0) then (l1, r)
    else
      var target := Target(r, apiKey, merchant, now, fate);
      var hit := target.Some? && target.value != "";
      var r1 := if hit && fate.deletePositive then r.(positive := r.positive - {target.value}) else r;
      var r2 :=
        if hit && fate.deletePositive && fate.deleteNegative then r1.(negative := r1.negative - {target.value})
        else r1;
      (if hit then Pop(l1, target.value) else l1,
       if merchant.Some? && fate.deleteReverse then r2.(reverse := r2.reverse - {merchant.value}) else r2)
  }

  // ── Several workers, one Redis ──────────────────────────────────────────

  datatype World = World(workers: seq<seq<Slot>>, redis: Redis)

  datatype Call =
    | Ask(worker: nat, key: Key, now: int, luck: Luck)
    | Forget(worker: nat, apiKey: Option<Key>, merchant: Option<nat>, now: int, fate: Fate)
    | ForgetLocal(worker: nat, now: int)

  function Step(db: History, w: World, c: Call): World {
    if c.worker >= |w.workers| then w
    else
      match c
      case Ask(i, key, now, luck) =>
        var (_, l1, r) := Serve(w.workers[i], w.redis, key, db(now, key), now, luck);
        World(w.workers[i := l1], r)
      case Forget(i, apiKey, merchant, now, fate) =>
        var (l1, r) := Drop(w.workers[i], w.redis, apiKey, merchant, now, fate);
        World(w.workers[i := l1], r)
      case ForgetLocal(i, _) => w.(workers := w.workers[i := []])
  }

  function Answer(db: History, w: World, worker: nat, key: Key, now: int, luck: Luck): Option<Merchant>
    requires worker < |w.workers|
  {
    Serve(w.workers[worker], w.redis, key, db(now, key), now, luck).0
  }

  // ── Bounded staleness ───────────────────────────────────────────────────

  // A value the database held at t is cached no longer than the sum of the
  // lifetimes it can pass through.
  ghost predicate SlotOk(db: History, x: Slot, now: int) {
    x.expires <= now + L1_TTL &&
    exists t :: t <= now && db(t, x.key) == x.value
                && x.expires <= t + (if x.value.Some? then L1_TTL + L2_TTL else 2 * NEGATIVE_TTL)
  }

  ghost predicate PositiveOk(db: History, key: Key, s: Stored, now: int) {
    exists t :: t <= now && db(t, key) == Some(s.merchant) && s.expires <= t + L2_TTL
  }

  ghost predicate NegativeOk(db: History, key: Key, expires: int, now: int) {
    exists t :: t <= now && db(t, key) == None && expires <= t + NEGATIVE_TTL
  }

  ghost predicate RedisOk(db: History, r: Redis, now: int) {
    && (forall k | k in r.positive :: PositiveOk(db, k, r.positive[k], now))
    && (forall k | k in r.negative :: NegativeOk(db, k, r.negative[k], now))
  }

  ghost predicate L1Ok(db: History, l1: seq<Slot>, now: int) {
    |l1| <= L1_MAX && forall x | x in l1 :: SlotOk(db, x, now)
  }

  ghost predicate CacheOk(db: History, w: World, now: int) {
    RedisOk(db, w.redis, now) && forall i | 0 <= i < |w.workers| :: L1Ok(db, w.workers[i], now)
  }

  lemma GetOk(db: History, l1: seq<Slot>, r: Redis, key: Key, before: int, now: int, luck: Luck)
    requires before <= now && L1Ok(db, l1, before) && RedisOk(db, r, before)
    ensures L1Ok(db, Serve(l1, r, key, db(now, key), now, luck).1, now)
    ensures RedisOk(db, Serve(l1, r, key, db(now, key), now, luck).2, now)
  {
    Later(db, l1, r, before, now);
    if key != "" {
      var (hit, l) := L1Get(l1, key, now);
      if luck.readNegative && HasNegative(r, key, now) {
        assert NegativeOk(db, key, r.negative[key], now);
        assert SlotOk(db, Slot(key, None, now + NEGATIVE_TTL), now);
      } else if luck.readNegative && luck.readPositive && luck.parses && HasPositive(r, key, now) {
        assert PositiveOk(db, key, r.positive[key], now);
        assert SlotOk(db, Slot(key, Some(r.positive[key].merchant), now + L1_TTL), now);
      } else {
        FromDatabaseOk(db, l, r, key, now, luck);
      }
    }
  }

  lemma FromDatabaseOk(db: History, l1: seq<Slot>, r: Redis, key: Key, now: int, luck: Luck)
    requires L1Ok(db, l1, now) && RedisOk(db, r, now)
    ensures L1Ok(db, FromDatabase(l1, r, key, db(now, key), now, luck).0, now)
    ensures RedisOk(db, FromDatabase(l1, r, key, db(now, key), now, luck).1, now)
  {
  }

  lemma Later(db: History, l1: seq<Slot>, r: Redis, before: int, now: int)
    requires before <= now && L1Ok(db, l1, before) && RedisOk(db, r, before)
    ensures L1Ok(db, l1, now) && RedisOk(db, r, now)
  {
  }

  lemma StepOk(db: History, w: World, c: Call, before: int)
    requires before <= c.now && CacheOk(db, w, before)
    ensures CacheOk(db, Step(db, w, c), c.now)
  {
    forall i | 0 <= i < |w.workers| ensures L1Ok(db, w.workers[i], c.now) && RedisOk(db, w.redis, c.now) {
      Later(db, w.workers[i], w.redis, before, c.now);
    }
    Later(db, [], w.redis, before, c.now);
    if c.worker < |w.workers| && c.Ask? {
      GetOk(db, w.workers[c.worker], w.redis, c.key, before, c.now, c.luck);
    }
  }

  predicate Clocked(calls: seq<Call>, from: int) {
    && (forall k | 0 <= k < |calls| :: from <= calls[k].now)
    && (forall j, k | 0 <= j < k < |calls| :: calls[j].now <= calls[k].now)
  }

  function Run(db: History, w: World, calls: seq<Call>): World
    decreases calls
  {
    if calls == [] then w else Run(db, Step(db, w, calls[0]), calls[1..])
  }

  lemma {:induction false} RunOk(db: History, w: World, calls: seq<Call>, before: int, now: int)
    requires CacheOk(db, w, before) && before <= now
    requires Clocked(calls, before) && forall k | 0 <= k < |calls| :: calls[k].now <= now
    ensures CacheOk(db, Run(db, w, calls), now)
    decreases calls
  {
    if calls == [] {
      forall i | 0 <= i < |w.workers| ensures L1Ok(db, w.workers[i], now) {
        Later(db, w.workers[i], w.redis, before, now);
      }
      Later(db, [], w.redis, before, now);
    } else {
      StepOk(db, w, calls[0], before);
      RunOk(db, Step(db, w, calls[0]), calls[1..], calls[0].now, now);
    }
  }

  const EMPTY := Redis(map[], map[], map[])

  function Cold(n: nat): World {
    World(seq(n, _ => []), EMPTY)
  }

  // However calls to any number of workers interleave and whichever Redis
  // commands fail, a merchant that is answered was in the database at most 330
  // seconds ago, a miss that is answered was one at most 10 seconds ago, and no
  // worker keeps more than 512 entries.
  lemma {:induction false} BoundedStaleness(db: History, n: nat, calls: seq<Call>, worker: nat, key: Key, now: int,
                                            luck: Luck)
    requires Clocked(calls, 0) && now >= 0 && forall k | 0 <= k < |calls| :: calls[k].now <= now
    requires worker < |Run(db, Cold(n), calls).workers| && key != ""
    ensures
      var answer := Answer(db, Run(db, Cold(n), calls), worker, key, now, luck);
      exists t :: now - (if answer.Some? then L1_TTL + L2_TTL else 2 * NEGATIVE_TTL) <= t <= now && db(t, key) == answer
    ensures |Run(db, Cold(n), calls).workers[worker]| <= L1_MAX
  {
    RunOk(db, Cold(n), calls, 0, now);
    var w := Run(db, Cold(n), calls);
    AnswerOk(db, w.workers[worker], w.redis, key, now, luck);
  }

  lemma AnswerOk(db: History, l1: seq<Slot>, r: Redis, key: Key, now: int, luck: Luck)
    requires L1Ok(db, l1, now) && RedisOk(db, r, now) && key != ""
    ensures
      var answer := Serve(l1, r, key, db(now, key), now, luck).0;
      exists t :: now - (if answer.Some? then L1_TTL + L2_TTL else 2 * NEGATIVE_TTL) <= t <= now && db(t, key) == answer
  {
  }

  // ── After an invalidation ───────────────────────────────────────────────

  // Nothing cached for the key is out of date, except in other workers' L1, and
  // there only until 30 seconds after the invalidation.
  ghost predicate FreshSlot(x: Slot, key: Key, value: Option<Merchant>, own: bool, at: int) {
    x.key == key ==> x.value == value || (!own && x.expires <= at + L1_TTL)
  }

  ghost predicate FreshRedis(r: Redis, key: Key, value: Option<Merchant>) {
    && (key in r.positive ==> Some(r.positive[key].merchant) == value)
    && (key in r.negative ==> value == None)
  }

  ghost predicate Fresh(w: World, worker: nat, key: Key, value: Option<Merchant>, at: int) {
    && FreshRedis(w.redis, key, value)
    && (forall i, x | 0 <= i < |w.workers| && x in w.workers[i] :: FreshSlot(x, key, value, i == worker, at))
  }

  lemma InvalidationFreshens(db: History, w: World, worker: nat, key: Key, merchant: Option<nat>, at: int, fate: Fate)
    requires CacheOk(db, w, at) && worker < |w.workers| && key != "" && fate.deletePositive && fate.deleteNegative
    ensures Fresh(Step(db, w, Forget(worker, Some(key), merchant, at, fate)), worker, key, db(at, key), at)
  {
  }

  lemma GetFresh(l1: seq<Slot>, r: Redis, key: Key, asked: Key, found: Option<Merchant>, value: Option<Merchant>,
                 own: bool, at: int, now: int, luck: Luck)
    requires FreshRedis(r, key, value) && (asked == key ==> found == value)
    requires forall x | x in l1 :: FreshSlot(x, key, value, own, at)
    ensures FreshRedis(Serve(l1, r, asked, found, now, luck).2, key, value)
    ensures forall x | x in Serve(l1, r, asked, found, now, luck).1 :: FreshSlot(x, key, value, own, at)
    ensures asked == key && key != "" && (own || now > at + L1_TTL) ==> Serve(l1, r, asked, found, now, luck).0 == value
  {
  }

  lemma FreshStays(db: History, w: World, c: Call, worker: nat, key: Key, value: Option<Merchant>, at: int)
    requires Fresh(w, worker, key, value, at) && db(c.now, key) == value
    ensures Fresh(Step(db, w, c), worker, key, value, at)
  {
    if c.worker < |w.workers| && c.Ask? {
      GetFresh(w.workers[c.worker], w.redis, key, c.key, db(c.now, c.key), value, c.worker == worker, at, c.now,
               c.luck);
    }
  }

  lemma {:induction false} FreshRuns(db: History, w: World, calls: seq<Call>, worker: nat, key: Key,
                                     value: Option<Merchant>, at: int)
    requires Fresh(w, worker, key, value, at)
    requires forall k | 0 <= k < |calls| :: db(calls[k].now, key) == value
    ensures Fresh(Run(db, w, calls), worker, key, value, at)
    decreases calls
  {
    if calls != [] {
      FreshStays(db, w, calls[0], worker, key, value, at);
      FreshRuns(db, Step(db, w, calls[0]), calls[1..], worker, key, value, at);
    }
  }

  // Once a key is invalidated with Redis up, and while the database keeps its
  // value, this worker answers with it at once and every other worker as soon as
  // 30 seconds have passed, whatever happens in between.
  lemma {:induction false} CurrentAfterInvalidation(db: History, w: World, worker: nat, key: Key,
                                                    merchant: Option<nat>, at: int, fate: Fate,
                                 calls: seq<Call>, asked: nat, now: int, luck: Luck)
    requires CacheOk(db, w, at) && worker < |w.workers| && key != "" && fate.deletePositive && fate.deleteNegative
    requires forall k | 0 <= k < |calls| :: db(calls[k].now, key) == db(at, key)
    requires db(now, key) == db(at, key)
    requires asked == worker || now > at + L1_TTL
    requires asked < |Run(db, Step(db, w, Forget(worker, Some(key), merchant, at, fate)), calls).workers|
    ensures Answer(db, Run(db, Step(db, w, Forget(worker, Some(key), merchant, at, fate)), calls), asked, key, now,
                   luck)
            == db(now, key)
  {
    var w1 := Step(db, w, Forget(worker, Some(key), merchant, at, fate));
    InvalidationFreshens(db, w, worker, key, merchant, at, fate);
    FreshRuns(db, w1, calls, worker, key, db(at, key), at);
    var w2 := Run(db, w1, calls);
    GetFresh(w2.workers[asked], w2.redis, key, key, db(now, key), db(at, key), asked == worker, at, now, luck);
  }

  // ── What is cached is served ────────────────────────────────────────────

  lemma {:induction false} PutFound(l1: seq<Slot>, slot: Slot)
    ensures Lookup(Put(l1, slot), slot.key) == Some(slot)
  {
    if l1 != [] && l1[0].key != slot.key {
      PutFound(l1[1..], slot);
      assert Put(l1, slot)[1..] == Put(l1[1..], slot);
    }
  }

  // An answer read from the database is repeated by the same worker, whatever the
  // database and Redis say by then, for exactly 30 seconds, and a miss for 5.
  lemma {:induction false} RepeatedLocally(l1: seq<Slot>, r: Redis, key: Key, found: Option<Merchant>, now: int,
                                           luck: Luck, other: Option<Merchant>, later: int, luck': Luck)
    requires key != "" && now <= later && Lookup(l1, key).None? && !luck.readNegative
    ensures
      var (answer, l, r1) := Serve(l1, r, key, found, now, luck);
      && answer == found
      && (later <= now + (if found.Some? then 30 else 5) ==> Serve(l, r1, key, other, later, luck').0 == found)
      && (later > now + (if found.Some? then 30 else 5) && !luck'.readNegative ==>
            Serve(l, r1, key, other, later, luck').0 == other)
  {
    PutFound(MakeRoom(l1, now), Slot(key, found, now + if found.Some? then L1_TTL else NEGATIVE_TTL));
  }

  // Through Redis it reaches every other worker for exactly 300 seconds, and a
  // miss for 5.
  lemma {:induction false} SharedThroughRedis(l1: seq<Slot>, r: Redis, key: Key, found: Option<Merchant>, now: int,
                                              luck: Luck, l2: seq<Slot>, other: Option<Merchant>, later: int,
                                              luck': Luck)
    requires key != "" && now <= later && Lookup(l1, key).None? && Lookup(l2, key).None?
    requires key !in r.negative && key !in r.positive && luck.write
    requires luck'.readNegative && luck'.readPositive && luck'.parses
    ensures
      var (_, _, r1) := Serve(l1, r, key, found, now, luck);
      Serve(l2, r1, key, other, later, luck').0 ==
      if later < now + (if found.Some? then 300 else 5) then found else other
  {
  }

  // ── The cache of one worker, as it is stored ────────────────────────────

  class RedisServer {
    var state: Redis

    constructor ()
      ensures state == EMPTY
    {
      state := EMPTY;
    }
  }

  class MerchantAuthCache {
    var l1: seq<Slot>
    var hitsL1: nat
    var hitsL2: nat
    var misses: nat
    const redis: RedisServer

    constructor (redis: RedisServer)
      ensures this.redis == redis && l1 == [] && hitsL1 == hitsL2 == misses == 0
    {
      this.redis := redis;
      l1, hitsL1, hitsL2, misses := [], 0, 0, 0;
    }

    method GetLocal(key: Key, now: int) returns (entry: Option<Slot>)
      modifies this`l1
      ensures (entry, l1) == L1Get(old(l1), key, now)
    {
      entry := Lookup(l1, key);
      if entry.Some? && entry.value.expires < now {
        l1 := Pop(l1, key);
        entry := None;
      }
    }

    method SetLocal(key: Key, value: Option<Merchant>, ttl: int, now: int)
      modifies this`l1
      ensures l1 == L1Set(old(l1), key, value, ttl, now)
    {
      if |l1| >= L1_MAX {
        var expired := ExpiredKeys(l1, now);
        var k := 0;
        while k < |expired|
          invariant k <= |expired|
          invariant PopAll(old(l1), expired) == PopAll(l1, expired[k..])
        {
          assert expired[k..][1..] == expired[k + 1..];
          l1 := Pop(l1, expired[k]);
          k := k + 1;
        }
        if |l1| >= L1_MAX {
          l1 := l1[1..];
        }
      }
      l1 := Put(l1, Slot(key, value, now + ttl));
    }

    method Get(key: Key, found: Option<Merchant>, now: int, luck: Luck) returns (answer: Option<Merchant>)
      modifies this, redis
      ensures (answer, l1, redis.state) == Serve(old(l1), old(redis.state), key, found, now, luck)
      ensures hitsL1 + hitsL2 + misses == old(hitsL1 + hitsL2 + misses) + if key == "" then 0 else 1
    {
      if key == "" {
        return None;
      }
      var entry := GetLocal(key, now);
      if entry.Some? {
        hitsL1 := hitsL1 + 1;
        return entry.value.value;
      }
      if luck.readNegative {
        if HasNegative(redis.state, key, now) {
          SetLocal(key, None, NEGATIVE_TTL, now);
          hitsL2 := hitsL2 + 1;
          return None;
        }
        if luck.readPositive && HasPositive(redis.state, key, now) && luck.parses {
          var m := redis.state.positive[key].merchant;
          SetLocal(key, Some(m), L1_TTL, now);
          hitsL2 := hitsL2 + 1;
          return Some(m);
        }
      }
      misses := misses + 1;
      if found.None? {
        SetLocal(key, None, NEGATIVE_TTL, now);
        if luck.write {
          redis.state := redis.state.(negative := redis.state.negative[key := now + NEGATIVE_TTL]);
        }
        return None;
      }
      SetLocal(key, found, L1_TTL, now);
      if luck.write {
        redis.state := redis.state.(positive := redis.state.positive[key := Stored(found.value, now + L2_TTL)]);
        if luck.writeReverse {
          redis.state := redis.state.(reverse := redis.state.reverse[found.value.id := (key, now + L2_TTL)]);
        }
      }
      answer := found;
    }

    method Invalidate(apiKey: Option<Key>, merchant: Option<nat>, now: int, fate: Fate)
      modifies this`l1, redis
      ensures (l1, redis.state) == Drop(old(l1), old(redis.state), apiKey, merchant, now, fate)
    {
      if (apiKey.None? || apiKey.value == "") && (merchant.None? || merchant.value == 0) {
        return;
      }
      var target: Option<Key> := None;
      if apiKey.Some? && apiKey.value != "" {
        target := apiKey;
      } else if merchant.Some? && fate.lookup && merchant.value in redis.state.reverse
                && now < redis.state.reverse[merchant.value].1 {
        target := Some(redis.state.reverse[merchant.value].0);
      }
      if target.Some? && target.value != "" {
        l1 := Pop(l1, target.value);
        if fate.deletePositive {
          redis.state := redis.state.(positive := redis.state.positive - {target.value});
          if fate.deleteNegative {
            redis.state := redis.state.(negative := redis.state.negative - {target.value});
          }
        }
      }
      if merchant.Some? && fate.deleteReverse {
        redis.state := redis.state.(reverse := redis.state.reverse - {merchant.value});
      }
    }
  }
}
