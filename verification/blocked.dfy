// clients/block_cache.py and the reconcile job of clients/service.py: counting
// the requisites withheld from blocked clients, first in a Redis hash, then
// folded into a table and acknowledged.

module Blocked {
  import opened Common

  datatype Client = Client(merchant: nat, user: string)

  // ── Keys ────────────────────────────────────────────────────────────────

  function Digit(d: nat): char
    requires d < 10
  {
    ('0' as int + d) as char
  }

  function Decimal(n: nat): string {
    if n < 10 then [Digit(n)] else Decimal(n / 10) + [Digit(n % 10)]
  }

  function ParseInt(s: string): Option<nat> {
    if s == "" || !('0' <= s[|s| - 1] <= '9') then None
    else
      var d := s[|s| - 1] as nat - '0' as nat;
      if |s| == 1 then Some(d)
      else
        match ParseInt(s[..|s| - 1])
        case None => None
        case Some(n) => Some(n * 10 + d)
  }

  function MemberKey(c: Client): string {
    Decimal(c.merchant) + ":" + c.user
  }

  // `partition(":")`: what stands before and after the first colon.
  function ColonAt(s: string): nat {
    if s == "" || s[0] == ':' then 0 else 1 + ColonAt(s[1..])
  }

  lemma {:induction false} ColonAtRange(s: string)
    ensures ColonAt(s) <= |s| && (ColonAt(s) < |s| ==> s[ColonAt(s)] == ':')
  {
    if s != "" && s[0] != ':' {
      ColonAtRange(s[1..]);
    }
  }

  function Split(key: string): Option<Client> {
    ColonAtRange(key);
    var at := ColonAt(key);
    if at == |key| || at + 1 == |key| || ParseInt(key[..at]).None? then None
    else Some(Client(ParseInt(key[..at]).value, key[at + 1..]))
  }

  lemma {:induction false} DecimalParses(n: nat)
    ensures ParseInt(Decimal(n)) == Some(n)
    ensures forall k | 0 <= k < |Decimal(n)| :: Decimal(n)[k] != ':'
  {
    if n >= 10 {
      DecimalParses(n / 10);
      assert Decimal(n)[..|Decimal(n)| - 1] == Decimal(n / 10);
    }
  }

  lemma {:induction false} FirstColon(s: string, rest: string)
    requires forall k | 0 <= k < |s| :: s[k] != ':'
    ensures ColonAt(s + ":" + rest) == |s|
  {
    if s == "" {
      assert s + ":" + rest == ":" + rest;
    } else {
      assert (s + ":" + rest)[1..] == s[1..] + ":" + rest;
      FirstColon(s[1..], rest);
    }
  }

  // The key of a client splits back into that client, colons and all, exactly
  // when the client id is not empty.
  lemma KeyRoundTrip(c: Client)
    ensures Split(MemberKey(c)) == if c.user != "" then Some(c) else None
  {
    DecimalParses(c.merchant);
    FirstColon(Decimal(c.merchant), c.user);
    var key, n := MemberKey(c), |Decimal(c.merchant)|;
    assert key[..n] == Decimal(c.merchant) && key[n + 1..] == c.user;
  }

  // ── The counters ────────────────────────────────────────────────────────

  // A reconcile job between its read of the hash and its last acknowledgement.
  datatype Phase = Staged | Committed | Abandoned

  datatype Job = Job(folded: map<string, nat>, phase: Phase, tried: set<string>, acked: set<string>)

  // `recorded` is what was counted, as the specification sees it.
  datatype State = State(redis: map<string, int>, table: map<Client, int>, jobs: seq<Job>, recorded: map<string, nat>)

  datatype Event =
    | Record(merchant: nat, user: Option<string>, up: bool)
    | Read(up: bool)
    | Commit(job: nat, ok: bool)
    | Ack(job: nat, key: string, ok: bool)

  // What a read folds: the positive deltas under well-formed keys.
  function Foldable(redis: map<string, int>): map<string, nat> {
    map k | k in redis && redis[k] > 0 && Split(k).Some? :: redis[k]
  }

  // The same deltas by client.
  function Deltas(folded: map<string, nat>): map<Client, int> {
    map c | c in (set k | k in folded && Split(k).Some? :: Split(k).value) && MemberKey(c) in folded ::
        folded[MemberKey(c)]
  }

  // What the upsert makes of the table: insert, or add on conflict.
  function Fold(table: map<Client, int>, deltas: map<Client, int>): map<Client, int> {
    map c | c in table.Keys + deltas.Keys :: Get(table, c) + Get(deltas, c)
  }

  function Step(s: State, e: Event): State {
    match e
    case Record(merchant, user, up) =>
      if user.None? || user.value == "" || !up then s
      else
        var k := MemberKey(Client(merchant, user.value));
        s.(redis := s.redis[k := Get(s.redis, k) + 1],
           recorded := s.recorded[k := (if k in s.recorded then s.recorded[k] else 0) + 1])
    case Read(up) =>
      s.(jobs := s.jobs + [Job(if up then Foldable(s.redis) else map[], Staged, {}, {})])
    case Commit(j, ok) =>
      if j >= |s.jobs| || !s.jobs[j].phase.Staged? then s
      else if !ok then s.(jobs := s.jobs[j := s.jobs[j].(phase := Abandoned)])
      else s.(jobs := s.jobs[j := s.jobs[j].(phase := Committed)], table := Fold(s.table, Deltas(s.jobs[j].folded)))
    case Ack(j, k, ok) =>
      if j >= |s.jobs| || !s.jobs[j].phase.Committed? || k !in s.jobs[j].folded || k in s.jobs[j].tried then s
      else if !ok then s.(jobs := s.jobs[j := s.jobs[j].(tried := s.jobs[j].tried + {k})])
      else
        s.(redis := s.redis[k := Get(s.redis, k) - s.jobs[j].folded[k]],
           jobs := s.jobs[j := s.jobs[j].(tried := s.jobs[j].tried + {k}, acked := s.jobs[j].acked + {k})])
  }

  function Run(s: State, events: seq<Event>): State
    decreases events
  {
    if events == [] then s else Run(Step(s, events[0]), events[1..])
  }

  // ── Conservation ────────────────────────────────────────────────────────

  function Owed(job: Job, k: string): nat {
    if job.phase.Committed? && k in job.folded && k !in job.acked then job.folded[k] else 0
  }

  // Committed to the table, not taken out of Redis.
  function Unacked(jobs: seq<Job>, k: string): nat {
    if jobs == [] then 0 else Unacked(jobs[..|jobs| - 1], k) + Owed(jobs[|jobs| - 1], k)
  }

  // Only keys of clients with an id are ever written.
  predicate KeyOk(k: string) {
    Split(k).Some? && MemberKey(Split(k).value) == k
  }

  ghost predicate KeysOk(s: State) {
    && (forall k | k in s.redis :: KeyOk(k))
    && (forall j, k | 0 <= j < |s.jobs| && k in s.jobs[j].folded :: KeyOk(k))
    && (forall j | 0 <= j < |s.jobs| :: s.jobs[j].acked <= s.jobs[j].tried)
    && (forall j | 0 <= j < |s.jobs| && s.jobs[j].phase.Staged? :: s.jobs[j].acked == {})
  }

  predicate Balanced(s: State, c: Client) {
    var k := MemberKey(c);
    Get(s.redis, k) + Get(s.table, c) == (if k in s.recorded then s.recorded[k] else 0) + Unacked(s.jobs, k)
  }

  lemma {:induction false} UnackedUpdate(jobs: seq<Job>, j: nat, job: Job, k: string)
    requires j < |jobs|
    ensures Unacked(jobs[j := job], k) == Unacked(jobs, k) - Owed(jobs[j], k) + Owed(job, k)
  {
    var n := |jobs| - 1;
    if j < n {
      assert jobs[j := job][..n] == jobs[..n][j := job];
      UnackedUpdate(jobs[..n], j, job, k);
    } else {
      assert jobs[j := job][..n] == jobs[..n];
    }
  }

  lemma StepKeysOk(s: State, e: Event)
    requires KeysOk(s)
    ensures KeysOk(Step(s, e))
  {
    match e
    case Record(merchant, user, _) =>
      if user.Some? && user.value != "" {
        RecordKeysOk(s, Client(merchant, user.value));
      }
    case Read(up) => ReadKeysOk(s, if up then Foldable(s.redis) else map[]);
    case Commit(j, ok) => CommitKeysOk(s, j, ok);
    case Ack(j, k, ok) => AckKeysOk(s, j, k, ok);
  }

  lemma RecordKeysOk(s: State, c: Client)
    requires KeysOk(s) && c.user != ""
    ensures KeysOk(s.(redis := s.redis[MemberKey(c) := Get(s.redis, MemberKey(c)) + 1]))
  {
    KeyRoundTrip(c);
  }

  lemma ReadKeysOk(s: State, folded: map<string, nat>)
    requires KeysOk(s) && forall k | k in folded :: k in s.redis
    ensures KeysOk(s.(jobs := s.jobs + [Job(folded, Staged, {}, {})]))
  {
  }

  lemma CommitKeysOk(s: State, j: nat, ok: bool)
    requires KeysOk(s)
    ensures KeysOk(Step(s, Commit(j, ok)))
  {
  }

  lemma AckKeysOk(s: State, j: nat, k: string, ok: bool)
    requires KeysOk(s)
    ensures KeysOk(Step(s, Ack(j, k, ok)))
  {
  }

  lemma DeltaOf(folded: map<string, nat>, c: Client)
    requires c.user != ""
    ensures Get(Deltas(folded), c) == if MemberKey(c) in folded then folded[MemberKey(c)] else 0
  {
    KeyRoundTrip(c);
    if MemberKey(c) in folded {
      assert c in (set k | k in folded && Split(k).Some? :: Split(k).value);
    }
  }

  lemma StepBalances(s: State, e: Event, c: Client)
    requires KeysOk(s) && Balanced(s, c) && c.user != ""
    ensures Balanced(Step(s, e), c)
  {
    match e
    case Record(merchant, user, up) =>
      if user.Some? && MemberKey(Client(merchant, user.value)) == MemberKey(c) {
        assert Step(s, e).jobs == s.jobs;
      }
    case Read(up) =>
      var jobs := Step(s, e).jobs;
      assert jobs[..|jobs| - 1] == s.jobs;
    case Commit(j, ok) => CommitBalances(s, j, ok, c);
    case Ack(j, k, ok) => AckBalances(s, j, k, ok, c);
  }

  // A commit books the deltas, and owes them to Redis from then on.
  lemma CommitBalances(s: State, j: nat, ok: bool, c: Client)
    requires KeysOk(s) && Balanced(s, c) && c.user != ""
    ensures Balanced(Step(s, Commit(j, ok)), c)
  {
    if j < |s.jobs| && s.jobs[j].phase.Staged? {
      UnackedUpdate(s.jobs, j, s.jobs[j].(phase := if ok then Committed else Abandoned), MemberKey(c));
      DeltaOf(s.jobs[j].folded, c);
    }
  }

  // An acknowledgement pays one of them back, if it goes through.
  lemma AckBalances(s: State, j: nat, k: string, ok: bool, c: Client)
    requires KeysOk(s) && Balanced(s, c)
    ensures Balanced(Step(s, Ack(j, k, ok)), c)
  {
    if j < |s.jobs| {
      UnackedUpdate(s.jobs, j, Step(s, Ack(j, k, ok)).jobs[j], MemberKey(c));
    }
  }

  const EMPTY := State(map[], map[], [], map[])

  lemma {:induction false} RunBalances(s: State, events: seq<Event>, c: Client)
    requires KeysOk(s) && Balanced(s, c) && c.user != ""
    ensures KeysOk(Run(s, events)) && Balanced(Run(s, events), c)
    decreases events
  {
    if events != [] {
      StepKeysOk(s, events[0]);
      StepBalances(s, events[0], c);
      RunBalances(Step(s, events[0]), events[1..], c);
    }
  }

  // For any interleaving of recording, reading, committing and acknowledging by
  // any number of jobs, a client's counters in Redis and in the table together
  // are what was recorded plus what was committed but not acknowledged. So a
  // failed commit loses nothing, and a failed acknowledgement counts twice at
  // most what it failed to take out.
  lemma {:induction false} NothingIsLost(events: seq<Event>, c: Client)
    requires c.user != ""
    ensures
      var s, k := Run(EMPTY, events), MemberKey(c);
      && Get(s.redis, k) + Get(s.table, c) == (if k in s.recorded then s.recorded[k] else 0) + Unacked(s.jobs, k)
      && Get(s.redis, k) + Get(s.table, c) >= if k in s.recorded then s.recorded[k] else 0
  {
    RunBalances(EMPTY, events, c);
  }

  // ── The code, on what it stores ─────────────────────────────────────────

  // A list of staged rows is the folded map, in some order of its keys.
  ghost predicate Lists(items: seq<(Client, nat)>, keys: seq<string>, folded: map<string, nat>) {
    && |items| == |keys|
    && (forall m, n | 0 <= m < n < |keys| :: keys[m] != keys[n])
    && (set k | k in keys) == folded.Keys
    && (forall n | 0 <= n < |keys| ::
          keys[n] in folded && Split(keys[n]) == Some(items[n].0) && folded[keys[n]] == items[n].1)
  }

  // One decrement, if it goes through; then one after the other.
  function Decremented(redis: map<string, int>, key: string, delta: nat, ok: bool): map<string, int> {
    if ok then redis[key := Get(redis, key) - delta] else redis
  }

  function Acked(redis: map<string, int>, folded: map<string, nat>, keys: seq<string>,
                 failing: set<string>): map<string, int>
    requires forall k | k in keys :: k in folded
  {
    if keys == [] then redis
    else
      var key := keys[|keys| - 1];
      Decremented(Acked(redis, folded, keys[..|keys| - 1], failing), key, folded[key], GoesThrough(key, failing))
  }

  predicate GoesThrough(key: string, failing: set<string>) {
    key !in failing
  }

  class Counters {
    var hash: map<string, int>
    var table: map<Client, int>

    constructor ()
      ensures hash == map[] && table == map[]
    {
      hash, table := map[], map[];
    }

    // `record_blocked_attempt`
    method RecordBlockedAttempt(merchant: nat, user: Option<string>, up: bool)
      modifies this`hash
      ensures forall s: State | s.redis == old(hash) :: hash == Step(s, Record(merchant, user, up)).redis
    {
      if user.None? || user.value == "" {
        return;
      }
      if up {
        var k := MemberKey(Client(merchant, user.value));
        hash := hash[k := (if k in hash then hash[k] else 0) + 1];
      }
    }

    // `read_blocked_attempts` and the loop of `reconcile_blocked_attempts`: the
    // fields come in any order, and only well-formed ones are staged.
    method ReconcileBlockedAttempts(up: bool)
      returns (items: seq<(Client, nat)>, folded: map<string, nat>, ghost keys: seq<string>)
      ensures folded == if up then Foldable(hash) else map[]
      ensures Lists(items, keys, folded)
    {
      items, folded, keys := [], map[], [];
      if !up {
        return;
      }
      var todo := hash.Keys;
      while todo != {}
        invariant todo <= hash.Keys
        invariant folded == map k | k in hash.Keys - todo && hash[k] > 0 && Split(k).Some? :: hash[k]
        invariant Lists(items, keys, folded)
        decreases todo
      {
        var key :| key in todo;
        todo := todo - {key};
        var delta := hash[key];
        if delta > 0 {
          var client := Split(key);
          if client.Some? {
            ListsGrow(items, keys, folded, key, delta);
            items := items + [(client.value, delta)];
            folded := folded[key := delta];
            keys := keys + [key];
          }
        }
      }
    }

    // `add_blocked_attempts`: the upsert, row by row.
    method AddBlockedAttempts(items: seq<(Client, nat)>)
      requires forall m, n | 0 <= m < n < |items| :: items[m].0 != items[n].0
      modifies this`table
      ensures table == Fold(old(table), RowsOf(items))
    {
      for n := 0 to |items|
        invariant table == Fold(old(table), RowsOf(items[..n]))
      {
        RowsGrow(items, n);
        FoldGrows(old(table), RowsOf(items[..n]), items[n].0, items[n].1);
        var c := items[n].0;
        table := table[c := (if c in table then table[c] else 0) + items[n].1];
      }
      assert items[..|items|] == items;
    }

    // `ack_blocked_attempts`: one decrement per key, in any order; each may fail.
    method AckBlockedAttempts(folded: map<string, nat>, failing: set<string>) returns (ghost keys: seq<string>)
      modifies this`hash
      ensures forall m, n | 0 <= m < n < |keys| :: keys[m] != keys[n]
      ensures (set k | k in keys) == folded.Keys && forall k | k in keys :: k in folded
      ensures hash == Acked(old(hash), folded, keys, failing)
    {
      keys := [];
      var todo := folded.Keys;
      while todo != {}
        invariant todo <= folded.Keys
        invariant forall m, n | 0 <= m < n < |keys| :: keys[m] != keys[n]
        invariant (set k | k in keys) == folded.Keys - todo
        invariant forall k | k in keys :: k in folded
        invariant hash == Acked(old(hash), folded, keys, failing)
        decreases todo
      {
        var key :| key in todo;
        todo := todo - {key};
        if key !in failing {
          hash := hash[key := (if key in hash then hash[key] else 0) - folded[key]];
        }
        KeysGrow(keys, key);
        assert (keys + [key])[..|keys|] == keys;
        keys := keys + [key];
      }
    }
  }

  lemma KeysGrow(keys: seq<string>, key: string)
    ensures (set k | k in keys + [key]) == (set k | k in keys) + {key}
    ensures key in keys <==> key in (set k | k in keys)
  {
  }

  function RowsOf(items: seq<(Client, nat)>): map<Client, int> {
    if items == [] then map[]
    else RowsOf(items[..|items| - 1])[items[|items| - 1].0 := items[|items| - 1].1]
  }

  lemma {:induction false} RowsOfKeys(items: seq<(Client, nat)>)
    ensures forall c :: c in RowsOf(items) <==> exists n :: 0 <= n < |items| && items[n].0 == c
  {
    if items != [] {
      RowsOfKeys(items[..|items| - 1]);
      assert items[|items| - 1].0 in RowsOf(items);
    }
  }

  lemma RowsGrow(items: seq<(Client, nat)>, n: nat)
    requires n < |items| && forall m, n | 0 <= m < n < |items| :: items[m].0 != items[n].0
    ensures items[n].0 !in RowsOf(items[..n])
    ensures RowsOf(items[..n + 1]) == RowsOf(items[..n])[items[n].0 := items[n].1]
  {
    assert items[..n + 1][..n] == items[..n];
    RowsOfKeys(items[..n]);
  }

  // One more row of the upsert.
  lemma FoldGrows(table: map<Client, int>, deltas: map<Client, int>, c: Client, delta: int)
    requires c !in deltas
    ensures Fold(table, deltas[c := delta]) == Fold(table, deltas)[c := Get(Fold(table, deltas), c) + delta]
  {
  }

  lemma {:induction false} RowsOfAt(items: seq<(Client, nat)>, n: nat)
    requires n < |items| && forall m, n | 0 <= m < n < |items| :: items[m].0 != items[n].0
    ensures items[n].0 in RowsOf(items) && RowsOf(items)[items[n].0] == items[n].1
  {
    if n < |items| - 1 {
      RowsOfAt(items[..|items| - 1], n);
    }
  }

  lemma DeltaAt(folded: map<string, nat>, k: string)
    requires k in folded && KeyOk(k)
    ensures Split(k).value in Deltas(folded) && Deltas(folded)[Split(k).value] == folded[k]
  {
  }

  lemma DeltaFrom(folded: map<string, nat>, c: Client)
    requires c in Deltas(folded) && forall k | k in folded :: KeyOk(k)
    ensures exists k :: k in folded && Split(k) == Some(c)
  {
  }

  // The staged rows are the deltas the fold is defined by, and never name a
  // client twice.
  lemma {:induction false} RowsAreDeltas(items: seq<(Client, nat)>, keys: seq<string>, folded: map<string, nat>)
    requires Lists(items, keys, folded) && forall k | k in folded :: KeyOk(k)
    ensures forall m, n | 0 <= m < n < |items| :: items[m].0 != items[n].0
    ensures RowsOf(items) == Deltas(folded)
  {
    forall m, n | 0 <= m < n < |items| ensures items[m].0 != items[n].0 {
      assert KeyOk(keys[m]) && KeyOk(keys[n]);
    }
    forall c | c in RowsOf(items) ensures c in Deltas(folded) && RowsOf(items)[c] == Deltas(folded)[c] {
      RowsOfKeys(items);
      var n :| 0 <= n < |items| && items[n].0 == c;
      RowsOfAt(items, n);
      DeltaAt(folded, keys[n]);
    }
    forall c | c in Deltas(folded) ensures c in RowsOf(items) {
      DeltaFrom(folded, c);
      var k :| k in folded && Split(k) == Some(c);
      assert k in (set k | k in keys);
      var n :| 0 <= n < |keys| && keys[n] == k;
      RowsOfAt(items, n);
    }
  }

  lemma ListsGrow(items: seq<(Client, nat)>, keys: seq<string>, folded: map<string, nat>, key: string, delta: nat)
    requires Lists(items, keys, folded) && key !in folded && Split(key).Some?
    ensures Lists(items + [(Split(key).value, delta)], keys + [key], folded[key := delta])
  {
  }

  // Acknowledging a committed job, key by key in any order, is a run of single
  // acknowledgements.
  function Acks(j: nat, keys: seq<string>, failing: set<string>): seq<Event> {
    if keys == [] then []
    else Acks(j, keys[..|keys| - 1], failing) + [Ack(j, keys[|keys| - 1], GoesThrough(keys[|keys| - 1], failing))]
  }

  lemma {:induction false} RunLast(s: State, events: seq<Event>, e: Event)
    ensures Run(s, events + [e]) == Step(Run(s, events), e)
    decreases events
  {
    if events == [] {
      assert [] + [e] == [e] && [e][1..] == [];
    } else {
      assert (events + [e])[1..] == events[1..] + [e];
      RunLast(Step(s, events[0]), events[1..], e);
    }
  }

  lemma {:induction false} AckedIsRun(s: State, j: nat, keys: seq<string>, failing: set<string>)
    requires j < |s.jobs| && s.jobs[j].phase.Committed?
    requires forall m, n | 0 <= m < n < |keys| :: keys[m] != keys[n]
    requires forall k | k in keys :: k in s.jobs[j].folded && k !in s.jobs[j].tried
    ensures
      var s' := Run(s, Acks(j, keys, failing));
      && j < |s'.jobs| && s'.jobs[j].phase.Committed? && s'.jobs[j].folded == s.jobs[j].folded
      && (forall k | k in s'.jobs[j].tried :: k in s.jobs[j].tried || k in keys)
      && s'.redis == Acked(s.redis, s.jobs[j].folded, keys, failing)
    decreases |keys|
  {
    if keys != [] {
      var init, key := keys[..|keys| - 1], keys[|keys| - 1];
      AckedIsRun(s, j, init, failing);
      RunLast(s, Acks(j, init, failing), Ack(j, key, GoesThrough(key, failing)));
      var next := AckOne(Run(s, Acks(j, init, failing)), j, key, failing);
    }
  }

  // ── A job that goes through ─────────────────────────────────────────────

  lemma {:induction false} AckedAt(redis: map<string, int>, folded: map<string, nat>, keys: seq<string>, k: string)
    requires forall m, n | 0 <= m < n < |keys| :: keys[m] != keys[n]
    requires forall k | k in keys :: k in folded
    ensures Get(Acked(redis, folded, keys, {}), k) == Get(redis, k) - if k in keys then folded[k] else 0
  {
    if keys != [] {
      AckedAt(redis, folded, keys[..|keys| - 1], k);
    }
  }

  // It takes every positive counter of a client out of Redis, books exactly that
  // in the table, and leaves the others alone.
  lemma {:induction false} JobDrains(s: State, keys: seq<string>, c: Client)
    requires KeysOk(s) && c.user != ""
    requires forall m, n | 0 <= m < n < |keys| :: keys[m] != keys[n]
    requires forall k :: k in keys <==> k in s.redis && s.redis[k] > 0
    ensures
      var j, k, before := |s.jobs|, MemberKey(c), Get(s.redis, MemberKey(c));
      var s' := Run(Step(Step(s, Read(true)), Commit(j, true)), Acks(j, keys, {}));
      && Get(s'.redis, k) == (if before > 0 then 0 else before)
      && Get(s'.table, c) == Get(s.table, c) + if before > 0 then before else 0
  {
    ReadsAll(s, keys);
    var s2 := ReadAndCommit(s);
    AcksDrain(s2, |s.jobs|, keys, MemberKey(c));
    DeltaOf(Foldable(s.redis), c);
  }

  lemma {:induction false} AcksDrain(s: State, j: nat, keys: seq<string>, k: string)
    requires j < |s.jobs| && s.jobs[j].phase.Committed? && s.jobs[j].tried == {}
    requires forall m, n | 0 <= m < n < |keys| :: keys[m] != keys[n]
    requires forall k :: k in keys <==> k in s.jobs[j].folded
    ensures
      var s' := Run(s, Acks(j, keys, {}));
      && s'.table == s.table
      && Get(s'.redis, k) == Get(s.redis, k) - if k in s.jobs[j].folded then s.jobs[j].folded[k] else 0
  {
    AckedIsRun(s, j, keys, {});
    AckedAt(s.redis, s.jobs[j].folded, keys, k);
    AcksKeepTable(s, j, keys, {});
  }

  lemma {:induction false} ReadsAll(s: State, keys: seq<string>)
    requires KeysOk(s) && forall k :: k in keys <==> k in s.redis && s.redis[k] > 0
    ensures forall k :: k in keys <==> k in Foldable(s.redis)
  {
    forall k ensures k in keys <==> k in Foldable(s.redis) {
      assert k in s.redis ==> KeyOk(k);
    }
  }

  lemma {:induction false} ReadAndCommit(s: State) returns (s2: State)
    ensures s2 == Step(Step(s, Read(true)), Commit(|s.jobs|, true))
    ensures |s2.jobs| == |s.jobs| + 1 && s2.jobs[|s.jobs|] == Job(Foldable(s.redis), Committed, {}, {})
    ensures s2.redis == s.redis && s2.table == Fold(s.table, Deltas(Foldable(s.redis)))
  {
    s2 := Step(Step(s, Read(true)), Commit(|s.jobs|, true));
  }

  lemma {:induction false} AcksKeepTable(s: State, j: nat, keys: seq<string>, failing: set<string>)
    ensures Run(s, Acks(j, keys, failing)).table == s.table
  {
    if keys != [] {
      var init, key := keys[..|keys| - 1], keys[|keys| - 1];
      AcksKeepTable(s, j, init, failing);
      RunLast(s, Acks(j, init, failing), Ack(j, key, GoesThrough(key, failing)));
    }
  }

  lemma {:induction false} AckOne(s: State, j: nat, key: string, failing: set<string>) returns (next: State)
    requires j < |s.jobs| && s.jobs[j].phase.Committed?
    requires key in s.jobs[j].folded && key !in s.jobs[j].tried
    ensures next == Step(s, Ack(j, key, GoesThrough(key, failing)))
    ensures j < |next.jobs| && next.jobs[j].phase.Committed? && next.jobs[j].folded == s.jobs[j].folded
    ensures next.jobs[j].tried == s.jobs[j].tried + {key}
    ensures next.redis == Decremented(s.redis, key, s.jobs[j].folded[key], GoesThrough(key, failing))
  {
    next := Step(s, Ack(j, key, GoesThrough(key, failing)));
  }
}
