// clickhouse/sink.py: the batching sink of the web process.

module Sink {
  import opened Common

  datatype Record = Record(id: nat, table: string)

  datatype Group = Group(table: string, records: seq<Record>)

  // ── Grouping ────────────────────────────────────────────────────────────

  // `groups.setdefault(r.table, []).append(r)`
  function AddTo(groups: seq<Group>, r: Record): seq<Group> {
    if groups == [] then [Group(r.table, [r])]
    else if groups[0].table == r.table then [groups[0].(records := groups[0].records + [r])] + groups[1..]
    else [groups[0]] + AddTo(groups[1..], r)
  }

  function Groups(batch: seq<Record>): seq<Group> {
    if batch == [] then [] else AddTo(Groups(batch[..|batch| - 1]), batch[|batch| - 1])
  }

  function OfTable(batch: seq<Record>, table: string): seq<Record> {
    if batch == [] then []
    else OfTable(batch[..|batch| - 1], table) +
         if batch[|batch| - 1].table == table then [batch[|batch| - 1]] else []
  }

  // All the records of some groups.
  function Members(groups: seq<Group>): multiset<Record> {
    if groups == [] then multiset{} else multiset(groups[0].records) + Members(groups[1..])
  }

  // The rows a list of groups holds for one table.
  function RowsFor(groups: seq<Group>, table: string): seq<Record> {
    if groups == [] then []
    else if groups[0].table == table then groups[0].records
    else RowsFor(groups[1..], table)
  }

  lemma {:induction false} AddToKeeps(groups: seq<Group>, r: Record, table: string)
    ensures Members(AddTo(groups, r)) == Members(groups) + multiset{r}
    ensures RowsFor(AddTo(groups, r), table) == RowsFor(groups, table) + if r.table == table then [r] else []
  {
    if groups == [] {
      assert AddTo(groups, r)[1..] == [];
      assert multiset([r]) == multiset{r};
    } else if groups[0].table == r.table {
      assert AddTo(groups, r)[1..] == groups[1..];
      assert multiset(groups[0].records + [r]) == multiset(groups[0].records) + multiset{r};
    } else {
      AddToKeeps(groups[1..], r, table);
      assert AddTo(groups, r)[1..] == AddTo(groups[1..], r);
    }
  }

  // Grouping neither loses nor invents a record, and each table's rows are in
  // the order they were emitted.
  lemma {:induction false} GroupsKeep(batch: seq<Record>, table: string)
    ensures Members(Groups(batch)) == multiset(batch)
    ensures RowsFor(Groups(batch), table) == OfTable(batch, table)
  {
    if batch != [] {
      var n := |batch| - 1;
      GroupsKeep(batch[..n], table);
      AddToKeeps(Groups(batch[..n]), batch[n], table);
      assert batch == batch[..n] + [batch[n]];
    }
  }

  // One group a table, each of its own records only: one insert a table.
  lemma {:induction false} GroupsApart(batch: seq<Record>)
    ensures forall j, k | 0 <= j < k < |Groups(batch)| :: Groups(batch)[j].table != Groups(batch)[k].table
    ensures forall k | 0 <= k < |Groups(batch)| :: Groups(batch)[k].records == OfTable(batch, Groups(batch)[k].table)
  {
    if batch != [] {
      GroupsApart(batch[..|batch| - 1]);
      var r := batch[|batch| - 1];
      AddToTables(Groups(batch[..|batch| - 1]), r);
    }
    forall k | 0 <= k < |Groups(batch)| ensures Groups(batch)[k].records == OfTable(batch, Groups(batch)[k].table) {
      GroupsKeep(batch, Groups(batch)[k].table);
      RowsAt(Groups(batch), k);
    }
  }

  lemma {:induction false} AddToTables(groups: seq<Group>, r: Record)
    requires forall j, k | 0 <= j < k < |groups| :: groups[j].table != groups[k].table
    ensures forall j, k | 0 <= j < k < |AddTo(groups, r)| :: AddTo(groups, r)[j].table != AddTo(groups, r)[k].table
    ensures forall k | 0 <= k < |AddTo(groups, r)| ::
              AddTo(groups, r)[k].table == r.table || (k < |groups| && AddTo(groups, r)[k].table == groups[k].table)
    ensures |AddTo(groups, r)| >= |groups|
  {
    if groups != [] && groups[0].table != r.table {
      AddToTables(groups[1..], r);
      var more := AddTo(groups[1..], r);
      forall k | 0 <= k < |more| ensures more[k].table != groups[0].table {
        if k < |groups[1..]| && more[k].table == groups[1..][k].table {
          assert groups[1..][k] == groups[k + 1];
        }
      }
    }
  }

  lemma {:induction false} RowsAt(groups: seq<Group>, k: nat)
    requires k < |groups| && forall j, k | 0 <= j < k < |groups| :: groups[j].table != groups[k].table
    ensures RowsFor(groups, groups[k].table) == groups[k].records
  {
    if k > 0 {
      RowsAt(groups[1..], k - 1);
    }
  }

  // ── Any interleaving ────────────────────────────────────────────────────

  // `flights` are flushes between their swap and their last insert.
  datatype State = State(
    buffer: seq<Record>,
    flights: seq<seq<Group>>,
    inserted: seq<Record>,
    failed: seq<Record>,
    dropped: seq<Record>,
    emitted: seq<Record>)

  datatype Event = Emit(r: Record) | Swap | Insert(flight: nat, ok: bool)

  // A full buffer drops its oldest record. With a bound of 0 there is none to
  // drop: the call raises, and the record is not taken.
  function Emitted(max: nat, s: State, r: Record): State
  {
    if |s.buffer| >= max && s.buffer == [] then s
    else if |s.buffer| >= max then
      s.(buffer := s.buffer[1..] + [r], dropped := s.dropped + [s.buffer[0]], emitted := s.emitted + [r])
    else s.(buffer := s.buffer + [r], emitted := s.emitted + [r])
  }

  function Step(max: nat, s: State, e: Event): State
  {
    match e
    case Emit(r) => Emitted(max, s, r)
    case Swap => if s.buffer == [] then s else s.(buffer := [], flights := s.flights + [Groups(s.buffer)])
    case Insert(f, ok) =>
      if f >= |s.flights| || s.flights[f] == [] then s
      else
        var rows := s.flights[f][0].records;
        var rest := s.(flights := s.flights[f := s.flights[f][1..]]);
        if ok then rest.(inserted := s.inserted + rows) else rest.(failed := s.failed + rows)
  }

  function Run(max: nat, events: seq<Event>): State
  {
    if events == [] then State([], [], [], [], [], [])
    else Step(max, Run(max, events[..|events| - 1]), events[|events| - 1])
  }

  function InFlight(flights: seq<seq<Group>>): multiset<Record> {
    if flights == [] then multiset{} else InFlight(flights[..|flights| - 1]) + Members(flights[|flights| - 1])
  }

  ghost predicate Accounted(s: State) {
    multiset(s.emitted) == multiset(s.dropped) + multiset(s.buffer) + Flushed(s)
  }

  // What has left the buffer for the table.
  ghost function Flushed(s: State): multiset<Record> {
    InFlight(s.flights) + multiset(s.inserted) + multiset(s.failed)
  }

  predicate SuffixOf(s: seq<Record>, t: seq<Record>) {
    |s| <= |t| && t[|t| - |s|..] == s
  }

  lemma {:induction false} FlightTakesOff(flights: seq<seq<Group>>, f: nat)
    requires f < |flights| && flights[f] != []
    ensures InFlight(flights) == InFlight(flights[f := flights[f][1..]]) + multiset(flights[f][0].records)
  {
    var n := |flights| - 1;
    var less := flights[f := flights[f][1..]];
    if f < n {
      assert less[..n] == flights[..n][f := flights[f][1..]];
      FlightTakesOff(flights[..n], f);
    } else {
      assert less[..n] == flights[..n];
    }
  }

  lemma EmitAccounts(max: nat, s: State, r: Record)
    requires Accounted(s)
    ensures Accounted(Emitted(max, s, r))
  {
    OneMore(s.emitted, r);
    if |s.buffer| < max {
      OneMore(s.buffer, r);
    } else if s.buffer != [] {
      OneMore(s.dropped, s.buffer[0]);
      OneMore(s.buffer[1..], r);
      assert s.buffer == [s.buffer[0]] + s.buffer[1..];
      assert multiset(s.buffer) == multiset{s.buffer[0]} + multiset(s.buffer[1..]);
      Exchange(multiset(s.dropped), multiset(s.buffer[1..]), Flushed(s), s.buffer[0], r);
    }
  }

  lemma OneMore(records: seq<Record>, r: Record)
    ensures multiset(records + [r]) == multiset(records) + multiset{r}
  {
  }

  // The oldest record leaves as the new one comes.
  lemma Exchange(dropped: multiset<Record>, kept: multiset<Record>, flushed: multiset<Record>, oldest: Record,
                 r: Record)
    ensures dropped + (multiset{oldest} + kept) + flushed + multiset{r} ==
            (dropped + multiset{oldest}) + (kept + multiset{r}) + flushed
  {
  }

  lemma SwapAccounts(max: nat, s: State)
    requires Accounted(s)
    ensures Accounted(Step(max, s, Swap))
  {
    if s.buffer != [] {
      GroupsKeep(s.buffer, "");
      var flights := s.flights + [Groups(s.buffer)];
      assert flights[..|flights| - 1] == s.flights;
    }
  }

  lemma InsertAccounts(max: nat, s: State, f: nat, ok: bool)
    requires Accounted(s)
    ensures Accounted(Step(max, s, Insert(f, ok)))
  {
    if f < |s.flights| && s.flights[f] != [] {
      FlightTakesOff(s.flights, f);
    }
  }

  lemma StepAccounts(max: nat, s: State, e: Event)
    requires Accounted(s)
    ensures Accounted(Step(max, s, e))
  {
    match e
    case Emit(r) => EmitAccounts(max, s, r);
    case Swap => SwapAccounts(max, s);
    case Insert(f, ok) => InsertAccounts(max, s, f, ok);
  }

  lemma StepBuffers(max: nat, s: State, e: Event)
    requires SuffixOf(s.buffer, s.emitted) && |s.buffer| <= max
    ensures SuffixOf(Step(max, s, e).buffer, Step(max, s, e).emitted) && |Step(max, s, e).buffer| <= max
  {
  }

  // For any interleaving of emits, swaps and insert outcomes, every emitted
  // record is in exactly one place: dropped, buffered, in flight, inserted or
  // failed. The buffer holds the latest records and never more than its bound.
  lemma {:induction false} EveryRecordIsSomewhere(max: nat, events: seq<Event>)
    ensures Accounted(Run(max, events))
    ensures SuffixOf(Run(max, events).buffer, Run(max, events).emitted)
    ensures |Run(max, events).buffer| <= max
  {
    if events != [] {
      var n := |events| - 1;
      var before := Run(max, events[..n]);
      EveryRecordIsSomewhere(max, events[..n]);
      StepAccounts(max, before, events[n]);
      StepBuffers(max, before, events[n]);
      assert Run(max, events) == Step(max, before, events[n]);
    }
  }

  // Nothing is dropped before as many records were emitted as the buffer holds.
  lemma {:induction false} NothingDroppedEarly(max: nat, events: seq<Event>)
    requires |Run(max, events).emitted| <= max
    ensures Run(max, events).dropped == []
  {
    if events != [] {
      NothingDroppedEarly(max, events[..|events| - 1]);
      EveryRecordIsSomewhere(max, events[..|events| - 1]);
    }
  }

  // So nothing is delivered twice: a record emitted once is inserted at most
  // once, and not at all if it was dropped or its insert failed.
  lemma {:induction false} DeliveredOnce(max: nat, events: seq<Event>, r: Record)
    requires multiset(Run(max, events).emitted)[r] <= 1
    ensures
      var s := Run(max, events);
      multiset(s.inserted)[r] + multiset(s.failed)[r] + multiset(s.dropped)[r] + multiset(s.buffer)[r] <= 1
  {
    EveryRecordIsSomewhere(max, events);
  }

  datatype EmitError = PopFromEmptyList

  // ── The sink, as it is stored ───────────────────────────────────────────

  class AsyncBatchSink {
    var buf: seq<Record>
    var dropped: nat
    var closed: bool
    const batchSize: nat
    const maxBuffer: nat
    // What the table ended with, for the specification.
    ghost var inserted: seq<Record>
    ghost var failed: seq<Record>

    constructor (batchSize: nat, maxBuffer: nat)
      ensures buf == [] && dropped == 0 && !closed && inserted == failed == []
      ensures this.batchSize == batchSize && this.maxBuffer == maxBuffer
    {
      this.batchSize, this.maxBuffer := batchSize, maxBuffer;
      buf, dropped, closed, inserted, failed := [], 0, false, [], [];
    }

    // Says whether an extra flush is scheduled, or raises when there is nothing
    // to drop.
    method Emit(r: Record) returns (flush: Result<bool, EmitError>)
      requires |buf| <= maxBuffer
      modifies this`buf, this`dropped
      ensures |buf| <= maxBuffer
      ensures flush == Err(PopFromEmptyList) <==> !closed && maxBuffer == 0
      ensures closed || flush.Err? ==> buf == old(buf) && dropped == old(dropped)
      ensures !closed ==> forall s: State | s.buffer == old(buf) ::
                && buf == Step(maxBuffer, s, Event.Emit(r)).buffer
                && dropped == old(dropped) + |Step(maxBuffer, s, Event.Emit(r)).dropped| - |s.dropped|
      ensures flush.Ok? ==> (flush.value <==> !closed && |buf| >= batchSize)
    {
      if closed {
        return Ok(false);
      }
      if |buf| >= maxBuffer {
        if buf == [] {
          return Err(PopFromEmptyList);
        }
        buf := buf[1..];
        dropped := dropped + 1;
      }
      buf := buf + [r];
      flush := Ok(|buf| >= batchSize);
    }

    // The swap, and the grouping that follows it.
    method TakeBatch() returns (groups: seq<Group>)
      modifies this`buf
      ensures buf == [] && groups == Groups(old(buf))
    {
      if buf == [] {
        return [];
      }
      var batch := buf;
      buf := [];
      groups := GroupByTable(batch);
    }

    // One insert a table; a failure is logged and its rows are gone.
    method Deliver(groups: seq<Group>, outcomes: seq<bool>)
      requires |outcomes| == |groups|
      modifies this`inserted, this`failed
      ensures inserted == old(inserted) + Rows(groups, outcomes, true)
      ensures failed == old(failed) + Rows(groups, outcomes, false)
    {
      for g := 0 to |groups|
        invariant inserted == old(inserted) + Rows(groups[..g], outcomes[..g], true)
        invariant failed == old(failed) + Rows(groups[..g], outcomes[..g], false)
      {
        assert groups[..g + 1][..g] == groups[..g] && outcomes[..g + 1][..g] == outcomes[..g];
        if outcomes[g] {
          inserted := inserted + groups[g].records;
        } else {
          failed := failed + groups[g].records;
        }
      }
      assert groups[..|groups|] == groups && outcomes[..|groups|] == outcomes;
    }

    method Flush(outcomes: seq<bool>)
      requires |outcomes| == |Groups(buf)|
      modifies this`buf, this`inserted, this`failed
      ensures buf == []
      ensures inserted == old(inserted) + Rows(Groups(old(buf)), outcomes, true)
      ensures failed == old(failed) + Rows(Groups(old(buf)), outcomes, false)
    {
      var groups := TakeBatch();
      Deliver(groups, outcomes);
    }
  }

  // The rows whose inserts ended one way.
  function Rows(groups: seq<Group>, outcomes: seq<bool>, ok: bool): seq<Record>
    requires |outcomes| == |groups|
  {
    if groups == [] then []
    else
      var n := |groups| - 1;
      Rows(groups[..n], outcomes[..n], ok) + if outcomes[n] == ok then groups[n].records else []
  }

  method GroupByTable(batch: seq<Record>) returns (groups: seq<Group>)
    ensures groups == Groups(batch)
  {
    groups := [];
    for k := 0 to |batch|
      invariant groups == Groups(batch[..k])
    {
      assert batch[..k + 1][..k] == batch[..k];
      groups := AddTo(groups, batch[k]);
    }
    assert batch[..|batch|] == batch;
  }
}
