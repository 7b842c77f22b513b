// cascading/service.py: which providers are asked, the race between them, and
// the escalation through groups. The order in which calls complete is the
// environment's choice.

module Cascade {
  import opened Common

  datatype Status = WON | LOST | CANCELLED | REFUSED | TIMEOUT | ERROR

  // What a provider call comes back with: `_call_adapter_issue` and
  // `_resolve_task` turn everything into one of these.
  datatype Answer = Issued(external: nat) | Refusal | TimedOut | Raised | Aborted

  // One attempt row. `key` is the idempotency key of the call.
  datatype Attempt = Attempt(provider: nat, status: Status, external: Option<nat>, key: nat)

  datatype Reference = External(id: nat) | Key(id: nat)

  // A cancel that was enqueued for a provider.
  datatype Cancel = Cancel(provider: nat, reference: Reference)

  // ── Who is asked ────────────────────────────────────────────────────────

  datatype Provider = Provider(
    id: nat,
    active: bool,
    disabledUntil: Option<int>,
    min: Option<nat>,
    max: Option<nat>,
    supported: bool,
    // The virtual trader's USDT WORK balance, when there is a row for it.
    funds: Option<int>)

  datatype Skip = Inactive | CircuitOpen | BelowMin | AboveMax | Unsupported | Underfunded

  predicate Blocked(p: Provider, now: int) {
    p.disabledUntil.Some? && p.disabledUntil.value > now
  }

  predicate Eligible(p: Provider, now: int, fiat: nat) {
    && p.active && !Blocked(p, now) && p.supported
    && (p.min.Some? ==> p.min.value <= fiat)
    && (p.max.Some? ==> fiat <= p.max.value)
  }

  predicate Funded(p: Provider, usdt: Option<int>) {
    usdt.None? || usdt.value <= 0 || (p.funds.Some? && p.funds.value >= usdt.value)
  }

  // Who is kept, in order.
  function Kept(providers: seq<Provider>, now: int, fiat: nat): seq<Provider> {
    if providers == [] then []
    else
      var p := providers[|providers| - 1];
      Kept(providers[..|providers| - 1], now, fiat) + if Eligible(p, now, fiat) then [p] else []
  }

  // `_eligible_providers`: every provider is either kept, in order, or skipped
  // with a reason.
  method EligibleProviders(providers: seq<Provider>, now: int, fiat: nat)
    returns (eligible: seq<Provider>, skipped: seq<(nat, Skip)>)
    ensures eligible == Kept(providers, now, fiat)
    ensures |eligible| + |skipped| == |providers|
    ensures forall k | 0 <= k < |skipped| :: Explained(skipped[k], providers, now, fiat)
  {
    eligible, skipped := [], [];
    for k := 0 to |providers|
      invariant eligible == Kept(providers[..k], now, fiat)
      invariant |eligible| + |skipped| == k
      invariant forall j | 0 <= j < |skipped| :: Explained(skipped[j], providers, now, fiat)
    {
      var p := providers[k];
      assert providers[..k + 1][..k] == providers[..k];
      assert Reason(p, now, fiat).Some? ==> Explained((p.id, Reason(p, now, fiat).value), providers, now, fiat);
      if !p.active {
        skipped := skipped + [(p.id, Inactive)];
        continue;
      }
      if p.disabledUntil.Some? && p.disabledUntil.value > now {
        skipped := skipped + [(p.id, CircuitOpen)];
        continue;
      }
      if p.min.Some? && fiat < p.min.value {
        skipped := skipped + [(p.id, BelowMin)];
        continue;
      }
      if p.max.Some? && fiat > p.max.value {
        skipped := skipped + [(p.id, AboveMax)];
        continue;
      }
      if !p.supported {
        skipped := skipped + [(p.id, Unsupported)];
        continue;
      }
      eligible := eligible + [p];
    }
    assert providers[..|providers|] == providers;
  }

  // Kept is exactly the eligible ones;
  lemma {:induction false} KeptExactly(providers: seq<Provider>, now: int, fiat: nat)
    ensures forall p :: p in Kept(providers, now, fiat) <==> p in providers && Eligible(p, now, fiat)
  {
    if providers != [] {
      var init, p := providers[..|providers| - 1], providers[|providers| - 1];
      KeptExactly(init, now, fiat);
      assert providers == init + [p];
    }
  }

  // in their order;
  lemma {:induction false} KeptInOrder(providers: seq<Provider>, now: int, fiat: nat)
    ensures Subsequence(Kept(providers, now, fiat), providers)
  {
    if providers != [] {
      var init, p := providers[..|providers| - 1], providers[|providers| - 1];
      KeptInOrder(init, now, fiat);
      KeptNext(Kept(init, now, fiat), init, p, Eligible(p, now, fiat));
      assert providers == init + [p];
    }
  }

  lemma {:induction false} KeptNext<T>(kept: seq<T>, seen: seq<T>, x: T, keep: bool)
    requires Subsequence(kept, seen)
    ensures Subsequence(kept + if keep then [x] else [], seen + [x])
  {
    SubsequenceGrows(kept, seen, x);
    assert !keep ==> kept + (if keep then [x] else []) == kept;
  }

  // and a provider has a reason to be skipped exactly when it is not eligible.
  lemma ReasonIsExact(p: Provider, now: int, fiat: nat)
    ensures Reason(p, now, fiat).None? <==> Eligible(p, now, fiat)
  {
  }

  // Why a provider is not asked: the first test it fails.
  function Reason(p: Provider, now: int, fiat: nat): Option<Skip> {
    if !p.active then Some(Inactive)
    else if Blocked(p, now) then Some(CircuitOpen)
    else if p.min.Some? && fiat < p.min.value then Some(BelowMin)
    else if p.max.Some? && fiat > p.max.value then Some(AboveMax)
    else if !p.supported then Some(Unsupported)
    else None
  }

  predicate Explained(skip: (nat, Skip), providers: seq<Provider>, now: int, fiat: nat) {
    exists p :: p in providers && p.id == skip.0 && Reason(p, now, fiat) == Some(skip.1)
  }

  // `_filter_funded`
  method FilterFunded(providers: seq<Provider>, usdt: Option<int>) returns (funded: seq<Provider>)
    ensures forall p :: p in funded <==> p in providers && Funded(p, usdt)
    ensures Subsequence(funded, providers)
  {
    if usdt.None? || usdt.value <= 0 {
      SubsequenceRefl(providers);
      return providers;
    }
    funded := [];
    for k := 0 to |providers|
      invariant forall p :: p in funded <==> p in providers[..k] && Funded(p, usdt)
      invariant Subsequence(funded, providers[..k])
    {
      var p := providers[k];
      assert providers[..k + 1] == providers[..k] + [p];
      SubsequenceGrows(funded, providers[..k], p);
      if p.funds.Some? && p.funds.value >= usdt.value {
        funded := funded + [p];
      }
    }
    assert providers[..|providers|] == providers;
  }

  // The kept elements are in their original order.
  predicate Subsequence<T(==)>(s: seq<T>, t: seq<T>) {
    if s == [] then true
    else if t == [] then false
    else if s[|s| - 1] == t[|t| - 1] && Subsequence(s[..|s| - 1], t[..|t| - 1]) then true
    else Subsequence(s, t[..|t| - 1])
  }

  lemma {:induction false} SubsequenceGrows<T>(s: seq<T>, t: seq<T>, x: T)
    requires Subsequence(s, t)
    ensures Subsequence(s, t + [x]) && Subsequence(s + [x], t + [x])
  {
  }

  lemma {:induction false} SubsequenceRefl<T>(s: seq<T>)
    ensures Subsequence(s, s)
  {
    if s != [] {
      SubsequenceRefl(s[..|s| - 1]);
    }
  }

  // ── The race ────────────────────────────────────────────────────────────

  function StatusOf(a: Answer): Status {
    match a
    case Issued(_) => WON
    case Refusal => REFUSED
    case TimedOut => TIMEOUT
    case Raised => ERROR
    case Aborted => CANCELLED
  }

  // A provider's own request reserved something on its side.
  predicate Wins(answers: map<nat, Answer>, p: nat) {
    p in answers && answers[p].Issued?
  }

  // One race as the environment plays it: which calls each wait hands back. An
  // empty round, or running out of rounds, is the deadline.
  datatype Race = Race(answers: map<nat, Answer>, keys: map<nat, nat>, rounds: seq<set<nat>>)

  // The calls among `pending` that round k hands back.
  function Round(race: Race, k: nat, pending: set<nat>): set<nat> {
    if k < |race.rounds| then race.rounds[k] * pending else {}
  }

  // The first round that hands back a reservation, whatever else it hands back.
  function Contenders(race: Race, k: nat, pending: set<nat>): set<nat>
    decreases |race.rounds| - k
  {
    var done := Round(race, k, pending);
    if done == {} then {}
    else
      var winners := set p | p in done && Wins(race.answers, p);
      if winners != {} then winners else Contenders(race, k + 1, pending - done)
  }

  // Everything handed back up to and including that round.
  function HandedBack(race: Race, k: nat, pending: set<nat>): set<nat>
    decreases |race.rounds| - k
  {
    var done := Round(race, k, pending);
    if done == {} then {}
    else if exists p :: p in done && Wins(race.answers, p) then done
    else done + HandedBack(race, k + 1, pending - done)
  }

  // The attempt a provider ends with, given who won.
  function Final(race: Race, p: nat, winner: Option<nat>, handed: set<nat>): Attempt
    requires p in race.answers && p in race.keys
  {
    if p in handed then
      var status := if race.answers[p].Issued? && winner != Some(p) then LOST else StatusOf(race.answers[p]);
      Attempt(p, status, if race.answers[p].Issued? then Some(race.answers[p].external) else None, race.keys[p])
    else
      Attempt(p, if winner.Some? then CANCELLED else TIMEOUT, None, race.keys[p])
  }

  function Providers(attempts: seq<Attempt>): set<nat> {
    set k | 0 <= k < |attempts| :: attempts[k].provider
  }

  predicate Distinct(attempts: seq<Attempt>) {
    forall j, k | 0 <= j < k < |attempts| :: attempts[j].provider != attempts[k].provider
  }

  lemma ProvidersAppend(attempts: seq<Attempt>, a: Attempt)
    ensures Providers(attempts + [a]) == Providers(attempts) + {a.provider}
    ensures Distinct(attempts) && a.provider !in Providers(attempts) ==> Distinct(attempts + [a])
  {
    var more := attempts + [a];
    forall p ensures p in Providers(more) <==> p in Providers(attempts) + {a.provider} {
      if p in Providers(attempts) {
        var k :| 0 <= k < |attempts| && attempts[k].provider == p;
        assert more[k].provider == p;
      }
      if p == a.provider {
        assert more[|attempts|].provider == p;
      }
    }
    if Distinct(attempts) && a.provider !in Providers(attempts) {
      forall j, k | 0 <= j < k < |more| ensures more[j].provider != more[k].provider {
        if k == |attempts| {
          assert attempts[j].provider in Providers(attempts);
        }
      }
    }
  }

  // The outcome of a call that came back.
  function Recorded(race: Race, p: nat): Attempt
    requires p in race.answers && p in race.keys
  {
    Attempt(p, StatusOf(race.answers[p]), if race.answers[p].Issued? then Some(race.answers[p].external) else None,
            race.keys[p])
  }

  predicate AllRecorded(race: Race, attempts: seq<Attempt>) {
    forall k | 0 <= k < |attempts| ::
      var p := attempts[k].provider;
      p in race.answers && p in race.keys && attempts[k] == Recorded(race, p)
  }

  predicate Known(race: Race, all: set<nat>) {
    forall p | p in all :: p in race.answers && p in race.keys
  }

  // One wait's worth of finished calls, in whatever order the set yields them.
  method TakeRound(race: Race, done: set<nat>, before: seq<Attempt>)
    returns (outcomes: seq<Attempt>, winner: Option<nat>)
    requires Known(race, done) && AllRecorded(race, before) && Distinct(before) && Providers(before) !! done
    ensures AllRecorded(race, outcomes) && Distinct(outcomes)
    ensures Providers(outcomes) == Providers(before) + done
    ensures winner.Some? ==> winner.value in done && Wins(race.answers, winner.value)
    ensures winner.None? ==> forall p | p in done :: !Wins(race.answers, p)
  {
    outcomes, winner := before, None;
    var todo := done;
    while todo != {}
      invariant todo <= done
      invariant AllRecorded(race, outcomes) && Distinct(outcomes)
      invariant Providers(outcomes) == Providers(before) + (done - todo)
      invariant winner.Some? ==> winner.value in done && Wins(race.answers, winner.value)
      invariant winner.None? ==> forall p | p in done - todo :: !Wins(race.answers, p)
      decreases todo
    {
      var p :| p in todo;
      var outcome := Recorded(race, p);
      ProvidersAppend(outcomes, outcome);
      outcomes := outcomes + [outcome];
      if outcome.status.WON? && winner.None? {
        winner := Some(p);
      }
      todo := todo - {p};
    }
  }

  // The wait loop: it ends at the first round with a reservation, at the
  // deadline, or when every call has come back. Each round leaves fewer pending.
  method Wait(race: Race, all: set<nat>) returns (outcomes: seq<Attempt>, pending: set<nat>, winner: Option<nat>)
    requires Known(race, all)
    ensures pending <= all && AllRecorded(race, outcomes) && Distinct(outcomes)
    ensures Providers(outcomes) == all - pending == HandedBack(race, 0, all)
    ensures winner.Some? <==> Contenders(race, 0, all) != {}
    ensures winner.Some? ==> winner.value in Contenders(race, 0, all)
  {
    outcomes, pending, winner := [], all, None;
    var k := 0;
    while pending != {}
      invariant pending <= all && AllRecorded(race, outcomes) && Distinct(outcomes)
      invariant Providers(outcomes) == all - pending && winner.None?
      invariant Contenders(race, 0, all) == Contenders(race, k, pending)
      invariant HandedBack(race, 0, all) == (all - pending) + HandedBack(race, k, pending)
      decreases pending
    {
      var done := Round(race, k, pending);
      if done == {} {
        break;
      }
      outcomes, winner := TakeRound(race, done, outcomes);
      RoundDecides(race, k, pending, winner);
      pending := pending - done;
      k := k + 1;
      if winner.Some? {
        break;
      }
    }
    assert winner.None? ==> Contenders(race, k, pending) == {};
  }

  lemma RoundDecides(race: Race, k: nat, pending: set<nat>, winner: Option<nat>)
    requires Round(race, k, pending) != {}
    requires winner.Some? ==> winner.value in Round(race, k, pending) && Wins(race.answers, winner.value)
    requires winner.None? ==> forall p | p in Round(race, k, pending) :: !Wins(race.answers, p)
    ensures winner.Some? ==>
              winner.value in Contenders(race, k, pending) && HandedBack(race, k, pending) == Round(race, k, pending)
    ensures winner.None? ==> Contenders(race, k, pending) == Contenders(race, k + 1, pending - Round(race, k, pending))
    ensures winner.None? ==> HandedBack(race, k, pending) ==
                             Round(race, k, pending) + HandedBack(race, k + 1, pending - Round(race, k, pending))
  {
    var done := Round(race, k, pending);
    var winners := set p | p in done && Wins(race.answers, p);
    if winner.Some? {
      assert winner.value in winners;
    } else {
      assert winners == {};
    }
  }

  // Calls that never came back are given up: the deadline passed, or somebody won.
  method GiveUp(race: Race, before: seq<Attempt>, pending: set<nat>, winner: Option<nat>)
    returns (outcomes: seq<Attempt>)
    requires Known(race, pending) && Distinct(before) && Providers(before) !! pending
    ensures Distinct(outcomes) && Providers(outcomes) == Providers(before) + pending
    ensures |before| <= |outcomes| && outcomes[..|before|] == before
    ensures forall k | |before| <= k < |outcomes| ::
              outcomes[k].provider in pending &&
              outcomes[k] == Attempt(outcomes[k].provider, if winner.Some? then CANCELLED else TIMEOUT, None,
                                     race.keys[outcomes[k].provider])
  {
    outcomes := before;
    var todo := pending;
    while todo != {}
      invariant todo <= pending
      invariant Distinct(outcomes) && Providers(outcomes) == Providers(before) + (pending - todo)
      invariant |before| <= |outcomes| && outcomes[..|before|] == before
      invariant forall k | |before| <= k < |outcomes| ::
                  outcomes[k].provider in pending &&
                  outcomes[k] == Attempt(outcomes[k].provider, if winner.Some? then CANCELLED else TIMEOUT, None,
                                         race.keys[outcomes[k].provider])
      decreases todo
    {
      var p :| p in todo;
      var outcome := Attempt(p, if winner.Some? then CANCELLED else TIMEOUT, None, race.keys[p]);
      ProvidersAppend(outcomes, outcome);
      outcomes := outcomes + [outcome];
      todo := todo - {p};
    }
  }

  // The cancels a finished race owes, from its attempt rows alone.
  function CancelsFor(attempts: seq<Attempt>): seq<Cancel> {
    if attempts == [] then []
    else
      var a := attempts[|attempts| - 1];
      CancelsFor(attempts[..|attempts| - 1]) +
      if a.status.LOST? && a.external.Some? then [Cancel(a.provider, External(a.external.value))]
      else if a.status.CANCELLED? then [Cancel(a.provider, Key(a.key))]
      else []
  }

  // Everybody but the winner who may hold a reservation is told to cancel: by
  // its own id if it answered, by our key if it was cut off.
  method CancelLosers(outcomes: seq<Attempt>, winner: nat) returns (attempts: seq<Attempt>, cancels: seq<Cancel>)
    requires forall k | 0 <= k < |outcomes| ::
             !outcomes[k].status.LOST? && (outcomes[k].status.WON? ==> outcomes[k].external.Some?)
    requires forall k | 0 <= k < |outcomes| && outcomes[k].provider == winner :: outcomes[k].status.WON?
    ensures |attempts| == |outcomes|
    ensures forall k | 0 <= k < |attempts| ::
              attempts[k] == if outcomes[k].provider != winner && outcomes[k].status.WON?
                             then outcomes[k].(status := LOST) else outcomes[k]
    ensures cancels == CancelsFor(attempts)
  {
    attempts, cancels := outcomes, [];
    for j := 0 to |outcomes|
      invariant |attempts| == |outcomes|
      invariant forall k | 0 <= k < j ::
                  attempts[k] == if outcomes[k].provider != winner && outcomes[k].status.WON?
                                 then outcomes[k].(status := LOST) else outcomes[k]
      invariant forall k | j <= k < |outcomes| :: attempts[k] == outcomes[k]
      invariant cancels == CancelsFor(attempts[..j])
    {
      var outcome := outcomes[j];
      ghost var before := attempts;
      if outcome.provider != winner {
        if outcome.status.WON? {
          attempts := attempts[j := outcome.(status := LOST)];
          cancels := cancels + [Cancel(outcome.provider, External(outcome.external.value))];
        } else if outcome.status.CANCELLED? {
          cancels := cancels + [Cancel(outcome.provider, Key(outcome.key))];
        }
      }
      assert attempts[..j] == before[..j];
      assert attempts[..j + 1][..j] == attempts[..j];
    }
    assert attempts[..|attempts|] == attempts;
  }

  // What a race must end with, stated from the environment's play alone.
  ghost predicate RaceOutcome(race: Race, all: set<nat>, attempts: seq<Attempt>, winner: Option<nat>,
                              cancels: seq<Cancel>)
    requires Known(race, all)
  {
    && Distinct(attempts) && Providers(attempts) == all
    && (winner.Some? <==> Contenders(race, 0, all) != {})
    && (winner.Some? ==> winner.value in Contenders(race, 0, all))
    && (forall k | 0 <= k < |attempts| ::
          && attempts[k].provider in all
          && attempts[k] == Final(race, attempts[k].provider, winner, HandedBack(race, 0, all)))
    && cancels == (if winner.Some? then CancelsFor(attempts) else [])
  }

  // `_race_group`
  method RaceGroup(race: Race, all: set<nat>)
    returns (attempts: seq<Attempt>, winner: Option<nat>, cancels: seq<Cancel>)
    requires Known(race, all)
    ensures RaceOutcome(race, all, attempts, winner, cancels)
  {
    var outcomes, pending;
    outcomes, pending, winner := Wait(race, all);
    ghost var handed := outcomes;
    ContendersHanded(race, 0, all);
    outcomes := GiveUp(race, outcomes, pending, winner);
    ProvidersOf(handed);
    attempts, cancels := outcomes, [];
    if winner.Some? {
      WinnerWon(race, outcomes, handed, winner.value);
      attempts, cancels := CancelLosers(outcomes, winner.value);
    }
    FinalRows(race, all, handed, outcomes, attempts, winner);
  }

  // What a provider has before anybody is demoted: its answer, or being given up.
  predicate IsOutcome(race: Race, handed: seq<Attempt>, outcomes: seq<Attempt>, winner: Option<nat>) {
    && |handed| <= |outcomes| && outcomes[..|handed|] == handed && AllRecorded(race, handed)
    && (forall k | |handed| <= k < |outcomes| ::
          && outcomes[k].provider in race.keys && outcomes[k].provider !in Providers(handed)
          && outcomes[k] == Attempt(outcomes[k].provider, if winner.Some? then CANCELLED else TIMEOUT, None,
                                    race.keys[outcomes[k].provider]))
  }

  // The rows the race leaves are the final ones.
  lemma {:induction false} FinalRows(race: Race, all: set<nat>, handed: seq<Attempt>, outcomes: seq<Attempt>,
                                     attempts: seq<Attempt>, winner: Option<nat>)
    requires Known(race, all) && IsOutcome(race, handed, outcomes, winner)
    requires Distinct(outcomes) && Providers(outcomes) == all && Providers(handed) == HandedBack(race, 0, all)
    requires winner.None? ==> attempts == outcomes && forall p | p in Providers(handed) :: !Wins(race.answers, p)
    requires |attempts| == |outcomes|
    requires winner.Some? ==> forall k | 0 <= k < |attempts| ::
               attempts[k] == if outcomes[k].provider != winner.value && outcomes[k].status.WON?
                              then outcomes[k].(status := LOST) else outcomes[k]
    ensures Distinct(attempts) && Providers(attempts) == all
    ensures forall k | 0 <= k < |attempts| ::
              && attempts[k].provider in all
              && attempts[k] == Final(race, attempts[k].provider, winner, HandedBack(race, 0, all))
  {
    assert forall k | 0 <= k < |attempts| :: attempts[k].provider == outcomes[k].provider;
    assert Providers(attempts) == Providers(outcomes);
    ProvidersOf(outcomes);
    ProvidersOf(handed);
    forall k | 0 <= k < |attempts|
      ensures attempts[k] == Final(race, attempts[k].provider, winner, HandedBack(race, 0, all))
    {
      if k < |handed| {
        assert outcomes[k] == outcomes[..|handed|][k] == handed[k];
        assert handed[k].provider in Providers(handed);
      }
    }
  }

  lemma ProvidersOf(attempts: seq<Attempt>)
    ensures forall k | 0 <= k < |attempts| :: attempts[k].provider in Providers(attempts)
  {
  }

  lemma WinnerWon(race: Race, outcomes: seq<Attempt>, handed: seq<Attempt>, winner: nat)
    requires |handed| <= |outcomes| && outcomes[..|handed|] == handed && AllRecorded(race, handed)
    requires forall k | |handed| <= k < |outcomes| :: outcomes[k].provider !in Providers(handed)
                                                      && outcomes[k].status.CANCELLED?
    requires Wins(race.answers, winner) && winner in Providers(handed)
    ensures forall k | 0 <= k < |outcomes| ::
            !outcomes[k].status.LOST? && (outcomes[k].status.WON? ==> outcomes[k].external.Some?)
    ensures forall k | 0 <= k < |outcomes| && outcomes[k].provider == winner :: outcomes[k].status.WON?
  {
  }

  // The contenders were handed back, and if there are none nobody handed back won.
  lemma {:induction false} ContendersHanded(race: Race, k: nat, pending: set<nat>)
    ensures Contenders(race, k, pending) <= HandedBack(race, k, pending) <= pending
    ensures forall p | p in Contenders(race, k, pending) :: Wins(race.answers, p)
    ensures Contenders(race, k, pending) == {} ==>
              forall p | p in HandedBack(race, k, pending) :: !Wins(race.answers, p)
    decreases |race.rounds| - k
  {
    var done := Round(race, k, pending);
    if done != {} {
      var winners := set p | p in done && Wins(race.answers, p);
      if winners == {} {
        assert forall p | p in done :: p !in winners;
        ContendersHanded(race, k + 1, pending - done);
      }
    }
  }

  // The calls still out before round k.
  function Left(race: Race, all: set<nat>, k: nat): set<nat> {
    if k == 0 then all else Left(race, all, k - 1) - Round(race, k - 1, Left(race, all, k - 1))
  }

  // Round k comes: none before it was empty, which would have been the deadline.
  ghost predicate Comes(race: Race, all: set<nat>, k: nat) {
    forall j | 0 <= j <= k :: Round(race, j, Left(race, all, j)) != {}
  }

  // A reservation comes back in round k.
  ghost predicate Reserves(race: Race, all: set<nat>, k: nat, p: nat) {
    Comes(race, all, k) && p in Round(race, k, Left(race, all, k)) && Wins(race.answers, p)
  }

  lemma {:induction false} FromRound(race: Race, all: set<nat>, k: nat)
    requires forall j | 0 <= j < k :: Round(race, j, Left(race, all, j)) != {}
    requires forall j: nat, p: nat | j < k :: !Reserves(race, all, j, p)
    ensures Contenders(race, k, Left(race, all, k)) != {} <==> exists j: nat, p: nat :: Reserves(race, all, j, p)
    ensures forall p | p in Contenders(race, k, Left(race, all, k)) ::
              exists j: nat :: Reserves(race, all, j, p) && forall i: nat, q: nat | i < j :: !Reserves(race, all, i, q)
    decreases |race.rounds| - k
  {
    var pending := Left(race, all, k);
    var done := Round(race, k, pending);
    if done == {} {
      forall j: nat, p: nat ensures !Reserves(race, all, j, p) {
        if j >= k {
          assert Round(race, k, pending) == {};
        }
      }
    } else {
      var winners := set p | p in done && Wins(race.answers, p);
      if winners != {} {
        forall p | p in winners ensures Reserves(race, all, k, p) {
        }
      } else {
        forall p: nat ensures !Reserves(race, all, k, p) {
          assert p !in winners;
        }
        assert Left(race, all, k + 1) == pending - done;
        FromRound(race, all, k + 1);
      }
    }
  }

  // Somebody contends exactly when a reservation comes back before the deadline,
  // and only those of the first round with one do.
  lemma {:induction false} ContendersExactly(race: Race, all: set<nat>)
    ensures Contenders(race, 0, all) != {} <==> exists k: nat, p: nat :: Reserves(race, all, k, p)
    ensures forall p | p in Contenders(race, 0, all) ::
              exists k: nat :: Reserves(race, all, k, p) && forall j: nat, q: nat | j < k :: !Reserves(race, all, j, q)
  {
    FromRound(race, all, 0);
  }

  // ── What a race guarantees ──────────────────────────────────────────────

  function CountWon(attempts: seq<Attempt>): nat {
    if attempts == [] then 0
    else CountWon(attempts[..|attempts| - 1]) + if attempts[|attempts| - 1].status.WON? then 1 else 0
  }

  lemma {:induction false} CountWonConcat(first: seq<Attempt>, second: seq<Attempt>)
    ensures CountWon(first + second) == CountWon(first) + CountWon(second)
  {
    if second == [] {
      assert first + second == first;
    } else {
      assert (first + second)[..|first + second| - 1] == first + second[..|second| - 1];
      CountWonConcat(first, second[..|second| - 1]);
    }
  }

  lemma {:induction false} CountWonAtMost(attempts: seq<Attempt>, w: nat)
    requires Distinct(attempts)
    requires forall k | 0 <= k < |attempts| :: attempts[k].status.WON? <==> attempts[k].provider == w
    ensures CountWon(attempts) == if w in Providers(attempts) then 1 else 0
  {
    if attempts != [] {
      var n := |attempts| - 1;
      assert attempts == attempts[..n] + [attempts[n]];
      ProvidersAppend(attempts[..n], attempts[n]);
      CountWonAtMost(attempts[..n], w);
      if attempts[n].provider == w && w in Providers(attempts[..n]) {
        assert false;
      }
    }
  }

  lemma {:induction false} CountWonNone(attempts: seq<Attempt>)
    requires forall k | 0 <= k < |attempts| :: !attempts[k].status.WON?
    ensures CountWon(attempts) == 0
  {
    if attempts != [] {
      CountWonNone(attempts[..|attempts| - 1]);
    }
  }

  // How one attempt of a finished race stands.
  lemma Standing(race: Race, all: set<nat>, attempts: seq<Attempt>, winner: Option<nat>, cancels: seq<Cancel>, k: nat)
    requires Known(race, all) && RaceOutcome(race, all, attempts, winner, cancels) && k < |attempts|
    ensures attempts[k].status.WON? <==> winner == Some(attempts[k].provider)
    ensures attempts[k].status.LOST? ==>
              winner.Some? && Wins(race.answers, attempts[k].provider) && attempts[k].external.Some?
  {
    ContendersHanded(race, 0, all);
    assert attempts[k] == Final(race, attempts[k].provider, winner, HandedBack(race, 0, all));
  }

  // Whatever the order of completion, a race ends with exactly one WON attempt
  // if anybody contended for it, and with none otherwise.
  lemma {:induction false} ExactlyOneWon(race: Race, all: set<nat>, attempts: seq<Attempt>, winner: Option<nat>,
                                         cancels: seq<Cancel>)
    requires Known(race, all) && RaceOutcome(race, all, attempts, winner, cancels)
    ensures CountWon(attempts) == if Contenders(race, 0, all) != {} then 1 else 0
    ensures forall k | 0 <= k < |attempts| :: attempts[k].status.WON? <==> winner == Some(attempts[k].provider)
  {
    forall k | 0 <= k < |attempts| ensures attempts[k].status.WON? <==> winner == Some(attempts[k].provider) {
      Standing(race, all, attempts, winner, cancels, k);
    }
    if winner.Some? {
      ContendersHanded(race, 0, all);
      CountWonAtMost(attempts, winner.value);
    } else {
      CountWonNone(attempts);
    }
  }

  function CancelsTo(cancels: seq<Cancel>, p: nat): nat {
    if cancels == [] then 0
    else CancelsTo(cancels[..|cancels| - 1], p) + if cancels[|cancels| - 1].provider == p then 1 else 0
  }

  predicate Owes(a: Attempt) {
    (a.status.LOST? && a.external.Some?) || a.status.CANCELLED?
  }

  lemma {:induction false} CancelledAsOwed(attempts: seq<Attempt>, p: nat)
    requires Distinct(attempts)
    ensures CancelsTo(CancelsFor(attempts), p) ==
            if exists k :: 0 <= k < |attempts| && attempts[k].provider == p && Owes(attempts[k]) then 1 else 0
  {
    if attempts != [] {
      var n := |attempts| - 1;
      var init, a := attempts[..n], attempts[n];
      CancelledAsOwed(init, p);
      var before, after := CancelsFor(init), CancelsFor(attempts);
      if Owes(a) {
        assert after[..|after| - 1] == before;
      } else {
        assert after == before;
      }
      if exists k :: 0 <= k < n && init[k].provider == p && Owes(init[k]) {
        var k :| 0 <= k < n && init[k].provider == p && Owes(init[k]);
        assert attempts[k] == init[k];
      }
      if a.provider == p {
        assert forall k | 0 <= k < n :: init[k].provider != p;
      }
    }
  }

  lemma {:induction false} CancelledAsOwedAt(attempts: seq<Attempt>, k: nat)
    requires Distinct(attempts) && k < |attempts|
    ensures CancelsTo(CancelsFor(attempts), attempts[k].provider) == if Owes(attempts[k]) then 1 else 0
  {
    CancelledAsOwed(attempts, attempts[k].provider);
    assert forall j | 0 <= j < |attempts| && attempts[j].provider == attempts[k].provider :: j == k;
  }

  // Every runner-up that may hold a reservation is cancelled exactly once, the
  // winner never, and a race nobody won cancels nobody: in particular a
  // provider that ran into the deadline is never told.
  lemma {:induction false} CancelledExactlyOnce(race: Race, all: set<nat>, attempts: seq<Attempt>, winner: Option<nat>,
                                                cancels: seq<Cancel>, k: nat)
    requires Known(race, all) && RaceOutcome(race, all, attempts, winner, cancels) && k < |attempts|
    ensures CancelsTo(cancels, attempts[k].provider) ==
            if winner.Some? && (attempts[k].status.LOST? || attempts[k].status.CANCELLED?) then 1 else 0
  {
    Standing(race, all, attempts, winner, cancels, k);
    CancelledAsOwedAt(attempts, k);
  }

  // The status that stands for an answer.
  predicate Records(a: Answer, s: Status) {
    && (a.Issued? <==> s.WON?) && (a.Refusal? <==> s.REFUSED?) && (a.TimedOut? <==> s.TIMEOUT?)
    && (a.Raised? <==> s.ERROR?) && (a.Aborted? <==> s.CANCELLED?)
  }

  // What a race records, in terms of what the providers answered: who was handed
  // back in time has its answer on record, a reservation that did not win as
  // LOST; the others were cut off by the winner, or by the deadline.
  lemma {:induction false} RecordedByAnswer(race: Race, all: set<nat>, attempts: seq<Attempt>, winner: Option<nat>,
                                            cancels: seq<Cancel>, k: nat)
    requires Known(race, all) && RaceOutcome(race, all, attempts, winner, cancels) && k < |attempts|
    ensures
      var a, p := attempts[k], attempts[k].provider;
      && p in all && a.key == race.keys[p]
      && if p in HandedBack(race, 0, all) then
           var answer := race.answers[p];
           && (if answer.Issued? && winner != Some(p) then a.status.LOST? else Records(answer, a.status))
           && a.external == if answer.Issued? then Some(answer.external) else None
         else a.external.None? && a.status == if winner.Some? then CANCELLED else TIMEOUT
  {
    assert attempts[k] == Final(race, attempts[k].provider, winner, HandedBack(race, 0, all));
  }

  // Whom a winner may leave with a reservation: everybody else who did not come
  // back in time, reserved something, or was aborted.
  predicate MayHold(race: Race, all: set<nat>, winner: Option<nat>, p: nat)
    requires Known(race, all) && p in all
  {
    && winner.Some? && winner != Some(p)
    && (p !in HandedBack(race, 0, all) || race.answers[p].Issued? || race.answers[p].Aborted?)
  }

  // They are told exactly once, and nobody else: no refusal, time-out or
  // exception that came back, and nobody at all without a winner.
  lemma {:induction false} CancelsByAnswer(race: Race, all: set<nat>, attempts: seq<Attempt>, winner: Option<nat>,
                                           cancels: seq<Cancel>, p: nat)
    requires Known(race, all) && RaceOutcome(race, all, attempts, winner, cancels) && p in all
    ensures CancelsTo(cancels, p) == if MayHold(race, all, winner, p) then 1 else 0
  {
    assert p in Providers(attempts);
    var k :| 0 <= k < |attempts| && attempts[k].provider == p;
    CancelledExactlyOnce(race, all, attempts, winner, cancels, k);
    RecordedByAnswer(race, all, attempts, winner, cancels, k);
    Standing(race, all, attempts, winner, cancels, k);
  }

  // By the id of the reservation when there is one, and else by our key.
  lemma {:induction false} CancelsByReference(race: Race, all: set<nat>, attempts: seq<Attempt>, winner: Option<nat>,
                                              cancels: seq<Cancel>, c: Cancel)
    requires Known(race, all) && RaceOutcome(race, all, attempts, winner, cancels) && c in cancels
    ensures c.provider in all && MayHold(race, all, winner, c.provider)
    ensures c.reference ==
            if c.provider in HandedBack(race, 0, all) && race.answers[c.provider].Issued?
            then External(race.answers[c.provider].external) else Key(race.keys[c.provider])
  {
    var k := OwedBy(attempts, c);
    RecordedByAnswer(race, all, attempts, winner, cancels, k);
    Standing(race, all, attempts, winner, cancels, k);
  }

  lemma {:induction false} OwedBy(attempts: seq<Attempt>, c: Cancel) returns (k: nat)
    requires c in CancelsFor(attempts)
    ensures k < |attempts| && Owes(attempts[k]) && c.provider == attempts[k].provider
    ensures c.reference == if attempts[k].status.LOST? then External(attempts[k].external.value)
            else Key(attempts[k].key)
  {
    var n := |attempts| - 1;
    if c in CancelsFor(attempts[..n]) {
      k := OwedBy(attempts[..n], c);
    } else {
      k := n;
    }
  }

  // Who may win is decided by the rounds, not by the order within one.
  lemma {:induction false} WinnerIsContender(race: Race, all: set<nat>, attempts: seq<Attempt>, winner: Option<nat>,
                                             cancels: seq<Cancel>,
                          attempts': seq<Attempt>, winner': Option<nat>, cancels': seq<Cancel>)
    requires Known(race, all)
    requires RaceOutcome(race, all, attempts, winner, cancels) && RaceOutcome(race, all, attempts', winner', cancels')
    ensures winner.Some? <==> winner'.Some?
    ensures |Contenders(race, 0, all)| == 1 ==> winner == winner'
  {
    if |Contenders(race, 0, all)| == 1 {
      var p :| p in Contenders(race, 0, all);
      assert |Contenders(race, 0, all) - {p}| == 0;
    }
  }

  // ── Escalation ──────────────────────────────────────────────────────────

  // One group as the cascade meets it: whom it asks, how the race will play,
  // and what is left of the search budget when its turn comes.
  datatype Group = Group(providers: set<nat>, race: Race, remaining: int)

  // The first group, in tier order and while the budget lasts, with a contender.
  function FirstWin(groups: seq<Group>, g: nat): Option<nat>
    requires g <= |groups|
    decreases |groups| - g
  {
    if g == |groups| || groups[g].remaining <= 0 then None
    else if Contenders(groups[g].race, 0, groups[g].providers) != {} then Some(g)
    else FirstWin(groups, g + 1)
  }

  // The attempts of several races, one after the other.
  function Trail(races: seq<seq<Attempt>>): seq<Attempt> {
    if races == [] then [] else Trail(races[..|races| - 1]) + races[|races| - 1]
  }

  // What a run over groups must end with: one race a group up to the first with
  // a contender, which decides who won and who is told to cancel.
  ghost predicate RunOutcome(groups: seq<Group>, races: seq<seq<Attempt>>, won: Option<(nat, nat)>,
                             cancels: seq<Cancel>)
    requires forall g | 0 <= g < |groups| :: Known(groups[g].race, groups[g].providers)
  {
    && |races| <= |groups|
    && (forall g | 0 <= g < |races| ::
          var last := won.Some? && g == won.value.0;
          RaceOutcome(groups[g].race, groups[g].providers, races[g],
                      if last then Some(won.value.1) else None, if last then cancels else []))
    && (won.Some? ==> FirstWin(groups, 0) == Some(won.value.0) && |races| == won.value.0 + 1)
    && (won.None? ==> FirstWin(groups, 0).None? && cancels == []
                      && (|races| == |groups| || groups[|races|].remaining <= 0))
  }

  // `try_cascade` over groups.
  method TryGrouped(groups: seq<Group>)
    returns (trail: seq<Attempt>, won: Option<(nat, nat)>, cancels: seq<Cancel>, ghost races: seq<seq<Attempt>>)
    requires forall g | 0 <= g < |groups| :: Known(groups[g].race, groups[g].providers)
    ensures trail == Trail(races) && RunOutcome(groups, races, won, cancels)
  {
    trail, won, cancels, races := [], None, [], [];
    for g := 0 to |groups|
      invariant won.None? && cancels == []
      invariant FirstWin(groups, 0) == FirstWin(groups, g)
      invariant |races| == g && trail == Trail(races) && AllLost(groups, races)
    {
      if groups[g].remaining <= 0 {
        break;
      }
      var attempts, winner, told := RaceGroup(groups[g].race, groups[g].providers);
      RaceAdds(groups, races, attempts, winner, told);
      trail := trail + attempts;
      races := races + [attempts];
      if winner.Some? {
        return trail, Some((g, winner.value)), told, races;
      }
    }
    NobodyWon(groups, races);
  }

  // Every race so far ended without a winner.
  ghost predicate AllLost(groups: seq<Group>, races: seq<seq<Attempt>>)
    requires forall g | 0 <= g < |groups| :: Known(groups[g].race, groups[g].providers)
  {
    && |races| <= |groups|
    && (forall g | 0 <= g < |races| :: RaceOutcome(groups[g].race, groups[g].providers, races[g], None, []))
  }

  lemma {:induction false} RaceAdds(groups: seq<Group>, races: seq<seq<Attempt>>, attempts: seq<Attempt>,
                                    winner: Option<nat>, cancels: seq<Cancel>)
    requires forall g | 0 <= g < |groups| :: Known(groups[g].race, groups[g].providers)
    requires AllLost(groups, races) && |races| < |groups|
    requires RaceOutcome(groups[|races|].race, groups[|races|].providers, attempts, winner, cancels)
    ensures winner.Some? <==> Contenders(groups[|races|].race, 0, groups[|races|].providers) != {}
    ensures winner.None? ==> cancels == []
    ensures Trail(races + [attempts]) == Trail(races) + attempts
    ensures winner.None? ==> AllLost(groups, races + [attempts])
    ensures winner.Some? && FirstWin(groups, 0) == Some(|races|) ==>
              RunOutcome(groups, races + [attempts], Some((|races|, winner.value)), cancels)
  {
    assert (races + [attempts])[..|races|] == races;
  }

  lemma {:induction false} NobodyWon(groups: seq<Group>, races: seq<seq<Attempt>>)
    requires forall g | 0 <= g < |groups| :: Known(groups[g].race, groups[g].providers)
    requires AllLost(groups, races) && FirstWin(groups, 0).None?
    requires |races| == |groups| || groups[|races|].remaining <= 0
    ensures RunOutcome(groups, races, None, [])
  {
  }

  // A whole run has exactly one WON attempt if some group within the budget had a
  // contender, and none otherwise; it is the winner's.
  lemma {:induction false} RunHasOneWinner(
      groups: seq<Group>, races: seq<seq<Attempt>>, won: Option<(nat, nat)>, cancels: seq<Cancel>)
    requires forall g | 0 <= g < |groups| :: Known(groups[g].race, groups[g].providers)
    requires RunOutcome(groups, races, won, cancels)
    ensures CountWon(Trail(races)) == if FirstWin(groups, 0).Some? then 1 else 0
    ensures forall k | 0 <= k < |Trail(races)| && Trail(races)[k].status.WON? ::
              won.Some? && Trail(races)[k].provider == won.value.1
  {
    if won.Some? {
      var g := won.value.0;
      assert Trail(races) == Trail(races[..g]) + races[g];
      assert AllLost(groups, races[..g]);
      LostRacesHaveNone(groups, races[..g]);
      CountWonConcat(Trail(races[..g]), races[g]);
      ExactlyOneWon(groups[g].race, groups[g].providers, races[g], Some(won.value.1), cancels);
    } else {
      assert AllLost(groups, races);
      LostRacesHaveNone(groups, races);
    }
  }

  lemma {:induction false} LostRacesHaveNone(groups: seq<Group>, races: seq<seq<Attempt>>)
    requires forall g | 0 <= g < |groups| :: Known(groups[g].race, groups[g].providers)
    requires AllLost(groups, races)
    ensures CountWon(Trail(races)) == 0 && forall k | 0 <= k < |Trail(races)| :: !Trail(races)[k].status.WON?
  {
    if races != [] {
      var n := |races| - 1;
      assert AllLost(groups, races[..n]);
      LostRacesHaveNone(groups, races[..n]);
      CountWonConcat(Trail(races[..n]), races[n]);
      LostRaceHasNone(groups[n], races[n]);
    }
  }

  lemma {:induction false} LostRaceHasNone(group: Group, attempts: seq<Attempt>)
    requires Known(group.race, group.providers) && RaceOutcome(group.race, group.providers, attempts, None, [])
    ensures CountWon(attempts) == 0 && forall k | 0 <= k < |attempts| :: !attempts[k].status.WON?
  {
    ExactlyOneWon(group.race, group.providers, attempts, None, []);
  }

  // Over a whole run, too, every runner-up that may hold a reservation is told
  // to cancel exactly once, and nobody else of the deciding group is.
  lemma {:induction false} RunCancelsExactlyOnce(
      groups: seq<Group>, races: seq<seq<Attempt>>, won: (nat, nat), cancels: seq<Cancel>, k: nat)
    requires forall g | 0 <= g < |groups| :: Known(groups[g].race, groups[g].providers)
    requires RunOutcome(groups, races, Some(won), cancels) && k < |races[won.0]|
    ensures CancelsTo(cancels, races[won.0][k].provider) ==
            if races[won.0][k].status.LOST? || races[won.0][k].status.CANCELLED? then 1 else 0
  {
    CancelledExactlyOnce(groups[won.0].race, groups[won.0].providers, races[won.0], Some(won.1), cancels, k);
  }

  // One provider of the pool when its turn comes.
  datatype Turn = Turn(provider: nat, asked: bool, answer: Answer, key: nat, remaining: int)

  function FirstIssued(turns: seq<Turn>, t: nat): Option<nat>
    requires t <= |turns|
    decreases |turns| - t
  {
    if t == |turns| || turns[t].remaining <= 0 then None
    else if turns[t].asked && turns[t].answer.Issued? then Some(t)
    else FirstIssued(turns, t + 1)
  }

  // A turn of the pool is taken while the budget lasts and nobody before it
  // reserved anything.
  predicate Reached(turns: seq<Turn>, t: nat) {
    && t < |turns|
    && (forall u | 0 <= u <= t :: turns[u].remaining > 0)
    && (forall u | 0 <= u < t :: !(turns[u].asked && turns[u].answer.Issued?))
  }

  // The record of a provider that was asked.
  predicate Tells(attempt: Attempt, turn: Turn) {
    && attempt.provider == turn.provider && attempt.key == turn.key
    && Records(turn.answer, attempt.status)
    && attempt.external == if turn.answer.Issued? then Some(turn.answer.external) else None
  }

  // Up to turn t, the turns that were reached and asked left one record each, in
  // their order: `order` names them.
  ghost predicate Recounts(turns: seq<Turn>, trail: seq<Attempt>, order: seq<nat>, t: nat) {
    && t <= |turns| && |order| == |trail|
    && (forall j, k | 0 <= j < k < |order| :: order[j] < order[k])
    && (forall u: nat :: u in order <==> u < t && Reached(turns, u) && turns[u].asked)
    && (forall k | 0 <= k < |order| :: order[k] in order && order[k] < |turns| && Tells(trail[k], turns[order[k]]))
  }

  // Where the pool stops: at the end of the budget, or after a reservation.
  function Stop(turns: seq<Turn>, t: nat): (n: nat)
    requires t <= |turns|
    ensures t <= n <= |turns|
    decreases |turns| - t
  {
    if t == |turns| || turns[t].remaining <= 0 then t
    else if turns[t].asked && turns[t].answer.Issued? then t + 1
    else Stop(turns, t + 1)
  }

  function Asked(turns: seq<Turn>, t: nat): seq<nat>
    requires t <= |turns|
  {
    if t == 0 then [] else Asked(turns, t - 1) + if turns[t - 1].asked then [t - 1] else []
  }

  function Trailed(turns: seq<Turn>, t: nat): seq<Attempt>
    requires t <= |turns|
  {
    if t == 0 then [] else Trailed(turns, t - 1) + if turns[t - 1].asked then [AttemptOf(turns[t - 1])] else []
  }

  function AttemptOf(turn: Turn): Attempt {
    var a := turn.answer;
    Attempt(turn.provider, StatusOf(a), if a.Issued? then Some(a.external) else None, turn.key)
  }

  lemma {:induction false} StopsThere(turns: seq<Turn>, t: nat)
    requires t <= |turns|
    requires forall u | 0 <= u < t :: turns[u].remaining > 0 && !(turns[u].asked && turns[u].answer.Issued?)
    ensures forall u: nat :: Reached(turns, u) <==> u < Stop(turns, t)
    decreases |turns| - t
  {
    if t < |turns| && turns[t].remaining > 0 && !(turns[t].asked && turns[t].answer.Issued?) {
      StopsThere(turns, t + 1);
    }
  }

  lemma {:induction false} RecountsNext(turns: seq<Turn>, trail: seq<Attempt>, order: seq<nat>, t: nat, a: Attempt)
    requires Recounts(turns, trail, order, t) && Reached(turns, t) && turns[t].asked && Tells(a, turns[t])
    ensures Recounts(turns, trail + [a], order + [t], t + 1)
  {
    var more := order + [t];
    forall u: nat ensures u in more <==> u < t + 1 && Reached(turns, u) && turns[u].asked {
      assert u in more <==> u in order || u == t;
    }
    forall j, k | 0 <= j < k < |more| ensures more[j] < more[k] {
      assert order[j] in order;
    }
  }

  lemma {:induction false} TrailedRecounts(turns: seq<Turn>, t: nat)
    requires t <= |turns| && forall u | 0 <= u < t :: Reached(turns, u)
    ensures Recounts(turns, Trailed(turns, t), Asked(turns, t), t)
  {
    if t > 0 {
      TrailedRecounts(turns, t - 1);
      if turns[t - 1].asked {
        RecountsNext(turns, Trailed(turns, t - 1), Asked(turns, t - 1), t - 1, AttemptOf(turns[t - 1]));
      }
    }
  }

  // What the pool leaves on record is exactly the turns it reached and asked.
  lemma {:induction false} PoolRecounts(turns: seq<Turn>)
    ensures Recounts(turns, Trailed(turns, Stop(turns, 0)), Asked(turns, Stop(turns, 0)), |turns|)
  {
    StopsThere(turns, 0);
    TrailedRecounts(turns, Stop(turns, 0));
  }

  lemma {:induction false} QuietTrail(turns: seq<Turn>, t: nat)
    requires t <= |turns| && forall u | 0 <= u < t :: !(turns[u].asked && turns[u].answer.Issued?)
    ensures CountWon(Trailed(turns, t)) == 0
  {
    if t > 0 {
      QuietTrail(turns, t - 1);
      if turns[t - 1].asked {
        var before := Trailed(turns, t - 1);
        assert Trailed(turns, t) == before + [AttemptOf(turns[t - 1])];
        assert (before + [AttemptOf(turns[t - 1])])[..|before|] == before;
      } else {
        assert Trailed(turns, t) == Trailed(turns, t - 1);
      }
    }
  }

  // The trail ends with the reservation, the only WON attempt, if there is one.
  lemma {:induction false} PoolWins(turns: seq<Turn>, t: nat)
    requires t <= |turns| && forall u | 0 <= u < t :: !(turns[u].asked && turns[u].answer.Issued?)
    ensures
      var won, trail := FirstIssued(turns, t), Trailed(turns, Stop(turns, t));
      && CountWon(trail) == (if won.Some? then 1 else 0)
      && (won.Some? ==>
            && won.value < |turns| && turns[won.value].answer.Issued? && trail != []
            && trail[|trail| - 1] ==
               Attempt(turns[won.value].provider, WON, Some(turns[won.value].answer.external), turns[won.value].key))
    decreases |turns| - t
  {
    QuietTrail(turns, t);
    if t < |turns| && turns[t].remaining > 0 {
      if turns[t].asked && turns[t].answer.Issued? {
        var before, trail := Trailed(turns, t), Trailed(turns, t + 1);
        assert trail == before + [AttemptOf(turns[t])] && trail[..|trail| - 1] == before;
      } else {
        PoolWins(turns, t + 1);
      }
    }
  }

  // `try_cascade` over the pool: one provider after the other, none cancelled.
  method TryPooled(turns: seq<Turn>) returns (trail: seq<Attempt>, won: Option<nat>)
    ensures won == FirstIssued(turns, 0)
    ensures trail == Trailed(turns, Stop(turns, 0))
    ensures CountWon(trail) == if won.Some? then 1 else 0
    ensures won.Some? ==>
              && won.value < |turns| && turns[won.value].answer.Issued? && trail != []
              && trail[|trail| - 1] ==
                 Attempt(turns[won.value].provider, WON, Some(turns[won.value].answer.external), turns[won.value].key)
  {
    PoolWins(turns, 0);
    trail, won := [], None;
    for t := 0 to |turns|
      invariant won.None? && trail == Trailed(turns, t)
      invariant FirstIssued(turns, 0) == FirstIssued(turns, t) && Stop(turns, 0) == Stop(turns, t)
    {
      if turns[t].remaining <= 0 {
        break;
      }
      if !turns[t].asked {
        continue;
      }
      var attempt := AttemptOf(turns[t]);
      trail := trail + [attempt];
      if attempt.status.WON? {
        return trail, Some(t);
      }
    }
  }
}
