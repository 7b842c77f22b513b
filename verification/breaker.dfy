// cascading/circuit_breaker.py: a sliding-window breaker on two Redis sorted
// sets. A member is "time:code" and its score is the time, so two calls of one
// instant with one code are one member.

module Breaker {
  import opened Common
  import Cascade

  datatype Member = Member(time: nat, code: string)

  datatype Config = Config(window: nat, threshold: nat, rate: real, cooldown: nat)

  datatype State = State(requests: set<Member>, failures: set<Member>, disabledUntil: Option<int>)

  // A call of the breaker. `up` says that the Redis pipeline went through;
  // a failure also checks the thresholds, at a later reading of the clock.
  datatype Event =
    | Success(now: nat, up: bool)
    | Failure(now: nat, code: string, up: bool, checkAt: nat, checkUp: bool, stampAt: nat)
    | Query(now: nat)

  function MemberOf(now: nat, code: string): Member {
    Member(now, if code == "" then "ok" else code)
  }

  function Prune(members: set<Member>, cutoff: int): set<Member> {
    set m | m in members && m.time > cutoff
  }

  function Since(members: set<Member>, cutoff: int): set<Member> {
    set m | m in members && m.time >= cutoff
  }

  function RecordRequest(cfg: Config, s: State, now: nat, code: string, failed: bool): State {
    var cutoff := now - cfg.window;
    var m := MemberOf(now, code);
    s.(requests := Prune(s.requests, cutoff) + {m},
       failures := if failed then Prune(s.failures, cutoff) + {m} else s.failures)
  }

  function Rate(failures: nat, requests: nat): real {
    if requests > 0 then failures as real / requests as real else 0.0
  }

  predicate Trips(cfg: Config, s: State, checkAt: nat) {
    var requests, failures := |Since(s.requests, checkAt - cfg.window)|, |Since(s.failures, checkAt - cfg.window)|;
    failures >= cfg.threshold && Rate(failures, requests) >= cfg.rate
  }

  function Step(cfg: Config, s: State, e: Event): State {
    match e
    case Success(now, up) => if up then RecordRequest(cfg, s, now, "", false) else s
    case Failure(now, code, up, checkAt, checkUp, stampAt) =>
      var r := if up then RecordRequest(cfg, s, now, code, true) else s;
      if checkUp && Trips(cfg, r, checkAt) then r.(disabledUntil := Some(stampAt + cfg.cooldown)) else r
    case Query(now) =>
      if s.disabledUntil.Some? && s.disabledUntil.value <= now then s.(disabledUntil := None) else s
  }

  // ── The breaker on its stored sets ──────────────────────────────────────

  class CircuitBreaker {
    const cfg: Config
    var requests: set<Member>
    var failures: set<Member>
    var disabledUntil: Option<int>

    constructor (cfg: Config)
      ensures this.cfg == cfg && Current() == State({}, {}, None)
    {
      this.cfg := cfg;
      requests, failures, disabledUntil := {}, {}, None;
    }

    function Current(): State
      reads this
    {
      State(requests, failures, disabledUntil)
    }

    method RecordSuccess(now: nat, up: bool)
      modifies this
      ensures Current() == Step(cfg, old(Current()), Success(now, up))
    {
      Record(now, "", true, up);
    }

    method RecordFailure(now: nat, code: string, up: bool, checkAt: nat, checkUp: bool, stampAt: nat)
      modifies this
      ensures Current() == Step(cfg, old(Current()), Failure(now, code, up, checkAt, checkUp, stampAt))
    {
      Record(now, code, false, up);
      MaybeTrip(checkAt, checkUp, stampAt);
    }

    // `_record_request`: the pipeline is one transaction.
    method Record(now: nat, code: string, success: bool, up: bool)
      modifies this`requests, this`failures
      ensures Current() == if up then RecordRequest(cfg, old(Current()), now, code, !success) else old(Current())
    {
      if !up {
        return;
      }
      var cutoff := now - cfg.window;
      var member := MemberOf(now, code);
      requests := Prune(requests, cutoff);
      requests := requests + {member};
      if !success {
        failures := Prune(failures, cutoff);
        failures := failures + {member};
      }
    }

    method MaybeTrip(checkAt: nat, checkUp: bool, stampAt: nat)
      modifies this`disabledUntil
      ensures disabledUntil == if checkUp && Trips(cfg, old(Current()), checkAt) then Some(stampAt + cfg.cooldown)
                               else old(disabledUntil)
    {
      if !checkUp {
        return;
      }
      var cutoff := checkAt - cfg.window;
      var requested, failed := |Since(requests, cutoff)|, |Since(failures, cutoff)|;
      if failed < cfg.threshold {
        return;
      }
      var rate := if requested > 0 then failed as real / requested as real else 0.0;
      if rate < cfg.rate {
        return;
      }
      disabledUntil := Some(stampAt + cfg.cooldown);
    }

    method IsOpen(now: nat) returns (open: bool)
      modifies this`disabledUntil
      ensures open <==> old(disabledUntil).Some? && old(disabledUntil).value > now
      ensures Current() == Step(cfg, old(Current()), Query(now))
    {
      if disabledUntil.Some? && disabledUntil.value > now {
        return true;
      }
      if disabledUntil.Some? && disabledUntil.value <= now {
        disabledUntil := None;
      }
      open := false;
    }
  }

  // ── Over a whole run ────────────────────────────────────────────────────

  function Run(cfg: Config, events: seq<Event>): State {
    if events == [] then State({}, {}, None)
    else Step(cfg, Run(cfg, events[..|events| - 1]), events[|events| - 1])
  }

  function End(e: Event): nat {
    if e.Failure? then e.stampAt else e.now
  }

  predicate Ordered(e: Event) {
    e.Failure? ==> e.now <= e.checkAt <= e.stampAt
  }

  // The clock never runs backwards.
  predicate Clocked(events: seq<Event>) {
    && (forall k | 0 <= k < |events| :: Ordered(events[k]))
    && (forall j, k | 0 <= j < k < |events| :: End(events[j]) <= events[k].now)
  }

  predicate Records(e: Event) {
    (e.Success? || e.Failure?) && e.up
  }

  function Recorded(e: Event): Member
    requires Records(e)
  {
    MemberOf(e.now, if e.Failure? then e.code else "")
  }

  // Everything that was recorded, and everything recorded as a failure: what
  // the two sorted sets would hold if nothing were ever pruned.
  function Requests(events: seq<Event>): set<Member> {
    set k | 0 <= k < |events| && Records(events[k]) :: Recorded(events[k])
  }

  function Failures(events: seq<Event>): set<Member> {
    set k | 0 <= k < |events| && Records(events[k]) && events[k].Failure? :: Recorded(events[k])
  }

  // The latest cutoff anything was pruned with.
  function Cut(cfg: Config, events: seq<Event>): int {
    if events == [] then -1
    else
      var e, before := events[|events| - 1], Cut(cfg, events[..|events| - 1]);
      if Records(e) && e.now - cfg.window > before then e.now - cfg.window else before
  }

  lemma Grow(events: seq<Event>)
    requires events != []
    ensures
      var init, e := events[..|events| - 1], events[|events| - 1];
      && Requests(events) == Requests(init) + (if Records(e) then {Recorded(e)} else {})
      && Failures(events) == Failures(init) + (if Records(e) && e.Failure? then {Recorded(e)} else {})
  {
  }

  // The sorted sets hold everything recorded after the last cutoff, and nothing
  // that was never recorded.
  predicate Covers(s: State, requests: set<Member>, failures: set<Member>, cut: int) {
    && s.requests <= requests && s.failures <= failures
    && (forall m | m in requests && m.time > cut :: m in s.requests)
    && (forall m | m in failures && m.time > cut :: m in s.failures)
  }

  lemma CoversRecord(cfg: Config, s: State, requests: set<Member>, failures: set<Member>, cut: int, now: nat,
                     code: string, failed: bool)
    requires Covers(s, requests, failures, cut)
    ensures
      var m := MemberOf(now, code);
      var cut' := if now - cfg.window > cut then now - cfg.window else cut;
      Covers(RecordRequest(cfg, s, now, code, failed), requests + {m}, if failed then failures + {m} else failures,
             cut')
  {
  }

  lemma {:induction false} Holds(cfg: Config, events: seq<Event>)
    requires cfg.window > 0
    ensures Covers(Run(cfg, events), Requests(events), Failures(events), Cut(cfg, events))
  {
    if events != [] {
      var init, e := events[..|events| - 1], events[|events| - 1];
      Holds(cfg, init);
      Grow(events);
      if Records(e) {
        CoversRecord(cfg, Run(cfg, init), Requests(init), Failures(init), Cut(cfg, init), e.now,
                     if e.Failure? then e.code else "", e.Failure?);
      }
    }
  }

  lemma FailuresAreRequests(events: seq<Event>)
    ensures Failures(events) <= Requests(events)
  {
  }

  lemma SubsetCard<T>(s: set<T>, t: set<T>)
    requires s <= t
    ensures |s| <= |t|
  {
    if s != {} {
      var x :| x in s;
      SubsetCard(s - {x}, t - {x});
    }
  }

  // What everything recorded looks like through the window of one check.
  function Window(members: set<Member>, cfg: Config, e: Event): set<Member>
    requires e.Failure?
  {
    set m | m in members && m.time >= e.checkAt - cfg.window && m.time > e.now - cfg.window
  }

  lemma PrunedWindow(stored: set<Member>, all: set<Member>, m0: Member, cutoff: int, from: int)
    requires stored <= all && m0.time > cutoff
    requires forall m | m in all && m.time > cutoff :: m in stored
    ensures Since(Prune(stored, cutoff) + {m0}, from) == set m | m in all + {m0} && m.time >= from && m.time > cutoff
  {
  }

  lemma {:induction false} RequestsInWindow(cfg: Config, events: seq<Event>, e: Event)
    requires cfg.window > 0 && e.Failure? && e.up && Clocked(events + [e])
    ensures Since(RecordRequest(cfg, Run(cfg, events), e.now, e.code, true).requests, e.checkAt - cfg.window)
            == Window(Requests(events + [e]), cfg, e)
  {
    HoldsAt(cfg, events, e);
    GrowBy(events, e);
    PrunedWindow(Run(cfg, events).requests, Requests(events), Recorded(e), e.now - cfg.window, e.checkAt - cfg.window);
  }

  lemma {:induction false} FailuresInWindow(cfg: Config, events: seq<Event>, e: Event)
    requires cfg.window > 0 && e.Failure? && e.up && Clocked(events + [e])
    ensures Since(RecordRequest(cfg, Run(cfg, events), e.now, e.code, true).failures, e.checkAt - cfg.window)
            == Window(Failures(events + [e]), cfg, e)
  {
    HoldsAt(cfg, events, e);
    GrowBy(events, e);
    PrunedWindow(Run(cfg, events).failures, Failures(events), Recorded(e), e.now - cfg.window, e.checkAt - cfg.window);
  }

  // In a window the distinct failures are among the distinct requests, so their
  // share is at most one.
  lemma FailuresWithinRequests(cfg: Config, events: seq<Event>, e: Event)
    requires e.Failure?
    ensures Window(Failures(events), cfg, e) <= Window(Requests(events), cfg, e)
    ensures Rate(|Window(Failures(events), cfg, e)|, |Window(Requests(events), cfg, e)|) <= 1.0
  {
    FailuresAreRequests(events);
    SubsetCard(Window(Failures(events), cfg, e), Window(Requests(events), cfg, e));
    RateAtMostOne(|Window(Failures(events), cfg, e)|, |Window(Requests(events), cfg, e)|);
  }

  lemma RateAtMostOne(failures: nat, requests: nat)
    requires failures <= requests
    ensures Rate(failures, requests) <= 1.0
  {
  }

  // No earlier pruning went past this call's own cutoff.
  lemma {:induction false} HoldsAt(cfg: Config, events: seq<Event>, e: Event)
    requires cfg.window > 0 && Clocked(events + [e])
    ensures
      var s, cutoff := Run(cfg, events), e.now - cfg.window;
      && s.requests <= Requests(events) && s.failures <= Failures(events)
      && (forall m | m in Requests(events) && m.time > cutoff :: m in s.requests)
      && (forall m | m in Failures(events) && m.time > cutoff :: m in s.failures)
  {
    Holds(cfg, events);
    forall k | 0 <= k < |events| ensures events[k].now <= e.now {
      assert (events + [e])[k] == events[k] && (events + [e])[|events|] == e;
    }
    CutBound(cfg, events, e.now);
  }

  // The new event on top of the old ones.
  lemma GrowBy(events: seq<Event>, e: Event)
    requires Records(e) && e.Failure?
    ensures Requests(events + [e]) == Requests(events) + {Recorded(e)}
    ensures Failures(events + [e]) == Failures(events) + {Recorded(e)}
  {
    assert (events + [e])[..|events|] == events;
    Grow(events + [e]);
  }

  lemma {:induction false} CutBound(cfg: Config, events: seq<Event>, now: nat)
    requires forall k | 0 <= k < |events| :: events[k].now <= now
    ensures Cut(cfg, events) <= now - cfg.window || Cut(cfg, events) == -1
  {
    if events != [] {
      CutBound(cfg, events[..|events| - 1], now);
    }
  }

  // The failures are at least the rate's part of the requests; of no requests
  // they are no part.
  predicate ReachesRate(failures: nat, requests: nat, rate: real) {
    if requests == 0 then rate <= 0.0 else failures as real >= rate * (requests as real)
  }

  lemma {:induction false} RateReached(failures: nat, requests: nat, rate: real)
    ensures Rate(failures, requests) >= rate <==> ReachesRate(failures, requests, rate)
  {
    if requests > 0 {
      var share, whole := Rate(failures, requests), requests as real;
      assert share * whole == failures as real;
      if share >= rate {
        assert (share - rate) * whole >= 0.0;
      } else {
        assert (rate - share) * whole > 0.0;
      }
    }
  }

  // The check at any state, on the counts of its window.
  lemma TripsMeans(cfg: Config, s: State, checkAt: nat)
    ensures
      var from := checkAt - cfg.window;
      var requests := |set m | m in s.requests && m.time >= from|;
      var failures := |set m | m in s.failures && m.time >= from|;
      Trips(cfg, s, checkAt) <==> failures >= cfg.threshold && ReachesRate(failures, requests, cfg.rate)
  {
    var from := checkAt - cfg.window;
    RateReached(|Since(s.failures, from)|, |Since(s.requests, from)|, cfg.rate);
  }

  // After a recorded failure the breaker trips exactly when the distinct
  // failures of the window reach the threshold and the rate's part of the
  // distinct requests: pruning never changes the verdict.
  lemma {:induction false} TripsExactly(cfg: Config, events: seq<Event>, e: Event)
    requires cfg.window > 0 && e.Failure? && e.up && e.checkUp && Clocked(events + [e])
    ensures
      var requests, failures := Window(Requests(events + [e]), cfg, e), Window(Failures(events + [e]), cfg, e);
      Run(cfg, events + [e]).disabledUntil ==
      if |failures| >= cfg.threshold
          && ReachesRate(|failures|, |requests|, cfg.rate) then Some(e.stampAt + cfg.cooldown)
      else Run(cfg, events).disabledUntil
  {
    assert (events + [e])[..|events|] == events;
    RequestsInWindow(cfg, events, e);
    FailuresInWindow(cfg, events, e);
    var requests, failures := Window(Requests(events + [e]), cfg, e), Window(Failures(events + [e]), cfg, e);
    RateReached(|failures|, |requests|, cfg.rate);
  }

  // ── The cooldown is honoured ────────────────────────────────────────────

  lemma {:induction false} UntilBound(cfg: Config, events: seq<Event>)
    requires Clocked(events) && Run(cfg, events).disabledUntil.Some?
    ensures events != [] && Run(cfg, events).disabledUntil.value <= End(events[|events| - 1]) + cfg.cooldown
  {
    var n := |events| - 1;
    if Run(cfg, events).disabledUntil == Run(cfg, events[..n]).disabledUntil {
      assert Clocked(events[..n]);
      UntilBound(cfg, events[..n]);
      assert End(events[n - 1]) <= events[n].now && Ordered(events[n]);
    }
  }

  lemma {:induction false} HoldsUntil(cfg: Config, all: seq<Event>, i: nat, j: nat, until: int)
    requires i <= j <= |all| && forall k | i <= k < j :: Ordered(all[k])
    requires Run(cfg, all[..i]).disabledUntil == Some(until)
    requires forall k | i <= k < j :: until <= End(all[k]) + cfg.cooldown && End(all[k]) < until
    ensures Run(cfg, all[..j]).disabledUntil.Some? && Run(cfg, all[..j]).disabledUntil.value >= until
    decreases j
  {
    if i < j {
      HoldsUntil(cfg, all, i, j - 1, until);
      assert all[..j][..j - 1] == all[..j - 1];
    }
  }

  // Once tripped, a provider stays disabled through its whole cooldown whatever
  // happens meanwhile; a later trip can only extend it.
  lemma {:induction false} StaysDisabled(cfg: Config, events: seq<Event>, later: seq<Event>, until: int)
    requires Clocked(events + later)
    requires Run(cfg, events).disabledUntil == Some(until)
    requires forall k | 0 <= k < |later| :: End(later[k]) < until
    ensures Run(cfg, events + later).disabledUntil.Some?
    ensures Run(cfg, events + later).disabledUntil.value >= until
  {
    var all, n := events + later, |events|;
    assert all[..n] == events && all[..|all|] == all;
    assert Clocked(all[..n]);
    UntilBound(cfg, events);
    forall k | n <= k < |all| ensures until <= End(all[k]) + cfg.cooldown && End(all[k]) < until {
      assert all[k] == later[k - n] && all[n - 1] == events[n - 1];
      assert End(all[n - 1]) <= all[k].now && Ordered(all[k]);
    }
    HoldsUntil(cfg, all, n, |all|, until);
  }

  // So no race asks it before then.
  lemma {:induction false} NotEligibleBefore(cfg: Config, events: seq<Event>, later: seq<Event>, until: int,
                                             p: Cascade.Provider, now: nat, fiat: nat)
    requires Clocked(events + later) && Run(cfg, events).disabledUntil == Some(until)
    requires forall k | 0 <= k < |later| :: End(later[k]) < until
    requires p.disabledUntil == Run(cfg, events + later).disabledUntil && now < until
    ensures !Cascade.Eligible(p, now, fiat)
  {
    StaysDisabled(cfg, events, later, until);
  }

  // ── A check whose own recording failed ──────────────────────────────────

  // Everything in the requests is later than the last cutoff: the same command
  // that prunes them adds the new one.
  lemma {:induction false} RequestsAfterCut(cfg: Config, events: seq<Event>)
    requires cfg.window > 0 && forall j, k | 0 <= j < k < |events| :: events[j].now <= events[k].now
    ensures forall m | m in Run(cfg, events).requests :: m.time > Cut(cfg, events)
  {
    if events != [] {
      var n := |events| - 1;
      RequestsAfterCut(cfg, events[..n]);
      CutBound(cfg, events[..n], events[n].now);
    }
  }

  // Then the failures it counts are still among the requests it counts, unless
  // it reads with the very cutoff of the last pruning and a failure of that
  // instant is still stored: the requests were pruned up to and including it,
  // and a success prunes no failures.
  lemma {:induction false} StaleExactly(cfg: Config, events: seq<Event>, e: Event)
    requires cfg.window > 0 && e.Failure? && !e.up && Clocked(events + [e])
    ensures
      var s, from := Run(cfg, events), e.checkAt - cfg.window;
      Since(s.failures, from) <= Since(s.requests, from) <==>
      !(Cut(cfg, events) == from && exists m :: m in s.failures && m.time == from)
  {
    var s, from := Run(cfg, events), e.checkAt - cfg.window;
    Readings(events, e);
    Holds(cfg, events);
    FailuresAreRequests(events);
    CutBound(cfg, events, e.checkAt);
    RequestsAfterCut(cfg, events);
    StaleMembers(s, Requests(events), Cut(cfg, events), from);
  }

  // The readings of the clock, one after the other.
  lemma Readings(events: seq<Event>, e: Event)
    requires e.Failure? && Clocked(events + [e])
    ensures forall j, k | 0 <= j < k < |events| :: events[j].now <= events[k].now
    ensures forall k | 0 <= k < |events| :: events[k].now <= e.checkAt
  {
    var all := events + [e];
    assert all[|events|] == e && Ordered(all[|events|]);
    forall j, k | 0 <= j < k < |events| ensures events[j].now <= events[k].now {
      assert all[j] == events[j] && all[k] == events[k] && Ordered(all[j]);
    }
    forall k | 0 <= k < |events| ensures events[k].now <= e.checkAt {
      assert all[k] == events[k] && Ordered(all[k]);
    }
  }

  lemma StaleMembers(s: State, requests: set<Member>, cut: int, from: int)
    requires s.failures <= requests && forall m | m in requests && m.time > cut :: m in s.requests
    requires forall m | m in s.requests :: m.time > cut
    requires cut <= from || cut == -1
    ensures Since(s.failures, from) <= Since(s.requests, from) <==>
            !(cut == from && exists m :: m in s.failures && m.time == from)
  {
    if cut == from && exists m :: m in s.failures && m.time == from {
      var m :| m in s.failures && m.time == from;
      assert m in Since(s.failures, from) && m !in Since(s.requests, from);
    }
  }

  // So it happens: a failure, a success one window later, and in that instant a
  // failure that could not be recorded.
  lemma StaleFailureExample()
    ensures exists cfg: Config, events: seq<Event>, e: Event ::
              && cfg.window > 0 && Clocked(events + [e]) && e.Failure? && !e.up
              && !(Since(Run(cfg, events).failures, e.checkAt - cfg.window)
                   <= Since(Run(cfg, events).requests, e.checkAt - cfg.window))
  {
    var cfg := Config(5, 1, 0.5, 10);
    var f, g, e := Failure(0, "x", true, 0, false, 0), Success(5, true), Failure(5, "y", false, 5, true, 5);
    var events := [f, g];
    assert events[..1] == [f] && [f][..0] == [];
    assert Run(cfg, [f]) == Step(cfg, Run(cfg, [f][..0]), f);
    assert Run(cfg, events) == Step(cfg, Run(cfg, events[..1]), g);
    assert Cut(cfg, [f]) == -1 && Cut(cfg, events) == 0;
    assert Member(0, "x") in Run(cfg, events).failures;
    assert events + [e] == [f, g, e];
    StaleExactly(cfg, events, e);
  }
}
