// The quote cache of gui/server/quote-snapshot-store.ts. A build is a promise the store
// has asked for; settling it runs two callbacks, which are separate steps: the `then`
// that stores the value and the `finally` that gives up the in-flight slot.
module QuoteSnapshots {
  import opened Options

  datatype Stage = Pending | Settled | Done

  /** `epoch` is the invalidation version that was current when the build started. */
  datatype Build = Build(epoch: nat, stage: Stage)

  datatype Snapshot = Snapshot(build: nat, value: string)

  datatype State = State(
    snapshot: Option<Snapshot>,
    fetchedAtMs: int,
    inFlight: Option<nat>,
    invalidationVersion: nat,
    builds: seq<Build>)

  const Empty: State := State(None, 0, None, 0, [])

  /** What `get` hands out: a stored snapshot, or the promise of a build. */
  datatype Reply = Value(snapshot: Snapshot) | Promise(build: nat)

  function Refresh(s: State): (State, nat) {
    match s.inFlight
    case Some(b) => (s, b)
    case None =>
      var b := |s.builds|;
      (s.(builds := s.builds + [Build(s.invalidationVersion, Pending)], inFlight := Some(b)), b)
  }

  function Get(s: State, now: int, maxAgeMs: int): (State, Reply) {
    match s.snapshot
    case None => var (t, b) := Refresh(s); (t, Promise(b))
    case Some(snapshot) =>
      (if now - s.fetchedAtMs >= maxAgeMs then Refresh(s).0 else s, Value(snapshot))
  }

  function Invalidate(s: State): State {
    s.(invalidationVersion := s.invalidationVersion + 1, snapshot := None, fetchedAtMs := 0, inFlight := None)
  }

  predicate At(s: State, b: nat, stage: Stage) {
    b < |s.builds| && s.builds[b].stage == stage
  }

  /** The build resolves and its `then` callback runs. */
  function Resolve(s: State, b: nat, value: string, now: int): State {
    if !At(s, b, Pending) then s
    else
      var t := s.(builds := s.builds[b := s.builds[b].(stage := Settled)]);
      if s.builds[b].epoch != s.invalidationVersion then t
      else t.(snapshot := Some(Snapshot(b, value)), fetchedAtMs := now)
  }

  function Reject(s: State, b: nat): State {
    if !At(s, b, Pending) then s else s.(builds := s.builds[b := s.builds[b].(stage := Settled)])
  }

  /** The `finally` callback. */
  function Finish(s: State, b: nat): State {
    if !At(s, b, Settled) then s
    else s.(builds := s.builds[b := s.builds[b].(stage := Done)],
            inFlight := if s.inFlight == Some(b) then None else s.inFlight)
  }

  class QuoteSnapshotStore {
    const maxAgeMs: int
    var snapshot: Option<Snapshot>
    var fetchedAtMs: int
    var inFlight: Option<nat>
    var invalidationVersion: nat
    var builds: seq<Build>

    ghost function Model(): State
      reads this
    {
      State(snapshot, fetchedAtMs, inFlight, invalidationVersion, builds)
    }

    constructor (maxAgeMs: int)
      ensures this.maxAgeMs == maxAgeMs && Model() == Empty
    {
      this.maxAgeMs := maxAgeMs;
      snapshot, fetchedAtMs, inFlight, invalidationVersion, builds := None, 0, None, 0, [];
    }

    method RefreshNow() returns (b: nat)
      modifies this
      ensures (Model(), b) == Refresh(old(Model()))
    {
      if inFlight.Some? {
        return inFlight.value;
      }
      b := |builds|;
      builds := builds + [Build(invalidationVersion, Pending)];
      inFlight := Some(b);
    }

    method GetNow(now: int) returns (reply: Reply)
      modifies this
      ensures (Model(), reply) == Get(old(Model()), now, maxAgeMs)
    {
      if snapshot == None {
        var b := RefreshNow();
        return Promise(b);
      }
      if now - fetchedAtMs >= maxAgeMs {
        var _ := RefreshNow();
      }
      return Value(snapshot.value);
    }

    method InvalidateNow()
      modifies this
      ensures Model() == Invalidate(old(Model()))
    {
      invalidationVersion := invalidationVersion + 1;
      snapshot := None;
      fetchedAtMs := 0;
      inFlight := None;
    }

    method BuildResolved(b: nat, value: string, now: int)
      modifies this
      ensures Model() == Resolve(old(Model()), b, value, now)
    {
      if b < |builds| && builds[b].stage == Pending {
        if builds[b].epoch == invalidationVersion {
          snapshot := Some(Snapshot(b, value));
          fetchedAtMs := now;
        }
        builds := builds[b := builds[b].(stage := Settled)];
      }
    }

    method BuildRejected(b: nat)
      modifies this
      ensures Model() == Reject(old(Model()), b)
    {
      if b < |builds| && builds[b].stage == Pending {
        builds := builds[b := builds[b].(stage := Settled)];
      }
    }

    method BuildFinally(b: nat)
      modifies this
      ensures Model() == Finish(old(Model()), b)
    {
      if b < |builds| && builds[b].stage == Settled {
        if inFlight == Some(b) {
          inFlight := None;
        }
        builds := builds[b := builds[b].(stage := Done)];
      }
    }
  }

  // ---------------------------------------------------------------- runs

  datatype Event =
    | GetEvent(now: int)
    | InvalidateEvent
    | ResolveEvent(build: nat, value: string, now: int)
    | RejectEvent(build: nat)
    | FinishEvent(build: nat)

  function Step(s: State, e: Event, maxAgeMs: int): State {
    match e
    case GetEvent(now) => Get(s, now, maxAgeMs).0
    case InvalidateEvent => Invalidate(s)
    case ResolveEvent(b, value, now) => Resolve(s, b, value, now)
    case RejectEvent(b) => Reject(s, b)
    case FinishEvent(b) => Finish(s, b)
  }

  function Continue(s: State, events: seq<Event>, maxAgeMs: int): State
    decreases |events|
  {
    if events == [] then s else Continue(Step(s, events[0], maxAgeMs), events[1..], maxAgeMs)
  }

  /** Everything the store can still hand out belongs to the current epoch, and the in-flight
      slot names the one build of that epoch that has not finished. */
  ghost predicate Consistent(s: State) {
    && (forall b :: 0 <= b < |s.builds| ==> s.builds[b].epoch <= s.invalidationVersion)
    && (s.snapshot.Some? ==>
          s.snapshot.value.build < |s.builds| && s.builds[s.snapshot.value.build].epoch == s.invalidationVersion)
    && (s.inFlight.Some? ==>
          s.inFlight.value < |s.builds| && s.builds[s.inFlight.value].epoch == s.invalidationVersion &&
          s.builds[s.inFlight.value].stage != Done)
    && (forall b :: 0 <= b < |s.builds| && s.builds[b].epoch == s.invalidationVersion && s.builds[b].stage != Done ==>
          s.inFlight == Some(b))
    && (forall a, b :: 0 <= a < b < |s.builds| && s.builds[a].epoch == s.builds[b].epoch ==>
          s.builds[a].stage == Done || s.builds[b].stage == Done)
  }

  /** Builds are only added, and keep their epoch. */
  ghost predicate Extends(s: State, t: State) {
    |s.builds| <= |t.builds| && s.invalidationVersion <= t.invalidationVersion &&
    forall b :: 0 <= b < |s.builds| ==> t.builds[b].epoch == s.builds[b].epoch
  }

  lemma GetIsConsistent(s: State, now: int, maxAgeMs: int)
    requires Consistent(s)
    ensures Consistent(Get(s, now, maxAgeMs).0) && Extends(s, Get(s, now, maxAgeMs).0)
  {
    var t := Refresh(s).0;
    if s.inFlight == None {
      var n := |s.builds|;
      assert t.builds[n] == Build(s.invalidationVersion, Pending);
      forall a | 0 <= a < n && t.builds[a].epoch == s.invalidationVersion ensures t.builds[a].stage == Done {
        assert t.builds[a] == s.builds[a];
      }
      assert Consistent(t);
    }
  }

  lemma SettleIsConsistent(s: State, e: Event, maxAgeMs: int)
    requires Consistent(s) && (e.ResolveEvent? || e.RejectEvent? || e.FinishEvent?)
    ensures Consistent(Step(s, e, maxAgeMs)) && Extends(s, Step(s, e, maxAgeMs))
  {
    var t := Step(s, e, maxAgeMs);
    assert forall b :: 0 <= b < |t.builds| ==>
        t.builds[b].epoch == s.builds[b].epoch && (s.builds[b].stage == Done ==> t.builds[b].stage == Done);
    hide Step;
  }

  lemma StepIsConsistent(s: State, e: Event, maxAgeMs: int)
    requires Consistent(s)
    ensures Consistent(Step(s, e, maxAgeMs)) && Extends(s, Step(s, e, maxAgeMs))
  {
    if e.GetEvent? {
      GetIsConsistent(s, e.now, maxAgeMs);
    } else if e.InvalidateEvent? {
      assert Consistent(Invalidate(s));
    } else {
      SettleIsConsistent(s, e, maxAgeMs);
    }
    hide Get, Resolve, Reject, Finish, Consistent, Extends;
  }

  lemma {:induction false} RunIsConsistent(s: State, events: seq<Event>, maxAgeMs: int)
    requires Consistent(s)
    ensures Consistent(Continue(s, events, maxAgeMs)) && Extends(s, Continue(s, events, maxAgeMs))
    decreases |events|
  {
    if events != [] {
      StepIsConsistent(s, events[0], maxAgeMs);
      hide Step, Consistent;
      RunIsConsistent(Step(s, events[0], maxAgeMs), events[1..], maxAgeMs);
    }
  }

  /** After an invalidation no `get` hands out the value or the promise of a build started before
      it, whatever the builds in flight do in the meantime. */
  lemma NothingFromBeforeInvalidate(events: seq<Event>, later: seq<Event>, now: int, maxAgeMs: int)
    ensures var before := Continue(Empty, events, maxAgeMs);
            var s := Continue(Invalidate(before), later, maxAgeMs);
            match Get(s, now, maxAgeMs).1
            case Value(snapshot) => |before.builds| <= snapshot.build < |s.builds|
            case Promise(b) => |before.builds| <= b
  {
    RunIsConsistent(Empty, events, maxAgeMs);
    var before := Continue(Empty, events, maxAgeMs);
    StepIsConsistent(before, InvalidateEvent, maxAgeMs);
    RunIsConsistent(Invalidate(before), later, maxAgeMs);
  }

  /** At most one build is in flight in each invalidation epoch. */
  lemma OneBuildPerEpoch(events: seq<Event>, maxAgeMs: int, a: nat, b: nat)
    requires var builds := Continue(Empty, events, maxAgeMs).builds;
             a < |builds| && b < |builds| && builds[a].epoch == builds[b].epoch &&
             builds[a].stage != Done && builds[b].stage != Done
    ensures a == b
  {
    RunIsConsistent(Empty, events, maxAgeMs);
  }

  // ---------------------------------------------------------------- what a get hands out, over histories

  lemma {:induction false} ContinueAppend(s: State, events: seq<Event>, e: Event, maxAgeMs: int)
    ensures Continue(s, events + [e], maxAgeMs) == Step(Continue(s, events, maxAgeMs), e, maxAgeMs)
    decreases |events|
  {
    hide Step;
    if events == [] {
      assert [e][1..] == [] && events + [e] == [e];
    } else {
      assert (events + [e])[1..] == events[1..] + [e];
      ContinueAppend(Step(s, events[0], maxAgeMs), events[1..], e, maxAgeMs);
    }
  }

  function Invalidations(events: seq<Event>): nat
    decreases |events|
  {
    if events == [] then 0
    else Invalidations(events[..|events| - 1]) + if events[|events| - 1].InvalidateEvent? then 1 else 0
  }

  /** Event i resolves a build that was asked for since the last invalidation. */
  ghost predicate Stores(events: seq<Event>, i: int, maxAgeMs: int) {
    0 <= i < |events| && events[i].ResolveEvent? &&
    var s := Continue(Empty, events[..i], maxAgeMs);
    At(s, events[i].build, Pending) && s.builds[events[i].build].epoch == Invalidations(events[..i])
  }

  /** Event i brought what is cached: nothing was stored or invalidated since. */
  ghost predicate Latest(events: seq<Event>, i: int, maxAgeMs: int) {
    Stores(events, i, maxAgeMs) &&
    forall j :: i < j < |events| ==> !events[j].InvalidateEvent? && !Stores(events, j, maxAgeMs)
  }

  lemma StoresPrefix(events: seq<Event>, i: int, maxAgeMs: int)
    requires events != [] && i < |events| - 1
    ensures Stores(events, i, maxAgeMs) <==> Stores(events[..|events| - 1], i, maxAgeMs)
  {
    hide Continue, Invalidations;
    if i >= 0 {
      assert events[..|events| - 1][..i] == events[..i];
    }
  }

  lemma LatestStep(events: seq<Event>, i: int, maxAgeMs: int)
    requires events != []
    ensures var last := |events| - 1;
            Latest(events, i, maxAgeMs)
            <==> if i == last then Stores(events, last, maxAgeMs)
                 else Latest(events[..last], i, maxAgeMs) && !events[last].InvalidateEvent? &&
                      !Stores(events, last, maxAgeMs)
  {
    hide Stores;
    var last := |events| - 1;
    var prior := events[..last];
    forall j | j < last ensures Stores(events, j, maxAgeMs) <==> Stores(prior, j, maxAgeMs) {
      StoresPrefix(events, j, maxAgeMs);
    }
    StoredInRange(events, i, maxAgeMs);
    StoredInRange(prior, i, maxAgeMs);
    assert forall j :: 0 <= j < last ==> prior[j] == events[j];
  }

  lemma StoredInRange(events: seq<Event>, i: int, maxAgeMs: int)
    ensures Stores(events, i, maxAgeMs) ==> 0 <= i < |events| && events[i].ResolveEvent?
  {
  }

  /** The state knows of the history: the invalidations, and the value and time of the latest store. */
  ghost predicate Remembers(s: State, events: seq<Event>, maxAgeMs: int) {
    && s.invalidationVersion == Invalidations(events)
    && (s.snapshot.None? ==> forall i :: !Latest(events, i, maxAgeMs))
    && (forall i :: Latest(events, i, maxAgeMs) ==>
          s.snapshot == Some(Snapshot(events[i].build, events[i].value)) && s.fetchedAtMs == events[i].now)
    && (s.snapshot.Some? ==> exists i :: Latest(events, i, maxAgeMs))
  }

  lemma {:induction false} HistoryIsRemembered(events: seq<Event>, maxAgeMs: int)
    ensures Remembers(Continue(Empty, events, maxAgeMs), events, maxAgeMs)
    decreases |events|
  {
    if events == [] {
      hide Stores;
      forall i ensures !Latest(events, i, maxAgeMs) {
        StoredInRange(events, i, maxAgeMs);
      }
    } else {
      var prior, e := events[..|events| - 1], events[|events| - 1];
      assert events == prior + [e];
      HistoryIsRemembered(prior, maxAgeMs);
      ContinueAppend(Empty, prior, e, maxAgeMs);
      EventIsRemembered(Continue(Empty, prior, maxAgeMs), events, maxAgeMs);
    }
  }

  lemma InvalidationsStep(events: seq<Event>)
    requires events != []
    ensures Invalidations(events)
            == Invalidations(events[..|events| - 1]) + if events[|events| - 1].InvalidateEvent? then 1 else 0
  {
  }

  /** What one event does to the cached value and its time. */
  lemma StepStores(s: State, e: Event, maxAgeMs: int)
    ensures var t := Step(s, e, maxAgeMs);
            if e.InvalidateEvent? then t.invalidationVersion == s.invalidationVersion + 1 && t.snapshot == None
            else
              t.invalidationVersion == s.invalidationVersion &&
              if e.ResolveEvent? && At(s, e.build, Pending) && s.builds[e.build].epoch == s.invalidationVersion
              then t.snapshot == Some(Snapshot(e.build, e.value)) && t.fetchedAtMs == e.now
              else t.snapshot == s.snapshot && t.fetchedAtMs == s.fetchedAtMs
  {
  }

  lemma EventIsRemembered(s: State, events: seq<Event>, maxAgeMs: int)
    requires events != [] && s == Continue(Empty, events[..|events| - 1], maxAgeMs)
    requires Remembers(s, events[..|events| - 1], maxAgeMs)
    ensures Remembers(Step(s, events[|events| - 1], maxAgeMs), events, maxAgeMs)
  {
    var last := |events| - 1;
    forall i ensures Latest(events, i, maxAgeMs) <==>
                     if i == last then Stores(events, last, maxAgeMs)
                     else Latest(events[..last], i, maxAgeMs) && !events[last].InvalidateEvent? &&
                          !Stores(events, last, maxAgeMs)
    {
      LatestStep(events, i, maxAgeMs);
    }
    hide Latest, Continue;
    var e := events[last];
    assert Stores(events, last, maxAgeMs) <==>
           e.ResolveEvent? && At(s, e.build, Pending) && s.builds[e.build].epoch == s.invalidationVersion;
    StepStores(s, e, maxAgeMs);
    hide Stores, Step, Invalidations;
    assert Invalidations(events) == s.invalidationVersion + if e.InvalidateEvent? then 1 else 0 by {
      InvalidationsStep(events);
    }
    assert Latest(events, last, maxAgeMs) <==> Stores(events, last, maxAgeMs);
    if !Stores(events, last, maxAgeMs) && !events[last].InvalidateEvent? {
      assert forall i :: Latest(events, i, maxAgeMs) ==> i != last && Latest(events[..last], i, maxAgeMs);
    }
  }

  /** A build that was asked for since the last invalidation and has not finished. */
  ghost predicate Building(events: seq<Event>, builds: seq<Build>, b: nat) {
    b < |builds| && builds[b].epoch == Invalidations(events) && builds[b].stage != Done
  }

  /** Every `get` of every history: the latest value since the last invalidation is handed out however
      old it is, and a new build is asked for exactly if the value is as old as the limit or there is
      none, and no build of this epoch is under way. Without a value, the build is handed out. */
  lemma GetServes(events: seq<Event>, maxAgeMs: int, now: int)
    ensures var s := Continue(Empty, events, maxAgeMs);
            var (t, reply) := Get(s, now, maxAgeMs);
            var asked, more := s.builds, s.builds + [Build(Invalidations(events), Pending)];
            (forall i :: Latest(events, i, maxAgeMs) ==>
             reply == Value(Snapshot(events[i].build, events[i].value)) &&
             (now - events[i].now < maxAgeMs ==> t.builds == asked)) &&
            ((exists i :: Latest(events, i, maxAgeMs)) ||
             (reply.Promise? && Building(events, t.builds, reply.build))) &&
            ((forall i :: Latest(events, i, maxAgeMs) ==> now - events[i].now >= maxAgeMs) ==>
             t.builds == if exists b :: Building(events, asked, b) then asked else more)
  {
    HistoryIsRemembered(events, maxAgeMs);
    RunIsConsistent(Empty, events, maxAgeMs);
    var s := Continue(Empty, events, maxAgeMs);
    hide Latest, Continue, Invalidations;
    if s.inFlight.Some? {
      assert Building(events, s.builds, s.inFlight.value);
    } else {
      assert !exists b :: Building(events, s.builds, b);
    }
  }

  // ---------------------------------------------------------------- the life of a build

  /** Event j ends build b, which has been asked for. */
  ghost predicate EndsAt(events: seq<Event>, b: nat, j: int, maxAgeMs: int) {
    && 0 <= j < |events| && (events[j].ResolveEvent? || events[j].RejectEvent?) && events[j].build == b
    && b < |Continue(Empty, events[..j], maxAgeMs).builds|
  }

  ghost predicate HasEnded(events: seq<Event>, b: nat, maxAgeMs: int) {
    exists j :: EndsAt(events, b, j, maxAgeMs)
  }

  /** Event j is the last callback of build b. */
  ghost predicate FinishesAt(events: seq<Event>, b: nat, j: int, maxAgeMs: int) {
    0 <= j < |events| && events[j] == FinishEvent(b) && HasEnded(events[..j], b, maxAgeMs)
  }

  ghost predicate HasFinished(events: seq<Event>, b: nat, maxAgeMs: int) {
    exists j :: FinishesAt(events, b, j, maxAgeMs)
  }

  lemma EndedStep(events: seq<Event>, b: nat, maxAgeMs: int)
    requires events != []
    ensures var prior, e := events[..|events| - 1], events[|events| - 1];
            HasEnded(events, b, maxAgeMs)
            <==> HasEnded(prior, b, maxAgeMs) ||
                 ((e.ResolveEvent? || e.RejectEvent?) && e.build == b &&
                  b < |Continue(Empty, prior, maxAgeMs).builds|)
  {
    hide Continue;
    var last := |events| - 1;
    var prior := events[..last];
    forall j | 0 <= j < last ensures EndsAt(events, b, j, maxAgeMs) <==> EndsAt(prior, b, j, maxAgeMs) {
      assert prior[..j] == events[..j];
    }
    assert EndsAt(events, b, last, maxAgeMs)
      <==> (events[last].ResolveEvent? || events[last].RejectEvent?) && events[last].build == b &&
           b < |Continue(Empty, prior, maxAgeMs).builds|;
    assert HasEnded(prior, b, maxAgeMs) ==> exists j :: 0 <= j < last && EndsAt(prior, b, j, maxAgeMs);
  }

  lemma FinishedStep(events: seq<Event>, b: nat, maxAgeMs: int)
    requires events != []
    ensures var prior, e := events[..|events| - 1], events[|events| - 1];
            HasFinished(events, b, maxAgeMs)
            <==> HasFinished(prior, b, maxAgeMs) || (e == FinishEvent(b) && HasEnded(prior, b, maxAgeMs))
  {
    hide HasEnded;
    var last := |events| - 1;
    var prior := events[..last];
    forall j | 0 <= j < last ensures FinishesAt(events, b, j, maxAgeMs) <==> FinishesAt(prior, b, j, maxAgeMs) {
      assert prior[..j] == events[..j];
    }
    assert FinishesAt(events, b, last, maxAgeMs)
      <==> events[last] == FinishEvent(b) && HasEnded(prior, b, maxAgeMs);
    assert HasFinished(prior, b, maxAgeMs) ==> exists j :: 0 <= j < last && FinishesAt(prior, b, j, maxAgeMs);
  }

  lemma StepOnBuild(s: State, e: Event, maxAgeMs: int, b: nat)
    requires b <= |s.builds|
    ensures var t := Step(s, e, maxAgeMs);
            |s.builds| <= |t.builds| <= |s.builds| + 1 &&
            if b == |s.builds| then b < |t.builds| ==> t.builds[b].stage == Pending
            else
              var stage := s.builds[b].stage;
              t.builds[b].stage ==
              if stage == Pending && (e.ResolveEvent? || e.RejectEvent?) && e.build == b then Settled
              else if stage == Settled && e == FinishEvent(b) then Done
              else stage
  {
  }

  /** Over every history: a build is pending until an event ends it, and done, so that it no longer stands
      in the way of the next, exactly once its last callback has run after that. */
  lemma {:induction false} BuildFollowsEvents(events: seq<Event>, maxAgeMs: int, b: nat)
    ensures var builds := Continue(Empty, events, maxAgeMs).builds;
            if b >= |builds| then !HasEnded(events, b, maxAgeMs) && !HasFinished(events, b, maxAgeMs)
            else builds[b].stage == if HasFinished(events, b, maxAgeMs) then Done
                                    else if HasEnded(events, b, maxAgeMs) then Settled else Pending
    ensures HasFinished(events, b, maxAgeMs) ==> HasEnded(events, b, maxAgeMs)
    decreases |events|
  {
    if events != [] {
      var prior, e := events[..|events| - 1], events[|events| - 1];
      var s := Continue(Empty, prior, maxAgeMs);
      assert events == prior + [e];
      BuildFollowsEvents(prior, maxAgeMs, b);
      ContinueAppend(Empty, prior, e, maxAgeMs);
      EndedStep(events, b, maxAgeMs);
      FinishedStep(events, b, maxAgeMs);
      StepOnBuild(s, e, maxAgeMs, if b <= |s.builds| then b else |s.builds|);
      hide Step, Continue, HasEnded, HasFinished;
    }
  }
}
