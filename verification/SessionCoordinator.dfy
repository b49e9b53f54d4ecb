// Action admission of gui/server/local-session-coordinator.ts. Each accepted call of a
// handler is an execution; the cleanups that the program chains to the handler's promise
// are separate steps, so every interleaving of them with other calls is a run.
module SessionCoordinator {
  import opened Options

  datatype Action = Action(sessionId: string, actionId: string, admission: bool)

  datatype Status = Running | Succeeded(result: string, at: int) | Failed

  datatype Execution = Execution(action: Action, startedAt: int, status: Status, tailPending: bool, activePending: bool)

  datatype Accepted = Accepted(expiresAt: int, result: string)

  datatype Answer =
    | Duplicate(result: string)          // a remembered result
    | Joined(execution: nat)             // waits for the execution in flight
    | Busy(activeActionId: string)
    | Started(execution: nat)

  datatype State = State(
    executions: seq<Execution>,
    accepted: map<string, Accepted>,
    active: map<string, nat>,
    tails: map<string, nat>)

  const Empty: State := State([], map[], map[], map[])

  function ActionKey(a: Action): string {
    a.sessionId + ":" + a.actionId
  }

  function Prune(accepted: map<string, Accepted>, now: int): map<string, Accepted> {
    map k | k in accepted && accepted[k].expiresAt > now :: accepted[k]
  }

  // ---------------------------------------------------------------- the steps on values

  /** The synchronous part of `runSessionAction`. */
  function Call(s: State, a: Action, now: int): (State, Answer) {
    var key := ActionKey(a);
    var t := s.(accepted := Prune(s.accepted, now));
    if key in t.accepted then (t, Duplicate(t.accepted[key].result))
    else if key in t.active then (t, Joined(t.active[key]))
    else if a.admission && a.sessionId in t.tails then
      (t, Busy(if t.tails[a.sessionId] < |t.executions| then t.executions[t.tails[a.sessionId]].action.actionId
               else ""))
    else
      var e := |t.executions|;
      (t.(executions := t.executions + [Execution(a, now, Running, a.admission, true)],
          active := t.active[key := e],
          tails := if a.admission then t.tails[a.sessionId := e] else t.tails), Started(e))
  }

  /** The handler's promise resolves: the result is remembered. */
  function Resolve(s: State, e: nat, result: string, now: int, retentionMs: int): State {
    if e < |s.executions| && s.executions[e].status == Running then
      s.(executions := s.executions[e := s.executions[e].(status := Succeeded(result, now))],
         accepted := s.accepted[ActionKey(s.executions[e].action) := Accepted(now + retentionMs, result)])
    else s
  }

  /** The handler's promise rejects. */
  function Reject(s: State, e: nat): State {
    if e < |s.executions| && s.executions[e].status == Running then
      s.(executions := s.executions[e := s.executions[e].(status := Failed)])
    else s
  }

  predicate Settled(s: State, e: nat) {
    e < |s.executions| && s.executions[e].status != Running
  }

  /** `runTail.finally`. */
  function ClearTail(s: State, e: nat): State {
    if Settled(s, e) && s.executions[e].tailPending then
      var sessionId := s.executions[e].action.sessionId;
      s.(executions := s.executions[e := s.executions[e].(tailPending := false)],
         tails := if sessionId in s.tails && s.tails[sessionId] == e
                  then map k | k in s.tails && k != sessionId :: s.tails[k] else s.tails)
    else s
  }

  /** The `finally` of the caller that started the execution. */
  function ClearActive(s: State, e: nat): State {
    if Settled(s, e) && s.executions[e].activePending then
      var key := ActionKey(s.executions[e].action);
      s.(executions := s.executions[e := s.executions[e].(activePending := false)],
         active := map k | k in s.active && k != key :: s.active[k])
    else s
  }

  // ---------------------------------------------------------------- the coordinator

  class Coordinator {
    const retentionMs: int
    var executions: seq<Execution>
    var acceptedActions: map<string, Accepted>
    var activeActions: map<string, nat>
    var sessionRunTails: map<string, nat>

    ghost function Value(): State
      reads this
    {
      State(executions, acceptedActions, activeActions, sessionRunTails)
    }

    constructor (retentionMs: int)
      ensures this.retentionMs == retentionMs && Value() == Empty
    {
      this.retentionMs := retentionMs;
      executions, acceptedActions, activeActions, sessionRunTails := [], map[], map[], map[];
    }

    method PruneExpiredActions(now: int)
      modifies this`acceptedActions
      ensures acceptedActions == Prune(old(acceptedActions), now)
    {
      var keys := acceptedActions.Keys;
      ghost var seen: set<string> := {};
      while keys != {}
        invariant keys + seen == old(acceptedActions).Keys && keys !! seen
        invariant acceptedActions == map k | k in old(acceptedActions) &&
                    (k in keys || old(acceptedActions)[k].expiresAt > now) :: old(acceptedActions)[k]
        decreases keys
      {
        var key :| key in keys;
        if acceptedActions[key].expiresAt <= now {
          acceptedActions := map k | k in acceptedActions && k != key :: acceptedActions[k];
        }
        keys, seen := keys - {key}, seen + {key};
      }
    }

    method RunSessionAction(a: Action, now: int) returns (answer: Answer)
      modifies this
      ensures (Value(), answer) == Call(old(Value()), a, now)
    {
      PruneExpiredActions(now);
      var key := ActionKey(a);
      if key in acceptedActions {
        return Duplicate(acceptedActions[key].result);
      }
      if key in activeActions {
        return Joined(activeActions[key]);
      }
      if a.admission && a.sessionId in sessionRunTails {
        var owner := sessionRunTails[a.sessionId];
        return Busy(if owner < |executions| then executions[owner].action.actionId else "");
      }
      var e := |executions|;
      executions := executions + [Execution(a, now, Running, a.admission, true)];
      if a.admission {
        sessionRunTails := sessionRunTails[a.sessionId := e];
      }
      activeActions := activeActions[key := e];
      return Started(e);
    }

    method HandlerResolved(e: nat, result: string, now: int)
      modifies this
      ensures Value() == Resolve(old(Value()), e, result, now, retentionMs)
    {
      if e < |executions| && executions[e].status == Running {
        acceptedActions := acceptedActions[ActionKey(executions[e].action) := Accepted(now + retentionMs, result)];
        executions := executions[e := executions[e].(status := Succeeded(result, now))];
      }
    }

    method HandlerRejected(e: nat)
      modifies this
      ensures Value() == Reject(old(Value()), e)
    {
      if e < |executions| && executions[e].status == Running {
        executions := executions[e := executions[e].(status := Failed)];
      }
    }

    method RunTailFinally(e: nat)
      modifies this
      ensures Value() == ClearTail(old(Value()), e)
    {
      if e < |executions| && executions[e].status != Running && executions[e].tailPending {
        var sessionId := executions[e].action.sessionId;
        if sessionId in sessionRunTails && sessionRunTails[sessionId] == e {
          sessionRunTails := map k | k in sessionRunTails && k != sessionId :: sessionRunTails[k];
        }
        executions := executions[e := executions[e].(tailPending := false)];
      }
    }

    method CallerFinally(e: nat)
      modifies this
      ensures Value() == ClearActive(old(Value()), e)
    {
      if e < |executions| && executions[e].status != Running && executions[e].activePending {
        var key := ActionKey(executions[e].action);
        activeActions := map k | k in activeActions && k != key :: activeActions[k];
        executions := executions[e := executions[e].(activePending := false)];
      }
    }
  }

  // ---------------------------------------------------------------- runs

  datatype Event =
    | CallEvent(action: Action, now: int)
    | ResolveEvent(execution: nat, result: string, now: int)
    | RejectEvent(execution: nat)
    | ClearTailEvent(execution: nat)
    | ClearActiveEvent(execution: nat)

  function Step(s: State, ev: Event, retentionMs: int): State {
    match ev
    case CallEvent(a, now) => Call(s, a, now).0
    case ResolveEvent(e, result, now) => Resolve(s, e, result, now, retentionMs)
    case RejectEvent(e) => Reject(s, e)
    case ClearTailEvent(e) => ClearTail(s, e)
    case ClearActiveEvent(e) => ClearActive(s, e)
  }

  function After(events: seq<Event>, retentionMs: int): State {
    if events == [] then Empty
    else Step(After(events[..|events| - 1], retentionMs), events[|events| - 1], retentionMs)
  }

  predicate Timed(ev: Event) {
    ev.CallEvent? || ev.ResolveEvent?
  }

  /** The latest clock reading of a run that began at `start`. */
  function Clock(events: seq<Event>, start: int): int {
    if events == [] then start
    else if Timed(events[|events| - 1]) then events[|events| - 1].now
    else Clock(events[..|events| - 1], start)
  }

  /** The clock never goes back. */
  ghost predicate Monotone(events: seq<Event>, start: int) {
    events == [] ||
    (Monotone(events[..|events| - 1], start) &&
     (Timed(events[|events| - 1]) ==> Clock(events[..|events| - 1], start) <= events[|events| - 1].now))
  }

  /** What holds between any two steps. */
  ghost predicate Consistent(s: State, clock: int, retentionMs: int) {
    && (forall i :: 0 <= i < |s.executions| ==> Tracked(s, i, clock, retentionMs))
    && AllInOrder(s.executions, retentionMs)
    && (forall k :: k in s.accepted ==> Backed(s.executions, k, s.accepted[k], retentionMs))
    && Owned(s)
  }

  ghost predicate AllInOrder(xs: seq<Execution>, retentionMs: int) {
    forall i, j :: 0 <= i < j < |xs| ==> InOrder(xs[i], xs[j], retentionMs)
  }

  ghost predicate Backed(xs: seq<Execution>, key: string, a: Accepted, retentionMs: int) {
    exists i :: 0 <= i < |xs| && Remembers(xs[i], key, a, retentionMs)
  }

  predicate HoldsSession(x: Execution, sessionId: string) {
    x.tailPending && x.action.sessionId == sessionId
  }

  predicate Awaited(x: Execution, key: string) {
    x.activePending && ActionKey(x.action) == key
  }

  ghost predicate ActiveOwned(s: State) {
    forall k :: k in s.active ==> s.active[k] < |s.executions| && Awaited(s.executions[s.active[k]], k)
  }

  ghost predicate TailsOwned(s: State) {
    forall k :: k in s.tails ==> s.tails[k] < |s.executions| && HoldsSession(s.executions[s.tails[k]], k)
  }

  ghost predicate Owned(s: State) {
    ActiveOwned(s) && TailsOwned(s)
  }

  /** The maps know an execution for as long as its cleanups are outstanding. */
  ghost predicate Tracked(s: State, i: nat, clock: int, retentionMs: int)
    requires i < |s.executions|
  {
    var x := s.executions[i];
    var key := ActionKey(x.action);
    && x.startedAt <= clock
    && (x.status == Running ==> x.activePending && (x.action.admission ==> x.tailPending))
    && (x.activePending ==> key in s.active && s.active[key] == i)
    && (x.tailPending ==> x.action.admission && x.action.sessionId in s.tails && s.tails[x.action.sessionId] == i)
    && (x.status.Succeeded? ==>
          && x.startedAt <= x.status.at <= clock
          && (x.status.at + retentionMs <= clock ||
              (key in s.accepted && s.accepted[key].expiresAt >= x.status.at + retentionMs)))
  }

  /** An earlier execution of the same key has settled, and its result has expired. */
  ghost predicate InOrder(x: Execution, y: Execution, retentionMs: int) {
    ActionKey(x.action) == ActionKey(y.action) ==>
      x.status != Running && !x.activePending && (x.status.Succeeded? ==> x.status.at + retentionMs <= y.startedAt)
  }

  ghost predicate Remembers(x: Execution, key: string, a: Accepted, retentionMs: int) {
    ActionKey(x.action) == key && x.status.Succeeded? && x.status.result == a.result &&
      a.expiresAt == x.status.at + retentionMs
  }

  lemma CallIsConsistent(s: State, a: Action, now: int, clock: int, retentionMs: int)
    requires Consistent(s, clock, retentionMs) && clock <= now
    ensures Consistent(Call(s, a, now).0, now, retentionMs)
  {
    CallTracks(s, a, now, clock, retentionMs);
    CallBacks(s, a, now, clock, retentionMs);
    CallOwns(s, a, now, clock, retentionMs);
    if Call(s, a, now).1.Started? {
      StartIsInOrder(s, a, now, clock, retentionMs);
    }
    hide Tracked, Backed, AllInOrder, Owned;
  }

  lemma CallTracks(s: State, a: Action, now: int, clock: int, retentionMs: int)
    requires Consistent(s, clock, retentionMs) && clock <= now
    ensures var t := Call(s, a, now).0;
            forall i :: 0 <= i < |t.executions| ==> Tracked(t, i, now, retentionMs)
  {
    hide ActionKey, Backed, AllInOrder, Owned;
    var t := Call(s, a, now).0;
    forall i | 0 <= i < |t.executions| ensures Tracked(t, i, now, retentionMs) {
      assert i < |s.executions| ==> Tracked(s, i, clock, retentionMs);
    }
  }

  lemma CallBacks(s: State, a: Action, now: int, clock: int, retentionMs: int)
    requires Consistent(s, clock, retentionMs)
    ensures var t := Call(s, a, now).0;
            forall k :: k in t.accepted ==> Backed(t.executions, k, t.accepted[k], retentionMs)
  {
    hide ActionKey, Tracked, AllInOrder, Owned;
    var t := Call(s, a, now).0;
    forall k | k in t.accepted ensures Backed(t.executions, k, t.accepted[k], retentionMs) {
      assert Backed(s.executions, k, s.accepted[k], retentionMs);
      BackedLonger(s.executions, t.executions, k, t.accepted[k], retentionMs);
    }
  }

  lemma CallOwns(s: State, a: Action, now: int, clock: int, retentionMs: int)
    requires Consistent(s, clock, retentionMs)
    ensures Owned(Call(s, a, now).0)
  {
    hide Call, ActiveOwned, TailsOwned;
    CallOwnsActive(s, a, now);
    CallOwnsTails(s, a, now);
  }

  lemma CallOwnsActive(s: State, a: Action, now: int)
    requires ActiveOwned(s)
    ensures ActiveOwned(Call(s, a, now).0)
  {
    hide Prune;
  }

  lemma CallOwnsTails(s: State, a: Action, now: int)
    requires TailsOwned(s)
    ensures TailsOwned(Call(s, a, now).0)
  {
    hide Prune, ActionKey;
  }

  lemma BackedLonger(xs: seq<Execution>, ys: seq<Execution>, key: string, a: Accepted, retentionMs: int)
    requires Backed(xs, key, a, retentionMs) && xs <= ys
    ensures Backed(ys, key, a, retentionMs)
  {
  }

  /** A new execution starts only after every earlier one of its key settled and expired. */
  lemma StartIsInOrder(s: State, a: Action, now: int, clock: int, retentionMs: int)
    requires Consistent(s, clock, retentionMs) && clock <= now && Call(s, a, now).1.Started?
    ensures AllInOrder(Call(s, a, now).0.executions, retentionMs)
  {
    var t := Call(s, a, now).0;
    var n := |s.executions|;
    hide ActionKey, Backed, Owned;
    forall i | 0 <= i < n ensures InOrder(t.executions[i], t.executions[n], retentionMs) {
      assert Tracked(s, i, clock, retentionMs);
    }
  }

  lemma SettlingIsConsistent(s: State, ev: Event, clock: int, retentionMs: int)
    requires Consistent(s, clock, retentionMs) && !ev.CallEvent?
    requires ev.ResolveEvent? ==> clock <= ev.now
    ensures Consistent(Step(s, ev, retentionMs), if ev.ResolveEvent? then ev.now else clock, retentionMs)
  {
    var t := Step(s, ev, retentionMs);
    var later := if ev.ResolveEvent? then ev.now else clock;
    SettlingTracks(s, ev, clock, retentionMs);
    SettlingKeepsOrder(s, ev, clock, retentionMs);
    SettlingBacks(s, ev, clock, retentionMs);
    SettlingOwns(s, ev, clock, retentionMs);
    hide Step, Tracked, AllInOrder, Backed, Owned;
  }

  lemma SettlingTracks(s: State, ev: Event, clock: int, retentionMs: int)
    requires Consistent(s, clock, retentionMs) && !ev.CallEvent? && (ev.ResolveEvent? ==> clock <= ev.now)
    ensures var t := Step(s, ev, retentionMs);
            var later := if ev.ResolveEvent? then ev.now else clock;
            forall i :: 0 <= i < |t.executions| ==> Tracked(t, i, later, retentionMs)
  {
    var t := Step(s, ev, retentionMs);
    var later := if ev.ResolveEvent? then ev.now else clock;
    hide Step, Tracked, ActionKey, Backed, AllInOrder, Owned;
    forall i | 0 <= i < |t.executions| ensures Tracked(t, i, later, retentionMs) {
      assert |t.executions| == |s.executions| by { SettlingStartsNothing(s, ev, retentionMs); }
      assert Tracked(s, i, clock, retentionMs);
      SettlingTracksOne(s, ev, i, clock, retentionMs);
    }
  }

  lemma SettlingStartsNothing(s: State, ev: Event, retentionMs: int)
    requires !ev.CallEvent?
    ensures |Step(s, ev, retentionMs).executions| == |s.executions|
  {
  }

  lemma SettlingTracksOne(s: State, ev: Event, i: nat, clock: int, retentionMs: int)
    requires !ev.CallEvent? && (ev.ResolveEvent? ==> clock <= ev.now) &&
             i < |s.executions| == |Step(s, ev, retentionMs).executions|
    requires Tracked(s, i, clock, retentionMs)
    requires ev.execution < |s.executions| ==> Tracked(s, ev.execution, clock, retentionMs)
    ensures Tracked(Step(s, ev, retentionMs), i, if ev.ResolveEvent? then ev.now else clock, retentionMs)
  {
    hide ActionKey;
  }

  lemma SettlingKeepsOrder(s: State, ev: Event, clock: int, retentionMs: int)
    requires Consistent(s, clock, retentionMs) && !ev.CallEvent?
    ensures AllInOrder(Step(s, ev, retentionMs).executions, retentionMs)
  {
  }

  lemma SettlingBacks(s: State, ev: Event, clock: int, retentionMs: int)
    requires Consistent(s, clock, retentionMs) && !ev.CallEvent?
    ensures var t := Step(s, ev, retentionMs);
            forall k :: k in t.accepted ==> Backed(t.executions, k, t.accepted[k], retentionMs)
  {
    var t := Step(s, ev, retentionMs);
    hide ActionKey, Owned, Tracked, AllInOrder, Backed, Step, Remembers;
    forall k | k in t.accepted ensures Backed(t.executions, k, t.accepted[k], retentionMs) {
      if k in s.accepted && t.accepted[k] == s.accepted[k] {
        StillBacked(s, ev, k, retentionMs);
      } else {
        NewlyBacked(s, ev, k, retentionMs);
      }
    }
  }

  lemma StillBacked(s: State, ev: Event, k: string, retentionMs: int)
    requires !ev.CallEvent? && k in s.accepted && Backed(s.executions, k, s.accepted[k], retentionMs)
    ensures Backed(Step(s, ev, retentionMs).executions, k, s.accepted[k], retentionMs)
  {
    hide ActionKey;
    var t := Step(s, ev, retentionMs);
    var i :| 0 <= i < |s.executions| && Remembers(s.executions[i], k, s.accepted[k], retentionMs);
    assert Remembers(t.executions[i], k, s.accepted[k], retentionMs);
  }

  lemma NewlyBacked(s: State, ev: Event, k: string, retentionMs: int)
    requires !ev.CallEvent? && k in Step(s, ev, retentionMs).accepted
    requires k !in s.accepted || Step(s, ev, retentionMs).accepted[k] != s.accepted[k]
    ensures var t := Step(s, ev, retentionMs); Backed(t.executions, k, t.accepted[k], retentionMs)
  {
    hide ActionKey;
    var t := Step(s, ev, retentionMs);
    assert Remembers(t.executions[ev.execution], k, t.accepted[k], retentionMs);
  }

  lemma SettlingOwns(s: State, ev: Event, clock: int, retentionMs: int)
    requires Consistent(s, clock, retentionMs) && !ev.CallEvent?
    ensures Owned(Step(s, ev, retentionMs))
  {
    hide Step, ActiveOwned, TailsOwned, Tracked;
    SettlingOwnsActive(s, ev, clock, retentionMs);
    SettlingOwnsTails(s, ev, clock, retentionMs);
  }

  lemma SettlingOwnsActive(s: State, ev: Event, clock: int, retentionMs: int)
    requires ActiveOwned(s) && !ev.CallEvent?
    requires ev.execution < |s.executions| ==> Tracked(s, ev.execution, clock, retentionMs)
    ensures ActiveOwned(Step(s, ev, retentionMs))
  {
    hide ActionKey;
  }

  lemma SettlingOwnsTails(s: State, ev: Event, clock: int, retentionMs: int)
    requires TailsOwned(s) && !ev.CallEvent?
    requires ev.execution < |s.executions| ==> Tracked(s, ev.execution, clock, retentionMs)
    ensures TailsOwned(Step(s, ev, retentionMs))
  {
    hide ActionKey;
  }

  lemma {:induction false} CoordinatorIsConsistent(events: seq<Event>, start: int, retentionMs: int)
    requires Monotone(events, start)
    ensures Consistent(After(events, retentionMs), Clock(events, start), retentionMs)
    decreases |events|
  {
    if events != [] {
      var prior, ev := events[..|events| - 1], events[|events| - 1];
      CoordinatorIsConsistent(prior, start, retentionMs);
      hide Consistent;
      if ev.CallEvent? {
        CallIsConsistent(After(prior, retentionMs), ev.action, ev.now, Clock(prior, start), retentionMs);
      } else {
        SettlingIsConsistent(After(prior, retentionMs), ev, Clock(prior, start), retentionMs);
      }
    }
  }

  /** A session never has two chat or tool runs in flight. */
  lemma OneRunPerSession(events: seq<Event>, start: int, retentionMs: int, i: nat, j: nat)
    requires Monotone(events, start)
    requires var xs := After(events, retentionMs).executions;
             i < |xs| && j < |xs| && xs[i].status == Running && xs[j].status == Running &&
             xs[i].action.admission && xs[j].action.admission && xs[i].action.sessionId == xs[j].action.sessionId
    ensures i == j
  {
    CoordinatorIsConsistent(events, start, retentionMs);
    var s := After(events, retentionMs);
    assert Tracked(s, i, Clock(events, start), retentionMs) && Tracked(s, j, Clock(events, start), retentionMs);
  }

  /** Successful executions of one key are at least the retention window apart. */
  lemma SuccessesAreRetentionApart(events: seq<Event>, start: int, retentionMs: int, i: nat, j: nat)
    requires Monotone(events, start)
    requires var xs := After(events, retentionMs).executions;
             i < j < |xs| && xs[i].status.Succeeded? && xs[j].status.Succeeded? &&
             ActionKey(xs[i].action) == ActionKey(xs[j].action)
    ensures var xs := After(events, retentionMs).executions;
            xs[i].status.at + retentionMs <= xs[j].startedAt <= xs[j].status.at
  {
    CoordinatorIsConsistent(events, start, retentionMs);
    hide After;
    var s := After(events, retentionMs);
    assert InOrder(s.executions[i], s.executions[j], retentionMs) && Tracked(s, j, Clock(events, start), retentionMs);
  }

  /** A caller answered as a duplicate gets the result of an execution of its own action: one that
      has succeeded within the retention window, or the one in flight that it waits for. The only
      other source is a session whose id can be confused with the caller's. */
  lemma DuplicatesAreHonest(events: seq<Event>, start: int, retentionMs: int, a: Action, now: int)
    requires Monotone(events, start) && Clock(events, start) <= now
    ensures var xs := After(events, retentionMs).executions;
            match Call(After(events, retentionMs), a, now).1
            case Duplicate(result) =>
              exists i :: 0 <= i < |xs| && (SameAction(xs[i].action, a) || Crossed(xs[i].action, a)) &&
                xs[i].status.Succeeded? && xs[i].status.result == result && now < xs[i].status.at + retentionMs
            case Joined(e) => e < |xs| && (SameAction(xs[e].action, a) || Crossed(xs[e].action, a)) &&
                xs[e].activePending
            case Busy(owner) =>
              a.admission &&
              exists i :: 0 <= i < |xs| && HoldsSession(xs[i], a.sessionId) && xs[i].action.actionId == owner
            case Started(e) => e == |xs|
  {
    CoordinatorIsConsistent(events, start, retentionMs);
    hide After, ActionKey, SameAction, Crossed;
    var s := After(events, retentionMs);
    assert Owned(s);
    var key := ActionKey(a);
    var answer := Call(s, a, now).1;
    if answer.Duplicate? {
      assert Backed(s.executions, key, s.accepted[key], retentionMs);
      var i :| 0 <= i < |s.executions| && Remembers(s.executions[i], key, s.accepted[key], retentionMs);
      KeyNamesTheAction(s.executions[i].action, a);
    } else if answer.Joined? {
      assert Awaited(s.executions[s.active[key]], key);
      KeyNamesTheAction(s.executions[s.active[key]].action, a);
    } else if answer.Busy? {
      assert HoldsSession(s.executions[s.tails[a.sessionId]], a.sessionId);
    }
  }

  // ---------------------------------------------------------------- the key

  predicate SameAction(a: Action, b: Action) {
    a.sessionId == b.sessionId && a.actionId == b.actionId
  }

  /** One session id continues the other behind a ':'. */
  predicate Confusable(s: string, t: string) {
    s + ":" <= t || t + ":" <= s
  }

  predicate Crossed(a: Action, b: Action) {
    a.sessionId != b.sessionId && Confusable(a.sessionId, b.sessionId)
  }

  lemma ShorterSession(a: Action, b: Action)
    requires ActionKey(a) == ActionKey(b) && |a.sessionId| < |b.sessionId|
    ensures a.sessionId + ":" <= b.sessionId
  {
    var m := |a.sessionId|;
    assert (a.sessionId + ":")[..m + 1] == ActionKey(a)[..m + 1] == ActionKey(b)[..m + 1] == b.sessionId[..m + 1];
  }

  lemma KeyNamesTheAction(a: Action, b: Action)
    requires ActionKey(a) == ActionKey(b)
    ensures SameAction(a, b) || Crossed(a, b)
  {
    var m, n := |a.sessionId|, |b.sessionId|;
    if m < n {
      ShorterSession(a, b);
    } else if n < m {
      ShorterSession(b, a);
    } else {
      assert a.sessionId == ActionKey(a)[..m] == ActionKey(b)[..m] == b.sessionId;
      assert a.actionId == ActionKey(a)[m + 1..] == ActionKey(b)[m + 1..] == b.actionId;
    }
  }

  lemma ConfusableShareAKey(s: string, t: string) returns (a: Action, b: Action)
    requires Confusable(s, t)
    ensures a.sessionId == s && b.sessionId == t && ActionKey(a) == ActionKey(b)
  {
    if s + ":" <= t {
      a, b := Action(s, t[|s| + 1..] + ":", false), Action(t, "", false);
      assert t == s + ":" + t[|s| + 1..];
    } else {
      a, b := Action(s, "", false), Action(t, s[|t| + 1..] + ":", false);
      assert s == t + ":" + s[|t| + 1..];
    }
  }

  /** Actions of two different sessions share a key exactly when one session id continues the other
      behind a ':'. */
  lemma SessionsShareAKey(s: string, t: string)
    requires s != t
    ensures (exists a: Action, b: Action :: a.sessionId == s && b.sessionId == t && ActionKey(a) == ActionKey(b))
            <==> Confusable(s, t)
  {
    if Confusable(s, t) {
      var a, b := ConfusableShareAKey(s, t);
    }
    forall a: Action, b: Action | a.sessionId == s && b.sessionId == t && ActionKey(a) == ActionKey(b)
      ensures Confusable(s, t)
    {
      KeyNamesTheAction(a, b);
    }
  }

  lemma ColonInside(s: string, t: string)
    requires s + ":" <= t
    ensures ':' in t
  {
    assert t[|s|] == ':';
  }

  /** Execution i is of an action that some event calls. */
  lemma {:induction false} ExecutionsAreCalled(events: seq<Event>, retentionMs: int, i: nat)
    requires i < |After(events, retentionMs).executions|
    ensures var x := After(events, retentionMs).executions[i]; CallEvent(x.action, x.startedAt) in events
    decreases |events|
  {
    if events != [] {
      var prior, ev := events[..|events| - 1], events[|events| - 1];
      StepKeepsActions(After(prior, retentionMs), ev, retentionMs);
      hide Step;
      if i < |After(prior, retentionMs).executions| {
        ExecutionsAreCalled(prior, retentionMs, i);
      }
    }
  }

  lemma StepKeepsActions(s: State, ev: Event, retentionMs: int)
    ensures var xs, ys := s.executions, Step(s, ev, retentionMs).executions;
            |xs| <= |ys| &&
            (forall i :: 0 <= i < |xs| ==> ys[i].action == xs[i].action && ys[i].startedAt == xs[i].startedAt) &&
            forall i :: |xs| <= i < |ys| ==> ev == CallEvent(ys[i].action, ys[i].startedAt)
  {
    hide Prune, ActionKey;
  }

  /** No other session of the run is confusable with this one. */
  ghost predicate IsDistinct(sessionId: string, events: seq<Event>) {
    forall ev :: ev in events && ev.CallEvent? && ev.action.sessionId != sessionId ==>
      !Confusable(ev.action.sessionId, sessionId)
  }

  /** If no other session of the run is confusable with the caller's, a duplicate is answered with its
      own session's result of its own action, or waits for it. */
  lemma DuplicatesAreOwn(events: seq<Event>, start: int, retentionMs: int, a: Action, now: int)
    requires Monotone(events, start) && Clock(events, start) <= now && IsDistinct(a.sessionId, events)
    ensures var xs := After(events, retentionMs).executions;
            match Call(After(events, retentionMs), a, now).1
            case Duplicate(result) =>
              exists i :: 0 <= i < |xs| && SameAction(xs[i].action, a) && xs[i].status.Succeeded? &&
                xs[i].status.result == result && now < xs[i].status.at + retentionMs
            case Joined(e) => e < |xs| && SameAction(xs[e].action, a) && xs[e].activePending
            case _ => true
  {
    hide After, Call, SameAction, Clock, Monotone;
    DuplicatesAreHonest(events, start, retentionMs, a, now);
    forall i | 0 <= i < |After(events, retentionMs).executions|
      ensures !Crossed(After(events, retentionMs).executions[i].action, a)
    {
      ExecutionsAreCalled(events, retentionMs, i);
    }
  }

  /** Session ids free of colons are never confused. */
  lemma PlainSessionsAreDistinct(sessionId: string, events: seq<Event>)
    requires ':' !in sessionId
    requires forall ev :: ev in events && ev.CallEvent? ==> ':' !in ev.action.sessionId
    ensures IsDistinct(sessionId, events)
  {
    forall ev | ev in events && ev.CallEvent? ensures !Confusable(ev.action.sessionId, sessionId) {
      if ev.action.sessionId + ":" <= sessionId {
        ColonInside(ev.action.sessionId, sessionId);
      }
      if sessionId + ":" <= ev.action.sessionId {
        ColonInside(sessionId, ev.action.sessionId);
      }
    }
  }

  /** Two different confusable sessions do cross: an action of the one is answered with the result
      of an action of the other. */
  lemma ConfusableSessionsCross(s: string, t: string, result: string, now: int, retentionMs: int)
    returns (a: Action, b: Action)
    requires Confusable(s, t) && retentionMs > 0
    ensures a.sessionId == s && b.sessionId == t
    ensures Call(After([CallEvent(a, now), ResolveEvent(0, result, now)], retentionMs), b, now).1 == Duplicate(result)
  {
    a, b := ConfusableShareAKey(s, t);
    hide ActionKey;
    var events := [CallEvent(a, now), ResolveEvent(0, result, now)];
    assert events[..1] == [events[0]] && [events[0]][..0] == [];
    assert After([], retentionMs) == Empty;
    var first := Call(Empty, a, now).0;
    assert After([events[0]], retentionMs) == first;
    assert first.executions == [Execution(a, now, Running, a.admission, true)];
    var second := Resolve(first, 0, result, now, retentionMs);
    assert After(events, retentionMs) == second;
    assert second.accepted[ActionKey(a)] == Accepted(now + retentionMs, result);
  }

  // ---------------------------------------------------------------- exact answers

  /** The execution has succeeded for this key within the retention window. */
  predicate StillRemembered(x: Execution, key: string, now: int, retentionMs: int) {
    ActionKey(x.action) == key && x.status.Succeeded? && now < x.status.at + retentionMs
  }

  ghost predicate AnyRemembered(xs: seq<Execution>, key: string, now: int, retentionMs: int) {
    exists i :: 0 <= i < |xs| && StillRemembered(xs[i], key, now, retentionMs)
  }

  lemma RememberedIsAccepted(s: State, clock: int, now: int, key: string, retentionMs: int)
    requires Consistent(s, clock, retentionMs) && clock <= now
    ensures key in Prune(s.accepted, now) <==> AnyRemembered(s.executions, key, now, retentionMs)
    ensures forall i :: 0 <= i < |s.executions| && StillRemembered(s.executions[i], key, now, retentionMs) ==>
              key in s.accepted && s.accepted[key].result == s.executions[i].status.result
  {
    hide Owned, ActionKey;
    forall i | 0 <= i < |s.executions| && StillRemembered(s.executions[i], key, now, retentionMs)
      ensures key in s.accepted && s.accepted[key].expiresAt > now &&
              s.accepted[key].result == s.executions[i].status.result
    {
      AcceptedIsLatest(s, clock, now, key, retentionMs, i);
    }
    if key in Prune(s.accepted, now) {
      assert Backed(s.executions, key, s.accepted[key], retentionMs);
      var i :| 0 <= i < |s.executions| && Remembers(s.executions[i], key, s.accepted[key], retentionMs);
      assert StillRemembered(s.executions[i], key, now, retentionMs);
    }
  }

  lemma AcceptedIsLatest(s: State, clock: int, now: int, key: string, retentionMs: int, i: nat)
    requires Consistent(s, clock, retentionMs) && clock <= now
    requires i < |s.executions| && StillRemembered(s.executions[i], key, now, retentionMs)
    ensures key in s.accepted && s.accepted[key].expiresAt > now &&
            s.accepted[key].result == s.executions[i].status.result
  {
    hide Owned, ActionKey;
    assert Tracked(s, i, clock, retentionMs);
    assert Backed(s.executions, key, s.accepted[key], retentionMs);
    var j :| 0 <= j < |s.executions| && Remembers(s.executions[j], key, s.accepted[key], retentionMs);
    assert Tracked(s, j, clock, retentionMs);
    assert i < j ==> InOrder(s.executions[i], s.executions[j], retentionMs);
    assert j < i ==> InOrder(s.executions[j], s.executions[i], retentionMs);
  }

  lemma ActiveIsAwaited(s: State, clock: int, key: string, retentionMs: int, e: nat)
    requires Consistent(s, clock, retentionMs)
    ensures key in s.active && s.active[key] == e <==> e < |s.executions| && Awaited(s.executions[e], key)
  {
    hide Backed, AllInOrder, TailsOwned, ActionKey;
    if e < |s.executions| {
      assert Tracked(s, e, clock, retentionMs);
    }
  }

  lemma TailHoldsSession(s: State, clock: int, sessionId: string, retentionMs: int, e: nat)
    requires Consistent(s, clock, retentionMs)
    ensures sessionId in s.tails && s.tails[sessionId] == e
            <==> e < |s.executions| && HoldsSession(s.executions[e], sessionId)
  {
    hide Backed, AllInOrder, ActiveOwned, ActionKey;
    if e < |s.executions| {
      assert Tracked(s, e, clock, retentionMs);
    }
  }

  /** Over every history the answer is decided by the executions, in this order: a remembered success of
      the key, its execution still awaited, an admitted execution that still holds the session. Only
      where there is none of these a new execution starts, and then it does. */
  lemma AnswersAreExact(events: seq<Event>, start: int, retentionMs: int, a: Action, now: int)
    requires Monotone(events, start) && Clock(events, start) <= now
    ensures var xs, key := After(events, retentionMs).executions, ActionKey(a);
            var answer := Call(After(events, retentionMs), a, now).1;
            (forall i :: 0 <= i < |xs| && StillRemembered(xs[i], key, now, retentionMs) ==>
             answer == Duplicate(xs[i].status.result)) &&
            (!AnyRemembered(xs, key, now, retentionMs) ==>
             (forall e :: 0 <= e < |xs| && Awaited(xs[e], key) ==> answer == Joined(e)) &&
             ((forall e :: 0 <= e < |xs| ==> !Awaited(xs[e], key)) ==>
              (forall e :: 0 <= e < |xs| && HoldsSession(xs[e], a.sessionId) && a.admission ==>
               answer == Busy(xs[e].action.actionId)) &&
              ((forall e :: 0 <= e < |xs| && a.admission ==> !HoldsSession(xs[e], a.sessionId)) ==>
               answer == Started(|xs|))))
  {
    CoordinatorIsConsistent(events, start, retentionMs);
    var s, key := After(events, retentionMs), ActionKey(a);
    var clock := Clock(events, start);
    hide After, Consistent, ActionKey, AnyRemembered, Awaited, HoldsSession, StillRemembered, Clock, Monotone;
    RememberedIsAccepted(s, clock, now, key, retentionMs);
    assert forall i :: 0 <= i < |s.executions| && StillRemembered(s.executions[i], key, now, retentionMs) ==>
        AnyRemembered(s.executions, key, now, retentionMs) by { AnyOfOne(s.executions, key, now, retentionMs); }
    forall e: nat ensures key in s.active && s.active[key] == e
        <==> e < |s.executions| && Awaited(s.executions[e], key) {
      ActiveIsAwaited(s, clock, key, retentionMs, e);
    }
    forall e: nat ensures a.sessionId in s.tails && s.tails[a.sessionId] == e <==>
                          e < |s.executions| && HoldsSession(s.executions[e], a.sessionId)
    {
      TailHoldsSession(s, clock, a.sessionId, retentionMs, e);
    }
  }

  lemma AnyOfOne(xs: seq<Execution>, key: string, now: int, retentionMs: int)
    ensures forall i :: 0 <= i < |xs| && StillRemembered(xs[i], key, now, retentionMs) ==>
              AnyRemembered(xs, key, now, retentionMs)
  {
  }

  // ---------------------------------------------------------------- what the events did to an execution

  /** Event j ends the handler of execution e. */
  ghost predicate Settles(events: seq<Event>, j: int, e: nat, retentionMs: int) {
    && 0 <= j < |events| && (events[j].ResolveEvent? || events[j].RejectEvent?) && events[j].execution == e
    && e < |After(events[..j], retentionMs).executions|
  }

  ghost predicate HasSettled(events: seq<Event>, e: nat, retentionMs: int) {
    exists j :: Settles(events, j, e, retentionMs)
  }

  /** Event j is this clean-up of execution e, after its handler ended. */
  ghost predicate CleansUp(events: seq<Event>, j: int, cleanUp: Event, retentionMs: int)
    requires cleanUp.ClearTailEvent? || cleanUp.ClearActiveEvent?
  {
    0 <= j < |events| && events[j] == cleanUp && HasSettled(events[..j], cleanUp.execution, retentionMs)
  }

  ghost predicate IsCleanedUp(events: seq<Event>, cleanUp: Event, retentionMs: int)
    requires cleanUp.ClearTailEvent? || cleanUp.ClearActiveEvent?
  {
    exists j :: CleansUp(events, j, cleanUp, retentionMs)
  }

  lemma SettledStep(events: seq<Event>, e: nat, retentionMs: int)
    requires events != []
    ensures var prior, ev := events[..|events| - 1], events[|events| - 1];
            HasSettled(events, e, retentionMs)
            <==> HasSettled(prior, e, retentionMs) ||
                 ((ev.ResolveEvent? || ev.RejectEvent?) && ev.execution == e &&
                  e < |After(prior, retentionMs).executions|)
  {
    hide After;
    var last := |events| - 1;
    var prior := events[..last];
    forall j | 0 <= j < last ensures Settles(events, j, e, retentionMs) <==> Settles(prior, j, e, retentionMs) {
      assert prior[..j] == events[..j];
    }
    assert Settles(events, last, e, retentionMs)
      <==> (events[last].ResolveEvent? || events[last].RejectEvent?) && events[last].execution == e &&
           e < |After(prior, retentionMs).executions|;
    assert HasSettled(prior, e, retentionMs) ==> exists j :: 0 <= j < last && Settles(prior, j, e, retentionMs);
  }

  lemma CleanedUpStep(events: seq<Event>, cleanUp: Event, retentionMs: int)
    requires events != [] && (cleanUp.ClearTailEvent? || cleanUp.ClearActiveEvent?)
    ensures var prior, ev := events[..|events| - 1], events[|events| - 1];
            IsCleanedUp(events, cleanUp, retentionMs)
            <==> IsCleanedUp(prior, cleanUp, retentionMs) ||
                 (ev == cleanUp && HasSettled(prior, cleanUp.execution, retentionMs))
  {
    hide HasSettled;
    var last := |events| - 1;
    var prior := events[..last];
    forall j | 0 <= j < last
      ensures CleansUp(events, j, cleanUp, retentionMs) <==> CleansUp(prior, j, cleanUp, retentionMs)
    {
      assert prior[..j] == events[..j];
    }
    assert CleansUp(events, last, cleanUp, retentionMs)
      <==> events[last] == cleanUp && HasSettled(prior, cleanUp.execution, retentionMs);
    assert IsCleanedUp(prior, cleanUp, retentionMs) ==>
        exists j :: 0 <= j < last && CleansUp(prior, j, cleanUp, retentionMs);
  }

  /** An execution runs until an event ends its handler, is awaited until the caller's clean-up, and holds
      its session, if it was admitted for it, until the clean-up of the session; no longer. */
  ghost predicate FollowsEvents(x: Execution, events: seq<Event>, e: nat, retentionMs: int) {
    && (x.status == Running <==> !HasSettled(events, e, retentionMs))
    && (x.activePending <==> !IsCleanedUp(events, ClearActiveEvent(e), retentionMs))
    && (x.tailPending <==> x.action.admission && !IsCleanedUp(events, ClearTailEvent(e), retentionMs))
  }

  lemma NothingBeforeStart(events: seq<Event>, e: nat, retentionMs: int)
    requires |After(events, retentionMs).executions| <= e
    ensures !HasSettled(events, e, retentionMs) && !IsCleanedUp(events, ClearActiveEvent(e), retentionMs) &&
            !IsCleanedUp(events, ClearTailEvent(e), retentionMs)
    decreases |events|
  {
    if events != [] {
      var prior, ev := events[..|events| - 1], events[|events| - 1];
      StepKeepsActions(After(prior, retentionMs), ev, retentionMs);
      NothingBeforeStart(prior, e, retentionMs);
      SettledStep(events, e, retentionMs);
      CleanedUpStep(events, ClearActiveEvent(e), retentionMs);
      CleanedUpStep(events, ClearTailEvent(e), retentionMs);
      hide Step, HasSettled, IsCleanedUp;
    }
  }

  lemma StepOnExecution(s: State, ev: Event, retentionMs: int, e: nat)
    requires e < |s.executions|
    ensures var x, t := s.executions[e], Step(s, ev, retentionMs);
            e < |t.executions| &&
            var y := t.executions[e];
            y.action == x.action &&
            (y.status == Running <==>
             x.status == Running && !((ev.ResolveEvent? || ev.RejectEvent?) && ev.execution == e)) &&
            (y.activePending <==> x.activePending && !(ev == ClearActiveEvent(e) && x.status != Running)) &&
            (y.tailPending <==> x.tailPending && !(ev == ClearTailEvent(e) && x.status != Running))
  {
    hide Prune, ActionKey;
  }

  lemma StepStarts(s: State, ev: Event, retentionMs: int, e: nat)
    requires e == |s.executions| < |Step(s, ev, retentionMs).executions|
    ensures var y := Step(s, ev, retentionMs).executions[e];
            ev.CallEvent? && y.status == Running && y.activePending && (y.tailPending <==> y.action.admission)
  {
    hide Prune, ActionKey;
  }

  /** Over every history: a session and an action are free again exactly when their clean-ups have run
      after the end of the handler. */
  lemma {:induction false} FreeAfterCleanUp(events: seq<Event>, retentionMs: int, e: nat)
    requires e < |After(events, retentionMs).executions|
    ensures FollowsEvents(After(events, retentionMs).executions[e], events, e, retentionMs)
    decreases |events|
  {
    var prior, ev := events[..|events| - 1], events[|events| - 1];
    var s := After(prior, retentionMs);
    hide Step, HasSettled, IsCleanedUp;
    SettledStep(events, e, retentionMs);
    CleanedUpStep(events, ClearActiveEvent(e), retentionMs);
    CleanedUpStep(events, ClearTailEvent(e), retentionMs);
    if e < |s.executions| {
      FreeAfterCleanUp(prior, retentionMs, e);
      StepOnExecution(s, ev, retentionMs, e);
    } else {
      NothingBeforeStart(prior, e, retentionMs);
      StepStarts(s, ev, retentionMs, e);
    }
  }

  /** A success carries the result and the time of the event that ended the handler. */
  predicate EndsAs(status: Status, events: seq<Event>, e: nat) {
    match status
    case Running => true
    case Succeeded(result, at) => ResolveEvent(e, result, at) in events
    case Failed => RejectEvent(e) in events
  }

  lemma StepEnds(s: State, ev: Event, retentionMs: int, e: nat, events: seq<Event>)
    requires e < |Step(s, ev, retentionMs).executions|
    requires e < |s.executions| ==> EndsAs(s.executions[e].status, events, e)
    ensures EndsAs(Step(s, ev, retentionMs).executions[e].status, events + [ev], e)
  {
    hide Prune, ActionKey;
  }

  lemma {:induction false} EndsAreHonest(events: seq<Event>, retentionMs: int, e: nat)
    requires e < |After(events, retentionMs).executions|
    ensures EndsAs(After(events, retentionMs).executions[e].status, events, e)
    decreases |events|
  {
    hide Step, EndsAs;
    var prior, ev := events[..|events| - 1], events[|events| - 1];
    if e < |After(prior, retentionMs).executions| {
      EndsAreHonest(prior, retentionMs, e);
    }
    assert prior + [ev] == events;
    StepEnds(After(prior, retentionMs), ev, retentionMs, e, prior);
  }
}
