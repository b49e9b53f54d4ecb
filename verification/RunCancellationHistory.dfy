// Every run of the registry: what a Stop does to the run it names, whichever of the two
// comes first, and what the bounded memory of early Stops keeps.
module RunCancellationHistory {
  import opened Options
  import opened RunCancellation

  datatype Event =
    | StartRun(sessionId: string, actionId: string, now: int)
    | FinishRun(handle: nat)
    | SetApply(handle: nat)
    | CancelRun(sessionId: string, actionId: string, now: int, later: int)

  function Step(s: State, e: Event, c: Config): State {
    match e
    case StartRun(sessionId, actionId, now) => Start(s, sessionId, actionId, now).0
    case FinishRun(h) => if h < |s.records| then Finish(s, h) else s
    case SetApply(h) => if h < |s.records| then SetApplyCancel(s, h) else s
    case CancelRun(sessionId, actionId, now, later) => Cancel(s, sessionId, actionId, now, later, c).0
  }

  function After(events: seq<Event>, c: Config): State {
    if events == [] then Empty
    else Step(After(events[..|events| - 1], c), events[|events| - 1], c)
  }

  /** The state in front of the i-th event. */
  function Before(events: seq<Event>, c: Config, i: nat): State
    requires i <= |events|
  {
    After(events[..i], c)
  }

  lemma PrefixOfPrefix(events: seq<Event>, c: Config)
    requires events != []
    ensures forall i :: 0 <= i < |events| ==> Before(events[..|events| - 1], c, i) == Before(events, c, i)
    ensures Before(events, c, |events| - 1) == After(events[..|events| - 1], c)
  {
    forall i | 0 <= i < |events| ensures events[..|events| - 1][..i] == events[..i] {
    }
  }

  // ---------------------------------------------------------------- one Stop, one cancellation

  /** Event i is a Stop that names run h while h is registered. */
  ghost predicate StopsAt(events: seq<Event>, c: Config, h: nat, i: nat)
    requires i < |events|
  {
    events[i].CancelRun? && Target(Before(events, c, i), events[i].sessionId, events[i].actionId) == Some(h)
  }

  /** Event i admits run h and finds a Stop for it remembered. */
  ghost predicate StartsStoppedAt(events: seq<Event>, c: Config, h: nat, i: nat)
    requires i < |events|
  {
    events[i].StartRun? &&
    Start(Before(events, c, i), events[i].sessionId, events[i].actionId, events[i].now).1 == Some(h) &&
    HasKey(Prune(Before(events, c, i).early, events[i].now), events[i].sessionId, events[i].actionId)
  }

  ghost predicate WasStopped(events: seq<Event>, c: Config, h: nat) {
    exists i :: 0 <= i < |events| && (StopsAt(events, c, h, i) || StartsStoppedAt(events, c, h, i))
  }

  /** A handle is used only after the start that returned it. */
  ghost predicate HandlesExist(events: seq<Event>, c: Config) {
    forall i :: 0 <= i < |events| && (events[i].SetApply? || events[i].FinishRun?) ==>
      events[i].handle < |Before(events, c, i).records|
  }

  function SetCalls(events: seq<Event>, h: nat): nat {
    if events == [] then 0
    else SetCalls(events[..|events| - 1], h) + if events[|events| - 1] == SetApply(h) then 1 else 0
  }

  ghost predicate Distinct(early: seq<EarlyCancel>) {
    forall i, j :: 0 <= i < j < |early| ==> !Names(early[j], early[i].sessionId, early[i].actionId)
  }

  lemma {:induction false} FiltersKeepMembers(early: seq<EarlyCancel>, now: int, sessionId: string, actionId: string)
    ensures forall x :: x in Prune(early, now) <==> x in early && x.expiresAt > now
    ensures forall x :: x in Without(early, sessionId, actionId) <==> x in early && !Names(x, sessionId, actionId)
    decreases |early|
  {
    if early != [] {
      FiltersKeepMembers(early[1..], now, sessionId, actionId);
    }
  }

  lemma DistinctFirst(early: seq<EarlyCancel>)
    requires early != []
    ensures Distinct(early) <==>
              Distinct(early[1..]) && forall x :: x in early[1..] ==> !Names(x, early[0].sessionId, early[0].actionId)
  {
    var x, rest := early[0], early[1..];
    assert forall i :: 0 <= i < |rest| ==> rest[i] == early[i + 1];
    assert forall i :: 0 < i < |early| ==> early[i] == rest[i - 1];
    if Distinct(early) {
      forall y | y in rest ensures !Names(y, x.sessionId, x.actionId) {
        var j :| 0 <= j < |rest| && rest[j] == y;
        assert early[j + 1] == y;
      }
    }
    if Distinct(rest) && forall y :: y in rest ==> !Names(y, x.sessionId, x.actionId) {
      forall i, j | 0 <= i < j < |early| ensures !Names(early[j], early[i].sessionId, early[i].actionId) {
        assert early[j] == rest[j - 1] && rest[j - 1] in rest;
      }
    }
  }

  lemma {:induction false} FiltersKeepDistinct(early: seq<EarlyCancel>, now: int, sessionId: string, actionId: string)
    requires Distinct(early)
    ensures Distinct(Prune(early, now)) && Distinct(Without(early, sessionId, actionId))
    decreases |early|
  {
    hide Distinct;
    if early != [] {
      var x, rest := early[0], early[1..];
      DistinctFirst(early);
      FiltersKeepDistinct(rest, now, sessionId, actionId);
      FiltersKeepMembers(rest, now, sessionId, actionId);
      AddFirst(x, Prune(rest, now));
      AddFirst(x, Without(rest, sessionId, actionId));
    }
  }

  lemma AddFirst(x: EarlyCancel, rest: seq<EarlyCancel>)
    requires Distinct(rest) && forall y :: y in rest ==> !Names(y, x.sessionId, x.actionId)
    ensures Distinct([x] + rest) && Distinct([] + rest)
  {
    assert ([x] + rest)[1..] == rest && [] + rest == rest;
    DistinctFirst([x] + rest);
  }

  lemma NewestKeepsDistinct(early: seq<EarlyCancel>, cap: nat)
    requires Distinct(early)
    ensures Distinct(Newest(early, cap))
  {
  }

  lemma AppendKeepsDistinct(early: seq<EarlyCancel>, x: EarlyCancel)
    requires Distinct(early) && forall y :: y in early ==> !Names(y, x.sessionId, x.actionId)
    ensures Distinct(early + [x])
  {
    assert forall i :: 0 <= i < |early| ==> early[i] in early;
  }

  lemma RememberKeepsDistinct(early: seq<EarlyCancel>, sessionId: string, actionId: string, now: int, later: int,
      c: Config)
    requires Distinct(early)
    ensures Distinct(Remember(early, sessionId, actionId, now, later, c))
  {
    hide Distinct, Prune, Without, Newest;
    FiltersKeepDistinct(early, now, sessionId, actionId);
    FiltersKeepDistinct(Prune(early, now), now, sessionId, actionId);
    FiltersKeepMembers(Prune(early, now), now, sessionId, actionId);
    var kept := Without(Prune(early, now), sessionId, actionId);
    var added := EarlyCancel(sessionId, actionId, later + c.retentionMs);
    AppendKeepsDistinct(kept, added);
    NewestKeepsDistinct(kept + [added], c.maxEarlyCancels);
  }

  /** Every state of the registry: run slots point at their own records, remembered Stops have
      different keys, and only admitted runs were cancelled. */
  ghost predicate Consistent(s: State) {
    && (forall k :: k in s.runs ==> s.runs[k] < |s.records| && s.records[s.runs[k]].sessionId == k)
    && Distinct(s.early)
    && (forall h :: h in s.applied ==> h < |s.records|)
  }

  lemma StepIsConsistent(s: State, e: Event, c: Config)
    requires Consistent(s)
    ensures Consistent(Step(s, e, c))
  {
    hide Distinct, Prune, Without, Remember, HasKey;
    match e {
      case StartRun(sessionId, actionId, now) =>
        FiltersKeepDistinct(s.early, now, sessionId, actionId);
        FiltersKeepDistinct(Prune(s.early, now), now, sessionId, actionId);
      case CancelRun(sessionId, actionId, now, later) =>
        RememberKeepsDistinct(s.early, sessionId, actionId, now, later, c);
      case _ =>
    }
  }

  lemma {:induction false} RegistryIsConsistent(events: seq<Event>, c: Config)
    ensures Consistent(After(events, c))
    decreases |events|
  {
    if events != [] {
      RegistryIsConsistent(events[..|events| - 1], c);
      StepIsConsistent(After(events[..|events| - 1], c), events[|events| - 1], c);
    }
  }

  /** What one event does to an admitted run. */
  lemma OneMoreApplied(applied: seq<nat>, x: nat, h: nat)
    ensures multiset(applied + [x])[h] == multiset(applied)[h] + if x == h then 1 else 0
  {
    assert multiset(applied + [x]) == multiset(applied) + multiset{x};
  }

  /** What an event does to run h: whether it is named by a Stop, and whether its callback is called. */
  ghost predicate OnRun(s: State, t: State, e: Event, h: nat)
    requires h < |s.records|
  {
    var stop := e.CancelRun? && Target(s, e.sessionId, e.actionId) == Some(h);
    var r := s.records[h];
    h < |t.records| &&
    t.records[h] == r.(cancelRequested := r.cancelRequested || stop, canApply := r.canApply || e == SetApply(h)) &&
    multiset(t.applied)[h] == multiset(s.applied)[h] +
      if (e == SetApply(h) && r.cancelRequested) || (stop && !r.cancelRequested && r.canApply) then 1 else 0
  }

  lemma StartOrFinishOnRun(s: State, e: Event, c: Config, h: nat)
    requires Consistent(s) && h < |s.records| && (e.StartRun? || e.FinishRun?)
    ensures OnRun(s, Step(s, e, c), e, h)
  {
    hide Prune, Without, HasKey;
  }

  lemma SetApplyOnRun(s: State, e: Event, c: Config, h: nat)
    requires Consistent(s) && h < |s.records| && e.SetApply?
    ensures OnRun(s, Step(s, e, c), e, h)
  {
    OneMoreApplied(s.applied, e.handle, h);
  }

  lemma CancelOnRun(s: State, e: Event, c: Config, h: nat)
    requires Consistent(s) && h < |s.records| && e.CancelRun?
    ensures OnRun(s, Step(s, e, c), e, h)
  {
    hide Remember;
    var target := Target(s, e.sessionId, e.actionId);
    if target.Some? {
      OneMoreApplied(s.applied, target.value, h);
    }
  }

  lemma StepOnRun(s: State, e: Event, c: Config, h: nat)
    requires Consistent(s) && h < |s.records|
    ensures OnRun(s, Step(s, e, c), e, h)
  {
    hide *;
    match e
    case SetApply(_) => SetApplyOnRun(s, e, c, h);
    case CancelRun(_, _, _, _) => CancelOnRun(s, e, c, h);
    case StartRun(_, _, _) => StartOrFinishOnRun(s, e, c, h);
    case FinishRun(_) => StartOrFinishOnRun(s, e, c, h);
  }

  /** An admitted run starts with nothing applied, stopped only by a remembered Stop. */
  lemma StepAdmits(s: State, e: Event, c: Config)
    requires Consistent(s) && |s.records| < |Step(s, e, c).records|
    ensures var h := |s.records|; var t := Step(s, e, c);
            e.StartRun? && Start(s, e.sessionId, e.actionId, e.now).1 == Some(h) && |t.records| == h + 1 &&
            t.records[h] == RunRecord(e.sessionId, e.actionId, false,
                                      HasKey(Prune(s.early, e.now), e.sessionId, e.actionId)) &&
            t.applied == s.applied && multiset(t.applied)[h] == 0
  {
    hide Prune, Without, HasKey, Remember;
    assert |s.records| !in s.applied;
  }

  /** A run whose callback is set once has it called exactly once if a Stop reached the run, by
      name while registered or from memory at its start, and never otherwise; the order of the
      Stop and of `setApplyCancel` does not matter. */
  lemma {:induction false} CancelledExactlyOnce(events: seq<Event>, c: Config, h: nat)
    requires HandlesExist(events, c) && h < |After(events, c).records| && SetCalls(events, h) <= 1
    ensures After(events, c).records[h].cancelRequested <==> WasStopped(events, c, h)
    ensures multiset(After(events, c).applied)[h]
            == if SetCalls(events, h) == 1 && WasStopped(events, c, h) then 1 else 0
    ensures After(events, c).records[h].canApply <==> SetCalls(events, h) == 1
    decreases |events|
  {
    assert events != [];
    var n := |events| - 1;
    var prior := events[..n];
    var before := After(prior, c);
    RegistryIsConsistent(prior, c);
    ShorterHistory(events, c, h);
    if h < |before.records| {
      CancelledExactlyOnce(prior, c, h);
      StepOnRun(before, events[n], c, h);
    } else {
      NoHistoryBeforeStart(prior, c, h);
      StepAdmits(before, events[n], c);
    }
    hide Step, Prune, HasKey, Start, Target;
  }

  /** The history of a run, split at the last event. */
  lemma ShorterHistory(events: seq<Event>, c: Config, h: nat)
    requires events != [] && HandlesExist(events, c)
    ensures var n := |events| - 1; var prior := events[..n];
            HandlesExist(prior, c) && Before(events, c, n) == After(prior, c) &&
            (WasStopped(events, c, h) <==>
              WasStopped(prior, c, h) || StopsAt(events, c, h, n) || StartsStoppedAt(events, c, h, n))
  {
    hide After, Target, Start, HasKey, Prune;
    PrefixOfPrefix(events, c);
    var n := |events| - 1;
    var prior := events[..n];
    forall i | 0 <= i < n
      ensures StopsAt(events, c, h, i) <==> StopsAt(prior, c, h, i)
      ensures StartsStoppedAt(events, c, h, i) <==> StartsStoppedAt(prior, c, h, i)
    {
      assert Before(prior, c, i) == Before(events, c, i);
    }
  }

  lemma {:induction false} NoHistoryBeforeStart(events: seq<Event>, c: Config, h: nat)
    requires HandlesExist(events, c) && h >= |After(events, c).records|
    ensures SetCalls(events, h) == 0 && !WasStopped(events, c, h)
    decreases |events|
  {
    if events != [] {
      var n := |events| - 1;
      var prior := events[..n];
      RegistryIsConsistent(prior, c);
      ShorterHistory(events, c, h);
      RecordsGrow(After(prior, c), events[n], c);
      NoHistoryBeforeStart(prior, c, h);
    }
  }

  lemma RecordsGrow(s: State, e: Event, c: Config)
    requires Consistent(s)
    ensures |Step(s, e, c).records| == |s.records| +
              if e.StartRun? && e.sessionId !in s.runs then 1 else 0
  {
  }

  // ---------------------------------------------------------------- which run a session has

  /** Event k is the start that was given handle h. */
  ghost predicate StartsRun(events: seq<Event>, c: Config, h: nat, sessionId: string, actionId: string, k: int) {
    && 0 <= k < |events| && events[k].StartRun? && events[k].sessionId == sessionId && events[k].actionId == actionId
    && |Before(events, c, k).records| == h < |Before(events, c, k + 1).records|
  }

  /** Run h was started for this session and action. */
  ghost predicate StartedFor(events: seq<Event>, c: Config, h: nat, sessionId: string, actionId: string) {
    exists k :: StartsRun(events, c, h, sessionId, actionId, k)
  }

  /** Event j finishes run h, which has been started. */
  ghost predicate Finishes(events: seq<Event>, c: Config, h: nat, j: int) {
    0 <= j < |events| && events[j] == FinishRun(h) && h < |Before(events, c, j).records|
  }

  ghost predicate HasFinished(events: seq<Event>, c: Config, h: nat) {
    exists j :: Finishes(events, c, h, j)
  }

  /** Run h was started for this session and action, and has not finished. */
  ghost predicate InFlight(events: seq<Event>, c: Config, h: nat, sessionId: string, actionId: string) {
    StartedFor(events, c, h, sessionId, actionId) && !HasFinished(events, c, h)
  }

  lemma StartedStep(events: seq<Event>, c: Config, h: nat, sessionId: string, actionId: string)
    requires events != []
    ensures var n := |events| - 1; var prior, e := events[..n], events[n];
            StartedFor(events, c, h, sessionId, actionId)
            <==> StartedFor(prior, c, h, sessionId, actionId) ||
                 (e.StartRun? && e.sessionId == sessionId && e.actionId == actionId &&
                  |After(prior, c).records| == h < |After(events, c).records|)
  {
    hide After;
    var n := |events| - 1;
    var prior := events[..n];
    forall k | 0 <= k < n
      ensures StartsRun(events, c, h, sessionId, actionId, k) <==> StartsRun(prior, c, h, sessionId, actionId, k)
    {
      assert prior[..k] == events[..k] && prior[..k + 1] == events[..k + 1];
    }
    assert events[..n + 1] == events;
    assert StartsRun(events, c, h, sessionId, actionId, n)
      <==> events[n].StartRun? && events[n].sessionId == sessionId && events[n].actionId == actionId &&
           |After(prior, c).records| == h < |After(events, c).records|;
    assert StartedFor(prior, c, h, sessionId, actionId) ==>
        exists k :: 0 <= k < n && StartsRun(prior, c, h, sessionId, actionId, k);
  }

  lemma FinishedStep(events: seq<Event>, c: Config, h: nat)
    requires events != []
    ensures var n := |events| - 1; var prior, e := events[..n], events[n];
            HasFinished(events, c, h)
            <==> HasFinished(prior, c, h) || (e == FinishRun(h) && h < |After(prior, c).records|)
  {
    hide After;
    var n := |events| - 1;
    var prior := events[..n];
    forall j | 0 <= j < n ensures Finishes(events, c, h, j) <==> Finishes(prior, c, h, j) {
      assert prior[..j] == events[..j];
    }
    assert Finishes(events, c, h, n) <==> events[n] == FinishRun(h) && h < |After(prior, c).records|;
    assert HasFinished(prior, c, h) ==> exists j :: 0 <= j < n && Finishes(prior, c, h, j);
  }

  /** What one event does to the session and the slot of run h. */
  lemma StepOnSlot(s: State, e: Event, c: Config, h: nat)
    requires Consistent(s)
    ensures var t := Step(s, e, c);
            |s.records| <= |t.records| <= |s.records| + 1 &&
            (h < |s.records| ==>
             t.records[h].sessionId == s.records[h].sessionId && t.records[h].actionId == s.records[h].actionId &&
             (Registered(t, h) <==> Registered(s, h) && e != FinishRun(h))) &&
            (|s.records| == h < |t.records| ==>
             e.StartRun? && t.records[h].sessionId == e.sessionId && t.records[h].actionId == e.actionId &&
             Registered(t, h))
  {
    hide Prune, Without, HasKey, Remember, Distinct;
  }

  /** Over every history: record h is of the session and action it was started for, and it has its
      session's slot exactly until it is finished. */
  lemma {:induction false} SlotUntilFinished(events: seq<Event>, c: Config, h: nat, sessionId: string,
      actionId: string)
    ensures var s := After(events, c);
            (StartedFor(events, c, h, sessionId, actionId)
             <==> h < |s.records| && s.records[h].sessionId == sessionId && s.records[h].actionId == actionId) &&
            (HasFinished(events, c, h) <==> h < |s.records| && !Registered(s, h))
    decreases |events|
  {
    if events != [] {
      var n := |events| - 1;
      var prior := events[..n];
      SlotUntilFinished(prior, c, h, sessionId, actionId);
      RegistryIsConsistent(prior, c);
      StartedStep(events, c, h, sessionId, actionId);
      FinishedStep(events, c, h);
      StepOnSlot(After(prior, c), events[n], c, h);
      hide Step, StartedFor, HasFinished, Registered;
    }
  }

  /** Record h has the slot of this session, and its action is this one. */
  predicate HasSlot(s: State, h: nat, sessionId: string, actionId: string) {
    h < |s.records| && s.records[h].actionId == actionId && sessionId in s.runs && s.runs[sessionId] == h
  }

  predicate IsRequested(s: State, h: nat) {
    h < |s.records| && s.records[h].cancelRequested
  }

  lemma InFlightHasSlot(events: seq<Event>, c: Config, h: nat, sessionId: string, actionId: string)
    ensures InFlight(events, c, h, sessionId, actionId) <==> HasSlot(After(events, c), h, sessionId, actionId)
  {
    RegistryIsConsistent(events, c);
    SlotUntilFinished(events, c, h, sessionId, actionId);
    hide StartedFor, HasFinished, After, Distinct;
  }

  /** The answers to a start and to a Stop, by the slot of the session. */
  lemma AnswersBySlot(s: State, c: Config, sessionId: string, actionId: string, now: int, later: int)
    requires Consistent(s)
    ensures var admitted, answer := Start(s, sessionId, actionId, now).1,
            Cancel(s, sessionId, actionId, now, later, c).1;
            (forall h: nat, other :: HasSlot(s, h, sessionId, other) ==>
             admitted == None &&
             answer == if other == actionId then Cancelled(IsRequested(s, h)) else StaleTarget) &&
            ((forall h: nat, other :: !HasSlot(s, h, sessionId, other)) ==>
             admitted == Some(|s.records|) && answer == NoActiveRun)
  {
    hide Prune, Without, HasKey, Remember, Distinct;
    if sessionId in s.runs {
      assert HasSlot(s, s.runs[sessionId], sessionId, s.records[s.runs[sessionId]].actionId);
    }
  }

  /** Over every history: a run of a session is admitted exactly when no earlier run of it is in flight,
      and a Stop reaches the run in flight exactly if it names its action. */
  lemma AnswersAreExact(events: seq<Event>, c: Config, sessionId: string, actionId: string, now: int, later: int)
    ensures var s := After(events, c);
            var admitted, answer := Start(s, sessionId, actionId, now).1,
            Cancel(s, sessionId, actionId, now, later, c).1;
            (forall h: nat, other :: InFlight(events, c, h, sessionId, other) ==>
             admitted == None &&
             answer == if other == actionId then Cancelled(IsRequested(s, h)) else StaleTarget) &&
            ((forall h: nat, other :: !InFlight(events, c, h, sessionId, other)) ==>
             admitted == Some(|s.records|) && answer == NoActiveRun)
  {
    hide InFlight, HasSlot, After, Start, Cancel, IsRequested, Consistent;
    RegistryIsConsistent(events, c);
    AnswersBySlot(After(events, c), c, sessionId, actionId, now, later);
    forall h: nat, other: string
      ensures InFlight(events, c, h, sessionId, other) <==> HasSlot(After(events, c), h, sessionId, other)
    {
      InFlightHasSlot(events, c, h, sessionId, other);
    }
  }

  // ---------------------------------------------------------------- the memory of early Stops

  predicate Timed(e: Event) {
    e.StartRun? || e.CancelRun?
  }

  function Ends(e: Event): int
    requires Timed(e)
  {
    if e.StartRun? then e.now else e.later
  }

  /** The clock never goes back. */
  ghost predicate Monotone(events: seq<Event>) {
    && (forall i :: 0 <= i < |events| && Timed(events[i]) ==> events[i].now <= Ends(events[i]))
    && (forall i, j :: 0 <= i < j < |events| && Timed(events[i]) && Timed(events[j]) ==>
        Ends(events[i]) <= events[j].now)
  }

  /** Event j is a Stop that finds no run to cancel and is remembered. */
  ghost predicate RememberedAt(events: seq<Event>, c: Config, j: nat)
    requires j < |events|
  {
    events[j].CancelRun? && Target(Before(events, c, j), events[j].sessionId, events[j].actionId) == None
  }

  /** Event k admits a run under the given name, which uses up a remembered Stop. */
  ghost predicate AdmittedAt(events: seq<Event>, c: Config, k: nat, sessionId: string, actionId: string)
    requires k < |events|
  {
    events[k].StartRun? && events[k].sessionId == sessionId && events[k].actionId == actionId &&
    sessionId !in Before(events, c, k).runs
  }

  /** The entry comes from a remembered Stop of its name that no admitted run has used up. */
  ghost predicate ComesFrom(events: seq<Event>, c: Config, e: EarlyCancel, j: nat)
    requires j < |events|
  {
    && RememberedAt(events, c, j)
    && Names(e, events[j].sessionId, events[j].actionId)
    && e.expiresAt == events[j].later + c.retentionMs
    && (forall k :: j < k < |events| ==> !AdmittedAt(events, c, k, e.sessionId, e.actionId))
  }

  ghost predicate Sorted(early: seq<EarlyCancel>) {
    forall i, j :: 0 <= i < j < |early| ==> early[i].expiresAt <= early[j].expiresAt
  }

  lemma {:induction false} PruneKeepsOrder(early: seq<EarlyCancel>, now: int)
    requires Sorted(early)
    ensures Sorted(Prune(early, now)) && |Prune(early, now)| <= |early|
    ensures forall e :: e in Prune(early, now) ==> e in early && e.expiresAt > now
  {
    if early != [] {
      PruneKeepsOrder(early[1..], now);
      var p := Prune(early[1..], now);
      forall j | 0 <= j < |p| ensures early[0].expiresAt <= p[j].expiresAt { assert p[j] in early[1..]; }
    }
  }

  lemma {:induction false} WithoutKeepsOrder(early: seq<EarlyCancel>, sessionId: string, actionId: string)
    requires Sorted(early)
    ensures Sorted(Without(early, sessionId, actionId)) && |Without(early, sessionId, actionId)| <= |early|
    ensures forall e :: e in Without(early, sessionId, actionId) ==> e in early && !Names(e, sessionId, actionId)
  {
    if early != [] {
      WithoutKeepsOrder(early[1..], sessionId, actionId);
      var w := Without(early[1..], sessionId, actionId);
      forall j | 0 <= j < |w| ensures early[0].expiresAt <= w[j].expiresAt { assert w[j] in early[1..]; }
    }
  }

  lemma FiltersKeepOrder(early: seq<EarlyCancel>, now: int, sessionId: string, actionId: string)
    requires Sorted(early)
    ensures Sorted(Prune(early, now)) && Sorted(Without(early, sessionId, actionId))
    ensures |Prune(early, now)| <= |early| && |Without(early, sessionId, actionId)| <= |early|
    ensures forall e :: e in Prune(early, now) ==> e in early && e.expiresAt > now
    ensures forall e :: e in Without(early, sessionId, actionId) ==> e in early && !Names(e, sessionId, actionId)
  {
    hide Sorted, Prune, Without;
    PruneKeepsOrder(early, now);
    WithoutKeepsOrder(early, sessionId, actionId);
  }

  ghost predicate HasOrigin(events: seq<Event>, c: Config, x: EarlyCancel) {
    exists j :: 0 <= j < |events| && ComesFrom(events, c, x, j)
  }

  /** What one event does to the remembered Stops. */
  lemma EarlyStep(s: State, e: Event, c: Config)
    requires Sorted(s.early) && |s.early| <= c.maxEarlyCancels
    requires e.CancelRun? ==> forall x :: x in s.early ==> x.expiresAt <= e.later + c.retentionMs
    ensures Sorted(Step(s, e, c).early) && |Step(s, e, c).early| <= c.maxEarlyCancels
    ensures forall x :: x in Step(s, e, c).early ==>
              || (x in s.early && !(e.StartRun? && e.sessionId !in s.runs && Names(x, e.sessionId, e.actionId)))
              || (e.CancelRun? && Target(s, e.sessionId, e.actionId) == None
                  && x == EarlyCancel(e.sessionId, e.actionId, e.later + c.retentionMs))
  {
    match e {
      case StartRun(sessionId, actionId, now) =>
        FiltersKeepOrder(s.early, now, sessionId, actionId);
        FiltersKeepOrder(Prune(s.early, now), now, sessionId, actionId);
        hide Prune, Without, HasKey, Sorted;
      case CancelRun(sessionId, actionId, now, later) =>
        RememberKeepsOrder(s.early, sessionId, actionId, now, later, c);
        hide Remember, Sorted;
      case _ =>
    }
  }

  lemma RememberKeepsOrder(early: seq<EarlyCancel>, sessionId: string, actionId: string, now: int, later: int,
      c: Config)
    requires Sorted(early) && forall x :: x in early ==> x.expiresAt <= later + c.retentionMs
    ensures var r := Remember(early, sessionId, actionId, now, later, c);
            Sorted(r) && |r| <= c.maxEarlyCancels &&
            forall x :: x in r ==> x in early || x == EarlyCancel(sessionId, actionId, later + c.retentionMs)
  {
    hide Prune, Without, Newest, Sorted;
    FiltersKeepOrder(early, now, sessionId, actionId);
    FiltersKeepOrder(Prune(early, now), now, sessionId, actionId);
    AppendKeepsOrder(Without(Prune(early, now), sessionId, actionId),
                     EarlyCancel(sessionId, actionId, later + c.retentionMs), c.maxEarlyCancels);
  }

  lemma AppendKeepsOrder(kept: seq<EarlyCancel>, x: EarlyCancel, cap: nat)
    requires Sorted(kept) && forall y :: y in kept ==> y.expiresAt <= x.expiresAt
    ensures Sorted(Newest(kept + [x], cap)) && |Newest(kept + [x], cap)| <= cap
    ensures forall y :: y in Newest(kept + [x], cap) ==> y in kept || y == x
  {
  }

  /** Remembered Stops stay within the cap and in expiry order, and each one stands for an
      earlier Stop that found no run and whose run has not been admitted since. */
  lemma {:induction false} EarlyStopsInOrder(events: seq<Event>, c: Config)
    requires Monotone(events)
    ensures var early := After(events, c).early;
            |early| <= c.maxEarlyCancels && Sorted(early) && forall x :: x in early ==> HasOrigin(events, c, x)
    decreases |events|
  {
    if events != [] {
      var n := |events| - 1;
      var prior, e := events[..n], events[n];
      PrefixOfPrefix(events, c);
      EarlyStopsInOrder(prior, c);
      hide Step;
      forall x | x in After(prior, c).early && e.CancelRun? ensures x.expiresAt <= e.later + c.retentionMs {
        var j :| 0 <= j < n && ComesFrom(prior, c, x, j);
        assert Timed(events[j]) && Timed(events[n]);
      }
      EarlyStep(After(prior, c), e, c);
      forall x | x in After(events, c).early ensures HasOrigin(events, c, x) {
        if e.CancelRun? && Target(After(prior, c), e.sessionId, e.actionId) == None
           && x == EarlyCancel(e.sessionId, e.actionId, e.later + c.retentionMs) {
          assert ComesFrom(events, c, x, n);
        } else {
          OriginExtends(events, c, x);
        }
      }
    }
  }

  lemma OriginExtends(events: seq<Event>, c: Config, x: EarlyCancel)
    requires events != [] && HasOrigin(events[..|events| - 1], c, x)
    requires !AdmittedAt(events, c, |events| - 1, x.sessionId, x.actionId)
    ensures HasOrigin(events, c, x)
  {
    hide After;
    var n := |events| - 1;
    var prior := events[..n];
    PrefixOfPrefix(events, c);
    var j :| 0 <= j < n && ComesFrom(prior, c, x, j);
    assert Before(prior, c, j) == Before(events, c, j);
    forall k | j < k < |events| ensures !AdmittedAt(events, c, k, x.sessionId, x.actionId) {
      if k < n {
        assert !AdmittedAt(prior, c, k, x.sessionId, x.actionId);
        assert Before(prior, c, k) == Before(events, c, k);
      }
    }
    assert ComesFrom(events, c, x, j);
  }

  /** A run that starts stopped was named by an earlier Stop, not yet expired, and no other run
      was admitted under that name in between: a Stop never reaches another action's run. */
  lemma StartedStoppedForAReason(events: seq<Event>, c: Config, h: nat, i: nat)
    requires Monotone(events) && i < |events| && StartsStoppedAt(events, c, h, i)
    ensures exists j :: 0 <= j < i && RememberedAt(events, c, j) &&
              events[j].sessionId == events[i].sessionId && events[j].actionId == events[i].actionId &&
              events[j].later + c.retentionMs > events[i].now &&
              forall k :: j < k < i ==> !AdmittedAt(events, c, k, events[i].sessionId, events[i].actionId)
  {
    var prior, e := events[..i], events[i];
    EarlyStopsInOrder(prior, c);
    var x := LiveEntry(After(prior, c).early, e.sessionId, e.actionId, e.now);
    hide After, Prune, HasKey, Start;
    PrefixBefore(events, c, i);
    var j :| 0 <= j < |prior| && ComesFrom(prior, c, x, j);
    assert RememberedAt(events, c, j) by {
      assert RememberedAt(prior, c, j);
    }
    forall k | j < k < i ensures !AdmittedAt(events, c, k, e.sessionId, e.actionId) {
      assert !AdmittedAt(prior, c, k, e.sessionId, e.actionId);
    }
  }

  lemma PrefixBefore(events: seq<Event>, c: Config, i: nat)
    requires i <= |events|
    ensures forall k :: 0 <= k <= i ==> Before(events[..i], c, k) == Before(events, c, k)
  {
    forall k | 0 <= k <= i ensures events[..i][..k] == events[..k] {
    }
  }

  lemma LiveEntry(early: seq<EarlyCancel>, sessionId: string, actionId: string, now: int) returns (x: EarlyCancel)
    requires Sorted(early) && HasKey(Prune(early, now), sessionId, actionId)
    ensures x in early && Names(x, sessionId, actionId) && x.expiresAt > now
  {
    FiltersKeepOrder(early, now, sessionId, actionId);
    hide Prune;
    var pruned := Prune(early, now);
    var p :| 0 <= p < |pruned| && Names(pruned[p], sessionId, actionId);
    x := pruned[p];
  }

  // ---------------------------------------------------------------- an early Stop is honoured

  function Entry(e: Event, c: Config): EarlyCancel
    requires e.CancelRun?
  {
    EarlyCancel(e.sessionId, e.actionId, e.later + c.retentionMs)
  }

  predicate Remembers(s: State, e: Event) {
    e.CancelRun? && Target(s, e.sessionId, e.actionId) == None
  }

  predicate Admits(s: State, e: Event) {
    e.StartRun? && e.sessionId !in s.runs
  }

  /** What an event leaves of some live Stops: it drops the expired ones and those of its own name,
      and may add one. */
  function StepLive(live: seq<EarlyCancel>, s: State, e: Event, c: Config): seq<EarlyCancel> {
    if Remembers(s, e) then Without(Prune(live, e.now), e.sessionId, e.actionId) + [Entry(e, c)]
    else if Admits(s, e) then Without(Prune(live, e.now), e.sessionId, e.actionId)
    else live
  }

  /** The Stops remembered after event j that are neither expired nor used up, one for each name. */
  function Live(events: seq<Event>, c: Config, j: nat): seq<EarlyCancel>
    requires j < |events|
    decreases |events|
  {
    var n := |events| - 1;
    if n == j then [] else StepLive(Live(events[..n], c, j), After(events[..n], c), events[n], c)
  }

  /** Since event j the memory always had room for the Stop of event j beside the live ones. */
  ghost predicate HasRoom(events: seq<Event>, c: Config, j: nat) {
    forall k :: j <= k < |events| ==> RoomAt(events, c, j, k)
  }

  ghost predicate RoomAt(events: seq<Event>, c: Config, j: nat, k: nat)
    requires j <= k < |events|
  {
    RememberedAt(events, c, k) ==> |Live(events[..k + 1], c, j)| < c.maxEarlyCancels
  }

  ghost predicate Holds(early: seq<EarlyCancel>, x: EarlyCancel, live: seq<EarlyCancel>) {
    exists older: seq<EarlyCancel> :: early == older + [x] + live
  }

  predicate Lacks(early: seq<EarlyCancel>, x: EarlyCancel) {
    !HasKey(early, x.sessionId, x.actionId)
  }

  lemma {:induction false} PruneSplit(a: seq<EarlyCancel>, b: seq<EarlyCancel>, now: int)
    ensures Prune(a + b, now) == Prune(a, now) + Prune(b, now)
    decreases |a|
  {
    if a == [] {
      assert a + b == b;
    } else {
      assert (a + b)[1..] == a[1..] + b;
      PruneSplit(a[1..], b, now);
    }
  }

  lemma {:induction false} WithoutSplit(a: seq<EarlyCancel>, b: seq<EarlyCancel>, sessionId: string, actionId: string)
    ensures Without(a + b, sessionId, actionId) == Without(a, sessionId, actionId) + Without(b, sessionId, actionId)
    decreases |a|
  {
    if a == [] {
      assert a + b == b;
    } else {
      assert (a + b)[1..] == a[1..] + b;
      WithoutSplit(a[1..], b, sessionId, actionId);
    }
  }

  /** Pruning and deleting another name. */
  function Filtered(early: seq<EarlyCancel>, e: Event): seq<EarlyCancel>
    requires Timed(e)
  {
    Without(Prune(early, e.now), e.sessionId, e.actionId)
  }

  lemma FilteredLacks(early: seq<EarlyCancel>, e: Event, x: EarlyCancel)
    requires Timed(e) && Lacks(early, x)
    ensures Lacks(Filtered(early, e), x)
  {
    FiltersKeepMembers(early, e.now, e.sessionId, e.actionId);
    FiltersKeepMembers(Prune(early, e.now), e.now, e.sessionId, e.actionId);
    hide Prune, Without;
    var after := Filtered(early, e);
    forall i | 0 <= i < |after| ensures !Names(after[i], x.sessionId, x.actionId) {
      assert after[i] in early;
    }
  }

  lemma FilteredHolds(early: seq<EarlyCancel>, e: Event, x: EarlyCancel, live: seq<EarlyCancel>)
    requires Timed(e) && e.now < x.expiresAt && !Names(x, e.sessionId, e.actionId) && Holds(early, x, live)
    ensures Holds(Filtered(early, e), x, Filtered(live, e))
  {
    var older: seq<EarlyCancel> :| early == older + [x] + live;
    PruneSplit(older + [x], live, e.now);
    PruneSplit(older, [x], e.now);
    assert Prune([x], e.now) == [x];
    var p := Prune(older, e.now);
    WithoutSplit(p + [x], Prune(live, e.now), e.sessionId, e.actionId);
    WithoutSplit(p, [x], e.sessionId, e.actionId);
    assert Without([x], e.sessionId, e.actionId) == [x];
    assert Filtered(early, e) == Without(p, e.sessionId, e.actionId) + [x] + Filtered(live, e);
  }

  /** The newest entries hold x exactly if it and the live ones fit. */
  lemma NewestHolds(early: seq<EarlyCancel>, x: EarlyCancel, live: seq<EarlyCancel>, cap: nat)
    requires Holds(early, x, live) && Lacks(live, x)
    ensures if |live| < cap then Holds(Newest(early, cap), x, live) else Lacks(Newest(early, cap), x)
  {
    var older: seq<EarlyCancel> :| early == older + [x] + live;
    var kept := Newest(early, cap);
    if |live| < cap {
      var dropped := |early| - |kept|;
      assert kept == older[dropped..] + [x] + live;
    } else {
      assert kept == live[|live| - |kept|..];
      forall i | 0 <= i < |kept| ensures !Names(kept[i], x.sessionId, x.actionId) {
        assert kept[i] in live;
      }
    }
  }

  lemma AppendHolds(early: seq<EarlyCancel>, y: EarlyCancel, x: EarlyCancel, live: seq<EarlyCancel>)
    requires Holds(early, x, live)
    ensures Holds(early + [y], x, live + [y])
  {
    var older: seq<EarlyCancel> :| early == older + [x] + live;
    assert early + [y] == older + [x] + (live + [y]);
  }

  lemma AppendLacks(early: seq<EarlyCancel>, y: EarlyCancel, x: EarlyCancel)
    requires Lacks(early, x) && !Names(y, x.sessionId, x.actionId)
    ensures Lacks(early + [y], x)
  {
  }

  lemma NewestLacks(early: seq<EarlyCancel>, x: EarlyCancel, cap: nat)
    requires Lacks(early, x)
    ensures Lacks(Newest(early, cap), x)
  {
    assert forall i :: 0 <= i < |Newest(early, cap)| ==> Newest(early, cap)[i] in early;
  }

  /** One step in the life of a remembered Stop that is not yet expired, used up or replaced. */
  lemma StepTracks(s: State, e: Event, c: Config, x: EarlyCancel, live: seq<EarlyCancel>)
    requires Timed(e) ==> e.now < x.expiresAt
    requires Remembers(s, e) || Admits(s, e) ==> !Names(x, e.sessionId, e.actionId)
    requires Lacks(live, x)
    ensures Lacks(StepLive(live, s, e, c), x)
    ensures Lacks(s.early, x) ==> Lacks(Step(s, e, c).early, x)
    ensures Holds(s.early, x, live) ==>
              if Remembers(s, e) && |StepLive(live, s, e, c)| >= c.maxEarlyCancels then Lacks(Step(s, e, c).early, x)
              else Holds(Step(s, e, c).early, x, StepLive(live, s, e, c))
  {
    hide Lacks, Holds, Prune, Without, Newest, HasKey;
    if Remembers(s, e) || Admits(s, e) {
      FilteredLacks(live, e, x);
      if Lacks(s.early, x) {
        FilteredLacks(s.early, e, x);
      }
      if Holds(s.early, x, live) {
        FilteredHolds(s.early, e, x, live);
      }
    }
    if Remembers(s, e) {
      var kept, y := Filtered(s.early, e), Entry(e, c);
      AppendLacks(Filtered(live, e), y, x);
      if Lacks(kept, x) {
        AppendLacks(kept, y, x);
        NewestLacks(kept + [y], x, c.maxEarlyCancels);
      }
      if Holds(kept, x, Filtered(live, e)) {
        AppendHolds(kept, y, x, Filtered(live, e));
        NewestHolds(kept + [y], x, Filtered(live, e) + [y], c.maxEarlyCancels);
      }
    }
  }

  /** After event j no run of its name is admitted and no Stop of its name is remembered. */
  ghost predicate Undisturbed(events: seq<Event>, c: Config, j: nat)
    requires j < |events| && events[j].CancelRun?
  {
    forall k :: j < k < |events| && (RememberedAt(events, c, k) || Admits(Before(events, c, k), events[k])) ==>
      !Names(Entry(events[j], c), events[k].sessionId, events[k].actionId)
  }

  ghost predicate Unexpired(events: seq<Event>, c: Config, j: nat)
    requires j < |events| && events[j].CancelRun?
  {
    forall k :: j < k < |events| && Timed(events[k]) ==> events[k].now < Entry(events[j], c).expiresAt
  }

  lemma FreshEntry(s: State, e: Event, c: Config)
    requires Remembers(s, e)
    ensures if c.maxEarlyCancels > 0 then Holds(Step(s, e, c).early, Entry(e, c), [])
            else Lacks(Step(s, e, c).early, Entry(e, c))
  {
    hide Prune, Without, Newest;
    var kept, x := Filtered(s.early, e), Entry(e, c);
    assert kept + [x] == kept + [x] + [];
    NewestHolds(kept + [x], x, [], c.maxEarlyCancels);
  }

  lemma RoomAtPrefix(events: seq<Event>, c: Config, j: nat, k: nat, n: nat)
    requires j <= k < n <= |events|
    ensures RoomAt(events[..n], c, j, k) <==> RoomAt(events, c, j, k)
  {
    hide After, Live, Target;
    PrefixBefore(events, c, n);
    assert events[..n][..k + 1] == events[..k + 1];
  }

  lemma HasRoomPrefix(events: seq<Event>, c: Config, j: nat)
    requires j < |events| - 1
    ensures var n := |events| - 1;
            HasRoom(events, c, j)
            <==> HasRoom(events[..n], c, j) && (RememberedAt(events, c, n) ==> |Live(events, c, j)| < c.maxEarlyCancels)
  {
    hide RoomAt, RememberedAt, Live;
    var n := |events| - 1;
    forall k | j <= k < n ensures RoomAt(events[..n], c, j, k) <==> RoomAt(events, c, j, k) {
      RoomAtPrefix(events, c, j, k, n);
    }
    RoomAtEnd(events, c, j);
  }

  lemma RoomAtEnd(events: seq<Event>, c: Config, j: nat)
    requires j < |events|
    ensures var n := |events| - 1;
            RoomAt(events, c, j, n) <==> (RememberedAt(events, c, n) ==> |Live(events, c, j)| < c.maxEarlyCancels)
  {
    assert events[..|events|] == events;
  }

  lemma UndisturbedPrefix(events: seq<Event>, c: Config, j: nat)
    requires j < |events| - 1 && events[j].CancelRun?
    requires Undisturbed(events, c, j) && Unexpired(events, c, j)
    ensures Undisturbed(events[..|events| - 1], c, j) && Unexpired(events[..|events| - 1], c, j)
  {
    hide After, Target, Admits;
    PrefixBefore(events, c, |events| - 1);
  }

  /** The Stop of event j is in the memory, in front of the live ones, exactly while there is room. */
  lemma {:induction false} EarlyStopTracked(events: seq<Event>, c: Config, j: nat)
    requires j < |events| && RememberedAt(events, c, j) && Undisturbed(events, c, j) && Unexpired(events, c, j)
    ensures var x := Entry(events[j], c);
            Lacks(Live(events, c, j), x) &&
            if HasRoom(events, c, j) then Holds(After(events, c).early, x, Live(events, c, j))
              else Lacks(After(events, c).early, x)
    decreases |events|
  {
    hide Holds, Lacks, StepLive, Step, Target, HasRoom, Undisturbed, Unexpired;
    var n := |events| - 1;
    var prior, e, before := events[..n], events[n], After(events[..n], c);
    if n == j {
      RememberedOnly(events, c, j);
      FreshEntry(before, e, c);
      EmptyLacks(Entry(e, c));
    } else {
      HasRoomPrefix(events, c, j);
      UndisturbedPrefix(events, c, j);
      PrefixBefore(events, c, n);
      EarlyStopTracked(prior, c, j);
      LastEvent(events, c, j);
      StepTracks(before, e, c, Entry(events[j], c), Live(prior, c, j));
    }
  }

  lemma EmptyLacks(x: EarlyCancel)
    ensures Lacks([], x)
  {
  }

  lemma RememberedOnly(events: seq<Event>, c: Config, j: nat)
    requires j == |events| - 1 && RememberedAt(events, c, j)
    ensures Remembers(After(events[..j], c), events[j]) && (HasRoom(events, c, j) <==> c.maxEarlyCancels > 0)
  {
    assert events[..j + 1] == events;
    RoomAtEnd(events, c, j);
    hide RoomAt;
    assert HasRoom(events, c, j) <==> RoomAt(events, c, j, j);
  }

  lemma LastEvent(events: seq<Event>, c: Config, j: nat)
    requires j < |events| - 1 && events[j].CancelRun? && Undisturbed(events, c, j) && Unexpired(events, c, j)
    ensures var n := |events| - 1;
            var s, e, x := After(events[..n], c), events[n], Entry(events[j], c);
            (Timed(e) ==> e.now < x.expiresAt) &&
            (Remembers(s, e) || Admits(s, e) ==> !Names(x, e.sessionId, e.actionId)) &&
            (Remembers(s, e) <==> RememberedAt(events, c, n))
  {
  }

  /** Whether a run of the name that is admitted now starts stopped: the entry holds or lacks. */
  lemma AdmittedFinds(early: seq<EarlyCancel>, x: EarlyCancel, live: seq<EarlyCancel>, now: int)
    requires now < x.expiresAt
    ensures Holds(early, x, live) ==> HasKey(Prune(early, now), x.sessionId, x.actionId)
    ensures Lacks(early, x) ==> !HasKey(Prune(early, now), x.sessionId, x.actionId)
  {
    FiltersKeepMembers(early, now, "", "");
    hide Prune;
    var pruned := Prune(early, now);
    if Holds(early, x, live) {
      var older: seq<EarlyCancel> :| early == older + [x] + live;
      assert early[|older|] == x;
      assert x in pruned;
      var i :| 0 <= i < |pruned| && pruned[i] == x;
    }
    if Lacks(early, x) {
      assert forall i :: 0 <= i < |pruned| ==> pruned[i] in early;
    }
  }

  /** Every remembered Stop of the name is from event j or earlier: it has expired when that one has. */
  lemma ExpiredIsGone(prior: seq<Event>, c: Config, j: nat, now: int)
    requires Monotone(prior) && j < |prior| && RememberedAt(prior, c, j) && Undisturbed(prior, c, j)
    requires Entry(prior[j], c).expiresAt <= now
    ensures !HasKey(Prune(After(prior, c).early, now), prior[j].sessionId, prior[j].actionId)
  {
    EarlyStopsInOrder(prior, c);
    hide After, Prune, Sorted;
    if HasKey(Prune(After(prior, c).early, now), prior[j].sessionId, prior[j].actionId) {
      var y := LiveEntry(After(prior, c).early, prior[j].sessionId, prior[j].actionId, now);
      NoneIsLater(prior, c, j, y);
    }
  }

  lemma NoneIsLater(prior: seq<Event>, c: Config, j: nat, y: EarlyCancel)
    requires Monotone(prior) && j < |prior| && RememberedAt(prior, c, j) && Undisturbed(prior, c, j)
    requires HasOrigin(prior, c, y) && Names(y, prior[j].sessionId, prior[j].actionId)
    ensures y.expiresAt <= Entry(prior[j], c).expiresAt
  {
    hide After, Target;
    var m :| 0 <= m < |prior| && ComesFrom(prior, c, y, m);
    assert m <= j;
    assert Timed(prior[m]) && Timed(prior[j]);
  }

  /** A Stop that overtakes its own run, the last of its name, stops the run at its start exactly if
      it has not expired and the live Stops remembered since then, one for each name, never filled
      the memory. */
  lemma EarlyStopIsHonoured(events: seq<Event>, c: Config, j: nat, i: nat)
    requires Monotone(events) && j < i < |events| && RememberedAt(events, c, j) && Undisturbed(events[..i], c, j)
    requires AdmittedAt(events, c, i, events[j].sessionId, events[j].actionId)
    ensures StartsStoppedAt(events, c, |Before(events, c, i).records|, i)
            <==> events[i].now < events[j].later + c.retentionMs && HasRoom(events[..i], c, j)
  {
    hide HasRoom, Undisturbed, Holds, Lacks, Live, HasKey, Prune, After;
    var prior, e, x := events[..i], events[i], Entry(events[j], c);
    PrefixBefore(events, c, i);
    assert prior[j] == events[j] && RememberedAt(prior, c, j);
    MonotonePrefix(events, i);
    if e.now < x.expiresAt {
      BeforeExpiry(events, c, j, i);
      EarlyStopTracked(prior, c, j);
      AdmittedFinds(After(prior, c).early, x, Live(prior, c, j), e.now);
    } else {
      ExpiredIsGone(prior, c, j, e.now);
    }
  }

  lemma MonotonePrefix(events: seq<Event>, i: nat)
    requires Monotone(events) && i <= |events|
    ensures Monotone(events[..i])
  {
  }

  lemma BeforeExpiry(events: seq<Event>, c: Config, j: nat, i: nat)
    requires Monotone(events) && j < i < |events| && events[j].CancelRun? && Timed(events[i])
    requires events[i].now < Entry(events[j], c).expiresAt
    ensures Unexpired(events[..i], c, j)
  {
  }
}
