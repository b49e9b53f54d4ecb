// Checks of one rule, one after another: the runner reads the row, assesses an observation
// and hands the result to the transaction.
module AlertHistory {
  import opened Options
  import opened AlertConditions
  import opened AlertStore

  /** One check: `observation` is None when every provider failed. */
  datatype Check = Check(now: int, observation: Option<real>, source: string, bucket: string)

  /** An evaluated observation and whether a trigger event was recorded for it. */
  datatype Observed = Observed(now: int, value: real, triggered: bool)

  predicate IsDue(r: Rule, now: int) {
    r.nextCheckAt == None || r.nextCheckAt.value <= now
  }

  predicate Runs(r: Rule, now: int) {
    r.enabled && r.status == Active && IsDue(r, now)
  }

  function RunCheck(db: Db, id: nat, c: Check): (Db, seq<Observed>)
    requires id in db.rules
  {
    var r := db.rules[id];
    if !Runs(r, c.now) then (db, [])
    else
      match c.observation
      case None => (RecordUnavailable(db, id, c.now), [])
      case Some(value) =>
        var (next, eventId) := RecordEvaluation(db, id, Assess(id, r, value, c.now, c.source, c.bucket));
        (next, [Observed(c.now, value, eventId.Some?)])
  }

  function RunChecks(db: Db, id: nat, checks: seq<Check>): (r: (Db, seq<Observed>))
    requires id in db.rules
    ensures id in r.0.rules
  {
    if checks == [] then (db, [])
    else
      var (before, log) := RunChecks(db, id, checks[..|checks| - 1]);
      var (after, more) := RunCheck(before, id, checks[|checks| - 1]);
      (after, log + more)
  }

  // What the history of observations alone says should trigger.

  ghost predicate RisingEdge(c: Condition, log: seq<Observed>, i: nat)
    requires i < |log|
  {
    i > 0 && !ConditionIsTrue(c, log[i - 1].value) && ConditionIsTrue(c, log[i].value)
  }

  /** A rising edge outside the cooldown of the last trigger; in "once" mode only the first. */
  ghost predicate ShouldTrigger(r: Rule, log: seq<Observed>, i: nat)
    requires i < |log|
    decreases i, 1
  {
    RisingEdge(r.condition, log, i) &&
    match LastTrigger(r, log, i)
    case None => true
    case Some(t) => !r.once && (r.cooldownMs == None || log[i].now - t >= r.cooldownMs.value)
  }

  /** The time of the last trigger among the first i observations. */
  ghost function LastTrigger(r: Rule, log: seq<Observed>, i: nat): Option<int>
    requires i <= |log|
    decreases i, 0
  {
    if i == 0 then None
    else if ShouldTrigger(r, log, i - 1) then Some(log[i - 1].now)
    else LastTrigger(r, log, i - 1)
  }

  lemma {:induction false} PrefixDecides(r: Rule, log: seq<Observed>, more: seq<Observed>, i: nat)
    requires i <= |log|
    ensures LastTrigger(r, log + more, i) == LastTrigger(r, log, i)
    ensures i < |log| ==> (ShouldTrigger(r, log + more, i) <==> ShouldTrigger(r, log, i))
    decreases i
  {
    if i > 0 {
      PrefixDecides(r, log, more, i - 1);
    }
  }

  /** A rule nobody has observed or triggered yet, in its current revision. */
  ghost predicate Unobserved(db: Db, id: nat) {
    id in db.rules &&
    var r := db.rules[id];
    r.lastObserved == None && r.lastConditionState == Unknown && r.lastTriggeredAt == None &&
    forall e :: e in db.events && db.events[e].Triggered? && db.events[e].key.ruleId == id ==>
      db.events[e].key.ruleRevision != r.ruleRevision
  }

  ghost predicate SameRule(r: Rule, s: Rule) {
    r.condition == s.condition && r.once == s.once && r.cooldownMs == s.cooldownMs && r.ruleRevision == s.ruleRevision
  }

  /** The row agrees with the history of observations, and no dedupe key of the open arm cycle is
      taken while the condition was last seen false. */
  ghost predicate Agrees(db: Db, id: nat, r0: Rule, log: seq<Observed>) {
    id in db.rules &&
    var r := db.rules[id]; var n := |log|;
    && SameRule(r, r0)
    && (if n == 0 then r.lastObserved == None && r.lastConditionState == Unknown
        else r.lastObserved == Some(log[n - 1].value) &&
             r.lastConditionState == (if ConditionIsTrue(r0.condition, log[n - 1].value) then True else False))
    && r.lastTriggeredAt == LastTrigger(r0, log, n)
    && (r.once && r.lastTriggeredAt.Some? ==> !(r.enabled && r.status == Active))
    && KeysUsed(db, id, r)
  }

  ghost predicate KeysUsed(db: Db, id: nat, r: Rule) {
    forall e :: e in db.events && db.events[e].Triggered? && OfRevision(db.events[e].key, id, r) ==>
        UsedBy(db.events[e].key, r)
  }

  ghost predicate OfRevision(key: DedupeKey, id: nat, r: Rule) {
    key.ruleId == id && key.ruleRevision == r.ruleRevision
  }

  ghost predicate UsedBy(key: DedupeKey, r: Rule) {
    key.armCycleId < r.armCycleId || (key.armCycleId == r.armCycleId && r.lastConditionState == True)
  }

  lemma EvaluationAgrees(db: Db, id: nat, r0: Rule, log: seq<Observed>, c: Check)
    requires Agrees(db, id, r0, log) && Runs(db.rules[id], c.now) && c.observation.Some?
    ensures var (next, more) := RunCheck(db, id, c);
            |more| == 1 && Agrees(next, id, r0, log + more) &&
            more[0].triggered == ShouldTrigger(r0, log + more, |log|)
  {
    var r := db.rules[id];
    var n := |log|;
    var value := c.observation.value;
    var (next, more) := RunCheck(db, id, c);
    var ev := Assess(id, r, value, c.now, c.source, c.bucket);
    PrefixDecides(r0, log, more, n);
    assert (log + more)[n] == more[0];
    if n > 0 {
      assert (log + more)[n - 1] == log[n - 1];
      CrossesIsRisingEdge(r0.condition, log[n - 1].value, value);
    }
    hide ConditionIsTrue, Crosses;
    assert ev.trigger.Some? <==> ShouldTrigger(r0, log + more, n);
    if ev.trigger.Some? {
      assert r.lastConditionState == False;
      assert !KeyTaken(db.events, ev.trigger.value.key);
    }
    EvaluatedKeys(db, id, ev);
    hide KeysUsed, KeyTaken;
  }

  lemma EvaluatedKeys(db: Db, id: nat, ev: Evaluation)
    requires id in db.rules && KeysUsed(db, id, db.rules[id]) && ev.conditionState != Unknown
    requires ev.trigger.Some? ==> ev.conditionState == True
    requires ev.trigger.Some? ==> ev.trigger.value.key.armCycleId <= db.rules[id].armCycleId
    ensures var next := RecordEvaluation(db, id, ev).0; KeysUsed(next, id, next.rules[id])
  {
  }

  /** The recorded triggers of a rule are exactly the rising edges of its condition between
      consecutive observations that lie outside the cooldown; the crossing test, the state gate
      and the dedupe index together neither add nor lose one. */
  lemma {:induction false} TriggersAreRisingEdges(db: Db, id: nat, checks: seq<Check>)
    requires Unobserved(db, id)
    ensures var (after, log) := RunChecks(db, id, checks);
            Agrees(after, id, db.rules[id], log) &&
            forall i :: 0 <= i < |log| ==> (log[i].triggered <==> ShouldTrigger(db.rules[id], log, i))
    decreases |checks|
  {
    if checks != [] {
      var c := checks[|checks| - 1];
      var (before, log) := RunChecks(db, id, checks[..|checks| - 1]);
      TriggersAreRisingEdges(db, id, checks[..|checks| - 1]);
      var (after, more) := RunCheck(before, id, c);
      if Runs(before.rules[id], c.now) && c.observation.Some? {
        EvaluationAgrees(before, id, db.rules[id], log, c);
        forall i | 0 <= i < |log| ensures ShouldTrigger(db.rules[id], log + more, i)
            <==> ShouldTrigger(db.rules[id], log, i) {
          PrefixDecides(db.rules[id], log, more, i);
        }
      } else {
        assert log + more == log;
        assert KeysUsed(after, id, after.rules[id]);
      }
    }
  }

  /** A rule as created is unobserved, whatever else the tables hold. */
  lemma CreatedRuleIsUnobserved(db: Db, n: NewRule)
    requires forall e :: e in db.events && db.events[e].Triggered? ==> db.events[e].key.ruleId < db.nextRuleId
    ensures Unobserved(Create(db, n), db.nextRuleId)
  {
  }

  // ---------------------------------------------------------------- what the transactions do to a rule

  ghost predicate Takes<T(!new)>(patch: Option<T>, before: T, after: T) {
    (patch.Some? ==> after == patch.value) && (patch.None? ==> after == before)
  }

  /** An edit gives every patched field its value, keeps the others, and starts the rule over: active,
      never checked, in a new revision and arm cycle. Other rules, events and notifications stay. */
  lemma EditedFields(db: Db, id: nat, p: RulePatch)
    requires id in db.rules
    ensures var next := Update(db, id, p);
            var r, s := db.rules[id], next.rules[id];
            && Takes(p.condition, r.condition, s.condition)
            && Takes(p.conditionVersion, r.conditionVersion, s.conditionVersion)
            && Takes(p.instrumentId, r.instrumentId, s.instrumentId) && Takes(p.enabled, r.enabled, s.enabled)
            && Takes(p.once, r.once, s.once) && Takes(p.checkIntervalMs, r.checkIntervalMs, s.checkIntervalMs)
            && Takes(p.cooldownMs, r.cooldownMs, s.cooldownMs) && Takes(p.nextCheckAt, r.nextCheckAt, s.nextCheckAt)
            && s.status == Active && s.lastCheckedAt == None && s.lastObserved == None && s.lastTriggeredAt == None
            && s.lastConditionState == Unknown
            && s.ruleRevision == r.ruleRevision + 1 && s.armCycleId == r.armCycleId + 1
            && next == db.(rules := db.rules[id := s])
  {
  }

  /** An edit leaves the rule unobserved in its new revision, if no trigger is of a later one. */
  lemma EditedRuleIsUnobserved(db: Db, id: nat, p: RulePatch)
    requires id in db.rules
    requires forall e :: e in db.events && db.events[e].Triggered? && db.events[e].key.ruleId == id ==>
               db.events[e].key.ruleRevision <= db.rules[id].ruleRevision
    ensures Unobserved(Update(db, id, p), id)
  {
  }

  /** A new rule has the fields it was given, is active and never checked. */
  lemma CreatedFields(db: Db, n: NewRule)
    ensures var id, next := db.nextRuleId, Create(db, n);
            var r := next.rules[id];
            && r.condition == n.condition && r.conditionVersion == n.conditionVersion
            && r.instrumentId == n.instrumentId && r.enabled == n.enabled && r.once == n.once
            && r.checkIntervalMs == n.checkIntervalMs
            && r.cooldownMs == n.cooldownMs && r.nextCheckAt == n.nextCheckAt && r.status == Active
            && r.lastCheckedAt == None && r.ruleRevision == 1 && r.armCycleId == 1
            && next == db.(rules := db.rules[id := r], nextRuleId := id + 1)
  {
  }

  /** A rule switched off never runs; switched on again it runs as if it had not been touched. */
  lemma SwitchedRuleRuns(db: Db, id: nat, on: bool, now: int)
    requires id in db.rules
    ensures var next := SetEnabled(db, id, on);
            && (Runs(next.rules[id], now) <==> on && db.rules[id].status == Active && IsDue(db.rules[id], now))
            && next == db.(rules := db.rules[id := next.rules[id]])
            && next.rules[id] == db.rules[id].(enabled := next.rules[id].enabled)
  {
  }

  /** A rule checked at some time, observed or not, is due again exactly when its interval has passed;
      without an interval it is due at once. */
  lemma CheckedRuleIsDueAgain(db: Db, id: nat, ev: Evaluation, now: int)
    requires id in db.rules
    ensures var interval := db.rules[id].checkIntervalMs;
            var observed, missed := RecordEvaluation(db, id, ev).0, RecordUnavailable(db, id, ev.checkedAt);
            && (IsDue(observed.rules[id], now) <==> (interval.Some? ==> ev.checkedAt + interval.value <= now))
            && (IsDue(missed.rules[id], now) <==> (interval.Some? ==> ev.checkedAt + interval.value <= now))
            && observed.rules[id].lastCheckedAt == Some(ev.checkedAt) == missed.rules[id].lastCheckedAt
  {
  }

  /** An unavailable check is logged as one event and leaves what was observed, and all else, alone. */
  lemma UnavailableIsLogged(db: Db, id: nat, checkedAt: int)
    requires WellKept(db) && id in db.rules
    ensures var next := RecordUnavailable(db, id, checkedAt);
            && next.events.Keys == db.events.Keys + {db.nextEventId} && db.nextEventId !in db.events
            && next.events[db.nextEventId] == Unavailable(id, checkedAt) && next.nextEventId > db.nextEventId
            && (forall e :: e in db.events ==> next.events[e] == db.events[e])
            && next.notifications == db.notifications && next.nextRuleId == db.nextRuleId
            && (forall k :: k in db.rules && k != id ==> k in next.rules && next.rules[k] == db.rules[k])
            && next.rules.Keys == db.rules.Keys
            && next.rules[id] == db.rules[id].(lastCheckedAt := next.rules[id].lastCheckedAt,
                                               nextCheckAt := next.rules[id].nextCheckAt)
  {
  }

  /** What an evaluation observed is kept; a recorded trigger completes a rule of "once" mode, and only
      that, and opens no new arm cycle; seeing the condition false after true opens one. */
  lemma EvaluatedRule(db: Db, id: nat, ev: Evaluation)
    requires id in db.rules
    ensures var (next, event) := RecordEvaluation(db, id, ev);
            var r, s := db.rules[id], next.rules[id];
            && s.lastObserved == Some(ev.observed) && s.lastConditionState == ev.conditionState
            && (s.status != r.status || s.enabled != r.enabled ==> event.Some? && r.once)
            && (event.Some? && r.once ==> s.status == Completed && !s.enabled)
            && s.armCycleId - r.armCycleId
               == (if ev.conditionState == False && r.lastConditionState == True then 1 else 0)
            && s.lastTriggeredAt == (if event.Some? then Some(ev.trigger.value.triggeredAt) else r.lastTriggeredAt)
            && SameRule(s, r) && s.conditionVersion == r.conditionVersion && s.instrumentId == r.instrumentId
            && s.checkIntervalMs == r.checkIntervalMs
            && next.rules == db.rules[id := s] && next.nextRuleId == db.nextRuleId
            && (event.None? ==> next.events == db.events && next.notifications == db.notifications)
            && (event.Some? ==>
                  event.value == db.nextEventId && next.notifications == db.notifications + [event.value] &&
                  var t := ev.trigger.value;
                  next.events == db.events[event.value := Triggered(id, t.key, t.triggeredAt)])
  {
  }

  /** A deleted rule is gone with its events; everything else stays. */
  lemma DeletedRuleIsGone(db: Db, id: nat)
    ensures var next := Delete(db, id);
            && id !in next.rules && (forall k :: k != id ==> (k in next.rules <==> k in db.rules))
            && (forall k :: k in next.rules ==> next.rules[k] == db.rules[k])
            && (id in db.rules ==>
                  forall e :: e in next.events <==> e in db.events && db.events[e].ruleId != id)
            && (forall e :: e in next.events ==> e in db.events && next.events[e] == db.events[e])
            && next.notifications == db.notifications && next.nextRuleId == db.nextRuleId
            && next.nextEventId == db.nextEventId
  {
  }
}
