// Any interleaving of runners, edits, switches and deletions. A runner's copy of a rule is
// arbitrary, which covers every copy that has gone stale.
module AlertInterleaving {
  import opened Options
  import opened AlertConditions
  import opened AlertHistory
  import opened AlertStore

  datatype Op =
    | CreateOp(rule: NewRule)
    | EditOp(id: nat, patch: RulePatch)
    | EnableOp(id: nat, enabled: bool)
    | DeleteOp(id: nat)
    | UnavailableOp(id: nat, now: int)
    | EvaluateOp(id: nat, copy: Rule, value: real, now: int, source: string, bucket: string)

  /** A trigger as recorded: the arm cycle, revision and mode of the row at that moment. */
  datatype Recorded = Recorded(ruleId: nat, ruleRevision: nat, armCycleId: nat, once: bool, eventId: nat)

  function Step(db: Db, op: Op): (Db, seq<Recorded>) {
    match op
    case CreateOp(n) => (Create(db, n), [])
    case EditOp(id, p) => (Update(db, id, p), [])
    case EnableOp(id, enabled) => (SetEnabled(db, id, enabled), [])
    case DeleteOp(id) => (Delete(db, id), [])
    case UnavailableOp(id, now) => (if id in db.rules then RecordUnavailable(db, id, now) else db, [])
    case EvaluateOp(id, copy, value, now, source, bucket) =>
      if id !in db.rules then (db, [])
      else
        var r := db.rules[id];
        var (next, eventId) := RecordEvaluation(db, id, Assess(id, copy, value, now, source, bucket));
        (next, if eventId.Some? then [Recorded(id, r.ruleRevision, r.armCycleId, r.once, eventId.value)] else [])
  }

  function Run(ops: seq<Op>): (r: (Db, seq<Recorded>)) {
    if ops == [] then (EmptyDb, [])
    else
      var (db, log) := Run(ops[..|ops| - 1]);
      var (next, more) := Step(db, ops[|ops| - 1]);
      (next, log + more)
  }

  /** What a past trigger means for the row as it is now. */
  ghost predicate Explained(db: Db, t: Recorded) {
    t.ruleId < db.nextRuleId && t.eventId < db.nextEventId &&
    (t.ruleId in db.rules ==> Behind(t, db.rules[t.ruleId]))
  }

  /** The row has moved past the trigger's arm cycle, or still holds the condition as true; a
      one-shot rule has moved past the trigger's revision, or is completed. */
  ghost predicate Behind(t: Recorded, r: Rule) {
    && (t.armCycleId < r.armCycleId || (t.armCycleId == r.armCycleId && r.lastConditionState == True))
    && (t.ruleRevision < r.ruleRevision ||
        (t.ruleRevision == r.ruleRevision && t.once == r.once && (t.once ==> r.status == Completed)))
  }

  ghost predicate Apart(t: Recorded, u: Recorded) {
    && t.eventId != u.eventId
    && (t.ruleId == u.ruleId ==> t.armCycleId != u.armCycleId)
    && (t.ruleId == u.ruleId && t.ruleRevision == u.ruleRevision ==> !t.once && !u.once)
  }

  ghost predicate Consistent(db: Db, log: seq<Recorded>) {
    && (forall id :: id in db.rules ==> id < db.nextRuleId)
    && (forall i :: 0 <= i < |log| ==> Explained(db, log[i]))
    && (forall i, j :: 0 <= i < j < |log| ==> Apart(log[i], log[j]))
  }

  /** Revisions and arm cycles of a rule never go back, and an old trigger stays explained. */
  lemma RowsMoveForward(db: Db, op: Op)
    requires forall id :: id in db.rules ==> id < db.nextRuleId
    ensures var next := Step(db, op).0;
            db.nextRuleId <= next.nextRuleId && db.nextEventId <= next.nextEventId &&
            (forall id :: id in next.rules ==> id < next.nextRuleId) &&
            forall id :: id in next.rules && id < db.nextRuleId ==>
                id in db.rules && Forward(db.rules[id], next.rules[id])
  {
    hide ConditionIsTrue, Crosses, KeyTaken;
  }

  ghost predicate Forward(r: Rule, s: Rule) {
    && r.armCycleId <= s.armCycleId && r.ruleRevision <= s.ruleRevision
    && (r.armCycleId == s.armCycleId && r.lastConditionState == True ==> s.lastConditionState == True)
    && (r.ruleRevision == s.ruleRevision ==> r.once == s.once && (r.status == Completed ==> s.status == Completed))
  }

  lemma StepIsConsistent(db: Db, log: seq<Recorded>, op: Op)
    requires Consistent(db, log)
    ensures var (next, more) := Step(db, op); Consistent(next, log + more)
  {
    RowsMoveForward(db, op);
    var (next, more) := Step(db, op);
    forall i | 0 <= i < |log| ensures Explained(next, log[i]) {
      assert Explained(db, log[i]);
    }
    if more != [] {
      TriggerIsNew(db, op);
      forall i | 0 <= i < |log| ensures Apart(log[i], more[0]) {
        assert Explained(db, log[i]);
      }
    }
    hide Step;
  }

  /** A trigger is recorded only from a row whose arm cycle has none yet. */
  lemma TriggerIsNew(db: Db, op: Op)
    requires Step(db, op).1 != []
    ensures op.EvaluateOp? && op.id in db.rules
    ensures var (next, more) := Step(db, op); var r := db.rules[op.id];
            |more| == 1 && more[0] == Recorded(op.id, r.ruleRevision, r.armCycleId, r.once, db.nextEventId) &&
            r.lastConditionState != True && r.status == Active &&
            op.id in next.rules && Behind(more[0], next.rules[op.id]) && next.nextEventId == db.nextEventId + 1
  {
  }

  lemma {:induction false} RunIsConsistent(ops: seq<Op>)
    ensures Consistent(Run(ops).0, Run(ops).1)
    decreases |ops|
  {
    if ops != [] {
      RunIsConsistent(ops[..|ops| - 1]);
      StepIsConsistent(Run(ops[..|ops| - 1]).0, Run(ops[..|ops| - 1]).1, ops[|ops| - 1]);
    }
  }

  /** Over every interleaving an arm cycle of a rule has at most one recorded trigger, and a
      revision of a one-shot rule has at most one. */
  lemma OneTriggerPerArmCycle(ops: seq<Op>, i: nat, j: nat)
    requires i < |Run(ops).1| && j < |Run(ops).1| && i != j && Run(ops).1[i].ruleId == Run(ops).1[j].ruleId
    ensures var log := Run(ops).1;
            log[i].armCycleId != log[j].armCycleId &&
            (log[i].ruleRevision == log[j].ruleRevision ==> !log[i].once && !log[j].once)
  {
    RunIsConsistent(ops);
    var log := Run(ops).1;
    assert if i < j then Apart(log[i], log[j]) else Apart(log[j], log[i]);
  }

  /** Revision and arm cycle of a rule never decrease over a step. */
  lemma ArmCyclesNeverDecrease(ops: seq<Op>, op: Op, id: nat)
    requires id in Run(ops).0.rules && id in Step(Run(ops).0, op).0.rules
    ensures var r, s := Run(ops).0.rules[id], Step(Run(ops).0, op).0.rules[id];
            r.armCycleId <= s.armCycleId && r.ruleRevision <= s.ruleRevision
  {
    RunIsConsistent(ops);
    RowsMoveForward(Run(ops).0, op);
  }

  // ---------------------------------------------------------------- notifications

  ghost predicate Notified(db: Db, log: seq<Recorded>) {
    && (forall i :: 0 <= i < |log| ==> multiset(db.notifications)[log[i].eventId] == 1)
    && (forall n :: n in db.notifications ==> n < db.nextEventId)
    && (forall e :: e in db.events ==> e < db.nextEventId)
    && (forall e :: e in db.events && db.events[e].Triggered? ==> exists i :: 0 <= i < |log| && log[i].eventId == e)
  }

  /** Every recorded trigger has exactly one notification, and every trigger event still in the
      table is one of the recorded ones. */
  lemma {:induction false} OneNotificationPerTrigger(ops: seq<Op>)
    ensures Notified(Run(ops).0, Run(ops).1)
    decreases |ops|
  {
    if ops != [] {
      OneNotificationPerTrigger(ops[..|ops| - 1]);
      RunIsConsistent(ops[..|ops| - 1]);
      StepNotifies(Run(ops[..|ops| - 1]).0, Run(ops[..|ops| - 1]).1, ops[|ops| - 1]);
    }
  }

  /** What one step does to events and notifications: it adds at most the event of the next id. */
  ghost predicate AddsOne(db: Db, next: Db, more: seq<Recorded>) {
    var id := db.nextEventId;
    && (if more == [] then next.notifications == db.notifications
        else |more| == 1 && more[0].eventId == id && id in next.events && next.notifications == db.notifications + [id])
    && (forall e :: e in next.events && e != id ==> e in db.events && next.events[e] == db.events[e])
    && (id in next.events && next.events[id].Triggered? ==> more != [])
    && (if id in next.events then next.nextEventId == id + 1 else next.nextEventId == id)
  }

  lemma StepAddsOne(db: Db, op: Op)
    requires forall e :: e in db.events ==> e < db.nextEventId
    ensures AddsOne(db, Step(db, op).0, Step(db, op).1)
  {
  }

  lemma StepNotifies(db: Db, log: seq<Recorded>, op: Op)
    requires Notified(db, log) && Consistent(db, log)
    ensures var (next, more) := Step(db, op); Notified(next, log + more)
  {
    hide Step;
    var (next, more) := Step(db, op);
    StepAddsOne(db, op);
    forall i | 0 <= i < |log| ensures log[i].eventId < db.nextEventId {
      assert Explained(db, log[i]);
    }
    hide Consistent;
    AddedIsNotified(db, log, next, more);
  }

  lemma AddedIsNotified(db: Db, log: seq<Recorded>, next: Db, more: seq<Recorded>)
    requires Notified(db, log) && AddsOne(db, next, more) && forall i :: 0 <= i < |log| ==>
             log[i].eventId < db.nextEventId
    ensures Notified(next, log + more)
  {
    var id := db.nextEventId;
    assert id !in db.notifications;
    forall e | e in next.events && next.events[e].Triggered?
        ensures exists i :: 0 <= i < |log + more| && (log + more)[i].eventId == e {
      if e != id {
        var i :| 0 <= i < |log| && log[i].eventId == e;
        assert (log + more)[i].eventId == e;
      } else {
        assert (log + more)[|log|].eventId == e;
      }
    }
  }

  /** Every reachable state keeps its event ids below the next one and its keys with their rules. */
  lemma {:induction false} TablesAreWellKept(ops: seq<Op>)
    ensures WellKept(Run(ops).0)
    decreases |ops|
  {
    if ops != [] {
      TablesAreWellKept(ops[..|ops| - 1]);
      StepIsWellKept(Run(ops[..|ops| - 1]).0, ops[|ops| - 1]);
    }
  }

  lemma StepIsWellKept(db: Db, op: Op)
    requires WellKept(db)
    ensures WellKept(Step(db, op).0)
  {
    hide ConditionIsTrue, Crosses, KeyTaken, Evaluated;
  }

  // ---------------------------------------------------------------- rules start over

  /** A runner's copy is of a revision that the rule has or had. */
  ghost predicate CopiesAreOld(ops: seq<Op>) {
    forall k :: 0 <= k < |ops| && ops[k].EvaluateOp? ==>
      var rules := Run(ops[..k]).0.rules;
      ops[k].id in rules ==> ops[k].copy.ruleRevision <= rules[ops[k].id].ruleRevision
  }

  /** Triggers are of rules that were created, and of revisions that exist. */
  ghost predicate KeysExist(db: Db) {
    forall e :: e in db.events && db.events[e].Triggered? ==>
      var key := db.events[e].key;
      key.ruleId < db.nextRuleId &&
      (key.ruleId in db.rules ==> key.ruleRevision <= db.rules[key.ruleId].ruleRevision)
  }

  lemma StepKeepsKeys(db: Db, op: Op)
    requires KeysExist(db) && forall id :: id in db.rules ==> id < db.nextRuleId
    requires op.EvaluateOp? && op.id in db.rules ==> op.copy.ruleRevision <= db.rules[op.id].ruleRevision
    ensures KeysExist(Step(db, op).0)
  {
    RowsMoveForward(db, op);
    hide ConditionIsTrue, Crosses, KeyTaken;
  }

  lemma {:induction false} KeysAlwaysExist(ops: seq<Op>)
    requires CopiesAreOld(ops)
    ensures KeysExist(Run(ops).0)
    decreases |ops|
  {
    hide Step, KeysExist;
    if ops == [] {
      NoKeys();
    } else {
      var prior := ops[..|ops| - 1];
      assert forall k :: 0 <= k < |prior| ==> prior[..k] == ops[..k];
      KeysAlwaysExist(prior);
      RunIsConsistent(prior);
      StepKeepsKeys(Run(prior).0, ops[|ops| - 1]);
    }
  }

  lemma NoKeys()
    ensures KeysExist(EmptyDb)
  {
  }

  /** Whatever happened before, an edit or a creation leaves the rule unobserved in its revision: its
      first observation triggers nothing, and from there its triggers are the rising edges. */
  lemma RulesStartOver(ops: seq<Op>, id: nat, p: RulePatch, n: NewRule)
    requires CopiesAreOld(ops)
    ensures var db := Run(ops).0;
            (id in db.rules ==> Unobserved(Update(db, id, p), id)) && Unobserved(Create(db, n), db.nextRuleId)
  {
    hide Run, Update, Create, Unobserved;
    KeysAlwaysExist(ops);
    if id in Run(ops).0.rules {
      EditedRuleIsUnobserved(Run(ops).0, id, p);
    }
    CreatedRuleIsUnobserved(Run(ops).0, n);
  }
}
