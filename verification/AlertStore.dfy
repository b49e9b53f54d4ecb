// The alert tables of src/market-state/service.ts. Each method is one database
// transaction; row ids are never reused. Times are milliseconds.
module AlertStore {
  import opened Options
  import opened AlertConditions

  datatype RuleStatus = Active | Completed

  datatype ConditionState = Unknown | True | False

  datatype Rule = Rule(
    condition: Condition,
    conditionVersion: int,
    instrumentId: Option<nat>,
    enabled: bool,
    status: RuleStatus,
    once: bool,
    checkIntervalMs: Option<int>,
    cooldownMs: Option<int>,
    nextCheckAt: Option<int>,
    lastCheckedAt: Option<int>,
    lastObserved: Option<real>,
    lastConditionState: ConditionState,
    ruleRevision: nat,
    armCycleId: nat,
    lastTriggeredAt: Option<int>)

  /** The parts of the key; the source joins them with colons. */
  datatype DedupeKey = DedupeKey(ruleId: nat, ruleRevision: nat, armCycleId: nat, source: string, bucket: string,
      value: real)

  datatype AlertEvent =
    | Triggered(ruleId: nat, key: DedupeKey, triggeredAt: int)
    | Unavailable(ruleId: nat, checkedAt: int)

  datatype Db = Db(
    rules: map<nat, Rule>,
    nextRuleId: nat,
    events: map<nat, AlertEvent>,
    nextEventId: nat,
    notifications: seq<nat>)            // event ids the notifications are about

  const EmptyDb: Db := Db(map[], 1, map[], 1, [])

  datatype Trigger = Trigger(key: DedupeKey, triggeredAt: int)

  datatype Evaluation = Evaluation(observed: real, checkedAt: int, conditionState: ConditionState,
      trigger: Option<Trigger>)

  datatype NewRule = NewRule(
    condition: Condition, conditionVersion: int, instrumentId: Option<nat>, enabled: bool, once: bool,
    checkIntervalMs: Option<int>, cooldownMs: Option<int>, nextCheckAt: Option<int>)

  /** None leaves a field as it is. */
  datatype RulePatch = RulePatch(
    condition: Option<Condition>, conditionVersion: Option<int>, instrumentId: Option<Option<nat>>,
    enabled: Option<bool>, once: Option<bool>,
    checkIntervalMs: Option<Option<int>>, cooldownMs: Option<Option<int>>, nextCheckAt: Option<Option<int>>)

  function Or<T>(patch: Option<T>, existing: T): T {
    match patch
    case None => existing
    case Some(value) => value
  }

  function NextAlertCheckAt(r: Rule, checkedAt: int): Option<int> {
    match r.checkIntervalMs
    case None => None
    case Some(interval) => Some(checkedAt + interval)
  }

  predicate KeyTaken(events: map<nat, AlertEvent>, key: DedupeKey) {
    exists id :: id in events && events[id].Triggered? && events[id].key == key
  }

  /** Events have used ids, and the key of a trigger names its rule. */
  ghost predicate WellKept(db: Db) {
    forall e :: e in db.events ==>
      e < db.nextEventId && (db.events[e].Triggered? ==> db.events[e].key.ruleId == db.events[e].ruleId)
  }

  // ---------------------------------------------------------------- the transactions on values

  function Create(db: Db, n: NewRule): Db {
    var r := Rule(n.condition, n.conditionVersion, n.instrumentId, n.enabled, Active, n.once, n.checkIntervalMs,
                  n.cooldownMs, n.nextCheckAt, None, None, Unknown, 1, 1, None);
    db.(rules := db.rules[db.nextRuleId := r], nextRuleId := db.nextRuleId + 1)
  }

  /** Every edit starts a new revision and a new arm cycle and forgets what was observed. */
  function Edited(r: Rule, p: RulePatch): Rule {
    Rule(Or(p.condition, r.condition), Or(p.conditionVersion, r.conditionVersion), Or(p.instrumentId, r.instrumentId),
         Or(p.enabled, r.enabled), Active, Or(p.once, r.once), Or(p.checkIntervalMs, r.checkIntervalMs),
         Or(p.cooldownMs, r.cooldownMs), Or(p.nextCheckAt, r.nextCheckAt), None, None, Unknown,
         r.ruleRevision + 1, r.armCycleId + 1, None)
  }

  function Update(db: Db, id: nat, p: RulePatch): Db {
    if id in db.rules then db.(rules := db.rules[id := Edited(db.rules[id], p)]) else db
  }

  function SetEnabled(db: Db, id: nat, enabled: bool): Db {
    if id in db.rules then db.(rules := db.rules[id := db.rules[id].(enabled := enabled)]) else db
  }

  /** Deleting a rule deletes its events; notifications stay. */
  function Delete(db: Db, id: nat): Db {
    if id in db.rules then
      db.(rules := map k | k in db.rules && k != id :: db.rules[k],
          events := map e | e in db.events && db.events[e].ruleId != id :: db.events[e])
    else db
  }

  predicate CanInsertTrigger(r: Rule) {
    r.enabled && r.status == Active && r.lastConditionState != True
  }

  /** The row after an evaluation that recorded a trigger or did not. */
  function Evaluated(r: Rule, ev: Evaluation, triggered: bool): Rule {
    var rearmed := ev.conditionState == False && r.lastConditionState == True;
    var oneShot := triggered && r.once;
    r.(lastCheckedAt := Some(ev.checkedAt),
       lastObserved := Some(ev.observed),
       lastConditionState := ev.conditionState,
       armCycleId := if rearmed then r.armCycleId + 1 else r.armCycleId,
       nextCheckAt := NextAlertCheckAt(r, ev.checkedAt),
       lastTriggeredAt := if triggered && ev.trigger.Some? then Some(ev.trigger.value.triggeredAt)
         else r.lastTriggeredAt,
       enabled := if oneShot then false else r.enabled,
       status := if oneShot then Completed else r.status)
  }

  /** `INSERT OR IGNORE` against the unique dedupe index. */
  predicate Inserts(db: Db, id: nat, ev: Evaluation)
    requires id in db.rules
  {
    ev.trigger.Some? && CanInsertTrigger(db.rules[id]) && !KeyTaken(db.events, ev.trigger.value.key)
  }

  function RecordEvaluation(db: Db, id: nat, ev: Evaluation): (Db, Option<nat>)
    requires id in db.rules
  {
    var r := db.rules[id];
    if Inserts(db, id, ev) then
      var eventId := db.nextEventId;
      (Db(db.rules[id := Evaluated(r, ev, true)], db.nextRuleId,
          db.events[eventId := Triggered(id, ev.trigger.value.key, ev.trigger.value.triggeredAt)], eventId + 1,
          db.notifications + [eventId]), Some(eventId))
    else (db.(rules := db.rules[id := Evaluated(r, ev, false)]), None)
  }

  function RecordUnavailable(db: Db, id: nat, checkedAt: int): Db
    requires id in db.rules
  {
    var r := db.rules[id];
    db.(rules := db.rules[id := r.(lastCheckedAt := Some(checkedAt), nextCheckAt := NextAlertCheckAt(r, checkedAt))],
        events := db.events[db.nextEventId := Unavailable(id, checkedAt)], nextEventId := db.nextEventId + 1)
  }

  // ---------------------------------------------------------------- the tables

  class AlertTables {
    var rules: map<nat, Rule>
    var nextRuleId: nat
    var events: map<nat, AlertEvent>
    var nextEventId: nat
    var notifications: seq<nat>

    ghost function Value(): Db
      reads this
    {
      Db(rules, nextRuleId, events, nextEventId, notifications)
    }

    constructor ()
      ensures Value() == EmptyDb
    {
      rules, nextRuleId, events, nextEventId, notifications := map[], 1, map[], 1, [];
    }

    method CreateAlertRule(n: NewRule) returns (id: nat)
      modifies this
      ensures Value() == Create(old(Value()), n) && id == old(nextRuleId)
    {
      id := nextRuleId;
      nextRuleId := nextRuleId + 1;
      rules := rules[id := Rule(n.condition, n.conditionVersion, n.instrumentId, n.enabled, Active, n.once,
                                n.checkIntervalMs, n.cooldownMs, n.nextCheckAt, None, None, Unknown, 1, 1, None)];
    }

    method UpdateAlertRule(id: nat, p: RulePatch) returns (found: bool)
      modifies this
      ensures Value() == Update(old(Value()), id, p) && found == (id in old(rules))
    {
      if id !in rules {
        return false;
      }
      var existing := rules[id];
      var r := existing.(condition := Or(p.condition, existing.condition));
      r := r.(conditionVersion := Or(p.conditionVersion, r.conditionVersion),
              instrumentId := Or(p.instrumentId, r.instrumentId));
      r := r.(enabled := Or(p.enabled, r.enabled), once := Or(p.once, r.once),
              nextCheckAt := Or(p.nextCheckAt, r.nextCheckAt));
      r := r.(checkIntervalMs := Or(p.checkIntervalMs, r.checkIntervalMs),
              cooldownMs := Or(p.cooldownMs, r.cooldownMs));
      r := r.(status := Active, lastCheckedAt := None, lastObserved := None, lastConditionState := Unknown,
              lastTriggeredAt := None);
      r := r.(ruleRevision := r.ruleRevision + 1, armCycleId := r.armCycleId + 1);
      rules := rules[id := r];
      return true;
    }

    method SetAlertRuleEnabled(id: nat, enabled: bool)
      modifies this
      ensures Value() == SetEnabled(old(Value()), id, enabled)
    {
      if id in rules {
        rules := rules[id := rules[id].(enabled := enabled)];
      }
    }

    method DeleteAlertRule(id: nat)
      modifies this
      ensures Value() == Delete(old(Value()), id)
    {
      if id in rules {
        rules := map k | k in rules && k != id :: rules[k];
        events := map e | e in events && events[e].ruleId != id :: events[e];
      }
    }

    /** `found` is false where the program throws and the transaction changes nothing. */
    method RecordAlertEvaluationResult(id: nat, ev: Evaluation) returns (found: bool, eventId: Option<nat>)
      modifies this
      ensures found == (id in old(rules))
      ensures !found ==> Value() == old(Value()) && eventId == None
      ensures found ==> (Value(), eventId) == RecordEvaluation(old(Value()), id, ev)
    {
      if id !in rules {
        return false, None;
      }
      var row := rules[id];
      eventId := None;
      if ev.trigger.Some? && row.enabled && row.status == Active && row.lastConditionState != True {
        if !KeyTaken(events, ev.trigger.value.key) {
          eventId := Some(nextEventId);
          events := events[nextEventId := Triggered(id, ev.trigger.value.key, ev.trigger.value.triggeredAt)];
          notifications := notifications + [nextEventId];
          nextEventId := nextEventId + 1;
        }
      }
      var triggered := eventId.Some?;
      var updated := row.(lastCheckedAt := Some(ev.checkedAt), lastObserved := Some(ev.observed));
      if ev.conditionState == False && row.lastConditionState == True {
        updated := updated.(armCycleId := row.armCycleId + 1);
      }
      updated := updated.(lastConditionState := ev.conditionState, nextCheckAt := NextAlertCheckAt(row, ev.checkedAt));
      if triggered {
        updated := updated.(lastTriggeredAt := Some(ev.trigger.value.triggeredAt));
        if row.once {
          updated := updated.(enabled := false, status := Completed);
        }
      }
      rules := rules[id := updated];
      return true, eventId;
    }

    method RecordAlertUnavailable(id: nat, checkedAt: int) returns (found: bool)
      modifies this
      ensures found == (id in old(rules))
      ensures Value() == if found then RecordUnavailable(old(Value()), id, checkedAt) else old(Value())
    {
      if id !in rules {
        return false;
      }
      events := events[nextEventId := Unavailable(id, checkedAt)];
      nextEventId := nextEventId + 1;
      rules := rules[id := rules[id].(lastCheckedAt := Some(checkedAt),
                                      nextCheckAt := NextAlertCheckAt(rules[id], checkedAt))];
      return true;
    }
  }

  // ---------------------------------------------------------------- what the runner asks for

  predicate OutsideCooldown(r: Rule, now: int) {
    r.lastTriggeredAt == None || r.cooldownMs == None || now - r.lastTriggeredAt.value >= r.cooldownMs.value
  }

  /** The evaluation the runner computes from its copy of the rule and an observed value. */
  function Assess(id: nat, r: Rule, value: real, now: int, source: string, bucket: string): Evaluation {
    var state := if ConditionIsTrue(r.condition, value) then True else False;
    var shouldTrigger :=
      state == True && r.lastObserved.Some? && Crosses(r.condition, r.lastObserved.value, value) &&
        OutsideCooldown(r, now);
    Evaluation(value, now, state,
               if shouldTrigger
               then Some(Trigger(DedupeKey(id, r.ruleRevision, r.armCycleId, source, bucket, value), now))
               else None)
  }
}
