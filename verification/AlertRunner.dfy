// One alert check run of src/market-state/alert-runner.ts over the alert tables. Between
// the list of rules and each recorded result another task may delete a rule.
module AlertRunner {
  import opened Options
  import opened AlertConditions
  import opened AlertStore
  import AlertHistory
  import opened PriceObservations

  const ALERT_CONDITION_VERSION: int := 1

  /** Why a runnable rule had no observation; `Unspecified` is the fallback text. */
  datatype Reason = Specified(text: string) | Unspecified

  datatype Line =
    | NeedsReview(ruleId: nat)
    | NoInstrument(ruleId: nat)
    | NoObservation(ruleId: nat, reason: Reason)
    | TriggeredLine(ruleId: nat)
    | CheckedLine(ruleId: nat)

  /** The completed run, or the run that stopped on a thrown error. */
  datatype RunResult =
    | RunCompleted(checked: nat, triggered: nat, unavailable: nat, lines: seq<Line>)
    | RunFailed(triggered: nat, unavailable: nat)

  /** The counts `completeAlertCheckRun` stores: a failed run stores no checked rules. */
  datatype StoredCounts = StoredCounts(checkedCount: nat, triggeredCount: nat, unavailableCount: nat)

  function Stored(r: RunResult): StoredCounts {
    match r
    case RunCompleted(checked, triggered, unavailable, _) => StoredCounts(checked, triggered, unavailable)
    case RunFailed(triggered, unavailable) => StoredCounts(0, triggered, unavailable)
  }

  predicate IsPriceRule(r: Rule) {
    r.condition.PriceCrossesAbove? || r.condition.PriceCrossesBelow?
  }

  /** What a run needs from the outside world. */
  datatype World = World(
    instruments: map<nat, string>,
    allowsDelayed: nat -> bool,                  // the rule's delayed-data setting
    canUse: string -> bool,
    tradingView: TradingViewReply,
    yahoo: string -> YahooReply,
    history: map<nat, real>,                     // observations of the rules that use price history
    deletedBefore: nat -> seq<nat>)              // the rules that others delete before the n-th result is recorded

  function IsTriggered(l: Line): bool { l.TriggeredLine? }

  function IsUnavailable(l: Line): bool { l.NeedsReview? || l.NoInstrument? || l.NoObservation? }

  function Count(lines: seq<Line>, p: Line -> bool): nat {
    if lines == [] then 0 else Count(lines[..|lines| - 1], p) + if p(lines[|lines| - 1]) then 1 else 0
  }

  function RuleIds(lines: seq<Line>): (ids: seq<nat>)
    ensures |ids| == |lines|
  {
    seq(|lines|, i requires 0 <= i < |lines| => lines[i].ruleId)
  }

  /** The ids of the rules a run checks, in list order. */
  function DueIds(ids: seq<nat>, rules: map<nat, Rule>, now: int): (due: seq<nat>)
    requires forall id :: id in ids ==> id in rules
    ensures forall id :: id in due ==> id in ids
  {
    if ids == [] then []
    else
      var n := |ids| - 1;
      DueIds(ids[..n], rules, now) + if AlertHistory.Runs(rules[ids[n]], now) then [ids[n]] else []
  }

  datatype Runnable = Runnable(ruleId: nat, rule: Rule, symbol: string)

  /** The rule's condition is of the current version and its instrument exists. */
  predicate CanRun(r: Rule, world: World) {
    r.conditionVersion == ALERT_CONDITION_VERSION && r.instrumentId.Some? && r.instrumentId.value in world.instruments
  }

  /** The runnable ones of the due rules, in order, each with its instrument's symbol. */
  function Runnables(due: seq<nat>, rules: map<nat, Rule>, world: World): seq<Runnable>
    requires forall id :: id in due ==> id in rules
    decreases |due|
  {
    if due == [] then []
    else
      var n := |due| - 1;
      var r := rules[due[n]];
      Runnables(due[..n], rules, world) +
      if CanRun(r, world) then [Runnable(due[n], r, world.instruments[r.instrumentId.value])] else []
  }

  /** The lines of the other due rules: an old condition, or else a missing instrument. */
  function SkippedLines(due: seq<nat>, rules: map<nat, Rule>, world: World): seq<Line>
    requires forall id :: id in due ==> id in rules
    decreases |due|
  {
    if due == [] then []
    else
      var n := |due| - 1;
      var r := rules[due[n]];
      SkippedLines(due[..n], rules, world) +
      if CanRun(r, world) then []
      else [if r.conditionVersion != ALERT_CONDITION_VERSION then NeedsReview(due[n]) else NoInstrument(due[n])]
  }

  /** Splits the due rules into runnable ones and lines for those that cannot run. */
  method Classify(due: seq<nat>, rules: map<nat, Rule>, world: World)
    returns (runnable: seq<Runnable>, lines: seq<Line>)
    requires forall id :: id in due ==> id in rules
    ensures runnable == Runnables(due, rules, world) && lines == SkippedLines(due, rules, world)
  {
    runnable, lines := [], [];
    for i := 0 to |due|
      invariant runnable == Runnables(due[..i], rules, world) && lines == SkippedLines(due[..i], rules, world)
    {
      var id, r := due[i], rules[due[i]];
      assert due[..i + 1][..i] == due[..i];
      if r.conditionVersion != ALERT_CONDITION_VERSION {
        lines := lines + [NeedsReview(id)];
      } else if r.instrumentId.None? || r.instrumentId.value !in world.instruments {
        lines := lines + [NoInstrument(id)];
      } else {
        runnable := runnable + [Runnable(id, r, world.instruments[r.instrumentId.value])];
      }
    }
    assert due[..|due|] == due;
  }

  function Ids(runnable: seq<Runnable>): (ids: seq<nat>)
    ensures |ids| == |runnable|
  {
    seq(|runnable|, i requires 0 <= i < |runnable| => runnable[i].ruleId)
  }

  lemma IdsAppend(runnable: seq<Runnable>, x: Runnable)
    ensures Ids(runnable + [x]) == Ids(runnable) + [x.ruleId]
  {
  }

  lemma RuleIdsAppend(lines: seq<Line>, line: Line)
    ensures RuleIds(lines + [line]) == RuleIds(lines) + [line.ruleId]
  {
  }

  /** Every due rule is filed once, under the runnable ones or under the lines. */
  lemma {:induction false} EachRuleIsFiled(due: seq<nat>, rules: map<nat, Rule>, world: World)
    requires forall id :: id in due ==> id in rules
    ensures var runnable, lines := Runnables(due, rules, world), SkippedLines(due, rules, world);
            multiset(RuleIds(lines)) + multiset(Ids(runnable)) == multiset(due) && |lines| + |runnable| == |due|
    decreases |due|
  {
    hide CanRun, Ids, RuleIds;
    if due == [] {
      NothingFiled();
    } else {
      var n := |due| - 1;
      var id, r := due[n], rules[due[n]];
      var runnable, lines := Runnables(due[..n], rules, world), SkippedLines(due[..n], rules, world);
      EachRuleIsFiled(due[..n], rules, world);
      assert due == due[..n] + [id];
      if CanRun(r, world) {
        SymbolOf(r, world);
        IdsAppend(runnable, Runnable(id, r, world.instruments[r.instrumentId.value]));
        assert lines + [] == lines;
      } else {
        RuleIdsAppend(lines, if r.conditionVersion != ALERT_CONDITION_VERSION then NeedsReview(id)
                      else NoInstrument(id));
        assert runnable + [] == runnable;
      }
    }
  }

  lemma NothingFiled()
    ensures RuleIds([]) == [] && Ids([]) == []
  {
  }

  /** A due rule is runnable exactly if it can run; otherwise its line has the reason that applies first. */
  lemma {:induction false} FiledWhereItBelongs(due: seq<nat>, rules: map<nat, Rule>, world: World)
    requires forall id :: id in due ==> id in rules
    ensures forall x :: x in Runnables(due, rules, world) <==> x.ruleId in due && FiledAs(x, rules, world)
    ensures forall l :: l in SkippedLines(due, rules, world) <==> l.ruleId in due && SkippedFor(l, rules, world)
    decreases |due|
  {
    if due != [] {
      var n := |due| - 1;
      FiledWhereItBelongs(due[..n], rules, world);
      assert due == due[..n] + [due[n]];
    }
  }

  predicate FiledAs(x: Runnable, rules: map<nat, Rule>, world: World) {
    x.ruleId in rules && x.rule == rules[x.ruleId] && CanRun(x.rule, world)
    && x.symbol == world.instruments[x.rule.instrumentId.value]
  }

  predicate SkippedFor(l: Line, rules: map<nat, Rule>, world: World) {
    l.ruleId in rules && !CanRun(rules[l.ruleId], world)
    && l == if rules[l.ruleId].conditionVersion != ALERT_CONDITION_VERSION then NeedsReview(l.ruleId)
      else NoInstrument(l.ruleId)
  }

  // ---------------------------------------------------------------- the quotes of a run

  function AsPriceRule(x: Runnable, world: World): PriceRule {
    PriceRule(x.symbol, world.allowsDelayed(x.ruleId))
  }

  /** The price rules and their symbols, each symbol once. */
  method PriceRules(runnable: seq<Runnable>, world: World) returns (rules: seq<PriceRule>, symbols: seq<string>)
    ensures forall r :: r in rules <==> exists x :: x in runnable && IsPriceRule(x.rule) && r == AsPriceRule(x, world)
    ensures forall s :: s in symbols <==> exists x :: x in runnable && IsPriceRule(x.rule) && s == x.symbol
    ensures forall i, j :: 0 <= i < j < |symbols| ==> symbols[i] != symbols[j]
  {
    rules, symbols := [], [];
    for i := 0 to |runnable|
      invariant forall r :: r in rules <==>
                  exists x :: x in runnable[..i] && IsPriceRule(x.rule) && r == AsPriceRule(x, world)
      invariant forall s :: s in symbols <==> exists x :: x in runnable[..i] && IsPriceRule(x.rule) && s == x.symbol
      invariant forall i, j :: 0 <= i < j < |symbols| ==> symbols[i] != symbols[j]
    {
      var x := runnable[i];
      assert runnable[..i + 1] == runnable[..i] + [x];
      if IsPriceRule(x.rule) {
        rules := rules + [AsPriceRule(x, world)];
        if x.symbol !in symbols {
          symbols := symbols + [x.symbol];
        }
      }
    }
    assert runnable[..|runnable|] == runnable;
  }

  /** The recorded reason for a price rule's key, else for its symbol, else none. */
  function ReasonFor(l: Loaded, x: Runnable, world: World): Reason {
    var key := ByKey(RuleKey(AsPriceRule(x, world)));
    if IsPriceRule(x.rule) && key in l.reasons then Specified(l.reasons[key])
    else if BySymbol(x.symbol) in l.reasons then Specified(l.reasons[BySymbol(x.symbol)])
    else Unspecified
  }

  /** What the runner compares the rule with: a loaded quote or the price history. */
  function ObservedValue(x: Runnable, loaded: Loaded, world: World): Option<real> {
    if IsPriceRule(x.rule) then
      var key := RuleKey(AsPriceRule(x, world));
      if key in loaded.observations then Some(loaded.observations[key].value) else None
    else if x.ruleId in world.history then Some(world.history[x.ruleId]) else None
  }

  /** A price rule without an observation has a recorded reason. */
  lemma ReasonIsRecorded(loaded: Loaded, x: Runnable, world: World)
    requires IsPriceRule(x.rule) && Explained(loaded, x.symbol, world.allowsDelayed(x.ruleId))
    requires ObservedValue(x, loaded, world).None?
    ensures ReasonFor(loaded, x, world).Specified?
  {
  }

  // ---------------------------------------------------------------- one check

  /** What the checks of a run read besides the tables. */
  datatype Context = Context(world: World, loaded: Loaded, now: int, source: string, bucket: string)

  function Assessed(x: Runnable, value: real, c: Context): Evaluation {
    Assess(x.ruleId, x.rule, value, c.now, c.source, c.bucket)
  }

  /** What one check leaves in the tables. */
  function Checked(db: Db, x: Runnable, c: Context): Db {
    if x.ruleId !in db.rules then db
    else
      match ObservedValue(x, c.loaded, c.world)
      case None => RecordUnavailable(db, x.ruleId, c.now)
      case Some(value) => RecordEvaluation(db, x.ruleId, Assessed(x, value, c)).0
  }

  /** The line of one check; None where recording throws because the rule is gone. */
  function LineOf(db: Db, x: Runnable, c: Context): Option<Line> {
    if x.ruleId !in db.rules then None
    else
      match ObservedValue(x, c.loaded, c.world)
      case None => Some(NoObservation(x.ruleId, ReasonFor(c.loaded, x, c.world)))
      case Some(value) =>
        Some(if Inserts(db, x.ruleId, Assessed(x, value, c)) then TriggeredLine(x.ruleId) else CheckedLine(x.ruleId))
  }

  /** One rule of the run; None where recording the result throws. */
  method CheckRule(tables: AlertTables, x: Runnable, c: Context) returns (line: Option<Line>)
    modifies tables
    ensures tables.Value() == Checked(old(tables.Value()), x, c) && line == LineOf(old(tables.Value()), x, c)
  {
    hide ObservedValue, ReasonFor, Assess;
    var value := ObservedValue(x, c.loaded, c.world);
    if value.None? {
      var found := tables.RecordAlertUnavailable(x.ruleId, c.now);
      return if found then Some(NoObservation(x.ruleId, ReasonFor(c.loaded, x, c.world))) else None;
    }
    var found, eventId := tables.RecordAlertEvaluationResult(x.ruleId, Assessed(x, value.value, c));
    if !found {
      return None;
    }
    return Some(if eventId.Some? then TriggeredLine(x.ruleId) else CheckedLine(x.ruleId));
  }

  /** A price rule waits for a quote of its key, any other rule for a value from its price history. */
  predicate LacksValue(x: Runnable, c: Context) {
    if IsPriceRule(x.rule) then RuleKey(AsPriceRule(x, c.world)) !in c.loaded.observations
    else x.ruleId !in c.world.history
  }

  function FoundValue(x: Runnable, c: Context): real
    requires !LacksValue(x, c)
  {
    if IsPriceRule(x.rule) then c.loaded.observations[RuleKey(AsPriceRule(x, c.world))].value
    else c.world.history[x.ruleId]
  }

  /** What a check records: the value it found becomes the last observation, and a triggered line stands
      for an event under the key of the runner's copy, its trigger and its value; without a value the
      check is logged as unavailable and the last observation stays. */
  lemma CheckRecords(db: Db, x: Runnable, c: Context)
    requires x.ruleId in db.rules
    ensures var next, r := Checked(db, x, c), db.rules[x.ruleId];
            x.ruleId in next.rules &&
            var s := next.rules[x.ruleId];
            if LacksValue(x, c) then
              LineOf(db, x, c).Some? && LineOf(db, x, c).value.NoObservation? && s.lastObserved == r.lastObserved &&
              next.events == db.events[db.nextEventId := Unavailable(x.ruleId, c.now)]
            else
              var value := FoundValue(x, c);
              var key := DedupeKey(x.ruleId, x.rule.ruleRevision, x.rule.armCycleId, c.source, c.bucket, value);
              s.lastObserved == Some(value) &&
              if LineOf(db, x, c) == Some(TriggeredLine(x.ruleId))
              then next.events == db.events[db.nextEventId := Triggered(x.ruleId, key, c.now)]
              else LineOf(db, x, c) == Some(CheckedLine(x.ruleId)) && next.events == db.events
  {
    hide ConditionIsTrue, Crosses, OutsideCooldown, KeyTaken, NextAlertCheckAt;
  }

  // ---------------------------------------------------------------- a whole run

  /** The tables after some rules are deleted, one by one. */
  function Removed(db: Db, gone: seq<nat>): Db
    decreases |gone|
  {
    if gone == [] then db else Delete(Removed(db, gone[..|gone| - 1]), gone[|gone| - 1])
  }

  /** The tables and lines after some checks, and whether the last one threw. */
  datatype Trail = Trail(db: Db, lines: seq<Line>, failed: bool)

  /** The first n checks in order, each after the deletions that come before it, up to a throw. */
  function Checks(db: Db, runnable: seq<Runnable>, n: nat, c: Context): (t: Trail)
    requires n <= |runnable|
    ensures |t.lines| <= n && (t.failed ==> |t.lines| < n) && (!t.failed ==> |t.lines| == n)
  {
    if n == 0 then Trail(db, [], false)
    else
      var before := Checks(db, runnable, n - 1, c);
      if before.failed then before
      else
        var x, current := runnable[n - 1], Removed(before.db, c.world.deletedBefore(n - 1));
        match LineOf(current, x, c)
        case None => Trail(current, before.lines, true)
        case Some(line) => Trail(Checked(current, x, c), before.lines + [line], false)
  }

  /** The result of the checks: a throw loses the lines and counts the rule it came from as
      unavailable if that had no observation. */
  function ResultOf(t: Trail, skipped: seq<Line>, runnable: seq<Runnable>, c: Context): RunResult
    requires |t.lines| <= |runnable| && (t.failed ==> |t.lines| < |runnable|)
  {
    var all := skipped + t.lines;
    var triggered, unavailable := Count(all, IsTriggered), Count(all, IsUnavailable);
    if t.failed then
      RunFailed(triggered, unavailable + if ObservedValue(runnable[|t.lines|], c.loaded, c.world).None? then 1 else 0)
    else RunCompleted(|skipped| + |runnable|, triggered, unavailable, all)
  }

  method ListDueRules(tables: AlertTables, ids: seq<nat>, now: int) returns (due: seq<nat>)
    requires forall id :: id in ids ==> id in tables.rules
    ensures due == DueIds(ids, tables.rules, now) && forall id :: id in due ==> id in tables.rules
  {
    due := [];
    for i := 0 to |ids|
      invariant due == DueIds(ids[..i], tables.rules, now)
      invariant forall id :: id in due ==> id in tables.rules
    {
      assert ids[..i + 1][..i] == ids[..i];
      if AlertHistory.Runs(tables.rules[ids[i]], now) {
        due := due + [ids[i]];
      }
    }
    assert ids[..|ids|] == ids;
  }

  lemma {:induction false} DueIdsAreRules(ids: seq<nat>, rules: map<nat, Rule>, now: int)
    requires forall id :: id in ids ==> id in rules
    ensures forall id :: id in DueIds(ids, rules, now) <==> id in ids && AlertHistory.Runs(rules[id], now)
    ensures Distinct(ids) ==> Distinct(DueIds(ids, rules, now))
    decreases |ids|
  {
    hide Distinct, AlertHistory.Runs;
    if ids != [] {
      var n := |ids| - 1;
      DueIdsAreRules(ids[..n], rules, now);
      assert ids == ids[..n] + [ids[n]];
      if Distinct(ids) {
        LastIsDistinct(ids);
        OneMoreDistinct(DueIds(ids[..n], rules, now), ids[n]);
      }
    }
  }

  lemma LastIsDistinct(ids: seq<nat>)
    requires ids != []
    ensures Distinct(ids) ==> Distinct(ids[..|ids| - 1]) && ids[|ids| - 1] !in ids[..|ids| - 1]
  {
  }

  lemma OneMoreDistinct(ids: seq<nat>, id: nat)
    requires Distinct(ids)
    ensures Distinct(ids + []) && (id !in ids ==> Distinct(ids + [id]))
  {
    assert ids + [] == ids;
  }

  predicate Distinct(ids: seq<nat>) {
    forall i, j :: 0 <= i < j < |ids| ==> ids[i] != ids[j]
  }

  lemma CountAppend(lines: seq<Line>, line: Line, p: Line -> bool)
    ensures Count(lines + [line], p) == Count(lines, p) + if p(line) then 1 else 0
  {
    assert (lines + [line])[..|lines|] == lines;
  }

  lemma {:induction false} SkippedCounts(due: seq<nat>, rules: map<nat, Rule>, world: World)
    requires forall id :: id in due ==> id in rules
    ensures var lines := SkippedLines(due, rules, world);
            Count(lines, IsTriggered) == 0 && Count(lines, IsUnavailable) == |lines|
    decreases |due|
  {
    if due != [] {
      var n := |due| - 1;
      var lines, r := SkippedLines(due[..n], rules, world), rules[due[n]];
      SkippedCounts(due[..n], rules, world);
      assert lines + [] == lines;
      var line := if r.conditionVersion != ALERT_CONDITION_VERSION then NeedsReview(due[n]) else NoInstrument(due[n]);
      CountAppend(lines, line, IsTriggered);
      CountAppend(lines, line, IsUnavailable);
      assert !IsTriggered(line) && IsUnavailable(line);
    }
  }

  /** `runAlertChecks`. The quotes are loaded for the runnable price rules; then the tables and the
      result are those of checking the runnable rules in order. */
  method RunAlertChecks(tables: AlertTables, ids: seq<nat>, world: World, budget: AlertProviderBudget,
                        now: int, source: string, bucket: string)
    returns (result: RunResult, loaded: Loaded)
    requires forall id :: id in ids ==> id in tables.rules
    modifies tables, budget`state
    ensures var due := DueIds(ids, old(tables.rules), now);
            var runnable, skipped := Runnables(due, old(tables.rules), world),
                SkippedLines(due, old(tables.rules), world);
            var c := Context(world, loaded, now, source, bucket);
            var t := Checks(old(tables.Value()), runnable, |runnable|, c);
            tables.Value() == t.db && result == ResultOf(t, skipped, runnable, c) &&
            QuotesLoaded(loaded, runnable, world, now, old(budget.state))
  {
    hide DueIds, Runnables, SkippedLines, Explained, Sourced, FreshIsFresh, Count, Checks, ResultOf;
    var due := ListDueRules(tables, ids, now);
    var runnable, skipped := Classify(due, tables.rules, world);
    var priceRules, symbols := PriceRules(runnable, world);
    loaded := LoadPriceObservations(priceRules, symbols, world.canUse, world.tradingView, world.yahoo, budget, now);
    QuotesAreLoaded(loaded, runnable, priceRules, symbols, world, now, old(budget.state));
    EachRuleIsFiled(due, tables.rules, world);
    SkippedCounts(due, tables.rules, world);
    result := CheckRules(tables, runnable, skipped, Context(world, loaded, now, source, bucket));
  }

  /** What others do meanwhile. */
  method RemoveRules(tables: AlertTables, gone: seq<nat>)
    modifies tables
    ensures tables.Value() == Removed(old(tables.Value()), gone)
  {
    hide Delete;
    for i := 0 to |gone|
      invariant tables.Value() == Removed(old(tables.Value()), gone[..i])
    {
      assert gone[..i + 1][..i] == gone[..i];
      tables.DeleteAlertRule(gone[i]);
    }
    assert gone[..|gone|] == gone;
  }

  /** The loop over the runnable rules, which goes on with the counts and lines of the skipped ones. */
  method CheckRules(tables: AlertTables, runnable: seq<Runnable>, skipped: seq<Line>, c: Context)
    returns (result: RunResult)
    requires Count(skipped, IsTriggered) == 0 && Count(skipped, IsUnavailable) == |skipped|
    modifies tables
    ensures var t := Checks(old(tables.Value()), runnable, |runnable|, c);
            tables.Value() == t.db && result == ResultOf(t, skipped, runnable, c)
  {
    hide Checked, LineOf, Count, ObservedValue;
    ghost var db := tables.Value();
    var lines := skipped;
    var triggered: nat := 0;
    var unavailable: nat := |skipped|;
    for i := 0 to |runnable|
      invariant var t := Checks(db, runnable, i, c); !t.failed && tables.Value() == t.db && lines == skipped + t.lines
      invariant triggered == Count(lines, IsTriggered) && unavailable == Count(lines, IsUnavailable)
      invariant |lines| == |skipped| + i
    {
      RemoveRules(tables, c.world.deletedBefore(i));
      ghost var before, current := Checks(db, runnable, i, c), tables.Value();
      var line := CheckRule(tables, runnable[i], c);
      if line.None? {
        var without := ObservedValue(runnable[i], c.loaded, c.world).None?;
        ThrownRun(db, runnable, i, c);
        ThrowLeavesTables(current, runnable[i], c);
        return RunFailed(triggered, unavailable + if without then 1 else 0);
      }
      CountAppend(lines, line.value, IsTriggered);
      CountAppend(lines, line.value, IsUnavailable);
      LineKinds(current, runnable[i], c);
      if line.value.NoObservation? {
        unavailable := unavailable + 1;
      }
      if line.value.TriggeredLine? {
        triggered := triggered + 1;
      }
      assert skipped + (before.lines + [line.value]) == lines + [line.value];
      lines := lines + [line.value];
    }
    return RunCompleted(|skipped| + |runnable|, triggered, unavailable, lines);
  }

  // ---------------------------------------------------------------- the quotes

  /** The quotes serve the rule: it has a value or a reason; TradingView's usable quote is its value
      if it may have it, and an answering Yahoo gives it a value in any case. */
  predicate Served(l: Loaded, x: Runnable, world: World, now: int, budget: map<string, BudgetState>) {
    && Explained(l, x.symbol, world.allowsDelayed(x.ruleId))
    && (world.tradingView.Quotes? && !IsOpen(budget, "tradingview", now)
        && Offered(AsPriceRule(x, world), world.canUse, world.tradingView.quotes) ==>
        ObservedValue(x, l, world) == LastUsable(world.tradingView.quotes, RuleKey(AsPriceRule(x, world))))
    && (!IsOpen(budget, "yahoo", now) && world.yahoo(x.symbol).Quote? ==> ObservedValue(x, l, world).Some?)
  }

  /** The observation is Yahoo's answer to the symbol of a runnable price rule. */
  ghost predicate AnsweredBy(o: Observation, k: QuoteKey, runnable: seq<Runnable>, world: World) {
    o.origin == Yahoo && exists x :: x in runnable && IsPriceRule(x.rule) && Answers(o, k, x, world)
  }

  predicate Answers(o: Observation, k: QuoteKey, x: Runnable, world: World) {
    Upper(x.symbol) == k.symbol && world.yahoo(x.symbol) == Quote(o.value)
  }

  /** What the loaded quotes are worth to the run; nothing is observed that no provider sent. */
  ghost predicate QuotesLoaded(l: Loaded, runnable: seq<Runnable>, world: World, now: int,
      budget: map<string, BudgetState>)
  {
    && FreshIsFresh(l)
    && (forall x :: x in runnable && IsPriceRule(x.rule) ==> Served(l, x, world, now, budget))
    && (forall k :: k in l.observations ==>
          FromTradingView(l.observations[k], k, world.tradingView) || AnsweredBy(l.observations[k], k, runnable, world))
  }

  lemma QuotesAreLoaded(l: Loaded, runnable: seq<Runnable>, rules: seq<PriceRule>, symbols: seq<string>, world: World,
                        now: int, budget: map<string, BudgetState>)
    requires forall r :: r in rules <==> exists x :: x in runnable && IsPriceRule(x.rule) && r == AsPriceRule(x, world)
    requires forall s :: s in symbols <==> exists x :: x in runnable && IsPriceRule(x.rule) && s == x.symbol
    requires forall r :: r in rules ==> Explained(l, r.symbol, r.allowsDelayed)
    requires FreshIsFresh(l) && Sourced(l, symbols, world.tradingView, world.yahoo)
    requires world.tradingView.Quotes? && !IsOpen(budget, "tradingview", now) ==>
               forall r :: r in rules && Offered(r, world.canUse, world.tradingView.quotes) ==>
                 RuleKey(r) in l.observations &&
                 l.observations[RuleKey(r)] == Observation(TradingView,
                                                           LastUsable(world.tradingView.quotes, RuleKey(r)).value)
    requires !IsOpen(budget, "yahoo", now) ==>
               forall r :: r in rules && world.yahoo(r.symbol).Quote? ==> RuleKey(r) in l.observations
    ensures QuotesLoaded(l, runnable, world, now, budget)
  {
    hide Explained, FreshIsFresh, FromTradingView, LastUsable, IsOpen, Upper;
    forall x | x in runnable && IsPriceRule(x.rule) ensures Served(l, x, world, now, budget) {
      assert AsPriceRule(x, world) in rules;
    }
    forall k | k in l.observations
      ensures FromTradingView(l.observations[k], k, world.tradingView) ||
              AnsweredBy(l.observations[k], k, runnable, world)
    {
      var o := l.observations[k];
      if !FromTradingView(o, k, world.tradingView) {
        var i :| 0 <= i < |symbols| && Upper(symbols[i]) == k.symbol && world.yahoo(symbols[i]) == Quote(o.value);
        assert symbols[i] in symbols;
        var x :| x in runnable && IsPriceRule(x.rule) && symbols[i] == x.symbol;
        assert Answers(o, k, x, world);
      }
    }
  }

  // ---------------------------------------------------------------- lines and counts

  lemma LineKinds(db: Db, x: Runnable, c: Context)
    requires LineOf(db, x, c).Some?
    ensures var line := LineOf(db, x, c).value;
            (IsTriggered(line) <==> line.TriggeredLine?) && (IsUnavailable(line) <==> line.NoObservation?)
            && |Checked(db, x, c).notifications| == |db.notifications| + (if line.TriggeredLine? then 1 else 0)
            && Checked(db, x, c).rules.Keys == db.rules.Keys
  {
    hide ObservedValue, ReasonFor, Assess, Inserts, Evaluated;
  }

  lemma {:induction false} CountJoin(a: seq<Line>, b: seq<Line>, p: Line -> bool)
    ensures Count(a + b, p) == Count(a, p) + Count(b, p)
    decreases |b|
  {
    if b == [] {
      assert a + b == a;
    } else {
      assert (a + b)[..|a + b| - 1] == a + b[..|b| - 1];
      CountJoin(a, b[..|b| - 1], p);
    }
  }

  lemma {:induction false} CountsAreDisjoint(lines: seq<Line>)
    ensures Count(lines, IsTriggered) + Count(lines, IsUnavailable) <= |lines|
  {
    if lines != [] {
      CountsAreDisjoint(lines[..|lines| - 1]);
    }
  }

  predicate LineFits(line: Line, x: Runnable, c: Context) {
    && line.ruleId == x.ruleId
    && (line.NoObservation? <==> ObservedValue(x, c.loaded, c.world).None?)
    && (line.NoObservation? ==> line.reason == ReasonFor(c.loaded, x, c.world))
  }

  /** The lines of the checks are those of the checked rules, in order, and the triggers among them
      are the notifications added, whether or not a check threw. */
  lemma {:induction false} ChecksAreListed(db: Db, runnable: seq<Runnable>, n: nat, c: Context)
    requires n <= |runnable|
    ensures var t := Checks(db, runnable, n, c);
            |t.db.notifications| == |db.notifications| + Count(t.lines, IsTriggered) &&
            forall i :: 0 <= i < |t.lines| ==> LineFits(t.lines[i], runnable[i], c)
  {
    hide LineOf, Checked, ObservedValue, ReasonFor, Delete, Count, Removed, LineFits;
    if n == 0 {
      NoLines();
    } else {
      ChecksAreListed(db, runnable, n - 1, c);
      var before, gone := Checks(db, runnable, n - 1, c), c.world.deletedBefore(n - 1);
      var x, current := runnable[n - 1], Removed(before.db, gone);
      DeleteKeepsNotifications(before.db, gone);
      if !before.failed && LineOf(current, x, c).Some? {
        LineKinds(current, x, c);
        LineFitsRule(current, x, c);
        CountAppend(before.lines, LineOf(current, x, c).value, IsTriggered);
      }
    }
  }

  lemma NoLines()
    ensures Count([], IsTriggered) == 0 && Count([], IsUnavailable) == 0
  {
  }

  lemma LineFitsRule(db: Db, x: Runnable, c: Context)
    requires LineOf(db, x, c).Some?
    ensures LineFits(LineOf(db, x, c).value, x, c)
  {
    hide ObservedValue, ReasonFor, Inserts;
  }

  lemma {:induction false} DeleteKeepsNotifications(db: Db, gone: seq<nat>)
    ensures Removed(db, gone).notifications == db.notifications
    decreases |gone|
  {
    if gone != [] {
      DeleteKeepsNotifications(db, gone[..|gone| - 1]);
    }
  }

  /** A completed run has one line for each due rule, counts each of them once, and gives every price
      rule without an observation its recorded reason. */
  lemma CompletedRunIsComplete(db: Db, ids: seq<nat>, c: Context, budget: map<string, BudgetState>)
    requires forall id :: id in ids ==> id in db.rules
    requires var due := DueIds(ids, db.rules, c.now);
             QuotesLoaded(c.loaded, Runnables(due, db.rules, c.world), c.world, c.now, budget)
    ensures var due := DueIds(ids, db.rules, c.now);
            var runnable, skipped := Runnables(due, db.rules, c.world), SkippedLines(due, db.rules, c.world);
            var r := ResultOf(Checks(db, runnable, |runnable|, c), skipped, runnable, c);
            r.RunCompleted? ==>
              r.checked == |due| == |r.lines| && multiset(RuleIds(r.lines)) == multiset(due) &&
              r.triggered + r.unavailable <= r.checked &&
              forall l :: l in r.lines && l.NoObservation? && l.reason.Unspecified? ==>
                l.ruleId in db.rules && !IsPriceRule(db.rules[l.ruleId])
  {
    hide Count, QuotesLoaded, CanRun, DueIds, Checks, LineFits, RuleIds, Ids;
    var due := DueIds(ids, db.rules, c.now);
    var runnable, skipped := Runnables(due, db.rules, c.world), SkippedLines(due, db.rules, c.world);
    var t := Checks(db, runnable, |runnable|, c);
    EachRuleIsFiled(due, db.rules, c.world);
    FiledWhereItBelongs(due, db.rules, c.world);
    ChecksAreListed(db, runnable, |runnable|, c);
    CountsAreDisjoint(skipped + t.lines);
    if !t.failed {
      ListedIds(skipped, t.lines, runnable, c);
      forall l | l in skipped + t.lines && l.NoObservation? && l.reason.Unspecified?
        ensures l.ruleId in db.rules && !IsPriceRule(db.rules[l.ruleId])
      {
        assert l in skipped ==> SkippedFor(l, db.rules, c.world);
        var i :| 0 <= i < |t.lines| && t.lines[i] == l;
        assert runnable[i] in runnable && FiledAs(runnable[i], db.rules, c.world);
        UnspecifiedIsNoPriceRule(l, runnable, runnable[i], c, budget);
      }
    }
  }

  lemma ListedIds(skipped: seq<Line>, lines: seq<Line>, runnable: seq<Runnable>, c: Context)
    requires |lines| == |runnable| && forall i :: 0 <= i < |lines| ==> LineFits(lines[i], runnable[i], c)
    ensures multiset(RuleIds(skipped + lines)) == multiset(RuleIds(skipped)) + multiset(Ids(runnable))
  {
    assert RuleIds(lines) == Ids(runnable);
    assert RuleIds(skipped + lines) == RuleIds(skipped) + RuleIds(lines);
  }

  lemma UnspecifiedIsNoPriceRule(l: Line, runnable: seq<Runnable>, x: Runnable, c: Context,
      budget: map<string, BudgetState>)
    requires QuotesLoaded(c.loaded, runnable, c.world, c.now, budget) && x in runnable
    requires LineFits(l, x, c) && l.NoObservation? && l.reason.Unspecified?
    ensures l.ruleId == x.ruleId && !IsPriceRule(x.rule)
  {
    hide QuotesLoaded, ObservedValue, ReasonFor;
    if IsPriceRule(x.rule) {
      ServedHasReason(c.loaded, runnable, x, c.world, c.now, budget);
    }
  }

  lemma ServedHasReason(l: Loaded, runnable: seq<Runnable>, x: Runnable, world: World, now: int,
      budget: map<string, BudgetState>)
    requires QuotesLoaded(l, runnable, world, now, budget) && x in runnable && IsPriceRule(x.rule)
    ensures ObservedValue(x, l, world).None? ==> ReasonFor(l, x, world).Specified?
  {
    hide FreshIsFresh, Explained, ObservedValue, ReasonFor, AnsweredBy;
    assert Served(l, x, world, now, budget);
    if ObservedValue(x, l, world).None? {
      ReasonIsRecorded(l, x, world);
    }
  }

  // ---------------------------------------------------------------- when a run completes

  /** The rule was deleted before one of the first n results was recorded. */
  predicate GoneBy(world: World, n: nat, id: nat) {
    exists m :: 0 <= m < n && id in world.deletedBefore(m)
  }

  /** The first runnable rule that is deleted at or before its own turn; their number if none is. */
  function FirstGone(runnable: seq<Runnable>, world: World, n: nat): (k: nat)
    requires n <= |runnable|
    ensures n <= k <= |runnable| && (k < |runnable| ==> GoneBy(world, k + 1, runnable[k].ruleId))
    ensures forall i :: n <= i < k ==> !GoneBy(world, i + 1, runnable[i].ruleId)
    decreases |runnable| - n
  {
    if n == |runnable| || GoneBy(world, n + 1, runnable[n].ruleId) then n else FirstGone(runnable, world, n + 1)
  }

  lemma {:induction false} StaysFailed(db: Db, runnable: seq<Runnable>, n: nat, m: nat, c: Context)
    requires n <= m <= |runnable| && Checks(db, runnable, n, c).failed
    ensures Checks(db, runnable, m, c) == Checks(db, runnable, n, c)
  {
    hide LineOf, Checked, Removed;
    if n < m {
      StaysFailed(db, runnable, n, m - 1, c);
    }
  }

  lemma ThrownRun(db: Db, runnable: seq<Runnable>, i: nat, c: Context)
    requires i < |runnable| && !Checks(db, runnable, i, c).failed
    requires LineOf(Removed(Checks(db, runnable, i, c).db, c.world.deletedBefore(i)), runnable[i], c) == None
    ensures var before := Checks(db, runnable, i, c);
            Checks(db, runnable, |runnable|, c)
              == Trail(Removed(before.db, c.world.deletedBefore(i)), before.lines, true)
  {
    StaysFailed(db, runnable, i + 1, |runnable|, c);
  }

  lemma {:induction false} RulesLeft(db: Db, runnable: seq<Runnable>, n: nat, c: Context, id: nat)
    requires n <= |runnable| && !Checks(db, runnable, n, c).failed
    ensures id in Checks(db, runnable, n, c).db.rules <==> id in db.rules && !GoneBy(c.world, n, id)
  {
    hide LineOf, Checked;
    if n > 0 {
      RulesLeft(db, runnable, n - 1, c, id);
      var before, gone := Checks(db, runnable, n - 1, c), c.world.deletedBefore(n - 1);
      LineKinds(Removed(before.db, gone), runnable[n - 1], c);
      RemovedRule(before.db, gone, id);
      assert GoneBy(c.world, n, id) <==> GoneBy(c.world, n - 1, id) || id in gone;
    }
  }

  /** The checks stop exactly at the first runnable rule that is deleted at or before its turn. */
  lemma {:induction false} ChecksStopAtFirstGone(db: Db, runnable: seq<Runnable>, n: nat, c: Context)
    requires n <= |runnable| && forall x :: x in runnable ==> x.ruleId in db.rules
    ensures var k := FirstGone(runnable, c.world, 0); var t := Checks(db, runnable, n, c);
            (t.failed <==> k < n) && |t.lines| == if k < n then k else n
  {
    hide LineOf, Checked, Removed, FirstGone;
    if n > 0 {
      ChecksStopAtFirstGone(db, runnable, n - 1, c);
      var before, x := Checks(db, runnable, n - 1, c), runnable[n - 1];
      assert x in runnable;
      if !before.failed {
        var gone := c.world.deletedBefore(n - 1);
        RulesLeft(db, runnable, n - 1, c, x.ruleId);
        ThrowsIfGone(Removed(before.db, gone), x, c);
        RemovedRule(before.db, gone, x.ruleId);
        assert GoneBy(c.world, n, x.ruleId) <==> GoneBy(c.world, n - 1, x.ruleId) || x.ruleId in gone;
      }
    }
  }

  lemma ThrowLeavesTables(db: Db, x: Runnable, c: Context)
    requires LineOf(db, x, c).None?
    ensures Checked(db, x, c) == db
  {
  }

  lemma ThrowsIfGone(db: Db, x: Runnable, c: Context)
    ensures LineOf(db, x, c).None? <==> x.ruleId !in db.rules
  {
  }

  lemma {:induction false} RemovedRule(db: Db, gone: seq<nat>, id: nat)
    ensures id in Removed(db, gone).rules <==> id in db.rules && id !in gone
    decreases |gone|
  {
    if gone != [] {
      RemovedRule(db, gone[..|gone| - 1], id);
      assert gone == gone[..|gone| - 1] + [gone[|gone| - 1]];
    }
  }

  lemma RunnablesAreRules(ids: seq<nat>, rules: map<nat, Rule>, c: Context)
    requires forall id :: id in ids ==> id in rules
    ensures var due := DueIds(ids, rules, c.now);
            forall x :: x in Runnables(due, rules, c.world) ==> x.ruleId in rules
  {
    hide AlertHistory.Runs, CanRun;
    FiledWhereItBelongs(DueIds(ids, rules, c.now), rules, c.world);
  }

  /** A run completes exactly if no runnable rule is deleted at or before its own turn. */
  lemma RunCompletes(db: Db, ids: seq<nat>, c: Context)
    requires forall id :: id in ids ==> id in db.rules
    ensures var due := DueIds(ids, db.rules, c.now);
            var runnable, skipped := Runnables(due, db.rules, c.world), SkippedLines(due, db.rules, c.world);
            ResultOf(Checks(db, runnable, |runnable|, c), skipped, runnable, c).RunCompleted? <==>
            forall n :: 0 <= n < |runnable| ==> !GoneBy(c.world, n + 1, runnable[n].ruleId)
  {
    hide CanRun, Count, Checks, DueIds;
    var runnable := Runnables(DueIds(ids, db.rules, c.now), db.rules, c.world);
    RunnablesAreRules(ids, db.rules, c);
    ChecksStopAtFirstGone(db, runnable, |runnable|, c);
    var k := FirstGone(runnable, c.world, 0);
  }

  // ---------------------------------------------------------------- the stored counts

  /** Other rules' checks and deletions leave what a rule's own check reads. */
  ghost predicate SameFor(db: Db, later: Db, id: nat) {
    && id in db.rules && id in later.rules && db.rules[id] == later.rules[id]
    && forall key: DedupeKey :: key.ruleId == id ==> (KeyTaken(db.events, key) <==> KeyTaken(later.events, key))
  }

  lemma {:induction false} OthersDeleted(db: Db, gone: seq<nat>, id: nat)
    requires WellKept(db) && id in db.rules && id !in gone
    ensures WellKept(Removed(db, gone)) && SameFor(db, Removed(db, gone), id)
    decreases |gone|
  {
    hide WellKept, SameFor, Delete;
    if gone == [] {
      SameForSelf(db, id);
    } else {
      var before, last := Removed(db, gone[..|gone| - 1]), gone[|gone| - 1];
      OthersDeleted(db, gone[..|gone| - 1], id);
      SameForRule(db, before, id);
      OtherDeleted(before, last, id);
      SameForTwice(db, before, Delete(before, last), id);
    }
  }

  lemma OtherDeleted(db: Db, gone: nat, id: nat)
    requires WellKept(db) && id in db.rules && gone != id
    ensures WellKept(Delete(db, gone)) && SameFor(db, Delete(db, gone), id)
  {
    var later := Delete(db, gone);
    forall key: DedupeKey | key.ruleId == id && KeyTaken(db.events, key) ensures KeyTaken(later.events, key) {
      var e :| e in db.events && db.events[e].Triggered? && db.events[e].key == key;
      assert e in later.events && later.events[e] == db.events[e];
    }
  }

  lemma OtherChecked(db: Db, x: Runnable, c: Context, id: nat)
    requires WellKept(db) && id in db.rules && x.ruleId != id
    ensures WellKept(Checked(db, x, c)) && SameFor(db, Checked(db, x, c), id)
  {
    hide ObservedValue, Crosses, ConditionIsTrue, Evaluated;
    var later := Checked(db, x, c);
    assert forall e :: e in db.events ==> e in later.events && later.events[e] == db.events[e];
    forall key: DedupeKey | key.ruleId == id && KeyTaken(db.events, key) ensures KeyTaken(later.events, key) {
      var e :| e in db.events && db.events[e].Triggered? && db.events[e].key == key;
      assert later.events[e].Triggered? && later.events[e].key == key;
    }
  }

  lemma SameForTwice(a: Db, b: Db, d: Db, id: nat)
    requires SameFor(a, b, id) && SameFor(b, d, id)
    ensures SameFor(a, d, id)
  {
  }

  lemma SameForSelf(db: Db, id: nat)
    requires id in db.rules
    ensures SameFor(db, db, id)
  {
  }

  /** Until its turn, nothing the run does changes what the check of a rule will say. */
  lemma {:induction false} TurnIsUntouched(db: Db, runnable: seq<Runnable>, n: nat, i: nat, c: Context)
    requires n <= i < |runnable| && WellKept(db) && Distinct(Ids(runnable)) && runnable[i].ruleId in db.rules
    requires !Checks(db, runnable, n, c).failed && !GoneBy(c.world, n, runnable[i].ruleId)
    ensures WellKept(Checks(db, runnable, n, c).db) && SameFor(db, Checks(db, runnable, n, c).db, runnable[i].ruleId)
  {
    hide LineOf, Checked, Delete, SameFor, WellKept;
    var id := runnable[i].ruleId;
    if n == 0 {
      SameForSelf(db, id);
    } else {
      var before, gone := Checks(db, runnable, n - 1, c), c.world.deletedBefore(n - 1);
      assert !GoneBy(c.world, n - 1, id) && id !in gone;
      TurnIsUntouched(db, runnable, n - 1, i, c);
      SameForRule(db, before.db, id);
      OthersDeleted(before.db, gone, id);
      var current := Removed(before.db, gone);
      SameForRule(before.db, current, id);
      assert Ids(runnable)[n - 1] != Ids(runnable)[i];
      OtherChecked(current, runnable[n - 1], c, id);
      SameForTwice(db, before.db, current, id);
      SameForTwice(db, current, Checked(current, runnable[n - 1], c), id);
    }
  }

  lemma SameForRule(a: Db, b: Db, id: nat)
    requires SameFor(a, b, id)
    ensures id in b.rules
  {
  }

  lemma SameForLine(a: Db, b: Db, x: Runnable, c: Context)
    requires SameFor(a, b, x.ruleId)
    ensures LineOf(a, x, c) == LineOf(b, x, c)
  {
    hide ObservedValue, Crosses, ConditionIsTrue, KeyTaken, ReasonFor;
  }

  /** The line of each check is decided by the tables as they were at the start of the run. */
  lemma {:induction false} LinesAreDecidedAtTheStart(db: Db, runnable: seq<Runnable>, n: nat, c: Context)
    requires n <= |runnable| && WellKept(db) && Distinct(Ids(runnable))
    requires forall x :: x in runnable ==> x.ruleId in db.rules
    ensures var lines := Checks(db, runnable, n, c).lines;
            forall i :: 0 <= i < |lines| ==> LineOf(db, runnable[i], c) == Some(lines[i])
  {
    hide LineOf, Checked, Removed, SameFor, WellKept, GoneBy;
    if n > 0 {
      LinesAreDecidedAtTheStart(db, runnable, n - 1, c);
      var before, x, gone := Checks(db, runnable, n - 1, c), runnable[n - 1], c.world.deletedBefore(n - 1);
      var current := Removed(before.db, gone);
      assert x in runnable;
      if !before.failed && LineOf(current, x, c).Some? {
        ThrowsIfGone(current, x, c);
        RemovedRule(before.db, gone, x.ruleId);
        RulesLeft(db, runnable, n - 1, c, x.ruleId);
        TurnIsUntouched(db, runnable, n - 1, n - 1, c);
        OthersDeleted(before.db, gone, x.ruleId);
        SameForTwice(db, before.db, current, x.ruleId);
        SameForLine(db, current, x, c);
      }
    }
  }

  lemma {:induction false} NothingCounted(lines: seq<Line>)
    ensures Count(lines, IsTriggered) + Count(lines, IsUnavailable) == 0 <==>
            forall i :: 0 <= i < |lines| ==> !IsTriggered(lines[i]) && !IsUnavailable(lines[i])
    decreases |lines|
  {
    if lines != [] {
      NothingCounted(lines[..|lines| - 1]);
      assert lines == lines[..|lines| - 1] + [lines[|lines| - 1]];
    }
  }

  /** Every rule before the k-th is observed without a trigger, and the k-th is observed too. */
  predicate QuietUntil(db: Db, runnable: seq<Runnable>, k: nat, c: Context)
    requires k < |runnable|
  {
    && (forall i :: 0 <= i < k ==> LineOf(db, runnable[i], c) == Some(CheckedLine(runnable[i].ruleId)))
    && ObservedValue(runnable[k], c.loaded, c.world).Some?
  }

  /** The stored counts keep triggered + unavailable <= checked exactly if no runnable rule is deleted
      at or before its turn, or no due rule was skipped and all is quiet up to the first that is: a
      failed run stores 0 checked rules. All of this is known from the tables before the checks. */
  lemma StoredCountsAddUp(db: Db, ids: seq<nat>, c: Context)
    requires WellKept(db) && Distinct(ids) && forall id :: id in ids ==> id in db.rules
    ensures var due := DueIds(ids, db.rules, c.now);
            var runnable, skipped := Runnables(due, db.rules, c.world), SkippedLines(due, db.rules, c.world);
            var k := FirstGone(runnable, c.world, 0);
            AddsUp(Stored(ResultOf(Checks(db, runnable, |runnable|, c), skipped, runnable, c))) <==>
            k == |runnable| || (skipped == [] && QuietUntil(db, runnable, k, c))
  {
    hide *;
    var due := DueIds(ids, db.rules, c.now);
    var runnable, skipped := Runnables(due, db.rules, c.world), SkippedLines(due, db.rules, c.world);
    RunnablesAreRules(ids, db.rules, c);
    DueIdsAreRules(ids, db.rules, c.now);
    RunnablesAreDistinct(due, db.rules, c.world);
    SkippedCounts(due, db.rules, c.world);
    ChecksStopAtFirstGone(db, runnable, |runnable|, c);
    LinesAreDecidedAtTheStart(db, runnable, |runnable|, c);
    TrailAddsUp(db, Checks(db, runnable, |runnable|, c), skipped, runnable, c);
  }

  /** How many of the first n rules have no value to compare with. */
  function WithoutValue(runnable: seq<Runnable>, n: nat, c: Context): nat
    requires n <= |runnable|
  {
    if n == 0 then 0 else WithoutValue(runnable, n - 1, c) + if LacksValue(runnable[n - 1], c) then 1 else 0
  }

  lemma LineWithoutValue(db: Db, x: Runnable, c: Context)
    ensures LineOf(db, x, c).Some? ==> (IsUnavailable(LineOf(db, x, c).value) <==> LacksValue(x, c))
    ensures ObservedValue(x, c.loaded, c.world).None? <==> LacksValue(x, c)
  {
    hide RuleKey, AsPriceRule, Inserts, ReasonFor;
  }

  lemma {:induction false} LinesWithoutValue(db: Db, runnable: seq<Runnable>, n: nat, c: Context)
    requires n <= |runnable|
    ensures var t := Checks(db, runnable, n, c); Count(t.lines, IsUnavailable) == WithoutValue(runnable, |t.lines|, c)
  {
    hide LineOf, LacksValue, Checked, IsUnavailable, Count;
    if n == 0 {
      CountNothing(IsUnavailable);
    } else {
      LinesWithoutValue(db, runnable, n - 1, c);
      var before := Checks(db, runnable, n - 1, c);
      if !before.failed {
        var x, current := runnable[n - 1], Removed(before.db, c.world.deletedBefore(n - 1));
        LineWithoutValue(current, x, c);
        if LineOf(current, x, c).Some? {
          CountAppend(before.lines, LineOf(current, x, c).value, IsUnavailable);
        }
      }
    }
  }

  lemma CountNothing(p: Line -> bool)
    ensures Count([], p) == 0
  {
  }

  /** The counts a run stores: of the skipped rules and those tried without a value as unavailable, the
      one it threw at included; a run that threw stores no checked rule. */
  lemma CountsOfRun(db: Db, skipped: seq<Line>, runnable: seq<Runnable>, c: Context)
    requires Count(skipped, IsTriggered) == 0 && Count(skipped, IsUnavailable) == |skipped|
    ensures var t := Checks(db, runnable, |runnable|, c);
            Stored(ResultOf(t, skipped, runnable, c))
            == StoredCounts(
              if t.failed then 0 else |skipped| + |runnable|, Count(t.lines, IsTriggered),
              |skipped| + WithoutValue(runnable, if t.failed then |t.lines| + 1 else |runnable|, c))
  {
    hide Checks, Count, LacksValue, ObservedValue, IsUnavailable, IsTriggered;
    var t := Checks(db, runnable, |runnable|, c);
    LinesWithoutValue(db, runnable, |runnable|, c);
    CountJoin(skipped, t.lines, IsTriggered);
    CountJoin(skipped, t.lines, IsUnavailable);
    if t.failed {
      LineWithoutValue(db, runnable[|t.lines|], c);
    }
  }

  predicate AddsUp(s: StoredCounts) {
    s.triggeredCount + s.unavailableCount <= s.checkedCount
  }

  lemma TrailAddsUp(db: Db, t: Trail, skipped: seq<Line>, runnable: seq<Runnable>, c: Context)
    requires Count(skipped, IsTriggered) == 0 && Count(skipped, IsUnavailable) == |skipped|
    requires if t.failed then |t.lines| < |runnable| else |t.lines| == |runnable|
    requires forall i :: 0 <= i < |t.lines| ==> LineOf(db, runnable[i], c) == Some(t.lines[i])
    ensures AddsUp(Stored(ResultOf(t, skipped, runnable, c))) <==>
            !t.failed || (skipped == [] && QuietUntil(db, runnable, |t.lines|, c))
  {
    hide *;
    if t.failed {
      ThrownAddsUp(db, t, skipped, runnable, c);
    } else {
      CompletedAddsUp(t, skipped, runnable, c);
    }
  }

  lemma CompletedAddsUp(t: Trail, skipped: seq<Line>, runnable: seq<Runnable>, c: Context)
    requires !t.failed && |t.lines| == |runnable|
    ensures AddsUp(Stored(ResultOf(t, skipped, runnable, c)))
  {
    CountsAreDisjoint(skipped + t.lines);
  }

  lemma ThrownAddsUp(db: Db, t: Trail, skipped: seq<Line>, runnable: seq<Runnable>, c: Context)
    requires Count(skipped, IsTriggered) == 0 && Count(skipped, IsUnavailable) == |skipped|
    requires t.failed && |t.lines| < |runnable| && forall i :: 0 <= i < |t.lines| ==>
             LineOf(db, runnable[i], c) == Some(t.lines[i])
    ensures AddsUp(Stored(ResultOf(t, skipped, runnable, c)))
            <==> skipped == [] && QuietUntil(db, runnable, |t.lines|, c)
  {
    hide Count, ObservedValue, LineOf, QuietUntil;
    ThrownCounts(db, skipped, t.lines, runnable, c);
  }

  /** The counts of a run that threw are zero exactly if nothing was skipped and all was quiet. */
  lemma ThrownCounts(db: Db, skipped: seq<Line>, lines: seq<Line>, runnable: seq<Runnable>, c: Context)
    requires Count(skipped, IsTriggered) == 0 && Count(skipped, IsUnavailable) == |skipped|
    requires |lines| < |runnable| && forall i :: 0 <= i < |lines| ==> LineOf(db, runnable[i], c) == Some(lines[i])
    ensures var all, k := skipped + lines, |lines|;
            Count(all, IsTriggered) + Count(all, IsUnavailable) == 0 &&
              ObservedValue(runnable[k], c.loaded, c.world).Some?
            <==> skipped == [] && QuietUntil(db, runnable, k, c)
  {
    hide Count, LineOf, ObservedValue, IsTriggered, IsUnavailable;
    CountJoin(skipped, lines, IsTriggered);
    CountJoin(skipped, lines, IsUnavailable);
    NothingCounted(lines);
    forall i | 0 <= i < |lines|
      ensures !IsTriggered(lines[i]) && !IsUnavailable(lines[i]) <==> lines[i] == CheckedLine(runnable[i].ruleId)
    {
      KindOfLine(db, runnable[i], c);
    }
  }

  lemma KindOfLine(db: Db, x: Runnable, c: Context)
    requires LineOf(db, x, c).Some?
    ensures var line := LineOf(db, x, c).value;
            !IsTriggered(line) && !IsUnavailable(line) <==> line == CheckedLine(x.ruleId)
  {
    hide ObservedValue, ReasonFor, Inserts;
  }

  lemma {:induction false} RunnablesAreDistinct(due: seq<nat>, rules: map<nat, Rule>, world: World)
    requires (forall id :: id in due ==> id in rules) && Distinct(due)
    ensures Distinct(Ids(Runnables(due, rules, world))) && forall id :: id in Ids(Runnables(due, rules, world)) ==>
            id in due
    decreases |due|
  {
    hide CanRun, Ids;
    if due == [] {
      NothingFiled();
    } else {
      var n := |due| - 1;
      var r, runnable := rules[due[n]], Runnables(due[..n], rules, world);
      RunnablesAreDistinct(due[..n], rules, world);
      assert due == due[..n] + [due[n]];
      if CanRun(r, world) {
        SymbolOf(r, world);
        IdsAppend(runnable, Runnable(due[n], r, world.instruments[r.instrumentId.value]));
        assert due[n] !in due[..n];
        assert forall i :: 0 <= i < |Ids(runnable)| ==> Ids(runnable)[i] in Ids(runnable);
      } else {
        assert runnable + [] == runnable;
      }
    }
  }

  lemma SymbolOf(r: Rule, world: World)
    requires CanRun(r, world)
    ensures r.instrumentId.Some? && r.instrumentId.value in world.instruments
  {
  }

  /** A run that does not add up: the first rule has no observation, the second is deleted before its
      turn, and the stored row says 0 checked and 1 unavailable. */
  lemma FailedRunDoesNotAddUp() returns (db: Db, c: Context)
    ensures WellKept(db) && 1 in db.rules && 2 in db.rules && DueIds([1, 2], db.rules, c.now) == [1, 2]
    ensures var runnable, skipped := Runnables([1, 2], db.rules, c.world), SkippedLines([1, 2], db.rules, c.world);
            QuotesLoaded(c.loaded, runnable, c.world, c.now, map[]) &&
            Stored(ResultOf(Checks(db, runnable, |runnable|, c), skipped, runnable, c)) == StoredCounts(0, 0, 1)
  {
    hide WellKept, QuotesLoaded, Checks, ResultOf, Runnables, SkippedLines, DueIds, Upper;
    db := Db(map[1 := PriceRuleOn(1), 2 := PriceRuleOn(2)], 3, map[], 1, []);
    var world := World(map[1 := "A", 2 := "B"], _ => false, _ => false, Quotes([]), OnlyB, map[],
                       i => if i == 1 then [2] else []);
    c := Context(world, Loaded(map[KeyOf("B", false) := Observation(Yahoo, 2.0)], map[BySymbol("A") := "down"]), 0,
                 "heartbeat", "");
    var x, y := Runnable(1, PriceRuleOn(1), "A"), Runnable(2, PriceRuleOn(2), "B");
    NothingTriggered(db);
    TwoRunnables(db.rules, world);
    TwoChecks(db, x, y, c);
    BIsLoaded(x, y, c);
  }

  lemma OneMoreDue(ids: seq<nat>, id: nat, rules: map<nat, Rule>, now: int)
    requires id in rules && AlertHistory.Runs(rules[id], now) && forall x :: x in ids ==> x in rules
    ensures DueIds(ids + [id], rules, now) == DueIds(ids, rules, now) + [id]
  {
    assert (ids + [id])[..|ids|] == ids;
  }

  lemma OneMoreRunnable(due: seq<nat>, id: nat, rules: map<nat, Rule>, world: World)
    requires id in rules && CanRun(rules[id], world) && forall x :: x in due ==> x in rules
    ensures SkippedLines(due + [id], rules, world) == SkippedLines(due, rules, world)
    ensures Runnables(due + [id], rules, world)
            == Runnables(due, rules, world)
               + [Runnable(id, rules[id], world.instruments[rules[id].instrumentId.value])]
  {
    assert (due + [id])[..|due|] == due;
    assert SkippedLines(due, rules, world) + [] == SkippedLines(due, rules, world);
  }

  lemma NoneRunnable(rules: map<nat, Rule>, world: World)
    ensures DueIds([], rules, 0) == [] && SkippedLines([], rules, world) == [] && Runnables([], rules, world) == []
  {
  }

  lemma TwoRunnables(rules: map<nat, Rule>, world: World)
    requires rules == map[1 := PriceRuleOn(1), 2 := PriceRuleOn(2)] && world.instruments == map[1 := "A", 2 := "B"]
    ensures DueIds([1, 2], rules, 0) == [1, 2] && SkippedLines([1, 2], rules, world) == []
    ensures Runnables([1, 2], rules, world) == [Runnable(1, PriceRuleOn(1), "A"), Runnable(2, PriceRuleOn(2), "B")]
  {
    hide DueIds, Runnables, SkippedLines, AlertHistory.Runs, CanRun;
    BothAreDue();
    BothCanRun(world);
    NoneRunnable(rules, world);
    OneMoreDue([], 1, rules, 0);
    OneMoreDue([1], 2, rules, 0);
    OneMoreRunnable([], 1, rules, world);
    OneMoreRunnable([1], 2, rules, world);
    assert [] + [1] == [1] && [1] + [2] == [1, 2];
  }

  lemma BothAreDue()
    ensures AlertHistory.Runs(PriceRuleOn(1), 0) && AlertHistory.Runs(PriceRuleOn(2), 0)
  {
  }

  lemma BothCanRun(world: World)
    requires world.instruments == map[1 := "A", 2 := "B"]
    ensures CanRun(PriceRuleOn(1), world) && CanRun(PriceRuleOn(2), world)
  {
  }

  function PriceRuleOn(instrumentId: nat): Rule {
    Rule(PriceCrossesAbove(Some(1.0)), 1, Some(instrumentId), true, Active, false, None, None, None, None, None,
         Unknown, 1, 1, None)
  }

  function OnlyB(symbol: string): YahooReply {
    if symbol == "B" then Quote(2.0) else YahooFailed("down", false)
  }

  lemma NothingTriggered(db: Db)
    requires db.events == map[]
    ensures WellKept(db)
  {
  }

  lemma BIsLoaded(x: Runnable, y: Runnable, c: Context)
    requires x == Runnable(1, PriceRuleOn(1), "A") && y == Runnable(2, PriceRuleOn(2), "B") && !c.world.allowsDelayed(1)
    requires c.world.yahoo == OnlyB && !c.world.allowsDelayed(2)
    requires c.loaded == Loaded(map[KeyOf("B", false) := Observation(Yahoo, 2.0)], map[BySymbol("A") := "down"])
    ensures QuotesLoaded(c.loaded, [x, y], c.world, c.now, map[])
  {
    assert Upper("B") == "B";
    assert Answers(Observation(Yahoo, 2.0), KeyOf("B", false), y, c.world);
    assert y in [x, y];
  }

  lemma TwoChecks(db: Db, x: Runnable, y: Runnable, c: Context)
    requires x == Runnable(1, PriceRuleOn(1), "A") && y == Runnable(2, PriceRuleOn(2), "B") && 1 in db.rules &&
             2 in db.rules
    requires !c.world.allowsDelayed(1) && !c.world.allowsDelayed(2)
    requires c.loaded == Loaded(map[KeyOf("B", false) := Observation(Yahoo, 2.0)], map[BySymbol("A") := "down"])
    requires c.world.deletedBefore(0) == [] && c.world.deletedBefore(1) == [2]
    ensures Stored(ResultOf(Checks(db, [x, y], 2, c), [], [x, y], c)) == StoredCounts(0, 0, 1)
  {
    hide LineOf, ObservedValue, Checked;
    var line, runnable := NoObservation(1, Specified("down")), [x, y];
    TwoLines(db, x, y, c);
    assert Checks(db, runnable, 0, c) == Trail(db, [], false);
    assert Removed(db, []) == db && [2][..0] == [];
    assert Checks(db, runnable, 1, c) == Trail(Checked(db, x, c), [line], false);
    var t := Trail(Delete(Checked(db, x, c), 2), [line], true);
    TwoLines(t.db, x, y, c);
    ThrowsIfGone(t.db, y, c);
    assert Checks(db, runnable, 2, c) == t;
    assert [] + [line] == [line] && [line][..0] == [];
    CountAppend([], line, IsUnavailable);
    CountAppend([], line, IsTriggered);
    assert Count([line], IsUnavailable) == 1 && Count([line], IsTriggered) == 0;
  }

  lemma TwoLines(db: Db, x: Runnable, y: Runnable, c: Context)
    requires x == Runnable(1, PriceRuleOn(1), "A") && y == Runnable(2, PriceRuleOn(2), "B")
    requires !c.world.allowsDelayed(1) && !c.world.allowsDelayed(2)
    requires c.loaded == Loaded(map[KeyOf("B", false) := Observation(Yahoo, 2.0)], map[BySymbol("A") := "down"])
    ensures ObservedValue(x, c.loaded, c.world) == None && ObservedValue(y, c.loaded, c.world) == Some(2.0)
    ensures 1 in db.rules ==> LineOf(db, x, c) == Some(NoObservation(1, Specified("down")))
  {
    assert Upper("A")[0] == 'A' && Upper("B")[0] == 'B';
  }
}
