// Scheduled reports: the compare-and-swap claim of src/market-state/service.ts, the runner
// of src/market-state/local-automation-service.ts with its roll-back, and the runner lease.
module ReportScheduler {
  import opened Options

  datatype Template = Template(enabled: bool, daily: bool, nextRunAt: Option<int>)

  datatype RunStatus = Completed | Failed

  datatype ReportRun = ReportRun(templateId: nat, scheduledFor: int, status: RunStatus)

  /** How the work on a claimed report ends: it can still throw after its run is recorded. */
  datatype Ending = Succeeds | FailsBefore | FailsAfterRecording

  datatype Lease = Lease(ownerId: string, expiresAt: int)

  // ---------------------------------------------------------------- the lease

  function Acquire(lease: Option<Lease>, ownerId: string, now: int, ttlMs: int): (Option<Lease>, bool) {
    if lease.Some? && lease.value.ownerId != ownerId && lease.value.expiresAt > now then (lease, false)
    else (Some(Lease(ownerId, now + ttlMs)), true)
  }

  function Release(lease: Option<Lease>, ownerId: string): Option<Lease> {
    if lease.Some? && lease.value.ownerId == ownerId then None else lease
  }

  datatype LeaseEvent = AcquireEvent(ownerId: string, now: int, ttlMs: int) | ReleaseEvent(ownerId: string)

  function LeaseAfter(lease: Option<Lease>, events: seq<LeaseEvent>): Option<Lease> {
    if events == [] then lease
    else
      var before := LeaseAfter(lease, events[..|events| - 1]);
      match events[|events| - 1]
      case AcquireEvent(ownerId, now, ttlMs) => Acquire(before, ownerId, now, ttlMs).0
      case ReleaseEvent(ownerId) => Release(before, ownerId)
  }

  /** While its owner does nothing, a lease is not taken over before it expires. */
  lemma {:induction false} LeaseIsKept(lease: Lease, events: seq<LeaseEvent>)
    requires forall e :: e in events ==> e.ownerId != lease.ownerId
    requires forall e :: e in events && e.AcquireEvent? ==> e.now < lease.expiresAt
    ensures LeaseAfter(Some(lease), events) == Some(lease)
    decreases |events|
  {
    if events != [] {
      LeaseIsKept(lease, events[..|events| - 1]);
      assert events[|events| - 1] in events;
    }
  }

  /** Exactly those wait that find another's lease: a free, own or expired lease is granted, and while only
      others do something, an attempt is granted exactly if it is the owner's own or the time is over. */
  lemma LeaseExcludes(before: Option<Lease>, ownerId: string, at: int, ttlMs: int, events: seq<LeaseEvent>,
      other: string, now: int)
    requires before.None? || before.value.ownerId == ownerId || before.value.expiresAt <= at
    requires forall e :: e in events ==> e.ownerId != ownerId
    requires forall e :: e in events && e.AcquireEvent? ==> e.now < at + ttlMs
    ensures var (lease, acquired) := Acquire(before, ownerId, at, ttlMs);
            acquired &&
            (Acquire(LeaseAfter(lease, events), other, now, ttlMs).1 <==> other == ownerId || at + ttlMs <= now)
    ensures Release(Acquire(before, ownerId, at, ttlMs).0, ownerId) == None
  {
    LeaseIsKept(Lease(ownerId, at + ttlMs), events);
    hide LeaseAfter;
  }

  // ---------------------------------------------------------------- the tables

  function Claim(t: Template, scheduledFor: int, nextRunAt: int): (Template, bool) {
    if t.enabled && t.nextRunAt == Some(scheduledFor) then (t.(nextRunAt := Some(nextRunAt)), true) else (t, false)
  }

  predicate IsDue(t: Template, now: int) {
    t.enabled && t.daily && t.nextRunAt.Some? && t.nextRunAt.value <= now
  }

  class ReportTables {
    var templates: map<nat, Template>
    var runs: seq<ReportRun>
    var lease: Option<Lease>

    constructor (templates: map<nat, Template>)
      ensures this.templates == templates && runs == [] && lease == None
    {
      this.templates := templates;
      runs, lease := [], None;
    }

    method AcquireLease(ownerId: string, now: int, ttlMs: int) returns (acquired: bool)
      modifies this`lease
      ensures (lease, acquired) == Acquire(old(lease), ownerId, now, ttlMs)
    {
      if lease.Some? && lease.value.ownerId != ownerId && lease.value.expiresAt > now {
        return false;
      }
      lease := Some(Lease(ownerId, now + ttlMs));
      return true;
    }

    method ReleaseLease(ownerId: string)
      modifies this`lease
      ensures lease == Release(old(lease), ownerId)
    {
      if lease.Some? && lease.value.ownerId == ownerId {
        lease := None;
      }
    }

    method ClaimDueReportTemplateRun(id: nat, scheduledFor: int, nextRunAt: int) returns (claimed: bool)
      modifies this`templates
      ensures id !in old(templates) ==> !claimed && templates == old(templates)
      ensures id in old(templates) ==>
                var (t, ok) := Claim(old(templates)[id], scheduledFor, nextRunAt);
                claimed == ok && templates == old(templates)[id := t]
    {
      claimed := id in templates && templates[id].enabled && templates[id].nextRunAt == Some(scheduledFor);
      if claimed {
        templates := templates[id := templates[id].(nextRunAt := Some(nextRunAt))];
      }
    }

    method RecordReportRun(run: ReportRun)
      modifies this`runs
      ensures runs == old(runs) + [run]
    {
      runs := runs + [run];
    }

    method RollBack(id: nat, scheduledFor: int)
      requires id in templates
      modifies this`templates
      ensures templates == old(templates)[id := old(templates)[id].(nextRunAt := Some(scheduledFor))]
    {
      templates := templates[id := templates[id].(nextRunAt := Some(scheduledFor))];
    }

    /** One due template as the loop of `runDueReports` sees it; `listed` is the row it read at the start. */
    method RunOne(id: nat, listed: Template, now: int, nextRunAt: int, ending: Ending)
      requires id in templates && listed == templates[id]
      modifies this`templates, this`runs
      ensures templates == old(templates)[id := Advanced(listed, now, nextRunAt, ending)]
      ensures runs == old(runs) + RunRow(id, listed, now, ending)
    {
      if !IsDue(listed, now) {
        return;
      }
      var scheduledFor := listed.nextRunAt.value;
      var claimed := ClaimDueReportTemplateRun(id, scheduledFor, nextRunAt);
      if claimed {
        if ending != FailsBefore {
          RecordReportRun(ReportRun(id, scheduledFor, Completed));
        }
        if ending != Succeeds {
          RecordReportRun(ReportRun(id, scheduledFor, Failed));
          RollBack(id, scheduledFor);
        }
      }
    }

    /** `runDueReports` when no other runner interferes: `ends` tells how each report ends, `next`
        is the next run time of a template. */
    method RunDueReports(ids: seq<nat>, now: int, next: nat -> int, ends: nat -> Ending)
      requires forall id :: id in ids ==> id in templates
      requires forall i, j :: 0 <= i < j < |ids| ==> ids[i] != ids[j]
      modifies this`templates, this`runs
      ensures templates.Keys == old(templates).Keys
      ensures AdvancedTables(ids, old(templates), templates, now, next, ends)
      ensures runs == old(runs) + RunRows(ids, old(templates), now, ends)
    {
      hide Advanced, RunRow, IsDue, AdvancedTables;
      NothingAdvanced(templates, now, next, ends);
      var listed := templates;
      for i := 0 to |ids|
        invariant templates.Keys == listed.Keys
        invariant AdvancedTables(ids[..i], listed, templates, now, next, ends)
        invariant runs == old(runs) + RunRows(ids[..i], listed, now, ends)
      {
        var id := ids[i];
        assert ids[..i + 1] == ids[..i] + [id] && id !in ids[..i];
        assert ids[..i + 1][..i] == ids[..i];
        NotYetAdvanced(ids[..i], id, listed, templates, now, next, ends);
        ghost var before := templates;
        RunOne(id, listed[id], now, next(id), ends(id));
        OneMoreAdvanced(ids[..i], id, listed, before, now, next, ends);
      }
      assert ids[..|ids|] == ids;
    }
  }

  /** The row after its turn: a failed report leaves it as it was. */
  function Advanced(t: Template, now: int, nextRunAt: int, ending: Ending): Template {
    if IsDue(t, now) && ending.Succeeds? then t.(nextRunAt := Some(nextRunAt)) else t
  }

  function RunRow(id: nat, t: Template, now: int, ending: Ending): seq<ReportRun> {
    if !IsDue(t, now) then []
    else
      match ending
      case Succeeds => [ReportRun(id, t.nextRunAt.value, Completed)]
      case FailsBefore => [ReportRun(id, t.nextRunAt.value, Failed)]
      case FailsAfterRecording =>
        [ReportRun(id, t.nextRunAt.value, Completed), ReportRun(id, t.nextRunAt.value, Failed)]
  }

  ghost predicate AdvancedTables(ids: seq<nat>, before: map<nat, Template>, after: map<nat, Template>, now: int,
      next: nat -> int, ends: nat -> Ending)
  {
    forall id :: id in after && id in before ==>
      after[id] == if id in ids then Advanced(before[id], now, next(id), ends(id)) else before[id]
  }

  lemma NothingAdvanced(templates: map<nat, Template>, now: int, next: nat -> int, ends: nat -> Ending)
    ensures AdvancedTables([], templates, templates, now, next, ends)
  {
  }

  lemma NotYetAdvanced(ids: seq<nat>, id: nat, before: map<nat, Template>, after: map<nat, Template>, now: int,
      next: nat -> int, ends: nat -> Ending)
    requires AdvancedTables(ids, before, after, now, next, ends) && id !in ids && id in before && id in after
    ensures after[id] == before[id]
  {
  }

  lemma OneMoreAdvanced(ids: seq<nat>, id: nat, before: map<nat, Template>, after: map<nat, Template>, now: int,
      next: nat -> int, ends: nat -> Ending)
    requires AdvancedTables(ids, before, after, now, next, ends) && id !in ids && id in before
    ensures AdvancedTables(ids + [id], before, after[id := Advanced(before[id], now, next(id), ends(id))], now, next,
                           ends)
  {
  }

  /** The runs that a heartbeat records, in the order of the templates. */
  ghost function RunRows(ids: seq<nat>, templates: map<nat, Template>, now: int, ends: nat -> Ending): seq<ReportRun>
    requires forall id :: id in ids ==> id in templates
    decreases |ids|
  {
    if ids == [] then []
    else
      var id := ids[|ids| - 1];
      RunRows(ids[..|ids| - 1], templates, now, ends) + RunRow(id, templates[id], now, ends(id))
  }

  // ---------------------------------------------------------------- what one heartbeat does

  function RowsOf(runs: seq<ReportRun>, id: nat): seq<ReportRun>
    decreases |runs|
  {
    if runs == [] then []
    else RowsOf(runs[..|runs| - 1], id) + if runs[|runs| - 1].templateId == id then [runs[|runs| - 1]] else []
  }

  lemma {:induction false} RowsOfAppended(a: seq<ReportRun>, b: seq<ReportRun>, id: nat)
    ensures RowsOf(a + b, id) == RowsOf(a, id) + RowsOf(b, id)
    decreases |b|
  {
    if b == [] {
      assert a + b == a;
    } else {
      assert (a + b)[..|a + b| - 1] == a + b[..|b| - 1];
      RowsOfAppended(a, b[..|b| - 1], id);
    }
  }

  lemma RowsOfOne(id: nat, t: Template, now: int, ending: Ending, other: nat)
    ensures RowsOf(RunRow(id, t, now, ending), other) == if other == id then RunRow(id, t, now, ending) else []
  {
    RowsOfPair(ReportRun(id, if t.nextRunAt.Some? then t.nextRunAt.value else 0, Completed),
               ReportRun(id, if t.nextRunAt.Some? then t.nextRunAt.value else 0, Failed), other);
  }

  lemma RowsOfPair(a: ReportRun, b: ReportRun, id: nat)
    requires a.templateId == b.templateId
    ensures RowsOf([a], id) == if a.templateId == id then [a] else []
    ensures RowsOf([b], id) == if b.templateId == id then [b] else []
    ensures RowsOf([a, b], id) == if a.templateId == id then [a, b] else []
  {
    assert [a, b][..1] == [a] && [a][..0] == [] && [b][..0] == [];
  }

  lemma {:induction false} RowsOfTemplate(ids: seq<nat>, templates: map<nat, Template>, now: int, ends: nat -> Ending,
      id: nat)
    requires forall i :: i in ids ==> i in templates
    requires forall i, j :: 0 <= i < j < |ids| ==> ids[i] != ids[j]
    ensures RowsOf(RunRows(ids, templates, now, ends), id)
            == if id in ids then RunRow(id, templates[id], now, ends(id)) else []
    decreases |ids|
  {
    hide RunRow;
    if ids != [] {
      var prior, last := ids[..|ids| - 1], ids[|ids| - 1];
      assert ids == prior + [last];
      RowsOfTemplate(prior, templates, now, ends, id);
      RowsOfAppended(RunRows(prior, templates, now, ends), RunRow(last, templates[last], now, ends(last)), id);
      RowsOfOne(last, templates[last], now, ends(last), id);
    }
  }

  /** One heartbeat, template by template: a row is recorded exactly for an enabled daily template whose
      time has come, for that time; only a report that succeeds moves its template on. */
  lemma HeartbeatRunsWhatIsDue(ids: seq<nat>, before: map<nat, Template>, after: map<nat, Template>, now: int,
      next: nat -> int, ends: nat -> Ending, id: nat)
    requires (forall i :: i in ids ==> i in before) && id in before && id in after
    requires forall i, j :: 0 <= i < j < |ids| ==> ids[i] != ids[j]
    requires AdvancedTables(ids, before, after, now, next, ends)
    ensures var rows, t := RowsOf(RunRows(ids, before, now, ends), id), before[id];
            match t
            case Template(true, true, Some(slot)) =>
              if id in ids && slot <= now then
                match ends(id)
                case Succeeds => rows == [ReportRun(id, slot, Completed)] &&
                    after[id] == t.(nextRunAt := Some(next(id)))
                case FailsBefore => rows == [ReportRun(id, slot, Failed)] && after[id] == t
                case FailsAfterRecording =>
                  rows == [ReportRun(id, slot, Completed), ReportRun(id, slot, Failed)] && after[id] == t
              else rows == [] && after[id] == t
            case _ => rows == [] && after[id] == t
  {
    RowsOfTemplate(ids, before, now, ends, id);
    hide RowsOf, RunRows;
  }

  /** Once a heartbeat has succeeded everywhere, another one at the same time runs nothing. */
  lemma {:induction false} SecondHeartbeatIsIdle(ids: seq<nat>, before: map<nat, Template>, after: map<nat, Template>,
      now: int, next: nat -> int, ends: nat -> Ending, again: nat -> Ending)
    requires forall i :: i in ids ==> i in before && i in after && ends(i) == Succeeds && now < next(i)
    requires AdvancedTables(ids, before, after, now, next, ends)
    ensures RunRows(ids, after, now, again) == []
  {
    forall i | i in ids ensures !IsDue(after[i], now) {
    }
    IdleRows(ids, after, now, again);
  }

  lemma {:induction false} IdleRows(ids: seq<nat>, templates: map<nat, Template>, now: int, ends: nat -> Ending)
    requires forall i :: i in ids ==> i in templates && !IsDue(templates[i], now)
    ensures RunRows(ids, templates, now, ends) == []
    decreases |ids|
  {
    if ids != [] {
      IdleRows(ids[..|ids| - 1], templates, now, ends);
      assert ids[|ids| - 1] in ids;
    }
  }

  // ---------------------------------------------------------------- interleavings of runners

  datatype Progress = Outstanding | Succeeded | RolledBack

  /** `recordedFirst`: the report was recorded as completed before the runner failed. */
  datatype ClaimRecord = ClaimRecord(templateId: nat, slot: int, progress: Progress, recordedFirst: bool)

  datatype World = World(templates: map<nat, Template>, claims: seq<ClaimRecord>, runs: seq<ReportRun>)

  /** Runners hold no lease here: the claims alone must keep them apart. */
  datatype Event =
    | ClaimEvent(templateId: nat, scheduledFor: int, nextRunAt: int, now: int)
    | SucceedEvent(claim: nat)
    | FailEvent(claim: nat, recordedFirst: bool)
    | ConfigureEvent(templateId: nat, template: Template, now: int)

  predicate Open(w: World, i: nat) {
    i < |w.claims| && w.claims[i].progress == Outstanding && w.claims[i].templateId in w.templates
  }

  function Step(w: World, e: Event): World {
    match e
    case ClaimEvent(id, scheduledFor, nextRunAt, _) =>
      if id in w.templates && Claim(w.templates[id], scheduledFor, nextRunAt).1 then
        World(w.templates[id := Claim(w.templates[id], scheduledFor, nextRunAt).0],
              w.claims + [ClaimRecord(id, scheduledFor, Outstanding, false)], w.runs)
      else w
    case SucceedEvent(i) =>
      if Open(w, i) then
        var c := w.claims[i];
        w.(claims := w.claims[i := c.(progress := Succeeded)],
           runs := w.runs + [ReportRun(c.templateId, c.slot, Completed)])
      else w
    case FailEvent(i, recordedFirst) =>
      if Open(w, i) then
        var c := w.claims[i];
        World(w.templates[c.templateId := w.templates[c.templateId].(nextRunAt := Some(c.slot))],
              w.claims[i := c.(progress := RolledBack, recordedFirst := recordedFirst)],
              w.runs + (if recordedFirst then [ReportRun(c.templateId, c.slot, Completed)] else [])
              + [ReportRun(c.templateId, c.slot, Failed)])
      else w
    case ConfigureEvent(id, template, _) => w.(templates := w.templates[id := template])
  }

  function After(events: seq<Event>): World {
    if events == [] then World(map[], [], []) else Step(After(events[..|events| - 1]), events[|events| - 1])
  }

  predicate Timed(e: Event) {
    e.ClaimEvent? || e.ConfigureEvent?
  }

  /** The runner claims a slot that is due and moves the schedule past now; so does a user who
      configures it. */
  predicate Admissible(e: Event) {
    match e
    case ClaimEvent(_, scheduledFor, nextRunAt, now) => scheduledFor <= now < nextRunAt
    case ConfigureEvent(_, template, now) => template.nextRunAt.Some? ==> now < template.nextRunAt.value
    case _ => true
  }

  predicate SameTemplate(e: Event, f: Event) {
    Timed(e) && Timed(f) && e.templateId == f.templateId
  }

  /** The claims and configurations of one template come in the order of their times. */
  ghost predicate Monotone(events: seq<Event>) {
    && (forall i :: 0 <= i < |events| ==> Admissible(events[i]))
    && (forall i, j :: 0 <= i < j < |events| && SameTemplate(events[i], events[j]) ==> events[i].now <= events[j].now)
  }

  /** The claim may still deliver the slot, or has. */
  predicate Holds(c: ClaimRecord, id: nat, slot: int) {
    c.templateId == id && c.slot == slot && c.progress != RolledBack
  }

  ghost predicate Taken(w: World, id: nat, slot: int) {
    exists i :: 0 <= i < |w.claims| && Holds(w.claims[i], id, slot)
  }

  /** No two live claims share a slot, and no template waits for a slot that a live claim has. */
  ghost predicate Exclusive(w: World) {
    && (forall i, j :: 0 <= i < j < |w.claims| && Holds(w.claims[i], w.claims[j].templateId, w.claims[j].slot) ==>
          w.claims[j].progress == RolledBack)
    && (forall id :: id in w.templates && w.templates[id].nextRunAt.Some? ==>
          !Taken(w, id, w.templates[id].nextRunAt.value))
  }

  /** The schedule is not set to a slot that is taken, by the claim itself or by another one. */
  ghost predicate Guard(w: World, e: Event) {
    match e
    case ClaimEvent(id, scheduledFor, nextRunAt, _) =>
      id in w.templates && Claim(w.templates[id], scheduledFor, nextRunAt).1 ==>
        nextRunAt != scheduledFor && !Taken(w, id, nextRunAt)
    case ConfigureEvent(id, template, _) => template.nextRunAt.Some? ==> !Taken(w, id, template.nextRunAt.value)
    case _ => true
  }

  ghost predicate Guarded(events: seq<Event>) {
    forall k :: 0 <= k < |events| ==> Guard(After(events[..k]), events[k])
  }

  lemma GuardKeeps(w: World, e: Event)
    requires Exclusive(w) && Guard(w, e)
    ensures Exclusive(Step(w, e))
  {
    var after := Step(w, e);
    forall id | id in after.templates && after.templates[id].nextRunAt.Some?
      ensures !Taken(after, id, after.templates[id].nextRunAt.value)
    {
      TakenStep(w, e, id, after.templates[id].nextRunAt.value);
      hide Taken;
    }
  }

  /** A slot is newly taken only by a claim of it. */
  lemma TakenStep(w: World, e: Event, id: nat, slot: int)
    ensures Taken(Step(w, e), id, slot) ==>
              Taken(w, id, slot) ||
              (e.ClaimEvent? && id == e.templateId && slot == e.scheduledFor && id in w.templates &&
               Claim(w.templates[id], e.scheduledFor, e.nextRunAt).1)
  {
    var after := Step(w, e);
    if Taken(after, id, slot) {
      var i: int :| 0 <= i < |after.claims| && Holds(after.claims[i], id, slot);
      assert i < |w.claims| ==> Holds(w.claims[i], id, slot);
    }
  }

  /** Such a step leaves its template waiting for a slot that a live claim has. */
  lemma UnguardedSlotIsTaken(w: World, e: Event)
    requires Exclusive(w) && !Guard(w, e)
    ensures (e.ClaimEvent? || e.ConfigureEvent?) && e.templateId in Step(w, e).templates
    ensures var t := Step(w, e).templates[e.templateId];
            t.nextRunAt.Some? && Taken(Step(w, e), e.templateId, t.nextRunAt.value)
  {
    var after := Step(w, e);
    assert e.ClaimEvent? || e.ConfigureEvent?;
    var id := e.templateId;
    var slot := after.templates[id].nextRunAt.value;
    if Taken(w, id, slot) {
      var i: int :| 0 <= i < |w.claims| && Holds(w.claims[i], id, slot);
      assert Holds(after.claims[i], id, slot);
    } else {
      assert Holds(after.claims[|w.claims|], id, slot);
    }
    assert Taken(after, id, slot);
  }

  lemma NoGuardBreaks(w: World, e: Event)
    requires Exclusive(w) && !Guard(w, e)
    ensures !Exclusive(Step(w, e))
  {
    hide Guard, Taken;
    UnguardedSlotIsTaken(w, e);
  }

  /** A step keeps the claims exclusive exactly when it does not set a schedule to a taken slot. */
  lemma StepIsExclusive(w: World, e: Event)
    requires Exclusive(w)
    ensures Exclusive(Step(w, e)) <==> Guard(w, e)
  {
    hide *;
    if Guard(w, e) {
      GuardKeeps(w, e);
    } else {
      NoGuardBreaks(w, e);
    }
  }

  /** The loss is real: once a step has set an enabled template to a taken slot, the next claim of the
      slot is granted, and the slot has two live claims. */
  lemma UnguardedSlotIsClaimedTwice(w: World, e: Event, nextRunAt: int, now: int)
    requires Exclusive(w) && !Guard(w, e) && Step(w, e).templates[e.templateId].enabled
    ensures var id := e.templateId;
            var slot := Step(w, e).templates[id].nextRunAt.value;
            var claims := Step(Step(w, e), ClaimEvent(id, slot, nextRunAt, now)).claims;
            exists i, j :: 0 <= i < j < |claims| && Holds(claims[i], id, slot) && Holds(claims[j], id, slot)
  {
    var after, id := Step(w, e), e.templateId;
    var slot := after.templates[id].nextRunAt.value;
    var claims := Step(after, ClaimEvent(id, slot, nextRunAt, now)).claims;
    UnguardedSlotIsTaken(w, e);
    hide Exclusive, Guard;
    var i: int :| 0 <= i < |after.claims| && Holds(after.claims[i], id, slot);
    assert claims[i] == after.claims[i];
    assert Holds(claims[|after.claims|], id, slot);
  }

  lemma NothingIsTaken()
    ensures Exclusive(World(map[], [], []))
  {
  }

  lemma {:induction false} GuardedIsExclusive(events: seq<Event>, k: nat)
    requires Guarded(events) && k <= |events|
    ensures Exclusive(After(events[..k]))
  {
    hide Exclusive, Guard, Step;
    if k == 0 {
      NothingIsTaken();
    } else {
      GuardedIsExclusive(events, k - 1);
      assert events[..k][..k - 1] == events[..k - 1];
      StepIsExclusive(After(events[..k - 1]), events[k - 1]);
    }
  }

  /** Over a whole run the claims are exclusive at every moment exactly when no step sets a schedule
      to a taken slot. */
  lemma RunIsExclusive(events: seq<Event>)
    ensures Guarded(events) <==> (forall k :: 0 <= k <= |events| ==> Exclusive(After(events[..k])))
  {
    hide Exclusive, Guard, Step;
    if Guarded(events) {
      forall k | 0 <= k <= |events| ensures Exclusive(After(events[..k])) {
        GuardedIsExclusive(events, k);
      }
    } else {
      var k: int :| 0 <= k < |events| && !Guard(After(events[..k]), events[k]);
      assert events[..k + 1][..k] == events[..k];
      if Exclusive(After(events[..k])) {
        StepIsExclusive(After(events[..k]), events[k]);
        assert !Exclusive(After(events[..k + 1]));
      }
    }
  }

  lemma {:induction false} SlotsAreBehind(events: seq<Event>, id: nat, now: int)
    requires forall i :: 0 <= i < |events| ==> Admissible(events[i])
    requires forall i :: 0 <= i < |events| && Timed(events[i]) && events[i].templateId == id ==> events[i].now <= now
    ensures forall c :: c in After(events).claims && c.templateId == id ==> c.slot <= now
    decreases |events|
  {
    if events != [] {
      var prior, e := events[..|events| - 1], events[|events| - 1];
      SlotsAreBehind(prior, id, now);
      assert Admissible(e);
    }
  }

  /** Runners whose clocks agree on the order of the claims of each template are guarded; nothing is
      asked of claims of different templates. */
  lemma MonotoneIsGuarded(events: seq<Event>)
    requires Monotone(events)
    ensures Guarded(events)
  {
    hide After;
    forall k | 0 <= k < |events| ensures Guard(After(events[..k]), events[k]) {
      var e := events[k];
      assert Admissible(e);
      if Timed(e) {
        SlotsAreBehind(events[..k], e.templateId, e.now);
      }
    }
  }

  /** However runners interleave, a slot of a template is delivered by at most one claim: never two
      outstanding, never two successful, never one outstanding after a success. */
  lemma OneClaimPerSlot(events: seq<Event>, i: nat, j: nat)
    requires Guarded(events)
    requires var cs := After(events).claims;
             i < |cs| && j < |cs| && cs[i].templateId == cs[j].templateId && cs[i].slot == cs[j].slot &&
             cs[i].progress != RolledBack && cs[j].progress != RolledBack
    ensures i == j
  {
    hide After, Exclusive;
    GuardedIsExclusive(events, |events|);
    assert events[..|events|] == events;
    if i < j {
      LaterIsRolledBack(After(events), i, j);
    } else if j < i {
      LaterIsRolledBack(After(events), j, i);
    }
  }

  lemma LaterIsRolledBack(w: World, i: nat, j: nat)
    requires Exclusive(w) && i < j < |w.claims| && Holds(w.claims[i], w.claims[j].templateId, w.claims[j].slot)
    ensures w.claims[j].progress == RolledBack
  {
  }

  // ---------------------------------------------------------------- what the tables show

  function CompletedRows(runs: seq<ReportRun>, id: nat, slot: int): nat
    decreases |runs|
  {
    if runs == [] then 0
    else
      CompletedRows(runs[..|runs| - 1], id, slot) +
      if runs[|runs| - 1] == ReportRun(id, slot, Completed) then 1 else 0
  }

  /** A claim that left a completed row: it succeeded, or failed after recording the report. */
  predicate LeftRow(c: ClaimRecord, id: nat, slot: int) {
    c.templateId == id && c.slot == slot && (c.progress == Succeeded || (c.progress == RolledBack && c.recordedFirst))
  }

  function RowsLeft(claims: seq<ClaimRecord>, id: nat, slot: int): nat
    decreases |claims|
  {
    if claims == [] then 0
    else RowsLeft(claims[..|claims| - 1], id, slot) + if LeftRow(claims[|claims| - 1], id, slot) then 1 else 0
  }

  predicate LateFailure(c: ClaimRecord, id: nat, slot: int) {
    LeftRow(c, id, slot) && c.progress == RolledBack
  }

  function LateFailures(claims: seq<ClaimRecord>, id: nat, slot: int): nat
    decreases |claims|
  {
    if claims == [] then 0
    else LateFailures(claims[..|claims| - 1], id, slot) + if LateFailure(claims[|claims| - 1], id, slot) then 1 else 0
  }

  lemma {:induction false} RowsLeftUpdate(claims: seq<ClaimRecord>, i: nat, c: ClaimRecord, id: nat, slot: int)
    requires i < |claims| && !LeftRow(claims[i], id, slot)
    ensures RowsLeft(claims[i := c], id, slot) == RowsLeft(claims, id, slot) + if LeftRow(c, id, slot) then 1 else 0
    decreases |claims|
  {
    var last := |claims| - 1;
    if i == last {
      assert claims[i := c][..last] == claims[..last];
    } else {
      assert claims[i := c][..last] == claims[..last][i := c];
      RowsLeftUpdate(claims[..last], i, c, id, slot);
    }
  }

  lemma RowsAppended(runs: seq<ReportRun>, run: ReportRun, id: nat, slot: int)
    ensures CompletedRows(runs + [run], id, slot)
            == CompletedRows(runs, id, slot) + if run == ReportRun(id, slot, Completed) then 1 else 0
  {
  }

  lemma FailureKeepsRows(w: World, i: nat, recordedFirst: bool, id: nat, slot: int)
    requires CompletedRows(w.runs, id, slot) == RowsLeft(w.claims, id, slot)
    ensures var after := Step(w, FailEvent(i, recordedFirst));
            CompletedRows(after.runs, id, slot) == RowsLeft(after.claims, id, slot)
  {
    hide CompletedRows, RowsLeft;
    if Open(w, i) {
      var c := w.claims[i];
      var recorded := w.runs + if recordedFirst then [ReportRun(c.templateId, c.slot, Completed)] else [];
      assert w.runs + [] == w.runs;
      RowsAppended(w.runs, ReportRun(c.templateId, c.slot, Completed), id, slot);
      RowsAppended(recorded, ReportRun(c.templateId, c.slot, Failed), id, slot);
      RowsLeftUpdate(w.claims, i, c.(progress := RolledBack, recordedFirst := recordedFirst), id, slot);
    }
  }

  lemma ClaimsAppended(claims: seq<ClaimRecord>, c: ClaimRecord, id: nat, slot: int)
    requires c.progress == Outstanding
    ensures RowsLeft(claims + [c], id, slot) == RowsLeft(claims, id, slot)
  {
  }

  lemma StepKeepsRows(w: World, e: Event, id: nat, slot: int)
    requires CompletedRows(w.runs, id, slot) == RowsLeft(w.claims, id, slot)
    ensures var after := Step(w, e); CompletedRows(after.runs, id, slot) == RowsLeft(after.claims, id, slot)
  {
    hide CompletedRows, RowsLeft;
    match e
    case ClaimEvent(t, scheduledFor, _, _) =>
      ClaimsAppended(w.claims, ClaimRecord(t, scheduledFor, Outstanding, false), id, slot);
    case SucceedEvent(i) =>
      if Open(w, i) {
        var c := w.claims[i];
        RowsAppended(w.runs, ReportRun(c.templateId, c.slot, Completed), id, slot);
        RowsLeftUpdate(w.claims, i, c.(progress := Succeeded), id, slot);
      }
    case FailEvent(i, recordedFirst) => FailureKeepsRows(w, i, recordedFirst, id, slot);
    case ConfigureEvent(_, _, _) =>
  }

  lemma {:induction false} RunKeepsRows(events: seq<Event>, id: nat, slot: int)
    ensures var w := After(events); CompletedRows(w.runs, id, slot) == RowsLeft(w.claims, id, slot)
    decreases |events|
  {
    if events != [] {
      RunKeepsRows(events[..|events| - 1], id, slot);
      StepKeepsRows(After(events[..|events| - 1]), events[|events| - 1], id, slot);
    }
  }

  predicate SucceededOnce(claims: seq<ClaimRecord>, id: nat, slot: int) {
    exists c :: c in claims && c.templateId == id && c.slot == slot && c.progress == Succeeded
  }

  lemma {:induction false} RowsSplit(claims: seq<ClaimRecord>, id: nat, slot: int)
    requires forall i, j :: 0 <= i < j < |claims| && Holds(claims[i], id, slot) ==> !Holds(claims[j], id, slot)
    ensures RowsLeft(claims, id, slot)
            == LateFailures(claims, id, slot) + if SucceededOnce(claims, id, slot) then 1 else 0
    decreases |claims|
  {
    if claims != [] {
      var prior, c := claims[..|claims| - 1], claims[|claims| - 1];
      RowsSplit(prior, id, slot);
      assert claims == prior + [c];
    }
  }

  /** A slot has one completed row for its successful claim, if there is one, and one for each
      runner that failed after it had recorded the report: only those make duplicates. */
  lemma CompletedRowsOfASlot(events: seq<Event>, id: nat, slot: int)
    requires Guarded(events)
    ensures var w := After(events);
            CompletedRows(w.runs, id, slot)
            == LateFailures(w.claims, id, slot) + if SucceededOnce(w.claims, id, slot) then 1 else 0
  {
    RunKeepsRows(events, id, slot);
    GuardedIsExclusive(events, |events|);
    assert events[..|events|] == events;
    var cs := After(events).claims;
    forall i, j | 0 <= i < j < |cs| && Holds(cs[i], id, slot) ensures !Holds(cs[j], id, slot) {
      assert cs[j].templateId == id && cs[j].slot == slot ==> Holds(cs[i], cs[j].templateId, cs[j].slot);
    }
    RowsSplit(cs, id, slot);
  }

  ghost predicate Traces(script: seq<Event>, worlds: seq<World>) {
    && |worlds| == |script| + 1 && worlds[0] == World(map[], [], [])
    && forall i :: 0 <= i < |script| ==> Step(worlds[i], script[i]) == worlds[i + 1]
  }

  lemma {:induction false} TracedRun(script: seq<Event>, worlds: seq<World>)
    requires Traces(script, worlds)
    ensures After(script) == worlds[|script|]
    decreases |script|
  {
    hide Step;
    if script != [] {
      TracedRun(script[..|script| - 1], worlds[..|script|]);
    }
  }

  /** Admissible steps alone do not keep the guard: after a roll-back, a runner whose now is old
      claims the slot for a time that another runner has already claimed, and it is claimed again. */
  lemma StaleClockSharesASlot() returns (events: seq<Event>)
    ensures forall e :: e in events ==> Admissible(e)
    ensures var cs := After(events).claims;
            |cs| == 4 && Holds(cs[1], 1, 60) && Holds(cs[3], 1, 60)
    ensures !Guarded(events)
  {
    hide After;
    var t := Template(true, true, Some(5));
    var at60, at80 := t.(nextRunAt := Some(60)), t.(nextRunAt := Some(80));
    var early, late := ClaimRecord(1, 5, Outstanding, false), ClaimRecord(1, 60, Outstanding, false);
    var dropped, failure := ClaimRecord(1, 5, RolledBack, false), [ReportRun(1, 5, Failed)];
    events := [ConfigureEvent(1, t, 0), ClaimEvent(1, 5, 60, 50), ClaimEvent(1, 60, 80, 61), FailEvent(0, false),
               ClaimEvent(1, 5, 60, 45), ClaimEvent(1, 60, 80, 62)];
    var worlds := [World(map[], [], []), World(map[1 := t], [], []), World(map[1 := at60], [early], []),
                   World(map[1 := at80], [early, late], []), World(map[1 := t], [dropped, late], failure),
                   World(map[1 := at60], [dropped, late, early], failure),
                   World(map[1 := at80], [dropped, late, early, late], failure)];
    TracedRun(events, worlds);
    if Guarded(events) {
      OneClaimPerSlot(events, 1, 3);
    }
  }
}
