// The per-session run registry of gui/server/run-cancellation.ts. A run handle is the
// index of its record; `applied` logs the calls of the runs' cancel callbacks.
module RunCancellation {
  import opened Options

  datatype RunRecord = RunRecord(sessionId: string, actionId: string, canApply: bool, cancelRequested: bool)

  /** A remembered Stop for a run that is not registered (yet). */
  datatype EarlyCancel = EarlyCancel(sessionId: string, actionId: string, expiresAt: int)

  datatype CancelResult = NoActiveRun | StaleTarget | Cancelled(duplicate: bool)

  datatype Config = Config(retentionMs: int, maxEarlyCancels: nat)

  datatype State = State(
    records: seq<RunRecord>,
    runs: map<string, nat>,
    early: seq<EarlyCancel>,       // oldest first
    applied: seq<nat>)

  const Empty: State := State([], map[], [], [])

  predicate Names(e: EarlyCancel, sessionId: string, actionId: string) {
    e.sessionId == sessionId && e.actionId == actionId
  }

  function Prune(early: seq<EarlyCancel>, now: int): (r: seq<EarlyCancel>) {
    if early == [] then []
    else (if early[0].expiresAt <= now then [] else [early[0]]) + Prune(early[1..], now)
  }

  /** `Map.delete` of a key. */
  function Without(early: seq<EarlyCancel>, sessionId: string, actionId: string): (r: seq<EarlyCancel>) {
    if early == [] then []
    else (if Names(early[0], sessionId, actionId) then [] else [early[0]]) + Without(early[1..], sessionId, actionId)
  }

  /** What the pruning loop has kept of the first i entries. */
  ghost predicate PrunedUpTo(early: seq<EarlyCancel>, i: nat, kept: seq<EarlyCancel>, now: int) {
    i <= |early| && kept + Prune(early[i..], now) == Prune(early, now)
  }

  lemma PruneStep(early: seq<EarlyCancel>, i: nat, kept: seq<EarlyCancel>, now: int)
    requires i < |early| && PrunedUpTo(early, i, kept, now)
    ensures PrunedUpTo(early, i + 1, if early[i].expiresAt <= now then kept else kept + [early[i]], now)
  {
    var one := if early[i].expiresAt <= now then [] else [early[i]];
    assert early[i..][1..] == early[i + 1..];
    assert kept + (one + Prune(early[i + 1..], now)) == (kept + one) + Prune(early[i + 1..], now);
    assert kept + [] == kept;
  }

  lemma PruneEnds(early: seq<EarlyCancel>, now: int)
    ensures PrunedUpTo(early, 0, [], now)
    ensures forall all :: PrunedUpTo(early, |early|, all, now) ==> all == Prune(early, now)
  {
    assert early[0..] == early && early[|early|..] == [];
    forall all | PrunedUpTo(early, |early|, all, now) ensures all == Prune(early, now) {
      assert all + [] == all;
    }
  }

  /** What the deleting loop has kept of the first i entries. */
  ghost predicate DeletedUpTo(early: seq<EarlyCancel>, i: nat, kept: seq<EarlyCancel>, sessionId: string,
      actionId: string)
  {
    i <= |early| && kept + Without(early[i..], sessionId, actionId) == Without(early, sessionId, actionId)
  }

  lemma DeleteStep(early: seq<EarlyCancel>, i: nat, kept: seq<EarlyCancel>, sessionId: string, actionId: string)
    requires i < |early| && DeletedUpTo(early, i, kept, sessionId, actionId)
    ensures DeletedUpTo(early, i + 1, if Names(early[i], sessionId, actionId) then kept else kept + [early[i]],
                        sessionId, actionId)
  {
    var one, rest := if Names(early[i], sessionId, actionId) then [] else [early[i]], early[i + 1..];
    assert early[i..][1..] == rest;
    assert kept + (one + Without(rest, sessionId, actionId)) == (kept + one) + Without(rest, sessionId, actionId);
    assert kept + [] == kept;
  }

  lemma DeleteEnds(early: seq<EarlyCancel>, sessionId: string, actionId: string)
    ensures DeletedUpTo(early, 0, [], sessionId, actionId)
    ensures forall all :: DeletedUpTo(early, |early|, all, sessionId, actionId) ==>
              all == Without(early, sessionId, actionId)
  {
    assert early[0..] == early && early[|early|..] == [];
    forall all | DeletedUpTo(early, |early|, all, sessionId, actionId)
        ensures all == Without(early, sessionId, actionId) {
      assert all + [] == all;
    }
  }

  predicate HasKey(early: seq<EarlyCancel>, sessionId: string, actionId: string) {
    exists i :: 0 <= i < |early| && Names(early[i], sessionId, actionId)
  }

  /** The newest entries, as many as the cap allows. */
  function Newest(early: seq<EarlyCancel>, cap: nat): (r: seq<EarlyCancel>) {
    if |early| <= cap then early else early[|early| - cap..]
  }

  function Remember(early: seq<EarlyCancel>, sessionId: string, actionId: string, now: int, later: int,
      c: Config): seq<EarlyCancel>
  {
    Newest(Without(Prune(early, now), sessionId, actionId)
           + [EarlyCancel(sessionId, actionId, later + c.retentionMs)], c.maxEarlyCancels)
  }

  // ---------------------------------------------------------------- the operations on values

  predicate Registered(s: State, h: nat) {
    h < |s.records| && s.records[h].sessionId in s.runs && s.runs[s.records[h].sessionId] == h
  }

  function Start(s: State, sessionId: string, actionId: string, now: int): (State, Option<nat>) {
    if sessionId in s.runs then (s, None)
    else
      var early := Prune(s.early, now);
      var stopped := HasKey(early, sessionId, actionId);
      (State(s.records + [RunRecord(sessionId, actionId, false, stopped)], s.runs[sessionId := |s.records|],
             Without(early, sessionId, actionId), s.applied), Some(|s.records|))
  }

  function Finish(s: State, h: nat): State
    requires h < |s.records|
  {
    if Registered(s, h) then s.(runs := map k | k in s.runs && k != s.records[h].sessionId :: s.runs[k]) else s
  }

  function SetApplyCancel(s: State, h: nat): State
    requires h < |s.records|
  {
    s.(records := s.records[h := s.records[h].(canApply := true)],
       applied := if s.records[h].cancelRequested then s.applied + [h] else s.applied)
  }

  /** The registered run a Stop names, if any. */
  function Target(s: State, sessionId: string, actionId: string): Option<nat> {
    if sessionId in s.runs && s.runs[sessionId] < |s.records| && s.records[s.runs[sessionId]].actionId == actionId
    then Some(s.runs[sessionId]) else None
  }

  /** The clock is read once to prune and again for the expiry. */
  function Cancel(s: State, sessionId: string, actionId: string, now: int, later: int,
      c: Config): (State, CancelResult)
  {
    match Target(s, sessionId, actionId)
    case None =>
      (s.(early := Remember(s.early, sessionId, actionId, now, later, c)),
       if sessionId in s.runs then StaleTarget else NoActiveRun)
    case Some(h) =>
      if s.records[h].cancelRequested then (s, Cancelled(true))
      else (s.(records := s.records[h := s.records[h].(cancelRequested := true)],
               applied := if s.records[h].canApply then s.applied + [h] else s.applied), Cancelled(false))
  }

  // ---------------------------------------------------------------- the registry

  class GuiRunRegistry {
    const config: Config
    var records: seq<RunRecord>
    var runs: map<string, nat>
    var earlyCancels: seq<EarlyCancel>
    var applied: seq<nat>

    ghost function Value(): State
      reads this
    {
      State(records, runs, earlyCancels, applied)
    }

    constructor (config: Config)
      ensures this.config == config && Value() == Empty
    {
      this.config := config;
      records, runs, earlyCancels, applied := [], map[], [], [];
    }

    method PruneEarlyCancels(now: int)
      modifies this`earlyCancels
      ensures earlyCancels == Prune(old(earlyCancels), now)
    {
      hide PrunedUpTo, Prune;
      var kept: seq<EarlyCancel> := [];
      PruneEnds(earlyCancels, now);
      var i := 0;
      while i < |earlyCancels|
        invariant 0 <= i <= |earlyCancels| && earlyCancels == old(earlyCancels)
        invariant PrunedUpTo(earlyCancels, i, kept, now)
      {
        PruneStep(earlyCancels, i, kept, now);
        if earlyCancels[i].expiresAt > now {
          kept := kept + [earlyCancels[i]];
        }
        i := i + 1;
      }
      earlyCancels := kept;
    }

    method DeleteEarlyCancel(sessionId: string, actionId: string) returns (found: bool)
      modifies this`earlyCancels
      ensures found == HasKey(old(earlyCancels), sessionId, actionId)
      ensures earlyCancels == Without(old(earlyCancels), sessionId, actionId)
    {
      hide DeletedUpTo, Without;
      found := false;
      var kept: seq<EarlyCancel> := [];
      DeleteEnds(earlyCancels, sessionId, actionId);
      var i := 0;
      while i < |earlyCancels|
        invariant 0 <= i <= |earlyCancels| && earlyCancels == old(earlyCancels)
        invariant DeletedUpTo(earlyCancels, i, kept, sessionId, actionId)
        invariant found <==> exists j :: 0 <= j < i && Names(earlyCancels[j], sessionId, actionId)
      {
        DeleteStep(earlyCancels, i, kept, sessionId, actionId);
        if Names(earlyCancels[i], sessionId, actionId) {
          found := true;
        } else {
          kept := kept + [earlyCancels[i]];
        }
        i := i + 1;
      }
      earlyCancels := kept;
    }

    method RememberEarlyCancel(sessionId: string, actionId: string, now: int, later: int)
      modifies this`earlyCancels
      ensures earlyCancels == Remember(old(earlyCancels), sessionId, actionId, now, later, config)
    {
      PruneEarlyCancels(now);
      var _ := DeleteEarlyCancel(sessionId, actionId);
      earlyCancels := earlyCancels + [EarlyCancel(sessionId, actionId, later + config.retentionMs)];
      ghost var full := earlyCancels;
      var dropped := 0;
      while |earlyCancels| > config.maxEarlyCancels
        invariant 0 <= dropped <= |full| && earlyCancels == full[dropped..]
        invariant dropped > 0 ==> |earlyCancels| >= config.maxEarlyCancels
        decreases |earlyCancels|
      {
        earlyCancels := earlyCancels[1..];
        dropped := dropped + 1;
      }
    }

    method StartRun(sessionId: string, actionId: string, now: int) returns (handle: Option<nat>)
      modifies this
      ensures (Value(), handle) == Start(old(Value()), sessionId, actionId, now)
    {
      if sessionId in runs {
        return None;
      }
      PruneEarlyCancels(now);
      var stopped := DeleteEarlyCancel(sessionId, actionId);
      handle := Some(|records|);
      runs := runs[sessionId := |records|];
      records := records + [RunRecord(sessionId, actionId, false, stopped)];
    }

    method FinishRun(h: nat)
      requires h < |records|
      modifies this`runs
      ensures Value() == Finish(old(Value()), h)
    {
      var sessionId := records[h].sessionId;
      if sessionId in runs && runs[sessionId] == h {
        runs := map k | k in runs && k != sessionId :: runs[k];
      }
    }

    method SetApply(h: nat)
      requires h < |records|
      modifies this`records, this`applied
      ensures Value() == SetApplyCancel(old(Value()), h)
    {
      records := records[h := records[h].(canApply := true)];
      if records[h].cancelRequested {
        applied := applied + [h];
      }
    }

    method CancelRun(sessionId: string, actionId: string, now: int, later: int) returns (result: CancelResult)
      modifies this
      ensures (Value(), result) == Cancel(old(Value()), sessionId, actionId, now, later, config)
    {
      if sessionId !in runs || runs[sessionId] >= |records| || records[runs[sessionId]].actionId != actionId {
        RememberEarlyCancel(sessionId, actionId, now, later);
        return if sessionId in runs then StaleTarget else NoActiveRun;
      }
      var h := runs[sessionId];
      if records[h].cancelRequested {
        return Cancelled(true);
      }
      records := records[h := records[h].(cancelRequested := true)];
      if records[h].canApply {
        applied := applied + [h];
      }
      return Cancelled(false);
    }
  }
}
