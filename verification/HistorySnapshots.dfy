// The keyed history cache of gui/server/history-snapshot-store.ts. Entry objects are
// indices into `entries`: clearing the map orphans them, but builds still write to them.
module HistorySnapshots {
  import opened Options

  datatype Stage = Pending | Settled | Done

  datatype Stored = Stored(build: nat, value: string)

  datatype Entry = Entry(key: string, value: Option<Stored>, fetchedAtMs: int, inFlight: Option<nat>)

  /** `epoch` counts the clears before the build was started. */
  datatype Build = Build(entry: nat, epoch: nat, stage: Stage)

  datatype State = State(entries: seq<Entry>, index: map<string, nat>, builds: seq<Build>, clears: nat)

  const Empty: State := State([], map[], [], 0)

  datatype Reply = Value(stored: Stored) | Promise(build: nat)

  function StartBuild(s: State, key: string): (State, Reply) {
    var b := |s.builds|;
    if key in s.index && s.index[key] < |s.entries| then
      var e := s.index[key];
      (s.(builds := s.builds + [Build(e, s.clears, Pending)],
          entries := s.entries[e := s.entries[e].(inFlight := Some(b))]),
       Promise(b))
    else
      var e := |s.entries|;
      (s.(builds := s.builds + [Build(e, s.clears, Pending)],
          entries := s.entries + [Entry(key, None, 0, Some(b))],
          index := s.index[key := e]), Promise(b))
  }

  function Get(s: State, key: string, now: int, maxAgeMs: int): (State, Reply) {
    if key in s.index && s.index[key] < |s.entries| then
      var x := s.entries[s.index[key]];
      if x.value.Some? && now - x.fetchedAtMs < maxAgeMs then (s, Value(x.value.value))
      else if x.inFlight.Some? then (s, Promise(x.inFlight.value))
      else StartBuild(s, key)
    else StartBuild(s, key)
  }

  function Clear(s: State): State {
    s.(index := map[], clears := s.clears + 1)
  }

  predicate At(s: State, b: nat, stage: Stage) {
    b < |s.builds| && s.builds[b].stage == stage && s.builds[b].entry < |s.entries|
  }

  function Advance(s: State, b: nat, stage: Stage): State
    requires b < |s.builds|
  {
    s.(builds := s.builds[b := s.builds[b].(stage := stage)])
  }

  /** The `then` callback writes to the entry object the build was started for. */
  function Resolve(s: State, b: nat, value: string, now: int): State {
    if !At(s, b, Pending) then s
    else
      var e := s.builds[b].entry;
      Advance(s, b, Settled).(entries := s.entries[e := s.entries[e].(value := Some(Stored(b, value)),
                                                                      fetchedAtMs := now)])
  }

  function Reject(s: State, b: nat): State {
    if !At(s, b, Pending) then s else Advance(s, b, Settled)
  }

  /** The `finally` callback. */
  function Finish(s: State, b: nat): State {
    if !At(s, b, Settled) then s
    else
      var e := s.builds[b].entry;
      var x := s.entries[e];
      Advance(s, b, Done).(entries := s.entries[e := x.(inFlight := if x.inFlight == Some(b) then None
                                                        else x.inFlight)])
  }

  class HistorySnapshotStore {
    const maxAgeMs: int
    var entries: seq<Entry>
    var index: map<string, nat>
    var builds: seq<Build>
    var clears: nat

    ghost function Model(): State
      reads this
    {
      State(entries, index, builds, clears)
    }

    constructor (maxAgeMs: int)
      ensures this.maxAgeMs == maxAgeMs && Model() == Empty
    {
      this.maxAgeMs := maxAgeMs;
      entries, index, builds, clears := [], map[], [], 0;
    }

    method GetNow(key: string, now: int) returns (reply: Reply)
      modifies this
      ensures (Model(), reply) == Get(old(Model()), key, now, maxAgeMs)
    {
      var known := key in index && index[key] < |entries|;
      if known {
        var existing := entries[index[key]];
        if existing.value.Some? && now - existing.fetchedAtMs < maxAgeMs {
          return Value(existing.value.value);
        }
        if existing.inFlight.Some? {
          return Promise(existing.inFlight.value);
        }
      }
      var e := if known then index[key] else |entries|;
      var entry := if known then entries[e] else Entry(key, None, 0, None);
      var b := |builds|;
      builds := builds + [Build(e, clears, Pending)];
      entry := entry.(inFlight := Some(b));
      entries := if known then entries[e := entry] else entries + [entry];
      index := index[key := e];
      assert known ==> index == old(index);
      return Promise(b);
    }

    method ClearNow()
      modifies this
      ensures Model() == Clear(old(Model()))
    {
      index := map[];
      clears := clears + 1;
    }

    method BuildResolved(b: nat, value: string, now: int)
      modifies this
      ensures Model() == Resolve(old(Model()), b, value, now)
    {
      if b < |builds| && builds[b].stage == Pending && builds[b].entry < |entries| {
        var e := builds[b].entry;
        entries := entries[e := entries[e].(value := Some(Stored(b, value)))];
        entries := entries[e := entries[e].(fetchedAtMs := now)];
        builds := builds[b := builds[b].(stage := Settled)];
      }
    }

    method BuildRejected(b: nat)
      modifies this
      ensures Model() == Reject(old(Model()), b)
    {
      if b < |builds| && builds[b].stage == Pending && builds[b].entry < |entries| {
        builds := builds[b := builds[b].(stage := Settled)];
      }
    }

    method BuildFinally(b: nat)
      modifies this
      ensures Model() == Finish(old(Model()), b)
    {
      if b < |builds| && builds[b].stage == Settled && builds[b].entry < |entries| {
        var e := builds[b].entry;
        if entries[e].inFlight == Some(b) {
          entries := entries[e := entries[e].(inFlight := None)];
        }
        builds := builds[b := builds[b].(stage := Done)];
      }
    }
  }

  // ---------------------------------------------------------------- runs

  datatype Event =
    | GetEvent(key: string, now: int)
    | ClearEvent
    | ResolveEvent(build: nat, value: string, now: int)
    | RejectEvent(build: nat)
    | FinishEvent(build: nat)

  function Step(s: State, e: Event, maxAgeMs: int): State {
    match e
    case GetEvent(key, now) => Get(s, key, now, maxAgeMs).0
    case ClearEvent => Clear(s)
    case ResolveEvent(b, value, now) => Resolve(s, b, value, now)
    case RejectEvent(b) => Reject(s, b)
    case FinishEvent(b) => Finish(s, b)
  }

  function Continue(s: State, events: seq<Event>, maxAgeMs: int): State
    decreases |events|
  {
    if events == [] then s else Continue(Step(s, events[0], maxAgeMs), events[1..], maxAgeMs)
  }

  /** A build and its entry agree; the entry's in-flight slot names its one unfinished build. */
  ghost predicate BuildOk(s: State, b: nat)
    requires b < |s.builds|
  {
    var x := s.builds[b];
    && x.entry < |s.entries| && x.epoch <= s.clears
    && (x.stage != Done ==> s.entries[x.entry].inFlight == Some(b))
    && (x.epoch == s.clears ==> Indexed(s, x.entry))
  }

  ghost predicate Indexed(s: State, e: nat)
    requires e < |s.entries|
  {
    s.entries[e].key in s.index && s.index[s.entries[e].key] == e
  }

  /** Everything in an entry comes from its own builds. */
  ghost predicate EntryOk(s: State, e: nat)
    requires e < |s.entries|
  {
    var x := s.entries[e];
    && (x.value.Some? ==> x.value.value.build < |s.builds| && s.builds[x.value.value.build].entry == e)
    && (x.inFlight.Some? ==>
          x.inFlight.value < |s.builds| && s.builds[x.inFlight.value].entry == e &&
          s.builds[x.inFlight.value].stage != Done)
  }

  ghost predicate SameEpoch(s: State) {
    && (forall k :: k in s.index ==> s.index[k] < |s.entries| && s.entries[s.index[k]].key == k)
    && (forall b :: 0 <= b < |s.builds| && s.builds[b].entry < |s.entries| && Indexed(s, s.builds[b].entry) ==>
          s.builds[b].epoch == s.clears)
  }

  ghost predicate SameKeyAndEpoch(s: State, a: nat, b: nat)
    requires a < |s.builds| && b < |s.builds|
  {
    && s.builds[a].epoch == s.builds[b].epoch
    && s.builds[a].entry < |s.entries| && s.builds[b].entry < |s.entries|
    && s.entries[s.builds[a].entry].key == s.entries[s.builds[b].entry].key
  }

  /** Within an epoch a key keeps one entry. */
  ghost predicate OneEntryPerEpoch(s: State) {
    forall a, b :: 0 <= a < |s.builds| && 0 <= b < |s.builds| && SameKeyAndEpoch(s, a, b) ==>
      s.builds[a].entry == s.builds[b].entry
  }

  ghost predicate Consistent(s: State) {
    && (forall b :: 0 <= b < |s.builds| ==> BuildOk(s, b))
    && (forall e :: 0 <= e < |s.entries| ==> EntryOk(s, e))
    && SameEpoch(s)
    && OneEntryPerEpoch(s)
  }

  ghost predicate Extends(s: State, t: State) {
    |s.builds| <= |t.builds| && |s.entries| <= |t.entries| && s.clears <= t.clears &&
    (forall b :: 0 <= b < |s.builds| ==>
     t.builds[b].epoch == s.builds[b].epoch && t.builds[b].entry == s.builds[b].entry) &&
    (forall e :: 0 <= e < |s.entries| ==> t.entries[e].key == s.entries[e].key)
  }

  lemma StartKeepsBuild(s: State, key: string, b: nat)
    requires b <= |s.builds| && (b < |s.builds| ==> BuildOk(s, b))
    requires key in s.index ==> s.index[key] < |s.entries| && s.entries[s.index[key]].inFlight == None
    requires forall k :: k in s.index ==> s.index[k] < |s.entries| && s.entries[s.index[k]].key == k
    ensures BuildOk(StartBuild(s, key).0, b)
  {
  }

  lemma StartKeepsEntry(s: State, key: string, e: nat)
    requires e < |StartBuild(s, key).0.entries| && (e < |s.entries| ==> EntryOk(s, e))
    requires forall k :: k in s.index ==> s.index[k] < |s.entries|
    ensures EntryOk(StartBuild(s, key).0, e)
  {
  }

  /** Where the new build stands, and that the older ones stay where they are. */
  lemma StartExtends(s: State, key: string)
    requires forall b :: 0 <= b < |s.builds| ==> BuildOk(s, b)
    requires forall k :: k in s.index ==> s.index[k] < |s.entries| && s.entries[s.index[k]].key == k
    ensures var t, n := StartBuild(s, key).0, |s.builds|;
            Extends(s, t) && t.clears == s.clears && |t.builds| == n + 1 && t.builds[n].epoch == s.clears &&
            t.builds[n].entry < |t.entries| && t.entries[t.builds[n].entry].key == key &&
            (forall b :: 0 <= b < n ==> t.builds[b] == s.builds[b] && s.builds[b].entry < |s.entries|) &&
            forall k :: k in t.index ==> t.index[k] < |t.entries| && t.entries[t.index[k]].key == k &&
                                         if k == key then t.index[k] == t.builds[n].entry
                                         else k in s.index && t.index[k] == s.index[k]
  {
    forall b | 0 <= b < |s.builds| ensures s.builds[b].entry < |s.entries| {
      assert BuildOk(s, b);
    }
  }

  lemma StartKeepsEpoch(s: State, key: string)
    requires Consistent(s)
    ensures SameEpoch(StartBuild(s, key).0)
  {
    var t, n := StartBuild(s, key).0, |s.builds|;
    StartExtends(s, key);
    hide StartBuild, EntryOk;
    forall b | 0 <= b < |t.builds| && t.builds[b].entry < |t.entries| && Indexed(t, t.builds[b].entry)
      ensures t.builds[b].epoch == t.clears
    {
      if b < n && t.entries[t.builds[b].entry].key != key {
        assert Indexed(s, s.builds[b].entry);
      } else if b < n {
        StartedKey(s, key, b);
      }
    }
  }

  lemma StartKeepsOneEntry(s: State, key: string)
    requires Consistent(s)
    ensures OneEntryPerEpoch(StartBuild(s, key).0)
  {
    var t, n := StartBuild(s, key).0, |s.builds|;
    StartExtends(s, key);
    hide StartBuild, EntryOk, Indexed;
    forall a, b | 0 <= a < |t.builds| && 0 <= b < |t.builds| && SameKeyAndEpoch(t, a, b)
      ensures t.builds[a].entry == t.builds[b].entry
    {
      if a < n && b < n {
        assert SameKeyAndEpoch(s, a, b);
      } else if a < n {
        assert BuildOk(s, a);
        StartedEntry(s, key, a);
      } else if b < n {
        assert BuildOk(s, b);
        StartedEntry(s, key, b);
      }
    }
  }

  /** A build of the epoch on the same key is on the entry the new build starts on. */
  lemma StartedEntry(s: State, key: string, b: nat)
    requires b < |s.builds| && BuildOk(s, b) && s.builds[b].epoch == s.clears && s.entries[s.builds[b].entry].key == key
    ensures StartBuild(s, key).0.builds[|s.builds|].entry == s.builds[b].entry
  {
  }

  lemma StartedKey(s: State, key: string, b: nat)
    requires Consistent(s) && b < |s.builds| && s.builds[b].entry < |s.entries|
    requires s.entries[s.builds[b].entry].key == key
    requires var t := StartBuild(s, key).0; s.builds[b].entry < |t.entries| && Indexed(t, s.builds[b].entry)
    ensures s.builds[b].epoch == s.clears
  {
    assert key in s.index ==> s.index[key] < |s.entries|;
    assert Indexed(s, s.builds[b].entry);
  }

  lemma StartIsConsistent(s: State, key: string)
    requires Consistent(s)
    requires key in s.index ==> s.index[key] < |s.entries| && s.entries[s.index[key]].inFlight == None
    ensures Consistent(StartBuild(s, key).0) && Extends(s, StartBuild(s, key).0)
  {
    var t := StartBuild(s, key).0;
    StartExtends(s, key);
    StartKeepsEpoch(s, key);
    StartKeepsOneEntry(s, key);
    hide StartBuild, BuildOk, EntryOk, OneEntryPerEpoch, Indexed;
    forall b | 0 <= b < |t.builds| ensures BuildOk(t, b) {
      StartKeepsBuild(s, key, b);
    }
    forall x | 0 <= x < |t.entries| ensures EntryOk(t, x) {
      StartKeepsEntry(s, key, x);
    }
  }

  lemma ClearIsConsistent(s: State)
    requires Consistent(s)
    ensures Consistent(Clear(s)) && Extends(s, Clear(s))
  {
    var t := Clear(s);
    forall b | 0 <= b < |t.builds| ensures BuildOk(t, b) {
      assert BuildOk(s, b);
    }
    forall e | 0 <= e < |t.entries| ensures EntryOk(t, e) {
      assert EntryOk(s, e);
    }
  }

  predicate IsSettling(ev: Event) {
    ev.ResolveEvent? || ev.RejectEvent? || ev.FinishEvent?
  }

  lemma SettleKeepsBuild(s: State, ev: Event, maxAgeMs: int, b: nat)
    requires IsSettling(ev) && b < |s.builds| && BuildOk(s, b) && (ev.build < |s.builds| ==> BuildOk(s, ev.build))
    ensures b < |Step(s, ev, maxAgeMs).builds| && BuildOk(Step(s, ev, maxAgeMs), b)
  {
  }

  lemma SettleKeepsEntry(s: State, ev: Event, maxAgeMs: int, e: nat)
    requires IsSettling(ev) && e < |s.entries| && EntryOk(s, e) && (ev.build < |s.builds| ==> BuildOk(s, ev.build))
    ensures e < |Step(s, ev, maxAgeMs).entries| && EntryOk(Step(s, ev, maxAgeMs), e)
  {
  }

  lemma SettleExtends(s: State, ev: Event, maxAgeMs: int)
    requires IsSettling(ev) && (ev.build < |s.builds| ==> BuildOk(s, ev.build))
    ensures var t := Step(s, ev, maxAgeMs);
            Extends(s, t) && |t.builds| == |s.builds| && |t.entries| == |s.entries| && t.index == s.index &&
            t.clears == s.clears
  {
  }

  lemma SettleIsConsistent(s: State, ev: Event, maxAgeMs: int)
    requires Consistent(s) && IsSettling(ev)
    ensures Consistent(Step(s, ev, maxAgeMs)) && Extends(s, Step(s, ev, maxAgeMs))
  {
    hide Step, BuildOk, EntryOk;
    var t := Step(s, ev, maxAgeMs);
    SettleExtends(s, ev, maxAgeMs);
    forall b | 0 <= b < |t.builds| ensures BuildOk(t, b) {
      SettleKeepsBuild(s, ev, maxAgeMs, b);
    }
    forall e | 0 <= e < |t.entries| ensures EntryOk(t, e) {
      SettleKeepsEntry(s, ev, maxAgeMs, e);
    }
    forall b | 0 <= b < |t.builds| && t.builds[b].entry < |t.entries| && Indexed(t, t.builds[b].entry)
      ensures t.builds[b].epoch == t.clears
    {
      assert Indexed(s, s.builds[b].entry);
    }
    forall a, b | 0 <= a < |t.builds| && 0 <= b < |t.builds| && SameKeyAndEpoch(t, a, b)
      ensures t.builds[a].entry == t.builds[b].entry
    {
      assert SameKeyAndEpoch(s, a, b);
    }
  }

  lemma StepIsConsistent(s: State, ev: Event, maxAgeMs: int)
    requires Consistent(s)
    ensures Consistent(Step(s, ev, maxAgeMs)) && Extends(s, Step(s, ev, maxAgeMs))
  {
    if ev.GetEvent? {
      if ev.key !in s.index || s.entries[s.index[ev.key]].inFlight == None {
        StartIsConsistent(s, ev.key);
      }
    } else if ev.ClearEvent? {
      ClearIsConsistent(s);
    } else {
      SettleIsConsistent(s, ev, maxAgeMs);
    }
    hide StartBuild, BuildOk, EntryOk, OneEntryPerEpoch, Clear, Resolve, Reject, Finish;
  }

  lemma {:induction false} RunIsConsistent(s: State, events: seq<Event>, maxAgeMs: int)
    requires Consistent(s)
    ensures Consistent(Continue(s, events, maxAgeMs)) && Extends(s, Continue(s, events, maxAgeMs))
    decreases |events|
  {
    if events != [] {
      StepIsConsistent(s, events[0], maxAgeMs);
      hide Step, Consistent;
      RunIsConsistent(Step(s, events[0], maxAgeMs), events[1..], maxAgeMs);
    }
  }

  /** After a clear no `get` hands out the value or the promise of a build started before it. */
  lemma NothingFromBeforeClear(events: seq<Event>, later: seq<Event>, key: string, now: int, maxAgeMs: int)
    ensures var before := Continue(Empty, events, maxAgeMs);
            var s := Continue(Clear(before), later, maxAgeMs);
            match Get(s, key, now, maxAgeMs).1
            case Value(stored) => |before.builds| <= stored.build < |s.builds|
            case Promise(b) => |before.builds| <= b
  {
    RunIsConsistent(Empty, events, maxAgeMs);
    var before := Continue(Empty, events, maxAgeMs);
    StepIsConsistent(before, ClearEvent, maxAgeMs);
    RunIsConsistent(Clear(before), later, maxAgeMs);
    var s := Continue(Clear(before), later, maxAgeMs);
    hide Continue, OneEntryPerEpoch;
    if key in s.index {
      var e := s.index[key];
      assert EntryOk(s, e) && Indexed(s, e);
      forall b | 0 <= b < |s.builds| && s.builds[b].entry == e ensures |before.builds| <= b {
        assert b < |before.builds| ==> BuildOk(before, b);
      }
    }
  }

  /** At most one build per key is in flight in each epoch between clears. */
  lemma OneBuildPerKeyAndEpoch(events: seq<Event>, maxAgeMs: int, a: nat, b: nat)
    requires var s := Continue(Empty, events, maxAgeMs);
             a < |s.builds| && b < |s.builds| && SameKeyAndEpoch(s, a, b) &&
             s.builds[a].stage != Done && s.builds[b].stage != Done
    ensures a == b
  {
    RunIsConsistent(Empty, events, maxAgeMs);
    var s := Continue(Empty, events, maxAgeMs);
    assert BuildOk(s, a) && BuildOk(s, b);
  }

  // ---------------------------------------------------------------- what a get hands out, over histories

  lemma {:induction false} ContinueAppend(s: State, events: seq<Event>, e: Event, maxAgeMs: int)
    ensures Continue(s, events + [e], maxAgeMs) == Step(Continue(s, events, maxAgeMs), e, maxAgeMs)
    decreases |events|
  {
    hide Step;
    if events == [] {
      assert [e][1..] == [] && events + [e] == [e];
    } else {
      assert (events + [e])[1..] == events[1..] + [e];
      ContinueAppend(Step(s, events[0], maxAgeMs), events[1..], e, maxAgeMs);
    }
  }

  function Clears(events: seq<Event>): nat
    decreases |events|
  {
    if events == [] then 0
    else Clears(events[..|events| - 1]) + if events[|events| - 1].ClearEvent? then 1 else 0
  }

  /** A pending build of this key, asked for since so many clears. */
  predicate IsOwnBuild(s: State, b: nat, key: string, clears: nat) {
    At(s, b, Pending) && s.entries[s.builds[b].entry].key == key && s.builds[b].epoch == clears
  }

  /** Event i resolves a build of this key that was asked for since the last clear. */
  ghost predicate Stores(events: seq<Event>, key: string, i: int, maxAgeMs: int) {
    0 <= i < |events| && events[i].ResolveEvent? &&
    IsOwnBuild(Continue(Empty, events[..i], maxAgeMs), events[i].build, key, Clears(events[..i]))
  }

  /** Event i brought what is cached for the key: nothing was stored for it or cleared since. */
  ghost predicate Latest(events: seq<Event>, key: string, i: int, maxAgeMs: int) {
    Stores(events, key, i, maxAgeMs) &&
    forall j :: i < j < |events| ==> !events[j].ClearEvent? && !Stores(events, key, j, maxAgeMs)
  }

  lemma StoresPrefix(events: seq<Event>, key: string, i: int, maxAgeMs: int)
    requires events != [] && i < |events| - 1
    ensures Stores(events, key, i, maxAgeMs) <==> Stores(events[..|events| - 1], key, i, maxAgeMs)
  {
    hide Continue, Clears, IsOwnBuild;
    if i >= 0 {
      assert events[..|events| - 1][..i] == events[..i];
    }
  }

  lemma LatestStep(events: seq<Event>, key: string, i: int, maxAgeMs: int)
    requires events != []
    ensures var last := |events| - 1;
            Latest(events, key, i, maxAgeMs)
            <==> if i == last then Stores(events, key, last, maxAgeMs)
                 else Latest(events[..last], key, i, maxAgeMs) && !events[last].ClearEvent? &&
                      !Stores(events, key, last, maxAgeMs)
  {
    hide Stores;
    var last := |events| - 1;
    var prior := events[..last];
    forall j | j < last ensures Stores(events, key, j, maxAgeMs) <==> Stores(prior, key, j, maxAgeMs) {
      StoresPrefix(events, key, j, maxAgeMs);
    }
    StoredInRange(events, key, i, maxAgeMs);
    StoredInRange(prior, key, i, maxAgeMs);
    assert forall j :: 0 <= j < last ==> prior[j] == events[j];
  }

  lemma StoredInRange(events: seq<Event>, key: string, i: int, maxAgeMs: int)
    ensures Stores(events, key, i, maxAgeMs) ==> 0 <= i < |events| && events[i].ResolveEvent?
  {
  }

  /** The cached value of the key and its time. */
  function Cached(s: State, key: string): Option<(Stored, int)> {
    if key !in s.index || s.index[key] >= |s.entries| then None
    else
      var x := s.entries[s.index[key]];
      if x.value.Some? then Some((x.value.value, x.fetchedAtMs)) else None
  }

  /** The state knows of the history: the clears, and the value and time of the latest store. */
  ghost predicate Remembers(s: State, events: seq<Event>, key: string, maxAgeMs: int) {
    && s.clears == Clears(events)
    && (Cached(s, key).None? ==> forall i :: !Latest(events, key, i, maxAgeMs))
    && (forall i :: Latest(events, key, i, maxAgeMs) ==>
          Cached(s, key) == Some((Stored(events[i].build, events[i].value), events[i].now)))
    && (Cached(s, key).Some? ==> exists i :: Latest(events, key, i, maxAgeMs))
  }

  lemma ClearsStep(events: seq<Event>)
    requires events != []
    ensures Clears(events) == Clears(events[..|events| - 1]) + if events[|events| - 1].ClearEvent? then 1 else 0
  {
  }

  lemma ResolveStores(s: State, e: Event, key: string)
    requires Consistent(s) && e.ResolveEvent?
    ensures Cached(Resolve(s, e.build, e.value, e.now), key)
            == if IsOwnBuild(s, e.build, key, s.clears) then Some((Stored(e.build, e.value), e.now))
               else Cached(s, key)
  {
    if At(s, e.build, Pending) {
      assert BuildOk(s, e.build);
    }
    hide OneEntryPerEpoch, EntryOk;
  }

  lemma OthersStoreNothing(s: State, e: Event, key: string, maxAgeMs: int)
    requires Consistent(s) && !e.ResolveEvent? && !e.ClearEvent?
    ensures Cached(Step(s, e, maxAgeMs), key) == Cached(s, key)
  {
    hide OneEntryPerEpoch, EntryOk, BuildOk;
  }

  /** What one event does to the cached value of a key and its time. */
  lemma StepStores(s: State, e: Event, key: string, maxAgeMs: int)
    requires Consistent(s)
    ensures var t := Step(s, e, maxAgeMs);
            if e.ClearEvent? then t.clears == s.clears + 1 && Cached(t, key) == None
            else
              t.clears == s.clears &&
              Cached(t, key) == if e.ResolveEvent? && IsOwnBuild(s, e.build, key, s.clears)
                                then Some((Stored(e.build, e.value), e.now)) else Cached(s, key)
  {
    if e.ResolveEvent? {
      ResolveStores(s, e, key);
    } else if !e.ClearEvent? {
      OthersStoreNothing(s, e, key, maxAgeMs);
    }
    hide Consistent, IsOwnBuild, Cached;
    assert e.ClearEvent? ==> Cached(Clear(s), key) == None by { ClearedIsEmpty(s, key); }
  }

  lemma ClearedIsEmpty(s: State, key: string)
    ensures Cached(Clear(s), key) == None
  {
  }

  lemma {:induction false} HistoryIsRemembered(events: seq<Event>, key: string, maxAgeMs: int)
    ensures Remembers(Continue(Empty, events, maxAgeMs), events, key, maxAgeMs)
    decreases |events|
  {
    if events == [] {
      hide Stores;
      forall i ensures !Latest(events, key, i, maxAgeMs) {
        StoredInRange(events, key, i, maxAgeMs);
      }
    } else {
      hide Remembers, Step, Consistent;
      var prior, e := events[..|events| - 1], events[|events| - 1];
      assert events == prior + [e];
      HistoryIsRemembered(prior, key, maxAgeMs);
      ContinueAppend(Empty, prior, e, maxAgeMs);
      assert Consistent(Empty) by { EmptyIsConsistent(); }
      RunIsConsistent(Empty, prior, maxAgeMs);
      EventIsRemembered(Continue(Empty, prior, maxAgeMs), events, key, maxAgeMs);
    }
  }

  lemma EmptyIsConsistent()
    ensures Consistent(Empty)
  {
  }

  lemma EventIsRemembered(s: State, events: seq<Event>, key: string, maxAgeMs: int)
    requires events != [] && s == Continue(Empty, events[..|events| - 1], maxAgeMs) && Consistent(s)
    requires Remembers(s, events[..|events| - 1], key, maxAgeMs)
    ensures Remembers(Step(s, events[|events| - 1], maxAgeMs), events, key, maxAgeMs)
  {
    hide Consistent, IsOwnBuild, Cached;
    var last := |events| - 1;
    forall i ensures Latest(events, key, i, maxAgeMs) <==>
                     if i == last then Stores(events, key, last, maxAgeMs)
                     else Latest(events[..last], key, i, maxAgeMs) && !events[last].ClearEvent? &&
                          !Stores(events, key, last, maxAgeMs)
    {
      LatestStep(events, key, i, maxAgeMs);
    }
    hide Latest, Continue;
    var e := events[last];
    assert Stores(events, key, last, maxAgeMs) <==> e.ResolveEvent? && IsOwnBuild(s, e.build, key, s.clears);
    StepStores(s, e, key, maxAgeMs);
    ClearsStep(events);
    hide Stores, Step, Clears;
    assert Latest(events, key, last, maxAgeMs) <==> Stores(events, key, last, maxAgeMs);
    if !Stores(events, key, last, maxAgeMs) && !e.ClearEvent? {
      assert forall i :: Latest(events, key, i, maxAgeMs) ==> i != last && Latest(events[..last], key, i, maxAgeMs);
    }
  }

  /** A build of the key that was asked for since the last clear and has not finished. */
  ghost predicate Building(events: seq<Event>, s: State, key: string, b: nat) {
    && b < |s.builds| && s.builds[b].stage != Done && s.builds[b].epoch == Clears(events)
    && s.builds[b].entry < |s.entries| && s.entries[s.builds[b].entry].key == key
  }

  function InFlight(s: State, key: string): Option<nat> {
    if key in s.index && s.index[key] < |s.entries| then s.entries[s.index[key]].inFlight else None
  }

  lemma BuildingIsInFlight(events: seq<Event>, s: State, key: string, b: nat)
    requires Consistent(s) && s.clears == Clears(events)
    ensures Building(events, s, key, b)
            <==> InFlight(s, key) == Some(b)
  {
    hide OneEntryPerEpoch, Clears;
    if Building(events, s, key, b) {
      assert BuildOk(s, b);
    } else if key in s.index {
      assert EntryOk(s, s.index[key]);
      assert Indexed(s, s.index[key]);
    }
  }

  /** Every `get` of every history: the latest value for the key since the last clear is handed out
      exactly while it is younger than the limit. Otherwise the build under way for the key is, and a
      new build is asked for only if there is none. */
  lemma GetServes(events: seq<Event>, key: string, now: int, maxAgeMs: int)
    ensures var s := Continue(Empty, events, maxAgeMs);
            var (t, reply) := Get(s, key, now, maxAgeMs);
            (forall i :: Latest(events, key, i, maxAgeMs) && now - events[i].now < maxAgeMs ==>
             reply == Value(Stored(events[i].build, events[i].value)) && t == s) &&
            ((forall i :: Latest(events, key, i, maxAgeMs) ==> now - events[i].now >= maxAgeMs) ==>
             reply.Promise? && Building(events, t, key, reply.build) &&
             if exists b :: Building(events, s, key, b) then t == s
             else reply.build == |s.builds| && |t.builds| == |s.builds| + 1)
  {
    HistoryIsRemembered(events, key, maxAgeMs);
    assert Consistent(Empty) by { EmptyIsConsistent(); }
    RunIsConsistent(Empty, events, maxAgeMs);
    var s := Continue(Empty, events, maxAgeMs);
    forall b: nat ensures Building(events, s, key, b) <==> InFlight(s, key) == Some(b) {
      BuildingIsInFlight(events, s, key, b);
    }
    GetShape(s, key, now, maxAgeMs);
    if InFlight(s, key).None? {
      StartedBuilding(events, s, key);
    } else {
      assert Building(events, s, key, InFlight(s, key).value);
    }
    hide Latest, Continue, Clears, Get, StartBuild, Building, Cached, InFlight, Consistent;
  }

  lemma GetShape(s: State, key: string, now: int, maxAgeMs: int)
    ensures Get(s, key, now, maxAgeMs)
            == if Cached(s, key).Some? && now - Cached(s, key).value.1 < maxAgeMs
               then (s, Value(Cached(s, key).value.0))
               else if InFlight(s, key).Some? then (s, Promise(InFlight(s, key).value))
               else StartBuild(s, key)
  {
    hide StartBuild;
  }

  lemma StartedBuilding(events: seq<Event>, s: State, key: string)
    requires Consistent(s) && s.clears == Clears(events)
    ensures var (t, reply) := StartBuild(s, key);
            reply == Promise(|s.builds|) && |t.builds| == |s.builds| + 1 && Building(events, t, key, |s.builds|)
  {
    hide Clears, Indexed, OneEntryPerEpoch, BuildOk, EntryOk;
  }

  // ---------------------------------------------------------------- the life of a build

  /** Event j ends build b, which has been asked for. */
  ghost predicate EndsAt(events: seq<Event>, b: nat, j: int, maxAgeMs: int) {
    && 0 <= j < |events| && (events[j].ResolveEvent? || events[j].RejectEvent?) && events[j].build == b
    && b < |Continue(Empty, events[..j], maxAgeMs).builds|
  }

  ghost predicate HasEnded(events: seq<Event>, b: nat, maxAgeMs: int) {
    exists j :: EndsAt(events, b, j, maxAgeMs)
  }

  /** Event j is the last callback of build b. */
  ghost predicate FinishesAt(events: seq<Event>, b: nat, j: int, maxAgeMs: int) {
    0 <= j < |events| && events[j] == FinishEvent(b) && HasEnded(events[..j], b, maxAgeMs)
  }

  ghost predicate HasFinished(events: seq<Event>, b: nat, maxAgeMs: int) {
    exists j :: FinishesAt(events, b, j, maxAgeMs)
  }

  lemma EndedStep(events: seq<Event>, b: nat, maxAgeMs: int)
    requires events != []
    ensures var prior, e := events[..|events| - 1], events[|events| - 1];
            HasEnded(events, b, maxAgeMs)
            <==> HasEnded(prior, b, maxAgeMs) ||
                 ((e.ResolveEvent? || e.RejectEvent?) && e.build == b &&
                  b < |Continue(Empty, prior, maxAgeMs).builds|)
  {
    hide Continue;
    var last := |events| - 1;
    var prior := events[..last];
    forall j | 0 <= j < last ensures EndsAt(events, b, j, maxAgeMs) <==> EndsAt(prior, b, j, maxAgeMs) {
      assert prior[..j] == events[..j];
    }
    assert EndsAt(events, b, last, maxAgeMs)
      <==> (events[last].ResolveEvent? || events[last].RejectEvent?) && events[last].build == b &&
           b < |Continue(Empty, prior, maxAgeMs).builds|;
    assert HasEnded(prior, b, maxAgeMs) ==> exists j :: 0 <= j < last && EndsAt(prior, b, j, maxAgeMs);
  }

  lemma FinishedStep(events: seq<Event>, b: nat, maxAgeMs: int)
    requires events != []
    ensures var prior, e := events[..|events| - 1], events[|events| - 1];
            HasFinished(events, b, maxAgeMs)
            <==> HasFinished(prior, b, maxAgeMs) || (e == FinishEvent(b) && HasEnded(prior, b, maxAgeMs))
  {
    hide HasEnded;
    var last := |events| - 1;
    var prior := events[..last];
    forall j | 0 <= j < last ensures FinishesAt(events, b, j, maxAgeMs) <==> FinishesAt(prior, b, j, maxAgeMs) {
      assert prior[..j] == events[..j];
    }
    assert FinishesAt(events, b, last, maxAgeMs)
      <==> events[last] == FinishEvent(b) && HasEnded(prior, b, maxAgeMs);
    assert HasFinished(prior, b, maxAgeMs) ==> exists j :: 0 <= j < last && FinishesAt(prior, b, j, maxAgeMs);
  }

  lemma StepOnBuild(s: State, e: Event, maxAgeMs: int, b: nat)
    requires Consistent(s)
    requires b <= |s.builds|
    ensures var t := Step(s, e, maxAgeMs);
            |s.builds| <= |t.builds| <= |s.builds| + 1 &&
            if b == |s.builds| then b < |t.builds| ==> t.builds[b].stage == Pending
            else
              var stage := s.builds[b].stage;
              t.builds[b].stage ==
              if stage == Pending && (e.ResolveEvent? || e.RejectEvent?) && e.build == b then Settled
              else if stage == Settled && e == FinishEvent(b) then Done
              else stage
  {
    if b < |s.builds| {
      assert BuildOk(s, b);
    }
    hide EntryOk, OneEntryPerEpoch, Indexed;
  }

  /** Over every history: a build is pending until an event ends it, and done, so that it no longer stands
      in the way of the next, exactly once its last callback has run after that. */
  lemma {:induction false} BuildFollowsEvents(events: seq<Event>, maxAgeMs: int, b: nat)
    ensures var builds := Continue(Empty, events, maxAgeMs).builds;
            if b >= |builds| then !HasEnded(events, b, maxAgeMs) && !HasFinished(events, b, maxAgeMs)
            else builds[b].stage == if HasFinished(events, b, maxAgeMs) then Done
                                    else if HasEnded(events, b, maxAgeMs) then Settled else Pending
    ensures HasFinished(events, b, maxAgeMs) ==> HasEnded(events, b, maxAgeMs)
    decreases |events|
  {
    if events != [] {
      var prior, e := events[..|events| - 1], events[|events| - 1];
      var s := Continue(Empty, prior, maxAgeMs);
      assert events == prior + [e];
      BuildFollowsEvents(prior, maxAgeMs, b);
      ContinueAppend(Empty, prior, e, maxAgeMs);
      EndedStep(events, b, maxAgeMs);
      FinishedStep(events, b, maxAgeMs);
      assert Consistent(Empty) by { EmptyIsConsistent(); }
      RunIsConsistent(Empty, prior, maxAgeMs);
      StepOnBuild(s, e, maxAgeMs, if b <= |s.builds| then b else |s.builds|);
      hide Step, Continue, HasEnded, HasFinished, Consistent;
    }
  }
}
