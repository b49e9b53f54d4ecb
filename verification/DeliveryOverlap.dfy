// Delivery calls that overlap. A call of src/market-state/notification-delivery.ts reads the attempts
// once, when it begins, and then waits for the webhook once per notification, so the steps of
// several calls interleave.
module DeliveryOverlap {
  import opened NotificationDelivery
  import opened Options

  /** A call in progress: its batch as read at the start, how many of it are posted, its time, and how
      many attempts were recorded when it began. */
  datatype OpenCall = OpenCall(batch: seq<Notification>, posted: nat, now: int, begunAt: nat)

  /** The place in a batch that an attempt comes from. */
  datatype Place = Place(call: nat, position: nat)

  /** `places[i]` is where attempt i comes from; attempts on other channels come from no call. */
  datatype World = World(tables: Tables, calls: seq<OpenCall>, places: seq<Option<Place>>)

  /** A call begins by reading the attempts; one with a rejected URL also ends there. Then each
      notification of its batch is posted and recorded, and `accepted` is the webhook's answer. */
  datatype Step =
    | Notify(createdAt: int)
    | OtherChannel(attempt: Attempt)
    | Begin(webhook: Webhook, now: int, maxAttempts: int)
    | Post(call: nat, accepted: bool)

  predicate Unfinished(w: World, c: nat) {
    c < |w.calls| && w.calls[c].posted < |w.calls[c].batch|
  }

  function Started(w: World, webhook: Webhook, now: int, maxAttempts: int): World {
    var batch, c := Batch(w.tables, webhook, maxAttempts), |w.calls|;
    if webhook.Rejected? then
      World(AfterCall(w.tables, webhook, now, maxAttempts),
            w.calls + [OpenCall(batch, |batch|, now, |w.tables.attempts|)],
            w.places + seq(|batch|, k requires 0 <= k < |batch| => Some(Place(c, k))))
    else w.(calls := w.calls + [OpenCall(batch, 0, now, |w.tables.attempts|)])
  }

  function Posted(w: World, c: nat, accepted: bool): World {
    if !Unfinished(w, c) then w
    else
      var call := w.calls[c];
      var a := Attempt(call.batch[call.posted].id, true, accepted, call.now);
      World(w.tables.(attempts := w.tables.attempts + [a]), w.calls[c := call.(posted := call.posted + 1)],
            w.places + [Some(Place(c, call.posted))])
  }

  function Next(w: World, step: Step): World {
    match step
    case Notify(createdAt) =>
      var n := Notification(|w.tables.notifications|, createdAt);
      w.(tables := w.tables.(notifications := w.tables.notifications + [n]))
    case OtherChannel(a) =>
      if a.webhook then w
      else w.(tables := w.tables.(attempts := w.tables.attempts + [a]), places := w.places + [None])
    case Begin(webhook, now, maxAttempts) => Started(w, webhook, now, maxAttempts)
    case Post(c, accepted) => Posted(w, c, accepted)
  }

  function Reached(steps: seq<Step>): World
    decreases |steps|
  {
    if steps == [] then World(Tables([], []), [], []) else Next(Reached(steps[..|steps| - 1]), steps[|steps| - 1])
  }

  // ---------------------------------------------------------------- every reachable world

  /** The batch has different notifications, none delivered when the call read the attempts. */
  ghost predicate CallFits(call: OpenCall, attempts: seq<Attempt>) {
    && call.posted <= |call.batch| && call.begunAt <= |attempts| && DistinctIds(call.batch)
    && forall k, i :: 0 <= k < |call.batch| && 0 <= i < call.begunAt ==> !Succeeds(attempts[i], call.batch[k].id)
  }

  /** A webhook attempt is a post of its call, after the call began. */
  ghost predicate RowFits(a: Attempt, i: nat, place: Option<Place>, calls: seq<OpenCall>) {
    match place
    case None => !a.webhook
    case Some(p) =>
      p.call < |calls| && calls[p.call].begunAt <= i && p.position < calls[p.call].posted <= |calls[p.call].batch|
      && a.notificationId == calls[p.call].batch[p.position].id
  }

  predicate SameCall(a: Option<Place>, b: Option<Place>) {
    a.Some? && b.Some? && a.value.call == b.value.call
  }

  /** A call posts its batch in order. */
  ghost predicate InOrder(places: seq<Option<Place>>) {
    forall i, j :: 0 <= i < j < |places| && SameCall(places[i], places[j]) ==>
      places[i].value.position < places[j].value.position
  }

  ghost predicate Consistent(w: World) {
    && |w.places| == |w.tables.attempts| && IdsArePositions(w.tables)
    && (forall c :: 0 <= c < |w.calls| ==> CallFits(w.calls[c], w.tables.attempts))
    && (forall i :: 0 <= i < |w.places| ==> RowFits(w.tables.attempts[i], i, w.places[i], w.calls))
    && InOrder(w.places)
  }

  lemma CallStillFits(call: OpenCall, attempts: seq<Attempt>, more: seq<Attempt>)
    requires CallFits(call, attempts)
    ensures CallFits(call, attempts + more)
  {
  }

  lemma NewCallFits(t: Tables, webhook: Webhook, now: int, maxAttempts: int, posted: nat)
    requires IdsArePositions(t) && posted <= |Batch(t, webhook, maxAttempts)|
    ensures CallFits(OpenCall(Batch(t, webhook, maxAttempts), posted, now, |t.attempts|), t.attempts)
  {
    hide Pending, BatchSize, DeliveredIds;
    var batch := Batch(t, webhook, maxAttempts);
    PendingElements(t);
    SortedDistinct(Pending(t), t.notifications, LastFailures(t.attempts));
    forall k, i | 0 <= k < |batch| && 0 <= i < |t.attempts| ensures !Succeeds(t.attempts[i], batch[k].id) {
      assert batch[k] in Pending(t);
      DeliveredIdsMeaning(t.attempts, batch[k].id);
      assert t.attempts[i] in t.attempts;
    }
  }

  lemma RowStillFits(a: Attempt, i: nat, place: Option<Place>, calls: seq<OpenCall>, more: seq<OpenCall>)
    requires RowFits(a, i, place, calls) && |calls| <= |more|
    requires forall c :: 0 <= c < |calls| ==>
               more[c].batch == calls[c].batch && more[c].begunAt == calls[c].begunAt &&
                 calls[c].posted <= more[c].posted <= |more[c].batch|
    ensures RowFits(a, i, place, more)
  {
  }

  lemma StartIsConsistent(w: World, webhook: Webhook, now: int, maxAttempts: int)
    requires Consistent(w)
    ensures Consistent(Started(w, webhook, now, maxAttempts))
  {
    hide Batch, AfterCall, CallFits, RowFits, IdsArePositions;
    var next, batch := Started(w, webhook, now, maxAttempts), Batch(w.tables, webhook, maxAttempts);
    var n, added := |w.tables.attempts|, if webhook.Rejected? then Rows(batch, now, {}) else [];
    RejectedRows(w.tables, webhook, now, maxAttempts);
    assert next.tables == w.tables.(attempts := w.tables.attempts + added);
    NewCallFits(w.tables, webhook, now, maxAttempts, if webhook.Rejected? then |batch| else 0);
    forall c | 0 <= c < |next.calls| ensures CallFits(next.calls[c], next.tables.attempts) {
      CallStillFits(next.calls[c], w.tables.attempts, added);
    }
    CallsGrow(w.calls, next.calls[|w.calls|], w.tables.attempts);
    forall i | 0 <= i < |next.places| ensures RowFits(next.tables.attempts[i], i, next.places[i], next.calls) {
      if i < n {
        RowStillFits(w.tables.attempts[i], i, w.places[i], w.calls, next.calls);
      } else {
        NewRowFits(batch, now, n, i - n, w.calls);
      }
    }
    PlacesAreKnown(w);
    IdsKept(w.tables, next.tables);
  }

  lemma RejectedRows(t: Tables, webhook: Webhook, now: int, maxAttempts: int)
    ensures webhook.Rejected? ==>
              AfterCall(t, webhook, now, maxAttempts)
                == t.(attempts := t.attempts + Rows(Batch(t, webhook, maxAttempts), now, {}))
  {
  }

  lemma CallsGrow(calls: seq<OpenCall>, call: OpenCall, attempts: seq<Attempt>)
    requires forall c :: 0 <= c < |calls| ==> CallFits(calls[c], attempts)
    ensures forall c :: 0 <= c < |calls| ==> (calls + [call])[c] == calls[c] && calls[c].posted <= |calls[c].batch|
  {
  }

  lemma NewRowFits(batch: seq<Notification>, now: int, n: nat, k: nat, calls: seq<OpenCall>)
    requires k < |batch|
    ensures RowFits(Rows(batch, now, {})[k], n + k, Some(Place(|calls|, k)), calls + [OpenCall(batch, |batch|, now, n)])
  {
  }

  lemma PlacesAreKnown(w: World)
    requires Consistent(w)
    ensures forall i :: 0 <= i < |w.places| && w.places[i].Some? ==>
              w.places[i].value.call < |w.calls| && w.places[i].value.position < w.calls[w.places[i].value.call].posted
  {
  }

  lemma IdsKept(t: Tables, next: Tables)
    requires IdsArePositions(t) && next.notifications == t.notifications
    ensures IdsArePositions(next)
  {
  }

  lemma PostIsConsistent(w: World, c: nat, accepted: bool)
    requires Consistent(w)
    ensures Consistent(Posted(w, c, accepted))
  {
    hide CallFits, RowFits, IdsArePositions;
    var next := Posted(w, c, accepted);
    if Unfinished(w, c) {
      var call, n := w.calls[c], |w.places|;
      forall d | 0 <= d < |next.calls| ensures CallFits(next.calls[d], next.tables.attempts) {
        CallStillFits(w.calls[d], w.tables.attempts, [next.tables.attempts[n]]);
        OnePosted(w.calls[d], next.calls[d], next.tables.attempts);
      }
      CallsGrow(w.calls, call, w.tables.attempts);
      forall i | 0 <= i < |next.places| ensures RowFits(next.tables.attempts[i], i, next.places[i], next.calls) {
        if i < n {
          RowStillFits(w.tables.attempts[i], i, w.places[i], w.calls, next.calls);
        } else {
          PostedRowFits(w, c, next.tables.attempts[n]);
        }
      }
      PlacesAreKnown(w);
      IdsKept(w.tables, next.tables);
    }
  }

  lemma OnePosted(call: OpenCall, next: OpenCall, attempts: seq<Attempt>)
    requires CallFits(call, attempts) && next == call.(posted := next.posted) && next.posted <= |call.batch|
    ensures CallFits(next, attempts)
  {
  }

  lemma PostedRowFits(w: World, c: nat, a: Attempt)
    requires Unfinished(w, c) && CallFits(w.calls[c], w.tables.attempts) && |w.places| == |w.tables.attempts|
    requires a.notificationId == w.calls[c].batch[w.calls[c].posted].id
    ensures var call := w.calls[c];
            RowFits(a, |w.places|, Some(Place(c, call.posted)), w.calls[c := call.(posted := call.posted + 1)])
  {
  }

  lemma OtherIsConsistent(w: World, step: Step)
    requires Consistent(w) && (step.Notify? || step.OtherChannel?)
    ensures Consistent(Next(w, step))
  {
    hide CallFits;
    var next := Next(w, step);
    if step.OtherChannel? {
      forall c | 0 <= c < |next.calls| ensures CallFits(next.calls[c], next.tables.attempts) {
        CallStillFits(w.calls[c], w.tables.attempts, [step.attempt]);
        assert w.tables.attempts + [] == w.tables.attempts;
      }
    }
  }

  lemma {:induction false} ReachedIsConsistent(steps: seq<Step>)
    ensures Consistent(Reached(steps))
    decreases |steps|
  {
    hide Consistent, Started, Posted;
    if steps == [] {
      NothingIsConsistent();
    } else {
      var w := Reached(steps[..|steps| - 1]);
      ReachedIsConsistent(steps[..|steps| - 1]);
      match steps[|steps| - 1]
      case Begin(webhook, now, maxAttempts) => StartIsConsistent(w, webhook, now, maxAttempts);
      case Post(c, accepted) => PostIsConsistent(w, c, accepted);
      case Notify(_) => OtherIsConsistent(w, steps[|steps| - 1]);
      case OtherChannel(_) => OtherIsConsistent(w, steps[|steps| - 1]);
    }
  }

  lemma NothingIsConsistent()
    ensures Consistent(World(Tables([], []), [], []))
  {
  }

  // ---------------------------------------------------------------- the guard of a post

  /** Since call c read the attempts, the notification that it posts next was delivered. */
  ghost predicate Outdated(w: World, c: nat) {
    Unfinished(w, c) &&
    var call := w.calls[c];
    exists i :: call.begunAt <= i < |w.tables.attempts| && Succeeds(w.tables.attempts[i], call.batch[call.posted].id)
  }

  /** A post is not one of an outdated call; other steps are free. */
  ghost predicate Guard(w: World, step: Step) {
    step.Post? ==> !Outdated(w, step.call)
  }

  lemma AppendIsSilent(attempts: seq<Attempt>, a: Attempt)
    requires SilentAfterSuccess(attempts)
    ensures SilentAfterSuccess(attempts + [a]) <==>
              (a.webhook ==> forall i :: 0 <= i < |attempts| ==> !Succeeds(attempts[i], a.notificationId))
  {
    var all := attempts + [a];
    assert all[|attempts|] == a;
    assert forall i :: 0 <= i < |attempts| ==> all[i] == attempts[i];
  }

  /** A post keeps silence after success exactly if its call is not outdated. */
  lemma PostIsSilent(w: World, c: nat, accepted: bool)
    requires Consistent(w) && SilentAfterSuccess(w.tables.attempts)
    ensures SilentAfterSuccess(Posted(w, c, accepted).tables.attempts) <==> !Outdated(w, c)
  {
    hide SilentAfterSuccess, RowFits, InOrder, IdsArePositions;
    if Unfinished(w, c) {
      var call := w.calls[c];
      AppendIsSilent(w.tables.attempts, Attempt(call.batch[call.posted].id, true, accepted, call.now));
      assert CallFits(call, w.tables.attempts);
    }
  }

  /** What any other step records keeps silence. */
  lemma OtherIsSilent(w: World, step: Step)
    requires Consistent(w) && SilentAfterSuccess(w.tables.attempts) && !step.Post?
    ensures SilentAfterSuccess(Next(w, step).tables.attempts)
  {
    hide SilentAfterSuccess, CallFits, RowFits, InOrder, AfterCall;
    match step
    case Begin(webhook, now, maxAttempts) =>
      CallKeepsSilence(w.tables, webhook, now, maxAttempts);
    case OtherChannel(a) => AppendIsSilent(w.tables.attempts, a);
    case Notify(_) =>
  }

  /** A step keeps silence after success exactly if it is not a post of an outdated call. */
  lemma StepIsSilent(w: World, step: Step)
    requires Consistent(w) && SilentAfterSuccess(w.tables.attempts)
    ensures SilentAfterSuccess(Next(w, step).tables.attempts) <==> Guard(w, step)
  {
    hide Consistent, SilentAfterSuccess, Outdated, Posted, Started;
    if step.Post? {
      PostIsSilent(w, step.call, step.accepted);
    } else {
      OtherIsSilent(w, step);
    }
  }

  lemma AttemptsGrow(w: World, step: Step)
    ensures w.tables.attempts <= Next(w, step).tables.attempts
  {
  }

  lemma SilenceBefore(attempts: seq<Attempt>, more: seq<Attempt>)
    requires attempts <= more && SilentAfterSuccess(more)
    ensures SilentAfterSuccess(attempts)
  {
  }

  ghost predicate Guarded(steps: seq<Step>) {
    forall k :: 0 <= k < |steps| ==> Guard(Reached(steps[..k]), steps[k])
  }

  lemma GuardedPrefix(steps: seq<Step>)
    requires steps != []
    ensures var n := |steps| - 1; Guarded(steps) <==> Guarded(steps[..n]) && Guard(Reached(steps[..n]), steps[n])
  {
    hide Reached, Guard;
    var prior := steps[..|steps| - 1];
    assert forall k :: 0 <= k < |prior| ==> prior[..k] == steps[..k] && prior[k] == steps[k];
  }

  /** However calls overlap, nothing is sent for a notification after its success exactly if no post
      is one of a call that read the attempts before that success: each post can check this. */
  lemma {:induction false} RunIsSilent(steps: seq<Step>)
    ensures SilentAfterSuccess(Reached(steps).tables.attempts) <==> Guarded(steps)
    decreases |steps|
  {
    hide Consistent, SilentAfterSuccess, Guard, Guarded, Next;
    if steps == [] {
      NothingIsSilent();
    } else {
      var n := |steps| - 1;
      var w := Reached(steps[..n]);
      RunIsSilent(steps[..n]);
      GuardedPrefix(steps);
      ReachedIsConsistent(steps[..n]);
      if SilentAfterSuccess(w.tables.attempts) {
        StepIsSilent(w, steps[n]);
      } else {
        AttemptsGrow(w, steps[n]);
        if SilentAfterSuccess(Next(w, steps[n]).tables.attempts) {
          SilenceBefore(w.tables.attempts, Next(w, steps[n]).tables.attempts);
        }
      }
    }
  }

  lemma NothingIsSilent()
    ensures SilentAfterSuccess([]) && Guarded([])
  {
  }

  // ---------------------------------------------------------------- sent again after a success

  /** Attempt i succeeded, and the webhook is tried again for its notification later. */
  ghost predicate SentAgain(attempts: seq<Attempt>, i: nat) {
    i < |attempts| && attempts[i].webhook && attempts[i].success &&
    exists j :: i < j < |attempts| && attempts[j].webhook && attempts[j].notificationId == attempts[i].notificationId
  }

  /** Attempt j comes from another call than attempt i, and that call read the attempts before i. */
  ghost predicate OldSnapshot(w: World, i: nat, j: nat)
    requires |w.places| == |w.tables.attempts|
  {
    && i < j < |w.places| && w.places[j].Some? && w.places[j].value.call < |w.calls|
    && w.calls[w.places[j].value.call].begunAt <= i
    && !(w.places[i].Some? && w.places[i].value.call == w.places[j].value.call)
    && w.tables.attempts[j].webhook && w.tables.attempts[j].notificationId == w.tables.attempts[i].notificationId
  }

  /** Where a second send after a success comes from: another call, which had read the attempts before
      that success was recorded. */
  lemma SentAgainFromOldSnapshots(steps: seq<Step>, i: nat)
    requires var attempts := Reached(steps).tables.attempts;
             i < |attempts| && attempts[i].webhook && attempts[i].success
    ensures var w := Reached(steps);
            |w.places| == |w.tables.attempts| && (SentAgain(w.tables.attempts, i) <==> exists j :: OldSnapshot(w, i, j))
  {
    hide Reached;
    ReachedIsConsistent(steps);
    var w := Reached(steps);
    if SentAgain(w.tables.attempts, i) {
      var attempts := w.tables.attempts;
      var j :| i < j < |attempts| && attempts[j].webhook && attempts[j].notificationId == attempts[i].notificationId;
      SecondSendIsOld(w, i, j);
    }
  }

  lemma SecondSendIsOld(w: World, i: nat, j: nat)
    requires Consistent(w) && i < j < |w.places|
    requires var a, b := w.tables.attempts[i], w.tables.attempts[j];
             a.webhook && a.success && b.webhook && b.notificationId == a.notificationId
    ensures OldSnapshot(w, i, j)
  {
    assert RowFits(w.tables.attempts[i], i, w.places[i], w.calls) &&
        RowFits(w.tables.attempts[j], j, w.places[j], w.calls);
    var p := w.places[j].value;
    assert CallFits(w.calls[p.call], w.tables.attempts);
    assert Succeeds(w.tables.attempts[i], w.calls[p.call].batch[p.position].id);
  }

  /** Two calls on one pending notification: both send it, and both are accepted. */
  lemma TwoCallsSendTwice() returns (steps: seq<Step>)
    ensures var attempts := Reached(steps).tables.attempts;
            attempts == [Attempt(0, true, true, 1), Attempt(0, true, true, 1)] && SentAgain(attempts, 0)
  {
    var begin, n := Begin(Allowed({}), 1, 5), Notification(0, 0);
    steps := [Notify(0), begin, begin, Post(0, true), Post(1, true)];
    var t, a := Tables([n], []), Attempt(0, true, true, 1);
    OneIsPending(n);
    var open, done := OpenCall([n], 0, 1, 0), OpenCall([n], 1, 1, 0);
    var w := [World(Tables([], []), [], []), World(t, [], []), World(t, [open], []), World(t, [open, open], []),
              World(Tables([n], [a]), [done, open], [Some(Place(0, 0))]),
              World(Tables([n], [a, a]), [done, done], [Some(Place(0, 0)), Some(Place(1, 0))])];
    StepTrace(steps, w);
    assert w[5].tables.attempts[1].webhook;
  }

  lemma OneIsPending(n: Notification)
    ensures Batch(Tables([n], []), Allowed({}), 5) == [n]
  {
    assert [n][..0] == [] && [n][1..] == [];
    assert Undelivered([n], {}) == [n];
    assert Sort([n], map[]) == Insert(n, [], map[]) == [n];
  }

  lemma {:induction false} StepTrace(steps: seq<Step>, worlds: seq<World>)
    requires |worlds| == |steps| + 1 && worlds[0] == World(Tables([], []), [], [])
    requires forall k :: 0 <= k < |steps| ==> Next(worlds[k], steps[k]) == worlds[k + 1]
    ensures Reached(steps) == worlds[|steps|]
    decreases |steps|
  {
    hide Next;
    if steps != [] {
      StepTrace(steps[..|steps| - 1], worlds[..|steps|]);
    }
  }

  // ---------------------------------------------------------------- calls that do not overlap

  /** No call begins while another is unfinished. */
  ghost predicate OneAtATime(steps: seq<Step>) {
    forall n :: 0 <= n < |steps| && steps[n].Begin? ==> forall c: nat :: !Unfinished(Reached(steps[..n]), c)
  }

  /** The attempts of a call come before every later call begins, and only the last call is unfinished. */
  ghost predicate Serial(w: World) {
    && (forall i, c :: 0 <= i < |w.places| && w.places[i].Some? && w.places[i].value.call < c < |w.calls| ==>
        i < w.calls[c].begunAt)
    && (forall c: nat :: Unfinished(w, c) ==> c == |w.calls| - 1)
  }

  lemma StepIsSerial(w: World, step: Step)
    requires Consistent(w) && Serial(w) && (step.Begin? ==> forall c: nat :: !Unfinished(w, c))
    ensures Serial(Next(w, step))
  {
    hide CallFits, RowFits, Batch, AfterCall;
    PlacesAreKnown(w);
    var next := Next(w, step);
    forall c: nat | Unfinished(next, c) ensures c == |next.calls| - 1 {
      assert c < |w.calls| ==> Unfinished(w, c);
      assert !step.Begin? ==> |next.calls| == |w.calls|;
    }
    assert step.Post? && |next.places| > |w.places| ==> Unfinished(w, step.call);
    forall i, c | 0 <= i < |next.places| && next.places[i].Some? && next.places[i].value.call < c < |next.calls|
      ensures i < next.calls[c].begunAt
    {
    }
  }

  lemma {:induction false} ReachedIsSerial(steps: seq<Step>)
    requires OneAtATime(steps)
    ensures Serial(Reached(steps))
    decreases |steps|
  {
    hide Consistent, Serial, Next;
    if steps == [] {
      NothingIsSerial();
    } else {
      var prior := steps[..|steps| - 1];
      forall n | 0 <= n < |prior| && prior[n].Begin? ensures forall c: nat :: !Unfinished(Reached(prior[..n]), c) {
        assert prior[..n] == steps[..n];
      }
      ReachedIsConsistent(prior);
      ReachedIsSerial(prior);
      StepIsSerial(Reached(prior), steps[|steps| - 1]);
    }
  }

  lemma NothingIsSerial()
    ensures Serial(World(Tables([], []), [], []))
  {
  }

  /** The rows since the only unfinished call began are its own, of other notifications. */
  lemma SerialIsGuarded(w: World, step: Step)
    requires Consistent(w) && Serial(w)
    ensures Guard(w, step)
  {
    hide IdsArePositions;
    if step.Post? && Unfinished(w, step.call) {
      var call := w.calls[step.call];
      assert CallFits(call, w.tables.attempts);
      forall i | call.begunAt <= i < |w.tables.attempts|
        ensures !Succeeds(w.tables.attempts[i], call.batch[call.posted].id)
      {
        assert RowFits(w.tables.attempts[i], i, w.places[i], w.calls);
      }
    }
  }

  lemma OneAtATimePrefix(steps: seq<Step>, k: nat)
    requires OneAtATime(steps) && k <= |steps|
    ensures OneAtATime(steps[..k])
  {
    hide Reached, Unfinished;
    forall n | 0 <= n < k && steps[..k][n].Begin? ensures forall c: nat :: !Unfinished(Reached(steps[..k][..n]), c) {
      assert steps[..k][..n] == steps[..n];
    }
  }

  /** If calls do not overlap, nothing is sent for a notification after its success: each is delivered
      at most once. */
  lemma SerialCallsDeliverOnce(steps: seq<Step>)
    requires OneAtATime(steps)
    ensures SilentAfterSuccess(Reached(steps).tables.attempts)
  {
    hide Reached, Guard, Serial, Consistent, SilentAfterSuccess, OneAtATime;
    forall k | 0 <= k < |steps| ensures Guard(Reached(steps[..k]), steps[k]) {
      OneAtATimePrefix(steps, k);
      ReachedIsConsistent(steps[..k]);
      ReachedIsSerial(steps[..k]);
      SerialIsGuarded(Reached(steps[..k]), steps[k]);
    }
    RunIsSilent(steps);
  }

  // ---------------------------------------------------------------- a call without interruption

  /** The first n posts of a call, with the webhook's answers. */
  function PostedUpTo(w: World, c: nat, n: nat, accepts: set<nat>): World
    requires c < |w.calls| && n <= |w.calls[c].batch|
  {
    if n == 0 then w
    else
      Posted(PostedUpTo(w, c, n - 1, accepts), c, w.calls[c].batch[n - 1].id in accepts)
  }

  lemma {:induction false} PostsRecordRows(w: World, c: nat, n: nat, accepts: set<nat>)
    requires c < |w.calls| && w.calls[c].posted == 0 && n <= |w.calls[c].batch|
    ensures var call, after := w.calls[c], PostedUpTo(w, c, n, accepts);
            after.calls == w.calls[c := call.(posted := n)] &&
            after.tables == w.tables.(attempts := w.tables.attempts + Rows(call.batch[..n], call.now, accepts))
  {
    var call := w.calls[c];
    if n == 0 {
      assert w.calls[c := call.(posted := 0)] == w.calls;
      assert w.tables.attempts + Rows(call.batch[..0], call.now, accepts) == w.tables.attempts;
    } else {
      PostsRecordRows(w, c, n - 1, accepts);
      assert call.batch[..n] == call.batch[..n - 1] + [call.batch[n - 1]];
      RowsAppend(call.batch[..n - 1], call.batch[n - 1], call.now, accepts);
    }
  }

  /** A call that no other interrupts leaves the tables as one step does. */
  lemma UninterruptedCall(w: World, accepts: set<nat>, now: int, maxAttempts: int)
    ensures var begun, c := Started(w, Allowed(accepts), now, maxAttempts), |w.calls|;
            var batch := Batch(w.tables, Allowed(accepts), maxAttempts);
            PostedUpTo(begun, c, |batch|, accepts).tables == AfterCall(w.tables, Allowed(accepts), now, maxAttempts)
  {
    hide Batch;
    var begun, batch := Started(w, Allowed(accepts), now, maxAttempts), Batch(w.tables, Allowed(accepts), maxAttempts);
    PostsRecordRows(begun, |w.calls|, |batch|, accepts);
    assert batch[..|batch|] == batch;
  }
}
