// The webhook queue of src/market-state/notification-delivery.ts: which notifications are pending,
// in which order they are tried, and what a call records. Times are numbers ordered like the
// ISO strings of the source; the POST itself is its outcome.
module NotificationDelivery {
  import opened Options

  datatype Notification = Notification(id: nat, createdAt: int)

  datatype Attempt = Attempt(notificationId: nat, webhook: bool, success: bool, attemptedAt: int)

  datatype Tables = Tables(notifications: seq<Notification>, attempts: seq<Attempt>)

  /** No webhook is configured, its URL is not allowed, or it is called and accepts the
      notifications in `accepts`. */
  datatype Webhook = Missing | Rejected | Allowed(accepts: set<nat>)

  function Accepts(webhook: Webhook): set<nat> {
    if webhook.Allowed? then webhook.accepts else {}
  }

  // ---------------------------------------------------------------- selection

  function DeliveredIds(attempts: seq<Attempt>): set<nat>
    decreases |attempts|
  {
    if attempts == [] then {}
    else
      var before, last := DeliveredIds(attempts[..|attempts| - 1]), attempts[|attempts| - 1];
      if last.webhook && last.success then before + {last.notificationId} else before
  }

  function NoteFailure(before: map<nat, int>, a: Attempt): map<nat, int> {
    if !a.webhook || a.success then before
    else if a.notificationId !in before || a.attemptedAt > before[a.notificationId]
      then before[a.notificationId := a.attemptedAt]
    else before
  }

  function LastFailures(attempts: seq<Attempt>): map<nat, int>
    decreases |attempts|
  {
    if attempts == [] then map[] else NoteFailure(LastFailures(attempts[..|attempts| - 1]), attempts[|attempts| - 1])
  }

  predicate Succeeds(a: Attempt, id: nat) {
    a.notificationId == id && a.webhook && a.success
  }

  predicate Fails(a: Attempt, id: nat) {
    a.notificationId == id && a.webhook && !a.success
  }

  lemma {:induction false} DeliveredIdsMeaning(attempts: seq<Attempt>, id: nat)
    ensures id in DeliveredIds(attempts) <==> exists a :: a in attempts && Succeeds(a, id)
    decreases |attempts|
  {
    if attempts != [] {
      var prior, last := attempts[..|attempts| - 1], attempts[|attempts| - 1];
      DeliveredIdsMeaning(prior, id);
      assert attempts == prior + [last];
      assert last in attempts;
    }
  }

  /** The map holds exactly the notifications with a failed attempt, each with its latest time. */
  lemma {:induction false} LastFailuresMeaning(attempts: seq<Attempt>, id: nat)
    ensures id in LastFailures(attempts) <==> exists a :: a in attempts && Fails(a, id)
    ensures id in LastFailures(attempts) ==>
            exists a :: a in attempts && Fails(a, id) && a.attemptedAt == LastFailures(attempts)[id]
    ensures id in LastFailures(attempts) ==> forall a :: a in attempts && Fails(a, id) ==>
            a.attemptedAt <= LastFailures(attempts)[id]
    decreases |attempts|
  {
    if attempts != [] {
      var prior, last := attempts[..|attempts| - 1], attempts[|attempts| - 1];
      LastFailuresMeaning(prior, id);
      assert attempts == prior + [last];
      assert last in attempts;
    }
  }

  function CompareTimes(left: int, right: int): int {
    if left < right then -1 else if left > right then 1 else 0
  }

  /** The comparator of the sort: never attempted first, then the oldest last attempt, then age. */
  function Compare(left: Notification, right: Notification, last: map<nat, int>): int {
    if left.id !in last && right.id in last then -1
    else if left.id in last && right.id !in last then 1
    else if left.id in last && right.id in last && last[left.id] != last[right.id]
      then CompareTimes(last[left.id], last[right.id])
    else if left.createdAt != right.createdAt then CompareTimes(left.createdAt, right.createdAt)
    else left.id - right.id
  }

  predicate Precedes(left: Notification, right: Notification, last: map<nat, int>) {
    Compare(left, right, last) < 0
  }

  lemma ComparatorIsTotal(a: Notification, b: Notification, c: Notification, last: map<nat, int>)
    ensures Precedes(a, b, last) && Precedes(b, c, last) ==> Precedes(a, c, last)
    ensures !(Precedes(a, b, last) && Precedes(b, a, last))
    ensures a.id != b.id ==> Precedes(a, b, last) || Precedes(b, a, last)
  {
  }

  function Insert(x: Notification, s: seq<Notification>, last: map<nat, int>): seq<Notification>
    decreases |s|
  {
    if s == [] then [x]
    else if Precedes(s[0], x, last) then [s[0]] + Insert(x, s[1..], last)
    else [x] + s
  }

  function Sort(s: seq<Notification>, last: map<nat, int>): seq<Notification>
    decreases |s|
  {
    if s == [] then [] else Insert(s[0], Sort(s[1..], last), last)
  }

  function Undelivered(s: seq<Notification>, delivered: set<nat>): seq<Notification>
    decreases |s|
  {
    if s == [] then []
    else
      Undelivered(s[..|s| - 1], delivered) + if s[|s| - 1].id in delivered then [] else [s[|s| - 1]]
  }

  function Pending(t: Tables): seq<Notification> {
    Sort(Undelivered(t.notifications, DeliveredIds(t.attempts)), LastFailures(t.attempts))
  }

  // ---------------------------------------------------------------- one call

  /** How many elements `slice(0, end)` keeps. */
  function SliceLength(length: nat, end: int): (n: nat)
    ensures n <= length && (end >= 0 ==> n <= end)
  {
    if end < 0 then if length + end < 0 then 0 else length + end
    else if end < length then end else length
  }

  /** How many iterations the delivery loop makes before its cap. */
  function LoopLength(length: nat, maxAttempts: int): (n: nat)
    ensures n <= length && (maxAttempts >= 0 ==> n <= maxAttempts)
  {
    if maxAttempts <= 0 then 0 else if maxAttempts < length then maxAttempts else length
  }

  function BatchSize(webhook: Webhook, length: nat, maxAttempts: int): (n: nat)
    ensures n <= length && (maxAttempts >= 0 ==> n <= maxAttempts)
  {
    match webhook
    case Missing => 0
    case Rejected => SliceLength(length, maxAttempts)
    case Allowed(_) => LoopLength(length, maxAttempts)
  }

  function Row(n: Notification, now: int, accepts: set<nat>): Attempt {
    Attempt(n.id, true, n.id in accepts, now)
  }

  function Rows(batch: seq<Notification>, now: int, accepts: set<nat>): seq<Attempt> {
    seq(|batch|, i requires 0 <= i < |batch| => Row(batch[i], now, accepts))
  }

  function Batch(t: Tables, webhook: Webhook, maxAttempts: int): (batch: seq<Notification>)
    ensures |batch| == BatchSize(webhook, |Pending(t)|, maxAttempts)
  {
    Pending(t)[..BatchSize(webhook, |Pending(t)|, maxAttempts)]
  }

  function AfterCall(t: Tables, webhook: Webhook, now: int, maxAttempts: int): Tables {
    t.(attempts := t.attempts + Rows(Batch(t, webhook, maxAttempts), now, Accepts(webhook)))
  }

  function CountAccepted(batch: seq<Notification>, accepts: set<nat>): nat
    decreases |batch|
  {
    if batch == [] then 0
    else CountAccepted(batch[..|batch| - 1], accepts) + if batch[|batch| - 1].id in accepts then 1 else 0
  }

  class NotificationTables {
    var notifications: seq<Notification>
    var attempts: seq<Attempt>

    constructor ()
      ensures Value() == Tables([], [])
    {
      notifications, attempts := [], [];
    }

    function Value(): Tables
      reads this
    {
      Tables(notifications, attempts)
    }

    method RecordNotificationEvent(createdAt: int) returns (n: Notification)
      modifies this`notifications
      ensures n == Notification(|old(notifications)|, createdAt)
      ensures notifications == old(notifications) + [n]
    {
      n := Notification(|notifications|, createdAt);
      notifications := notifications + [n];
    }

    method RecordNotificationDeliveryAttempt(a: Attempt)
      modifies this`attempts
      ensures attempts == old(attempts) + [a]
    {
      attempts := attempts + [a];
    }

    /** The set and the map that the call builds from the attempts so far. */
    method ReadAttempts() returns (delivered: set<nat>, last: map<nat, int>)
      ensures delivered == DeliveredIds(attempts) && last == LastFailures(attempts)
    {
      delivered, last := {}, map[];
      for i := 0 to |attempts|
        invariant delivered == DeliveredIds(attempts[..i])
        invariant last == LastFailures(attempts[..i])
      {
        var a := attempts[i];
        assert attempts[..i + 1][..i] == attempts[..i];
        if a.webhook && a.success {
          delivered := delivered + {a.notificationId};
        } else if a.webhook {
          if a.notificationId !in last || a.attemptedAt > last[a.notificationId] {
            last := last[a.notificationId := a.attemptedAt];
          }
        }
      }
      assert attempts[..|attempts|] == attempts;
    }

    method ReadPending() returns (pending: seq<Notification>)
      ensures pending == Pending(Value())
    {
      var delivered, last := ReadAttempts();
      pending := [];
      for i := 0 to |notifications|
        invariant pending == Undelivered(notifications[..i], delivered)
      {
        assert notifications[..i + 1][..i] == notifications[..i];
        if notifications[i].id !in delivered {
          pending := pending + [notifications[i]];
        }
      }
      assert notifications[..|notifications|] == notifications;
      pending := Sort(pending, last);
    }

    method DeliverPendingNotifications(webhook: Webhook, now: int, maxAttempts: int)
      returns (attempted: nat, succeeded: nat, failed: nat)
      modifies this`attempts
      ensures Value() == AfterCall(old(Value()), webhook, now, maxAttempts)
      ensures attempted == |Batch(old(Value()), webhook, maxAttempts)| == succeeded + failed
      ensures succeeded == CountAccepted(Batch(old(Value()), webhook, maxAttempts), Accepts(webhook))
    {
      attempted, succeeded, failed := 0, 0, 0;
      if webhook.Missing? {
        return;
      }
      var pending := ReadPending();
      if webhook.Rejected? {
        var rejected := pending[..SliceLength(|pending|, maxAttempts)];
        RejectAll(rejected, now);
        NoneAccepted(rejected);
        return |rejected|, 0, |rejected|;
      }
      hide Pending, SentUpTo;
      NothingSent(attempts, pending, now, webhook.accepts);
      while attempted < |pending|
        invariant attempted <= LoopLength(|pending|, maxAttempts)
        invariant SentUpTo(old(attempts), attempts, pending, attempted, now, webhook.accepts, succeeded)
        invariant attempted == succeeded + failed
      {
        if attempted >= maxAttempts {
          break;
        }
        var notification := pending[attempted];
        OneMoreSent(old(attempts), attempts, pending, attempted, now, webhook.accepts, succeeded);
        attempted := attempted + 1;
        if notification.id in webhook.accepts {
          RecordNotificationDeliveryAttempt(Attempt(notification.id, true, true, now));
          succeeded := succeeded + 1;
        } else {
          RecordNotificationDeliveryAttempt(Attempt(notification.id, true, false, now));
          failed := failed + 1;
        }
      }
      AllSent(old(attempts), attempts, pending, attempted, now, webhook.accepts, succeeded);
    }

    /** A URL that is not allowed: the batch is recorded as failed and nothing is sent. */
    method RejectAll(batch: seq<Notification>, now: int)
      modifies this`attempts
      ensures attempts == old(attempts) + Rows(batch, now, {})
    {
      for i := 0 to |batch|
        invariant attempts == old(attempts) + Rows(batch[..i], now, {})
      {
        RowsAppend(batch[..i], batch[i], now, {});
        assert batch[..i + 1] == batch[..i] + [batch[i]];
        RecordNotificationDeliveryAttempt(Attempt(batch[i].id, true, false, now));
      }
      assert batch[..|batch|] == batch;
    }
  }

  lemma RowsAppend(batch: seq<Notification>, n: Notification, now: int, accepts: set<nat>)
    ensures Rows(batch + [n], now, accepts) == Rows(batch, now, accepts) + [Row(n, now, accepts)]
  {
  }

  /** The first n of the queue are tried, and so many of them accepted. */
  ghost predicate SentUpTo(before: seq<Attempt>, after: seq<Attempt>, pending: seq<Notification>, n: nat, now: int,
      accepts: set<nat>, accepted: nat)
  {
    n <= |pending| && after == before + Rows(pending[..n], now, accepts) &&
    accepted == CountAccepted(pending[..n], accepts)
  }

  lemma NothingSent(before: seq<Attempt>, pending: seq<Notification>, now: int, accepts: set<nat>)
    ensures SentUpTo(before, before, pending, 0, now, accepts, 0)
  {
    assert before + [] == before;
  }

  lemma OneMoreSent(before: seq<Attempt>, after: seq<Attempt>, pending: seq<Notification>, n: nat, now: int,
      accepts: set<nat>, accepted: nat)
    requires n < |pending| && SentUpTo(before, after, pending, n, now, accepts, accepted)
    ensures SentUpTo(before, after + [Row(pending[n], now, accepts)], pending, n + 1, now, accepts,
                     accepted + if pending[n].id in accepts then 1 else 0)
  {
    hide Rows, Row;
    assert pending[..n + 1] == pending[..n] + [pending[n]] && pending[..n + 1][..n] == pending[..n];
    RowsAppend(pending[..n], pending[n], now, accepts);
  }

  lemma AllSent(before: seq<Attempt>, after: seq<Attempt>, pending: seq<Notification>, n: nat, now: int,
      accepts: set<nat>, accepted: nat)
    requires SentUpTo(before, after, pending, n, now, accepts, accepted)
    ensures after == before + Rows(pending[..n], now, accepts) && accepted == CountAccepted(pending[..n], accepts)
  {
  }

  lemma {:induction false} NoneAccepted(batch: seq<Notification>)
    ensures CountAccepted(batch, {}) == 0
    decreases |batch|
  {
    if batch != [] {
      NoneAccepted(batch[..|batch| - 1]);
    }
  }

  // ---------------------------------------------------------------- the order

  ghost predicate Sorted(s: seq<Notification>, last: map<nat, int>) {
    forall i, j :: 0 <= i < j < |s| ==> Precedes(s[i], s[j], last)
  }

  ghost predicate DistinctIds(s: seq<Notification>) {
    forall i, j :: 0 <= i < j < |s| ==> s[i].id != s[j].id
  }

  lemma {:induction false} InsertSorted(x: Notification, s: seq<Notification>, last: map<nat, int>)
    requires Sorted(s, last) && forall y :: y in s ==> y.id != x.id
    ensures Sorted(Insert(x, s, last), last)
    ensures forall y :: y in Insert(x, s, last) <==> y == x || y in s
    decreases |s|
  {
    if s != [] {
      InsertSorted(x, s[1..], last);
      assert s == [s[0]] + s[1..];
      var r := Insert(x, s, last);
      if Precedes(s[0], x, last) {
        forall j | 0 < j < |r| ensures Precedes(r[0], r[j], last) {
          assert r[j] in Insert(x, s[1..], last);
        }
      } else {
        ComparatorIsTotal(x, s[0], x, last);
        forall j | 0 < j < |s| ensures Precedes(x, s[j], last) {
          ComparatorIsTotal(x, s[0], s[j], last);
        }
      }
    }
  }

  lemma {:induction false} SortSorted(s: seq<Notification>, last: map<nat, int>)
    requires DistinctIds(s)
    ensures Sorted(Sort(s, last), last)
    ensures forall y :: y in Sort(s, last) <==> y in s
    decreases |s|
  {
    if s != [] {
      SortSorted(s[1..], last);
      InsertSorted(s[0], Sort(s[1..], last), last);
      assert s == [s[0]] + s[1..];
    }
  }

  /** A strictly sorted sequence is determined by its elements. */
  lemma {:induction false} SortedUnique(a: seq<Notification>, b: seq<Notification>, last: map<nat, int>)
    requires Sorted(a, last) && Sorted(b, last) && forall x :: x in a <==> x in b
    ensures a == b
    decreases |a|
  {
    assert |b| > 0 ==> b[0] in b;
    if a != [] {
      assert a[0] in b && b[0] in a;
      assert a[0] == b[0];
      forall x ensures x in a[1..] <==> x in b[1..] {
        assert x in a <==> x == a[0] || x in a[1..];
        assert x in b <==> x == b[0] || x in b[1..];
      }
      SortedUnique(a[1..], b[1..], last);
    }
  }

  lemma {:induction false} UndeliveredElements(s: seq<Notification>, delivered: set<nat>)
    ensures forall n :: n in Undelivered(s, delivered) <==> n in s && n.id !in delivered
    ensures DistinctIds(s) ==> DistinctIds(Undelivered(s, delivered))
    decreases |s|
  {
    if s != [] {
      var prior := s[..|s| - 1];
      UndeliveredElements(prior, delivered);
      assert s == prior + [s[|s| - 1]];
    }
  }

  lemma PendingElements(t: Tables)
    requires DistinctIds(t.notifications)
    ensures Sorted(Pending(t), LastFailures(t.attempts))
    ensures forall n :: n in Pending(t) <==> n in t.notifications && n.id !in DeliveredIds(t.attempts)
  {
    var delivered := DeliveredIds(t.attempts);
    UndeliveredElements(t.notifications, delivered);
    SortSorted(Undelivered(t.notifications, delivered), LastFailures(t.attempts));
  }

  // ---------------------------------------------------------------- the queue rotates

  /** Every failed attempt so far is older than now. */
  ghost predicate Before(t: Tables, now: int) {
    forall a :: a in t.attempts && a.webhook && !a.success ==> a.attemptedAt < now
  }

  predicate InBatch(batch: seq<Notification>, id: nat) {
    exists n :: n in batch && n.id == id
  }

  /** The last attempt of a notification that fails at now, if it has not failed even later before. */
  function Later(last: map<nat, int>, id: nat, now: int): int {
    if id in last && last[id] > now then last[id] else now
  }

  lemma {:induction false} AttemptsAfterRows(attempts: seq<Attempt>, batch: seq<Notification>, now: int,
      accepts: set<nat>, id: nat)
    ensures id in DeliveredIds(attempts + Rows(batch, now, accepts)) <==>
            id in DeliveredIds(attempts) || (InBatch(batch, id) && id in accepts)
    ensures var before, last := LastFailures(attempts), LastFailures(attempts + Rows(batch, now, accepts));
            if InBatch(batch, id) && id !in accepts then id in last && last[id] == Later(before, id, now)
            else (id in last <==> id in before) && (id in last ==> last[id] == before[id])
    decreases |batch|
  {
    if batch == [] {
      assert attempts + Rows(batch, now, accepts) == attempts;
    } else {
      var prior, n := batch[..|batch| - 1], batch[|batch| - 1];
      assert batch == prior + [n];
      AttemptsAfterRows(attempts, prior, now, accepts, id);
      RowsAppend(prior, n, now, accepts);
      var all := attempts + Rows(batch, now, accepts);
      assert all[..|all| - 1] == attempts + Rows(prior, now, accepts);
      assert InBatch(batch, id) <==> InBatch(prior, id) || n.id == id by {
        assert n in batch;
      }
    }
  }

  function Failing(batch: seq<Notification>, accepts: set<nat>): seq<Notification> {
    Undelivered(batch, accepts)
  }

  function FailedTimes(failing: seq<Notification>, last: map<nat, int>, now: int): map<nat, int> {
    map id | id in (set n | n in failing :: n.id) :: Later(last, id, now)
  }

  /** The failed part of a batch, by the time of its last attempt and then by age. */
  function Requeued(batch: seq<Notification>, accepts: set<nat>, last: map<nat, int>, now: int): seq<Notification> {
    Sort(Failing(batch, accepts), FailedTimes(Failing(batch, accepts), last, now))
  }

  lemma AgreeingTimes(a: Notification, b: Notification, last: map<nat, int>, other: map<nat, int>)
    requires forall id :: id in {a.id, b.id} ==> (id in last <==> id in other) && (id in last ==> last[id] == other[id])
    ensures Precedes(a, b, last) <==> Precedes(a, b, other)
  {
    assert a.id in {a.id, b.id} && b.id in {a.id, b.id};
  }

  lemma SortedDistinct(s: seq<Notification>, all: seq<Notification>, last: map<nat, int>)
    requires Sorted(s, last) && DistinctIds(all) && forall n :: n in s ==> n in all
    ensures DistinctIds(s)
  {
    forall i, j | 0 <= i < j < |s| ensures s[i].id != s[j].id {
      ComparatorIsTotal(s[i], s[j], s[i], last);
      assert s[i] in all && s[j] in all;
    }
  }

  /** A notification that was not tried stands before one that fails now: it was never tried, or last
      tried earlier, or at the same time and is older. */
  predicate WaitsBefore(r: Notification, f: Notification, last: map<nat, int>, now: int) {
    Precedes(r, f, last[f.id := Later(last, f.id, now)])
  }

  ghost predicate Rotates(p: seq<Notification>, m: nat, accepts: set<nat>, last: map<nat, int>, now: int)
    requires m <= |p|
  {
    forall r, f :: r in p[m..] && f in Failing(p[..m], accepts) ==> WaitsBefore(r, f, last, now)
  }

  /** The queue of a call, with the times of the last attempts before and after it. */
  ghost predicate Turn(p: seq<Notification>, m: nat, last: map<nat, int>, after: map<nat, int>, now: int,
      accepts: set<nat>)
  {
    && m <= |p| && Sorted(p, last) && DistinctIds(p)
    && (forall n :: n in p[m..] ==> (n.id in after <==> n.id in last) && (n.id in after ==> after[n.id] == last[n.id]))
    && (forall n :: n in Failing(p[..m], accepts) ==> n.id in after && after[n.id] == Later(last, n.id, now))
  }

  lemma TurnPrecedes(p: seq<Notification>, m: nat, last: map<nat, int>, after: map<nat, int>, now: int,
      accepts: set<nat>, r: Notification, f: Notification)
    requires Turn(p, m, last, after, now, accepts) && r in p[m..] && f in Failing(p[..m], accepts)
    ensures Precedes(r, f, after) <==> WaitsBefore(r, f, last, now)
  {
    UndeliveredElements(p[..m], accepts);
    assert p == p[..m] + p[m..];
    BatchMembership(p, m, f);
    BatchMembership(p, m, r);
    assert r.id != f.id;
    AgreeingTimes(r, f, after, last[f.id := Later(last, f.id, now)]);
  }

  lemma BackIsSorted(failing: seq<Notification>, last: map<nat, int>, after: map<nat, int>, now: int)
    requires DistinctIds(failing) && forall n :: n in failing ==> n.id in after && after[n.id] == Later(last, n.id, now)
    ensures var back := Sort(failing, FailedTimes(failing, last, now));
            Sorted(back, after) && forall n :: n in back <==> n in failing
  {
    hide Precedes, Later;
    var times := FailedTimes(failing, last, now);
    SortSorted(failing, times);
    var back := Sort(failing, times);
    forall i, j | 0 <= i < j < |back| ensures Precedes(back[i], back[j], after) {
      assert back[i] in back && back[j] in back;
      AgreeingTimes(back[i], back[j], times, after);
    }
  }

  lemma SortedJoin(a: seq<Notification>, b: seq<Notification>, last: map<nat, int>)
    ensures Sorted(a + b, last) <==>
              Sorted(a, last) && Sorted(b, last) && forall x, y :: x in a && y in b ==> Precedes(x, y, last)
  {
    hide Precedes;
    var q := a + b;
    if Sorted(q, last) {
      assert forall i :: 0 <= i < |a| ==> q[i] == a[i];
      assert forall j :: 0 <= j < |b| ==> q[|a| + j] == b[j];
      forall x, y | x in a && y in b ensures Precedes(x, y, last) {
        var i :| 0 <= i < |a| && a[i] == x;
        var j :| 0 <= j < |b| && b[j] == y;
        assert q[i] == x && q[|a| + j] == y;
      }
    }
    if Sorted(a, last) && Sorted(b, last) && forall x, y :: x in a && y in b ==> Precedes(x, y, last) {
      assert forall i :: 0 <= i < |a| ==> a[i] in a;
      assert forall j :: 0 <= j < |b| ==> b[j] in b;
    }
  }

  /** What stays in front keeps its order. */
  lemma TailStaysSorted(p: seq<Notification>, m: nat, last: map<nat, int>, after: map<nat, int>, now: int,
      accepts: set<nat>)
    requires Turn(p, m, last, after, now, accepts)
    ensures Sorted(p[m..], after)
  {
    hide Precedes, Later;
    var tail := p[m..];
    forall i, j | 0 <= i < j < |tail| ensures Precedes(tail[i], tail[j], after) {
      assert Precedes(p[m + i], p[m + j], last);
      assert tail[i] in tail && tail[j] in tail;
      AgreeingTimes(tail[i], tail[j], last, after);
    }
  }

  /** The rest of the queue followed by the failed part is in order exactly if the queue rotates. */
  lemma RotatedSorted(p: seq<Notification>, m: nat, last: map<nat, int>, after: map<nat, int>, now: int,
      accepts: set<nat>)
    requires Turn(p, m, last, after, now, accepts)
    ensures Sorted(p[m..] + Requeued(p[..m], accepts, last, now), after) <==> Rotates(p, m, accepts, last, now)
  {
    var tail, failing := p[m..], Failing(p[..m], accepts);
    var back := Requeued(p[..m], accepts, last, now);
    UndeliveredElements(p[..m], accepts);
    BackIsSorted(failing, last, after, now);
    TailStaysSorted(p, m, last, after, now, accepts);
    SortedJoin(tail, back, after);
    hide Precedes, Later, WaitsBefore, Sorted;
    forall r, f | r in tail && f in failing ensures Precedes(r, f, after) <==> WaitsBefore(r, f, last, now) {
      TurnPrecedes(p, m, last, after, now, accepts, r, f);
    }
  }

  /** One call rotates the queue, that is the batch leaves the front and what failed of it goes to the
      back, exactly if everything left waits before everything that failed. */
  lemma CallRotatesQueue(t: Tables, webhook: Webhook, now: int, maxAttempts: int)
    requires DistinctIds(t.notifications)
    ensures var p, last := Pending(t), LastFailures(t.attempts);
            var m := BatchSize(webhook, |p|, maxAttempts);
            Pending(AfterCall(t, webhook, now, maxAttempts)) == p[m..] + Requeued(p[..m], Accepts(webhook), last, now)
            <==> Rotates(p, m, Accepts(webhook), last, now)
  {
    hide Pending, Sort, Undelivered, DeliveredIds, LastFailures, Precedes, BatchSize, Rows, Later, Rotates;
    var p, accepts := Pending(t), Accepts(webhook);
    var m := BatchSize(webhook, |p|, maxAttempts);
    var batch, next := p[..m], AfterCall(t, webhook, now, maxAttempts);
    var last, after := LastFailures(t.attempts), LastFailures(next.attempts);
    CallTurn(t, webhook, now, maxAttempts);
    RotatedSorted(p, m, last, after, now, accepts);
    PendingElements(next);
    var q := p[m..] + Requeued(batch, accepts, last, now);
    if Sorted(q, after) {
      UndeliveredElements(batch, accepts);
      BackIsSorted(Failing(batch, accepts), last, after, now);
      SortedUnique(Pending(next), q, after);
    }
  }

  lemma CallTurn(t: Tables, webhook: Webhook, now: int, maxAttempts: int)
    requires DistinctIds(t.notifications)
    ensures var p, last := Pending(t), LastFailures(t.attempts);
            var m, next := BatchSize(webhook, |p|, maxAttempts), AfterCall(t, webhook, now, maxAttempts);
            Turn(p, m, last, LastFailures(next.attempts), now, Accepts(webhook)) &&
            forall n :: n in Pending(next) <==> n in p[m..] || n in Failing(p[..m], Accepts(webhook))
  {
    hide Pending, Sort, Undelivered, DeliveredIds, LastFailures, Precedes, BatchSize, Rows, Later;
    var p, accepts := Pending(t), Accepts(webhook);
    var m := BatchSize(webhook, |p|, maxAttempts);
    var batch, next := p[..m], AfterCall(t, webhook, now, maxAttempts);
    var last, after := LastFailures(t.attempts), LastFailures(next.attempts);
    PendingElements(t);
    PendingElements(next);
    SortedDistinct(p, t.notifications, last);
    UndeliveredElements(batch, accepts);
    assert p == batch + p[m..];
    forall n | n in p
      ensures n in p[m..] ==> (n.id in after <==> n.id in last) && (n.id in after ==> after[n.id] == last[n.id])
      ensures n in Failing(batch, accepts) ==> n.id in after && after[n.id] == Later(last, n.id, now)
      ensures n in Pending(next) <==> n in p[m..] || n in Failing(batch, accepts)
    {
      BatchMembership(p, m, n);
      AttemptsAfterRows(t.attempts, batch, now, accepts, n.id);
    }
    forall n | n !in p ensures n !in Pending(next) {
      AttemptsAfterRows(t.attempts, batch, now, accepts, n.id);
    }
  }

  /** A call later than every failed attempt rotates the queue, and requeues what failed by age. */
  lemma LaterCallRotatesQueue(t: Tables, webhook: Webhook, now: int, maxAttempts: int)
    requires DistinctIds(t.notifications) && Before(t, now)
    ensures var p, accepts := Pending(t), Accepts(webhook);
            var m := BatchSize(webhook, |p|, maxAttempts);
            Pending(AfterCall(t, webhook, now, maxAttempts)) == p[m..] + Sort(Failing(p[..m], accepts), map[])
  {
    hide Pending, Sort, Undelivered, DeliveredIds, LastFailures, BatchSize, Rows;
    var p, accepts, last := Pending(t), Accepts(webhook), LastFailures(t.attempts);
    var m := BatchSize(webhook, |p|, maxAttempts);
    forall id | id in last ensures last[id] < now {
      LastFailuresMeaning(t.attempts, id);
    }
    CallRotatesQueue(t, webhook, now, maxAttempts);
    PendingElements(t);
    SortedDistinct(p, t.notifications, last);
    var failing := Failing(p[..m], accepts);
    UndeliveredElements(p[..m], accepts);
    assert p == p[..m] + p[m..];
    forall n | n in failing || n in p[m..] ensures n in p {
    }
    assert forall r, f :: r in p[m..] && f in failing ==> WaitsBefore(r, f, last, now);
    EqualTimesAreByAge(failing, FailedTimes(failing, last, now), now);
  }

  lemma EqualTimesAreByAge(s: seq<Notification>, times: map<nat, int>, now: int)
    requires DistinctIds(s) && forall n :: n in s ==> n.id in times && times[n.id] == now
    ensures Sort(s, times) == Sort(s, map[])
  {
    hide Precedes;
    SortSorted(s, times);
    SortSorted(s, map[]);
    var a := Sort(s, times);
    forall i, j | 0 <= i < j < |a| ensures Precedes(a[i], a[j], map[]) {
      assert a[i] in a && a[j] in a;
      SameTimeIsByAge(a[i], a[j], times);
    }
    SortedUnique(a, Sort(s, map[]), map[]);
  }

  lemma SameTimeIsByAge(a: Notification, b: Notification, last: map<nat, int>)
    requires a.id in last && b.id in last && last[a.id] == last[b.id]
    ensures Precedes(a, b, last) <==> Precedes(a, b, map[])
  {
  }

  lemma BatchMembership(p: seq<Notification>, m: nat, n: Notification)
    requires m <= |p| && DistinctIds(p) && n in p
    ensures n in p[..m] <==> n !in p[m..]
    ensures InBatch(p[..m], n.id) <==> n in p[..m]
  {
  }

  // ---------------------------------------------------------------- successive calls

  datatype Call = Call(webhook: Webhook, now: int)

  function AfterCalls(t: Tables, calls: seq<Call>, maxAttempts: int): Tables
    decreases |calls|
  {
    if calls == [] then t
    else AfterCalls(AfterCall(t, calls[0].webhook, calls[0].now, maxAttempts), calls[1..], maxAttempts)
  }

  /** The calls come later and later, all after the failed attempts so far. */
  ghost predicate Increasing(t: Tables, calls: seq<Call>) {
    && (forall i :: 0 <= i < |calls| ==> Before(t, calls[i].now))
    && (forall i, j :: 0 <= i < j < |calls| ==> calls[i].now < calls[j].now)
  }

  ghost predicate TriedBetween(before: Tables, after: Tables, id: nat) {
    |before.attempts| <= |after.attempts| &&
    exists k :: |before.attempts| <= k < |after.attempts| && after.attempts[k].notificationId == id
  }

  lemma CallTriesTheFront(t: Tables, webhook: Webhook, now: int, maxAttempts: int, p: nat)
    requires p < BatchSize(webhook, |Pending(t)|, maxAttempts)
    ensures TriedBetween(t, AfterCall(t, webhook, now, maxAttempts), Pending(t)[p].id)
  {
    var after := AfterCall(t, webhook, now, maxAttempts);
    assert after.attempts[|t.attempts| + p].notificationId == Batch(t, webhook, maxAttempts)[p].id;
  }

  lemma CallsOnlyAppend(t: Tables, calls: seq<Call>, maxAttempts: int)
    ensures var after := AfterCalls(t, calls, maxAttempts);
            after.notifications == t.notifications && t.attempts <= after.attempts
    decreases |calls|
  {
    if calls != [] {
      CallsOnlyAppend(AfterCall(t, calls[0].webhook, calls[0].now, maxAttempts), calls[1..], maxAttempts);
    }
  }

  lemma NextTurn(t: Tables, calls: seq<Call>, maxAttempts: int)
    requires calls != [] && Increasing(t, calls)
    ensures Increasing(AfterCall(t, calls[0].webhook, calls[0].now, maxAttempts), calls[1..])
  {
  }

  /** How many calls it takes until position p has had its turn. */
  function CallsUntil(p: nat, maxAttempts: int, calls: nat): (k: nat)
    requires maxAttempts >= 1 && p < calls * maxAttempts
    ensures 1 <= k <= calls
  {
    QuotientBelow(p, maxAttempts, calls);
    p / maxAttempts + 1
  }

  /** The notification at position p of the queue is tried at the latest by call number p / maxAttempts,
      whatever the webhook answers, if no notification is added meanwhile. */
  lemma {:induction false} TurnComes(t: Tables, calls: seq<Call>, maxAttempts: int, p: nat)
    requires maxAttempts >= 1 && DistinctIds(t.notifications) && Increasing(t, calls)
    requires forall c :: c in calls ==> !c.webhook.Missing?
    requires p < |Pending(t)| && p < |calls| * maxAttempts
    ensures TriedBetween(t, AfterCalls(t, calls[..CallsUntil(p, maxAttempts, |calls|)], maxAttempts), Pending(t)[p].id)
    decreases |calls|
  {
    hide Pending, Increasing, DistinctIds, TriedBetween;
    QuotientBelow(p, maxAttempts, |calls|);
    var c := calls[0];
    assert c in calls;
    var m := BatchSize(c.webhook, |Pending(t)|, maxAttempts);
    var next := AfterCall(t, c.webhook, c.now, maxAttempts);
    var turns := calls[..CallsUntil(p, maxAttempts, |calls|)];
    assert turns[0] == c;
    CallsOnlyAppend(next, turns[1..], maxAttempts);
    if p < m {
      CallTriesTheFront(t, c.webhook, c.now, maxAttempts, p);
    } else {
      assert m == maxAttempts;
      NextTurnIndex(p, maxAttempts, |calls|);
      IncreasingFirst(t, calls);
      LaterCallRotatesQueue(t, c.webhook, c.now, maxAttempts);
      NextTurn(t, calls, maxAttempts);
      assert forall x :: x in calls[1..] ==> x in calls;
      TurnComes(next, calls[1..], maxAttempts, p - maxAttempts);
      assert turns[1..] == calls[1..][..CallsUntil(p - maxAttempts, maxAttempts, |calls| - 1)];
      assert Pending(next)[p - maxAttempts] == Pending(t)[p];
    }
    TriedEarlierOrLater(t, next, AfterCalls(t, turns, maxAttempts), Pending(t)[p].id);
  }

  lemma TriedEarlierOrLater(t: Tables, mid: Tables, after: Tables, id: nat)
    requires t.attempts <= mid.attempts <= after.attempts
    ensures TriedBetween(t, after, id) <==> TriedBetween(t, mid, id) || TriedBetween(mid, after, id)
  {
  }

  lemma IncreasingFirst(t: Tables, calls: seq<Call>)
    requires calls != [] && Increasing(t, calls)
    ensures Before(t, calls[0].now)
  {
  }

  lemma QuotientBelow(p: nat, m: int, calls: nat)
    requires m >= 1 && p < calls * m
    ensures 0 <= p / m < calls
  {
    Division(p, m);
    MultiplyMonotone(calls, p / m, m);
  }

  lemma Division(p: nat, m: int)
    requires m >= 1
    ensures p == m * (p / m) + p % m && 0 <= p % m < m && p / m >= 0
  {
  }

  lemma MultiplyMonotone(a: int, b: int, m: int)
    requires m >= 1
    ensures a <= b ==> a * m <= m * b
  {
  }

  lemma NextTurnIndex(p: nat, m: int, calls: nat)
    requires m >= 1 && m <= p < calls * m
    ensures (p - m) / m + 1 == p / m && p - m < (calls - 1) * m
  {
    Division(p, m);
    assert p - m == m * (p / m - 1) + p % m;
    DivUnique(p - m, m, p / m - 1, p % m);
  }

  lemma DivUnique(x: int, m: int, q: int, r: int)
    requires m >= 1 && x == m * q + r && 0 <= r < m
    ensures x / m == q
  {
    var d := x / m - q;
    assert x == m * (x / m) + x % m;
    assert m * d == m * (x / m) - m * q;
    assert d >= 1 ==> m * d >= m;
    assert d <= -1 ==> m * d <= -m;
  }

  /** Enough calls for the length of the queue try every notification that was pending. */
  lemma EveryPendingIsTried(t: Tables, calls: seq<Call>, maxAttempts: int, n: Notification)
    requires maxAttempts >= 1 && DistinctIds(t.notifications) && Increasing(t, calls)
    requires forall c :: c in calls ==> !c.webhook.Missing?
    requires |calls| * maxAttempts >= |Pending(t)|
    requires n in t.notifications && n.id !in DeliveredIds(t.attempts)
    ensures TriedBetween(t, AfterCalls(t, calls, maxAttempts), n.id)
  {
    hide Pending, Increasing, DistinctIds, BatchSize, AfterCall;
    PendingElements(t);
    var p :| 0 <= p < |Pending(t)| && Pending(t)[p] == n;
    TurnComes(t, calls, maxAttempts, p);
    QuotientBelow(p, maxAttempts, |calls|);
    var turns, rest := calls[..CallsUntil(p, maxAttempts, |calls|)], calls[CallsUntil(p, maxAttempts, |calls|)..];
    assert calls == turns + rest;
    CallsCompose(t, turns, rest, maxAttempts);
    var mid := AfterCalls(t, turns, maxAttempts);
    CallsOnlyAppend(mid, rest, maxAttempts);
    var k :| |t.attempts| <= k < |mid.attempts| && mid.attempts[k].notificationId == n.id;
    assert AfterCalls(t, calls, maxAttempts).attempts[k] == mid.attempts[k];
  }

  lemma {:induction false} CallsCompose(t: Tables, first: seq<Call>, rest: seq<Call>, maxAttempts: int)
    ensures AfterCalls(t, first + rest, maxAttempts) == AfterCalls(AfterCalls(t, first, maxAttempts), rest, maxAttempts)
    decreases |first|
  {
    hide AfterCall;
    if first == [] {
      assert first + rest == rest;
    } else {
      assert (first + rest)[1..] == first[1..] + rest;
      CallsCompose(AfterCall(t, first[0].webhook, first[0].now, maxAttempts), first[1..], rest, maxAttempts);
    }
  }

  /** The times must increase: with two calls at one time the older notification is tried twice and
      the younger, though pending, not at all. */
  lemma EqualTimesStarve() returns (t: Tables, calls: seq<Call>)
    ensures DistinctIds(t.notifications) && |calls| == |Pending(t)| == 2
    ensures Notification(1, 1) in Pending(t) && !TriedBetween(t, AfterCalls(t, calls, 1), 1)
  {
    var a, b := Notification(0, 0), Notification(1, 1);
    t := Tables([a, b], [Attempt(0, true, false, 5), Attempt(1, true, false, 5)]);
    var c := Call(Allowed({}), 5);
    calls := [c, c];
    var t1 := Tables([a, b], t.attempts + [Attempt(0, true, false, 5)]);
    var t2 := Tables([a, b], t1.attempts + [Attempt(0, true, false, 5)]);
    hide Pending, AfterCall;
    StarvedTables(t);
    StarvedTables(t1);
    StarvedCall(t);
    StarvedCall(t1);
    assert calls[1..] == [c] && [c][1..] == [];
    hide TriedBetween;
    assert AfterCalls(t2, [], 1) == t2;
    assert AfterCalls(t1, [c], 1) == t2;
    OnlyTheFirstTried(t, t2);
  }

  lemma OnlyTheFirstTried(t: Tables, after: Tables)
    requires after.attempts == t.attempts + [Attempt(0, true, false, 5)] + [Attempt(0, true, false, 5)]
    ensures !TriedBetween(t, after, 1)
  {
  }

  lemma StarvedCall(t: Tables)
    requires Pending(t) == [Notification(0, 0), Notification(1, 1)]
    ensures AfterCall(t, Allowed({}), 5, 1) == t.(attempts := t.attempts + [Attempt(0, true, false, 5)])
  {
    hide Pending;
    assert Batch(t, Allowed({}), 1) == [Notification(0, 0)];
    assert Rows([Notification(0, 0)], 5, {}) == [Attempt(0, true, false, 5)];
  }

  lemma StarvedTables(t: Tables)
    requires t.notifications == [Notification(0, 0), Notification(1, 1)]
    requires |t.attempts| >= 2 && t.attempts[0] == Attempt(0, true, false, 5) &&
             t.attempts[1] == Attempt(1, true, false, 5)
    requires forall i :: 2 <= i < |t.attempts| ==> t.attempts[i] == Attempt(0, true, false, 5)
    ensures Pending(t) == t.notifications
  {
    hide Sort, Undelivered;
    forall id: nat | id < 2 ensures id !in DeliveredIds(t.attempts) && id in LastFailures(t.attempts) &&
        LastFailures(t.attempts)[id] == 5 {
      DeliveredIdsMeaning(t.attempts, id);
      LastFailuresMeaning(t.attempts, id);
      assert Fails(t.attempts[id], id);
    }
    PendingElements(t);
    SortedUnique(Pending(t), t.notifications, LastFailures(t.attempts));
  }

  // ---------------------------------------------------------------- delivered once

  datatype Event =
    | NotifyEvent(createdAt: int)
    | OtherAttemptEvent(attempt: Attempt)
    | CallEvent(webhook: Webhook, now: int, maxAttempts: int)

  function Step(t: Tables, e: Event): Tables {
    match e
    case NotifyEvent(createdAt) => t.(notifications := t.notifications + [Notification(|t.notifications|, createdAt)])
    case OtherAttemptEvent(a) => if a.webhook then t else t.(attempts := t.attempts + [a])
    case CallEvent(webhook, now, maxAttempts) => AfterCall(t, webhook, now, maxAttempts)
  }

  function After(events: seq<Event>): Tables
    decreases |events|
  {
    if events == [] then Tables([], []) else Step(After(events[..|events| - 1]), events[|events| - 1])
  }

  ghost predicate IdsArePositions(t: Tables) {
    forall i :: 0 <= i < |t.notifications| ==> t.notifications[i].id == i
  }

  /** After a success nothing is sent for the notification. */
  ghost predicate SilentAfterSuccess(attempts: seq<Attempt>) {
    forall i, j :: 0 <= i < j < |attempts| && attempts[i].webhook && attempts[i].success && attempts[j].webhook ==>
      attempts[i].notificationId != attempts[j].notificationId
  }

  lemma CallKeepsSilence(t: Tables, webhook: Webhook, now: int, maxAttempts: int)
    requires IdsArePositions(t) && SilentAfterSuccess(t.attempts)
    ensures SilentAfterSuccess(AfterCall(t, webhook, now, maxAttempts).attempts)
  {
    hide Pending, DeliveredIds, BatchSize;
    var batch, past := Batch(t, webhook, maxAttempts), t.attempts;
    var all := AfterCall(t, webhook, now, maxAttempts).attempts;
    PendingElements(t);
    SortedDistinct(Pending(t), t.notifications, LastFailures(t.attempts));
    assert forall n :: n in batch ==> n in Pending(t);
    forall i, j | 0 <= i < j < |all| && all[i].webhook && all[i].success && all[j].webhook
      ensures all[i].notificationId != all[j].notificationId
    {
      if i < |past| && j >= |past| {
        assert all[j] == Row(batch[j - |past|], now, Accepts(webhook));
        DeliveredIdsMeaning(past, all[i].notificationId);
        assert Succeeds(past[i], all[i].notificationId);
        assert batch[j - |past|] in batch;
      }
    }
  }

  /** Over any run of notifications and calls, whatever the clock shows: once a webhook accepted a
      notification, it is never sent again, so each is delivered at most once. */
  lemma {:induction false} DeliveredOnce(events: seq<Event>)
    ensures SilentAfterSuccess(After(events).attempts) && IdsArePositions(After(events))
    decreases |events|
  {
    if events != [] {
      var t := After(events[..|events| - 1]);
      DeliveredOnce(events[..|events| - 1]);
      match events[|events| - 1]
      case CallEvent(webhook, now, maxAttempts) => CallKeepsSilence(t, webhook, now, maxAttempts);
      case NotifyEvent(_) =>
      case OtherAttemptEvent(_) =>
    }
  }
}
