// Delivery while new notifications arrive. Those that were never attempted go first, so they can hold
// back the ones that failed: exactly when a pending notification has its turn.
module DeliveryArrivals {
  import opened NotificationDelivery
  import opened Options

  /** Notifications created at some times, then one call. */
  datatype Round = Round(arrivals: seq<int>, call: Call)

  function WithNew(t: Tables, times: seq<int>): Tables
    decreases |times|
  {
    if times == [] then t
    else
      var before := WithNew(t, times[..|times| - 1]);
      before.(notifications := before.notifications + [Notification(|before.notifications|, times[|times| - 1])])
  }

  function AfterRound(t: Tables, round: Round, maxAttempts: int): Tables {
    AfterCall(WithNew(t, round.arrivals), round.call.webhook, round.call.now, maxAttempts)
  }

  function AfterRounds(t: Tables, rounds: seq<Round>, maxAttempts: int): Tables
    decreases |rounds|
  {
    if rounds == [] then t else AfterRounds(AfterRound(t, rounds[0], maxAttempts), rounds[1..], maxAttempts)
  }

  ghost predicate WellFormed(t: Tables) {
    && IdsArePositions(t)
    && forall a :: a in t.attempts ==> a.notificationId < |t.notifications|
  }

  /** A notification that arrives goes before a failed one, and before one never tried if it is older. */
  predicate Overtakes(time: int, n: Notification, failed: bool) {
    failed || time < n.createdAt
  }

  function Overtaking(times: seq<int>, n: Notification, failed: bool): nat
    decreases |times|
  {
    if times == [] then 0
    else
      Overtaking(times[..|times| - 1], n, failed) + if Overtakes(times[|times| - 1], n, failed) then 1 else 0
  }

  function TotalOvertaking(rounds: seq<Round>, n: Notification, failed: bool): nat
    decreases |rounds|
  {
    if rounds == [] then 0
    else Overtaking(rounds[0].arrivals, n, failed) + TotalOvertaking(rounds[1..], n, failed)
  }

  // ---------------------------------------------------------------- one arrival

  lemma {:induction false} InsertKeepsPlace(x: Notification, s: seq<Notification>, last: map<nat, int>, p: nat)
    requires p < |s| && Sorted(s, last) && s[p].id != x.id
    ensures var q := if Precedes(x, s[p], last) then p + 1 else p;
            q < |Insert(x, s, last)| && Insert(x, s, last)[q] == s[p]
    decreases |s|
  {
    hide Precedes;
    ComparatorIsTotal(x, s[0], s[p], last);
    ComparatorIsTotal(s[0], s[p], x, last);
    ComparatorIsTotal(s[p], x, x, last);
    if Precedes(s[0], x, last) {
      if p > 0 {
        InsertKeepsPlace(x, s[1..], last, p - 1);
      }
    }
  }

  lemma UnknownId(t: Tables, id: nat)
    requires forall a :: a in t.attempts ==> a.notificationId != id
    ensures id !in DeliveredIds(t.attempts) && id !in LastFailures(t.attempts)
  {
    DeliveredIdsMeaning(t.attempts, id);
    LastFailuresMeaning(t.attempts, id);
  }

  lemma WithOneMore(t: Tables, x: Notification)
    requires WellFormed(t) && x.id == |t.notifications|
    ensures var next := t.(notifications := t.notifications + [x]);
            WellFormed(next) && Pending(next) == Insert(x, Pending(t), LastFailures(t.attempts))
  {
    hide Pending, Insert, Sorted, LastFailures, DeliveredIds;
    var next, last := t.(notifications := t.notifications + [x]), LastFailures(t.attempts);
    UnknownId(t, x.id);
    PendingElements(t);
    PendingElements(next);
    forall y | y in Pending(t) ensures y.id != x.id {
      assert y in t.notifications;
    }
    InsertSorted(x, Pending(t), last);
    SortedUnique(Pending(next), Insert(x, Pending(t), last), last);
  }

  lemma ArrivalPrecedes(x: Notification, n: Notification, last: map<nat, int>)
    requires x.id !in last && n.id < x.id
    ensures Precedes(x, n, last) <==> Overtakes(x.createdAt, n, n.id in last)
  {
  }

  /** An arrival moves a pending notification back by one exactly if it overtakes it. */
  lemma OneArrives(t: Tables, x: Notification, p: nat)
    requires WellFormed(t) && x.id == |t.notifications| && p < |Pending(t)|
    ensures var n, next := Pending(t)[p], t.(notifications := t.notifications + [x]);
            var q := p + if Overtakes(x.createdAt, n, n.id in LastFailures(t.attempts)) then 1 else 0;
            WellFormed(next) && q < |Pending(next)| && Pending(next)[q] == n
  {
    hide Pending, Insert, LastFailures, DeliveredIds, Overtakes, Precedes;
    var n, last := Pending(t)[p], LastFailures(t.attempts);
    PendingElements(t);
    UnknownId(t, x.id);
    assert n in t.notifications;
    ArrivalPrecedes(x, n, last);
    InsertKeepsPlace(x, Pending(t), last, p);
    WithOneMore(t, x);
  }

  lemma {:induction false} ArrivalsMoveBack(t: Tables, times: seq<int>, p: nat)
    requires WellFormed(t) && p < |Pending(t)|
    ensures var n, next := Pending(t)[p], WithNew(t, times);
            var q := p + Overtaking(times, n, n.id in LastFailures(t.attempts));
            WellFormed(next) && next.attempts == t.attempts && q < |Pending(next)| && Pending(next)[q] == n
    decreases |times|
  {
    hide Pending, LastFailures, WellFormed;
    if times != [] {
      var prior, time := times[..|times| - 1], times[|times| - 1];
      ArrivalsMoveBack(t, prior, p);
      var before, n := WithNew(t, prior), Pending(t)[p];
      OneArrives(before, Notification(|before.notifications|, time),
                 p + Overtaking(prior, n, n.id in LastFailures(t.attempts)));
    }
  }

  // ---------------------------------------------------------------- one call

  lemma WellFormedIsDistinct(t: Tables)
    requires WellFormed(t)
    ensures DistinctIds(t.notifications)
  {
  }

  lemma CallKeepsForm(t: Tables, call: Call, maxAttempts: int)
    requires WellFormed(t)
    ensures WellFormed(AfterCall(t, call.webhook, call.now, maxAttempts))
  {
    hide Pending;
    var batch, next := Batch(t, call.webhook, maxAttempts), AfterCall(t, call.webhook, call.now, maxAttempts);
    WellFormedIsDistinct(t);
    PendingElements(t);
    forall a | a in next.attempts ensures a.notificationId < |t.notifications| {
      if a !in t.attempts {
        var i :| 0 <= i < |batch| && a == Row(batch[i], call.now, Accepts(call.webhook));
        assert batch[i] in Pending(t);
      }
    }
  }

  /** A call tries the notification at position p exactly if that is below its cap; else it moves the
      notification forward by the cap, and leaves it failed or never tried as it was. */
  lemma CallMovesForward(t: Tables, call: Call, maxAttempts: int, p: nat)
    requires WellFormed(t) && Before(t, call.now) && !call.webhook.Missing? && maxAttempts >= 1 && p < |Pending(t)|
    ensures var n, next := Pending(t)[p], AfterCall(t, call.webhook, call.now, maxAttempts);
            (TriedBetween(t, next, n.id) <==> p < maxAttempts) &&
            (p >= maxAttempts ==>
               p - maxAttempts < |Pending(next)| && Pending(next)[p - maxAttempts] == n &&
               (n.id in LastFailures(next.attempts) <==> n.id in LastFailures(t.attempts)))
  {
    hide Pending, LastFailures, DeliveredIds, Sort, Before, WellFormed;
    var n, next := Pending(t)[p], AfterCall(t, call.webhook, call.now, maxAttempts);
    if p < maxAttempts {
      CallTriesTheFront(t, call.webhook, call.now, maxAttempts, p);
    } else {
      WellFormedIsDistinct(t);
      LaterCallRotatesQueue(t, call.webhook, call.now, maxAttempts);
      var batch := Batch(t, call.webhook, maxAttempts);
      NotInTheFront(t, maxAttempts, p);
      AttemptsAfterRows(t.attempts, batch, call.now, Accepts(call.webhook), n.id);
      RowsTryTheBatch(t, call, maxAttempts, n.id);
    }
  }

  lemma NotInTheFront(t: Tables, m: nat, p: nat)
    requires DistinctIds(t.notifications) && m <= p < |Pending(t)|
    ensures !InBatch(Pending(t)[..m], Pending(t)[p].id)
  {
    hide Pending, LastFailures, DeliveredIds;
    PendingElements(t);
    SortedDistinct(Pending(t), t.notifications, LastFailures(t.attempts));
  }

  lemma RowsTryTheBatch(t: Tables, call: Call, maxAttempts: int, id: nat)
    ensures TriedBetween(t, AfterCall(t, call.webhook, call.now, maxAttempts), id) ==>
              InBatch(Batch(t, call.webhook, maxAttempts), id)
  {
    hide Pending;
    var batch, next := Batch(t, call.webhook, maxAttempts), AfterCall(t, call.webhook, call.now, maxAttempts);
    if TriedBetween(t, next, id) {
      var k :| |t.attempts| <= k < |next.attempts| && next.attempts[k].notificationId == id;
      assert next.attempts[k] == Row(batch[k - |t.attempts|], call.now, Accepts(call.webhook));
      assert batch[k - |t.attempts|] in batch;
    }
  }

  // ---------------------------------------------------------------- rounds

  /** The calls come later and later, all after the failed attempts so far. */
  ghost predicate LaterCalls(t: Tables, rounds: seq<Round>) {
    && (forall i :: 0 <= i < |rounds| ==> Before(t, rounds[i].call.now) && !rounds[i].call.webhook.Missing?)
    && (forall i, j :: 0 <= i < j < |rounds| ==> rounds[i].call.now < rounds[j].call.now)
  }

  lemma {:induction false} NewKeepsAttempts(t: Tables, times: seq<int>)
    ensures WithNew(t, times).attempts == t.attempts
    decreases |times|
  {
    if times != [] {
      NewKeepsAttempts(t, times[..|times| - 1]);
    }
  }

  lemma LaterRounds(t: Tables, rounds: seq<Round>, maxAttempts: int)
    requires rounds != [] && LaterCalls(t, rounds)
    ensures Before(WithNew(t, rounds[0].arrivals), rounds[0].call.now)
    ensures LaterCalls(AfterRound(t, rounds[0], maxAttempts), rounds[1..])
  {
    hide Batch;
    NewKeepsAttempts(t, rounds[0].arrivals);
  }

  lemma {:induction false} RoundsAppend(t: Tables, rounds: seq<Round>, maxAttempts: int)
    ensures t.attempts <= AfterRounds(t, rounds, maxAttempts).attempts
    decreases |rounds|
  {
    if rounds != [] {
      NewKeepsAttempts(t, rounds[0].arrivals);
      RoundsAppend(AfterRound(t, rounds[0], maxAttempts), rounds[1..], maxAttempts);
    }
  }

  /** After k rounds of arrivals and k - 1 calls the notification is within the next call's reach. */
  predicate TurnAt(rounds: seq<Round>, n: Notification, failed: bool, p: int, maxAttempts: int, k: nat)
    requires k <= |rounds|
  {
    p + TotalOvertaking(rounds[..k], n, failed) < k * maxAttempts
  }

  /** In one of the rounds, counted from 1, the notification has its turn. */
  ghost predicate HasTurn(rounds: seq<Round>, n: Notification, failed: bool, p: int, maxAttempts: int) {
    exists k :: 0 < k <= |rounds| && TurnAt(rounds, n, failed, p, maxAttempts, k)
  }

  lemma NextTurnAt(rounds: seq<Round>, n: Notification, failed: bool, p: int, maxAttempts: int, k: nat)
    requires k < |rounds|
    ensures var q := p + Overtaking(rounds[0].arrivals, n, failed);
            TurnAt(rounds, n, failed, p, maxAttempts, k + 1) <==>
              TurnAt(rounds[1..], n, failed, q - maxAttempts, maxAttempts, k)
  {
    hide Overtaking;
    assert rounds[..k + 1][1..] == rounds[1..][..k];
    OneLess(k + 1, maxAttempts);
  }

  lemma NoRoundTurn(rounds: seq<Round>, n: Notification, failed: bool, p: int, maxAttempts: int)
    ensures TurnAt(rounds, n, failed, p, maxAttempts, 0) <==> p < 0
  {
  }

  lemma TurnAfterRound(rounds: seq<Round>, n: Notification, failed: bool, p: int, maxAttempts: int)
    requires rounds != []
    ensures var q := p + Overtaking(rounds[0].arrivals, n, failed);
            HasTurn(rounds, n, failed, p, maxAttempts) <==>
              q < maxAttempts || HasTurn(rounds[1..], n, failed, q - maxAttempts, maxAttempts)
  {
    hide TurnAt, Overtaking;
    var q, rest := p + Overtaking(rounds[0].arrivals, n, failed), rounds[1..];
    NoRoundTurn(rest, n, failed, q - maxAttempts, maxAttempts);
    NextTurnAt(rounds, n, failed, p, maxAttempts, 0);
    if HasTurn(rounds, n, failed, p, maxAttempts) && q >= maxAttempts {
      var k: nat :| 0 < k <= |rounds| && TurnAt(rounds, n, failed, p, maxAttempts, k);
      NextTurnAt(rounds, n, failed, p, maxAttempts, k - 1);
    }
    if HasTurn(rest, n, failed, q - maxAttempts, maxAttempts) {
      var k: nat :| 0 < k <= |rest| && TurnAt(rest, n, failed, q - maxAttempts, maxAttempts, k);
      NextTurnAt(rounds, n, failed, p, maxAttempts, k);
    }
  }

  lemma OneLess(k: int, m: int)
    ensures (k - 1) * m == k * m - m
  {
  }

  /** While new notifications arrive, the one at position p of the queue is tried exactly if in some
      round k it and all that overtook it by then are fewer than k times the cap. */
  lemma {:induction false} TriedAmongArrivals(t: Tables, rounds: seq<Round>, maxAttempts: int, p: nat)
    requires WellFormed(t) && LaterCalls(t, rounds) && maxAttempts >= 1 && p < |Pending(t)|
    ensures var n := Pending(t)[p];
            TriedBetween(t, AfterRounds(t, rounds, maxAttempts), n.id)
            <==> HasTurn(rounds, n, n.id in LastFailures(t.attempts), p, maxAttempts)
    decreases |rounds|
  {
    hide Pending, LastFailures, WellFormed, LaterCalls, HasTurn, WithNew, AfterCall, TriedBetween;
    if rounds == [] {
      NoRounds(t, Pending(t)[p], p, maxAttempts);
    } else {
      var n, round := Pending(t)[p], rounds[0];
      var failed := n.id in LastFailures(t.attempts);
      var added, next := WithNew(t, round.arrivals), AfterRound(t, round, maxAttempts);
      var q := p + Overtaking(round.arrivals, n, failed);
      LaterRounds(t, rounds, maxAttempts);
      FirstIsLater(t, rounds);
      ArrivalsMoveBack(t, round.arrivals, p);
      CallMovesForward(added, round.call, maxAttempts, q);
      CallKeepsForm(added, round.call, maxAttempts);
      TurnAfterRound(rounds, n, failed, p, maxAttempts);
      RoundIsTried(t, added, rounds, maxAttempts, n.id);
      if q >= maxAttempts {
        TriedAmongArrivals(next, rounds[1..], maxAttempts, q - maxAttempts);
      }
    }
  }

  lemma FirstIsLater(t: Tables, rounds: seq<Round>)
    requires rounds != [] && LaterCalls(t, rounds)
    ensures !rounds[0].call.webhook.Missing?
  {
  }

  lemma NoRounds(t: Tables, n: Notification, p: int, maxAttempts: int)
    ensures !TriedBetween(t, AfterRounds(t, [], maxAttempts), n.id)
    ensures forall failed :: !HasTurn([], n, failed, p, maxAttempts)
  {
  }

  lemma RoundIsTried(t: Tables, added: Tables, rounds: seq<Round>, maxAttempts: int, id: nat)
    requires rounds != [] && added == WithNew(t, rounds[0].arrivals)
    ensures var next := AfterRound(t, rounds[0], maxAttempts);
            TriedBetween(t, AfterRounds(t, rounds, maxAttempts), id) <==>
              TriedBetween(added, next, id) || TriedBetween(next, AfterRounds(next, rounds[1..], maxAttempts), id)
  {
    hide WithNew, Batch;
    var next := AfterRound(t, rounds[0], maxAttempts);
    NewKeepsAttempts(t, rounds[0].arrivals);
    RoundsAppend(next, rounds[1..], maxAttempts);
    TriedEarlierOrLater(t, next, AfterRounds(t, rounds, maxAttempts), id);
  }
}
