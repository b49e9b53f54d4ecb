// Which user messages of a log are workflow steps, and how they are numbered and labelled, read off the
// log itself: from its workflow entries, its step markers and the user messages between them.
module WorkflowMeaning {
  import opened ChatEvents
  import opened Options
  import opened SessionLog
  import opened Texts
  import opened WorkflowSteps

  // ---------------------------------------------------------------- what the log says

  predicate IsMarker(e: Entry) {
    e.AnalystStepEntry? || e.ValidationEntry?
  }

  /** Validation ends a workflow, after it has labelled a step. */
  predicate IsEnd(e: Entry) {
    e.ValidationEntry? || e.WorkflowEndEntry?
  }

  /** Nothing from entry a on, in front of entry b, begins or ends a workflow. */
  ghost predicate IsQuiet(entries: seq<Entry>, a: int, b: int) {
    0 <= a && b <= |entries| && forall k :: a <= k < b ==> !entries[k].WorkflowEntry? && !IsEnd(entries[k])
  }

  /** The workflow that entry w begins is going on in front of entry n. */
  ghost predicate GoesOn(entries: seq<Entry>, w: int, n: int) {
    0 <= w < n <= |entries| && entries[w].WorkflowEntry? && IsQuiet(entries, w + 1, n)
  }

  ghost predicate IsStepOf(entries: seq<Entry>, w: int, m: int) {
    0 <= m < |entries| && entries[m].UserEntry? && GoesOn(entries, w, m)
  }

  /** How many steps the workflow has in front of entry n. */
  ghost function StepsBefore(entries: seq<Entry>, w: int, n: nat): nat {
    if n == 0 then 0 else StepsBefore(entries, w, n - 1) + if IsStepOf(entries, w, n - 1) then 1 else 0
  }

  /** User messages from entry a on, in front of entry b, less the markers there. */
  function Balance(entries: seq<Entry>, a: nat, b: nat): int
    requires a <= b <= |entries|
    decreases b - a
  {
    if a == b then 0
    else
      Balance(entries, a, b - 1) +
      if entries[b - 1].UserEntry? then 1 else if IsMarker(entries[b - 1]) then -1 else 0
  }

  /** From entry a on no marker is left over. */
  ghost predicate NeverNegative(entries: seq<Entry>, a: nat, n: nat)
    requires n <= |entries|
  {
    forall k :: a <= k <= n ==> Balance(entries, a, k) >= 0
  }

  /** Marker q is the one of step m: between them each later step has found a marker of its own, and no
      marker was left over. */
  ghost predicate Matches(entries: seq<Entry>, m: nat, q: int) {
    && m < q < |entries| && IsMarker(entries[q]) && IsQuiet(entries, m + 1, q)
    && Balance(entries, m + 1, q) == 0 && NeverNegative(entries, m + 1, q)
  }

  function MarkerStage(e: Entry): string
    requires IsMarker(e)
  {
    if e.ValidationEntry? then "validation" else if Blank(e.stage) then "analysis" else Trim(e.stage)
  }

  function MarkerCaption(e: Entry): string
    requires IsMarker(e)
  {
    if e.ValidationEntry? then "Validation and synthesis" else e.caption
  }

  /** A marker with the user's own words that does not stand directly behind a user message comes before
      message m, with no other user message and no end of a workflow in between. */
  ghost predicate HasOwnWords(entries: seq<Entry>, m: int) {
    exists i :: LeavesWords(entries, i, m)
  }

  ghost predicate LeavesWords(entries: seq<Entry>, i: int, m: int) {
    && 0 <= i < m <= |entries| && entries[i].UserInputEntry? && !(i > 0 && entries[i - 1].UserEntry?)
    && forall j :: i < j < m ==> !entries[j].UserEntry? && !IsEnd(entries[j])
  }

  // ---------------------------------------------------------------- matching markers

  lemma {:induction false} BalanceSplit(entries: seq<Entry>, a: nat, b: nat, c: nat)
    requires a <= b <= c <= |entries|
    ensures Balance(entries, a, c) == Balance(entries, a, b) + Balance(entries, b, c)
    decreases c
  {
    if b < c {
      BalanceSplit(entries, a, b, c - 1);
    }
  }

  /** The marker of step m in front of entry n. */
  ghost function MarkerOf(entries: seq<Entry>, m: nat, n: nat): (q: Option<nat>)
    requires n <= |entries|
    ensures q.Some? ==> q.value < n && Matches(entries, m, q.value)
  {
    if n == 0 then None
    else
      var before := MarkerOf(entries, m, n - 1);
      if before.Some? then before else if Matches(entries, m, n - 1) then Some(n - 1) else None
  }

  /** A step has no marker yet exactly if there never was a marker left over for it. */
  lemma {:induction false} OpenMeaning(entries: seq<Entry>, m: nat, n: nat)
    requires n <= |entries| && m < |entries| && (m < n ==> IsQuiet(entries, m + 1, n))
    ensures MarkerOf(entries, m, n).None? <==> NeverNegative(entries, m + 1, n)
    decreases n
  {
    if m + 1 < n {
      OpenMeaning(entries, m, n - 1);
      var a := m + 1;
      assert NeverNegative(entries, a, n) <==> NeverNegative(entries, a, n - 1) && Balance(entries, a, n) >= 0;
      if NeverNegative(entries, a, n - 1) {
        assert Matches(entries, m, n - 1)
          <==> IsMarker(entries[n - 1]) && Balance(entries, m + 1, n - 1) == 0;
      }
    } else if n > 0 {
      NoMarkerBefore(entries, m, n);
    }
  }

  lemma {:induction false} NoMarkerBefore(entries: seq<Entry>, m: nat, n: nat)
    requires n <= |entries| && n <= m + 1
    ensures MarkerOf(entries, m, n).None?
    decreases n
  {
    if n > 0 {
      NoMarkerBefore(entries, m, n - 1);
    }
  }

  /** Where every step from a on has its marker, no user message is left over. */
  lemma {:induction false} AllClosed(entries: seq<Entry>, a: nat, n: nat)
    requires a <= n <= |entries| && IsQuiet(entries, a, n)
    requires forall k :: a <= k < n && entries[k].UserEntry? ==> MarkerOf(entries, k, n).Some?
    ensures forall k :: a <= k <= n ==> Balance(entries, k, n) <= 0
    decreases n - a
  {
    if a < n {
      AllClosed(entries, a + 1, n);
      BalanceSplit(entries, a, a + 1, n);
      assert Balance(entries, a, a + 1) == Balance(entries, a, a)
          + if entries[a].UserEntry? then 1 else if IsMarker(entries[a]) then -1 else 0;
      if entries[a].UserEntry? && Balance(entries, a + 1, n) == 0 {
        var next := a + 1;
        forall k | next <= k <= n ensures Balance(entries, next, k) >= 0 {
          BalanceSplit(entries, next, k, n);
        }
        OpenMeaning(entries, a, n);
        assert false;
      }
    }
  }

  ghost predicate LaterAreClosed(entries: seq<Entry>, m: nat, n: nat)
    requires n <= |entries|
  {
    forall k :: m < k < n && entries[k].UserEntry? ==> MarkerOf(entries, k, n).Some?
  }

  /** A marker is for the latest step that has none. */
  lemma MarkerIsForLatest(entries: seq<Entry>, m: nat, n: nat)
    requires m < n < |entries| && IsQuiet(entries, m + 1, n) && IsMarker(entries[n]) && entries[m].UserEntry?
    ensures Matches(entries, m, n) <==> MarkerOf(entries, m, n).None? && LaterAreClosed(entries, m, n)
  {
    OpenMeaning(entries, m, n);
    if MarkerOf(entries, m, n).None? && LaterAreClosed(entries, m, n) {
      AllClosed(entries, m + 1, n);
    }
    if Matches(entries, m, n) {
      forall k | m < k < n && entries[k].UserEntry? ensures MarkerOf(entries, k, n).Some? {
        BalanceSplit(entries, m + 1, k, n);
        BalanceSplit(entries, k, k + 1, n);
        assert Balance(entries, k, k + 1) == Balance(entries, k, k) + 1;
        assert Balance(entries, k + 1, n) < 0;
        OpenMeaning(entries, k, n);
      }
    }
  }

  // ---------------------------------------------------------------- the groups of the loop

  /** User message m as the log in front of entry n tells it. */
  ghost function CandidateOf(entries: seq<Entry>, m: nat, n: nat): Candidate
    requires m < |entries| && n <= |entries|
  {
    var q := MarkerOf(entries, m, n);
    Candidate(entries[m].id, if q.Some? then Some(MarkerStage(entries[q.value])) else None,
              if q.Some? then Some(MarkerCaption(entries[q.value])) else None, HasOwnWords(entries, m))
  }

  /** The steps of workflow w in front of entry k. */
  ghost function GroupOf(entries: seq<Entry>, w: int, k: nat, n: nat): seq<Candidate>
    requires k <= |entries| && n <= |entries|
  {
    if k == 0 then []
    else
      GroupOf(entries, w, k - 1, n) + if IsStepOf(entries, w, k - 1) then [CandidateOf(entries, k - 1, n)] else []
  }

  /** The workflows that begin in front of entry k. */
  ghost function Groups(entries: seq<Entry>, k: nat, n: nat): seq<seq<Candidate>>
    requires k <= |entries| && n <= |entries|
  {
    if k == 0 then []
    else
      Groups(entries, k - 1, n) + if entries[k - 1].WorkflowEntry? then [GroupOf(entries, k - 1, n, n)] else []
  }

  ghost predicate AnyGoesOn(entries: seq<Entry>, n: nat) {
    exists w :: GoesOn(entries, w, n)
  }

  lemma GoesOnStep(entries: seq<Entry>, w: int, n: nat)
    requires n < |entries|
    ensures GoesOn(entries, w, n + 1)
            <==> if entries[n].WorkflowEntry? then w == n else GoesOn(entries, w, n) && !IsEnd(entries[n])
  {
    if GoesOn(entries, w, n + 1) && w < n {
      assert !entries[n].WorkflowEntry? && !IsEnd(entries[n]);
    }
  }

  lemma AnyGoesOnStep(entries: seq<Entry>, n: nat)
    requires n < |entries|
    ensures AnyGoesOn(entries, n + 1)
            <==> entries[n].WorkflowEntry? || (AnyGoesOn(entries, n) && !IsEnd(entries[n]))
  {
    hide GoesOn;
    if AnyGoesOn(entries, n) {
      var w :| GoesOn(entries, w, n);
      GoesOnStep(entries, w, n);
    }
    if AnyGoesOn(entries, n + 1) {
      var w :| GoesOn(entries, w, n + 1);
      GoesOnStep(entries, w, n);
    }
    GoesOnStep(entries, n, n);
  }

  lemma WordsStep(entries: seq<Entry>, n: nat)
    requires n < |entries|
    ensures HasOwnWords(entries, n + 1)
            <==> (entries[n].UserInputEntry? && !(n > 0 && entries[n - 1].UserEntry?)) ||
                 (!entries[n].UserInputEntry? && !entries[n].UserEntry? && !IsEnd(entries[n]) &&
                  HasOwnWords(entries, n))
  {
    assert LeavesWords(entries, n, n + 1)
      <==> entries[n].UserInputEntry? && !(n > 0 && entries[n - 1].UserEntry?);
    forall i | 0 <= i < n
      ensures LeavesWords(entries, i, n + 1)
              <==> LeavesWords(entries, i, n) && !entries[n].UserEntry? && !IsEnd(entries[n])
    {
    }
    if entries[n].UserInputEntry? && n > 0 && entries[n - 1].UserEntry? {
      assert forall i :: !LeavesWords(entries, i, n);
    }
    if HasOwnWords(entries, n + 1) {
      var i :| LeavesWords(entries, i, n + 1);
      assert i < n ==> LeavesWords(entries, i, n);
    }
    if HasOwnWords(entries, n) {
      var i :| LeavesWords(entries, i, n);
      assert LeavesWords(entries, i, n + 1) <==> !entries[n].UserEntry? && !IsEnd(entries[n]);
    }
  }

  /** A marker reaches only the steps of the workflow that is going on. */
  lemma MatchesGoesOn(entries: seq<Entry>, w: int, m: nat, n: nat)
    requires IsStepOf(entries, w, m) && Matches(entries, m, n)
    ensures GoesOn(entries, w, n)
  {
    hide Balance, NeverNegative;
  }

  lemma {:induction false} GroupKept(entries: seq<Entry>, w: int, k: nat, n: nat)
    requires k <= n < |entries| && forall m :: 0 <= m < k && IsStepOf(entries, w, m) ==> !Matches(entries, m, n)
    ensures GroupOf(entries, w, k, n + 1) == GroupOf(entries, w, k, n)
    decreases k
  {
    hide IsStepOf, Matches, HasOwnWords;
    if k > 0 {
      GroupKept(entries, w, k - 1, n);
    }
  }

  /** Other workflows keep their steps as they are. */
  lemma OtherGroupKept(entries: seq<Entry>, w: int, n: nat)
    requires n < |entries| && (!GoesOn(entries, w, n) || (!IsMarker(entries[n]) && !entries[n].UserEntry?))
    ensures GroupOf(entries, w, n + 1, n + 1) == GroupOf(entries, w, n, n)
  {
    forall m: nat | m < n && IsStepOf(entries, w, m) ensures !Matches(entries, m, n) {
      if Matches(entries, m, n) {
        MatchesGoesOn(entries, w, m, n);
      }
    }
    hide Matches, GoesOn;
    GroupKept(entries, w, n, n);
  }

  /** A user message is one more step of the workflow that is going on. */
  lemma UserJoins(entries: seq<Entry>, w: int, n: nat)
    requires n < |entries| && GoesOn(entries, w, n) && entries[n].UserEntry?
    ensures GroupOf(entries, w, n + 1, n + 1)
            == GroupOf(entries, w, n, n) + [Candidate(entries[n].id, None, None, HasOwnWords(entries, n))]
  {
    hide GoesOn, HasOwnWords;
    NoMarkerBefore(entries, n, n + 1);
    GroupKept(entries, w, n, n);
  }

  lemma QuietWithin(entries: seq<Entry>, w: int, m: nat, n: nat)
    requires GoesOn(entries, w, n) && IsStepOf(entries, w, m) && m < n
    ensures IsQuiet(entries, m + 1, n)
  {
  }

  ghost predicate AllLabelled(entries: seq<Entry>, k: nat, n: nat)
    requires n <= |entries|
  {
    forall m :: k <= m < n && entries[m].UserEntry? ==> MarkerOf(entries, m, n).Some?
  }

  lemma {:induction false} NoStepsYet(entries: seq<Entry>, w: nat, k: nat, n: nat)
    requires k <= |entries| && n <= |entries| && k <= w + 1
    ensures GroupOf(entries, w, k, n) == []
    decreases k
  {
    if k > 0 {
      NoStepsYet(entries, w, k - 1, n);
    }
  }

  /** What the marker does to one step. */
  lemma LabelsOne(entries: seq<Entry>, w: int, m: nat, n: nat)
    requires m < n < |entries| && GoesOn(entries, w, n) && IsMarker(entries[n]) && IsStepOf(entries, w, m)
    ensures var before, after := CandidateOf(entries, m, n), CandidateOf(entries, m, n + 1);
            after == if before.stage == None && AllLabelled(entries, m + 1, n)
                     then before.(stage := Some(MarkerStage(entries[n])), caption := Some(MarkerCaption(entries[n])))
                     else before
  {
    hide HasOwnWords, MarkerStage, MarkerCaption;
    QuietWithin(entries, w, m, n);
    MarkerIsForLatest(entries, m, n);
    hide Matches, GoesOn, IsQuiet;
  }

  lemma AssignLast(prior: seq<Candidate>, last: Candidate, stage: string, caption: string)
    ensures Assign(prior + [last], stage, caption)
            == if last.stage == None then prior + [last.(stage := Some(stage), caption := Some(caption))]
               else Assign(prior, stage, caption) + [last]
  {
    assert (prior + [last])[..|prior|] == prior;
  }

  lemma AllLabelledStep(entries: seq<Entry>, m: nat, n: nat)
    requires m < n <= |entries|
    ensures AllLabelled(entries, m, n)
            <==> AllLabelled(entries, m + 1, n) && (entries[m].UserEntry? ==> MarkerOf(entries, m, n).Some?)
  {
  }

  /** A marker labels the latest step of the workflow that has no label. */
  lemma {:induction false} MarkerLabels(entries: seq<Entry>, w: nat, k: nat, n: nat)
    requires k <= n < |entries| && GoesOn(entries, w, n) && IsMarker(entries[n])
    ensures GroupOf(entries, w, k, n + 1)
            == if AllLabelled(entries, k, n)
               then Assign(GroupOf(entries, w, k, n), MarkerStage(entries[n]), MarkerCaption(entries[n]))
               else GroupOf(entries, w, k, n)
    decreases k
  {
    hide GoesOn, IsStepOf, IsMarker, MarkerStage, MarkerCaption, AllLabelled, Assign;
    if k <= w {
      NoStepsYet(entries, w, k, n);
      NoStepsYet(entries, w, k, n + 1);
      AssignNothing(MarkerStage(entries[n]), MarkerCaption(entries[n]));
    } else {
      var m := k - 1;
      MarkerLabels(entries, w, m, n);
      AllLabelledStep(entries, m, n);
      if IsStepOf(entries, w, m) {
        LabelsOne(entries, w, m, n);
        StepIsUser(entries, w, m);
        OneMoreStep(entries, w, m, n);
        OneMoreStep(entries, w, m, n + 1);
        AssignLast(GroupOf(entries, w, m, n), CandidateOf(entries, m, n), MarkerStage(entries[n]),
                   MarkerCaption(entries[n]));
      } else {
        NoStepBetween(entries, w, m, n);
        NoMoreStep(entries, w, m, n);
        NoMoreStep(entries, w, m, n + 1);
      }
    }
  }

  lemma NoMoreStep(entries: seq<Entry>, w: int, m: nat, n: nat)
    requires m < |entries| && n <= |entries| && !IsStepOf(entries, w, m)
    ensures GroupOf(entries, w, m + 1, n) == GroupOf(entries, w, m, n)
  {
  }

  lemma OneMoreStep(entries: seq<Entry>, w: int, m: nat, n: nat)
    requires m < |entries| && n <= |entries| && IsStepOf(entries, w, m)
    ensures GroupOf(entries, w, m + 1, n) == GroupOf(entries, w, m, n) + [CandidateOf(entries, m, n)]
    ensures CandidateOf(entries, m, n).stage.None? <==> MarkerOf(entries, m, n).None?
  {
  }

  lemma StepIsUser(entries: seq<Entry>, w: int, m: nat)
    requires IsStepOf(entries, w, m)
    ensures m < |entries| && entries[m].UserEntry?
  {
  }

  lemma AssignNothing(stage: string, caption: string)
    ensures Assign([], stage, caption) == []
  {
  }

  /** What lies in a workflow and is no step is no user message, or lies before its beginning. */
  lemma NoStepBetween(entries: seq<Entry>, w: int, m: nat, n: nat)
    requires GoesOn(entries, w, n) && m < n && !IsStepOf(entries, w, m)
    ensures entries[m].UserEntry? ==> m < w
  {
  }

  // ---------------------------------------------------------------- the loop

  /** What the loop knows in front of entry n. */
  ghost predicate IsTold(g: Grouping, entries: seq<Entry>, n: nat)
    requires n <= |entries|
  {
    && g.groups == Groups(entries, n, n) && (g.active <==> AnyGoesOn(entries, n))
    && (g.pendingOriginalInput <==> HasOwnWords(entries, n))
  }

  /** Only the group of the workflow that is going on can change, and it is the last. */
  lemma {:induction false} GroupsKept(entries: seq<Entry>, k: nat, n: nat)
    requires k <= n < |entries|
    requires forall w :: 0 <= w < k && entries[w].WorkflowEntry? ==>
               GroupOf(entries, w, n + 1, n + 1) == GroupOf(entries, w, n, n)
    ensures Groups(entries, k, n + 1) == Groups(entries, k, n)
    decreases k
  {
    if k > 0 {
      GroupsKept(entries, k - 1, n);
    }
  }

  lemma {:induction false} NoGroupsBetween(entries: seq<Entry>, w: nat, k: nat, n: nat)
    requires w < k <= n <= |entries| && GoesOn(entries, w, k)
    ensures Groups(entries, k, n) == Groups(entries, w, n) + [GroupOf(entries, w, n, n)]
    decreases k
  {
    if w + 1 < k {
      NoGroupsBetween(entries, w, k - 1, n);
    }
  }

  lemma OnlyOneGoesOn(entries: seq<Entry>, w: int, v: int, n: nat)
    requires GoesOn(entries, w, n) && GoesOn(entries, v, n)
    ensures v == w
  {
  }

  /** What an entry does to the groups when no workflow is going on. */
  lemma NothingGoesOn(entries: seq<Entry>, n: nat)
    requires n < |entries| && !AnyGoesOn(entries, n) && !entries[n].WorkflowEntry?
    ensures Groups(entries, n + 1, n + 1) == Groups(entries, n, n)
  {
    forall w | 0 <= w < n ensures GroupOf(entries, w, n + 1, n + 1) == GroupOf(entries, w, n, n) {
      assert !GoesOn(entries, w, n);
      OtherGroupKept(entries, w, n);
    }
    GroupsKept(entries, n, n);
  }

  lemma QuietEntry(entries: seq<Entry>, n: nat)
    requires n < |entries| && !entries[n].WorkflowEntry? && !entries[n].UserEntry? && !IsMarker(entries[n])
    ensures Groups(entries, n + 1, n + 1) == Groups(entries, n, n)
  {
    forall w | 0 <= w < n ensures GroupOf(entries, w, n + 1, n + 1) == GroupOf(entries, w, n, n) {
      OtherGroupKept(entries, w, n);
    }
    GroupsKept(entries, n, n);
  }

  lemma WorkflowBegins(entries: seq<Entry>, n: nat)
    requires n < |entries| && entries[n].WorkflowEntry?
    ensures Groups(entries, n + 1, n + 1) == Groups(entries, n, n) + [[]]
  {
    forall w | 0 <= w < n ensures GroupOf(entries, w, n + 1, n + 1) == GroupOf(entries, w, n, n) {
      OtherGroupKept(entries, w, n);
    }
    GroupsKept(entries, n, n);
    NoStepsYet(entries, n, n + 1, n + 1);
  }

  /** All groups but the last stay as they are. */
  lemma LastGroupChanges(entries: seq<Entry>, w: nat, n: nat)
    requires w < n < |entries| && GoesOn(entries, w, n) && !entries[n].WorkflowEntry?
    ensures Groups(entries, n, n) == Groups(entries, w, n) + [GroupOf(entries, w, n, n)]
    ensures Groups(entries, n + 1, n + 1) == Groups(entries, w, n) + [GroupOf(entries, w, n + 1, n + 1)]
  {
    forall v | 0 <= v < w ensures GroupOf(entries, v, n + 1, n + 1) == GroupOf(entries, v, n, n) {
      assert !GoesOn(entries, v, n);
      OtherGroupKept(entries, v, n);
    }
    GroupsKept(entries, w, n);
    NoGroupsBetween(entries, w, n, n);
    NoGroupsBetween(entries, w, n, n + 1);
    assert Groups(entries, n + 1, n + 1) == Groups(entries, n, n + 1);
  }

  lemma UserIsTold(g: Grouping, entries: seq<Entry>, n: nat)
    requires n < |entries| && IsTold(g, entries, n) && entries[n].UserEntry?
    ensures IsTold(AddCandidate(g, entries[n].id), entries, n + 1)
  {
    hide GoesOn, HasOwnWords, Groups, GroupOf;
    WordsStep(entries, n);
    AnyGoesOnStep(entries, n);
    if AnyGoesOn(entries, n) {
      var w: int :| GoesOn(entries, w, n);
      GoesOnInRange(entries, w, n);
      LastGroupChanges(entries, w, n);
      UserJoins(entries, w, n);
    } else {
      NothingGoesOn(entries, n);
    }
  }

  lemma GoesOnInRange(entries: seq<Entry>, w: int, n: nat)
    requires GoesOn(entries, w, n)
    ensures 0 <= w < n
  {
  }

  lemma MarkerGroups(g: Grouping, entries: seq<Entry>, n: nat)
    requires n < |entries| && IsTold(g, entries, n) && IsMarker(entries[n])
    ensures AssignActive(g, MarkerStage(entries[n]), MarkerCaption(entries[n])).groups == Groups(entries, n + 1, n + 1)
  {
    hide GoesOn, HasOwnWords, Groups, GroupOf, MarkerStage, MarkerCaption, Assign;
    if AnyGoesOn(entries, n) {
      var w: int :| GoesOn(entries, w, n);
      GoesOnInRange(entries, w, n);
      LastGroupChanges(entries, w, n);
      MarkerLabels(entries, w, n, n);
      MarkerIsNoStep(entries, w, n);
    } else {
      NothingGoesOn(entries, n);
    }
  }

  lemma MarkerIsNoStep(entries: seq<Entry>, w: nat, n: nat)
    requires n < |entries| && IsMarker(entries[n])
    ensures GroupOf(entries, w, n + 1, n + 1) == GroupOf(entries, w, n, n + 1) && AllLabelled(entries, n, n)
  {
    NoMoreStep(entries, w, n, n + 1);
  }

  lemma AnalystIsTold(g: Grouping, entries: seq<Entry>, n: nat)
    requires n < |entries| && IsTold(g, entries, n) && entries[n].AnalystStepEntry?
    ensures IsTold(GroupStep(g, entries, n), entries, n + 1)
  {
    TrimMeaning(entries[n].stage);
    MarkerGroups(g, entries, n);
    WordsStep(entries, n);
    AnyGoesOnStep(entries, n);
    hide GoesOn, AnyGoesOn, HasOwnWords, Groups, Assign, Trim, Blank;
  }

  lemma ValidationIsTold(g: Grouping, entries: seq<Entry>, n: nat)
    requires n < |entries| && IsTold(g, entries, n) && entries[n].ValidationEntry?
    ensures IsTold(GroupStep(g, entries, n), entries, n + 1)
  {
    MarkerGroups(g, entries, n);
    WordsStep(entries, n);
    AnyGoesOnStep(entries, n);
    hide GoesOn, AnyGoesOn, HasOwnWords, Groups, Assign;
  }

  lemma StepIsTold(g: Grouping, entries: seq<Entry>, n: nat)
    requires n < |entries| && IsTold(g, entries, n)
    ensures IsTold(GroupStep(g, entries, n), entries, n + 1)
  {
    WordsStep(entries, n);
    AnyGoesOnStep(entries, n);
    hide GoesOn, AnyGoesOn, HasOwnWords, Groups, AssignActive, AddCandidate;
    match entries[n]
    case WorkflowEntry(_) => WorkflowBegins(entries, n);
    case UserEntry(_, _) => UserIsTold(g, entries, n);
    case AnalystStepEntry(_, _, _) => AnalystIsTold(g, entries, n);
    case ValidationEntry(_) => ValidationIsTold(g, entries, n);
    case _ => QuietEntry(entries, n);
  }

  lemma {:induction false} GroupsAreTold(entries: seq<Entry>, n: nat)
    requires n <= |entries|
    ensures IsTold(GroupsOf(entries, n), entries, n)
  {
    hide GroupStep;
    if n > 0 {
      GroupsAreTold(entries, n - 1);
      StepIsTold(GroupsOf(entries, n - 1), entries, n - 1);
    }
  }

  // ---------------------------------------------------------------- the steps

  lemma {:induction false} GroupAt(entries: seq<Entry>, w: int, k: nat, n: nat, m: nat)
    requires k <= |entries| && n <= |entries|
    ensures |GroupOf(entries, w, k, n)| == StepsBefore(entries, w, k)
    ensures m < k && IsStepOf(entries, w, m) ==>
              StepsBefore(entries, w, m) < StepsBefore(entries, w, k) &&
              GroupOf(entries, w, k, n)[StepsBefore(entries, w, m)] == CandidateOf(entries, m, n)
    decreases k
  {
    hide IsStepOf, CandidateOf;
    if k > 0 {
      GroupAt(entries, w, k - 1, n, m);
    }
  }

  lemma {:induction false} GroupIndex(entries: seq<Entry>, w: nat, k: nat, n: nat) returns (i: nat)
    requires w < k <= n <= |entries| && entries[w].WorkflowEntry?
    ensures i < |Groups(entries, k, n)| && Groups(entries, k, n)[i] == GroupOf(entries, w, n, n)
    decreases k
  {
    hide GroupOf;
    if w == k - 1 {
      i := |Groups(entries, w, n)|;
    } else {
      i := GroupIndex(entries, w, k - 1, n);
    }
  }

  lemma MarkerIsUnique(entries: seq<Entry>, m: nat, q: int, n: nat)
    requires m < |entries| && Matches(entries, m, q) && q < n <= |entries|
    ensures MarkerOf(entries, m, n) == Some(q)
  {
    var p := MarkerOf(entries, m, n);
    MarkerIsFound(entries, m, q, n);
    LeavesNone(entries, m, p.value);
    LeavesNone(entries, m, q);
  }

  lemma LeavesNone(entries: seq<Entry>, m: nat, q: nat)
    requires Matches(entries, m, q)
    ensures Balance(entries, m + 1, q + 1) == -1
  {
  }

  lemma {:induction false} MarkerIsFound(entries: seq<Entry>, m: nat, q: nat, n: nat)
    requires Matches(entries, m, q) && q < n <= |entries|
    ensures MarkerOf(entries, m, n).Some?
    decreases n
  {
    hide Matches;
    if n > q + 1 {
      MarkerIsFound(entries, m, q, n - 1);
    }
  }

  /** Every user message of a workflow is a step of it: numbered in the order of the log, out of all the
      workflow's steps, labelled by its own marker if it has one, and shown as a turn of its own if the
      user's own words come before it. */
  lemma StepsAreTold(entries: seq<Entry>, w: int, m: nat)
    requires DistinctEntries(entries) && IsStepOf(entries, w, m)
    ensures entries[m].id in Steps(entries)
    ensures var step := Steps(entries)[entries[m].id];
            step.step == StepsBefore(entries, w, m) + 1 && step.total == StepsBefore(entries, w, |entries|) &&
            (step.preserveUserTurn <==> HasOwnWords(entries, m)) &&
            (forall q :: Matches(entries, m, q) ==>
             step.stage == MarkerStage(entries[q]) && step.title == MarkerCaption(entries[q])) &&
            ((forall q :: !Matches(entries, m, q)) ==> step.stage == "workflow" && step.title == "Workflow step")
  {
    var n := |entries|;
    var groups := GroupsOf(entries, n).groups;
    GroupsAreTold(entries, n);
    StepInRange(entries, w, m);
    var k := GroupIndex(entries, w, n, n);
    GroupAt(entries, w, n, n, m);
    GroupsOwnIds(entries, n);
    hide OwnIds, HasOwnWords, GoesOn, GroupsOf, Groups, GroupOf;
    PutGroupsMeaning(groups, |groups|, k, StepsBefore(entries, w, m), entries);
    forall q | Matches(entries, m, q) ensures MarkerOf(entries, m, n) == Some(q) {
      MarkerIsUnique(entries, m, q, n);
    }
  }

  lemma StepInRange(entries: seq<Entry>, w: int, m: nat)
    requires IsStepOf(entries, w, m)
    ensures 0 <= w < m < |entries| && entries[w].WorkflowEntry?
  {
  }

  lemma {:induction false} PutStepsKeys(before: map<string, WorkflowStep>, group: seq<Candidate>, n: nat, id: string)
    requires n <= |group| && id in PutSteps(before, group, n)
    ensures id in before || exists i :: 0 <= i < n && group[i].messageId == id
  {
    hide StepOf;
    if n > 0 && id != group[n - 1].messageId {
      PutStepsKeys(before, group, n - 1, id);
    }
  }

  lemma {:induction false} PutGroupsKeys(groups: seq<seq<Candidate>>, n: nat, id: string)
    requires n <= |groups| && id in PutGroups(groups, n)
    ensures exists k, i :: Position(groups, k, i) && groups[k][i].messageId == id
  {
    PutStepsKeys(PutGroups(groups, n - 1), groups[n - 1], |groups[n - 1]|, id);
    if id in PutGroups(groups, n - 1) {
      PutGroupsKeys(groups, n - 1, id);
    } else {
      var i :| 0 <= i < |groups[n - 1]| && groups[n - 1][i].messageId == id;
      assert Position(groups, n - 1, i);
    }
  }

  lemma {:induction false} CandidateIsStep(entries: seq<Entry>, w: int, k: nat, n: nat, i: nat)
    requires k <= |entries| && n <= |entries| && i < |GroupOf(entries, w, k, n)|
    ensures exists m :: IsStepOf(entries, w, m) && entries[m].id == GroupOf(entries, w, k, n)[i].messageId
    decreases k
  {
    if i < |GroupOf(entries, w, k - 1, n)| {
      CandidateIsStep(entries, w, k - 1, n, i);
    } else {
      assert IsStepOf(entries, w, k - 1);
    }
  }

  lemma {:induction false} GroupHasWorkflow(entries: seq<Entry>, k: nat, n: nat, i: nat)
    requires k <= |entries| && n <= |entries| && i < |Groups(entries, k, n)|
    ensures exists w :: 0 <= w < k && Groups(entries, k, n)[i] == GroupOf(entries, w, n, n)
    decreases k
  {
    hide GroupOf;
    if i < |Groups(entries, k - 1, n)| {
      GroupHasWorkflow(entries, k - 1, n, i);
    } else {
      assert Groups(entries, k, n)[i] == GroupOf(entries, k - 1, n, n);
    }
  }

  /** Nothing else is a step: no user message outside a workflow, and no other entry. */
  lemma OnlyStepsAreTold(entries: seq<Entry>, m: nat)
    requires DistinctEntries(entries) && m < |entries| && entries[m].id in Steps(entries)
    ensures exists w :: IsStepOf(entries, w, m)
  {
    var n, id := |entries|, entries[m].id;
    var groups := GroupsOf(entries, n).groups;
    GroupsAreTold(entries, n);
    PutGroupsKeys(groups, |groups|, id);
    assert groups == Groups(entries, n, n);
    hide *;
    var k, i :| Position(groups, k, i) && groups[k][i].messageId == id;
    PositionInRange(groups, k, i);
    GroupHasWorkflow(entries, n, n, k);
    var w: int :| 0 <= w < n && Groups(entries, n, n)[k] == GroupOf(entries, w, n, n);
    CandidateIsStep(entries, w, n, n, i);
    var j: int :| IsStepOf(entries, w, j) && entries[j].id == id;
    StepIsUser(entries, w, j);
    IdsDiffer(entries, j, m);
  }

  lemma IdsDiffer(entries: seq<Entry>, j: nat, m: nat)
    requires DistinctEntries(entries) && j < |entries| && m < |entries| && entries[j].id == entries[m].id
    ensures j == m
  {
  }

  lemma PositionInRange(groups: seq<seq<Candidate>>, k: int, i: int)
    requires Position(groups, k, i)
    ensures 0 <= k < |groups| && 0 <= i < |groups[k]|
  {
  }
}
