// The numbering of workflow steps, workflowStepMetadata of gui/server/chat-event-adapter.ts. The
// captions of analyst steps are taken as given.
module WorkflowSteps {
  import opened ChatEvents
  import opened Options
  import opened SessionLog
  import opened Texts

  datatype Candidate = Candidate(messageId: string, stage: Option<string>, caption: Option<string>,
      preserveUserTurn: bool)

  /** If a group is active, it is the last one. */
  datatype Grouping = Grouping(groups: seq<seq<Candidate>>, active: bool, pendingOriginalInput: bool)

  /** The latest candidate without a stage gets this one. */
  function Assign(group: seq<Candidate>, stage: string, caption: string): (r: seq<Candidate>)
    ensures |r| == |group|
    decreases |group|
  {
    if group == [] then []
    else
      var last := group[|group| - 1];
      if last.stage == None then group[..|group| - 1] + [last.(stage := Some(stage), caption := Some(caption))]
      else Assign(group[..|group| - 1], stage, caption) + [last]
  }

  predicate LatestOpen(group: seq<Candidate>, i: nat) {
    i < |group| && group[i].stage == None && forall j :: i < j < |group| ==> group[j].stage.Some?
  }

  /** A step marker labels the latest user message of its workflow that has no label yet, if there
      is one, and nothing else. */
  lemma {:induction false} AssignMeaning(group: seq<Candidate>, stage: string, caption: string, i: nat)
    requires i < |group|
    ensures Assign(group, stage, caption)[i]
            == if LatestOpen(group, i) then group[i].(stage := Some(stage), caption := Some(caption)) else group[i]
    decreases |group|
  {
    var last := |group| - 1;
    if group[last].stage.Some? && i < last {
      AssignMeaning(group[..last], stage, caption, i);
      assert LatestOpen(group, i) <==> LatestOpen(group[..last], i) by {
        assert forall j :: 0 <= j < last ==> group[..last][j] == group[j];
      }
    }
  }

  function AssignActive(g: Grouping, stage: string, caption: string): Grouping {
    if !g.active || g.groups == [] then g
    else
      var last := |g.groups| - 1;
      g.(groups := g.groups[last := Assign(g.groups[last], stage, caption)])
  }

  function AddCandidate(g: Grouping, messageId: string): Grouping {
    if !g.active || g.groups == [] then g.(pendingOriginalInput := false)
    else
      var last := |g.groups| - 1;
      g.(groups := g.groups[last := g.groups[last] + [Candidate(messageId, None, None, g.pendingOriginalInput)]],
         pendingOriginalInput := false)
  }

  function GroupStep(g: Grouping, entries: seq<Entry>, n: nat): Grouping
    requires n < |entries|
  {
    match entries[n]
    case WorkflowEntry(_) => g.(groups := g.groups + [[]], active := true)
    case UserInputEntry(_, _, _) => g.(pendingOriginalInput := !(n > 0 && entries[n - 1].UserEntry?))
    case UserEntry(id, _) => AddCandidate(g, id)
    case AnalystStepEntry(_, stage, caption) =>
      AssignActive(g, if StringField(stage).Some? then StringField(stage).value else "analysis", caption)
    case ValidationEntry(_) =>
      AssignActive(g, "validation", "Validation and synthesis").(active := false, pendingOriginalInput := false)
    case WorkflowEndEntry(_) => g.(active := false, pendingOriginalInput := false)
    case _ => g
  }

  function GroupsOf(entries: seq<Entry>, n: nat): Grouping
    requires n <= |entries|
  {
    if n == 0 then Grouping([], false, false) else GroupStep(GroupsOf(entries, n - 1), entries, n - 1)
  }

  function StepOf(group: seq<Candidate>, i: nat): WorkflowStep
    requires i < |group|
  {
    var c := group[i];
    WorkflowStep(if c.caption.Some? then c.caption.value else "Workflow step",
                 if c.stage.Some? then c.stage.value else "workflow",
                 i + 1, |group|, c.preserveUserTurn)
  }

  function PutSteps(m: map<string, WorkflowStep>, group: seq<Candidate>, n: nat): map<string, WorkflowStep>
    requires n <= |group|
  {
    if n == 0 then m else PutSteps(m, group, n - 1)[group[n - 1].messageId := StepOf(group, n - 1)]
  }

  function PutGroups(groups: seq<seq<Candidate>>, n: nat): map<string, WorkflowStep>
    requires n <= |groups|
  {
    if n == 0 then map[] else PutSteps(PutGroups(groups, n - 1), groups[n - 1], |groups[n - 1]|)
  }

  function Steps(entries: seq<Entry>): map<string, WorkflowStep> {
    var groups := GroupsOf(entries, |entries|).groups;
    PutGroups(groups, |groups|)
  }

  method WorkflowStepMetadata(entries: seq<Entry>) returns (metadata: map<string, WorkflowStep>)
    ensures metadata == Steps(entries)
  {
    hide GroupStep, StepOf;
    var g := Grouping([], false, false);
    for n := 0 to |entries|
      invariant g == GroupsOf(entries, n)
    {
      g := GroupStep(g, entries, n);
    }
    metadata := map[];
    for k := 0 to |g.groups|
      invariant metadata == PutGroups(g.groups, k)
    {
      for i := 0 to |g.groups[k]|
        invariant metadata == PutSteps(PutGroups(g.groups, k), g.groups[k], i)
      {
        metadata := metadata[g.groups[k][i].messageId := StepOf(g.groups[k], i)];
      }
    }
  }

  // ---------------------------------------------------------------- the numbering

  predicate Position(groups: seq<seq<Candidate>>, k: int, i: int) {
    0 <= k < |groups| && 0 <= i < |groups[k]|
  }

  /** Every candidate is one of the first n user messages, and no two are the same. */
  ghost predicate OwnIds(groups: seq<seq<Candidate>>, entries: seq<Entry>, n: nat)
    requires n <= |entries|
  {
    && (forall k, i :: Position(groups, k, i) ==> IsUserOf(groups[k][i].messageId, entries, n))
    && (forall k, i, h, j ::
          Position(groups, k, i) && Position(groups, h, j) && groups[k][i].messageId == groups[h][j].messageId ==>
            k == h && i == j)
  }

  ghost predicate IsUserOf(id: string, entries: seq<Entry>, n: nat)
    requires n <= |entries|
  {
    exists m :: 0 <= m < n && entries[m].UserEntry? && entries[m].id == id
  }

  lemma SameIdsOwned(groups: seq<seq<Candidate>>, after: seq<seq<Candidate>>, entries: seq<Entry>, n: nat)
    requires n < |entries| && OwnIds(groups, entries, n) && |after| == |groups|
    requires forall k :: 0 <= k < |groups| ==> |after[k]| == |groups[k]|
    requires forall k, i :: Position(groups, k, i) ==> after[k][i].messageId == groups[k][i].messageId
    ensures OwnIds(after, entries, n + 1)
  {
  }

  lemma AssignKeepsIds(g: Grouping, stage: string, caption: string, entries: seq<Entry>, n: nat)
    requires n < |entries| && OwnIds(g.groups, entries, n)
    ensures OwnIds(AssignActive(g, stage, caption).groups, entries, n + 1)
  {
    var after := AssignActive(g, stage, caption);
    forall k, i | Position(g.groups, k, i) ensures after.groups[k][i].messageId == g.groups[k][i].messageId {
      if k == |g.groups| - 1 {
        AssignMeaning(g.groups[k], stage, caption, i);
      }
    }
    SameIdsOwned(g.groups, after.groups, entries, n);
  }

  lemma AddKeepsIds(g: Grouping, entries: seq<Entry>, n: nat)
    requires n < |entries| && OwnIds(g.groups, entries, n) && entries[n].UserEntry? && DistinctEntries(entries)
    ensures OwnIds(AddCandidate(g, entries[n].id).groups, entries, n + 1)
  {
    var after := AddCandidate(g, entries[n].id).groups;
    forall k, i | Position(after, k, i)
      ensures if Position(g.groups, k, i)
              then after[k][i] == g.groups[k][i] && IsUserOf(after[k][i].messageId, entries, n)
              else k == |g.groups| - 1 && i == |g.groups[k]| && after[k][i].messageId == entries[n].id
    {
    }
    forall k, i | Position(after, k, i) ensures IsUserOf(after[k][i].messageId, entries, n + 1) {
      assert IsUserOf(entries[n].id, entries, n + 1);
      assert IsUserOf(after[k][i].messageId, entries, n) ==> IsUserOf(after[k][i].messageId, entries, n + 1);
    }
    assert !IsUserOf(entries[n].id, entries, n);
  }

  lemma NoGroups(entries: seq<Entry>)
    ensures OwnIds([], entries, 0)
  {
  }

  lemma GroupStepKeepsIds(g: Grouping, entries: seq<Entry>, n: nat)
    requires n < |entries| && DistinctEntries(entries) && OwnIds(g.groups, entries, n)
    ensures OwnIds(GroupStep(g, entries, n).groups, entries, n + 1)
  {
    hide OwnIds, AssignActive, AddCandidate, StringField, DistinctEntries;
    match entries[n]
    case UserEntry(_, _) => AddKeepsIds(g, entries, n);
    case AnalystStepEntry(_, stage, caption) =>
      AssignKeepsIds(g, if StringField(stage).Some? then StringField(stage).value else "analysis", caption, entries, n);
    case ValidationEntry(_) => AssignKeepsIds(g, "validation", "Validation and synthesis", entries, n);
    case WorkflowEntry(_) => NewGroupKeepsIds(g.groups, entries, n);
    case _ => NothingKeepsIds(g.groups, entries, n);
  }

  lemma {:induction false} GroupsOwnIds(entries: seq<Entry>, n: nat)
    requires n <= |entries| && DistinctEntries(entries)
    ensures OwnIds(GroupsOf(entries, n).groups, entries, n)
  {
    hide OwnIds, GroupStep, DistinctEntries;
    if n > 0 {
      GroupsOwnIds(entries, n - 1);
      GroupStepKeepsIds(GroupsOf(entries, n - 1), entries, n - 1);
    } else {
      NoGroups(entries);
    }
  }

  lemma NewGroupKeepsIds(groups: seq<seq<Candidate>>, entries: seq<Entry>, n: nat)
    requires n < |entries| && OwnIds(groups, entries, n)
    ensures OwnIds(groups + [[]], entries, n + 1)
  {
  }

  lemma NothingKeepsIds(groups: seq<seq<Candidate>>, entries: seq<Entry>, n: nat)
    requires n < |entries| && OwnIds(groups, entries, n)
    ensures OwnIds(groups, entries, n + 1)
  {
  }

  lemma DifferentIds(groups: seq<seq<Candidate>>, entries: seq<Entry>, k: nat, i: nat, h: nat, j: nat)
    requires OwnIds(groups, entries, |entries|) && Position(groups, k, i) && Position(groups, h, j)
    ensures groups[k][i].messageId == groups[h][j].messageId ==> k == h && i == j
  {
  }

  lemma {:induction false} PutStepsMeaning(m: map<string, WorkflowStep>, groups: seq<seq<Candidate>>, h: nat, n: nat,
      k: nat, i: nat, entries: seq<Entry>)
    requires OwnIds(groups, entries, |entries|) && h < |groups| && n <= |groups[h]| && Position(groups, k, i)
    requires k < h ==> groups[k][i].messageId in m && m[groups[k][i].messageId] == StepOf(groups[k], i)
    ensures (k < h || (k == h && i < n)) ==> var id := groups[k][i].messageId;
              id in PutSteps(m, groups[h], n) && PutSteps(m, groups[h], n)[id] == StepOf(groups[k], i)
  {
    hide OwnIds, StepOf;
    if n > 0 {
      PutStepsMeaning(m, groups, h, n - 1, k, i, entries);
      DifferentIds(groups, entries, k, i, h, n - 1);
    }
  }

  lemma {:induction false} PutGroupsMeaning(groups: seq<seq<Candidate>>, n: nat, k: nat, i: nat, entries: seq<Entry>)
    requires OwnIds(groups, entries, |entries|) && n <= |groups| && k < n && Position(groups, k, i)
    ensures var id := groups[k][i].messageId;
            id in PutGroups(groups, n) && PutGroups(groups, n)[id] == StepOf(groups[k], i)
  {
    if k < n - 1 {
      PutGroupsMeaning(groups, n - 1, k, i, entries);
    }
    PutStepsMeaning(PutGroups(groups, n - 1), groups, n - 1, |groups[n - 1]|, k, i, entries);
  }

  /** The user messages of a workflow are its steps, numbered 1 to their count in the order of the log. */
  lemma StepsAreNumbered(entries: seq<Entry>, k: nat, i: nat)
    requires DistinctEntries(entries) && Position(GroupsOf(entries, |entries|).groups, k, i)
    ensures var group := GroupsOf(entries, |entries|).groups[k];
            group[i].messageId in Steps(entries) && Steps(entries)[group[i].messageId].step == i + 1 &&
            Steps(entries)[group[i].messageId].total == |group|
  {
    hide OwnIds;
    var groups := GroupsOf(entries, |entries|).groups;
    GroupsOwnIds(entries, |entries|);
    PutGroupsMeaning(groups, |groups|, k, i, entries);
  }
}
