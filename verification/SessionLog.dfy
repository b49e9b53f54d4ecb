// The entries of a session log, as gui/server/chat-event-adapter.ts tells them apart, and what it
// derives from the whole log before it projects: which failures are superseded, which replies the
// user stopped (gui/server/run-stop-marker.ts), and the workflow steps.
module SessionLog {
  import opened ChatEvents
  import opened Options
  import opened Texts

  datatype Part =
    | TextBlock(text: string)
    | CallBlock(id: string, name: string, arguments: string)
    | ImageBlock(url: string)
    | OtherBlock

  /** `abortShaped`: the error message reads like an abort. */
  datatype StopReason = ErrorStop(errorMessage: string, abortShaped: bool) | AbortedStop | OtherStop

  datatype Entry =
    | UserInputEntry(id: string, original: string, attachments: seq<Attachment>)
    | CustomMessageEntry(id: string, customType: string, text: string, data: string)
    | RunCancelledEntry(id: string, text: string, data: string)
    | RunStoppedEntry(id: string, prompt: string, assistantEntryIds: seq<string>)
    | WorkflowEntry(id: string)
    | AnalystStepEntry(id: string, stage: string, caption: string)
    | ValidationEntry(id: string)
    | WorkflowEndEntry(id: string)
    | OtherEntry(id: string)
    | UserEntry(id: string, content: seq<Content>)
    | AssistantEntry(id: string, parts: seq<Part>, stop: StopReason, provider: Option<string>, model: Option<string>)
    | ToolResultEntry(id: string, toolCallId: string, toolName: string, text: string, input: string, output: string,
        isError: bool)
    | OtherMessageEntry(id: string)

  predicate IsMessage(e: Entry) {
    e.UserEntry? || e.AssistantEntry? || e.ToolResultEntry? || e.OtherMessageEntry?
  }

  ghost predicate DistinctEntries(entries: seq<Entry>) {
    forall i, j :: 0 <= i < j < |entries| ==> entries[i].id != entries[j].id
  }

  /** A non-blank string field, trimmed. */
  function StringField(value: string): Option<string> {
    if Trim(value) != "" then Some(Trim(value)) else None
  }

  function OriginalInputText(e: Entry): Option<string>
    requires e.UserInputEntry?
  {
    if Trim(e.original) != "" then Some(e.original) else None
  }

  // ---------------------------------------------------------------- superseded failures

  predicate IsFailure(e: Entry) {
    e.AssistantEntry? && e.stop.ErrorStop?
  }

  const MODEL_RUN_FAILED := "opencandle-model-run-failed"
  const RUN_CANCELLED := "opencandle-run-cancelled"

  predicate AnnouncedNext(entries: seq<Entry>, i: nat) {
    i + 1 < |entries| && entries[i + 1].CustomMessageEntry? && entries[i + 1].customType == MODEL_RUN_FAILED
  }

  /** The next message after entry i is a failure too: entry i was retried. */
  ghost predicate Retried(entries: seq<Entry>, i: nat) {
    exists j :: i < j < |entries| && IsFailure(entries[j]) && NoMessageBetween(entries, i, j)
  }

  ghost predicate NoMessageBetween(entries: seq<Entry>, i: nat, j: nat)
    requires j <= |entries|
  {
    forall k :: i < k < j ==> !IsMessage(entries[k])
  }

  /** The failure that the loop remembers at position n: the last message, if it is one. */
  ghost predicate LastFailure(entries: seq<Entry>, n: nat, i: nat)
    requires n <= |entries|
  {
    i < n && IsFailure(entries[i]) && NoMessageBetween(entries, i, n)
  }

  ghost predicate Superseded(entries: seq<Entry>, n: nat, i: nat)
    requires n <= |entries|
  {
    i < n && IsFailure(entries[i]) && (AnnouncedNext(entries, i) || Retried(entries[..n], i))
  }

  /** The ids paired so far, and the failure that may still be followed by its retry. */
  function FailurePairs(entries: seq<Entry>, n: nat): (set<string>, string)
    requires n <= |entries|
  {
    if n == 0 then ({}, "")
    else
      var (paired, previous) := FailurePairs(entries, n - 1);
      var entry := entries[n - 1];
      if !IsMessage(entry) then (paired, previous)
      else if !IsFailure(entry) then (paired, "")
      else
        var retried := if previous != "" then paired + {previous} else paired;
        (if AnnouncedNext(entries, n - 1) then retried + {entry.id} else retried, entry.id)
  }

  function SupersededIds(entries: seq<Entry>): set<string> {
    FailurePairs(entries, |entries|).0
  }

  method SupersededAssistantFailureIds(entries: seq<Entry>) returns (paired: set<string>)
    ensures paired == SupersededIds(entries)
  {
    paired := {};
    var previousFailureId := "";
    for n := 0 to |entries|
      invariant (paired, previousFailureId) == FailurePairs(entries, n)
    {
      var entry := entries[n];
      if IsMessage(entry) {
        if !IsFailure(entry) {
          previousFailureId := "";
        } else {
          if previousFailureId != "" {
            paired := paired + {previousFailureId};
          }
          previousFailureId := entry.id;
          if AnnouncedNext(entries, n) {
            paired := paired + {entry.id};
          }
        }
      }
    }
  }

  lemma LastFailureMoves(entries: seq<Entry>, n: nat, i: nat)
    requires n < |entries|
    ensures LastFailure(entries, n + 1, i) <==>
            if IsMessage(entries[n]) then i == n && IsFailure(entries[n]) else LastFailure(entries, n, i)
  {
  }

  lemma RetriedGrows(entries: seq<Entry>, n: nat, i: nat)
    requires n < |entries| && i <= n
    ensures Retried(entries[..n + 1], i) <==>
            Retried(entries[..n], i) || (i < n && IsFailure(entries[n]) && NoMessageBetween(entries, i, n))
  {
    var a, b := entries[..n], entries[..n + 1];
    if Retried(b, i) {
      var j :| i < j < |b| && IsFailure(b[j]) && NoMessageBetween(b, i, j);
      assert forall k :: i < k < j ==> b[k] == entries[k];
      assert j < n ==> IsFailure(a[j]) && NoMessageBetween(a, i, j);
    }
    if Retried(a, i) {
      var j :| i < j < |a| && IsFailure(a[j]) && NoMessageBetween(a, i, j);
      assert forall k :: i < k <= j ==> b[k] == a[k];
      assert IsFailure(b[j]) && NoMessageBetween(b, i, j);
    }
    if i < n && IsFailure(entries[n]) && NoMessageBetween(entries, i, n) {
      assert forall k :: i < k <= n ==> b[k] == entries[k];
      assert IsFailure(b[n]) && NoMessageBetween(b, i, n);
    }
  }

  lemma {:induction false} FailurePairsMeaning(entries: seq<Entry>, n: nat, i: nat)
    requires n <= |entries| && i < |entries|
    requires DistinctEntries(entries) && forall k :: 0 <= k < |entries| ==> entries[k].id != ""
    ensures entries[i].id in FailurePairs(entries, n).0 <==> Superseded(entries, n, i)
    ensures FailurePairs(entries, n).1 == entries[i].id <==> LastFailure(entries, n, i)
  {
    if n > 0 {
      FailurePairsMeaning(entries, n - 1, i);
      LastFailureMoves(entries, n - 1, i);
      if i <= n - 1 {
        RetriedGrows(entries, n - 1, i);
      }
      assert entries[n - 1].id == entries[i].id <==> i == n - 1;
    }
  }

  /** The next entry is a message of the program that tells of the failure. */
  predicate IsToldNext(entries: seq<Entry>, i: nat) {
    i + 1 < |entries| &&
    match entries[i + 1]
    case CustomMessageEntry(_, customType, _, _) => customType == "opencandle-model-run-failed"
    case _ => false
  }

  /** A later reply failed too, with no message of anyone in between. */
  ghost predicate IsTriedAgainInVain(entries: seq<Entry>, i: nat) {
    exists j :: FailsNext(entries, i, j)
  }

  ghost predicate FailsNext(entries: seq<Entry>, i: nat, j: int) {
    && i < j < |entries| && entries[j].AssistantEntry? && entries[j].stop.ErrorStop?
    && forall k :: i < k < j ==>
         !(entries[k].UserEntry? || entries[k].AssistantEntry? || entries[k].ToolResultEntry? ||
           entries[k].OtherMessageEntry?)
  }

  /** A failed reply is hidden exactly if it was retried and the retry failed too, with no other
      message between, or if the very next entry announces the failure. */
  lemma SupersededMeaning(entries: seq<Entry>, i: nat)
    requires i < |entries| && DistinctEntries(entries) && forall k :: 0 <= k < |entries| ==> entries[k].id != ""
    ensures entries[i].id in SupersededIds(entries)
            <==> entries[i].AssistantEntry? && entries[i].stop.ErrorStop? &&
                 (IsToldNext(entries, i) || IsTriedAgainInVain(entries, i))
  {
    FailurePairsMeaning(entries, |entries|, i);
    assert entries[..|entries|] == entries;
    if IsTriedAgainInVain(entries, i) {
      var j :| FailsNext(entries, i, j);
      assert IsFailure(entries[j]) && NoMessageBetween(entries, i, j);
    }
    if Retried(entries, i) {
      var j :| i < j < |entries| && IsFailure(entries[j]) && NoMessageBetween(entries, i, j);
      assert FailsNext(entries, i, j);
    }
  }

  // ---------------------------------------------------------------- replies the user stopped

  function PutAll(stopped: map<string, Option<string>>, ids: seq<string>,
      prompt: Option<string>): map<string, Option<string>>
    decreases |ids|
  {
    if ids == [] then stopped else PutAll(stopped, ids[..|ids| - 1], prompt)[ids[|ids| - 1] := prompt]
  }

  function MarkerPrompt(e: Entry): Option<string>
    requires e.RunStoppedEntry?
  {
    if Trim(e.prompt) != "" then Some(e.prompt) else None
  }

  function Named(entries: seq<Entry>): map<string, Option<string>>
    decreases |entries|
  {
    if entries == [] then map[]
    else
      var before, e := Named(entries[..|entries| - 1]), entries[|entries| - 1];
      if e.RunStoppedEntry? then PutAll(before, e.assistantEntryIds, MarkerPrompt(e)) else before
  }

  predicate AbortShaped(e: Entry) {
    IsFailure(e) && e.stop.abortShaped
  }

  predicate Disqualified(entries: seq<Entry>, id: string) {
    exists e :: e in entries && e.id == id && !AbortShaped(e)
  }

  function UserStopped(entries: seq<Entry>): map<string, Option<string>> {
    var named := Named(entries);
    map id | id in named && !Disqualified(entries, id) :: named[id]
  }

  method UserStoppedAssistantEntries(entries: seq<Entry>) returns (stopped: map<string, Option<string>>)
    ensures stopped == UserStopped(entries)
  {
    hide PutAll, MarkerPrompt, AbortShaped;
    stopped := map[];
    for i := 0 to |entries|
      invariant stopped == Named(entries[..i])
    {
      assert entries[..i + 1][..i] == entries[..i];
      if entries[i].RunStoppedEntry? {
        stopped := PutAll(stopped, entries[i].assistantEntryIds, MarkerPrompt(entries[i]));
      }
    }
    assert entries[..|entries|] == entries;
    if stopped == map[] {
      return;
    }
    var named := stopped;
    for i := 0 to |entries|
      invariant stopped == map id | id in named && !Disqualified(entries[..i], id) :: named[id]
    {
      var e := entries[i];
      assert entries[..i + 1] == entries[..i] + [e];
      forall id ensures Disqualified(entries[..i + 1], id)
          <==> Disqualified(entries[..i], id) || (e.id == id && !AbortShaped(e)) {
        DisqualifiedGrows(entries[..i], e, id);
      }
      if e.id in stopped && !AbortShaped(e) {
        stopped := stopped - {e.id};
      }
    }
  }

  lemma DisqualifiedGrows(prior: seq<Entry>, e: Entry, id: string)
    ensures Disqualified(prior + [e], id) <==> Disqualified(prior, id) || (e.id == id && !AbortShaped(e))
  {
  }

  predicate Names(e: Entry, id: string) {
    e.RunStoppedEntry? && id in e.assistantEntryIds
  }

  lemma {:induction false} PutAllMeaning(stopped: map<string, Option<string>>, ids: seq<string>, prompt: Option<string>,
      id: string)
    ensures id in PutAll(stopped, ids, prompt) <==> id in ids || id in stopped
    ensures id in ids ==> PutAll(stopped, ids, prompt)[id] == prompt
    ensures id !in ids && id in stopped ==> PutAll(stopped, ids, prompt)[id] == stopped[id]
    decreases |ids|
  {
    if ids != [] {
      PutAllMeaning(stopped, ids[..|ids| - 1], prompt, id);
      assert ids == ids[..|ids| - 1] + [ids[|ids| - 1]];
    }
  }

  lemma {:induction false} NamedMeaning(entries: seq<Entry>, id: string)
    ensures id in Named(entries) <==> exists e :: e in entries && Names(e, id)
    decreases |entries|
  {
    if entries != [] {
      var prior, e := entries[..|entries| - 1], entries[|entries| - 1];
      NamedMeaning(prior, id);
      assert entries == prior + [e];
      assert e in entries;
      if e.RunStoppedEntry? {
        PutAllMeaning(Named(prior), e.assistantEntryIds, MarkerPrompt(e), id);
      }
    }
  }

  /** An error reply counts as stopped by the user exactly if a stop marker names it and its error
      reads like an abort: other failures stay failures, whatever the markers say. */
  lemma UserStoppedMeaning(entries: seq<Entry>, i: nat)
    requires i < |entries| && DistinctEntries(entries)
    ensures entries[i].id in UserStopped(entries)
            <==> entries[i].AssistantEntry? && entries[i].stop.ErrorStop? && entries[i].stop.abortShaped &&
                 exists e :: e in entries && e.RunStoppedEntry? && entries[i].id in e.assistantEntryIds
  {
    NamedMeaning(entries, entries[i].id);
    assert entries[i] in entries;
  }

  /** Entry k is the latest stop marker that names the reply. */
  ghost predicate NamesLast(entries: seq<Entry>, k: int, id: string) {
    && 0 <= k < |entries| && entries[k].RunStoppedEntry? && id in entries[k].assistantEntryIds
    && forall j :: k < j < |entries| ==> !(entries[j].RunStoppedEntry? && id in entries[j].assistantEntryIds)
  }

  lemma {:induction false} NamedLast(entries: seq<Entry>, k: int, id: string)
    requires NamesLast(entries, k, id)
    ensures id in Named(entries) && Named(entries)[id] == MarkerPrompt(entries[k])
    decreases |entries|
  {
    var prior, e := entries[..|entries| - 1], entries[|entries| - 1];
    if e.RunStoppedEntry? {
      PutAllMeaning(Named(prior), e.assistantEntryIds, MarkerPrompt(e), id);
    }
    if k < |entries| - 1 {
      assert forall j :: 0 <= j < |prior| ==> prior[j] == entries[j];
      NamedLast(prior, k, id);
    }
  }

  /** A stopped reply is retried with the words of the latest marker that names it, unless they are blank. */
  lemma StopPromptIsLatest(entries: seq<Entry>, k: int, id: string)
    requires NamesLast(entries, k, id) && id in UserStopped(entries)
    ensures UserStopped(entries)[id] == if Blank(entries[k].prompt) then None else Some(entries[k].prompt)
  {
    NamedLast(entries, k, id);
    TrimMeaning(entries[k].prompt);
  }
}
