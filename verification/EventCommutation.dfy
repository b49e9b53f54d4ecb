// Events of different sessions: which pairs the reducer of gui/shared/event-reducer.ts may take in
// either order. Its comparator leaves them in the order they arrive in.
module EventCommutation {
  import opened ChatEvents
  import opened EventFields
  import opened EventReducer
  import opened Options

  predicate Apart(a: Option<string>, b: Option<string>) {
    a.None? || b.None? || a != b
  }

  /** The events touch no message, tool or run in common. */
  predicate Separate(a: ChatEvent, b: ChatEvent) {
    && Apart(MessageKey(a.sessionId, a.body), MessageKey(b.sessionId, b.body))
    && Apart(ToolKey(a.sessionId, a.body), ToolKey(b.sessionId, b.body))
    && Apart(RunKey(a.sessionId, a.body), RunKey(b.sessionId, b.body))
  }

  predicate WritesSession(body: Body) {
    body.RunStarted? || body.SessionUpdated?
  }

  predicate AppendsMessage(s: RenderState, e: ChatEvent) {
    var key := MessageKey(e.sessionId, e.body);
    key.Some? && key.value !in s.messageById
  }

  /** The gap that the event reports. */
  function GapOf(s: RenderState, e: ChatEvent): Option<Gap> {
    var last := LastSeqOf(s, e.sessionId);
    if e.seqNo > last + 1 && last != 0 then Some(Gap(last + 1, e.seqNo)) else None
  }

  predicate Seen(s: RenderState, e: ChatEvent) {
    EventKey(e) in s.seenSeq
  }

  // ---------------------------------------------------------------- maps commute

  ghost predicate AgreeAt<V(!new)>(m: map<string, V>, n: map<string, V>, key: string) {
    (key in m <==> key in n) && (key in m ==> m[key] == n[key])
  }

  ghost predicate AgreeBut<V(!new)>(m: map<string, V>, n: map<string, V>, key: Option<string>) {
    forall k :: (k in m || k in n) && Some(k) != key ==> AgreeAt(m, n, k)
  }

  lemma ToolsAreLocal(m: map<string, RenderTool>, n: map<string, RenderTool>, sessionId: string, body: Body, k: string)
    ensures AgreeBut(ToolsAfter(m, sessionId, body), m, ToolKey(sessionId, body))
    ensures AgreeAt(m, n, k) ==> AgreeAt(ToolsAfter(m, sessionId, body), ToolsAfter(n, sessionId, body), k)
  {
    hide ScopedId, EditMessage, EditTool, EditRun, EditThinking;
  }

  lemma RunsAreLocal(m: map<string, RenderRun>, n: map<string, RenderRun>, sessionId: string, body: Body, k: string)
    ensures AgreeBut(RunsAfter(m, sessionId, body), m, RunKey(sessionId, body))
    ensures AgreeAt(m, n, k) ==> AgreeAt(RunsAfter(m, sessionId, body), RunsAfter(n, sessionId, body), k)
  {
    hide ScopedId, EditMessage, EditTool, EditRun, EditThinking;
  }

  lemma ThinkingIsLocal(m: map<string, RenderThinking>, n: map<string, RenderThinking>, sessionId: string, body: Body,
      k: string)
    ensures AgreeBut(ThinkingAfter(m, sessionId, body), m, RunKey(sessionId, body))
    ensures AgreeAt(m, n, k) ==> AgreeAt(ThinkingAfter(m, sessionId, body), ThinkingAfter(n, sessionId, body), k)
  {
    hide ScopedId, EditMessage, EditTool, EditRun, EditThinking;
  }

  /** Two local changes at different keys, one after the other: ab is b after a, and ba is a after b. */
  lemma LocalChangesCommute<V(!new)>(m: map<string, V>, a: map<string, V>, b: map<string, V>, ab: map<string, V>,
      ba: map<string, V>, keyA: Option<string>, keyB: Option<string>)
    requires Apart(keyA, keyB)
    requires AgreeBut(a, m, keyA) && AgreeBut(ba, b, keyA) && AgreeBut(b, m, keyB) && AgreeBut(ab, a, keyB)
    requires forall k :: AgreeAt(m, b, k) ==> AgreeAt(a, ba, k)
    requires forall k :: AgreeAt(m, a, k) ==> AgreeAt(b, ab, k)
    ensures ab == ba
  {
    forall k ensures AgreeAt(ab, ba, k) {
      if Some(k) != keyB {
        assert AgreeAt(b, m, k) && AgreeAt(ab, a, k);
        assert AgreeAt(m, b, k);
      } else {
        assert AgreeAt(a, m, k) && AgreeAt(ba, b, k);
        assert AgreeAt(m, a, k);
      }
    }
    assert forall k :: k in ab <==> k in ba by {
      forall k ensures k in ab <==> k in ba {
        assert AgreeAt(ab, ba, k);
      }
    }
    forall k | k in ab ensures ab[k] == ba[k] {
      assert AgreeAt(ab, ba, k);
    }
  }

  lemma ToolsCommute(m: map<string, RenderTool>, a: ChatEvent, b: ChatEvent)
    requires Apart(ToolKey(a.sessionId, a.body), ToolKey(b.sessionId, b.body))
    ensures ToolsAfter(ToolsAfter(m, a.sessionId, a.body), b.sessionId, b.body)
            == ToolsAfter(ToolsAfter(m, b.sessionId, b.body), a.sessionId, a.body)
  {
    hide ToolsAfter, ToolKey, AgreeAt, AgreeBut, Apart;
    var ma, mb := ToolsAfter(m, a.sessionId, a.body), ToolsAfter(m, b.sessionId, b.body);
    forall k ensures AgreeAt(m, mb, k) ==> AgreeAt(ma, ToolsAfter(mb, a.sessionId, a.body), k) {
      ToolsAreLocal(m, mb, a.sessionId, a.body, k);
    }
    forall k ensures AgreeAt(m, ma, k) ==> AgreeAt(mb, ToolsAfter(ma, b.sessionId, b.body), k) {
      ToolsAreLocal(m, ma, b.sessionId, b.body, k);
    }
    ToolsAreLocal(m, m, a.sessionId, a.body, "");
    ToolsAreLocal(m, m, b.sessionId, b.body, "");
    ToolsAreLocal(ma, m, b.sessionId, b.body, "");
    ToolsAreLocal(mb, m, a.sessionId, a.body, "");
    LocalChangesCommute(m, ma, mb, ToolsAfter(ma, b.sessionId, b.body), ToolsAfter(mb, a.sessionId, a.body),
                        ToolKey(a.sessionId, a.body), ToolKey(b.sessionId, b.body));
  }

  lemma RunsCommute(m: map<string, RenderRun>, a: ChatEvent, b: ChatEvent)
    requires Apart(RunKey(a.sessionId, a.body), RunKey(b.sessionId, b.body))
    ensures RunsAfter(RunsAfter(m, a.sessionId, a.body), b.sessionId, b.body)
            == RunsAfter(RunsAfter(m, b.sessionId, b.body), a.sessionId, a.body)
  {
    hide RunsAfter, RunKey, AgreeAt, AgreeBut, Apart;
    var ma, mb := RunsAfter(m, a.sessionId, a.body), RunsAfter(m, b.sessionId, b.body);
    forall k ensures AgreeAt(m, mb, k) ==> AgreeAt(ma, RunsAfter(mb, a.sessionId, a.body), k) {
      RunsAreLocal(m, mb, a.sessionId, a.body, k);
    }
    forall k ensures AgreeAt(m, ma, k) ==> AgreeAt(mb, RunsAfter(ma, b.sessionId, b.body), k) {
      RunsAreLocal(m, ma, b.sessionId, b.body, k);
    }
    RunsAreLocal(m, m, a.sessionId, a.body, "");
    RunsAreLocal(m, m, b.sessionId, b.body, "");
    RunsAreLocal(ma, m, b.sessionId, b.body, "");
    RunsAreLocal(mb, m, a.sessionId, a.body, "");
    LocalChangesCommute(m, ma, mb, RunsAfter(ma, b.sessionId, b.body), RunsAfter(mb, a.sessionId, a.body),
                        RunKey(a.sessionId, a.body), RunKey(b.sessionId, b.body));
  }

  lemma ThinkingCommutes(m: map<string, RenderThinking>, a: ChatEvent, b: ChatEvent)
    requires Apart(RunKey(a.sessionId, a.body), RunKey(b.sessionId, b.body))
    ensures ThinkingAfter(ThinkingAfter(m, a.sessionId, a.body), b.sessionId, b.body)
            == ThinkingAfter(ThinkingAfter(m, b.sessionId, b.body), a.sessionId, a.body)
  {
    hide ThinkingAfter, RunKey, AgreeAt, AgreeBut, Apart;
    var ma, mb := ThinkingAfter(m, a.sessionId, a.body), ThinkingAfter(m, b.sessionId, b.body);
    forall k ensures AgreeAt(m, mb, k) ==> AgreeAt(ma, ThinkingAfter(mb, a.sessionId, a.body), k) {
      ThinkingIsLocal(m, mb, a.sessionId, a.body, k);
    }
    forall k ensures AgreeAt(m, ma, k) ==> AgreeAt(mb, ThinkingAfter(ma, b.sessionId, b.body), k) {
      ThinkingIsLocal(m, ma, b.sessionId, b.body, k);
    }
    ThinkingIsLocal(m, m, a.sessionId, a.body, "");
    ThinkingIsLocal(m, m, b.sessionId, b.body, "");
    ThinkingIsLocal(ma, m, b.sessionId, b.body, "");
    ThinkingIsLocal(mb, m, a.sessionId, a.body, "");
    LocalChangesCommute(m, ma, mb, ThinkingAfter(ma, b.sessionId, b.body), ThinkingAfter(mb, a.sessionId, a.body),
                        RunKey(a.sessionId, a.body), RunKey(b.sessionId, b.body));
  }

  // ---------------------------------------------------------------- session, messages and gaps

  lemma SessionsCommute(session: Option<Session>, a: ChatEvent, b: ChatEvent)
    requires a.sessionId != b.sessionId
    ensures SessionAfter(SessionAfter(session, a.sessionId, a.body), b.sessionId, b.body)
            == SessionAfter(SessionAfter(session, b.sessionId, b.body), a.sessionId, a.body)
            <==> !(WritesSession(a.body) && WritesSession(b.body))
  {
    hide SessionAfter;
    SessionWritten(session, a);
    SessionWritten(session, b);
    SessionWritten(SessionAfter(session, a.sessionId, a.body), b);
    SessionWritten(SessionAfter(session, b.sessionId, b.body), a);
  }

  lemma SessionWritten(session: Option<Session>, e: ChatEvent)
    ensures var after := SessionAfter(session, e.sessionId, e.body);
            if WritesSession(e.body) then after.Some? && after.value.id == e.sessionId else after == session
  {
    hide ScopedId, EditMessage, EditTool, EditRun, EditThinking;
  }

  predicate Appends(shelf: Shelf, e: ChatEvent) {
    var key := MessageKey(e.sessionId, e.body);
    key.Some? && key.value !in shelf.index
  }

  lemma ShelfStaysIndexed(shelf: Shelf, e: ChatEvent)
    requires Indexed(shelf.messages, shelf.index)
    ensures var after := ShelfAfter(shelf, e.sessionId, e.body); Indexed(after.messages, after.index)
  {
    hide ScopedId;
    var key := MessageKey(e.sessionId, e.body);
    if key.Some? && key.value in shelf.index {
      var i := shelf.index[key.value];
      IndexedAfterEdit(shelf.messages, shelf.index, i, EditMessage(shelf.messages[i], e.body));
    } else if key.Some? {
      BlankHasKey(e);
    }
  }

  lemma BlankHasKey(e: ChatEvent)
    requires MessageKey(e.sessionId, e.body).Some?
    ensures Key(EditMessage(BlankMessage(e.sessionId, e.body), e.body)) == MessageKey(e.sessionId, e.body).value
    ensures EditMessage(BlankMessage(e.sessionId, e.body), e.body).sessionId == e.sessionId
  {
  }

  lemma ShelvesCommute(shelf: Shelf, a: ChatEvent, b: ChatEvent)
    requires Indexed(shelf.messages, shelf.index) && a.sessionId != b.sessionId
    requires Apart(MessageKey(a.sessionId, a.body), MessageKey(b.sessionId, b.body))
    ensures var x, y := ShelfAfter(shelf, a.sessionId, a.body), ShelfAfter(shelf, b.sessionId, b.body);
            Indexed(x.messages, x.index) && Indexed(y.messages, y.index) &&
            (ShelfAfter(x, b.sessionId, b.body) == ShelfAfter(y, a.sessionId, a.body)
             <==> !(Appends(shelf, a) && Appends(shelf, b)))
  {
    hide Indexed, MessageKey, EditMessage, BlankMessage, Key;
    ShelfStaysIndexed(shelf, a);
    ShelfStaysIndexed(shelf, b);
    var x, y := ShelfAfter(shelf, a.sessionId, a.body), ShelfAfter(shelf, b.sessionId, b.body);
    var xy, yx := ShelfAfter(x, b.sessionId, b.body), ShelfAfter(y, a.sessionId, a.body);
    IndexInRange(shelf);
    if Appends(shelf, a) && Appends(shelf, b) {
      BlankHasKey(a);
      BlankHasKey(b);
      assert xy.messages[|shelf.messages|].sessionId == a.sessionId;
      assert yx.messages[|shelf.messages|].sessionId == b.sessionId;
    }
  }

  /** Different keys stand at different places. */
  lemma IndexInRange(shelf: Shelf)
    requires Indexed(shelf.messages, shelf.index)
    ensures forall k :: k in shelf.index ==> shelf.index[k] < |shelf.messages|
    ensures forall k, l :: k in shelf.index && l in shelf.index && k != l ==> shelf.index[k] != shelf.index[l]
  {
  }

  lemma AdmitGaps(s: RenderState, e: ChatEvent)
    ensures Admit(s, e).gaps == s.gaps + if GapOf(s, e).Some? then [GapOf(s, e).value] else []
  {
  }

  /** Everything but the fields that a body renders. */
  lemma AdmissionsCommute(s: RenderState, a: ChatEvent, b: ChatEvent)
    requires a.sessionId != b.sessionId
    ensures var x, y := Admit(Admit(s, a), b), Admit(Admit(s, b), a);
            x.seenSeq == y.seenSeq && x.lastSeq == y.lastSeq && x.lastSeqBySession == y.lastSeqBySession &&
            (x.gaps == y.gaps <==> !(GapOf(s, a).Some? && GapOf(s, b).Some? && GapOf(s, a) != GapOf(s, b)))
  {
    GapsAdmitted(s, a, b);
    GapsAdmitted(s, b, a);
    GapsInOrder(s.gaps, GapOf(s, a), GapOf(s, b));
    NumbersCommute(s, a, b);
    hide GapOf, Admit;
  }

  lemma NumbersCommute(s: RenderState, a: ChatEvent, b: ChatEvent)
    requires a.sessionId != b.sessionId
    ensures var x, y := Admit(Admit(s, a), b), Admit(Admit(s, b), a);
            x.seenSeq == y.seenSeq && x.lastSeq == y.lastSeq && x.lastSeqBySession == y.lastSeqBySession
  {
    hide Admit, LastSeqOf;
    NumbersAdmitted(s, a);
    NumbersAdmitted(s, b);
    NumbersAdmitted(Admit(s, a), b);
    NumbersAdmitted(Admit(s, b), a);
    OtherLastSeq(s, a, b);
    OtherLastSeq(s, b, a);
    PutBoth(s.lastSeqBySession, a.sessionId, Max(LastSeqOf(s, a.sessionId), a.seqNo),
            b.sessionId, Max(LastSeqOf(s, b.sessionId), b.seqNo));
    assert s.seenSeq + {EventKey(a)} + {EventKey(b)} == s.seenSeq + {EventKey(b)} + {EventKey(a)};
  }

  lemma NumbersAdmitted(s: RenderState, e: ChatEvent)
    ensures var r := Admit(s, e);
            r.seenSeq == s.seenSeq + {EventKey(e)} && r.lastSeq == Max(s.lastSeq, e.seqNo) &&
            r.lastSeqBySession == s.lastSeqBySession[e.sessionId := Max(LastSeqOf(s, e.sessionId), e.seqNo)]
  {
  }

  lemma OtherLastSeq(s: RenderState, a: ChatEvent, b: ChatEvent)
    requires a.sessionId != b.sessionId
    ensures LastSeqOf(Admit(s, a), b.sessionId) == LastSeqOf(s, b.sessionId)
  {
  }

  lemma PutBoth(m: map<string, int>, k: string, v: int, l: string, w: int)
    requires k != l
    ensures m[k := v][l := w] == m[l := w][k := v]
  {
  }

  function Listed(gap: Option<Gap>): seq<Gap> {
    if gap.Some? then [gap.value] else []
  }

  lemma GapsAdmitted(s: RenderState, a: ChatEvent, b: ChatEvent)
    requires a.sessionId != b.sessionId
    ensures Admit(Admit(s, a), b).gaps == s.gaps + Listed(GapOf(s, a)) + Listed(GapOf(s, b))
  {
    AdmitGaps(s, a);
    AdmitGaps(Admit(s, a), b);
    assert GapOf(Admit(s, a), b) == GapOf(s, b);
  }

  lemma GapsInOrder(gaps: seq<Gap>, g: Option<Gap>, h: Option<Gap>)
    ensures gaps + Listed(g) + Listed(h) == gaps + Listed(h) + Listed(g) <==> !(g.Some? && h.Some? && g != h)
  {
    var x, y := gaps + Listed(g) + Listed(h), gaps + Listed(h) + Listed(g);
    if g.Some? && h.Some? {
      assert x[|gaps|] == g.value && y[|gaps|] == h.value;
    }
  }

  // ---------------------------------------------------------------- the state after two events

  predicate SameRendering(r: RenderState, t: RenderState) {
    && r.messages == t.messages && r.messageById == t.messageById && r.tools == t.tools
    && r.runs == t.runs && r.thinking == t.thinking && r.session == t.session
  }

  /** The state after two new events, field by field. */
  lemma TwoApplied(s: RenderState, a: ChatEvent, b: ChatEvent)
    requires Indexed(s.messages, s.messageById) && a.sessionId != b.sessionId && !Seen(s, a) && !Seen(s, b)
    ensures var r := Apply(Apply(s, a), b); var x := ShelfAfter(Shelf(s.messages, s.messageById), a.sessionId, a.body);
            SameAdmission(r, Admit(Admit(s, a), b)) && Indexed(x.messages, x.index) &&
            Shelf(r.messages, r.messageById) == ShelfAfter(x, b.sessionId, b.body) &&
            r.tools == ToolsAfter(ToolsAfter(s.tools, a.sessionId, a.body), b.sessionId, b.body) &&
            r.runs == RunsAfter(RunsAfter(s.runs, a.sessionId, a.body), b.sessionId, b.body) &&
            r.thinking == ThinkingAfter(ThinkingAfter(s.thinking, a.sessionId, a.body), b.sessionId, b.body) &&
            r.session == SessionAfter(SessionAfter(s.session, a.sessionId, a.body), b.sessionId, b.body)
  {
    hide Indexed, Render, ToolsAfter, RunsAfter, ThinkingAfter, SessionAfter, ShelfAfter;
    var first := Apply(s, a);
    ShelfStaysIndexed(Shelf(s.messages, s.messageById), a);
    FieldsRendered(Admit(s, a), a.sessionId, a.body);
    ShelfRendered(Admit(s, a), a.sessionId, a.body);
    assert !Seen(first, b);
    FieldsRendered(Admit(first, b), b.sessionId, b.body);
    ShelfRendered(Admit(first, b), b.sessionId, b.body);
  }

  /** Both new events write the session, both append a message, or both report a gap and not the same. */
  predicate Interfere(s: RenderState, a: ChatEvent, b: ChatEvent) {
    || (WritesSession(a.body) && WritesSession(b.body))
    || (AppendsMessage(s, a) && AppendsMessage(s, b))
    || (GapOf(s, a).Some? && GapOf(s, b).Some? && GapOf(s, a) != GapOf(s, b))
  }

  /** Two events of different sessions that touch no message, tool or run in common may be taken in
      either order exactly if one of them was seen before or they do not interfere. */
  lemma EventsCommute(s: RenderState, a: ChatEvent, b: ChatEvent)
    requires Indexed(s.messages, s.messageById) && a.sessionId != b.sessionId && Separate(a, b)
    ensures Apply(Apply(s, a), b) == Apply(Apply(s, b), a) <==> Seen(s, a) || Seen(s, b) || !Interfere(s, a, b)
  {
    hide Indexed, Render, ToolsAfter, RunsAfter, ThinkingAfter, SessionAfter, ShelfAfter, Admit, MessageKey, ToolKey,
         RunKey;
    if Seen(s, a) || Seen(s, b) {
      ApplyRemembers(s, a);
      ApplyRemembers(s, b);
    } else {
      TwoApplied(s, a, b);
      TwoApplied(s, b, a);
      ToolsCommute(s.tools, a, b);
      RunsCommute(s.runs, a, b);
      ThinkingCommutes(s.thinking, a, b);
      SessionsCommute(s.session, a, b);
      ShelvesCommute(Shelf(s.messages, s.messageById), a, b);
      AdmissionsCommute(s, a, b);
      EqualFields(Apply(Apply(s, a), b), Apply(Apply(s, b), a));
    }
  }

  lemma EqualFields(r: RenderState, t: RenderState)
    ensures r == t <==> SameAdmission(r, t) && SameRendering(r, t)
  {
  }

  // ---------------------------------------------------------------- sessions that share keys

  /** One session id with the separator continues the other. */
  predicate Confusable(s: string, t: string) {
    s + "::" <= t + "::" || t + "::" <= s + "::"
  }

  lemma SharedScope(s: string, x: string, t: string, y: string)
    requires ScopedId(s, x) == ScopedId(t, y) && |s| <= |t|
    ensures s + "::" <= t + "::"
  {
    var n := |s| + 2;
    assert (s + "::") == ScopedId(s, x)[..n] == ScopedId(t, y)[..n] == (t + "::")[..n];
  }

  lemma ApartSessions(a: ChatEvent, b: ChatEvent)
    requires !Confusable(a.sessionId, b.sessionId)
    ensures Separate(a, b)
  {
    forall x, y ensures ScopedId(a.sessionId, x) != ScopedId(b.sessionId, y) {
      if ScopedId(a.sessionId, x) == ScopedId(b.sessionId, y) {
        if |a.sessionId| <= |b.sessionId| {
          SharedScope(a.sessionId, x, b.sessionId, y);
        } else {
          SharedScope(b.sessionId, y, a.sessionId, x);
        }
      }
    }
    hide ScopedId;
  }

  /** Two sessions of which one continues the other have events on one run. */
  lemma ConfusableSessionsShare(s: string, t: string) returns (a: ChatEvent, b: ChatEvent)
    requires Confusable(s, t)
    ensures a.sessionId == s && b.sessionId == t && !Separate(a, b)
  {
    var x, y := "", "";
    if s + "::" <= t + "::" {
      x := (t + "::")[|s| + 2..];
      assert t + "::" == (s + "::") + x;
    } else {
      y := (s + "::")[|t| + 2..];
      assert s + "::" == (t + "::") + y;
    }
    a, b := ChatEvent(s, 1, RunStarted(x)), ChatEvent(t, 1, RunStarted(y));
    assert ScopedId(s, x) == ScopedId(t, y);
  }

  /** The events of two sessions never touch a message, tool or run in common exactly if neither
      session id, with the separator, continues the other. */
  lemma SessionsAreSeparate(s: string, t: string)
    ensures (forall a: ChatEvent, b: ChatEvent :: a.sessionId == s && b.sessionId == t ==> Separate(a, b))
            <==> !Confusable(s, t)
  {
    if Confusable(s, t) {
      var a, b := ConfusableSessionsShare(s, t);
    } else {
      forall a: ChatEvent, b: ChatEvent | a.sessionId == s && b.sessionId == t ensures Separate(a, b) {
        ApartSessions(a, b);
      }
    }
  }

  /** Different session ids free of colons are such. */
  lemma PlainSessionsAreSeparate(a: ChatEvent, b: ChatEvent)
    requires a.sessionId != b.sessionId && ':' !in a.sessionId && ':' !in b.sessionId
    ensures Separate(a, b)
  {
    if a.sessionId + "::" <= b.sessionId + "::" {
      ColonFollows(a.sessionId, b.sessionId);
    }
    if b.sessionId + "::" <= a.sessionId + "::" {
      ColonFollows(b.sessionId, a.sessionId);
    }
    ApartSessions(a, b);
  }

  lemma ColonFollows(s: string, t: string)
    requires s + "::" <= t + "::"
    ensures s == t || ':' in t
  {
    if |s| < |t| {
      assert t[|s|] == (t + "::")[|s|] == ':';
    } else {
      assert s == (t + "::")[..|s|] == t;
    }
  }
}
