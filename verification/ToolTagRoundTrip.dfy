// Printing and parsing of tool tags are inverse: which fields, which tags, and exactly when.
module ToolTagRoundTrip {
  import opened Options
  import opened Texts
  import opened ToolTags

  // ---------------------------------------------------------------- the fields of a printed text

  /** The record filled with the values of the parts. */
  function Put(fields: map<string, string>, parts: seq<Part>): map<string, string>
    decreases |parts|
  {
    if parts == [] then fields else Put(fields[parts[0].key := parts[0].value], parts[1..])
  }

  predicate IsKey(key: string) {
    key != "" && forall i :: 0 <= i < |key| ==> IsWord(key[i])
  }

  lemma {:induction false} KeyLength(key: string, tail: string)
    requires forall i :: 0 <= i < |key| ==> IsWord(key[i])
    ensures WordLength(key + "=" + tail) == |key|
    decreases |key|
  {
    var text := key + "=" + tail;
    if key != "" {
      assert text[1..] == key[1..] + "=" + tail;
      KeyLength(key[1..], tail);
    }
  }

  /** After a space, a key and an equals sign the next field is that key with the value read there. */
  lemma NextFieldIs(key: string, text: string)
    requires IsKey(key) && ReadValue(text).Some?
    ensures NextField(" " + key + "=" + text)
            == Some(Field(key, ReadValue(text).value.text, ReadValue(text).value.rest))
  {
    hide ReadValue;
    var raw := " " + key + "=" + text;
    var rest := key + "=" + text;
    assert raw[1..] == rest;
    KeyLength(key, text);
    assert rest[|key| + 1..] == text && rest[..|key|] == key && rest[|key|] == '=';
    assert NextField(rest) == Some(Field(key, ReadValue(text).value.text, ReadValue(text).value.rest));
    assert WordLength(raw) == 0;
  }

  /** The part reads back before this tail: a quoted value if it is safe, a bare one if it is not
      empty, has no white space or bracket, and no opening quote that is closed. */
  predicate Readable(p: Part, tail: string) {
    if p.Quoted? then Safe(p.value) else p.value != "" && VisibleText(p.value) && !TakenAsQuoted(p.value, tail)
  }

  predicate AllReadable(parts: seq<Part>)
    decreases |parts|
  {
    parts == [] || (Readable(parts[0], PartsText(parts[1..])) && AllReadable(parts[1..]))
  }

  /** Every key is one, and every bare value at least begins with a character of a value. */
  predicate Printable(parts: seq<Part>) {
    forall i :: 0 <= i < |parts| ==>
        IsKey(parts[i].key) && (parts[i].Bare? ==> parts[i].value != "" && VisibleText(parts[i].value[..1]))
  }

  lemma TailEndsValue(parts: seq<Part>)
    ensures EndsValue(PartsText(parts))
  {
  }

  lemma PartReadBack(p: Part, tail: string)
    requires EndsValue(tail)
    requires p.Bare? ==> p.value != "" && VisibleText(p.value[..1])
    ensures var v := ReadValue((if p.Bare? then p.value else Quote(p.value)) + tail);
            v.Some? && (v.value == Value(p.value, tail) <==> Readable(p, tail))
  {
    hide QuotedLength, Unescape, Safe, VisibleText;
    if p.Bare? {
      BareReadBack(p.value, tail);
      FirstIsVisible(p.value, tail);
    } else {
      QuotedReadBack(p.value, tail);
      FirstIsVisible(Quote(p.value), tail);
    }
  }

  lemma FirstIsVisible(text: string, tail: string)
    requires text != "" && (text[0] == '"' || VisibleText(text[..1]))
    ensures ReadValue(text + tail).Some?
  {
  }

  lemma PartsTextSplit(parts: seq<Part>)
    requires parts != []
    ensures PartsText(parts)
            == " " + parts[0].key + "=" + ((if parts[0].Bare? then parts[0].value else Quote(parts[0].value))
                                           + PartsText(parts[1..]))
  {
    hide Quote;
    var p, tail := parts[0], PartsText(parts[1..]);
    Regroup(" " + p.key + "=", if p.Bare? then p.value else Quote(p.value), tail);
  }

  lemma Regroup(a: string, b: string, c: string)
    ensures (a + b) + c == a + (b + c)
  {
  }

  /** The scanner reads each part as one match, up to the text of the next. */
  predicate ReadsOff(raw: string, parts: seq<Part>)
    decreases |parts|
  {
    parts == [] ||
    (NextField(raw) == Some(Field(parts[0].key, parts[0].value, PartsText(parts[1..]))) &&
     ReadsOff(PartsText(parts[1..]), parts[1..]))
  }

  /** The parts are read off their text one by one exactly if each is readable before what follows. */
  lemma {:induction false} PartsReadBack(parts: seq<Part>)
    requires Printable(parts)
    ensures ReadsOff(PartsText(parts), parts) <==> AllReadable(parts)
    decreases |parts|
  {
    hide ReadValue, NextField, Readable, IsKey, Quote, VisibleText;
    if parts != [] {
      var p, tail := parts[0], PartsText(parts[1..]);
      TailEndsValue(parts[1..]);
      PartReadBack(p, tail);
      PartsTextSplit(parts);
      NextFieldIs(p.key, (if p.Bare? then p.value else Quote(p.value)) + tail);
      PartsReadBack(parts[1..]);
    }
  }

  lemma {:induction false} ReadFields(parts: seq<Part>, fields: map<string, string>)
    requires ReadsOff(PartsText(parts), parts)
    ensures FieldsOf(PartsText(parts), fields) == Put(fields, parts)
    decreases |parts|
  {
    hide NextField;
    if parts == [] {
      NoField();
    } else {
      ReadFields(parts[1..], fields[parts[0].key := parts[0].value]);
    }
  }

  lemma NoField()
    ensures NextField("") == None
  {
  }

  // ---------------------------------------------------------------- finding the tag

  lemma {:induction false} UpToBracketIs(text: string, after: string)
    requires ']' !in text
    ensures UpToBracket(text + "]" + after) == Some(text)
    decreases |text|
  {
    var whole := text + "]" + after;
    if text != "" {
      assert whole[1..] == text[1..] + "]" + after;
      UpToBracketIs(text[1..], after);
      assert text == [text[0]] + text[1..];
    }
  }

  function KindOf(t: Tag): Kind {
    match t
    case CredentialRequired(_, _, _, _, _) => CredentialKind
    case SoftDegraded(_, _, _) => SoftKind
    case Skipped(_, _, _) => SkippedKind
    case Connected(_) => ConnectedKind
    case ExternalToolRequired(_, _, _, _, _) => ToolKind
  }

  lemma StripPrinted(t: Tag, rest: string)
    ensures StripKind(KindText(t) + rest) == Some((KindOf(t), rest))
  {
    var text := KindText(t) + rest;
    match t
    case CredentialRequired(_, _, _, _, _) => assert text[..19] == "CREDENTIAL_REQUIRED" && text[19..] == rest;
    case SoftDegraded(_, _, _) => assert text[..13] == "SOFT_DEGRADED" && text[13..] == rest && text[0] == 'S';
    case Skipped(_, _, _) => assert text[..7] == "SKIPPED" && text[7..] == rest && text[0] == 'S' && text[1] == 'K';
    case Connected(_) => assert text[..9] == "CONNECTED" && text[9..] == rest && text[0] == 'C' && text[1] == 'O';
    case ExternalToolRequired(_, _, _, _, _) =>
      assert text[..22] == "EXTERNAL_TOOL_REQUIRED" && text[22..] == rest && text[0] == 'E';
  }

  /** No tag of the text begins before position n. */
  ghost predicate NoTagBefore(text: string, n: nat)
    requires n <= |text|
  {
    forall i :: 0 <= i < n ==> TagAt(text[i..]).None?
  }

  lemma {:induction false} FindSkips(text: string, n: nat)
    requires n < |text| && NoTagBefore(text, n) && TagAt(text[n..]).Some?
    ensures FindTag(text) == TagAt(text[n..])
    decreases n
  {
    hide TagAt;
    assert text[0..] == text;
    if n > 0 {
      var rest := text[1..];
      assert rest[n - 1..] == text[n..];
      forall i | 0 <= i < n - 1 ensures TagAt(rest[i..]).None? {
        assert rest[i..] == text[i + 1..];
      }
      FindSkips(rest, n - 1);
    }
  }

  /** The start of a tag does not occur in the text. */
  ghost predicate Untagged(text: string) {
    forall i :: 0 <= i < |text| ==> !(PREFIX <= text[i..])
  }

  /** Text in which no tag starts can stand before a tag, other brackets or not. */
  lemma UntaggedHasNoTag(before: string, t: Tag, after: string)
    requires Untagged(before)
    ensures NoTagBefore(before + Print(t) + after, |before|)
  {
    hide PartsText, KindText, StripKind, UpToBracket, Parts;
    var text, n := before + Print(t) + after, |before|;
    assert text[n] == Print(t)[0] == '[';
    forall i | 0 <= i < n ensures TagAt(text[i..]).None? {
      if PREFIX <= text[i..] {
        PrefixWithin(text, i, n);
        SamePrefix(before, text, i);
      }
    }
  }

  lemma SamePrefix(before: string, text: string, i: nat)
    requires before <= text && i + |PREFIX| <= |before| && PREFIX <= text[i..]
    ensures PREFIX <= before[i..]
  {
    assert before[i..][..|PREFIX|] == text[i..][..|PREFIX|] == PREFIX;
  }

  /** A tag's start has a bracket only at its own start, so it does not reach into the next tag's. */
  lemma PrefixWithin(text: string, i: nat, n: nat)
    requires i < n < |text| && text[n] == '[' && PREFIX <= text[i..]
    ensures i + |PREFIX| <= n
  {
    if n < i + |PREFIX| {
      assert text[i..][n - i] == PREFIX[n - i];
      BracketIsFirst(n - i);
    }
  }

  lemma BracketIsFirst(k: nat)
    requires 0 < k < |PREFIX|
    ensures PREFIX[k] != '['
  {
  }

  /** A printed tag is found in any text that has no tag before it. */
  lemma PrintedIsFound(t: Tag, before: string, after: string)
    requires NoTagBefore(before + Print(t) + after, |before|) && ']' !in PartsText(Parts(t))
    ensures FindTag(before + Print(t) + after) == Some((KindOf(t), PartsText(Parts(t))))
  {
    hide Parts, PartsText, KindText, StripKind, UpToBracket;
    var fields := PartsText(Parts(t));
    var text := Print(t) + after;
    assert text == PREFIX + (KindText(t) + (fields + "]" + after));
    assert text[|PREFIX|..] == KindText(t) + (fields + "]" + after) && text[..|PREFIX|] == PREFIX;
    StripPrinted(t, fields + "]" + after);
    UpToBracketIs(fields, after);
    assert before + Print(t) + after == before + text && (before + text)[|before|..] == text;
    FindSkips(before + text, |before|);
  }

  // ---------------------------------------------------------------- lists and numbers

  predicate PlainItem(item: string) {
    item != "" && Trimmed(item) && ',' !in item
  }

  lemma {:induction false} TrimStartKeepsCharacters(s: string)
    ensures forall c :: c in TrimStart(s) ==> c in s
    decreases |s|
  {
    hide IsSpace;
    if s != "" {
      TrimStartKeepsCharacters(s[1..]);
      assert s == [s[0]] + s[1..];
    }
  }

  lemma TrimKeepsCharacters(s: string)
    ensures forall c :: c in Trim(s) ==> c in s
  {
    hide IsSpace;
    TrimStartKeepsCharacters(s);
    TrimEndMeaning(TrimStart(s));
    assert Trim(s) == TrimStart(s)[..|Trim(s)|];
  }

  lemma {:induction false} ItemsArePlain(parts: seq<string>)
    requires forall i :: 0 <= i < |parts| ==> ',' !in parts[i]
    ensures forall i :: 0 <= i < |Items(parts)| ==> PlainItem(Items(parts)[i])
    decreases |parts|
  {
    hide Trim, Trimmed, IsSpace;
    if parts != [] {
      ItemsArePlain(parts[1..]);
      TrimMeaning(parts[0]);
      TrimKeepsCharacters(parts[0]);
    }
  }

  lemma {:induction false} SplitOff(item: string, text: string)
    requires ',' !in item
    ensures SplitAtCommas(item + "," + text) == [item] + SplitAtCommas(text)
    ensures SplitAtCommas(item) == [item]
    decreases |item|
  {
    var whole := item + "," + text;
    if item == "" {
      assert whole[1..] == text;
    } else {
      assert whole[1..] == item[1..] + "," + text;
      SplitOff(item[1..], text);
      assert item == [item[0]] + item[1..];
    }
  }

  lemma SpaceIsTrimmed(text: string)
    ensures Items(SplitAtCommas(" " + text)) == Items(SplitAtCommas(text))
  {
  }

  lemma {:induction false} PlainItemsReadBack(items: seq<string>)
    requires forall i :: 0 <= i < |items| ==> PlainItem(items[i])
    ensures Items(SplitAtCommas(Join(items))) == items
    decreases |items|
  {
    hide Trim, Trimmed, IsSpace;
    if items == [] {
      TrimMeaning("");
      assert SplitAtCommas("") == [""] && [""][1..] == [];
    } else {
      TrimMeaning(items[0]);
      if |items| == 1 {
        SplitOff(items[0], "");
        assert Items([items[0]]) == [items[0]] + Items([]);
      } else {
        var rest := Join(items[1..]);
        assert Join(items) == items[0] + "," + (" " + rest);
        SplitOff(items[0], " " + rest);
        SpaceIsTrimmed(rest);
        PlainItemsReadBack(items[1..]);
        var parts := [items[0]] + SplitAtCommas(" " + rest);
        assert parts[1..] == SplitAtCommas(" " + rest);
      }
    }
  }

  /** A joined list is read back exactly if its items are not empty, trimmed and free of commas. */
  lemma ListReadBack(items: seq<string>)
    ensures Items(SplitAtCommas(Join(items))) == items <==> forall i :: 0 <= i < |items| ==> PlainItem(items[i])
  {
    hide SplitAtCommas, Items, Join, PlainItem;
    ItemsArePlain(SplitAtCommas(Join(items)));
    if forall i :: 0 <= i < |items| ==> PlainItem(items[i]) {
      PlainItemsReadBack(items);
    }
  }

  predicate IsDigit(c: char) {
    '0' <= c <= '9'
  }

  lemma DigitReadBack(n: nat)
    requires n < 10
    ensures IsDigit(Digit(n)) && DigitValue(Digit(n)) == n
  {
  }

  lemma {:induction false} DecimalReadBack(n: nat)
    ensures Number(Decimal(n)) == Some(n)
    ensures Decimal(n) != "" && forall i :: 0 <= i < |Decimal(n)| ==> IsDigit(Decimal(n)[i])
    decreases n
  {
    var text := Decimal(n);
    DigitReadBack(n % 10);
    if n >= 10 {
      DecimalReadBack(n / 10);
      assert text[..|text| - 1] == Decimal(n / 10);
    }
  }

  // ---------------------------------------------------------------- the tags

  /** What the parser tells apart: empty texts and the word none stand for absent values. */
  predicate Plain(t: Tag) {
    match t
    case CredentialRequired(_, _, unlocks, fallback, _) =>
      fallback != Some("none") && forall i :: 0 <= i < |unlocks| ==> PlainItem(unlocks[i])
    case SoftDegraded(_, _, remediation) => remediation != ""
    case Skipped(_, remediation, _) => remediation != ""
    case Connected(_) => true
    case ExternalToolRequired(_, _, installCmd, loginCmd, fallback) =>
      installCmd != "" && loginCmd != Some("") && fallback != Some("none")
  }

  lemma FallbackReadBack(fallback: Option<string>)
    ensures fallback == (if FallbackText(fallback) == "none" then None else Some(FallbackText(fallback)))
            <==> fallback != Some("none")
  {
  }

  lemma ToolFields(t: Tag)
    requires t.ExternalToolRequired?
    ensures var f := Put(map[], Parts(t));
            Get(f, "provider") == Some(t.provider) && Get(f, "reason") == Some(ToolReasonText(t.toolReason)) &&
            Get(f, "installCmd") == Some(t.installCmd) &&
              Get(f, "fallback") == Some(FallbackText(t.optionalFallback)) &&
            Get(f, "loginCmd") == if t.loginCmd == Some("") then None else t.loginCmd
  {
    hide ToolReasonText, FallbackText, Put, Get;
    var parts := Parts(t);
    PutParts(t, "provider");
    PutParts(t, "reason");
    PutParts(t, "installCmd");
    PutParts(t, "fallback");
    PutParts(t, "loginCmd");
    assert parts[0].key == "provider" && parts[1].key == "reason" && parts[2].key == "installCmd" &&
           parts[3].key == "fallback";
    assert |parts| == 5 ==> parts[4].key == "loginCmd";
  }

  lemma CredentialFields(t: Tag)
    requires t.CredentialRequired?
    ensures var f := Put(map[], Parts(t));
            Get(f, "provider") == Some(t.provider) &&
              Get(f, "reason") == Some(CredentialReasonText(t.credentialReason)) &&
            Get(f, "unlocks") == Some(Join(t.unlocks)) &&
              Get(f, "fallback") == Some(FallbackText(t.optionalFallback)) &&
            Get(f, "httpStatus") == if t.httpStatus.Some? then Some(Decimal(t.httpStatus.value)) else None
  {
    hide CredentialReasonText, FallbackText, Put, Join, Decimal, Get;
    var parts := Parts(t);
    PutParts(t, "provider");
    PutParts(t, "reason");
    PutParts(t, "unlocks");
    PutParts(t, "fallback");
    PutParts(t, "httpStatus");
    assert parts[0].key == "provider" && parts[1].key == "reason" && parts[2].key == "unlocks" &&
           parts[3].key == "fallback";
    assert |parts| == 5 ==> parts[4].key == "httpStatus";
  }

  lemma FromCredential(t: Tag)
    requires t.CredentialRequired? && t.provider != ""
    ensures FromFields(CredentialKind, Put(map[], Parts(t))) == Some(t) <==> Plain(t)
  {
    hide Items, SplitAtCommas, Join, Decimal, Number, PlainItem, Put, Parts, FallbackText;
    ListReadBack(t.unlocks);
    CredentialFields(t);
    FallbackReadBack(t.optionalFallback);
    if t.httpStatus.Some? {
      DecimalReadBack(t.httpStatus.value);
    }
  }

  lemma FromSoft(t: Tag)
    requires t.SoftDegraded? && t.provider != "" && t.fallback != ""
    ensures FromFields(SoftKind, Put(map[], Parts(t))) == Some(t) <==> Plain(t)
  {
    hide Put;
    var parts := Parts(t);
    PutParts(t, "provider");
    PutParts(t, "fallback");
    PutParts(t, "remediation");
    assert parts[0].key == "provider" && parts[1].key == "fallback" && parts[2].key == "remediation";
  }

  lemma FromSkipped(t: Tag)
    requires t.Skipped? && t.provider != ""
    ensures FromFields(SkippedKind, Put(map[], Parts(t))) == Some(t) <==> Plain(t)
  {
    hide Put;
    var parts := Parts(t);
    PutParts(t, "provider");
    PutParts(t, "reason");
    PutParts(t, "remediation");
    PutParts(t, "silenced");
    assert parts[0].key == "provider" && parts[1].key == "reason" && parts[2].key == "remediation";
    assert |parts| == 4 ==> parts[3].key == "silenced";
  }

  lemma FromTool(t: Tag)
    requires t.ExternalToolRequired? && t.provider != ""
    ensures FromFields(ToolKind, Put(map[], Parts(t))) == Some(t) <==> Plain(t)
  {
    hide Put, Parts, FallbackText;
    ToolFields(t);
    FallbackReadBack(t.optionalFallback);
  }

  lemma FromConnected(t: Tag)
    requires t.Connected? && t.provider != ""
    ensures FromFields(ConnectedKind, Put(map[], Parts(t))) == Some(t)
  {
  }

  ghost predicate DistinctKeys(parts: seq<Part>) {
    forall i, j :: 0 <= i < j < |parts| ==> parts[i].key != parts[j].key
  }

  lemma {:induction false} PutAdds(fields: map<string, string>, parts: seq<Part>, key: string)
    requires DistinctKeys(parts)
    ensures (forall i :: 0 <= i < |parts| ==> parts[i].key != key) ==> Get(Put(fields, parts), key) == Get(fields, key)
    ensures forall i :: 0 <= i < |parts| && parts[i].key == key ==> Get(Put(fields, parts), key) == Some(parts[i].value)
    decreases |parts|
  {
    if parts != [] {
      var rest := parts[1..];
      assert forall i :: 0 < i < |parts| ==> parts[i] == rest[i - 1];
      assert forall i :: 0 <= i < |rest| ==> rest[i] == parts[i + 1];
      PutAdds(fields[parts[0].key := parts[0].value], rest, key);
    }
  }

  /** The record of a tag's parts has the values of the parts, and no other field. */
  lemma PutParts(t: Tag, key: string)
    ensures var parts, f := Parts(t), Put(map[], Parts(t));
            ((forall i :: 0 <= i < |parts| ==> parts[i].key != key) ==> Get(f, key) == None) &&
            forall i :: 0 <= i < |parts| && parts[i].key == key ==> Get(f, key) == Some(parts[i].value)
  {
    hide Parts;
    PartsAreDistinct(t);
    PutAdds(map[], Parts(t), key);
  }

  lemma PartsAreDistinct(t: Tag)
    ensures DistinctKeys(Parts(t))
  {
    hide Decimal, Join, FallbackText, CredentialReasonText, ToolReasonText;
  }

  lemma BracketFreeRoundTrip(t: Tag, before: string, after: string)
    requires NoTagBefore(before + Print(t) + after, |before|) && ']' !in PartsText(Parts(t))
    requires Printable(Parts(t)) && AllReadable(Parts(t))
    ensures Parse(before + Print(t) + after) == Some(t) <==> Plain(t)
  {
    hide PartsText, FromFields, Print, FindTag, AllReadable, Plain, NoTagBefore;
    PrintedIsFound(t, before, after);
    PartsReadBack(Parts(t));
    ReadFields(Parts(t), map[]);
    assert Parts(t)[0].value != "" && (t.SoftDegraded? ==> Parts(t)[1].value != "");
    match t
    case CredentialRequired(_, _, _, _, _) => FromCredential(t);
    case SoftDegraded(_, _, _) => FromSoft(t);
    case Skipped(_, _, _) => FromSkipped(t);
    case ExternalToolRequired(_, _, _, _, _) => FromTool(t);
    case Connected(_) =>
      FromConnected(t);
      ConnectedIsPlain(t);
  }

  /** Printing and parsing, with any text around the tag but an earlier tag: if every part is readable, a tag comes back
      exactly if it is plain and no closing bracket is printed inside it. */
  lemma RoundTrip(t: Tag, before: string, after: string)
    requires NoTagBefore(before + Print(t) + after, |before|) && Printable(Parts(t)) && AllReadable(Parts(t))
    ensures Parse(before + Print(t) + after) == Some(t) <==> Plain(t) && ']' !in PartsText(Parts(t))
  {
    hide Plain, Parts, PartsText, Parse, Print, AllReadable, NoTagBefore;
    ParsedTagsHaveNoBracket(before + Print(t) + after);
    if ']' !in PartsText(Parts(t)) {
      BracketFreeRoundTrip(t, before, after);
    }
  }

  lemma ConnectedIsPlain(t: Tag)
    requires t.Connected?
    ensures Plain(t)
  {
  }

  // ---------------------------------------------------------------- ordinary tags

  lemma {:induction false} NoBackslashIsSafe(value: string)
    requires '\\' !in value
    ensures Safe(value)
    decreases |value|
  {
    if value != "" {
      NoBackslashIsSafe(value[1..]);
    }
  }

  /** A provider id, or a fallback of visible text without an opening quote. */
  predicate OrdinaryBare(value: string) {
    value != "" && VisibleText(value) && value[0] != '"'
  }

  /** Quoted values are free of backslashes; quotes, equals signs and field-like text are welcome. */
  predicate Ordinary(t: Tag) {
    IsKey(t.provider) &&
    match t
    case CredentialRequired(_, _, unlocks, fallback, _) =>
      '\\' !in Join(unlocks) && OrdinaryBare(FallbackText(fallback))
    case SoftDegraded(_, fallback, remediation) => OrdinaryBare(fallback) && '\\' !in remediation
    case Skipped(_, remediation, _) => '\\' !in remediation
    case Connected(_) => true
    case ExternalToolRequired(_, _, installCmd, loginCmd, fallback) =>
      '\\' !in installCmd && OrdinaryBare(FallbackText(fallback)) && (loginCmd.Some? ==> '\\' !in loginCmd.value)
  }

  predicate OrdinaryPart(p: Part) {
    IsKey(p.key) && if p.Bare? then OrdinaryBare(p.value) else '\\' !in p.value
  }

  lemma {:induction false} OrdinaryPartsReadable(parts: seq<Part>)
    requires forall i :: 0 <= i < |parts| ==> OrdinaryPart(parts[i])
    ensures Printable(parts) && AllReadable(parts)
    decreases |parts|
  {
    hide Safe, PartText;
    if parts != [] {
      OrdinaryPartsReadable(parts[1..]);
      assert parts == [parts[0]] + parts[1..];
      assert OrdinaryPart(parts[0]);
      if parts[0].Quoted? {
        NoBackslashIsSafe(parts[0].value);
      }
    }
  }

  lemma WordsAreOrdinary(value: string)
    requires IsKey(value)
    ensures OrdinaryBare(value)
  {
  }

  lemma DigitsAreWords(n: nat)
    ensures IsKey(Decimal(n))
  {
  }

  lemma KeysAreKeys()
    ensures IsKey("provider") && IsKey("reason") && IsKey("unlocks") && IsKey("fallback") && IsKey("httpStatus")
    ensures IsKey("remediation") && IsKey("silenced") && IsKey("installCmd") && IsKey("loginCmd")
  {
  }

  lemma ConstantsAreKeys(r: CredentialReason, s: ToolReason)
    ensures IsKey("credential_not_provided") && IsKey("true") && IsKey(CredentialReasonText(r)) &&
            IsKey(ToolReasonText(s))
  {
    hide IsKey;
    LongKeys();
    ReasonKeys();
  }

  lemma LongKeys()
    ensures IsKey("credential_not_provided") && IsKey("true")
  {
  }

  lemma ReasonKeys()
    ensures IsKey("missing") && IsKey("stale")
    ensures IsKey("not_installed") && IsKey("session_missing") && IsKey("session_stale")
  {
  }

  lemma OrdinaryParts(t: Tag)
    requires Ordinary(t)
    ensures forall i :: 0 <= i < |Parts(t)| ==> OrdinaryPart(Parts(t)[i])
  {
    hide OrdinaryBare, IsKey, Join, Decimal, CredentialReasonText, ToolReasonText, FallbackText;
    KeysAreKeys();
    ConstantsAreKeys(if t.CredentialRequired? then t.credentialReason else Missing,
                     if t.ExternalToolRequired? then t.toolReason else NotInstalled);
    WordsAreOrdinary(t.provider);
    match t
    case CredentialRequired(_, reason, _, _, httpStatus) =>
      WordsAreOrdinary(CredentialReasonText(reason));
      if httpStatus.Some? {
        DigitsAreWords(httpStatus.value);
        WordsAreOrdinary(Decimal(httpStatus.value));
      }
    case SoftDegraded(_, _, _) =>
    case Skipped(_, _, silenced) =>
      WordsAreOrdinary("credential_not_provided");
      WordsAreOrdinary("true");
    case Connected(_) =>
    case ExternalToolRequired(_, reason, _, _, _) => WordsAreOrdinary(ToolReasonText(reason));
  }

  /** Parsing the print of an ordinary tag, in text where no other tag starts before it, gives it back
      exactly if it is plain and without closing brackets. */
  lemma OrdinaryRoundTrip(t: Tag, before: string, after: string)
    requires Ordinary(t) && Untagged(before)
    ensures Parse(before + Print(t) + after) == Some(t) <==> Plain(t) && ']' !in PartsText(Parts(t))
  {
    hide Ordinary, Plain, Parts, OrdinaryPart, PartsText, Parse, Print, NoTagBefore, Untagged;
    OrdinaryParts(t);
    OrdinaryPartsReadable(Parts(t));
    UntaggedHasNoTag(before, t, after);
    RoundTrip(t, before, after);
  }

  // ---------------------------------------------------------------- brackets

  /** No text of the map has a closing bracket. */
  ghost predicate NoBrackets(fields: map<string, string>) {
    forall k :: k in fields ==> ']' !in fields[k]
  }

  lemma {:induction false} UnescapeKeepsCharacters(text: string)
    ensures forall c :: c in Unescape(text) ==> c in text
    decreases |text|
  {
    if text != "" {
      assert text == [text[0]] + text[1..];
      if text[0] == '\\' && |text| >= 2 && text[1] == '"' {
        UnescapeKeepsCharacters(text[2..]);
        assert text[1..] == [text[1]] + text[2..];
      } else {
        UnescapeKeepsCharacters(text[1..]);
      }
    }
  }

  lemma ReadValueHasNoBracket(raw: string)
    requires ']' !in raw && ReadValue(raw).Some?
    ensures ']' !in ReadValue(raw).value.text && ']' !in ReadValue(raw).value.rest
  {
    if raw[0] == '"' && QuotedLength(raw[1..]).Some? {
      UnescapeKeepsCharacters(raw[1..QuotedLength(raw[1..]).value + 1]);
    }
  }

  lemma {:induction false} NextFieldHasNoBracket(raw: string)
    requires ']' !in raw && NextField(raw).Some?
    ensures ']' !in NextField(raw).value.value && ']' !in NextField(raw).value.rest
    decreases |raw|
  {
    hide ReadValue;
    var w := WordLength(raw);
    if 0 < w < |raw| && raw[w] == '=' && ReadValue(raw[w + 1..]).Some? {
      ReadValueHasNoBracket(raw[w + 1..]);
    } else {
      NextFieldHasNoBracket(raw[1..]);
    }
  }

  lemma {:induction false} FieldsHaveNoBracket(raw: string, fields: map<string, string>)
    requires ']' !in raw && NoBrackets(fields)
    ensures NoBrackets(FieldsOf(raw, fields))
    decreases |raw|
  {
    hide NextField;
    match NextField(raw)
    case None =>
    case Some(f) =>
      NextFieldHasNoBracket(raw);
      FieldsHaveNoBracket(f.rest, fields[f.key := f.value]);
  }

  lemma {:induction false} UpToBracketHasNone(text: string)
    ensures UpToBracket(text).Some? ==> ']' !in UpToBracket(text).value
    decreases |text|
  {
    if text != "" && text[0] != ']' {
      UpToBracketHasNone(text[1..]);
    }
  }

  lemma {:induction false} FoundHasNoBracket(text: string)
    ensures FindTag(text).Some? ==> ']' !in FindTag(text).value.1
    decreases |text|
  {
    hide StripKind, UpToBracket;
    if text != "" {
      if PREFIX <= text && StripKind(text[|PREFIX|..]).Some? {
        UpToBracketHasNone(StripKind(text[|PREFIX|..]).value.1);
      }
      FoundHasNoBracket(text[1..]);
    }
  }

  lemma {:induction false} SplitKeepsCharacters(text: string, i: nat)
    requires i < |SplitAtCommas(text)|
    ensures forall c :: c in SplitAtCommas(text)[i] ==> c in text
    decreases |text|
  {
    if text != "" {
      var rest := SplitAtCommas(text[1..]);
      assert text == [text[0]] + text[1..];
      if text[0] == ',' {
        if i > 0 { SplitKeepsCharacters(text[1..], i - 1); }
      } else {
        SplitKeepsCharacters(text[1..], i);
      }
    }
  }

  lemma {:induction false} ItemsHaveNoBracket(parts: seq<string>)
    requires forall i :: 0 <= i < |parts| ==> ']' !in parts[i]
    ensures ']' !in Join(Items(parts))
    ensures forall i :: 0 <= i < |Items(parts)| ==> ']' !in Items(parts)[i]
    decreases |parts|
  {
    hide Trim;
    if parts != [] {
      TrimKeepsCharacters(parts[0]);
      ItemsHaveNoBracket(parts[1..]);
    }
    JoinHasNoBracket(Items(parts));
  }

  lemma {:induction false} JoinHasNoBracket(items: seq<string>)
    requires forall i :: 0 <= i < |items| ==> ']' !in items[i]
    ensures ']' !in Join(items)
    decreases |items|
  {
    if items != [] {
      JoinHasNoBracket(items[1..]);
    }
  }

  lemma {:induction false} EscapeHasNoBracket(value: string)
    requires ']' !in value
    ensures ']' !in Escape(value)
    decreases |value|
  {
    if value != "" {
      EscapeHasNoBracket(value[1..]);
    }
  }

  lemma {:induction false} PartsHaveNoBracket(parts: seq<Part>)
    requires forall i :: 0 <= i < |parts| ==> IsKey(parts[i].key) && ']' !in parts[i].value
    ensures ']' !in PartsText(parts)
    decreases |parts|
  {
    if parts != [] {
      EscapeHasNoBracket(parts[0].value);
      PartsHaveNoBracket(parts[1..]);
    }
  }

  lemma CredentialHasNoBracket(fields: map<string, string>)
    requires NoBrackets(fields) && ParseCredential(fields).Some?
    ensures ']' !in PartsText(Parts(ParseCredential(fields).value))
  {
    hide Parts, PartsText, Items, SplitAtCommas, Join, Number;
    var t := ParseCredential(fields).value;
    var unlocks := if "unlocks" in fields then fields["unlocks"] else "";
    forall i | 0 <= i < |SplitAtCommas(unlocks)| ensures ']' !in SplitAtCommas(unlocks)[i] {
      SplitKeepsCharacters(unlocks, i);
    }
    ItemsHaveNoBracket(SplitAtCommas(unlocks));
    CredentialParts(t);
  }

  lemma CredentialParts(t: Tag)
    requires t.CredentialRequired? && ']' !in t.provider && ']' !in Join(t.unlocks) &&
             ']' !in FallbackText(t.optionalFallback)
    ensures ']' !in PartsText(Parts(t))
  {
    hide IsKey, PartsText, Join, Decimal, FallbackText;
    KeysAreKeys();
    if t.httpStatus.Some? {
      DecimalReadBack(t.httpStatus.value);
    }
    PartsHaveNoBracket(Parts(t));
  }

  lemma OthersHaveNoBracket(kind: Kind, fields: map<string, string>)
    requires kind != CredentialKind && NoBrackets(fields) && FromFields(kind, fields).Some?
    ensures ']' !in PartsText(Parts(FromFields(kind, fields).value))
  {
    hide IsKey, PartsText;
    KeysAreKeys();
    PartsHaveNoBracket(Parts(FromFields(kind, fields).value));
  }

  /** A tag with a closing bracket in any printed value is never the result of a parse, so its own
      print does not come back. */
  lemma ParsedTagsHaveNoBracket(text: string)
    ensures Parse(text).Some? ==> ']' !in PartsText(Parts(Parse(text).value))
  {
    hide FindTag, FieldsOf, ParseCredential, Parts, PartsText;
    FoundHasNoBracket(text);
    if FindTag(text).Some? {
      var (kind, rest) := FindTag(text).value;
      FieldsHaveNoBracket(rest, map[]);
      if FromFields(kind, FieldsOf(rest, map[])).Some? {
        if kind == CredentialKind {
          CredentialHasNoBracket(FieldsOf(rest, map[]));
        } else {
          OthersHaveNoBracket(kind, FieldsOf(rest, map[]));
        }
      }
    }
  }

  // ---------------------------------------------------------------- what does not come back

  /** Values that the promise of the tag format does not name, and that are lost: the fallback
      "none", a list item with a comma, an empty command. */
  lemma LostValues()
    ensures var t := CredentialRequired("fred", Missing, [], Some("none"), None);
            Ordinary(t) && Parse(Print(t)) != Some(t)
    ensures var t := CredentialRequired("fred", Missing, ["a,b"], None, None); Ordinary(t) && Parse(Print(t)) != Some(t)
    ensures var t := ExternalToolRequired("reddit", NotInstalled, "", None, None);
            Ordinary(t) && Parse(Print(t)) != Some(t)
  {
    hide Print, Parse, PartsText, Parts;
    assert "a,b"[1] == ',';
    LostTag(CredentialRequired("fred", Missing, [], Some("none"), None));
    LostTag(CredentialRequired("fred", Missing, ["a,b"], None, None));
    LostTag(ExternalToolRequired("reddit", NotInstalled, "", None, None));
  }

  lemma LostTag(t: Tag)
    requires Ordinary(t) && !Plain(t)
    ensures Parse(Print(t)) != Some(t)
  {
    hide Ordinary, Plain, PartsText, Parts, Print, Parse;
    assert "" + Print(t) + "" == Print(t);
    OrdinaryRoundTrip(t, "", "");
  }
}
