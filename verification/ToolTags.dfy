// The tag printers and the tag parser of src/onboarding/tool-tags.ts. The two regular expressions
// are written out as scanners over the text.
module ToolTags {
  import opened Options
  import opened Texts

  datatype CredentialReason = Missing | Stale

  datatype ToolReason = NotInstalled | SessionMissing | SessionStale

  datatype Tag =
    | CredentialRequired(provider: string, credentialReason: CredentialReason, unlocks: seq<string>,
        optionalFallback: Option<string>, httpStatus: Option<nat>)
    | SoftDegraded(provider: string, fallback: string, remediation: string)
    | Skipped(provider: string, remediation: string, silenced: bool)
    | Connected(provider: string)
    | ExternalToolRequired(provider: string, toolReason: ToolReason, installCmd: string, loginCmd: Option<string>,
        optionalFallback: Option<string>)

  // ---------------------------------------------------------------- printing

  /** Every `"` becomes `\"`. */
  function Escape(value: string): (r: string)
    ensures r != "" <==> value != ""
    ensures r != "" ==> r[0] != '"'
    decreases |value|
  {
    if value == "" then "" else (if value[0] == '"' then "\\\"" else [value[0]]) + Escape(value[1..])
  }

  function Quote(value: string): string {
    "\"" + Escape(value) + "\""
  }

  /** One part of a tag, `key=value`, with its value bare or quoted. */
  datatype Part = Bare(key: string, value: string) | Quoted(key: string, value: string)

  function PartText(p: Part): string {
    " " + p.key + "=" + if p.Bare? then p.value else Quote(p.value)
  }

  /** The parts are joined by spaces. */
  function PartsText(parts: seq<Part>): string
    decreases |parts|
  {
    if parts == [] then "" else PartText(parts[0]) + PartsText(parts[1..])
  }

  function Join(items: seq<string>): string
    decreases |items|
  {
    if items == [] then "" else if |items| == 1 then items[0] else items[0] + ", " + Join(items[1..])
  }

  function Digit(n: nat): char
    requires n < 10
  {
    "0123456789"[n]
  }

  function Decimal(n: nat): string {
    if n < 10 then [Digit(n)] else Decimal(n / 10) + [Digit(n % 10)]
  }

  function CredentialReasonText(r: CredentialReason): string {
    match r
    case Missing => "missing"
    case Stale => "stale"
  }

  function ToolReasonText(r: ToolReason): string {
    match r
    case NotInstalled => "not_installed"
    case SessionMissing => "session_missing"
    case SessionStale => "session_stale"
  }

  function FallbackText(fallback: Option<string>): string {
    if fallback.Some? then fallback.value else "none"
  }

  const PREFIX := "[OPENCANDLE_"

  function KindText(t: Tag): string {
    match t
    case CredentialRequired(_, _, _, _, _) => "CREDENTIAL_REQUIRED"
    case SoftDegraded(_, _, _) => "SOFT_DEGRADED"
    case Skipped(_, _, _) => "SKIPPED"
    case Connected(_) => "CONNECTED"
    case ExternalToolRequired(_, _, _, _, _) => "EXTERNAL_TOOL_REQUIRED"
  }

  function Parts(t: Tag): seq<Part> {
    match t
    case CredentialRequired(provider, reason, unlocks, fallback, httpStatus) =>
      [Bare("provider", provider), Bare("reason", CredentialReasonText(reason)), Quoted("unlocks", Join(unlocks)),
       Bare("fallback", FallbackText(fallback))]
      + if httpStatus.Some? then [Bare("httpStatus", Decimal(httpStatus.value))] else []
    case SoftDegraded(provider, fallback, remediation) =>
      [Bare("provider", provider), Bare("fallback", fallback), Quoted("remediation", remediation)]
    case Skipped(provider, remediation, silenced) =>
      [Bare("provider", provider), Bare("reason", "credential_not_provided"), Quoted("remediation", remediation)]
      + if silenced then [Bare("silenced", "true")] else []
    case Connected(provider) => [Bare("provider", provider)]
    case ExternalToolRequired(provider, reason, installCmd, loginCmd, fallback) =>
      [Bare("provider", provider), Bare("reason", ToolReasonText(reason)), Quoted("installCmd", installCmd),
       Bare("fallback", FallbackText(fallback))]
      + if loginCmd.Some? && loginCmd.value != "" then [Quoted("loginCmd", loginCmd.value)] else []
  }

  function Print(t: Tag): string {
    PREFIX + KindText(t) + PartsText(Parts(t)) + "]"
  }

  // ---------------------------------------------------------------- scanning fields

  predicate IsWord(c: char) {
    'a' <= c <= 'z' || 'A' <= c <= 'Z' || '0' <= c <= '9' || c == '_'
  }

  /** `\w` of a JavaScript pattern, character by character. */
  lemma WordCharacters(c: char)
    ensures IsWord(c)
            <==> c in {'a', 'b', 'c', 'd', 'e', 'f', 'g', 'h', 'i', 'j', 'k', 'l', 'm', 'n', 'o', 'p', 'q', 'r',
                       's', 't', 'u', 'v', 'w', 'x', 'y', 'z', 'A', 'B', 'C', 'D', 'E', 'F', 'G', 'H', 'I', 'J',
                       'K', 'L', 'M', 'N', 'O', 'P', 'Q', 'R', 'S', 'T', 'U', 'V', 'W', 'X', 'Y', 'Z', '0', '1',
                       '2', '3', '4', '5', '6', '7', '8', '9', '_'}
  {
  }

  predicate EndsLine(c: char) {
    c in {'\n', '\r', '\U{2028}', '\U{2029}'}
  }

  function WordLength(raw: string): (n: nat)
    ensures n <= |raw|
    ensures forall i :: 0 <= i < n ==> IsWord(raw[i])
    ensures n < |raw| ==> !IsWord(raw[n])
    decreases |raw|
  {
    if raw != "" && IsWord(raw[0]) then 1 + WordLength(raw[1..]) else 0
  }

  /** How many characters stand before the closing quote, if the text after an opening quote has one. */
  function QuotedLength(raw: string): (n: Option<nat>)
    ensures n.Some? ==> n.value < |raw| && raw[n.value] == '"'
    decreases |raw|
  {
    if raw == "" then None
    else if raw[0] == '"' then Some(0)
    else if raw[0] != '\\' then Shifted(1, QuotedLength(raw[1..]))
    else if |raw| >= 2 && !EndsLine(raw[1]) then Shifted(2, QuotedLength(raw[2..]))
    else None
  }

  function Shifted(k: nat, n: Option<nat>): Option<nat> {
    if n.Some? then Some(k + n.value) else None
  }

  /** How many characters a bare value takes: up to white space or a bracket. */
  function BareLength(raw: string): (n: nat)
    ensures n <= |raw|
    ensures forall i :: 0 <= i < n ==> !IsSpace(raw[i]) && raw[i] != ']'
    ensures n < |raw| ==> IsSpace(raw[n]) || raw[n] == ']'
    decreases |raw|
  {
    if raw != "" && !IsSpace(raw[0]) && raw[0] != ']' then 1 + BareLength(raw[1..]) else 0
  }

  /** Every `\"` becomes `"`. */
  function Unescape(text: string): string
    decreases |text|
  {
    if text == "" then ""
    else if text[0] == '\\' && |text| >= 2 && text[1] == '"' then "\"" + Unescape(text[2..])
    else [text[0]] + Unescape(text[1..])
  }

  datatype Value = Value(text: string, rest: string)

  /** The value after an equals sign: quoted if a closing quote is found, else bare. */
  function ReadValue(raw: string): (v: Option<Value>)
    ensures v.Some? ==> |v.value.rest| < |raw|
  {
    if raw != "" && raw[0] == '"' && QuotedLength(raw[1..]).Some? then
      var n := QuotedLength(raw[1..]).value;
      Some(Value(Unescape(raw[1..n + 1]), raw[n + 2..]))
    else if BareLength(raw) > 0 then Some(Value(raw[..BareLength(raw)], raw[BareLength(raw)..]))
    else None
  }

  datatype Field = Field(key: string, value: string, rest: string)

  /** The next match of the field pattern. */
  function NextField(raw: string): (f: Option<Field>)
    ensures f.Some? ==> |f.value.rest| < |raw|
    decreases |raw|
  {
    if raw == "" then None
    else
      var w := WordLength(raw);
      if 0 < w < |raw| && raw[w] == '=' && ReadValue(raw[w + 1..]).Some? then
        var v := ReadValue(raw[w + 1..]).value;
        Some(Field(raw[..w], v.text, v.rest))
      else NextField(raw[1..])
  }

  function FieldsOf(raw: string, fields: map<string, string>): map<string, string>
    decreases |raw|
  {
    match NextField(raw)
    case None => fields
    case Some(f) => FieldsOf(f.rest, fields[f.key := f.value])
  }

  method ParseFields(raw: string) returns (fields: map<string, string>)
    ensures fields == FieldsOf(raw, map[])
  {
    fields := map[];
    var rest := raw;
    while true
      invariant FieldsOf(raw, map[]) == FieldsOf(rest, fields)
      decreases |rest|
    {
      var f := NextField(rest);
      if f == None {
        break;
      }
      fields := fields[f.value.key := f.value.value];
      rest := f.value.rest;
    }
  }

  // ---------------------------------------------------------------- parsing a tag

  datatype Kind = CredentialKind | SoftKind | SkippedKind | ConnectedKind | ToolKind

  function StripKind(text: string): Option<(Kind, string)> {
    if "CREDENTIAL_REQUIRED" <= text then Some((CredentialKind, text[19..]))
    else if "SOFT_DEGRADED" <= text then Some((SoftKind, text[13..]))
    else if "SKIPPED" <= text then Some((SkippedKind, text[7..]))
    else if "CONNECTED" <= text then Some((ConnectedKind, text[9..]))
    else if "EXTERNAL_TOOL_REQUIRED" <= text then Some((ToolKind, text[22..]))
    else None
  }

  function UpToBracket(text: string): Option<string>
    decreases |text|
  {
    if text == "" then None
    else if text[0] == ']' then Some("")
    else
      var rest := UpToBracket(text[1..]);
      if rest.Some? then Some([text[0]] + rest.value) else None
  }

  function TagAt(text: string): Option<(Kind, string)> {
    if !(PREFIX <= text) || StripKind(text[|PREFIX|..]).None? then None
    else
      var (kind, rest) := StripKind(text[|PREFIX|..]).value;
      if UpToBracket(rest).Some? then Some((kind, UpToBracket(rest).value)) else None
  }

  /** The first match of the tag pattern. */
  function FindTag(text: string): Option<(Kind, string)>
    decreases |text|
  {
    if text == "" then None else if TagAt(text).Some? then TagAt(text) else FindTag(text[1..])
  }

  function SplitAtCommas(text: string): (r: seq<string>)
    ensures r != [] && forall i :: 0 <= i < |r| ==> ',' !in r[i]
    decreases |text|
  {
    if text == "" then [""]
    else
      var rest := SplitAtCommas(text[1..]);
      if text[0] == ',' then [""] + rest else [[text[0]] + rest[0]] + rest[1..]
  }

  /** Trimmed, without the empty ones. */
  function Items(parts: seq<string>): seq<string>
    decreases |parts|
  {
    if parts == [] then []
    else (if Trim(parts[0]) != "" then [Trim(parts[0])] else []) + Items(parts[1..])
  }

  function Get(fields: map<string, string>, key: string): Option<string> {
    if key in fields then Some(fields[key]) else None
  }

  /** A field that is present and not empty. */
  function Filled(fields: map<string, string>, key: string): Option<string> {
    if key in fields && fields[key] != "" then Some(fields[key]) else None
  }

  function DigitValue(c: char): nat
    requires '0' <= c <= '9'
  {
    (c as int) - ('0' as int)
  }

  function Number(text: string): Option<nat>
    decreases |text|
  {
    if text == "" || !('0' <= text[|text| - 1] <= '9') then None
    else if |text| == 1 then Some(DigitValue(text[0]))
    else
      var head := Number(text[..|text| - 1]);
      if head.Some? then Some(head.value * 10 + DigitValue(text[|text| - 1])) else None
  }

  function ParseFallback(fields: map<string, string>): Option<string> {
    var raw := Get(fields, "fallback");
    if raw == Some("none") then None else raw
  }

  function ParseCredential(fields: map<string, string>): Option<Tag> {
    var provider, reason := Filled(fields, "provider"), Get(fields, "reason");
    if provider.None? || (reason != Some("missing") && reason != Some("stale")) then None
    else
      var unlocks := if "unlocks" in fields then fields["unlocks"] else "";
      Some(CredentialRequired(provider.value, if reason == Some("missing") then Missing else Stale,
                              Items(SplitAtCommas(unlocks)), ParseFallback(fields),
                              if "httpStatus" in fields then Number(fields["httpStatus"]) else None))
  }

  function ParseSoft(fields: map<string, string>): Option<Tag> {
    var provider, fallback, remediation :=
      Filled(fields, "provider"), Filled(fields, "fallback"), Filled(fields, "remediation");
    if provider.None? || fallback.None? || remediation.None? then None
    else Some(SoftDegraded(provider.value, fallback.value, remediation.value))
  }

  function ParseSkipped(fields: map<string, string>): Option<Tag> {
    var provider, remediation := Filled(fields, "provider"), Filled(fields, "remediation");
    if provider.None? || Get(fields, "reason") != Some("credential_not_provided") || remediation.None? then None
    else Some(Skipped(provider.value, remediation.value, Get(fields, "silenced") == Some("true")))
  }

  function ParseConnected(fields: map<string, string>): Option<Tag> {
    var provider := Filled(fields, "provider");
    if provider.None? then None else Some(Connected(provider.value))
  }

  function ParseTool(fields: map<string, string>): Option<Tag> {
    var provider, reason, installCmd := Filled(fields, "provider"), Get(fields, "reason"), Filled(fields, "installCmd");
    if provider.None? || installCmd.None? then None
    else if reason != Some("not_installed") && reason != Some("session_missing") && reason != Some("session_stale")
      then None
    else
      var known := if reason == Some("not_installed") then NotInstalled
          else if reason == Some("session_missing") then SessionMissing else SessionStale;
      Some(ExternalToolRequired(provider.value, known, installCmd.value, Get(fields, "loginCmd"),
                                ParseFallback(fields)))
  }

  function FromFields(kind: Kind, fields: map<string, string>): Option<Tag> {
    match kind
    case CredentialKind => ParseCredential(fields)
    case SoftKind => ParseSoft(fields)
    case SkippedKind => ParseSkipped(fields)
    case ConnectedKind => ParseConnected(fields)
    case ToolKind => ParseTool(fields)
  }

  function Parse(text: string): Option<Tag> {
    match FindTag(text)
    case None => None
    case Some((kind, rest)) => FromFields(kind, FieldsOf(rest, map[]))
  }

  /** `parseToolTag`. */
  method ParseToolTag(text: string) returns (tag: Option<Tag>)
    ensures tag == Parse(text)
  {
    var found := FindTag(text);
    if found == None {
      return None;
    }
    var fields := ParseFields(found.value.1);
    tag := FromFields(found.value.0, fields);
  }

  // ---------------------------------------------------------------- one value

  /** No backslash stands before a quote, a line end or the end, counting backslashes in pairs. */
  predicate Safe(value: string)
    decreases |value|
  {
    value == "" ||
    if value[0] != '\\' then Safe(value[1..])
    else |value| >= 2 && value[1] != '"' && !EndsLine(value[1]) && Safe(value[2..])
  }

  lemma {:induction false} UnescapeEscape(value: string)
    ensures Unescape(Escape(value)) == value
    decreases |value|
  {
    if value != "" {
      var e := Escape(value);
      UnescapeEscape(value[1..]);
      if value[0] == '"' {
        assert e[2..] == Escape(value[1..]);
      } else {
        assert e[1..] == Escape(value[1..]);
      }
      assert value == [value[0]] + value[1..];
    }
  }

  lemma QuoteEndsNoLine()
    ensures !EndsLine('"') && !EndsLine('\\')
  {
  }

  /** The closing quote is found where it was printed exactly if the value is safe. */
  lemma PlainCharacter(c: char, rest: string)
    requires c != '"' && c != '\\'
    ensures QuotedLength([c] + rest) == Shifted(1, QuotedLength(rest))
  {
    assert ([c] + rest)[1..] == rest;
  }

  lemma EscapedCharacter(c: char, rest: string)
    ensures QuotedLength(['\\', c] + rest) == if EndsLine(c) then None else Shifted(2, QuotedLength(rest))
  {
    assert (['\\', c] + rest)[2..] == rest;
  }

  /** The escaped text that follows an opening quote. */
  function Closed(value: string, tail: string): string {
    Escape(value) + "\"" + tail
  }

  lemma ClosedSplit(value: string, tail: string)
    requires value != ""
    ensures value[0] != '"' ==> Closed(value, tail) == [value[0]] + Closed(value[1..], tail)
    ensures value[0] == '"' ==> Closed(value, tail) == ['\\', '"'] + Closed(value[1..], tail)
  {
  }

  lemma Pair(a: char, b: char, rest: string)
    ensures [a] + ([b] + rest) == [a, b] + rest
  {
  }

  lemma ClosedNothing(tail: string)
    ensures Closed("", tail) == ['"'] + tail
  {
  }

  lemma EscapedLength(value: string)
    requires value != "" && value[0] == '\\'
    ensures |Escape(value)| == 1 + |Escape(value[1..])|
    ensures |value| >= 2 ==> |Escape(value[1..])| == (if value[1] == '"' then 2 else 1) + |Escape(value[2..])|
  {
    assert |value| >= 2 ==> value[1..][1..] == value[2..];
  }

  lemma ClosedTwice(value: string, tail: string)
    requires |value| >= 2 && value[0] == '\\' && value[1] != '"'
    ensures Closed(value, tail) == ['\\', value[1]] + Closed(value[2..], tail)
    ensures |Escape(value)| == 2 + |Escape(value[2..])|
  {
    hide Closed, Escape;
    EscapedLength(value);
    assert value[1..][1..] == value[2..];
    ClosedSplit(value, tail);
    ClosedSplit(value[1..], tail);
    Pair('\\', value[1], Closed(value[2..], tail));
  }

  /** A backslash before a quote or at the end of the value takes the backslash or quote that follows. */
  lemma ClosedEarly(value: string, tail: string)
    requires value != "" && value[0] == '\\' && (|value| == 1 || value[1] == '"')
    ensures QuotedLength(Closed(value, tail)) != Some(|Escape(value)|)
  {
    hide EndsLine, Closed, Escape, QuotedLength;
    QuoteEndsNoLine();
    ClosedSplit(value, tail);
    EscapedLength(value);
    if |value| == 1 {
      assert value[1..] == "" && Escape("") == "" by {
        EscapeNothing();
      }
      ClosedNothing(tail);
      Pair('\\', '"', tail);
      EscapedCharacter('"', tail);
    } else {
      var rest := Closed(value[1..][1..], tail);
      ClosedSplit(value[1..], tail);
      Pair('\\', '"', rest);
      Pair('\\', '\\', ['"'] + rest);
      EscapedCharacter('\\', ['"'] + rest);
      QuoteFirst(rest);
    }
  }

  lemma EscapeNothing()
    ensures Escape("") == ""
  {
  }

  lemma QuoteFirst(rest: string)
    ensures QuotedLength(['"'] + rest) == Some(0)
  {
  }

  lemma {:induction false} ClosingQuoteFound(value: string, tail: string)
    ensures QuotedLength(Escape(value) + "\"" + tail) == Some(|Escape(value)|) <==> Safe(value)
    decreases |value|
  {
    hide EndsLine, QuotedLength, Closed;
    QuoteEndsNoLine();
    assert Closed(value, tail) == Escape(value) + "\"" + tail by {
      ClosedText(value, tail);
    }
    if value == "" {
      NothingBeforeQuote(tail);
    } else if value[0] == '"' {
      ClosingQuoteFound(value[1..], tail);
      ClosedText(value[1..], tail);
      ClosedSplit(value, tail);
      EscapedCharacter('"', Closed(value[1..], tail));
    } else if value[0] != '\\' {
      ClosingQuoteFound(value[1..], tail);
      ClosedText(value[1..], tail);
      ClosedSplit(value, tail);
      PlainCharacter(value[0], Closed(value[1..], tail));
    } else if |value| >= 2 && value[1] != '"' {
      ClosingQuoteFound(value[2..], tail);
      ClosedText(value[2..], tail);
      ClosedTwice(value, tail);
      EscapedCharacter(value[1], Closed(value[2..], tail));
    } else {
      ClosedEarly(value, tail);
    }
  }

  lemma ClosedText(value: string, tail: string)
    ensures Closed(value, tail) == Escape(value) + "\"" + tail
  {
  }

  lemma NothingBeforeQuote(tail: string)
    ensures QuotedLength(Escape("") + "\"" + tail) == Some(0)
  {
  }

  /** A quoted value is read back, up to its end, exactly if it is safe. */
  lemma QuotedReadBack(value: string, tail: string)
    ensures ReadValue(Quote(value) + tail) == Some(Value(value, tail)) <==> Safe(value)
  {
    hide EndsLine, IsSpace, Safe, Escape, Unescape, QuotedLength;
    var raw := Quote(value) + tail;
    assert raw[1..] == Escape(value) + "\"" + tail;
    ClosingQuoteFound(value, tail);
    UnescapeEscape(value);
    EscapeGrows(value);
    var n := QuotedLength(raw[1..]);
    if n == Some(|Escape(value)|) {
      assert raw[1..|Escape(value)| + 1] == Escape(value);
      assert raw[|Escape(value)| + 2..] == tail;
    } else {
      assert |Quote(value)| > |value|;
    }
  }

  lemma {:induction false} EscapeGrows(value: string)
    ensures |Escape(value)| >= |value|
    decreases |value|
  {
    if value != "" {
      EscapeGrows(value[1..]);
    }
  }

  lemma {:induction false} UnescapeShrinks(text: string)
    ensures |Unescape(text)| <= |text|
    decreases |text|
  {
    if text != "" {
      if text[0] == '\\' && |text| >= 2 && text[1] == '"' {
        UnescapeShrinks(text[2..]);
      } else {
        UnescapeShrinks(text[1..]);
      }
    }
  }

  predicate VisibleText(value: string) {
    forall i :: 0 <= i < |value| ==> !IsSpace(value[i]) && value[i] != ']'
  }

  predicate EndsValue(tail: string) {
    tail == "" || IsSpace(tail[0]) || tail[0] == ']'
  }

  /** A leading quote makes no difference only if no closing quote follows, in the value or later. */
  predicate TakenAsQuoted(value: string, tail: string) {
    value != "" && value[0] == '"' && QuotedLength((value + tail)[1..]).Some?
  }

  lemma {:induction false} BareLengthIs(value: string, tail: string)
    requires EndsValue(tail)
    ensures BareLength(value + tail) == |value| <==> VisibleText(value)
    ensures BareLength(value + tail) <= |value|
    decreases |value|
  {
    if value == "" {
      assert value + tail == tail;
    } else {
      assert (value + tail)[1..] == value[1..] + tail;
      BareLengthIs(value[1..], tail);
      assert value == [value[0]] + value[1..];
    }
  }

  /** A bare value is read back, up to its end, exactly if it is visible and not taken as quoted. */
  lemma BareReadBack(value: string, tail: string)
    requires EndsValue(tail)
    ensures ReadValue(value + tail) == Some(Value(value, tail))
            <==> value != "" && VisibleText(value) && !TakenAsQuoted(value, tail)
  {
    var raw := value + tail;
    BareLengthIs(value, tail);
    if value != "" && TakenAsQuoted(value, tail) {
      var n := QuotedLength(raw[1..]).value;
      UnescapeShrinks(raw[1..n + 1]);
      assert |raw[n + 2..]| == |tail| ==> |Unescape(raw[1..n + 1])| < |value|;
    } else if value != "" {
      assert raw[|value|..] == tail && raw[..|value|] == value;
      assert |raw[BareLength(raw)..]| == |tail| <==> BareLength(raw) == |value|;
    } else {
      assert tail != "" ==> raw[0] == tail[0];
    }
  }
}
