// What the two rounds of quote loading leave of one symbol, decided by the replies for that symbol
// alone: its observations for rules with and without delayed data, and the reasons for missing ones.
module PriceOutcomes {
  import opened Options
  import opened PriceObservations

  /** All that is kept of a symbol. */
  datatype View = View(delayed: Option<Observation>, current: Option<Observation>, bySymbol: Option<string>,
      byDelayed: Option<string>, byCurrent: Option<string>)

  function Lookup<K, V>(m: map<K, V>, k: K): Option<V> {
    if k in m then Some(m[k]) else None
  }

  function ViewOf(l: Loaded, s: string): View {
    View(Lookup(l.observations, KeyOf(s, true)), Lookup(l.observations, KeyOf(s, false)),
         Lookup(l.reasons, BySymbol(s)), Lookup(l.reasons, ByKey(KeyOf(s, true))),
         Lookup(l.reasons, ByKey(KeyOf(s, false))))
  }

  /** No two symbols differ in case only. */
  ghost predicate OwnKeys(symbols: seq<string>) {
    forall i, j :: 0 <= i < j < |symbols| ==> Upper(symbols[i]) != Upper(symbols[j])
  }

  ghost predicate IsOnce(symbols: seq<string>) {
    forall i, j :: 0 <= i < j < |symbols| ==> symbols[i] != symbols[j]
  }

  lemma OneMoreOnce(symbols: seq<string>, s: string)
    ensures IsOnce(symbols + [s]) <==> IsOnce(symbols) && s !in symbols
  {
    var all := symbols + [s];
    assert all[|symbols|] == s;
    assert forall i :: 0 <= i < |symbols| ==> all[i] == symbols[i];
  }

  /** The reason so far, and what comes after it. */
  function Joined(prior: Option<string>, link: string, reason: string): string {
    if prior.Some? then prior.value + link + reason else reason
  }

  // ---------------------------------------------------------------- what a reply makes of the view

  /** A usable quote of TradingView serves delayed rules; a stale one, a failure or a refusal is noted. */
  ghost function AfterTradingView(s: string, isWanted: bool, anyWanted: bool, reply: TradingViewReply,
      refusal: Option<string>): View
  {
    var nothing := View(None, None, None, None, None);
    if !anyWanted then nothing
    else if refusal.Some? then if isWanted then View(None, None, refusal, refusal, None) else nothing
    else
      match reply
      case TradingViewFailed(reason) =>
        if isWanted then View(None, None, Some(reason), Some(reason), None) else nothing
      case Quotes(quotes) =>
        var usable := LastUsable(quotes, KeyOf(s, true));
        View(if usable.Some? then Some(Observation(TradingView, usable.value)) else None, None, None,
             if exists q :: q in quotes && q.stale && Upper(q.symbol) == Upper(s)
             then Some("TradingView returned stale market data") else None, None)
  }

  /** A quote of Yahoo serves both kinds of rules, a quote of TradingView first, and ends all reasons; a
      failure is the reason for fresh data, and comes after what TradingView left for delayed data. */
  function AfterYahoo(v: View, reply: YahooReply): View {
    match reply
    case Quote(value) =>
      View(if v.delayed.Some? then v.delayed else Some(Observation(Yahoo, value)), Some(Observation(Yahoo, value)),
           None, None, None)
    case YahooFailed(reason, _) =>
      var link := "; Yahoo fallback unavailable: ";
      v.(bySymbol := Some(Joined(v.bySymbol, link, reason)), byCurrent := Some(reason),
         byDelayed := if v.delayed.Some? then v.byDelayed
                      else if v.byDelayed.Some? then Some(Joined(v.byDelayed, link, reason))
                      else Some(Joined(v.bySymbol, link, reason)))
  }

  function AfterRefusal(v: View, reason: string): View {
    v.(bySymbol := Some(Joined(v.bySymbol, "; ", reason)), byCurrent := Some(reason))
  }

  // ---------------------------------------------------------------- TradingView

  lemma {:induction false} ReasonedView(symbols: seq<string>, reason: string, s: string)
    requires forall i :: 0 <= i < |symbols| && Upper(symbols[i]) == Upper(s) ==> symbols[i] == s
    ensures ViewOf(Loaded(map[], Reasoned(symbols, reason)), s)
            == if s in symbols then View(None, None, Some(reason), Some(reason), None)
               else View(None, None, None, None, None)
    decreases |symbols|
  {
    hide Upper;
    if symbols != [] {
      var prior := symbols[..|symbols| - 1];
      ReasonedView(prior, reason, s);
      assert symbols == prior + [symbols[|symbols| - 1]];
    }
  }

  lemma {:induction false} QuotedView(quotes: seq<TradingViewQuote>, s: string)
    ensures ViewOf(Quoted(quotes), s) == AfterTradingView(s, true, true, Quotes(quotes), None)
    decreases |quotes|
  {
    hide Upper;
    if quotes != [] {
      var prior, q := quotes[..|quotes| - 1], quotes[|quotes| - 1];
      QuotedView(prior, s);
      assert quotes == prior + [q];
    }
  }

  lemma FirstView(symbols: seq<string>, reply: TradingViewReply, refusal: Option<string>, s: string)
    requires forall i :: 0 <= i < |symbols| && Upper(symbols[i]) == Upper(s) ==> symbols[i] == s
    ensures ViewOf(TradingViewRound(symbols, reply, refusal), s)
            == AfterTradingView(s, s in symbols, symbols != [], reply, refusal)
  {
    hide Upper, Reasoned, Quoted;
    if refusal.Some? {
      ReasonedView(symbols, refusal.value, s);
    } else if reply.TradingViewFailed? {
      ReasonedView(symbols, reply.reason, s);
    } else {
      QuotedView(reply.quotes, s);
    }
  }

  // ---------------------------------------------------------------- Yahoo

  lemma OneAnswer(l: Loaded, t: string, reply: YahooReply, s: string)
    requires Upper(t) == Upper(s) ==> t == s
    ensures ViewOf(YahooApplied(l, t, reply), s) == if t == s then AfterYahoo(ViewOf(l, s), reply) else ViewOf(l, s)
  {
    hide Upper;
    KeysDiffer(t, s);
    hide KeyOf;
  }

  lemma KeysDiffer(t: string, s: string)
    requires Upper(t) == Upper(s) ==> t == s
    ensures forall d, e :: KeyOf(t, d) == KeyOf(s, e) <==> t == s && d == e
  {
  }

  lemma {:induction false} AnswersView(before: Loaded, asked: seq<string>, yahoo: string -> YahooReply, s: string)
    requires forall i :: 0 <= i < |asked| && Upper(asked[i]) == Upper(s) ==> asked[i] == s
    requires IsOnce(asked)
    ensures ViewOf(YahooRound(before, asked, yahoo), s)
            == if s in asked then AfterYahoo(ViewOf(before, s), yahoo(s)) else ViewOf(before, s)
    decreases |asked|
  {
    hide Upper, ViewOf, AfterYahoo, YahooApplied;
    if asked != [] {
      var prior, t := asked[..|asked| - 1], asked[|asked| - 1];
      assert asked == prior + [t];
      OneMoreOnce(prior, t);
      AnswersView(before, prior, yahoo, s);
      OneAnswer(YahooRound(before, prior, yahoo), t, yahoo(t), s);
    }
  }

  lemma {:induction false} RefusedView(before: Loaded, asked: seq<string>, reason: string, s: string)
    requires forall i :: 0 <= i < |asked| && Upper(asked[i]) == Upper(s) ==> asked[i] == s
    requires IsOnce(asked)
    ensures ViewOf(Refused(before, asked, reason), s)
            == if s in asked then AfterRefusal(ViewOf(before, s), reason) else ViewOf(before, s)
    decreases |asked|
  {
    hide Upper;
    if asked != [] {
      var prior, t := asked[..|asked| - 1], asked[|asked| - 1];
      assert asked == prior + [t];
      OneMoreOnce(prior, t);
      RefusedView(before, prior, reason, s);
    }
  }

  // ---------------------------------------------------------------- which symbols are asked

  lemma {:induction false} AskedOnce(rules: seq<PriceRule>, symbols: seq<string>, canUse: string -> bool)
    requires IsOnce(symbols)
    ensures IsOnce(ForYahoo(rules, symbols, canUse))
    decreases |symbols|
  {
    if symbols != [] {
      var prior, s := symbols[..|symbols| - 1], symbols[|symbols| - 1];
      assert symbols == prior + [s];
      OneMoreOnce(prior, s);
      AskedOnce(rules, prior, canUse);
      SymbolsAsked(rules, prior, canUse, s);
      OneMoreOnce(ForYahoo(rules, prior, canUse), s);
      hide NeedsYahoo, IsOnce;
    }
  }

  lemma {:induction false} FallbacksOnce(asked: seq<string>, wanted: seq<string>, first: Loaded)
    requires IsOnce(asked)
    ensures IsOnce(WithFallbacks(asked, wanted, first))
    decreases |wanted|
  {
    hide KeyOf, IsOnce;
    if wanted != [] {
      var before := WithFallbacks(asked, wanted[..|wanted| - 1], first);
      FallbacksOnce(asked, wanted[..|wanted| - 1], first);
      OneMoreOnce(before, wanted[|wanted| - 1]);
    }
  }

  /** Yahoo is asked for what TradingView cannot serve, for fresh data, and where TradingView sent nothing
      usable. */
  ghost predicate AsksYahoo(rules: seq<PriceRule>, canUse: string -> bool, s: string, first: View) {
    !canUse(s) || PriceRule(s, false) in rules || (PriceRule(s, true) in rules && first.delayed.None?)
  }

  ghost predicate AnyWanted(rules: seq<PriceRule>, symbols: seq<string>, canUse: string -> bool) {
    exists t :: t in symbols && canUse(t) && PriceRule(t, true) in rules
  }

  lemma WantedMeaning(rules: seq<PriceRule>, symbols: seq<string>, canUse: string -> bool)
    ensures ForTradingView(rules, symbols, canUse) != [] <==> AnyWanted(rules, symbols, canUse)
  {
    var wanted := ForTradingView(rules, symbols, canUse);
    if wanted != [] {
      SymbolsAsked(rules, symbols, canUse, wanted[0]);
    }
    if AnyWanted(rules, symbols, canUse) {
      var t :| t in symbols && canUse(t) && PriceRule(t, true) in rules;
      SymbolsAsked(rules, symbols, canUse, t);
    }
  }

  /** What both rounds leave of a symbol: the replies for it decide, in this order, and those for other
      symbols change nothing. */
  lemma SymbolOutcome(rules: seq<PriceRule>, symbols: seq<string>, canUse: string -> bool,
      tradingView: TradingViewReply, yahoo: string -> YahooReply, state: map<string, BudgetState>, c: BudgetConfig,
      now: int, s: string)
    requires OwnKeys(symbols) && s in symbols
    ensures var l := PriceRound(rules, symbols, canUse, tradingView, yahoo, state, c, now).0;
            var refusal := Refusal(state, "yahoo", now);
            var first := AfterTradingView(s, canUse(s) && PriceRule(s, true) in rules,
                                          AnyWanted(rules, symbols, canUse), tradingView,
                                          Refusal(state, "tradingview", now));
            ViewOf(l, s) == if !AsksYahoo(rules, canUse, s, first) then first
                            else if refusal.Some? then AfterRefusal(first, refusal.value)
                            else AfterYahoo(first, yahoo(s))
  {
    var wanted := ForTradingView(rules, symbols, canUse);
    var first := TradingViewRound(wanted, tradingView, Refusal(state, "tradingview", now));
    var asked := WithFallbacks(ForYahoo(rules, symbols, canUse), wanted, first);
    OwnKeysOf(rules, symbols, canUse, first, s);
    WantedMeaning(rules, symbols, canUse);
    FirstView(wanted, tradingView, Refusal(state, "tradingview", now), s);
    SymbolsAsked(rules, symbols, canUse, s);
    FallbacksAsked(ForYahoo(rules, symbols, canUse), wanted, first, s);
    RefusalOfYahoo(state, c, wanted, tradingView, now);
    hide OwnKeys, Upper, TradingViewRound, TradingViewBudget, YahooBudget, AfterTradingView, Refusal, AfterYahoo,
         AfterRefusal, AnyWanted, Refused, YahooRound;
    var refusal := Refusal(state, "yahoo", now);
    if refusal.Some? {
      RefusedView(first, asked, refusal.value, s);
    } else {
      AnswersView(first, asked, yahoo, s);
    }
  }

  lemma OwnKeysOf(rules: seq<PriceRule>, symbols: seq<string>, canUse: string -> bool, first: Loaded, s: string)
    requires OwnKeys(symbols) && s in symbols
    ensures var wanted := ForTradingView(rules, symbols, canUse);
            var asked := WithFallbacks(ForYahoo(rules, symbols, canUse), wanted, first);
            (forall i :: 0 <= i < |wanted| && Upper(wanted[i]) == Upper(s) ==> wanted[i] == s) &&
            (forall i :: 0 <= i < |asked| && Upper(asked[i]) == Upper(s) ==> asked[i] == s) &&
            IsOnce(asked)
  {
    hide Upper, KeyOf, WantsTradingView, NeedsYahoo;
    var wanted := ForTradingView(rules, symbols, canUse);
    var asked := WithFallbacks(ForYahoo(rules, symbols, canUse), wanted, first);
    assert IsOnce(symbols);
    AskedOnce(rules, symbols, canUse);
    FallbacksOnce(ForYahoo(rules, symbols, canUse), wanted, first);
    forall t | t in wanted || t in asked ensures t in symbols {
      SymbolsAsked(rules, symbols, canUse, t);
      FallbacksAsked(ForYahoo(rules, symbols, canUse), wanted, first, t);
    }
    assert forall t :: t in symbols && Upper(t) == Upper(s) ==> t == s;
    assert forall i :: 0 <= i < |wanted| ==> wanted[i] in wanted;
    assert forall i :: 0 <= i < |asked| ==> asked[i] in asked;
  }

  // ---------------------------------------------------------------- the budget

  /** What the round counts for or against Yahoo: answers, and failures of the provider as a whole. */
  function Outcomes(asked: seq<string>, yahoo: string -> YahooReply, now: int): seq<Outcome>
    decreases |asked|
  {
    if asked == [] then []
    else
      Outcomes(asked[..|asked| - 1], yahoo, now) +
      match yahoo(asked[|asked| - 1])
      case Quote(_) => [Success]
      case YahooFailed(reason, wide) => if wide then [Failure(reason, now)] else []
  }

  /** What the budget knows of a provider is what its outcomes so far leave. */
  ghost predicate Counts(state: map<string, BudgetState>, outcomes: seq<Outcome>, c: BudgetConfig, provider: string) {
    Lookup(state, provider) == Lookup(Replay(outcomes, c, provider), provider)
  }

  lemma OneMoreCounts(state: map<string, BudgetState>, outcomes: seq<Outcome>, c: BudgetConfig, provider: string,
      o: Outcome)
    requires Counts(state, outcomes, c, provider)
    ensures var after := match o
                         case Success => SuccessRecorded(state, provider)
                         case Failure(reason, at) => FailureRecorded(state, c, provider, reason, at);
            Counts(after, outcomes + [o], c, provider) &&
            forall p :: p != provider ==> Lookup(after, p) == Lookup(state, p)
  {
    assert (outcomes + [o])[..|outcomes|] == outcomes;
  }

  lemma {:induction false} YahooCounts(state: map<string, BudgetState>, before: seq<Outcome>, c: BudgetConfig,
      asked: seq<string>, yahoo: string -> YahooReply, now: int)
    requires Counts(state, before, c, "yahoo")
    ensures var after := YahooBudget(state, c, asked, yahoo, now);
            Counts(after, before + Outcomes(asked, yahoo, now), c, "yahoo") &&
            forall p :: p != "yahoo" ==> Lookup(after, p) == Lookup(state, p)
    decreases |asked|
  {
    hide SuccessRecorded, FailureRecorded, Counts, Lookup;
    if asked == [] {
      assert before + [] == before;
    } else {
      var prior := asked[..|asked| - 1];
      YahooCounts(state, before, c, prior, yahoo, now);
      var counted, told := YahooBudget(state, c, prior, yahoo, now), before + Outcomes(prior, yahoo, now);
      match yahoo(asked[|asked| - 1])
      case Quote(_) =>
        OneMoreCounts(counted, told, c, "yahoo", Success);
        assert before + Outcomes(asked, yahoo, now) == told + [Success];
      case YahooFailed(reason, wide) =>
        if wide {
          OneMoreCounts(counted, told, c, "yahoo", Failure(reason, now));
          assert before + Outcomes(asked, yahoo, now) == told + [Failure(reason, now)];
        } else {
          assert before + Outcomes(asked, yahoo, now) == told;
        }
    }
  }

  /** The budget after both rounds: TradingView's one outcome and Yahoo's answers are counted after those
      before, each if the provider was asked, and neither provider's touch the other's. */
  lemma BudgetAfterRounds(rules: seq<PriceRule>, symbols: seq<string>, canUse: string -> bool,
      tradingView: TradingViewReply, yahoo: string -> YahooReply, state: map<string, BudgetState>, c: BudgetConfig,
      now: int, before: (seq<Outcome>, seq<Outcome>))
    requires Counts(state, before.0, c, "tradingview") && Counts(state, before.1, c, "yahoo")
    ensures var after := PriceRound(rules, symbols, canUse, tradingView, yahoo, state, c, now).1;
            var wanted := ForTradingView(rules, symbols, canUse);
            var refusals := (Refusal(state, "tradingview", now), Refusal(state, "yahoo", now));
            var first := TradingViewRound(wanted, tradingView, refusals.0);
            var asked := WithFallbacks(ForYahoo(rules, symbols, canUse), wanted, first);
            var outcome := if tradingView.Quotes? then Success else Failure(tradingView.reason, now);
            Counts(after, if wanted == [] || refusals.0.Some? then before.0 else before.0 + [outcome], c,
                   "tradingview") &&
            Counts(after, if refusals.1.Some? then before.1 else before.1 + Outcomes(asked, yahoo, now), c, "yahoo")
  {
    var wanted := ForTradingView(rules, symbols, canUse);
    var between := TradingViewBudget(state, c, wanted, tradingView, now);
    var first := TradingViewRound(wanted, tradingView, Refusal(state, "tradingview", now));
    var asked := WithFallbacks(ForYahoo(rules, symbols, canUse), wanted, first);
    OneMoreCounts(state, before.0, c, "tradingview",
                  if tradingView.Quotes? then Success else Failure(tradingView.reason, now));
    RefusalIsOpen(state, "tradingview", now);
    RefusalOfYahoo(state, c, wanted, tradingView, now);
    hide SuccessRecorded, FailureRecorded, IsOpen, Refusal, TradingViewRound, YahooBudget, Lookup, Replay;
    assert Lookup(between, "yahoo") == Lookup(state, "yahoo");
    YahooCounts(between, before.1, c, asked, yahoo, now);
  }
}
