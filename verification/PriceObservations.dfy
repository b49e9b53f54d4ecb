// Two-provider quote loading of src/market-state/alert-runner.ts, with its circuit breaker.
module PriceObservations {
  import opened Options

  // ---------------------------------------------------------------- the provider budget

  datatype BudgetState = BudgetState(failureCount: nat, openUntilMs: int, reason: string)

  datatype BudgetConfig = BudgetConfig(failureThreshold: nat, backoffMs: int)

  function FailureRecorded(state: map<string, BudgetState>, c: BudgetConfig, provider: string, reason: string,
      now: int): map<string, BudgetState>
  {
    var failures := (if provider in state then state[provider].failureCount else 0) + 1;
    state[provider := BudgetState(failures, if failures >= c.failureThreshold then now + c.backoffMs else 0, reason)]
  }

  function SuccessRecorded(state: map<string, BudgetState>, provider: string): map<string, BudgetState> {
    map p | p in state && p != provider :: state[p]
  }

  predicate IsOpen(state: map<string, BudgetState>, provider: string, now: int) {
    provider in state && state[provider].openUntilMs > now
  }

  function Refusal(state: map<string, BudgetState>, provider: string, now: int): Option<string> {
    if IsOpen(state, provider, now) then Some(provider + " provider_budget_exhausted (" + state[provider].reason + ")")
    else None
  }

  class AlertProviderBudget {
    const config: BudgetConfig
    var state: map<string, BudgetState>

    constructor (config: BudgetConfig)
      ensures this.config == config && state == map[]
    {
      this.config := config;
      state := map[];
    }

    method UnavailableReason(provider: string, now: int) returns (reason: Option<string>)
      ensures reason == Refusal(state, provider, now)
    {
      if provider !in state || state[provider].openUntilMs <= now {
        return None;
      }
      return Some(provider + " provider_budget_exhausted (" + state[provider].reason + ")");
    }

    method RecordSuccess(provider: string)
      modifies this`state
      ensures state == SuccessRecorded(old(state), provider)
    {
      state := map p | p in state && p != provider :: state[p];
    }

    method RecordFailure(provider: string, reason: string, now: int)
      modifies this`state
      ensures state == FailureRecorded(old(state), config, provider, reason, now)
    {
      var current := if provider in state then state[provider] else BudgetState(0, 0, "");
      var next := current.failureCount + 1;
      state := state[provider := BudgetState(next,
                                             if next >= config.failureThreshold then now + config.backoffMs
                                             else 0, reason)];
    }
  }

  datatype Outcome = Success | Failure(reason: string, at: int)

  function Replay(outcomes: seq<Outcome>, c: BudgetConfig, provider: string): map<string, BudgetState> {
    if outcomes == [] then map[]
    else
      var before := Replay(outcomes[..|outcomes| - 1], c, provider);
      match outcomes[|outcomes| - 1]
      case Success => SuccessRecorded(before, provider)
      case Failure(reason, at) => FailureRecorded(before, c, provider, reason, at)
  }

  /** Failures since the last success. */
  function Streak(outcomes: seq<Outcome>): nat {
    if outcomes == [] || outcomes[|outcomes| - 1].Success? then 0 else 1 + Streak(outcomes[..|outcomes| - 1])
  }

  /** A provider is refused exactly during the back-off after the last of enough failures in a row. */
  lemma {:induction false} BudgetOpensAfterAStreak(outcomes: seq<Outcome>, c: BudgetConfig, provider: string, now: int)
    requires now >= 0
    ensures var state := Replay(outcomes, c, provider);
            (provider in state <==> Streak(outcomes) > 0) &&
            (provider in state ==> state[provider].failureCount == Streak(outcomes)) &&
            (IsOpen(state, provider, now) <==>
              Streak(outcomes) > 0 && Streak(outcomes) >= c.failureThreshold &&
                now < outcomes[|outcomes| - 1].at + c.backoffMs) &&
            (IsOpen(state, provider, now) ==>
             Refusal(state, provider, now)
             == Some(provider + " provider_budget_exhausted (" + outcomes[|outcomes| - 1].reason + ")"))
    decreases |outcomes|
  {
    if outcomes != [] {
      BudgetOpensAfterAStreak(outcomes[..|outcomes| - 1], c, provider, now);
    }
  }

  // ---------------------------------------------------------------- loading quotes

  datatype PriceRule = PriceRule(symbol: string, allowsDelayed: bool)

  datatype Origin = TradingView | Yahoo

  datatype Observation = Observation(origin: Origin, value: real)

  datatype TradingViewQuote = TradingViewQuote(symbol: string, value: real, stale: bool)

  datatype TradingViewReply = Quotes(quotes: seq<TradingViewQuote>) | TradingViewFailed(reason: string)

  /** `wide` says that the failure concerns the provider and not only the symbol. */
  datatype YahooReply = Quote(value: real) | YahooFailed(reason: string, wide: bool)

  datatype QuoteKey = QuoteKey(symbol: string, delayedAllowed: bool)

  /** Reasons are kept per requested symbol and per quote key. */
  datatype ReasonKey = BySymbol(symbol: string) | ByKey(key: QuoteKey)

  function UpperChar(c: char): char {
    if 'a' <= c <= 'z' then c - 'a' + 'A' else c
  }

  function Upper(s: string): string {
    seq(|s|, i requires 0 <= i < |s| => UpperChar(s[i]))
  }

  function KeyOf(symbol: string, delayedAllowed: bool): QuoteKey {
    QuoteKey(Upper(symbol), delayedAllowed)
  }

  function RuleKey(r: PriceRule): QuoteKey {
    KeyOf(r.symbol, r.allowsDelayed)
  }

  datatype Loaded = Loaded(observations: map<QuoteKey, Observation>, reasons: map<ReasonKey, string>)

  predicate Explained(l: Loaded, symbol: string, delayedAllowed: bool) {
    || KeyOf(symbol, delayedAllowed) in l.observations
    || ByKey(KeyOf(symbol, delayedAllowed)) in l.reasons
    || BySymbol(symbol) in l.reasons
  }

  predicate FreshIsFresh(l: Loaded) {
    forall k :: k in l.observations && !k.delayedAllowed ==> l.observations[k].origin == Yahoo
  }

  /** A requested symbol of the key answered with this value. */
  predicate FromYahoo(o: Observation, k: QuoteKey, asked: seq<string>, yahoo: string -> YahooReply) {
    o.origin == Yahoo &&
    exists i :: 0 <= i < |asked| && Upper(asked[i]) == k.symbol && yahoo(asked[i]) == Quote(o.value)
  }

  /** Every observation is what a provider sent for its key: TradingView's last usable quote, or the
      answer of Yahoo to a requested symbol. */
  predicate Sourced(l: Loaded, asked: seq<string>, tradingView: TradingViewReply, yahoo: string -> YahooReply) {
    forall k :: k in l.observations ==>
      FromTradingView(l.observations[k], k, tradingView) || FromYahoo(l.observations[k], k, asked, yahoo)
  }

  predicate FromTradingView(o: Observation, k: QuoteKey, reply: TradingViewReply) {
    o.origin == TradingView && reply.Quotes? && LastUsable(reply.quotes, k) == Some(o.value)
  }

  /** The usable TradingView quote of a key: the last one that is not stale. */
  function LastUsable(quotes: seq<TradingViewQuote>, key: QuoteKey): Option<real> {
    if quotes == [] then None
    else
      var q := quotes[|quotes| - 1];
      if !q.stale && KeyOf(q.symbol, true) == key then Some(q.value) else LastUsable(quotes[..|quotes| - 1], key)
  }

  /** Symbols worth asking TradingView for, and symbols that need Yahoo in any case. */
  predicate WantsTradingView(rules: seq<PriceRule>, canUse: string -> bool, symbol: string) {
    canUse(symbol) && PriceRule(symbol, true) in rules
  }

  predicate NeedsYahoo(rules: seq<PriceRule>, canUse: string -> bool, symbol: string) {
    !canUse(symbol) || PriceRule(symbol, false) in rules
  }

  /** Every symbol and its delayed key get the reason. */
  function Reasoned(symbols: seq<string>, reason: string): map<ReasonKey, string>
    decreases |symbols|
  {
    if symbols == [] then map[]
    else
      var s := symbols[|symbols| - 1];
      Reasoned(symbols[..|symbols| - 1], reason)[BySymbol(s) := reason][ByKey(KeyOf(s, true)) := reason]
  }

  function Quoted(quotes: seq<TradingViewQuote>): Loaded
    decreases |quotes|
  {
    if quotes == [] then Loaded(map[], map[])
    else
      var before, q := Quoted(quotes[..|quotes| - 1]), quotes[|quotes| - 1];
      var key := KeyOf(q.symbol, true);
      if q.stale then before.(reasons := before.reasons[ByKey(key) := "TradingView returned stale market data"])
      else before.(observations := before.observations[key := Observation(TradingView, q.value)])
  }

  lemma {:induction false} QuotedMeaning(quotes: seq<TradingViewQuote>)
    ensures var l := Quoted(quotes);
            FreshIsFresh(l) && (forall k :: k in l.observations <==> LastUsable(quotes, k).Some?) &&
            (forall k :: k in l.observations ==>
             l.observations[k] == Observation(TradingView, LastUsable(quotes, k).value)) &&
            (forall s :: BySymbol(s) !in l.reasons)
    decreases |quotes|
  {
    if quotes != [] {
      QuotedMeaning(quotes[..|quotes| - 1]);
      hide Upper;
    }
  }

  function TradingViewRound(symbols: seq<string>, reply: TradingViewReply, refusal: Option<string>): Loaded {
    if symbols == [] then Loaded(map[], map[])
    else if refusal.Some? then Loaded(map[], Reasoned(symbols, refusal.value))
    else
      match reply
      case TradingViewFailed(reason) => Loaded(map[], Reasoned(symbols, reason))
      case Quotes(quotes) => Quoted(quotes)
  }

  function TradingViewBudget(state: map<string, BudgetState>, c: BudgetConfig, symbols: seq<string>,
      reply: TradingViewReply, now: int): map<string, BudgetState>
  {
    if symbols == [] || IsOpen(state, "tradingview", now) then state
    else if reply.Quotes? then SuccessRecorded(state, "tradingview")
    else FailureRecorded(state, c, "tradingview", reply.reason, now)
  }

  /** What the TradingView round leaves: quotes under the delayed keys, or reasons. */
  method LoadTradingView(symbols: seq<string>, reply: TradingViewReply, budget: AlertProviderBudget, now: int)
    returns (l: Loaded, answered: bool)
    modifies budget`state
    ensures FreshIsFresh(l)
    ensures answered ==> reply.Quotes? && symbols != [] && !old(IsOpen(budget.state, "tradingview", now))
    ensures !answered ==> l.observations == map[]
    ensures answered ==> forall k :: k in l.observations <==> LastUsable(reply.quotes, k).Some?
    ensures answered ==> forall k :: k in l.observations ==>
            l.observations[k] == Observation(TradingView, LastUsable(reply.quotes, k).value)
    ensures symbols != [] && reply.Quotes? && !old(IsOpen(budget.state, "tradingview", now)) ==> answered
    ensures IsOpen(budget.state, "yahoo", now) == old(IsOpen(budget.state, "yahoo", now))
    ensures l == TradingViewRound(symbols, reply, old(Refusal(budget.state, "tradingview", now)))
    ensures budget.state == TradingViewBudget(old(budget.state), budget.config, symbols, reply, now)
  {
    l, answered := Loaded(map[], map[]), false;
    if symbols == [] {
      return;
    }
    var budgetReason := budget.UnavailableReason("tradingview", now);
    if budgetReason.Some? || reply.TradingViewFailed? {
      var reason := if budgetReason.Some? then budgetReason.value else reply.reason;
      if budgetReason.None? {
        budget.RecordFailure("tradingview", reason, now);
      }
      for i := 0 to |symbols|
        invariant l == Loaded(map[], Reasoned(symbols[..i], reason))
      {
        assert symbols[..i + 1][..i] == symbols[..i];
        l := l.(reasons := l.reasons[BySymbol(symbols[i]) := reason][ByKey(KeyOf(symbols[i], true)) := reason]);
      }
      assert symbols[..|symbols|] == symbols;
      return;
    }
    answered := true;
    QuotedMeaning(reply.quotes);
    hide KeyOf, LastUsable, FreshIsFresh, IsOpen;
    for i := 0 to |reply.quotes|
      invariant l == Quoted(reply.quotes[..i])
    {
      var q := reply.quotes[i];
      assert reply.quotes[..i + 1][..i] == reply.quotes[..i];
      if q.stale {
        l := l.(reasons := l.reasons[ByKey(KeyOf(q.symbol, true)) := "TradingView returned stale market data"]);
      } else {
        l := l.(observations := l.observations[KeyOf(q.symbol, true) := Observation(TradingView, q.value)]);
      }
    }
    assert reply.quotes[..|reply.quotes|] == reply.quotes;
    budget.RecordSuccess("tradingview");
  }

  /** One settled Yahoo request. */
  function YahooApplied(l: Loaded, symbol: string, reply: YahooReply): Loaded {
    var current, delayed := KeyOf(symbol, false), KeyOf(symbol, true);
    match reply
    case Quote(value) =>
      var o := Observation(Yahoo, value);
      var observations := l.observations[current := o];
      Loaded(if delayed in observations then observations else observations[delayed := o],
             l.reasons - {BySymbol(symbol), ByKey(current), ByKey(delayed)})
    case YahooFailed(reason, _) =>
      var prior := BySymbol(symbol);
      var merged := if prior in l.reasons then l.reasons[prior] + "; Yahoo fallback unavailable: " + reason else reason;
      var reasons := l.reasons[prior := merged][ByKey(current) := reason];
      l.(reasons := if delayed in l.observations then reasons
                    else if ByKey(delayed) in l.reasons
                    then reasons[ByKey(delayed) := l.reasons[ByKey(delayed)] + "; Yahoo fallback unavailable: "
                                 + reason]
                    else reasons[ByKey(delayed) := merged])
  }

  /** A settled request explains its symbol and takes no explanation away. */
  lemma YahooExplains(l: Loaded, symbol: string, reply: YahooReply)
    requires FreshIsFresh(l)
    ensures var m := YahooApplied(l, symbol, reply);
            FreshIsFresh(m) && Explained(m, symbol, true) && Explained(m, symbol, false) &&
            (forall s, d :: Explained(l, s, d) ==> Explained(m, s, d)) &&
            (forall k :: k in l.observations ==> k in m.observations) &&
            (forall k :: k in l.observations && k.delayedAllowed ==> m.observations[k] == l.observations[k]) &&
            (reply.Quote? ==> KeyOf(symbol, false) in m.observations && KeyOf(symbol, true) in m.observations)
  {
  }

  /** A settled request changes only observations of its own symbol, to the value it answered. */
  lemma YahooSources(l: Loaded, asked: seq<string>, i: nat, yahoo: string -> YahooReply, k: QuoteKey)
    requires i < |asked| && k in YahooApplied(l, asked[i], yahoo(asked[i])).observations
    ensures var o := YahooApplied(l, asked[i], yahoo(asked[i])).observations[k];
            (k in l.observations && o == l.observations[k]) || FromYahoo(o, k, asked, yahoo)
  {
  }

  /** TradingView may serve the rule and sent a quote for it that is not stale. */
  predicate Offered(r: PriceRule, canUse: string -> bool, quotes: seq<TradingViewQuote>) {
    r.allowsDelayed && canUse(r.symbol) && LastUsable(quotes, RuleKey(r)).Some?
  }

  function ForTradingView(rules: seq<PriceRule>, symbols: seq<string>, canUse: string -> bool): seq<string>
    decreases |symbols|
  {
    if symbols == [] then []
    else
      var s := symbols[|symbols| - 1];
      ForTradingView(rules, symbols[..|symbols| - 1], canUse) + if WantsTradingView(rules, canUse, s) then [s] else []
  }

  function ForYahoo(rules: seq<PriceRule>, symbols: seq<string>, canUse: string -> bool): seq<string>
    decreases |symbols|
  {
    if symbols == [] then []
    else
      var s := symbols[|symbols| - 1];
      ForYahoo(rules, symbols[..|symbols| - 1], canUse) + if NeedsYahoo(rules, canUse, s) then [s] else []
  }

  /** The symbols that TradingView left without a quote are asked of Yahoo too. */
  function WithFallbacks(asked: seq<string>, tradingView: seq<string>, first: Loaded): seq<string>
    decreases |tradingView|
  {
    if tradingView == [] then asked
    else
      var before, s := WithFallbacks(asked, tradingView[..|tradingView| - 1], first), tradingView[|tradingView| - 1];
      if KeyOf(s, true) !in first.observations && s !in before then before + [s] else before
  }

  function YahooRound(before: Loaded, symbols: seq<string>, yahoo: string -> YahooReply): Loaded
    decreases |symbols|
  {
    if symbols == [] then before
    else
      var s := symbols[|symbols| - 1];
      YahooApplied(YahooRound(before, symbols[..|symbols| - 1], yahoo), s, yahoo(s))
  }

  function YahooBudget(state: map<string, BudgetState>, c: BudgetConfig, symbols: seq<string>,
      yahoo: string -> YahooReply, now: int): map<string, BudgetState>
    decreases |symbols|
  {
    if symbols == [] then state
    else
      var before := YahooBudget(state, c, symbols[..|symbols| - 1], yahoo, now);
      match yahoo(symbols[|symbols| - 1])
      case Quote(_) => SuccessRecorded(before, "yahoo")
      case YahooFailed(reason, wide) => if wide then FailureRecorded(before, c, "yahoo", reason, now) else before
  }

  /** Yahoo refused: every symbol gets the reason, after the one it has. */
  function Refused(before: Loaded, symbols: seq<string>, reason: string): Loaded
    decreases |symbols|
  {
    if symbols == [] then before
    else
      var l, s := Refused(before, symbols[..|symbols| - 1], reason), symbols[|symbols| - 1];
      var prior := BySymbol(s);
      var merged := if prior in l.reasons then l.reasons[prior] + "; " + reason else reason;
      l.(reasons := l.reasons[prior := merged][ByKey(KeyOf(s, false)) := reason])
  }

  function YahooAnswers(before: Loaded, symbols: seq<string>, yahoo: string -> YahooReply,
      refusal: Option<string>): Loaded
  {
    if refusal.Some? then Refused(before, symbols, refusal.value) else YahooRound(before, symbols, yahoo)
  }

  /** Both rounds, and the budget after them. */
  function PriceRound(rules: seq<PriceRule>, symbols: seq<string>, canUse: string -> bool,
      tradingView: TradingViewReply, yahoo: string -> YahooReply, state: map<string, BudgetState>, c: BudgetConfig,
      now: int): (Loaded, map<string, BudgetState>)
  {
    var wanted := ForTradingView(rules, symbols, canUse);
    var first := TradingViewRound(wanted, tradingView, Refusal(state, "tradingview", now));
    var between := TradingViewBudget(state, c, wanted, tradingView, now);
    var asked, refusal := WithFallbacks(ForYahoo(rules, symbols, canUse), wanted, first),
        Refusal(between, "yahoo", now);
    (YahooAnswers(first, asked, yahoo, refusal),
     if refusal.Some? then between else YahooBudget(between, c, asked, yahoo, now))
  }

  /** `loadPriceObservations`: `symbols` are the rules' symbols, each once, in some order. */
  method LoadPriceObservations(rules: seq<PriceRule>, symbols: seq<string>, canUse: string -> bool,
                               tradingView: TradingViewReply, yahoo: string -> YahooReply,
                               budget: AlertProviderBudget, now: int)
    returns (l: Loaded)
    requires forall r :: r in rules ==> r.symbol in symbols
    modifies budget`state
    ensures forall r :: r in rules ==> Explained(l, r.symbol, r.allowsDelayed)
    ensures FreshIsFresh(l) && Sourced(l, symbols, tradingView, yahoo)
    // A usable TradingView quote serves the delayed key; otherwise an answering Yahoo serves every rule.
    ensures tradingView.Quotes? && !old(IsOpen(budget.state, "tradingview", now)) ==>
              forall r :: r in rules && Offered(r, canUse, tradingView.quotes) ==>
                RuleKey(r) in l.observations &&
                l.observations[RuleKey(r)] == Observation(TradingView, LastUsable(tradingView.quotes, RuleKey(r)).value)
    ensures !old(IsOpen(budget.state, "yahoo", now)) ==>
              forall r :: r in rules && yahoo(r.symbol).Quote? ==> RuleKey(r) in l.observations
    ensures (l, budget.state)
            == PriceRound(rules, symbols, canUse, tradingView, yahoo, old(budget.state), budget.config, now)
  {
    RoundMeaning(rules, symbols, canUse, tradingView, yahoo, budget.state, budget.config, now);
    hide Explained, FreshIsFresh, Sourced, Offered, WantsTradingView, NeedsYahoo, KeyOf, IsOpen, TradingViewRound,
         TradingViewBudget, YahooAnswers, YahooBudget, Refusal;
    var tradingViewSymbols, yahooSymbols := SplitSymbols(rules, symbols, canUse);
    var answered;
    l, answered := LoadTradingView(tradingViewSymbols, tradingView, budget, now);
    FirstIsFresh(tradingViewSymbols, tradingView, old(Refusal(budget.state, "tradingview", now)));
    yahooSymbols := AddFallbacks(yahooSymbols, tradingViewSymbols, l);
    l := LoadYahoo(yahooSymbols, yahoo, budget, now, l);
    RefusalIsOpen(old(budget.state), "yahoo", now);
  }

  /** The two filters over the symbols. */
  method SplitSymbols(rules: seq<PriceRule>, symbols: seq<string>, canUse: string -> bool)
    returns (tradingViewSymbols: seq<string>, yahooSymbols: seq<string>)
    ensures tradingViewSymbols == ForTradingView(rules, symbols, canUse)
    ensures yahooSymbols == ForYahoo(rules, symbols, canUse)
  {
    hide WantsTradingView, NeedsYahoo;
    tradingViewSymbols, yahooSymbols := [], [];
    for i := 0 to |symbols|
      invariant tradingViewSymbols == ForTradingView(rules, symbols[..i], canUse)
      invariant yahooSymbols == ForYahoo(rules, symbols[..i], canUse)
    {
      assert symbols[..i + 1][..i] == symbols[..i];
      if WantsTradingView(rules, canUse, symbols[i]) {
        tradingViewSymbols := tradingViewSymbols + [symbols[i]];
      }
      if NeedsYahoo(rules, canUse, symbols[i]) {
        yahooSymbols := yahooSymbols + [symbols[i]];
      }
    }
    assert symbols[..|symbols|] == symbols;
  }

  method AddFallbacks(asked: seq<string>, tradingViewSymbols: seq<string>, first: Loaded)
    returns (yahooSymbols: seq<string>)
    ensures yahooSymbols == WithFallbacks(asked, tradingViewSymbols, first)
  {
    hide KeyOf;
    yahooSymbols := asked;
    for i := 0 to |tradingViewSymbols|
      invariant yahooSymbols == WithFallbacks(asked, tradingViewSymbols[..i], first)
    {
      assert tradingViewSymbols[..i + 1][..i] == tradingViewSymbols[..i];
      if KeyOf(tradingViewSymbols[i], true) !in first.observations && tradingViewSymbols[i] !in yahooSymbols {
        yahooSymbols := yahooSymbols + [tradingViewSymbols[i]];
      }
    }
    assert tradingViewSymbols[..|tradingViewSymbols|] == tradingViewSymbols;
  }

  lemma RefusalIsOpen(state: map<string, BudgetState>, provider: string, now: int)
    ensures Refusal(state, provider, now).Some? <==> IsOpen(state, provider, now)
  {
  }

  lemma FirstIsFresh(symbols: seq<string>, reply: TradingViewReply, refusal: Option<string>)
    ensures FreshIsFresh(TradingViewRound(symbols, reply, refusal))
  {
    if reply.Quotes? {
      QuotedMeaning(reply.quotes);
    }
  }

  // ---------------------------------------------------------------- what the rounds leave

  lemma {:induction false} SymbolsAsked(rules: seq<PriceRule>, symbols: seq<string>, canUse: string -> bool, s: string)
    ensures s in ForTradingView(rules, symbols, canUse) <==> s in symbols && WantsTradingView(rules, canUse, s)
    ensures s in ForYahoo(rules, symbols, canUse) <==> s in symbols && NeedsYahoo(rules, canUse, s)
    decreases |symbols|
  {
    if symbols != [] {
      var prior := symbols[..|symbols| - 1];
      SymbolsAsked(rules, prior, canUse, s);
      assert symbols == prior + [symbols[|symbols| - 1]];
      hide WantsTradingView, NeedsYahoo;
    }
  }

  lemma {:induction false} FallbacksAsked(asked: seq<string>, wanted: seq<string>, first: Loaded, s: string)
    ensures s in WithFallbacks(asked, wanted, first)
            <==> s in asked || (s in wanted && KeyOf(s, true) !in first.observations)
    decreases |wanted|
  {
    hide KeyOf;
    if wanted != [] {
      var prior := wanted[..|wanted| - 1];
      FallbacksAsked(asked, prior, first, s);
      assert wanted == prior + [wanted[|wanted| - 1]];
    }
  }

  lemma {:induction false} RoundAsked(before: Loaded, symbols: seq<string>, n: nat, yahoo: string -> YahooReply)
    requires n <= |symbols| && FreshIsFresh(before)
    ensures Asked(before, YahooRound(before, symbols[..n], yahoo), symbols, n, yahoo)
    decreases n
  {
    hide Asked, FreshIsFresh, YahooApplied;
    if n == 0 {
      NoneAsked(before, symbols, yahoo);
    } else {
      assert symbols[..n][..n - 1] == symbols[..n - 1];
      RoundAsked(before, symbols, n - 1, yahoo);
      OneMoreAsked(before, YahooRound(before, symbols[..n - 1], yahoo), symbols, n - 1, yahoo);
    }
  }

  lemma {:induction false} RefusedMeaning(before: Loaded, symbols: seq<string>, reason: string)
    ensures var l := Refused(before, symbols, reason);
            l.observations == before.observations && (forall k :: k in before.reasons ==> k in l.reasons) &&
            forall s :: s in symbols ==> BySymbol(s) in l.reasons
    decreases |symbols|
  {
    hide KeyOf;
    if symbols != [] {
      var prior := symbols[..|symbols| - 1];
      RefusedMeaning(before, prior, reason);
      assert symbols == prior + [symbols[|symbols| - 1]];
    }
  }

  /** Whatever Yahoo answers: nothing explained is lost, every symbol asked is explained, and what is new
      comes from Yahoo. */
  lemma AnswersMeaning(before: Loaded, symbols: seq<string>, yahoo: string -> YahooReply, refusal: Option<string>)
    requires FreshIsFresh(before)
    ensures var l := YahooAnswers(before, symbols, yahoo, refusal);
            FreshIsFresh(l) && (forall s, d :: s in symbols || Explained(before, s, d) ==> Explained(l, s, d)) &&
            (forall k :: k in before.observations ==> k in l.observations) &&
            (forall k :: k in l.observations ==>
             (k in before.observations && l.observations[k] == before.observations[k])
             || FromYahoo(l.observations[k], k, symbols, yahoo)) &&
            (forall k :: k in before.observations && k.delayedAllowed ==>
             l.observations[k] == before.observations[k]) &&
            (refusal.None? ==> forall s, d :: s in symbols && yahoo(s).Quote? ==> KeyOf(s, d) in l.observations)
  {
    if refusal.Some? {
      RefusedMeaning(before, symbols, refusal.value);
      hide Refused, KeyOf;
    } else {
      RoundAsked(before, symbols, |symbols|, yahoo);
      assert symbols[..|symbols|] == symbols;
      AllAsked(before, YahooRound(before, symbols, yahoo), symbols, yahoo);
      hide *;
    }
  }

  /** TradingView's observations are exactly its usable quotes, if it was asked and answered. */
  lemma FirstMeaning(symbols: seq<string>, reply: TradingViewReply, refusal: Option<string>, k: QuoteKey)
    ensures var first := TradingViewRound(symbols, reply, refusal);
            if symbols != [] && refusal.None? && reply.Quotes? && LastUsable(reply.quotes, k).Some? then
              k in first.observations && FromTradingView(first.observations[k], k, reply)
            else k !in first.observations
  {
    if reply.Quotes? {
      QuotedMeaning(reply.quotes);
    }
    hide LastUsable, Quoted, Reasoned;
  }

  lemma RefusalOfYahoo(state: map<string, BudgetState>, c: BudgetConfig, symbols: seq<string>, reply: TradingViewReply,
      now: int)
    ensures Refusal(TradingViewBudget(state, c, symbols, reply, now), "yahoo", now) == Refusal(state, "yahoo", now)
  {
  }

  lemma RuleIsAsked(rules: seq<PriceRule>, symbols: seq<string>, canUse: string -> bool, first: Loaded, r: PriceRule)
    requires r in rules && r.symbol in symbols
    ensures var asked := WithFallbacks(ForYahoo(rules, symbols, canUse), ForTradingView(rules, symbols, canUse), first);
            r.symbol in asked || (r.allowsDelayed && RuleKey(r) in first.observations)
  {
    SymbolsAsked(rules, symbols, canUse, r.symbol);
    FallbacksAsked(ForYahoo(rules, symbols, canUse), ForTradingView(rules, symbols, canUse), first, r.symbol);
    assert PriceRule(r.symbol, r.allowsDelayed) == r;
    hide KeyOf;
  }

  lemma RoundExplains(rules: seq<PriceRule>, symbols: seq<string>, canUse: string -> bool, first: Loaded,
      yahoo: string -> YahooReply, refusal: Option<string>, r: PriceRule)
    requires r in rules && r.symbol in symbols && FreshIsFresh(first)
    ensures var asked := WithFallbacks(ForYahoo(rules, symbols, canUse), ForTradingView(rules, symbols, canUse), first);
            var l := YahooAnswers(first, asked, yahoo, refusal);
            Explained(l, r.symbol, r.allowsDelayed) &&
            (refusal.None? && yahoo(r.symbol).Quote? ==> RuleKey(r) in l.observations)
  {
    var asked := WithFallbacks(ForYahoo(rules, symbols, canUse), ForTradingView(rules, symbols, canUse), first);
    RuleIsAsked(rules, symbols, canUse, first, r);
    hide FreshIsFresh, YahooAnswers, KeyOf, FromYahoo;
    AnswersMeaning(first, asked, yahoo, refusal);
  }

  lemma RoundOffers(rules: seq<PriceRule>, symbols: seq<string>, canUse: string -> bool, first: Loaded,
      reply: TradingViewReply, yahoo: string -> YahooReply, refusal: Option<string>, r: PriceRule)
    requires reply.Quotes? && r in rules && r.symbol in symbols && Offered(r, canUse, reply.quotes)
    requires first == TradingViewRound(ForTradingView(rules, symbols, canUse), reply, None)
    ensures var asked := WithFallbacks(ForYahoo(rules, symbols, canUse), ForTradingView(rules, symbols, canUse), first);
            var l := YahooAnswers(first, asked, yahoo, refusal);
            RuleKey(r) in l.observations &&
            l.observations[RuleKey(r)] == Observation(TradingView, LastUsable(reply.quotes, RuleKey(r)).value)
  {
    var wanted := ForTradingView(rules, symbols, canUse);
    SymbolsAsked(rules, symbols, canUse, r.symbol);
    assert PriceRule(r.symbol, r.allowsDelayed) == r;
    FirstMeaning(wanted, reply, None, RuleKey(r));
    FirstIsFresh(wanted, reply, None);
    hide FreshIsFresh, YahooAnswers, FromYahoo, TradingViewRound, LastUsable, Explained;
    AnswersMeaning(first, WithFallbacks(ForYahoo(rules, symbols, canUse), wanted, first), yahoo, refusal);
  }

  lemma RoundSources(rules: seq<PriceRule>, symbols: seq<string>, canUse: string -> bool, first: Loaded,
      reply: TradingViewReply, yahoo: string -> YahooReply, refusals: (Option<string>, Option<string>))
    requires first == TradingViewRound(ForTradingView(rules, symbols, canUse), reply, refusals.0)
    ensures var asked := WithFallbacks(ForYahoo(rules, symbols, canUse), ForTradingView(rules, symbols, canUse), first);
            var l := YahooAnswers(first, asked, yahoo, refusals.1);
            FreshIsFresh(l) && Sourced(l, symbols, reply, yahoo)
  {
    var wanted := ForTradingView(rules, symbols, canUse);
    var asked := WithFallbacks(ForYahoo(rules, symbols, canUse), wanted, first);
    var l := YahooAnswers(first, asked, yahoo, refusals.1);
    FirstIsFresh(wanted, reply, refusals.0);
    AnswersMeaning(first, asked, yahoo, refusals.1);
    forall s | s in asked ensures s in symbols {
      FallbacksAsked(ForYahoo(rules, symbols, canUse), wanted, first, s);
      SymbolsAsked(rules, symbols, canUse, s);
    }
    hide FreshIsFresh, YahooAnswers, FromYahoo, FromTradingView, TradingViewRound, Explained, LastUsable;
    forall k | k in l.observations
      ensures FromTradingView(l.observations[k], k, reply) || FromYahoo(l.observations[k], k, symbols, yahoo)
    {
      FirstMeaning(wanted, reply, refusals.0, k);
      if FromYahoo(l.observations[k], k, asked, yahoo) {
        AskedMore(l.observations[k], k, asked, symbols, yahoo);
      }
    }
  }

  /** What both rounds promise, whatever the providers return, omit or throw and whatever the budget. */
  lemma RoundMeaning(rules: seq<PriceRule>, symbols: seq<string>, canUse: string -> bool,
      tradingView: TradingViewReply, yahoo: string -> YahooReply, state: map<string, BudgetState>, c: BudgetConfig,
      now: int)
    requires forall r :: r in rules ==> r.symbol in symbols
    ensures var l := PriceRound(rules, symbols, canUse, tradingView, yahoo, state, c, now).0;
            (forall r :: r in rules ==> Explained(l, r.symbol, r.allowsDelayed)) && FreshIsFresh(l) &&
            Sourced(l, symbols, tradingView, yahoo) &&
            (tradingView.Quotes? && !IsOpen(state, "tradingview", now) ==>
             forall r :: r in rules && Offered(r, canUse, tradingView.quotes) ==>
               RuleKey(r) in l.observations &&
               l.observations[RuleKey(r)]
                 == Observation(TradingView, LastUsable(tradingView.quotes, RuleKey(r)).value)) &&
            (!IsOpen(state, "yahoo", now) ==>
             forall r :: r in rules && yahoo(r.symbol).Quote? ==> RuleKey(r) in l.observations)
  {
    var wanted := ForTradingView(rules, symbols, canUse);
    var refusal, yahooRefusal := Refusal(state, "tradingview", now), Refusal(state, "yahoo", now);
    var first := TradingViewRound(wanted, tradingView, refusal);
    FirstIsFresh(wanted, tradingView, refusal);
    RefusalIsOpen(state, "yahoo", now);
    RefusalIsOpen(state, "tradingview", now);
    RefusalOfYahoo(state, c, wanted, tradingView, now);
    RoundSources(rules, symbols, canUse, first, tradingView, yahoo, (refusal, yahooRefusal));
    hide TradingViewRound, TradingViewBudget, YahooAnswers, YahooBudget, Refusal, Offered, LastUsable, Explained,
         Sourced, FreshIsFresh, IsOpen, RuleKey, ForTradingView, ForYahoo, WithFallbacks;
    forall r | r in rules ensures
      var l := PriceRound(rules, symbols, canUse, tradingView, yahoo, state, c, now).0;
      Explained(l, r.symbol, r.allowsDelayed) &&
      (yahooRefusal.None? && yahoo(r.symbol).Quote? ==> RuleKey(r) in l.observations)
    {
      RoundExplains(rules, symbols, canUse, first, yahoo, yahooRefusal, r);
    }
    if tradingView.Quotes? && refusal.None? {
      forall r | r in rules && Offered(r, canUse, tradingView.quotes) ensures
        var l := PriceRound(rules, symbols, canUse, tradingView, yahoo, state, c, now).0;
        RuleKey(r) in l.observations &&
        l.observations[RuleKey(r)] == Observation(TradingView, LastUsable(tradingView.quotes, RuleKey(r)).value)
      {
        RoundOffers(rules, symbols, canUse, first, tradingView, yahoo, yahooRefusal, r);
      }
    }
  }

  lemma AskedMore(o: Observation, k: QuoteKey, asked: seq<string>, all: seq<string>, yahoo: string -> YahooReply)
    requires FromYahoo(o, k, asked, yahoo) && forall s :: s in asked ==> s in all
    ensures FromYahoo(o, k, all, yahoo)
  {
    var i :| 0 <= i < |asked| && Upper(asked[i]) == k.symbol && yahoo(asked[i]) == Quote(o.value);
    assert asked[i] in all;
  }

  /** A provider out of budget: every symbol gets the reason, after the one it has. */
  method AddReason(symbols: seq<string>, reason: string, before: Loaded) returns (l: Loaded)
    ensures l.observations == before.observations
    ensures forall k :: k in before.reasons ==> k in l.reasons
    ensures forall s :: s in symbols ==> BySymbol(s) in l.reasons
    ensures l == Refused(before, symbols, reason)
  {
    l := before;
    for i := 0 to |symbols|
      invariant l == Refused(before, symbols[..i], reason)
      invariant l.observations == before.observations
      invariant forall k :: k in before.reasons ==> k in l.reasons
      invariant forall j :: 0 <= j < i ==> BySymbol(symbols[j]) in l.reasons
    {
      assert symbols[..i + 1][..i] == symbols[..i];
      var prior := BySymbol(symbols[i]);
      var merged := if prior in l.reasons then l.reasons[prior] + "; " + reason else reason;
      l := l.(reasons := l.reasons[prior := merged][ByKey(KeyOf(symbols[i], false)) := reason]);
    }
    assert symbols[..|symbols|] == symbols;
  }

  /** What the answers for the first symbols leave. */
  ghost predicate Asked(before: Loaded, l: Loaded, symbols: seq<string>, i: nat, yahoo: string -> YahooReply)
    requires i <= |symbols|
  {
    && FreshIsFresh(l)
    && (forall k :: k in l.observations ==>
          (k in before.observations && l.observations[k] == before.observations[k])
          || FromYahoo(l.observations[k], k, symbols, yahoo))
    && (forall s, d :: Explained(before, s, d) ==> Explained(l, s, d))
    && (forall j :: 0 <= j < i ==> Explained(l, symbols[j], true) && Explained(l, symbols[j], false))
    && (forall k :: k in before.observations ==> k in l.observations)
    && (forall k :: k in before.observations && k.delayedAllowed ==> l.observations[k] == before.observations[k])
    && (forall j :: 0 <= j < i && yahoo(symbols[j]).Quote? ==>
          KeyOf(symbols[j], false) in l.observations && KeyOf(symbols[j], true) in l.observations)
  }

  lemma NoneAsked(before: Loaded, symbols: seq<string>, yahoo: string -> YahooReply)
    requires FreshIsFresh(before)
    ensures Asked(before, before, symbols, 0, yahoo)
  {
  }

  lemma OneMoreAsked(before: Loaded, l: Loaded, symbols: seq<string>, i: nat, yahoo: string -> YahooReply)
    requires i < |symbols| && Asked(before, l, symbols, i, yahoo)
    ensures Asked(before, YahooApplied(l, symbols[i], yahoo(symbols[i])), symbols, i + 1, yahoo)
  {
    hide Explained, FromYahoo, FreshIsFresh, YahooApplied;
    var next := YahooApplied(l, symbols[i], yahoo(symbols[i]));
    YahooExplains(l, symbols[i], yahoo(symbols[i]));
    forall k | k in next.observations
      ensures (k in l.observations && next.observations[k] == l.observations[k])
              || FromYahoo(next.observations[k], k, symbols, yahoo)
    {
      YahooSources(l, symbols, i, yahoo, k);
    }
  }

  lemma AllAsked(before: Loaded, l: Loaded, symbols: seq<string>, yahoo: string -> YahooReply)
    requires Asked(before, l, symbols, |symbols|, yahoo)
    ensures FreshIsFresh(l)
    ensures forall s, d :: s in symbols || Explained(before, s, d) ==> Explained(l, s, d)
    ensures forall k :: k in before.observations ==> k in l.observations
    ensures forall k :: k in l.observations ==>
              (k in before.observations && l.observations[k] == before.observations[k])
              || FromYahoo(l.observations[k], k, symbols, yahoo)
    ensures forall k :: k in before.observations && k.delayedAllowed ==> l.observations[k] == before.observations[k]
    ensures forall s, d :: s in symbols && yahoo(s).Quote? ==> KeyOf(s, d) in l.observations
  {
    hide Explained, FromYahoo, FreshIsFresh;
    forall s | s in symbols ensures exists j :: 0 <= j < |symbols| && symbols[j] == s {
    }
  }

  method LoadYahoo(symbols: seq<string>, yahoo: string -> YahooReply, budget: AlertProviderBudget, now: int,
      before: Loaded)
    returns (l: Loaded)
    requires FreshIsFresh(before)
    modifies budget`state
    ensures FreshIsFresh(l)
    ensures forall s, d :: s in symbols || Explained(before, s, d) ==> Explained(l, s, d)
    ensures forall k :: k in before.observations ==> k in l.observations
    ensures forall k :: k in l.observations ==>
              (k in before.observations && l.observations[k] == before.observations[k]) ||
                FromYahoo(l.observations[k], k, symbols, yahoo)
    ensures forall k :: k in before.observations && k.delayedAllowed ==> l.observations[k] == before.observations[k]
    ensures !old(IsOpen(budget.state, "yahoo", now)) ==>
              forall s, d :: s in symbols && yahoo(s).Quote? ==> KeyOf(s, d) in l.observations
    ensures l == YahooAnswers(before, symbols, yahoo, old(Refusal(budget.state, "yahoo", now)))
    ensures budget.state == if old(IsOpen(budget.state, "yahoo", now)) then old(budget.state)
                            else YahooBudget(old(budget.state), budget.config, symbols, yahoo, now)
  {
    l := before;
    var budgetReason := budget.UnavailableReason("yahoo", now);
    if budgetReason.Some? {
      l := AddReason(symbols, budgetReason.value, before);
      return;
    }
    hide Explained, FromYahoo, FreshIsFresh, Asked, YahooApplied;
    NoneAsked(before, symbols, yahoo);
    for i := 0 to |symbols|
      invariant Asked(before, l, symbols, i, yahoo)
      invariant l == YahooRound(before, symbols[..i], yahoo)
      invariant budget.state == YahooBudget(old(budget.state), budget.config, symbols[..i], yahoo, now)
    {
      assert symbols[..i + 1][..i] == symbols[..i];
      var reply := yahoo(symbols[i]);
      OneMoreAsked(before, l, symbols, i, yahoo);
      l := YahooApplied(l, symbols[i], reply);
      if reply.Quote? {
        budget.RecordSuccess("yahoo");
      } else if reply.wide {
        budget.RecordFailure("yahoo", reply.reason, now);
      }
    }
    assert symbols[..|symbols|] == symbols;
    AllAsked(before, l, symbols, yahoo);
  }
}
