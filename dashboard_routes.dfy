/**
 * The dashboard routes: creating an asset together with its opening transactions, the quote
 * polling endpoint for active market assets, and the reading of the chart's date range.
 */
module DashboardRoutes {
  import opened Wrappers
  import opened Ledger
  import opened Forms
  import opened Store
  import Text
  import Sorting
  import Pricing
  import AssetRoutes

  /**
   * The dashboard's own `_parse_float`. Its two range checks come in the other order than the
   * asset pages' copy, but they exclude each other, so both copies give the same answer.
   */
  function ParseFloat(f: Field, fieldName: string, allowZero: bool, allowNegative: bool): (r: Result<real, ParseError>)
    ensures r == AssetRoutes.ParseFloat(f, fieldName, allowZero, allowNegative)
  {
    if !f.Numeral? then Err(ParseError(fieldName, NotANumber))
    else
      var number := f.value;
      if allowNegative then
        if !allowZero && number == 0.0 then Err(ParseError(fieldName, MustBeNonZero)) else Ok(number)
      else if allowZero && number < 0.0 then Err(ParseError(fieldName, CannotBeNegative))
      else if !allowZero && number <= 0.0 then Err(ParseError(fieldName, MustBePositive))
      else Ok(number)
  }

  /** A numeric field `_parse_float` accepts with these flags. */
  predicate Accepts(f: Field, allowZero: bool, allowNegative: bool) {
    f.Numeral? && Admissible(f.value, allowZero, allowNegative)
  }

  // ---------------------------------------------------------------------------------------------
  // Creating an asset.

  /**
   * The asset creation form. `assetType` is None when the field is absent (it then reads as
   * "market"); `groupId` is what `int()` makes of the stripped text.
   */
  datatype CreateForm = CreateForm(
    symbol: string,
    name: string,
    assetType: Option<string>,
    groupId: IntField,
    initialQuantity: Field,
    initialBuyPrice: Field,
    initialFees: Field,
    initialValue: Field,
    initialInvested: Field)

  /** Why `create_asset` refused (the flashed error). */
  datatype CreateRefusal =
    | Required
    | InvalidAssetType
    | InvalidGroup
    | GroupNotFound
    | DuplicateSymbol
    | PriceRequired
    | ManualValueRequired
    | BadNumber(error: ParseError)

  /** The asset type text: absent reads as "market", then stripped and lower-cased. */
  function TypeText(form: CreateForm): string {
    Text.Lower(Text.Strip(form.assetType.GetOr("market")))
  }

  /**
   * The checks of `create_asset` before anything is added, in the route's order, and the asset
   * they admit (its id is handed out when it is stored).
   */
  function NewAsset(assets: seq<Asset>, groups: seq<Group>, portfolioId: int, form: CreateForm): (r: Result<Asset, CreateRefusal>)
    ensures r == Err(Required) <==> Text.CanonicalSymbol(form.symbol) == [] || Text.Strip(form.name) == [] || form.groupId.IntBlank?
    ensures r.Ok? ==>
      r.value.portfolioId == portfolioId && r.value.symbol == Text.CanonicalSymbol(form.symbol) &&
      r.value.name == Text.Strip(form.name) && !r.value.archived
    ensures r.Ok? ==> AssetRoutes.ParseAssetType(TypeText(form)) == Some(r.value.assetType)
    ensures r.Ok? ==>
      form.groupId.IntValue? && r.value.groupId == form.groupId.n && FindGroup(groups, form.groupId.n, portfolioId).Some?
    ensures r.Ok? ==> !ActiveSymbolTaken(assets, portfolioId, r.value.symbol)
  {
    var symbol := Text.CanonicalSymbol(form.symbol);
    var name := Text.Strip(form.name);
    if symbol == [] || name == [] || form.groupId.IntBlank? then Err(Required)
    else
      match AssetRoutes.ParseAssetType(TypeText(form))
      case None => Err(InvalidAssetType)
      case Some(assetType) =>
        if form.groupId.IntMalformed? then Err(InvalidGroup)
        else
          var group := FindGroup(groups, form.groupId.n, portfolioId);
          if group.None? then Err(GroupNotFound)
          else if ActiveSymbolTaken(assets, portfolioId, symbol) then Err(DuplicateSymbol)
          else Ok(Asset(0, portfolioId, symbol, name, assetType, group.value.id, false))
  }

  /** A new asset keeps the active symbols of the portfolio unique, whatever id it is stored under. */
  lemma NewAssetKeepsActiveSymbolsUnique(assets: seq<Asset>, groups: seq<Group>, portfolioId: int, form: CreateForm, id: int)
    requires AssetRoutes.UniqueActiveSymbols(assets, portfolioId)
    requires NewAsset(assets, groups, portfolioId, form).Ok?
    ensures AssetRoutes.UniqueActiveSymbols(assets + [NewAsset(assets, groups, portfolioId, form).value.(id := id)], portfolioId)
  {
    var created := NewAsset(assets, groups, portfolioId, form).value.(id := id);
    var after := assets + [created];
    forall i, j | 0 <= i < j < |after| && AssetRoutes.Active(after[i], portfolioId) && AssetRoutes.Active(after[j], portfolioId)
      ensures after[i].symbol != after[j].symbol
    {
      if j == |assets| {
        assert after[i] in assets;
      } else {
        assert after[i] == assets[i] && after[j] == assets[j];
      }
    }
  }

  /** The fees of the opening buy: blank reads as "0". */
  function SeedFees(form: CreateForm): Result<real, ParseError> {
    if Blank(form.initialFees) then Ok(0.0) else ParseFloat(form.initialFees, "Initial fees", true, false)
  }

  /**
   * The opening transactions `create_asset` adds, all at `now` and not yet stored. A market
   * asset gets one buy when shares are given; a manual asset gets its opening value and, when
   * an invested amount is given, a buy of that amount at unit price 1.
   */
  function SeedTransactions(assetType: AssetType, form: CreateForm, now: int): (r: Result<seq<Tx>, CreateRefusal>)
    ensures r.Ok? ==> forall i :: 0 <= i < |r.value| ==> r.value[i].id.None? && r.value[i].timestamp == now
    ensures assetType == Market ==>
      (r.Ok? <==>
        (Blank(form.initialQuantity) || (Accepts(form.initialQuantity, false, false) && form.initialBuyPrice.Numeral?)) &&
        (Blank(form.initialFees) || Accepts(form.initialFees, true, false)))
    ensures assetType == Market && r.Ok? ==> |r.value| <= 1 && (|r.value| == 1 <==> !Blank(form.initialQuantity))
    ensures assetType == Market && r.Ok? && |r.value| == 1 ==>
      r.value[0].kind == Buy && r.value[0].quantity == Some(form.initialQuantity.value) &&
      r.value[0].price == Some(form.initialBuyPrice.value) &&
      r.value[0].fees == (if Blank(form.initialFees) then 0.0 else form.initialFees.value)
    ensures assetType == Manual ==>
      (r.Ok? <==> Accepts(form.initialValue, true, false) && (Blank(form.initialInvested) || Accepts(form.initialInvested, false, false)))
    ensures assetType == Manual ==> (r == Err(ManualValueRequired) <==> Blank(form.initialValue))
    ensures assetType == Manual && r.Ok? ==>
      1 <= |r.value| <= 2 && (|r.value| == 2 <==> !Blank(form.initialInvested)) &&
      r.value[0].kind == ManualValueUpdate && r.value[0].manualValue == Some(form.initialValue.value) && r.value[0].fees == 0.0
    ensures assetType == Manual && r.Ok? && |r.value| == 2 ==>
      r.value[1].kind == Buy && r.value[1].quantity == Some(form.initialInvested.value) &&
      r.value[1].price == Some(1.0) && r.value[1].fees == 0.0
  {
    match assetType
    case Market =>
      var quantity := if Blank(form.initialQuantity) then Ok(0.0) else ParseFloat(form.initialQuantity, "Initial shares", false, false);
      var fees := SeedFees(form);
      if quantity.Err? then Err(BadNumber(quantity.error))
      else if fees.Err? then Err(BadNumber(fees.error))
      else if quantity.value > 0.0 then
        if Blank(form.initialBuyPrice) then Err(PriceRequired)
        else
          var price := ParseFloat(form.initialBuyPrice, "Initial buy price", true, true);
          if price.Err? then Err(BadNumber(price.error))
          else Ok([Tx(None, Buy, now, Some(quantity.value), Some(price.value), fees.value, None, None)])
      else Ok([])
    case Manual =>
      if Blank(form.initialValue) then Err(ManualValueRequired)
      else
        var value := ParseFloat(form.initialValue, "Initial manual value", true, false);
        if value.Err? then Err(BadNumber(value.error))
        else
          var opening := Tx(None, ManualValueUpdate, now, None, None, 0.0, Some(value.value), None);
          if Blank(form.initialInvested) then Ok([opening])
          else
            var invested := ParseFloat(form.initialInvested, "Initial invested", false, false);
            if invested.Err? then Err(BadNumber(invested.error))
            else Ok([opening, Tx(None, Buy, now, Some(invested.value), Some(1.0), 0.0, None, None)])
  }

  /** Shares without a buy price are refused, once shares and fees read well. */
  lemma SharesNeedBuyPrice(form: CreateForm, now: int)
    requires Accepts(form.initialQuantity, false, false) && Blank(form.initialBuyPrice)
    requires Blank(form.initialFees) || Accepts(form.initialFees, true, false)
    ensures SeedTransactions(Market, form, now) == Err(PriceRequired)
  {
  }

  /** The rows the opening transactions become, stored one after another from `firstId` on. */
  function SeedRows(portfolioId: int, assetId: int, seeds: seq<Tx>, firstId: int): (r: seq<TxRow>)
    ensures |r| == |seeds|
  {
    seq(|seeds|, i requires 0 <= i < |seeds| => TxRow(portfolioId, assetId, seeds[i].(id := Some(firstId + i))))
  }

  /** The `db.add` of each opening transaction, in order. */
  method InsertSeeds(db: Database, assetId: int, seeds: seq<Tx>)
    requires db.Valid()
    modifies db
    ensures db.Valid()
    ensures db.txRows == old(db.txRows) + SeedRows(db.portfolioId, assetId, seeds, old(db.nextTxId))
    ensures db.nextTxId == old(db.nextTxId) + |seeds|
    ensures db.groups == old(db.groups) && db.assets == old(db.assets) && db.baskets == old(db.baskets) && db.links == old(db.links)
    ensures db.nextAssetId == old(db.nextAssetId) && db.nextBasketId == old(db.nextBasketId)
  {
    for i := 0 to |seeds|
      invariant db.Valid()
      invariant db.txRows == old(db.txRows) + SeedRows(db.portfolioId, assetId, seeds[..i], old(db.nextTxId))
      invariant db.nextTxId == old(db.nextTxId) + i
      invariant db.groups == old(db.groups) && db.assets == old(db.assets) && db.baskets == old(db.baskets) && db.links == old(db.links)
      invariant db.nextAssetId == old(db.nextAssetId) && db.nextBasketId == old(db.nextBasketId)
    {
      var _ := db.InsertTx(assetId, seeds[i]);
      assert SeedRows(db.portfolioId, assetId, seeds[..i + 1], old(db.nextTxId)) ==
        SeedRows(db.portfolioId, assetId, seeds[..i], old(db.nextTxId)) +
        [TxRow(db.portfolioId, assetId, seeds[i].(id := Some(old(db.nextTxId) + i)))];
    }
    assert seeds[..|seeds|] == seeds;
  }

  /**
   * `create_asset`: the asset is stored with its opening transactions, or, on any refusal,
   * nothing is stored and every table and counter is as before.
   */
  method CreateAsset(db: Database, form: CreateForm, now: int) returns (r: Result<Asset, CreateRefusal>)
    requires db.Valid()
    modifies db
    ensures db.Valid()
    ensures var a := NewAsset(old(db.assets), old(db.groups), db.portfolioId, form);
      a.Err? ==> r == a && db.Saved() == old(db.Saved())
    ensures var a := NewAsset(old(db.assets), old(db.groups), db.portfolioId, form);
      a.Ok? && SeedTransactions(a.value.assetType, form, now).Err? ==>
        r == Err(SeedTransactions(a.value.assetType, form, now).error) && db.Saved() == old(db.Saved())
    ensures var a := NewAsset(old(db.assets), old(db.groups), db.portfolioId, form);
      a.Ok? && SeedTransactions(a.value.assetType, form, now).Ok? ==>
        var seeds := SeedTransactions(a.value.assetType, form, now);
        r == Ok(a.value.(id := old(db.nextAssetId))) && db.assets == old(db.assets) + [r.value] &&
        db.txRows == old(db.txRows) + SeedRows(db.portfolioId, r.value.id, seeds.value, old(db.nextTxId)) &&
        db.nextAssetId == old(db.nextAssetId) + 1 && db.nextTxId == old(db.nextTxId) + |seeds.value| &&
        db.groups == old(db.groups) && db.baskets == old(db.baskets) && db.links == old(db.links) &&
        db.nextBasketId == old(db.nextBasketId)
  {
    var a := NewAsset(db.assets, db.groups, db.portfolioId, form);
    if a.Err? {
      return a;
    }
    var saved := db.Saved();
    var stored := db.InsertAsset(a.value);
    var seeds := SeedTransactions(stored.assetType, form, now);
    if seeds.Err? {
      db.Rollback(saved);
      return Err(seeds.error);
    }
    InsertSeeds(db, stored.id, seeds.value);
    r := Ok(stored);
  }

  // ---------------------------------------------------------------------------------------------
  // Polling quotes.

  /** The symbols asked for: the non-blank comma-separated pieces, stripped and upper-cased. */
  function Requested(pieces: seq<string>): (r: seq<string>)
    ensures forall s :: s in r <==> exists p :: p in pieces && Text.Strip(p) != [] && s == Text.CanonicalSymbol(p)
  {
    if pieces == [] then []
    else
      var last := pieces[|pieces| - 1];
      assert forall p :: p in pieces <==> p in pieces[..|pieces| - 1] || p == last;
      Requested(pieces[..|pieces| - 1]) + (if Text.Strip(last) != [] then [Text.CanonicalSymbol(last)] else [])
  }

  /** The symbol of an active market asset of the portfolio. */
  predicate Allowed(assets: seq<Asset>, portfolioId: int, symbol: string) {
    exists a :: a in assets && a.portfolioId == portfolioId && a.assetType == Market && !a.archived && a.symbol == symbol
  }

  /** The pieces that are allowed, in order, repeats kept. */
  function KeepAllowed(symbols: seq<string>, assets: seq<Asset>, portfolioId: int): (r: seq<string>)
    ensures forall s :: s in r <==> s in symbols && Allowed(assets, portfolioId, s)
  {
    if symbols == [] then []
    else
      var last := symbols[|symbols| - 1];
      assert forall s :: s in symbols <==> s in symbols[..|symbols| - 1] || s == last;
      KeepAllowed(symbols[..|symbols| - 1], assets, portfolioId) + (if Allowed(assets, portfolioId, last) then [last] else [])
  }

  /**
   * `sorted(requested & allowed)`: each symbol that is both asked for and held as an active
   * market asset, once, in increasing order; each is already canonical.
   */
  function QuotedSymbols(raw: string, assets: seq<Asset>, portfolioId: int): (r: seq<string>)
    ensures Sorting.StrictlyIncreasingStr(r)
    ensures forall s :: s in r <==> s in Requested(Text.Split(raw, ',')) && Allowed(assets, portfolioId, s)
  {
    Sorting.SortedDistinctStrings(KeepAllowed(Requested(Text.Split(raw, ',')), assets, portfolioId))
  }

  /** Every requested symbol is its own canonical form. */
  lemma RequestedAreCanonical(pieces: seq<string>, s: string)
    requires s in Requested(pieces)
    ensures Text.CanonicalSymbol(s) == s
  {
    var p :| p in pieces && Text.Strip(p) != [] && s == Text.CanonicalSymbol(p);
    Text.CanonicalSymbolIdempotent(p);
  }

  /** One symbol's entry in the JSON answer; a symbol without any quote has no price and is stale. */
  datatype QuotePayload = QuotePayload(price: Option<real>, asOf: Option<int>, stale: bool, warning: Option<string>)

  datatype QuoteEntry = QuoteEntry(symbol: string, payload: QuotePayload)

  function Payload(quote: Option<Pricing.QuoteResult>): (p: QuotePayload)
    ensures quote.None? <==> p.price.None?
    ensures quote.None? ==> p.stale && p.asOf.None?
    ensures quote.Some? ==> p.price == Some(quote.value.price) && p.asOf == Some(quote.value.fetchedAt) && p.stale == quote.value.stale
  {
    match quote
    case None => QuotePayload(None, None, true, None)
    case Some(q) => QuotePayload(Some(q.price), Some(q.fetchedAt), q.stale, q.warning)
  }

  /** The answer so far, the cache, and the symbols the provider was asked for, in order. */
  datatype Polling = Polling(entries: seq<QuoteEntry>, cache: map<string, Pricing.CacheEntry>, requests: seq<string>)

  /**
   * The lookups of `api_quotes`, one per symbol in order, each against the cache the previous
   * ones left; `fetches` holds what the provider answers for each symbol.
   */
  function Poll(cache: map<string, Pricing.CacheEntry>, ttlSeconds: int, symbols: seq<string>, now: int,
                fetches: map<string, Pricing.FetchOutcome>): (p: Polling)
    requires forall i :: 0 <= i < |symbols| ==> symbols[i] in fetches
    ensures |p.entries| == |symbols|
    ensures forall i :: 0 <= i < |symbols| ==> p.entries[i].symbol == symbols[i]
  {
    if symbols == [] then Polling([], cache, [])
    else
      var before := Poll(cache, ttlSeconds, symbols[..|symbols| - 1], now, fetches);
      var s := symbols[|symbols| - 1];
      var step := Pricing.QuoteLookup(before.cache, ttlSeconds, s, now, fetches[s]);
      var entries := before.entries + [QuoteEntry(s, Payload(step.result))];
      assert forall i :: 0 <= i < |symbols| - 1 ==> entries[i] == before.entries[i] && symbols[..|symbols| - 1][i] == symbols[i];
      Polling(entries, step.cache,
              before.requests + if step.askedProvider then [Text.CanonicalSymbol(s)] else [])
  }

  /** Polling one more symbol is one more lookup against the cache the earlier ones left. */
  lemma PollStep(cache: map<string, Pricing.CacheEntry>, ttlSeconds: int, symbols: seq<string>, i: nat, now: int,
                 fetches: map<string, Pricing.FetchOutcome>)
    requires i < |symbols| && forall j :: 0 <= j < |symbols| ==> symbols[j] in fetches
    ensures var before := Poll(cache, ttlSeconds, symbols[..i], now, fetches);
      var step := Pricing.QuoteLookup(before.cache, ttlSeconds, symbols[i], now, fetches[symbols[i]]);
      Poll(cache, ttlSeconds, symbols[..i + 1], now, fetches) ==
      Polling(before.entries + [QuoteEntry(symbols[i], Payload(step.result))], step.cache,
              before.requests + if step.askedProvider then [Text.CanonicalSymbol(symbols[i])] else [])
  {
    assert symbols[..i + 1][..i] == symbols[..i];
  }

  /** A lookup only reads the entry of its canonical symbol. */
  lemma LookupReadsOneEntry(c1: map<string, Pricing.CacheEntry>, c2: map<string, Pricing.CacheEntry>, ttlSeconds: int,
                            symbol: string, now: int, fetch: Pricing.FetchOutcome)
    requires var k := Text.CanonicalSymbol(symbol); (k in c1 <==> k in c2) && (k in c1 ==> c1[k] == c2[k])
    ensures Pricing.QuoteLookup(c1, ttlSeconds, symbol, now, fetch).result == Pricing.QuoteLookup(c2, ttlSeconds, symbol, now, fetch).result
    ensures Pricing.QuoteLookup(c1, ttlSeconds, symbol, now, fetch).askedProvider == Pricing.QuoteLookup(c2, ttlSeconds, symbol, now, fetch).askedProvider
  {
  }

  /** Polling canonical symbols leaves the entries of every other symbol as they were. */
  lemma {:induction false} PollKeepsOtherEntries(cache: map<string, Pricing.CacheEntry>, ttlSeconds: int, symbols: seq<string>,
                                                 now: int, fetches: map<string, Pricing.FetchOutcome>, k: string)
    requires forall i :: 0 <= i < |symbols| ==> symbols[i] in fetches && Text.CanonicalSymbol(symbols[i]) == symbols[i]
    requires k !in symbols
    ensures var after := Poll(cache, ttlSeconds, symbols, now, fetches).cache;
      (k in after <==> k in cache) && (k in cache ==> after[k] == cache[k])
  {
    if symbols != [] {
      var prefix := symbols[..|symbols| - 1];
      assert k !in prefix by {
        assert forall x :: x in prefix ==> x in symbols;
      }
      PollKeepsOtherEntries(cache, ttlSeconds, prefix, now, fetches, k);
      var before := Poll(cache, ttlSeconds, prefix, now, fetches);
      var s := symbols[|symbols| - 1];
      Pricing.CacheOnlyTouchesSymbol(before.cache, ttlSeconds, s, now, fetches[s]);
    }
  }

  /**
   * Since the polled symbols are distinct and canonical, each one is answered exactly as a
   * single lookup against the cache as it was before the request would answer it.
   */
  lemma {:induction false} PollAnswersFromStart(cache: map<string, Pricing.CacheEntry>, ttlSeconds: int, symbols: seq<string>,
                                                now: int, fetches: map<string, Pricing.FetchOutcome>)
    requires forall i :: 0 <= i < |symbols| ==> symbols[i] in fetches && Text.CanonicalSymbol(symbols[i]) == symbols[i]
    requires forall i, j :: 0 <= i < j < |symbols| ==> symbols[i] != symbols[j]
    ensures forall i :: 0 <= i < |symbols| ==>
      Poll(cache, ttlSeconds, symbols, now, fetches).entries[i].payload ==
      Payload(Pricing.QuoteLookup(cache, ttlSeconds, symbols[i], now, fetches[symbols[i]]).result)
  {
    if symbols != [] {
      var n := |symbols| - 1;
      var prefix := symbols[..n];
      PollAnswersFromStart(cache, ttlSeconds, prefix, now, fetches);
      var s := symbols[n];
      assert s !in prefix;
      PollKeepsOtherEntries(cache, ttlSeconds, prefix, now, fetches, s);
      var before := Poll(cache, ttlSeconds, prefix, now, fetches);
      LookupReadsOneEntry(before.cache, cache, ttlSeconds, s, now, fetches[s]);
    }
  }

  /** The requested symbols that `api_quotes` answers are answered each against the original cache. */
  lemma QuotesAnswerFromStart(cache: map<string, Pricing.CacheEntry>, ttlSeconds: int, raw: string, assets: seq<Asset>,
                              portfolioId: int, now: int, fetches: map<string, Pricing.FetchOutcome>)
    requires forall s :: s in QuotedSymbols(raw, assets, portfolioId) ==> s in fetches
    ensures var symbols := QuotedSymbols(raw, assets, portfolioId);
      forall i :: 0 <= i < |symbols| ==>
        Poll(cache, ttlSeconds, symbols, now, fetches).entries[i].payload ==
        Payload(Pricing.QuoteLookup(cache, ttlSeconds, symbols[i], now, fetches[symbols[i]]).result)
  {
    var symbols := QuotedSymbols(raw, assets, portfolioId);
    forall i | 0 <= i < |symbols|
      ensures Text.CanonicalSymbol(symbols[i]) == symbols[i]
    {
      RequestedAreCanonical(Text.Split(raw, ','), symbols[i]);
    }
    PollAnswersFromStart(cache, ttlSeconds, symbols, now, fetches);
  }

  lemma AppendAssociates(a: seq<string>, b: seq<string>, c: seq<string>)
    ensures (a + b) + c == a + (b + c)
  {
  }

  /** The loop of `api_quotes`: one `get_quote` per symbol, in order. */
  method PollQuotes(service: Pricing.PricingService, symbols: seq<string>, now: int,
                    fetches: map<string, Pricing.FetchOutcome>) returns (quotes: seq<QuoteEntry>)
    requires forall i :: 0 <= i < |symbols| ==> symbols[i] in fetches
    modifies service
    ensures var polled := Poll(old(service.cache), service.ttlSeconds, symbols, now, fetches);
      quotes == polled.entries && service.cache == polled.cache &&
      service.providerRequests == old(service.providerRequests) + polled.requests
  {
    quotes := [];
    ghost var requests := service.providerRequests;
    ghost var start := service.cache;
    for i := 0 to |symbols|
      invariant quotes == Poll(start, service.ttlSeconds, symbols[..i], now, fetches).entries
      invariant service.cache == Poll(start, service.ttlSeconds, symbols[..i], now, fetches).cache
      invariant service.providerRequests == requests + Poll(start, service.ttlSeconds, symbols[..i], now, fetches).requests
    {
      PollStep(start, service.ttlSeconds, symbols, i, now, fetches);
      ghost var before := Poll(start, service.ttlSeconds, symbols[..i], now, fetches);
      ghost var step := Pricing.QuoteLookup(before.cache, service.ttlSeconds, symbols[i], now, fetches[symbols[i]]);
      AppendAssociates(requests, before.requests, if step.askedProvider then [Text.CanonicalSymbol(symbols[i])] else []);
      var quote := service.GetQuote(symbols[i], now, fetches[symbols[i]]);
      quotes := quotes + [QuoteEntry(symbols[i], Payload(quote))];
    }
    assert symbols[..|symbols|] == symbols;
  }

  /**
   * `api_quotes`: one quote per symbol that is both requested and held as an active market
   * asset, in increasing order, each through the pricing service.
   */
  method ApiQuotes(db: Database, service: Pricing.PricingService, raw: string, now: int,
                   fetches: map<string, Pricing.FetchOutcome>) returns (quotes: seq<QuoteEntry>)
    requires forall s :: s in QuotedSymbols(raw, db.assets, db.portfolioId) ==> s in fetches
    modifies service
    ensures var polled := Poll(old(service.cache), service.ttlSeconds, QuotedSymbols(raw, db.assets, db.portfolioId), now, fetches);
      quotes == polled.entries && service.cache == polled.cache &&
      service.providerRequests == old(service.providerRequests) + polled.requests
  {
    var symbols := QuotedSymbols(raw, db.assets, db.portfolioId);
    quotes := PollQuotes(service, symbols, now, fetches);
  }

  // ---------------------------------------------------------------------------------------------
  // The chart range.

  /** A date query parameter: absent or empty, an ISO date (as a day number), or anything else. */
  datatype DateField = NoDate | Date(day: int) | BadDate

  datatype RangeError = InvalidStart | InvalidEnd | StartAfterEnd

  datatype ChartRange = ChartRange(start: int, end: int, error: Option<RangeError>)

  /**
   * The chart range of `dashboard_page`: the last 180 days unless dates are given. A bad end
   * date is reported over a bad start date, and the order is only checked when both read well.
   */
  function ChartWindow(today: int, rawStart: DateField, rawEnd: DateField): (r: ChartRange)
    ensures r.start == (if rawStart.Date? then rawStart.day else today - 179)
    ensures r.end == (if rawEnd.Date? then rawEnd.day else today)
    ensures r.error == Some(InvalidEnd) <==> rawEnd.BadDate?
    ensures r.error == Some(InvalidStart) <==> rawStart.BadDate? && !rawEnd.BadDate?
    ensures r.error.None? ==> r.start <= r.end
    ensures r.error == Some(StartAfterEnd) <==> !rawStart.BadDate? && !rawEnd.BadDate? && r.start > r.end
  {
    var start := if rawStart.Date? then rawStart.day else today - 179;
    var end := if rawEnd.Date? then rawEnd.day else today;
    var error :=
      if rawEnd.BadDate? then Some(InvalidEnd)
      else if rawStart.BadDate? then Some(InvalidStart)
      else if start > end then Some(StartAfterEnd)
      else None;
    ChartRange(start, end, error)
  }

  /** Without dates the chart shows the 180 days up to today. */
  lemma DefaultWindow(today: int)
    ensures ChartWindow(today, NoDate, NoDate) == ChartRange(today - 179, today, None)
  {
  }
}
