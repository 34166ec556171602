/**
 * Exchange rates (src/CurrencyService.js): two rate providers tried in
 * order, a script cache consulted first, the rate between two currency
 * codes, and the pass over the Transactions sheet that fills in the
 * base-currency amount of every row it can convert.
 *
 * The providers' replies come from a `Network` value (what each URL would
 * answer for a base currency), so the model is deterministic; the
 * `RateService` object holds the script cache and records every request it
 * sends, so that "no request" and "the fallback only after the primary
 * failed" can be stated.
 */
module CurrencyService {
  import opened Strings
  import opened Values
  import opened Utils

  /** A rates object: currency code to units of that currency per unit of the base. */
  type Rates = map<string, real>

  const CacheKeyPrefix: string := "exchange_rates_"
  /** Six hours, in seconds. */
  const CacheTtl: int := 21600

  /** The primary provider's JSON body: `result` and `conversion_rates`, or text that is not such an object. */
  datatype PrimaryBody = PrimaryMalformed | PrimaryJson(result: Option<string>, conversionRates: Option<Rates>)
  /** The primary fetch: it throws, or answers with a status code and a body. */
  datatype PrimaryReply = PrimaryThrows | PrimaryHttp(status: int, body: PrimaryBody)
  /** The fallback provider's JSON body: `rates`, or text that is not such an object. */
  datatype FallbackBody = FallbackMalformed | FallbackJson(rates: Option<Rates>)
  datatype FallbackReply = FallbackThrows | FallbackHttp(status: int, body: FallbackBody)

  /** What each provider answers for a given base currency. */
  datatype Network = Network(primary: string -> PrimaryReply, fallback: string -> FallbackReply)

  /** A request sent to a provider, for a base currency. */
  datatype Request = PrimaryRequest(base: string) | FallbackRequest(base: string)

  /** A cache entry: rates stored with their lifetime, or text that does not read back as rates. */
  datatype CacheEntry = Stored(rates: Rates, ttl: int) | Unreadable

  // ---------------------------------------------------------------------
  // Providers
  // ---------------------------------------------------------------------

  /** `fetchRatesFromPrimary_`: the conversion rates of a 200 reply whose result is "success". */
  function PrimaryRates(reply: PrimaryReply): Option<Rates>
  {
    match reply
    case PrimaryThrows => None
    case PrimaryHttp(status, body) =>
      if status != 200 then None
      else match body
        case PrimaryMalformed => None
        case PrimaryJson(result, conversionRates) =>
          if result != Some("success") then None else conversionRates
  }

  /** `fetchRatesFromFallback_`: the rates of a 200 reply that has them, with the base itself at 1. */
  function FallbackRates(reply: FallbackReply, base: string): Option<Rates>
  {
    match reply
    case FallbackThrows => None
    case FallbackHttp(status, body) =>
      if status != 200 then None
      else match body
        case FallbackMalformed => None
        case FallbackJson(rates) =>
          match rates
          case None => None
          case Some(m) => Some(m[base := 1.0])
  }

  /** `fetchExchangeRates_`: the primary's rates, else the fallback's. */
  function FetchedRates(net: Network, base: string): Option<Rates>
  {
    match PrimaryRates(net.primary(base))
    case Some(r) => Some(r)
    case None => FallbackRates(net.fallback(base), base)
  }

  /** The requests `fetchExchangeRates_` sends, in order. */
  function FetchRequests(net: Network, base: string): seq<Request>
  {
    if PrimaryRates(net.primary(base)).Some? then [PrimaryRequest(base)]
    else [PrimaryRequest(base), FallbackRequest(base)]
  }

  /** The primary provider is believed exactly when it says 200, "success", and sends rates. */
  lemma PrimaryRatesMeaning(reply: PrimaryReply)
    ensures PrimaryRates(reply).Some? <==>
              (reply.PrimaryHttp? && reply.status == 200 && reply.body.PrimaryJson?
               && reply.body.result == Some("success") && reply.body.conversionRates.Some?)
    ensures PrimaryRates(reply).Some? ==> PrimaryRates(reply) == reply.body.conversionRates
  {
  }

  /**
   * The fallback provider is believed exactly when it says 200 and sends
   * rates; the base currency then rates 1, and every other code keeps the
   * rate it was sent with.
   */
  lemma FallbackRatesMeaning(reply: FallbackReply, base: string)
    ensures FallbackRates(reply, base).Some? <==>
              (reply.FallbackHttp? && reply.status == 200 && reply.body.FallbackJson?
               && reply.body.rates.Some?)
    ensures FallbackRates(reply, base).Some? ==>
              var r := FallbackRates(reply, base).value;
              base in r && r[base] == 1.0
              && r.Keys == reply.body.rates.value.Keys + {base}
              && forall c :: c in r && c != base ==> r[c] == reply.body.rates.value[c]
  {
  }

  /** The fallback is asked only after the primary failed, and its answer is used only then. */
  lemma FetchOrder(net: Network, base: string)
    ensures FetchRequests(net, base)[0] == PrimaryRequest(base)
    ensures FallbackRequest(base) in FetchRequests(net, base) <==> PrimaryRates(net.primary(base)).None?
    ensures PrimaryRates(net.primary(base)).Some? ==> FetchedRates(net, base) == PrimaryRates(net.primary(base))
    ensures PrimaryRates(net.primary(base)).None? ==> FetchedRates(net, base) == FallbackRates(net.fallback(base), base)
    ensures FetchedRates(net, base).None? <==>
              PrimaryRates(net.primary(base)).None? && FallbackRates(net.fallback(base), base).None?
  {
    var rs := FetchRequests(net, base);
    if PrimaryRates(net.primary(base)).Some? {
      assert rs == [PrimaryRequest(base)];
    } else {
      assert rs[1] == FallbackRequest(base);
    }
  }

  // ---------------------------------------------------------------------
  // Cache
  // ---------------------------------------------------------------------

  function CacheKey(base: string): (k: string)
    ensures StartsWith(k, CacheKeyPrefix) && k[|CacheKeyPrefix|..] == base
  {
    CacheKeyPrefix + base
  }

  /** `getCachedRates_`: the rates stored under the base's key; anything unreadable is a miss. */
  function Lookup(cache: map<string, CacheEntry>, base: string): Option<Rates>
  {
    var key := CacheKey(base);
    if key in cache && cache[key].Stored? then Some(cache[key].rates) else None
  }

  /** `getExchangeRates_`: the cached rates, else freshly fetched ones. */
  function ResolveRates(cache: map<string, CacheEntry>, net: Network, base: string): Option<Rates>
  {
    match Lookup(cache, base)
    case Some(r) => Some(r)
    case None => FetchedRates(net, base)
  }

  /** The requests `getExchangeRates_` sends: none on a cache hit. */
  function RequestsFor(cache: map<string, CacheEntry>, net: Network, base: string): seq<Request>
  {
    if Lookup(cache, base).Some? then [] else FetchRequests(net, base)
  }

  /** The cache after `getExchangeRates_`: fetched rates are stored when the cache accepts the write. */
  function CacheAfter(cache: map<string, CacheEntry>, net: Network, base: string, writable: bool): map<string, CacheEntry>
  {
    if Lookup(cache, base).Some? then cache
    else match FetchedRates(net, base)
      case Some(r) => if writable then cache[CacheKey(base) := Stored(r, CacheTtl)] else cache
      case None => cache
  }

  /** Cache first: a hit is returned as it is, with no request and no write. */
  lemma CacheHit(cache: map<string, CacheEntry>, net: Network, base: string, writable: bool)
    requires Lookup(cache, base).Some?
    ensures ResolveRates(cache, net, base) == Lookup(cache, base)
    ensures RequestsFor(cache, net, base) == []
    ensures CacheAfter(cache, net, base, writable) == cache
  {
  }

  /** An unreadable entry is a miss: the providers are asked. */
  lemma UnreadableIsMiss(cache: map<string, CacheEntry>, net: Network, base: string)
    requires CacheKey(base) in cache && cache[CacheKey(base)] == Unreadable
    ensures ResolveRates(cache, net, base) == FetchedRates(net, base)
    ensures RequestsFor(cache, net, base) == FetchRequests(net, base)
  {
  }

  /**
   * After a miss, fetched rates are stored under 'exchange_rates_' + base
   * for six hours, and the next lookup is served from the cache with the
   * same rates and no request, whatever the providers would say then; a
   * write the cache refuses changes nothing, and the rates returned do not
   * depend on it.
   */
  lemma CacheMissStores(cache: map<string, CacheEntry>, net: Network, later: Network, base: string, writable: bool)
    requires Lookup(cache, base).None? && FetchedRates(net, base).Some?
    ensures writable ==> CacheAfter(cache, net, base, writable)
                           == cache[CacheKeyPrefix + base := Stored(FetchedRates(net, base).value, 21600)]
    ensures writable ==> ResolveRates(CacheAfter(cache, net, base, writable), later, base) == ResolveRates(cache, net, base)
                         && RequestsFor(CacheAfter(cache, net, base, writable), later, base) == []
    ensures !writable ==> CacheAfter(cache, net, base, writable) == cache
    ensures ResolveRates(cache, net, base) == FetchedRates(net, base)
  {
    if writable {
      var after := CacheAfter(cache, net, base, writable);
      assert CacheKey(base) in after && after[CacheKey(base)] == Stored(FetchedRates(net, base).value, CacheTtl);
    }
  }

  // ---------------------------------------------------------------------
  // The rate between two codes
  // ---------------------------------------------------------------------

  /** `getExchangeRate(from, to)`: 1 for the same code, else the base's rate for `to`, None when there is none. */
  function ExchangeRate(cache: map<string, CacheEntry>, net: Network, from: string, to: string): Option<real>
  {
    var f, t := Normalize(from), Normalize(to);
    if f == t then Some(1.0)
    else match ResolveRates(cache, net, f)
      case None => None
      case Some(rates) => if t in rates then Some(rates[t]) else None
  }

  /** The requests `getExchangeRate` sends: none for two spellings of the same code. */
  function ExchangeRateRequests(cache: map<string, CacheEntry>, net: Network, from: string, to: string): seq<Request>
  {
    if Normalize(from) == Normalize(to) then [] else RequestsFor(cache, net, Normalize(from))
  }

  function ExchangeRateCache(cache: map<string, CacheEntry>, net: Network, from: string, to: string, writable: bool): map<string, CacheEntry>
  {
    if Normalize(from) == Normalize(to) then cache else CacheAfter(cache, net, Normalize(from), writable)
  }

  /** The same code twice is rate 1, with no request and no cache access. */
  lemma ExchangeRateSameCode(cache: map<string, CacheEntry>, net: Network, from: string, to: string, writable: bool)
    requires Normalize(from) == Normalize(to)
    ensures ExchangeRate(cache, net, from, to) == Some(1.0)
    ensures ExchangeRateRequests(cache, net, from, to) == []
    ensures ExchangeRateCache(cache, net, from, to, writable) == cache
  {
  }

  /** Codes are compared trimmed and upper-cased: normalising them first changes nothing. */
  lemma ExchangeRateCaseInsensitive(cache: map<string, CacheEntry>, net: Network, from: string, to: string)
    ensures ExchangeRate(cache, net, Normalize(from), Normalize(to)) == ExchangeRate(cache, net, from, to)
    ensures ExchangeRateRequests(cache, net, Normalize(from), Normalize(to)) == ExchangeRateRequests(cache, net, from, to)
  {
    NormalizeIdempotent(from);
    NormalizeIdempotent(to);
  }

  /**
   * For two different codes the rate is the entry for `to` in the rates of
   * `from`, and there is none when those rates are unavailable or have no
   * entry for `to`.
   */
  lemma ExchangeRateLookup(cache: map<string, CacheEntry>, net: Network, from: string, to: string, x: real)
    requires Normalize(from) != Normalize(to)
    ensures ExchangeRate(cache, net, from, to) == Some(x) <==>
                   (ResolveRates(cache, net, Normalize(from)).Some?
                    && Normalize(to) in ResolveRates(cache, net, Normalize(from)).value
                    && ResolveRates(cache, net, Normalize(from)).value[Normalize(to)] == x)
    ensures ExchangeRate(cache, net, from, to).None? <==>
                   (ResolveRates(cache, net, Normalize(from)).None?
                    || Normalize(to) !in ResolveRates(cache, net, Normalize(from)).value)
  {
  }

  // ---------------------------------------------------------------------
  // Converting the Transactions sheet
  // ---------------------------------------------------------------------

  /** `getSetting('Base Currency') || 'USD'`. */
  function BaseCurrency(settings: SettingsSheet): (r: Result<Cell, ConfigError>)
    ensures r.Failure? <==> settings.None?
    ensures r.Success? ==> Truthy(r.value)
  {
    match GetSetting(settings, "Base Currency")
    case Failure(e) => Failure(e)
    case Success(v) => Success(if TruthySetting(v) then v.value else Text("USD"))
  }

  /** A row's currency code: `String(currency || '').trim().toUpperCase()`. */
  function RowCurrency(row: TxRow): string
  {
    Normalize(CellString(OrEmpty(row.currency)))
  }

  /** The local amount of a row the pass looks at: None for a falsy amount, an empty code, or NaN. */
  function RowLocal(row: TxRow): Option<real>
  {
    if !Truthy(row.amountLocal) || RowCurrency(row) == [] then None
    else CellNumber(row.amountLocal)
  }

  /** What the pass does with one row. */
  datatype RowAction = Convert(amount: real) | Skip | NoRate(currency: string) | BaseNotText

  /**
   * The decision for one data row, given the base currency setting and the
   * rates of that base: the base currency's own amount is rounded to cents,
   * another currency's is divided by its rate first; a code without a
   * (non-zero) rate is reported; a numeric base currency makes
   * `baseCurrency.toUpperCase()` throw at the first row that gets that far.
   */
  function ActionFor(row: TxRow, base: Cell, rates: Rates): (a: RowAction)
    ensures !Truthy(row.amountLocal) || RowCurrency(row) == [] || CellNumber(row.amountLocal).None? ==> a == Skip
  {
    match RowLocal(row)
    case None => Skip
    case Some(x) =>
      var currency := RowCurrency(row);
      if !base.Text? then BaseNotText
      else if currency == Upper(base.s) then Convert(Round2(x))
      else if currency !in rates || rates[currency] == 0.0 then NoRate(currency)
      else Convert(Round2(x / rates[currency]))
  }

  /** A row after the pass: only its base-currency amount can change. */
  function ConvertRow(row: TxRow, base: Cell, rates: Rates): TxRow
  {
    match ActionFor(row, base, rates)
    case Convert(v) => row.(amountBase := Num(v))
    case _ => row
  }

  /** The sheet once the data rows before `n` have been through the pass. */
  function ConvertedUpTo(rows: seq<TxRow>, base: Cell, rates: Rates, n: int): seq<TxRow>
  {
    seq(|rows|, k requires 0 <= k < |rows| => if 1 <= k < n then ConvertRow(rows[k], base, rates) else rows[k])
  }

  /** The sheet after the pass: the header row as it was, every data row converted. */
  function ConvertRows(rows: seq<TxRow>, base: Cell, rates: Rates): seq<TxRow>
  {
    ConvertedUpTo(rows, base, rates, |rows|)
  }

  /** How many of the data rows before `n` the pass writes to. */
  function Writes(rows: seq<TxRow>, base: Cell, rates: Rates, n: nat): nat
    requires n <= |rows|
  {
    if n <= 1 then 0
    else Writes(rows, base, rates, n - 1) + (if ActionFor(rows[n - 1], base, rates).Convert? then 1 else 0)
  }

  /** The pass throws: the base currency is a number and some data row reaches the comparison. */
  predicate BaseFails(rows: seq<TxRow>, base: Cell, rates: Rates)
  {
    exists k :: 1 <= k < |rows| && ActionFor(rows[k], base, rates).BaseNotText?
  }

  /** How `updateExchangeRates` ends when it does not throw. */
  datatype UpdateOutcome = NoTransactionsSheet | NoTransactions | RatesUnavailable | Updated(count: nat)

  /**
   * What a converted row gets: the base currency's own amount rounded to
   * the cent, any other currency's amount divided by its (non-zero) rate,
   * the rate counting units of that currency per unit of the base, and
   * the result within half a cent of the exact quotient.
   */
  lemma ConvertedAmountMeaning(row: TxRow, base: Cell, rates: Rates)
    requires ActionFor(row, base, rates).Convert?
    ensures base.Text? && RowLocal(row).Some?
    ensures var v, x := ActionFor(row, base, rates).amount, RowLocal(row).value;
            var c := RowCurrency(row);
            if c == Upper(base.s) then v == Round2(x)
            else c in rates && rates[c] != 0.0 && v == Round2(x / rates[c])
                 && x / rates[c] - 0.005 < v <= x / rates[c] + 0.005
  {
    var x := RowLocal(row).value;
    var c := RowCurrency(row);
    if c != Upper(base.s) {
      var y := x / rates[c];
      assert Round2(y) == ActionFor(row, base, rates).amount;
    }
  }

  /**
   * The pass writes nothing but column D (the base-currency amount) of
   * data rows, leaves the header row alone, and leaves untouched every row
   * it skips or cannot convert.
   */
  lemma ConvertRowsFrame(rows: seq<TxRow>, base: Cell, rates: Rates)
    ensures |ConvertRows(rows, base, rates)| == |rows|
    ensures |rows| > 0 ==> ConvertRows(rows, base, rates)[0] == rows[0]
    ensures forall k :: 0 <= k < |rows| ==>
              ConvertRows(rows, base, rates)[k].(amountBase := rows[k].amountBase) == rows[k]
    ensures forall k :: 1 <= k < |rows| && !ActionFor(rows[k], base, rates).Convert? ==>
              ConvertRows(rows, base, rates)[k] == rows[k]
    ensures forall k :: 1 <= k < |rows| && ActionFor(rows[k], base, rates).Convert? ==>
              ConvertRows(rows, base, rates)[k].amountBase == Num(ActionFor(rows[k], base, rates).amount)
  {
  }

  /**
   * Running the pass again with the same rates changes nothing more: it
   * reads only the local amount and the currency, and writes only the
   * base amount.
   */
  lemma ConvertRowsIdempotent(rows: seq<TxRow>, base: Cell, rates: Rates)
    ensures ConvertRows(ConvertRows(rows, base, rates), base, rates) == ConvertRows(rows, base, rates)
  {
    var once := ConvertRows(rows, base, rates);
    forall k | 1 <= k < |rows|
      ensures ConvertRow(once[k], base, rates) == once[k]
    {
      ConvertRowReadsNoBaseAmount(rows[k], base, rates);
    }
  }

  lemma ConvertRowReadsNoBaseAmount(row: TxRow, base: Cell, rates: Rates)
    ensures var once := ConvertRow(row, base, rates);
            ActionFor(once, base, rates) == ActionFor(row, base, rates)
            && ConvertRow(once, base, rates) == once
  {
    var once := ConvertRow(row, base, rates);
    assert once.amountLocal == row.amountLocal && once.currency == row.currency;
    assert RowCurrency(once) == RowCurrency(row) && RowLocal(once) == RowLocal(row);
  }

  /** The count of rows written is at most the number of data rows. */
  lemma {:induction false} WritesBound(rows: seq<TxRow>, base: Cell, rates: Rates, n: nat)
    requires 1 <= n <= |rows|
    ensures Writes(rows, base, rates, n) <= n - 1
    decreases n
  {
    if n > 1 {
      WritesBound(rows, base, rates, n - 1);
    }
  }

  /** One more step of the pass converts row `i` and nothing else. */
  lemma ConvertedUpToStep(rows: seq<TxRow>, base: Cell, rates: Rates, i: int)
    requires 1 <= i < |rows|
    ensures ConvertedUpTo(rows, base, rates, i)[i] == rows[i]
    ensures ConvertedUpTo(rows, base, rates, i + 1) ==
            ConvertedUpTo(rows, base, rates, i)[i := ConvertRow(rows[i], base, rates)]
  {
  }

  /** With a numeric base currency no row is converted, so however far the pass got, it has written nothing. */
  lemma NumericBaseWritesNothing(rows: seq<TxRow>, base: Cell, rates: Rates, n: int)
    requires !base.Text?
    ensures ConvertedUpTo(rows, base, rates, n) == rows
  {
    forall k | 1 <= k < |rows| ensures ConvertRow(rows[k], base, rates) == rows[k] {
      assert !ActionFor(rows[k], base, rates).Convert?;
    }
  }

  /** 9250 yen at 92.5 yen to the dollar is 100 dollars; the code is trimmed and upper-cased first. */
  lemma ConversionExampleYen()
    ensures ActionFor(TxRow(Empty, Empty, Text("Food"), Empty, Num(9250.0), Text(" jpy ")),
                      Text("USD"), map["JPY" := 92.5]) == Convert(100.0)
  {
    var row := TxRow(Empty, Empty, Text("Food"), Empty, Num(9250.0), Text(" jpy "));
    assert TrimStart(" jpy ") == "jpy ";
    assert TrimEnd("jpy ") == "jpy";
    assert Upper("jpy") == "JPY";
    assert RowCurrency(row) == "JPY" && RowLocal(row) == Some(9250.0);
    assert Upper("USD") == "USD";
    RoundHalfUpUnique(10000.0, 10000);
  }

  /** 100 euros at 0.73 euros to the dollar is 136.99 dollars (136.986... rounded to the cent). */
  lemma ConversionExampleEuro()
    ensures ActionFor(TxRow(Empty, Empty, Text("Food"), Empty, Num(100.0), Text("EUR")),
                      Text("USD"), map["EUR" := 0.73]) == Convert(136.99)
  {
    var row := TxRow(Empty, Empty, Text("Food"), Empty, Num(100.0), Text("EUR"));
    assert TrimStart("EUR") == "EUR" && TrimEnd("EUR") == "EUR" && Upper("EUR") == "EUR";
    assert RowCurrency(row) == "EUR" && RowLocal(row) == Some(100.0);
    assert Upper("USD") == "USD";
    RoundHalfUpUnique(100.0 / 0.73 * 100.0, 13699);
  }

  /** A currency the rates do not list is reported, not converted. */
  lemma ConversionExampleNoRate()
    ensures ActionFor(TxRow(Empty, Empty, Text("Food"), Empty, Num(100.0), Text("GBP")),
                      Text("USD"), map["EUR" := 0.73]) == NoRate("GBP")
  {
    var row := TxRow(Empty, Empty, Text("Food"), Empty, Num(100.0), Text("GBP"));
    assert TrimStart("GBP") == "GBP" && TrimEnd("GBP") == "GBP" && Upper("GBP") == "GBP";
    assert RowCurrency(row) == "GBP" && RowLocal(row) == Some(100.0);
    assert Upper("USD") == "USD";
  }

  // ---------------------------------------------------------------------
  // The service object: script cache, requests sent, the pass
  // ---------------------------------------------------------------------

  class RateService {
    /** The script cache. */
    var cache: map<string, CacheEntry>
    /** Every request sent to a provider, oldest first. */
    var requests: seq<Request>
    /** What the providers answer. */
    const net: Network
    /** Whether the cache accepts writes (a refused write is logged and ignored). */
    const writable: bool

    constructor(net: Network, writable: bool, cache: map<string, CacheEntry>)
      ensures this.net == net && this.writable == writable
      ensures this.cache == cache && requests == []
    {
      this.net := net;
      this.writable := writable;
      this.cache := cache;
      requests := [];
    }

    method FetchRatesFromPrimary(base: string) returns (r: Option<Rates>)
      modifies this`requests
      ensures requests == old(requests) + [PrimaryRequest(base)]
      ensures r == PrimaryRates(net.primary(base))
    {
      requests := requests + [PrimaryRequest(base)];
      var reply := net.primary(base);
      if !reply.PrimaryHttp? || reply.status != 200 || !reply.body.PrimaryJson? {
        return None;
      }
      if reply.body.result != Some("success") {
        return None;
      }
      r := reply.body.conversionRates;
    }

    method FetchRatesFromFallback(base: string) returns (r: Option<Rates>)
      modifies this`requests
      ensures requests == old(requests) + [FallbackRequest(base)]
      ensures r == FallbackRates(net.fallback(base), base)
    {
      requests := requests + [FallbackRequest(base)];
      var reply := net.fallback(base);
      if !reply.FallbackHttp? || reply.status != 200 || !reply.body.FallbackJson? {
        return None;
      }
      var rates := reply.body.rates;
      if rates.None? {
        return None;
      }
      r := Some(rates.value[base := 1.0]);
    }

    method FetchExchangeRates(base: string) returns (r: Option<Rates>)
      modifies this`requests
      ensures requests == old(requests) + FetchRequests(net, base)
      ensures r == FetchedRates(net, base)
    {
      r := FetchRatesFromPrimary(base);
      if r.Some? {
        return;
      }
      r := FetchRatesFromFallback(base);
    }

    method GetCachedRates(base: string) returns (r: Option<Rates>)
      ensures r == Lookup(cache, base)
    {
      var key := CacheKeyPrefix + base;
      if key in cache && cache[key].Stored? {
        r := Some(cache[key].rates);
      } else {
        r := None;
      }
    }

    method CacheRates(base: string, rates: Rates)
      modifies this`cache
      ensures cache == if writable then old(cache)[CacheKey(base) := Stored(rates, CacheTtl)] else old(cache)
    {
      if writable {
        cache := cache[CacheKeyPrefix + base := Stored(rates, CacheTtl)];
      }
    }

    method GetExchangeRates(base: string) returns (r: Option<Rates>)
      modifies this`cache, this`requests
      ensures r == ResolveRates(old(cache), net, base)
      ensures cache == CacheAfter(old(cache), net, base, writable)
      ensures requests == old(requests) + RequestsFor(old(cache), net, base)
    {
      r := GetCachedRates(base);
      if r.Some? {
        return;
      }
      r := FetchExchangeRates(base);
      if r.Some? {
        CacheRates(base, r.value);
      }
    }

    method GetExchangeRate(from: string, to: string) returns (r: Option<real>)
      modifies this`cache, this`requests
      ensures r == ExchangeRate(old(cache), net, from, to)
      ensures cache == ExchangeRateCache(old(cache), net, from, to, writable)
      ensures requests == old(requests) + ExchangeRateRequests(old(cache), net, from, to)
    {
      var f := Upper(Trim(from));
      var t := Upper(Trim(to));
      if f == t {
        return Some(1.0);
      }
      var rates := GetExchangeRates(f);
      if rates.None? {
        return None;
      }
      if t in rates.value {
        r := Some(rates.value[t]);
      } else {
        r := None;
      }
    }

    /**
     * `updateExchangeRates()`: reads the base currency, then (when the
     * Transactions sheet exists and has data rows, and rates for the base
     * are available) writes the converted amount of every data row it can
     * convert, in order, into that row's base-currency column.
     */
    method UpdateExchangeRates(settings: SettingsSheet, ledger: array?<TxRow>) returns (r: Result<UpdateOutcome, ConfigError>)
      modifies this`cache, this`requests, ledger
      ensures BaseCurrency(settings).Failure? ==>
                r == Failure(BaseCurrency(settings).error) && cache == old(cache) && requests == old(requests)
                && (ledger != null ==> ledger[..] == old(ledger[..]))
      ensures BaseCurrency(settings).Success? && ledger == null ==>
                r == Success(NoTransactionsSheet) && cache == old(cache) && requests == old(requests)
      ensures BaseCurrency(settings).Success? && ledger != null && ledger.Length <= 1 ==>
                r == Success(NoTransactions) && cache == old(cache) && requests == old(requests)
                && ledger[..] == old(ledger[..])
      ensures ledger != null && BaseCurrency(settings).Success? && ledger.Length > 1 ==>
                var base := BaseCurrency(settings).value;
                var key := CellString(base);
                cache == CacheAfter(old(cache), net, key, writable)
                && requests == old(requests) + RequestsFor(old(cache), net, key)
                && match ResolveRates(old(cache), net, key)
                   case None => r == Success(RatesUnavailable) && ledger[..] == old(ledger[..])
                   case Some(rates) =>
                     if BaseFails(old(ledger[..]), base, rates) then
                       r == Failure(BaseCurrencyNotText) && ledger[..] == old(ledger[..])
                     else
                       r == Success(Updated(Writes(old(ledger[..]), base, rates, ledger.Length)))
                       && ledger[..] == ConvertRows(old(ledger[..]), base, rates)
    {
      var baseSetting := BaseCurrency(settings);
      if baseSetting.Failure? {
        return Failure(baseSetting.error);
      }
      var base := baseSetting.value;
      if ledger == null {
        return Success(NoTransactionsSheet);
      }
      if ledger.Length <= 1 {
        return Success(NoTransactions);
      }
      var found := GetExchangeRates(CellString(base));
      if found.None? {
        return Success(RatesUnavailable);
      }
      var converted := ConvertLedger(ledger, base, found.value);
      r := match converted
        case Failure(e) => Failure(e)
        case Success(n) => Success(Updated(n));
    }

    /** The loop over the data rows of `updateExchangeRates`, with the rates of the base currency in hand. */
    static method ConvertLedger(ledger: array<TxRow>, base: Cell, rates: Rates) returns (r: Result<nat, ConfigError>)
      modifies ledger
      ensures BaseFails(old(ledger[..]), base, rates) ==> r == Failure(BaseCurrencyNotText) && ledger[..] == old(ledger[..])
      ensures !BaseFails(old(ledger[..]), base, rates) ==>
                r == Success(Writes(old(ledger[..]), base, rates, ledger.Length))
                && ledger[..] == ConvertRows(old(ledger[..]), base, rates)
    {
      ghost var rows := ledger[..];
      var updated := 0;
      if ledger.Length == 0 {
        return Success(0);
      }
      assert ledger[..] == ConvertedUpTo(rows, base, rates, 1);
      for i := 1 to ledger.Length
        invariant ledger[..] == ConvertedUpTo(rows, base, rates, i)
        invariant forall k :: 1 <= k < i ==> !ActionFor(rows[k], base, rates).BaseNotText?
        invariant updated == Writes(rows, base, rates, i)
      {
        ConvertedUpToStep(rows, base, rates, i);
        var row := ledger[i];
        match ActionFor(row, base, rates)
        case Convert(v) =>
          ledger[i] := row.(amountBase := Num(v));
          updated := updated + 1;
        case BaseNotText =>
          NumericBaseWritesNothing(rows, base, rates, i);
          return Failure(BaseCurrencyNotText);
        case _ =>
      }
      return Success(updated);
    }
  }
}
