/**
 * Exchange-rate acquisition and currency conversion.
 *
 * A rate table maps currency codes (ISO 4217 three-letter codes) to the number
 * of units of that currency worth one unit of the base currency. Rates are
 * real numbers (the source uses floats). The rate provider's HTTP response,
 * the cache table and "today" are parameters; nothing is fetched or read from
 * a clock.
 */
module Currency {
  import opened Options
  import opened Calendar
  import opened RateCache

  const EUR := "EUR"

  /** The one exception that escapes the converter: a division by a zero rate while rebasing. */
  datatype Failure = ZeroDivisionError

  /** A value, or the exception raised instead of returning one. */
  datatype Result<+T> = Ok(value: T) | Raised(error: Failure)

  // ----- static tables ----------------------------------------------------

  /** Approximate rates against EUR, used when neither the provider nor the cache has anything. */
  const StaticEurRates: Rates := map[
    "EUR" := 1.0, "USD" := 1.09, "GBP" := 0.86, "CAD" := 1.48, "AUD" := 1.65,
    "JPY" := 157.0, "CHF" := 0.96, "CNY" := 7.85, "INR" := 91.0, "SEK" := 11.3,
    "NOK" := 11.8, "DKK" := 7.46, "PLN" := 4.35, "CZK" := 24.7, "HUF" := 390.0,
    "BGN" := 1.96, "RON" := 4.97, "HRK" := 7.53, "RUB" := 100.0, "TRY" := 32.0,
    "BRL" := 6.15, "MXN" := 18.5, "SGD" := 1.45, "HKD" := 8.5, "KRW" := 1450.0,
    "ZAR" := 19.8, "NZD" := 1.78, "THB" := 38.5, "MYR" := 5.0, "PHP" := 61.0,
    "IDR" := 16800.0, "VND" := 26500.0
  ]

  /** Display symbols; a code without one is displayed as the code itself. */
  const CurrencySymbols: map<string, string> := map[
    "USD" := "$", "EUR" := "€", "GBP" := "£", "JPY" := "¥", "CNY" := "¥",
    "CAD" := "C$", "AUD" := "A$", "CHF" := "CHF", "INR" := "₹",
    "SEK" := "kr", "NOK" := "kr", "DKK" := "kr", "PLN" := "zł",
    "CZK" := "Kč", "HUF" := "Ft", "BGN" := "лв", "RON" := "lei",
    "HRK" := "kn", "RUB" := "₽", "TRY" := "₺", "BRL" := "R$",
    "MXN" := "$", "SGD" := "S$", "HKD" := "HK$", "KRW" := "₩",
    "ZAR" := "R", "NZD" := "NZ$", "THB" := "฿", "MYR" := "RM",
    "PHP" := "₱", "IDR" := "Rp", "VND" := "₫"
  ]

  /** The currencies offered for selection, as (code, label) pairs, EUR first. */
  const SupportedCurrencies: seq<(string, string)> := [
    ("EUR", "Euro (€)"),
    ("USD", "US Dollar ($)"),
    ("GBP", "British Pound (£)"),
    ("CAD", "Canadian Dollar (C$)"),
    ("AUD", "Australian Dollar (A$)"),
    ("JPY", "Japanese Yen (¥)"),
    ("CHF", "Swiss Franc (CHF)"),
    ("CNY", "Chinese Yuan (¥)"),
    ("INR", "Indian Rupee (₹)"),
    ("SEK", "Swedish Krona (kr)"),
    ("NOK", "Norwegian Krone (kr)"),
    ("DKK", "Danish Krone (kr)"),
    ("PLN", "Polish Zloty (zł)"),
    ("CZK", "Czech Koruna (Kč)"),
    ("HUF", "Hungarian Forint (Ft)"),
    ("BGN", "Bulgarian Lev (лв)"),
    ("RON", "Romanian Leu (lei)"),
    ("HRK", "Croatian Kuna (kn)"),
    ("RUB", "Russian Ruble (₽)"),
    ("TRY", "Turkish Lira (₺)"),
    ("BRL", "Brazilian Real (R$)"),
    ("MXN", "Mexican Peso ($)"),
    ("SGD", "Singapore Dollar (S$)"),
    ("HKD", "Hong Kong Dollar (HK$)"),
    ("KRW", "South Korean Won (₩)"),
    ("ZAR", "South African Rand (R)"),
    ("NZD", "New Zealand Dollar (NZ$)"),
    ("THB", "Thai Baht (฿)"),
    ("MYR", "Malaysian Ringgit (RM)"),
    ("PHP", "Philippine Peso (₱)"),
    ("IDR", "Indonesian Rupiah (Rp)"),
    ("VND", "Vietnamese Dong (₫)")
  ]

  /** An ISO 4217 code: three upper-case ASCII letters. */
  predicate IsCurrencyCode(c: string) {
    |c| == 3 && forall i :: 0 <= i < 3 ==> 'A' <= c[i] <= 'Z'
  }

  /** The selectable currencies: 32 ISO codes, EUR first, each with a symbol and a static rate. */
  function GetSupportedCurrencies(): (list: seq<(string, string)>)
    ensures |list| == 32 && list[0] == ("EUR", "Euro (€)")
    ensures forall i :: 0 <= i < |list| ==> IsCurrencyCode(list[i].0)
    ensures forall i :: 0 <= i < |list| ==> list[i].0 in CurrencySymbols && list[i].0 in StaticEurRates
  {
    SupportedCurrencies
  }

  /** The display symbol of a currency; an unknown code is shown as itself. */
  function GetCurrencySymbol(code: string): (symbol: string)
    ensures code !in CurrencySymbols ==> symbol == code
    ensures code in CurrencySymbols ==> symbol == CurrencySymbols[code] && symbol != ""
  {
    if code in CurrencySymbols then CurrencySymbols[code] else code
  }

  /** The symbol and static-rate tables cover the same currencies, and every static rate is positive. */
  lemma TablesAgree()
    ensures CurrencySymbols.Keys == StaticEurRates.Keys
    ensures forall c :: c in StaticEurRates ==> StaticEurRates[c] > 0.0
    ensures StaticEurRates[EUR] == 1.0
  {
  }

  // ----- conversion ---------------------------------------------------------

  /** A currency the table can convert: the base itself, or one with a present, non-zero rate. */
  predicate Usable(rates: Rates, c: string, base: string) {
    c == base || (c in rates && rates[c] != 0.0)
  }

  /**
   * The conversion rule: a missing amount is 0; the same currency on both sides
   * leaves the amount alone; otherwise pivot through the base currency, and give
   * the amount back unconverted whenever the table is empty or a non-base side
   * has no usable rate.
   */
  function Convert(amount: Option<real>, from: string, to: string, rates: Rates, base: string): (r: real)
    ensures amount.None? ==> r == 0.0
    ensures amount.Some? && (from == to || rates == map[] || !Usable(rates, from, base) || !Usable(rates, to, base)) ==>
              r == amount.value
  {
    match amount
    case None => 0.0
    case Some(x) =>
      if from == to || rates == map[] || !Usable(rates, from, base) then x
      else
        var inBase := if from == base then x else x / rates[from];
        if to == base then inBase
        else if !Usable(rates, to, base) then x
        else inBase * rates[to]
  }

  /** The table with the base currency present, inserted at 1.0 only if it was missing. */
  function WithBase(rates: Rates, base: string): (r: Rates)
    ensures base in r && r.Keys == rates.Keys + {base}
    ensures base !in rates ==> r[base] == 1.0
    ensures forall c :: c in rates ==> r[c] == rates[c]
  {
    if base in rates then rates else rates[base := 1.0]
  }

  /** The worth of `x` units of currency `c`, in units of the base currency. */
  function ValueInBase(x: real, c: string, rates: Rates, base: string): (v: real)
    requires Usable(rates, c, base)
    ensures c != base ==> v * rates[c] == x
    ensures c == base ==> v == x
  {
    if c == base then x else x / rates[c]
  }

  lemma ConvertNoneIsZero(from: string, to: string, rates: Rates, base: string)
    ensures Convert(None, from, to, rates, base) == 0.0
  {
  }

  /** Converting to the same currency returns the amount exactly, whatever the table holds. */
  lemma ConvertIdentity(x: real, c: string, rates: Rates, base: string)
    ensures Convert(Some(x), c, c, rates, base) == x
  {
  }

  /** An empty table, or an unusable rate on either side, gives the amount back unconverted. */
  lemma ConvertSoftFailure(x: real, from: string, to: string, rates: Rates, base: string)
    requires rates == map[] || !Usable(rates, from, base) || !Usable(rates, to, base)
    ensures Convert(Some(x), from, to, rates, base) == x
  {
  }

  /** The pivot rule: multiply out of the base, divide into it, or both. */
  lemma ConvertPivot(x: real, from: string, to: string, rates: Rates, base: string)
    requires from != to && rates != map[]
    requires Usable(rates, from, base) && Usable(rates, to, base)
    ensures from == base ==> Convert(Some(x), from, to, rates, base) == x * rates[to]
    ensures to == base ==> Convert(Some(x), from, to, rates, base) == x / rates[from]
    ensures from != base && to != base ==> Convert(Some(x), from, to, rates, base) == x / rates[from] * rates[to]
  {
  }

  /** A successful conversion keeps the worth in base currency: nothing is gained or lost. */
  lemma ConvertPreservesValue(x: real, from: string, to: string, rates: Rates, base: string)
    requires rates != map[]
    requires Usable(rates, from, base) && Usable(rates, to, base)
    ensures ValueInBase(Convert(Some(x), from, to, rates, base), to, rates, base) == ValueInBase(x, from, rates, base)
  {
    if from != to && from != base && to != base {
      var r := Convert(Some(x), from, to, rates, base);
      assert r == (x / rates[from]) * rates[to];
      assert r / rates[to] == x / rates[from];
    }
  }

  /** Two conversions in a row equal the direct one. */
  lemma ConvertChain(x: real, a: string, b: string, c: string, rates: Rates, base: string)
    requires rates != map[]
    requires Usable(rates, a, base) && Usable(rates, b, base) && Usable(rates, c, base)
    ensures Convert(Some(Convert(Some(x), a, b, rates, base)), b, c, rates, base) == Convert(Some(x), a, c, rates, base)
  {
    var y := Convert(Some(x), a, b, rates, base);
    ConvertPreservesValue(x, a, b, rates, base);
    ConvertPreservesValue(y, b, c, rates, base);
    ConvertPreservesValue(x, a, c, rates, base);
    ValueDeterminesAmount(Convert(Some(y), b, c, rates, base), Convert(Some(x), a, c, rates, base), c, rates, base);
  }

  /** Converting there and back returns the original amount. */
  lemma ConvertRoundTrip(x: real, a: string, b: string, rates: Rates, base: string)
    requires rates != map[]
    requires Usable(rates, a, base) && Usable(rates, b, base)
    ensures Convert(Some(Convert(Some(x), a, b, rates, base)), b, a, rates, base) == x
  {
    ConvertChain(x, a, b, a, rates, base);
  }

  /** Two amounts of one currency with the same worth are the same amount. */
  lemma ValueDeterminesAmount(x: real, y: real, c: string, rates: Rates, base: string)
    requires Usable(rates, c, base)
    requires ValueInBase(x, c, rates, base) == ValueInBase(y, c, rates, base)
    ensures x == y
  {
    if c != base {
      assert x == ValueInBase(x, c, rates, base) * rates[c];
      assert y == ValueInBase(y, c, rates, base) * rates[c];
    }
  }

  /** The base currency's own entry is never consulted, so inserting it changes no conversion. */
  lemma ConvertIgnoresBaseEntry(amount: Option<real>, from: string, to: string, rates: Rates, base: string, v: real)
    requires rates != map[]
    ensures Convert(amount, from, to, rates[base := v], base) == Convert(amount, from, to, rates, base)
    ensures Convert(amount, from, to, WithBase(rates, base), base) == Convert(amount, from, to, rates, base)
  {
    BaseValueUnread(amount, from, to, rates, base, v);
    BaseValueUnread(amount, from, to, rates, base, 1.0);
  }

  lemma BaseValueUnread(amount: Option<real>, from: string, to: string, rates: Rates, base: string, v: real)
    requires rates != map[]
    ensures Convert(amount, from, to, rates[base := v], base) == Convert(amount, from, to, rates, base)
  {
    var r := rates[base := v];
    assert r != map[];
    assert Usable(r, from, base) == Usable(rates, from, base);
    assert Usable(r, to, base) == Usable(rates, to, base);
    assert from != base && from in rates ==> r[from] == rates[from];
    assert to != base && to in rates ==> r[to] == rates[to];
  }

  // ----- rebasing the static table ------------------------------------------

  /** Every rate divided by the new base's rate: the same table, anchored at another currency. */
  function Rebased(table: Rates, baseRate: real): (r: Rates)
    requires baseRate != 0.0
    ensures r.Keys == table.Keys
  {
    map c | c in table :: table[c] / baseRate
  }

  lemma RebasedBaseIsOne(table: Rates, base: string)
    requires base in table && table[base] != 0.0
    ensures base in Rebased(table, table[base]) && Rebased(table, table[base])[base] == 1.0
  {
    assert Rebased(table, table[base])[base] == table[base] / table[base];
  }

  /** Rebasing at a currency of the table anchors that currency at exactly 1 and keeps every cross rate. */
  lemma RebasedAnchorsBase(table: Rates, base: string)
    requires base in table && table[base] != 0.0
    ensures Rebased(table, table[base])[base] == 1.0
    ensures forall a, b :: a in table && b in table && table[b] != 0.0 ==>
              Rebased(table, table[base])[a] / Rebased(table, table[base])[b] == table[a] / table[b]
  {
    var k := table[base];
    var r := Rebased(table, k);
    RebasedBaseIsOne(table, base);
    forall a, b | a in table && b in table && table[b] != 0.0
      ensures r[a] / r[b] == table[a] / table[b]
    {
      assert r[a] == table[a] / k && r[b] == table[b] / k;
      assert r[b] != 0.0;
      assert (table[a] / k) / (table[b] / k) == table[a] / table[b];
    }
  }

  /** With the base anchored at 1, a conversion between two listed currencies is the cross rate. */
  lemma ConvertByCrossRate(x: real, a: string, b: string, rates: Rates, base: string)
    requires base in rates && rates[base] == 1.0
    requires a in rates && rates[a] != 0.0 && b in rates && rates[b] != 0.0
    ensures Convert(Some(x), a, b, rates, base) == x / rates[a] * rates[b]
  {
    assert rates != map[] by {
      assert a in rates;
    }
  }

  /** Scaling both rates by the same factor leaves the cross rate unchanged. */
  lemma CrossRateScaleFree(x: real, p: real, q: real, k: real)
    requires p != 0.0 && q != 0.0 && k != 0.0
    ensures x / (p / k) * (q / k) == x / p * q
  {
  }

  /** Converting with a rebased table gives the same amounts as with the original one. */
  lemma RebasedConvertsAlike(x: real, a: string, b: string, table: Rates, anchor: string, base: string)
    requires anchor in table && table[anchor] == 1.0
    requires base in table && table[base] != 0.0
    requires a in table && table[a] != 0.0 && b in table && table[b] != 0.0
    ensures Convert(Some(x), a, b, Rebased(table, table[base]), base) == Convert(Some(x), a, b, table, anchor)
  {
    var k := table[base];
    var r := Rebased(table, k);
    RebasedBaseIsOne(table, base);
    assert r[a] == table[a] / k && r[b] == table[b] / k;
    ConvertByCrossRate(x, a, b, r, base);
    ConvertByCrossRate(x, a, b, table, anchor);
    CrossRateScaleFree(x, table[a], table[b], k);
  }

  // ----- fallback rates -----------------------------------------------------

  /**
   * The fallback rates for `base`: its most recent snapshot of any date; else,
   * for EUR, the static table; else the EUR fallback rebased at `base` when it
   * lists `base` (raising on a zero rate), and `{base: 1}` when it does not.
   */
  ghost function Fallback(snaps: Snapshots, base: string): (r: Result<Rates>)
    ensures r.Raised? ==> base != EUR && MostRecentSnapshot(snaps, base).None?
    ensures MostRecentSnapshot(snaps, base).Some? ==> r == Ok(MostRecentSnapshot(snaps, base).value)
    decreases if base == EUR then 0 else 1
  {
    match MostRecentSnapshot(snaps, base)
    case Some(r) => Ok(r)
    case None =>
      if base == EUR then Ok(StaticEurRates)
      else
        match Fallback(snaps, EUR)
        case Raised(e) => Raised(e)
        case Ok(eur) =>
          if base !in eur then Ok(map[base := 1.0])
          else if eur[base] == 0.0 then Raised(ZeroDivisionError)
          else Ok(Rebased(eur, eur[base]))
  }

  /** Whatever else is available, the most recent snapshot of the base itself is used first. */
  lemma FallbackPrefersSnapshot(snaps: Snapshots, base: string)
    requires MostRecentSnapshot(snaps, base).Some?
    ensures Fallback(snaps, base) == Ok(MostRecentSnapshot(snaps, base).value)
  {
  }

  /** The EUR fallback never raises: a snapshot, or the static table with EUR at 1. */
  lemma FallbackEurNeverRaises(snaps: Snapshots)
    ensures Fallback(snaps, EUR).Ok?
    ensures MostRecentSnapshot(snaps, EUR).None? ==> Fallback(snaps, EUR) == Ok(StaticEurRates)
  {
  }

  /** With nothing cached at all, a base listed in the static table gets that table rebased at it. */
  lemma FallbackRebasesStaticTable(snaps: Snapshots, base: string)
    requires MostRecentSnapshot(snaps, base).None? && MostRecentSnapshot(snaps, EUR).None?
    requires base != EUR && base in StaticEurRates
    ensures Fallback(snaps, base).Ok?
    ensures var r := Fallback(snaps, base).value;
              && r.Keys == StaticEurRates.Keys
              && r[base] == 1.0
              && forall c :: c in r ==> r[c] == StaticEurRates[c] / StaticEurRates[base]
  {
    TablesAgree();
    RebasedAnchorsBase(StaticEurRates, base);
  }

  /** With nothing cached at all, a base missing from the static table gets the table `{base: 1}`. */
  lemma FallbackUnknownBase(snaps: Snapshots, base: string)
    requires MostRecentSnapshot(snaps, base).None? && MostRecentSnapshot(snaps, EUR).None?
    requires base !in StaticEurRates
    ensures Fallback(snaps, base) == Ok(map[base := 1.0])
  {
    assert base != EUR;
  }

  /**
   * The fallback raises exactly when the base has no snapshot, is not EUR, and
   * the most recent EUR snapshot lists it at rate 0.
   */
  lemma FallbackRaisesIff(snaps: Snapshots, base: string)
    ensures Fallback(snaps, base).Raised? <==>
              && MostRecentSnapshot(snaps, base).None?
              && base != EUR
              && MostRecentSnapshot(snaps, EUR).Some?
              && base in MostRecentSnapshot(snaps, EUR).value
              && MostRecentSnapshot(snaps, EUR).value[base] == 0.0
  {
    if MostRecentSnapshot(snaps, base).None? && base != EUR && MostRecentSnapshot(snaps, EUR).None? {
      TablesAgree();
    }
  }

  /** Without a snapshot of its own, a fallback that does not raise anchors the base at exactly 1. */
  lemma UncachedFallbackAnchorsBase(snaps: Snapshots, base: string)
    requires MostRecentSnapshot(snaps, base).None?
    requires Fallback(snaps, base).Ok?
    ensures base in Fallback(snaps, base).value && Fallback(snaps, base).value[base] == 1.0
  {
    TablesAgree();
    if base != EUR {
      var eur := Fallback(snaps, EUR).value;
      if base in eur {
        RebasedAnchorsBase(eur, base);
      }
    }
  }

  // ----- acquiring today's rates --------------------------------------------

  /** The `rates` member of a provider response. */
  datatype RatesField = Absent | Table(rates: Rates) | NotATable

  /**
   * What the rate request produced: no usable response at all (connection
   * error, timeout, HTTP error status, undecodable body, a body that is not a
   * JSON object), or a decoded object with its `success` flag (None when the
   * member is missing) and its `rates` member.
   */
  datatype FetchOutcome = RequestFailed | Payload(success: Option<bool>, ratesField: RatesField)

  /** A response the converter accepts: `success` true or missing, and `rates` missing or a table. */
  predicate Fetched(f: FetchOutcome) {
    f.Payload? && f.success.GetOr(true) && !f.ratesField.NotATable?
  }

  /** The accepted rates: the response's table (empty when missing) with the base stamped at 1. */
  function FetchedRates(f: FetchOutcome, base: string): (r: Rates)
    requires Fetched(f)
    ensures base in r && r[base] == 1.0
    ensures f.ratesField.Table? ==> r.Keys == f.ratesField.rates.Keys + {base}
    ensures f.ratesField.Absent? ==> r == map[base := 1.0]
    ensures f.ratesField.Table? ==> forall c :: c in r && c != base ==> r[c] == f.ratesField.rates[c]
  {
    var table := if f.ratesField.Table? then f.ratesField.rates else map[];
    table[base := 1.0]
  }

  /** Today's snapshot for `base` exists and is not empty (an empty table is falsy in the source). */
  predicate CachedToday(snaps: Snapshots, base: string, today: Day) {
    (today, base) in snaps && snaps[(today, base)] != map[]
  }

  /** Python's truthiness of the API key: set and not empty. */
  predicate HasKey(apiKey: Option<string>) {
    apiKey.Some? && apiKey.value != ""
  }

  /** The outcome of one rate request: the rates returned (or the exception) and the cache afterwards. */
  datatype Acquired = Acquired(result: Result<Rates>, snapshots: Snapshots)

  /**
   * The rate-acquisition decision: today's cached rates; else, without an API
   * key, the fallback; else an accepted response, stamped and cached; else the
   * fallback.
   */
  ghost function AcquireRates(snaps: Snapshots, apiKey: Option<string>, fetch: FetchOutcome, base: string, today: Day): (a: Acquired)
    ensures forall k :: k != (today, base) ==> (k in a.snapshots <==> k in snaps)
    ensures forall k :: k in snaps && k != (today, base) ==> a.snapshots[k] == snaps[k]
    ensures a.snapshots != snaps ==> a.result.Ok? && a.snapshots == snaps[(today, base) := a.result.value]
  {
    if CachedToday(snaps, base, today) then Acquired(Ok(snaps[(today, base)]), snaps)
    else if !HasKey(apiKey) then Acquired(Fallback(snaps, base), snaps)
    else if Fetched(fetch) then
      var rates := FetchedRates(fetch, base);
      Acquired(Ok(rates), snaps[(today, base) := rates])
    else Acquired(Fallback(snaps, base), snaps)
  }

  /** Today's cached rates win: no request is looked at and the cache is untouched. */
  lemma CacheHitSkipsRequest(snaps: Snapshots, apiKey: Option<string>, fetch: FetchOutcome, base: string, today: Day)
    requires CachedToday(snaps, base, today)
    ensures AcquireRates(snaps, apiKey, fetch, base, today) == Acquired(Ok(snaps[(today, base)]), snaps)
  {
  }

  /** On a cache miss without an API key, the fallback is returned and the cache is untouched. */
  lemma MissingKeyFallsBack(snaps: Snapshots, apiKey: Option<string>, fetch: FetchOutcome, base: string, today: Day)
    requires !CachedToday(snaps, base, today) && !HasKey(apiKey)
    ensures AcquireRates(snaps, apiKey, fetch, base, today) == Acquired(Fallback(snaps, base), snaps)
  {
  }

  /** An accepted response is returned with the base at 1 and stored as today's snapshot, replacing nothing else. */
  lemma AcceptedResponseIsCached(snaps: Snapshots, apiKey: Option<string>, fetch: FetchOutcome, base: string, today: Day)
    requires !CachedToday(snaps, base, today) && HasKey(apiKey) && Fetched(fetch)
    ensures var a := AcquireRates(snaps, apiKey, fetch, base, today);
              && a.result.Ok? && base in a.result.value && a.result.value[base] == 1.0
              && a.snapshots == snaps[(today, base) := a.result.value]
              && CachedToday(a.snapshots, base, today)
  {
  }

  /** A failed request, `success` false, or a malformed `rates` member falls back and leaves the cache alone. */
  lemma RejectedResponseFallsBack(snaps: Snapshots, apiKey: Option<string>, fetch: FetchOutcome, base: string, today: Day)
    requires !CachedToday(snaps, base, today) && !Fetched(fetch)
    ensures AcquireRates(snaps, apiKey, fetch, base, today) == Acquired(Fallback(snaps, base), snaps)
  {
  }

  /** A rate request changes the cache at most at today's entry for the requested base. */
  lemma AcquireTouchesOnlyTodaysEntry(snaps: Snapshots, apiKey: Option<string>, fetch: FetchOutcome, base: string, today: Day)
    ensures var after := AcquireRates(snaps, apiKey, fetch, base, today).snapshots;
              && snaps.Keys <= after.Keys <= snaps.Keys + {(today, base)}
              && forall k :: k in snaps && k != (today, base) ==> after[k] == snaps[k]
  {
  }

  /**
   * Daily caching: once a request has succeeded, every later request for the
   * same base on the same day returns the same rates, whatever the provider
   * would answer, and changes nothing.
   */
  lemma SameDayRequestsAgree(snaps: Snapshots, apiKey: Option<string>, fetch1: FetchOutcome, fetch2: FetchOutcome,
                             apiKey2: Option<string>, base: string, today: Day)
    requires AcquireRates(snaps, apiKey, fetch1, base, today).result.Ok?
    requires CachedToday(snaps, base, today) || (HasKey(apiKey) && Fetched(fetch1))
    ensures var first := AcquireRates(snaps, apiKey, fetch1, base, today);
            var second := AcquireRates(first.snapshots, apiKey2, fetch2, base, today);
              second == Acquired(first.result, first.snapshots)
  {
    var first := AcquireRates(snaps, apiKey, fetch1, base, today);
    if !CachedToday(snaps, base, today) {
      assert base in first.result.value;
      assert CachedToday(first.snapshots, base, today);
    }
  }

  /** For a base never cached before, rates returned without raising always list the base at exactly 1. */
  lemma AcquiredRatesAnchored(snaps: Snapshots, apiKey: Option<string>, fetch: FetchOutcome, base: string, today: Day)
    requires MostRecentSnapshot(snaps, base).None?
    requires AcquireRates(snaps, apiKey, fetch, base, today).result.Ok?
    ensures var r := AcquireRates(snaps, apiKey, fetch, base, today).result.value;
              base in r && r[base] == 1.0
  {
    StoredBaseHasSnapshot(snaps, base, today);
    if !CachedToday(snaps, base, today) && !(HasKey(apiKey) && Fetched(fetch)) {
      UncachedFallbackAnchorsBase(snaps, base);
    }
  }

  /**
   * The conversion step of `convert_amount` once the table holds the base:
   * into the base currency, then out of it, giving the amount back unchanged
   * when a side has no usable rate.
   */
  method ConvertInTable(x: real, from: string, to: string, table: Rates, base: string) returns (y: real)
    requires from != to && base in table
    ensures y == Convert(Some(x), from, to, table, base)
    ensures Usable(table, from, base) && Usable(table, to, base) ==>
              ValueInBase(y, to, table, base) == ValueInBase(x, from, table, base)
    ensures !(Usable(table, from, base) && Usable(table, to, base)) ==> y == x
  {
    assert table != map[] by {
      assert base in table;
    }
    if Usable(table, from, base) && Usable(table, to, base) {
      ConvertPreservesValue(x, from, to, table, base);
    }
    var amountInBase: real;
    if from == base {
      amountInBase := x;
    } else {
      if from !in table || table[from] == 0.0 {
        return x;
      }
      amountInBase := x / table[from];
    }
    if to == base {
      return amountInBase;
    }
    if to !in table || table[to] == 0.0 {
      return x;
    }
    return amountInBase * table[to];
  }

  // ----- the converter object -----------------------------------------------

  /** A caller's rate dictionary, which a conversion may extend in place. */
  class RateTable {
    var entries: Rates

    constructor (entries: Rates)
      ensures this.entries == entries
    {
      this.entries := entries;
    }
  }

  class CurrencyConverter {
    var apiKey: Option<string>

    constructor ()
      ensures apiKey == None
    {
      apiKey := None;
    }

    method SetApiKey(key: Option<string>)
      modifies this
      ensures apiKey == key
    {
      apiKey := key;
    }

    /**
     * The fallback rates for `base` (`_get_fallback_rates`), read from the
     * cache; for a base other than EUR it asks for the EUR fallback and
     * rebases it entry by entry.
     */
    method FallbackRates(store: RateStore, base: string) returns (r: Result<Rates>)
      ensures r == Fallback(store.snapshots, base)
      decreases if base == EUR then 0 else 1
    {
      var latest := store.MostRecent(base);
      if latest.Some? {
        return Ok(latest.value);
      }
      if base == EUR {
        return Ok(StaticEurRates);
      }
      var eurRates := FallbackRates(store, EUR);
      if eurRates.Raised? {
        return eurRates;
      }
      var eur := eurRates.value;
      if base !in eur {
        return Ok(map[base := 1.0]);
      }
      var baseRate := eur[base];
      if baseRate == 0.0 {
        return Raised(ZeroDivisionError);
      }
      var converted: Rates := map[];
      var pending := eur.Keys;
      while pending != {}
        invariant pending <= eur.Keys
        invariant converted.Keys == eur.Keys - pending
        invariant forall c :: c in converted ==> converted[c] == eur[c] / baseRate
        decreases pending
      {
        var c :| c in pending;
        converted := converted[c := eur[c] / baseRate];
        pending := pending - {c};
      }
      assert converted == Rebased(eur, baseRate);
      return Ok(converted);
    }

    /**
     * Today's rates for `base` (`get_exchange_rates`): the cached ones, else
     * the fallback when no API key is set, else the provider's accepted
     * response (stamped with the base at 1 and saved), else the fallback.
     */
    method GetExchangeRates(store: RateStore, base: string, today: Day, fetch: FetchOutcome) returns (r: Result<Rates>)
      modifies store
      ensures Acquired(r, store.snapshots) == AcquireRates(old(store.snapshots), apiKey, fetch, base, today)
    {
      var cached := store.TodaysRates(base, today);
      if cached.Some? && cached.value != map[] {
        return Ok(cached.value);
      }
      if !(apiKey.Some? && apiKey.value != "") {
        r := FallbackRates(store, base);
        return;
      }
      if fetch.Payload? && fetch.success.GetOr(true) {
        match fetch.ratesField
        case NotATable =>
          r := FallbackRates(store, base);
        case Absent =>
          var rates: Rates := map[];
          rates := rates[base := 1.0];
          store.SaveRates(rates, base, today);
          r := Ok(rates);
        case Table(received) =>
          var rates := received;
          rates := rates[base := 1.0];
          store.SaveRates(rates, base, today);
          r := Ok(rates);
      } else {
        r := FallbackRates(store, base);
      }
    }

    /**
     * Converts `amount` (`convert_amount`). Without a rate table the rates are
     * acquired first; with one, a missing base entry is written into it as 1.0
     * before converting.
     */
    method ConvertAmount(amount: Option<real>, from: string, to: string, rates: RateTable?, base: string,
                         store: RateStore, today: Day, fetch: FetchOutcome) returns (r: Result<real>)
      modifies rates, store
      ensures rates != null ==> r == Ok(Convert(amount, from, to, old(rates.entries), base))
      ensures rates != null ==>
                (rates.entries ==
                   if amount.Some? && from != to && old(rates.entries) != map[]
                   then WithBase(old(rates.entries), base) else old(rates.entries))
      ensures rates != null || amount.None? || from == to ==> store.snapshots == old(store.snapshots)
      ensures amount.None? ==> r == Ok(0.0)
      ensures amount.Some? && from == to ==> r == Ok(amount.value)
      ensures rates == null && amount.Some? && from != to ==>
                var a := AcquireRates(old(store.snapshots), apiKey, fetch, base, today);
                && store.snapshots == a.snapshots
                && r == (match a.result
                         case Ok(table) => Ok(Convert(amount, from, to, table, base))
                         case Raised(e) => Raised(e))
    {
      if amount.None? {
        return Ok(0.0);
      }
      var x := amount.value;
      if from == to {
        return Ok(x);
      }
      var table: Rates;
      if rates == null {
        var acquired := GetExchangeRates(store, base, today, fetch);
        if acquired.Raised? {
          return Raised(acquired.error);
        }
        table := acquired.value;
      } else {
        table := rates.entries;
      }
      if table == map[] {
        return Ok(x);
      }
      ghost var original := table;
      ConvertIgnoresBaseEntry(amount, from, to, original, base, 1.0);
      if base !in table {
        table := table[base := 1.0];
        if rates != null {
          rates.entries := table;
        }
      }
      assert table == WithBase(original, base);
      var converted := ConvertInTable(x, from, to, table, base);
      return Ok(converted);
    }
  }

  /** With no API key and an empty cache, 100 EUR converts to 109 USD by the static table. */
  lemma StaticTableExample(apiKey: Option<string>, fetch: FetchOutcome, today: Day)
    requires !HasKey(apiKey)
    ensures var a := AcquireRates(map[], apiKey, fetch, EUR, today);
              a.result.Ok? && Convert(Some(100.0), EUR, "USD", a.result.value, EUR) == 109.0
  {
    assert DatesFor(map[], EUR) == {};
  }
}
