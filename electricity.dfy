/**
  `ElectricityService.fetch_prices` (chatgpt/services/electricity_service.py:17-75): the
  date keywords, the per-date memo cache `price_cache`, the error text for a failed fetch,
  and the price report with its above/below-average labels.

  The HTTP request is an oracle from the URL to the response (status code and the decoded
  rows). The clock is a `Date` parameter. Prices are exact reals; Python's float rounding
  and float-to-text conversion are an oracle `Format`.
 */
module ElectricityService {
  import opened Wrappers
  import opened SeqFacts

  // ---------------------------------------------------------------------------
  // Dates and `strftime('%Y-%m-%d')`.
  // ---------------------------------------------------------------------------

  datatype Date = Date(year: nat, month: nat, day: nat)

  predicate IsLeapYear(y: nat)
  {
    y % 4 == 0 && (y % 100 != 0 || y % 400 == 0)
  }

  function DaysInMonth(y: nat, m: nat): nat
    requires 1 <= m <= 12
  {
    if m == 2 then (if IsLeapYear(y) then 29 else 28)
    else if m == 4 || m == 6 || m == 9 || m == 11 then 30
    else 31
  }

  /** A `datetime.date`: years 1 to 9999 (`MINYEAR`, `MAXYEAR`). */
  predicate ValidDate(d: Date)
  {
    1 <= d.year <= 9999 && 1 <= d.month <= 12 && 1 <= d.day <= DaysInMonth(d.year, d.month)
  }

  /** Calendar order. */
  predicate Before(a: Date, b: Date)
  {
    a.year < b.year
    || (a.year == b.year && a.month < b.month)
    || (a.year == b.year && a.month == b.month && a.day < b.day)
  }

  /** `today + timedelta(days=1)`; adding a day to 9999-12-31 raises `OverflowError`. */
  function NextDay(d: Date): (n: Option<Date>)
    requires ValidDate(d)
    ensures n.None? <==> d == Date(9999, 12, 31)
    ensures n.Some? ==> ValidDate(n.value) && Before(d, n.value)
  {
    if d.day < DaysInMonth(d.year, d.month) then Some(Date(d.year, d.month, d.day + 1))
    else if d.month < 12 then Some(Date(d.year, d.month + 1, 1))
    else if d.year < 9999 then Some(Date(d.year + 1, 1, 1))
    else None
  }

  /** The next day is the very next date: no valid date lies strictly between. */
  lemma NextDayIsSuccessor(d: Date, e: Date)
    requires ValidDate(d) && ValidDate(e) && Before(d, e)
    ensures NextDay(d).Some? && !Before(e, NextDay(d).value)
  {
  }

  function DigitChar(n: nat): char
    requires n < 10
  {
    "0123456789"[n]
  }

  predicate IsDigit(c: char)
  {
    '0' <= c <= '9'
  }

  /** Decimal digits of `n`, most significant first, without leading zeros. */
  function NatToString(n: nat): (s: string)
    ensures s != []
    ensures forall i :: 0 <= i < |s| ==> IsDigit(s[i])
    decreases n
  {
    if n < 10 then [DigitChar(n)] else NatToString(n / 10) + [DigitChar(n % 10)]
  }

  function Zeros(k: nat): (z: string)
    ensures |z| == k && forall i :: 0 <= i < k ==> z[i] == '0'
  {
    if k == 0 then [] else Zeros(k - 1) + ['0']
  }

  /** Left-padded with zeros to at least `width` characters, as `%m`, `%d` and `%Y` do. */
  function ZeroPad(s: string, width: nat): (r: string)
    ensures |r| == if |s| >= width then |s| else width
  {
    if |s| >= width then s else Zeros(width - |s|) + s
  }

  function FormatDate(d: Date): string
  {
    ZeroPad(NatToString(d.year), 4) + "-" + ZeroPad(NatToString(d.month), 2) + "-" + ZeroPad(NatToString(d.day), 2)
  }

  /** The number a string of decimal digits denotes. */
  ghost function Value(s: string): nat
  {
    if s == [] then 0
    else Value(s[..|s| - 1]) * 10 + (if IsDigit(s[|s| - 1]) then (s[|s| - 1] as int - '0' as int) else 0)
  }

  function Pow10(k: nat): nat
  {
    if k == 0 then 1 else 10 * Pow10(k - 1)
  }

  lemma DigitCharValue(n: nat)
    requires n < 10
    ensures IsDigit(DigitChar(n)) && DigitChar(n) as int - '0' as int == n
  {
  }

  /** `NatToString` writes `n` in decimal, in fewer than `k` digits when `n < 10^k`. */
  lemma {:induction false} NatToStringValue(n: nat, k: nat)
    requires n < Pow10(k)
    ensures Value(NatToString(n)) == n && |NatToString(n)| <= if k == 0 then 1 else k
    decreases n
  {
    var s := NatToString(n);
    if n < 10 {
      DigitCharValue(n);
      assert s[..0] == [];
    } else {
      NatToStringValue(n / 10, k - 1);
      DigitCharValue(n % 10);
      assert s[..|s| - 1] == NatToString(n / 10);
    }
  }

  lemma {:induction false} ValueOfZeros(k: nat)
    ensures Value(Zeros(k)) == 0
  {
    if k > 0 {
      assert Zeros(k)[..k - 1] == Zeros(k - 1);
      ValueOfZeros(k - 1);
    }
  }

  /** Leading zeros do not change the number. */
  lemma {:induction false} ValueLeadingZeros(k: nat, s: string)
    ensures Value(Zeros(k) + s) == Value(s)
    decreases |s|
  {
    if s == [] {
      assert Zeros(k) + s == Zeros(k);
      ValueOfZeros(k);
    } else {
      var t := Zeros(k) + s;
      assert t[..|t| - 1] == Zeros(k) + s[..|s| - 1];
      ValueLeadingZeros(k, s[..|s| - 1]);
    }
  }

  lemma ZeroPadValue(n: nat, width: nat)
    requires 1 <= width && n < Pow10(width)
    ensures var p := ZeroPad(NatToString(n), width);
            |p| == width && Value(p) == n && forall i :: 0 <= i < width ==> IsDigit(p[i])
  {
    var s := NatToString(n);
    NatToStringValue(n, width);
    if |s| < width {
      ValueLeadingZeros(width - |s|, s);
    }
  }

  /** `strftime('%Y-%m-%d')`: ten characters, dashes at 4 and 7, and the year, month and
      day read back from the three digit groups, so different dates give different texts. */
  lemma FormatDateReadsBack(d: Date)
    requires ValidDate(d)
    ensures var s := FormatDate(d);
            && |s| == 10 && s[4] == '-' && s[7] == '-'
            && Value(s[..4]) == d.year && Value(s[5..7]) == d.month && Value(s[8..]) == d.day
  {
    ZeroPadValue(d.year, 4);
    ZeroPadValue(d.month, 2);
    ZeroPadValue(d.day, 2);
    var y := ZeroPad(NatToString(d.year), 4);
    var m := ZeroPad(NatToString(d.month), 2);
    var dd := ZeroPad(NatToString(d.day), 2);
    var s := FormatDate(d);
    assert s == y + "-" + m + "-" + dd;
    assert s[..4] == y && s[5..7] == m && s[8..] == dd;
  }

  lemma FormatDateInjective(a: Date, b: Date)
    requires ValidDate(a) && ValidDate(b) && FormatDate(a) == FormatDate(b)
    ensures a == b
  {
    FormatDateReadsBack(a);
    FormatDateReadsBack(b);
  }

  // ---------------------------------------------------------------------------
  // The date keywords (electricity_service.py:28-34).
  // ---------------------------------------------------------------------------

  /** The exceptions `fetch_prices` lets escape. */
  datatype PriceFault =
    | DateOverflow    // "tomorrow" on 9999-12-31
    | ZeroDivision    // `sum(prices) / len(prices)` over an empty response

  /** The cache key for the date argument: "today" and "tomorrow" become dates, anything
      else is kept as given. */
  function NormaliseDate(date: string, today: Date): (r: Result<string, PriceFault>)
    requires ValidDate(today)
  {
    if date == "today" then Ok(FormatDate(today))
    else if date == "tomorrow" then
      match NextDay(today)
      case None => Err(DateOverflow)
      case Some(t) => Ok(FormatDate(t))
    else Ok(date)
  }

  /** "today" is today's date, "tomorrow" the next day's, any other text passes through,
      and only "tomorrow" on the last representable day fails. */
  lemma NormaliseDateCases(date: string, today: Date)
    requires ValidDate(today)
    ensures var r := NormaliseDate(date, today);
            && (date == "today" ==> r == Ok(FormatDate(today)))
            && (date == "tomorrow" && today != Date(9999, 12, 31) ==>
                  r == Ok(FormatDate(NextDay(today).value)) && Before(today, NextDay(today).value))
            && (r.Err? <==> date == "tomorrow" && today == Date(9999, 12, 31))
            && (date != "today" && date != "tomorrow" ==> r == Ok(date))
  {
  }

  /** A normalised date is its own normal form: a key never names a keyword. */
  lemma NormaliseDateStable(date: string, today: Date)
    requires ValidDate(today) && NormaliseDate(date, today).Ok?
    ensures NormaliseDate(NormaliseDate(date, today).value, today) == NormaliseDate(date, today)
  {
    var r := NormaliseDate(date, today).value;
    if date == "today" {
      FormatDateReadsBack(today);
    } else if date == "tomorrow" {
      FormatDateReadsBack(NextDay(today).value);
    }
    assert |r| == 10 || (r != "today" && r != "tomorrow");
  }

  // ---------------------------------------------------------------------------
  // The report (electricity_service.py:49-70).
  // ---------------------------------------------------------------------------

  /** One item of the decoded response: `aikaleima_suomi` and `hinta`. */
  datatype PriceRow = PriceRow(timestamp: string, price: real)

  /** What `requests.get(url)` yields: the status code and the decoded body. */
  datatype Response = Response(status: nat, rows: seq<PriceRow>)

  /** Python's `round(x, 2)` on floats and `str` of a float. */
  datatype Format = Format(round2: real -> real, render: real -> string)

  const ApiUrl: string := "https://www.sahkohinta-api.fi/api/v1/halpa?tunnit=24&tulos=sarja&aikaraja="

  const ExpensiveLabel: string := " (Kalliimpi kuin keskiarvo)"
  const CheaperLabel: string := " (Halvempi kuin keskiarvo)"

  /** The label after one price: one of three, by comparison with the average. */
  function Label(price: real, average: real): (l: string)
    ensures l == ExpensiveLabel <==> price > average
    ensures l == CheaperLabel <==> price < average
    ensures l == "" <==> price == average
  {
    if price > average then ExpensiveLabel
    else if price < average then CheaperLabel
    else ""
  }

  /** The prices with VAT: `[float(item['hinta']) * vat for item in price_data]`. */
  function Prices(rows: seq<PriceRow>, vat: real): (ps: seq<real>)
    ensures |ps| == |rows|
    ensures forall i :: 0 <= i < |rows| ==> ps[i] == rows[i].price * vat
  {
    if rows == [] then [] else Prices(rows[..|rows| - 1], vat) + [rows[|rows| - 1].price * vat]
  }

  function Sum(ps: seq<real>): real
  {
    if ps == [] then 0.0 else Sum(ps[..|ps| - 1]) + ps[|ps| - 1]
  }

  function Average(ps: seq<real>): real
    requires ps != []
  {
    Sum(ps) / (|ps| as real)
  }

  lemma {:induction false} SumBounds(ps: seq<real>, lo: real, hi: real)
    requires forall i :: 0 <= i < |ps| ==> lo <= ps[i] <= hi
    ensures (|ps| as real) * lo <= Sum(ps) <= (|ps| as real) * hi
  {
    if ps != [] {
      SumBounds(ps[..|ps| - 1], lo, hi);
    }
  }

  /** The average lies between the cheapest and the dearest price. */
  lemma AverageWithin(ps: seq<real>, lo: real, hi: real)
    requires ps != []
    requires forall i :: 0 <= i < |ps| ==> lo <= ps[i] <= hi
    ensures lo <= Average(ps) <= hi
  {
    SumBounds(ps, lo, hi);
    var n := |ps| as real;
    assert Average(ps) * n == Sum(ps);
  }

  const HeaderLead: string := "Sähkön hinta on keskimäärin "
  const HeaderRounding: string := ". Kaikki hinnat ovat pyöristettyjä sentteinä. Hinnat sisältävät arvonlisäveron "
  const HeaderTail: string := "%. Älä mainitse verotuksesta ellei erikseen kysytä. Kellonajat ovat Suomen aikaa. Vältä koko listan tulostamista käyttäjälle ja pyri kirjoittamaan kiinnostava kooste:\n"

  /** The opening paragraph, with the average and the VAT percentage. */
  function Header(average: real, vat: real, fmt: Format): string
  {
    HeaderLead + fmt.render(average) + HeaderRounding + fmt.render(fmt.round2(vat * 100.0 - 100.0)) + HeaderTail
  }

  /** One line of the report: the time, the rounded price, its label. The label compares
      the rounded price with the unrounded average. */
  function PriceLine(row: PriceRow, vat: real, average: real, fmt: Format): string
  {
    var price := fmt.round2(row.price * vat);
    row.timestamp + ": " + fmt.render(price) + " c/kWh" + Label(price, average) + "\n"
  }

  /** The lines of `rows`, in order. */
  function Lines(rows: seq<PriceRow>, vat: real, average: real, fmt: Format): string
  {
    if rows == [] then ""
    else Lines(rows[..|rows| - 1], vat, average, fmt) + PriceLine(rows[|rows| - 1], vat, average, fmt)
  }

  /** Each row contributes its own line, in the order of the rows. */
  lemma {:induction false} LinesAppend(a: seq<PriceRow>, b: seq<PriceRow>, vat: real, average: real, fmt: Format)
    ensures Lines(a + b, vat, average, fmt) == Lines(a, vat, average, fmt) + Lines(b, vat, average, fmt)
    decreases |b|
  {
    if b == [] {
      AppendNothing(a);
      AppendNothing(Lines(a, vat, average, fmt));
    } else {
      var init := b[..|b| - 1];
      InitOfAppend(a, b);
      LinesAppend(a, init, vat, average, fmt);
      AppendAssoc(Lines(a, vat, average, fmt), Lines(init, vat, average, fmt), PriceLine(b[|b| - 1], vat, average, fmt));
    }
  }

  /** The whole text for a non-empty response. */
  function Report(rows: seq<PriceRow>, vat: real, fmt: Format): string
    requires rows != []
  {
    var average := Average(Prices(rows, vat));
    Header(average, vat, fmt) + Lines(rows, vat, average, fmt)
  }

  /** The `for entry in price_data` loop appending one line per row. */
  method BuildReport(rows: seq<PriceRow>, vat: real, fmt: Format) returns (text: string)
    requires rows != []
    ensures text == Report(rows, vat, fmt)
  {
    var average := Average(Prices(rows, vat));
    text := Header(average, vat, fmt);
    for i := 0 to |rows|
      invariant text == Header(average, vat, fmt) + Lines(rows[..i], vat, average, fmt)
    {
      PrefixOfPrefix(rows, i + 1, i);
      AppendAssoc(Header(average, vat, fmt), Lines(rows[..i], vat, average, fmt), PriceLine(rows[i], vat, average, fmt));
      text := text + PriceLine(rows[i], vat, average, fmt);
    }
    WholePrefix(rows);
  }

  /** The text returned for a status other than 200; it is returned, not raised, and not
      cached. */
  function FetchErrorText(date: string, status: nat): string
  {
    FetchErrorLead + date + FetchErrorStatus + NatToString(status) + FetchErrorTail
  }

  const FetchErrorLead: string := "Error: Unable to fetch data for "
  const FetchErrorStatus: string := " (status code "
  const FetchErrorTail: string := ") Maybe date is in the future? Prices for the next day are available around 14:00 UTC+2."

  // ---------------------------------------------------------------------------
  // The service object.
  // ---------------------------------------------------------------------------

  class PriceService {
    /** `self.vat_multiplier` */
    const vatMultiplier: real
    /** `self.price_cache`: date key to report text. */
    var priceCache: map<string, string>
    /** The URLs fetched so far, in order. */
    var requested: seq<string>

    constructor (vatMultiplier: real)
      ensures this.vatMultiplier == vatMultiplier && priceCache == map[] && requested == []
    {
      this.vatMultiplier := vatMultiplier;
      priceCache := map[];
      requested := [];
    }

    /** Cache miss on `key`: request the prices, and cache and return the report when the
        request succeeds. */
    method FetchUncached(key: string, api: string -> Response, fmt: Format) returns (r: Result<string, PriceFault>)
      requires key !in priceCache
      modifies this
      ensures requested == old(requested) + [ApiUrl + key]
      ensures var resp := api(ApiUrl + key);
        && (resp.status != 200 ==> r == Ok(FetchErrorText(key, resp.status)) && priceCache == old(priceCache))
        && (resp.status == 200 && resp.rows == [] ==> r == Err(ZeroDivision) && priceCache == old(priceCache))
        && (resp.status == 200 && resp.rows != [] ==>
              r == Ok(Report(resp.rows, vatMultiplier, fmt)) && priceCache == old(priceCache)[key := r.value])
    {
      var url := ApiUrl + key;
      requested := requested + [url];
      var response := api(url);
      if response.status != 200 {
        return Ok(FetchErrorText(key, response.status));
      }
      if response.rows == [] {
        return Err(ZeroDivision);
      }
      var text := BuildReport(response.rows, vatMultiplier, fmt);
      priceCache := priceCache[key := text];
      return Ok(text);
    }

    /** `fetch_prices(user, date)` on the day `today`, with `api` answering the request.
        A cached date is answered from the cache without a request; a failed request gives
        the error text and caches nothing; a successful one caches and returns the report.
        Entries are only ever added: an existing entry is never changed or removed, and
        after a call that returns text for a cached date that text is the cached one, so a
        later call for the same date returns the same text. */
    method FetchPrices(user: string, date: string, today: Date, api: string -> Response, fmt: Format)
      returns (r: Result<string, PriceFault>)
      requires ValidDate(today)
      modifies this
      ensures NormaliseDate(date, today).Err? ==>
        r == Err(NormaliseDate(date, today).error) && unchanged(this)
      ensures NormaliseDate(date, today).Ok? && NormaliseDate(date, today).value in old(priceCache) ==>
        r == Ok(old(priceCache)[NormaliseDate(date, today).value]) && unchanged(this)
      ensures NormaliseDate(date, today).Ok? && NormaliseDate(date, today).value !in old(priceCache) ==>
        var key := NormaliseDate(date, today).value;
        var resp := api(ApiUrl + key);
        && requested == old(requested) + [ApiUrl + key]
        && (resp.status != 200 ==> r == Ok(FetchErrorText(key, resp.status)) && priceCache == old(priceCache))
        && (resp.status == 200 && resp.rows == [] ==> r == Err(ZeroDivision) && priceCache == old(priceCache))
        && (resp.status == 200 && resp.rows != [] ==>
              r == Ok(Report(resp.rows, vatMultiplier, fmt)) && priceCache == old(priceCache)[key := r.value])
      ensures r.Ok? && NormaliseDate(date, today).value in priceCache ==>
        priceCache[NormaliseDate(date, today).value] == r.value
      ensures forall k :: k in old(priceCache) ==> k in priceCache && priceCache[k] == old(priceCache)[k]
    {
      var normalised := NormaliseDate(date, today);
      if normalised.Err? {
        return Err(normalised.error);
      }
      var key := normalised.value;
      if key in priceCache {
        return Ok(priceCache[key]);
      }
      r := FetchUncached(key, api, fmt);
    }
  }
}
