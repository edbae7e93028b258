/** pycbrf/rate_dynamics.py: the rates of one currency over a period of days, keyed by the date the
    server gives each of them. */
module RateDynamics {
  import opened Base
  import opened Text
  import opened Dates
  import opened Xml
  import opened Utils
  import opened Indexing
  import opened CurrencyCore
  import opened RatesBasic
  import CurrencyLibrary

  /** The `currency` argument: a registry key (`None`, an int or a str) or a `Currency` instance. */
  datatype CurrencyArg = ByKey(key: Key) | ByCurrency(c: Currency)

  /** `bool(currency)`: a `Currency` namedtuple is never empty, so it is always true. */
  predicate CurrencyTruthy(a: CurrencyArg)
  {
    a.ByCurrency? || Truthy(a.key)
  }

  /** The checked arguments: the first and last day of the period and the currency. */
  datatype Period = Period(since: DateTime, till: DateTime, currency: Currency)

  /** `_check_and_convert_args`. Both dates are normalised first (a text that does not parse is a
      `ValueError`); then a falsy currency is refused; then missing dates are filled in (both
      missing: today; one missing: the other one); then a period that ends before it starts is
      refused, as given and without swapping; and last a key is resolved through the registry's
      index. */
  function CheckAndConvertArgs(since: DateArg, till: DateArg, currency: CurrencyArg, today: Date, index: Index)
    : (r: Result<Period>)
    ensures DateTimeFromString(since).Err? || DateTimeFromString(till).Err? ==> r == Err(ValueError)
    ensures DateTimeFromString(since).Ok? && DateTimeFromString(till).Ok? && !CurrencyTruthy(currency) ==>
              r == Err(WrongArguments)
    ensures r.Ok? ==> && CurrencyTruthy(currency)
                      && IsMidnight(r.value.since) && IsMidnight(r.value.till)
                      && !DateTimeLess(r.value.till, r.value.since)
    ensures r.Ok? && DateTimeFromString(since).value.Some? ==> r.value.since == DateTimeFromString(since).value.value
    ensures r.Ok? && DateTimeFromString(till).value.Some? ==> r.value.till == DateTimeFromString(till).value.value
    ensures r.Ok? && currency.ByCurrency? ==> r.value.currency == currency.c
    ensures r.Ok? && currency.ByKey? ==> LookupIn(index, currency.key) == Ok(r.value.currency)
    ensures currency.ByKey? && LookupIn(index, currency.key).Err? ==> r.Err?
    ensures r.Err? ==> || r.error == ValueError || r.error == WrongArguments
                       || (currency.ByKey? && LookupIn(index, currency.key).Err?
                           && r.error == LookupIn(index, currency.key).error)
  {
    var s :- DateTimeFromString(since);
    var t :- DateTimeFromString(till);
    if !CurrencyTruthy(currency) then Err(WrongArguments)
    else
      var first := if s.Some? then s.value else if t.Some? then t.value else AtMidnight(today);
      var last := if t.Some? then t.value else if s.Some? then s.value else AtMidnight(today);
      if DateTimeLess(last, first) then Err(WrongArguments)
      else
        var c :- if currency.ByCurrency? then Ok(currency.c) else LookupIn(index, currency.key);
        Ok(Period(first, last, c))
  }

  /** With no dates at all the period is today alone, exactly as if today had been passed. */
  lemma NoDatesMeansToday(currency: CurrencyArg, today: Date, index: Index)
    ensures CheckAndConvertArgs(DNone, DNone, currency, today, index)
            == CheckAndConvertArgs(DDate(today), DDate(today), currency, today, index)
    ensures CheckAndConvertArgs(DNone, DNone, currency, today, index).Ok? ==>
              var p := CheckAndConvertArgs(DNone, DNone, currency, today, index).value;
              p.since == AtMidnight(today) && p.till == AtMidnight(today)
  {
    DateTimeLessIrreflexive(AtMidnight(today));
  }

  /** One date given, as either bound, is the one-day period of that date. */
  lemma SingleDateIsOneDay(d: DateArg, currency: CurrencyArg, today: Date, index: Index)
    requires !d.DNone?
    ensures CheckAndConvertArgs(d, DNone, currency, today, index) == CheckAndConvertArgs(d, d, currency, today, index)
    ensures CheckAndConvertArgs(DNone, d, currency, today, index) == CheckAndConvertArgs(d, d, currency, today, index)
    ensures CheckAndConvertArgs(d, DNone, currency, today, index).Ok? ==>
              var p := CheckAndConvertArgs(d, DNone, currency, today, index).value;
              p.since == p.till == DateTimeFromString(d).value.value
  {
    if DateTimeFromString(d).Ok? {
      DateTimeLessIrreflexive(DateTimeFromString(d).value.value);
    }
  }

  /** A period whose end comes before its start is refused, for a currency that would resolve. */
  lemma ReversedPeriodRefused(since: DateArg, till: DateArg, currency: CurrencyArg, today: Date, index: Index)
    requires DateTimeFromString(since).Ok? && DateTimeFromString(since).value.Some?
    requires DateTimeFromString(till).Ok? && DateTimeFromString(till).value.Some?
    requires DateTimeLess(DateTimeFromString(till).value.value, DateTimeFromString(since).value.value)
    ensures CheckAndConvertArgs(since, till, currency, today, index) == Err(WrongArguments)
  {
  }

  /** `_get_data`'s request: `XML_dynamic.asp` with both bounds as `dd/mm/yyyy` and the currency's
      Bank of Russia id. */
  function DynamicsRequest(urlBase: string, p: Period): (q: Request)
    ensures q.url == urlBase + "XML_dynamic.asp"
    ensures q.params.Keys == {"date_req1", "date_req2", "VAL_NM_RQ"}
    ensures q.params["VAL_NM_RQ"] == p.currency.id
  {
    Request(urlBase + "XML_dynamic.asp",
            map["date_req1" := FormatDMY(p.since.date, "/"),
                "date_req2" := FormatDMY(p.till.date, "/"),
                "VAL_NM_RQ" := p.currency.id])
  }

  /** The server reads both bounds back as the same dates. */
  lemma DynamicsRequestDates(urlBase: string, p: Period)
    requires 1000 <= p.since.date.year && 1000 <= p.till.date.year
    ensures ParseDMY(DynamicsRequest(urlBase, p).params["date_req1"], '/') == Ok(p.since.date)
    ensures ParseDMY(DynamicsRequest(urlBase, p).params["date_req2"], '/') == Ok(p.till.date)
  {
    FormatThenParse(p.since.date, '/');
    FormatThenParse(p.till.date, '/');
  }

  // ---------------------------------------------------------------------------------------------
  // Parsing the response.

  /** An element's `Date` attribute read as `dd.mm.yyyy`, at 00:00. */
  function ElementDate(e: Element): (r: Result<DateTime>)
    ensures r.Ok? <==> "Date" in e.attrib && ParseDMY(e.attrib["Date"], '.').Ok?
    ensures r.Ok? ==> r.value == AtMidnight(ParseDMY(e.attrib["Date"], '.').value)
    ensures r.Err? ==> r.error == KeyError || r.error == ValueError
  {
    var text :- Attr(e, "Date");
    var day :- ParseDMY(text, '.');
    Ok(AtMidnight(day))
  }

  /** One element of the response, its fields read in the order the source evaluates them: the
      date, `Nominal`, `Value` with a decimal comma, then the division. The rate is dated at
      midnight of that day and carries the requested currency and `name`. */
  function DynamicsRow(e: Element, c: Currency, name: string): (r: Result<ExchangeRate>)
    ensures r.Ok? ==> ElementDate(e) == Ok(r.value.onDate)
    ensures r.Ok? ==> && "Nominal" in e.props && ParseDecimal(e.props["Nominal"]) == Ok(r.value.par)
                      && "Value" in e.props && ParseDecimal(CommaToDot(e.props["Value"])) == Ok(r.value.value)
    ensures r.Ok? ==> && IsMidnight(r.value.onDate) && r.value.currency == c && r.value.name == name
                      && r.value.par != 0.0 && r.value.rate == r.value.value / r.value.par
    ensures ElementDate(e).Err? ==> r == Err(ElementDate(e).error)
  {
    var date :- ElementDate(e);
    var nominal :- Prop(e, "Nominal");
    var par :- ParseDecimal(nominal);
    var v :- Prop(e, "Value");
    var value :- ParseDecimal(CommaToDot(v));
    var rate :- DecimalDivide(value, par);
    Ok(ExchangeRate(date, c, name, value, par, rate))
  }

  predicate AllRowsParse(rows: seq<Element>, c: Currency, name: string)
  {
    forall j :: 0 <= j < |rows| ==> DynamicsRow(rows[j], c, name).Ok?
  }

  /** The rates of the rows, in the order of the rows. */
  function Entries(rows: seq<Element>, c: Currency, name: string): seq<ExchangeRate>
    requires AllRowsParse(rows, c, name)
  {
    seq(|rows|, j requires 0 <= j < |rows| => DynamicsRow(rows[j], c, name).value)
  }

  function OnDate(x: ExchangeRate): DateTime
  {
    x.onDate
  }

  /** The rates keyed by date. */
  type Table = map<DateTime, ExchangeRate>

  /** The outcome of every row, in the order of the rows. */
  function RowResults(rows: seq<Element>, c: Currency, name: string): seq<Result<ExchangeRate>>
  {
    seq(|rows|, j requires 0 <= j < |rows| => DynamicsRow(rows[j], c, name))
  }

  /** Once every row has succeeded, they all parse, to `Entries`. */
  lemma RowResultsAll(rows: seq<Element>, c: Currency, name: string, entries: seq<ExchangeRate>)
    requires OkPrefix(RowResults(rows, c, name), entries) && |entries| == |rows|
    ensures AllRowsParse(rows, c, name) && entries == Entries(rows, c, name)
  {
    var results := RowResults(rows, c, name);
    forall j | 0 <= j < |rows|
      ensures DynamicsRow(rows[j], c, name) == Ok(entries[j])
    {
      assert results[j] == Ok(entries[j]);
    }
  }

  /** The first `i` rows parse. */
  lemma RowResultsPrefix(rows: seq<Element>, c: Currency, name: string, entries: seq<ExchangeRate>)
    requires OkPrefix(RowResults(rows, c, name), entries)
    ensures forall k :: 0 <= k < |entries| ==> DynamicsRow(rows[k], c, name).Ok?
  {
    var results := RowResults(rows, c, name);
    forall k | 0 <= k < |entries|
      ensures DynamicsRow(rows[k], c, name).Ok?
    {
      assert results[k] == Ok(entries[k]);
    }
  }

  /** `_parse`: `result[date] = rate` for each element in document order, so a later element
      replaces an earlier one of the same date. The first element that fails ends the parse with
      its error. */
  method Parse(rows: seq<Element>, c: Currency, name: string) returns (r: Result<Table>)
    ensures r.Ok? <==> AllRowsParse(rows, c, name)
    ensures r.Ok? ==> r.value == IndexBy(Entries(rows, c, name), OnDate)
    ensures r.Err? ==> exists j :: && 0 <= j < |rows|
                                   && DynamicsRow(rows[j], c, name) == Err(r.error)
                                   && forall k :: 0 <= k < j ==> DynamicsRow(rows[k], c, name).Ok?
  {
    var result: Table := map[];
    ghost var results := RowResults(rows, c, name);
    ghost var entries: seq<ExchangeRate> := [];
    var i := 0;
    while i < |rows|
      invariant i == |entries| && OkPrefix(results, entries)
      invariant result == IndexBy(entries, OnDate)
    {
      var entry := DynamicsRow(rows[i], c, name);
      assert results[i] == entry;
      if entry.Err? {
        RowResultsPrefix(rows, c, name, entries);
        return Err(entry.error);
      }
      OkPrefixStep(results, entries);
      IndexBySnoc(entries, entry.value, OnDate);
      entries := entries + [entry.value];
      result := result[entry.value.onDate := entry.value];
      i := i + 1;
    }
    RowResultsAll(rows, c, name, entries);
    return Ok(result);
  }

  /** A rate as the response gives it: dated at midnight, of the requested currency and name, with
      `rate = value / par` and a non-zero `par`. */
  predicate WellDated(x: ExchangeRate, c: Currency, name: string)
  {
    IsMidnight(x.onDate) && x.currency == c && x.name == name && x.par != 0.0 && x.rate == x.value / x.par
  }

  lemma EntriesWellDated(rows: seq<Element>, c: Currency, name: string)
    requires AllRowsParse(rows, c, name)
    ensures forall j :: 0 <= j < |rows| ==> WellDated(Entries(rows, c, name)[j], c, name)
  {
    forall j | 0 <= j < |rows|
      ensures WellDated(Entries(rows, c, name)[j], c, name)
    {
      var x := DynamicsRow(rows[j], c, name);
      assert x.Ok?;
    }
  }

  /** What a table built from well-dated rates holds: every rate is keyed by its own date; the
      dates are exactly those of the rates, each holding the last rate of that date; and there are
      no more dates than rates. */
  lemma TableOfEntries(es: seq<ExchangeRate>, c: Currency, name: string)
    requires forall j :: 0 <= j < |es| ==> WellDated(es[j], c, name)
    ensures var m := IndexBy(es, OnDate);
            && (forall d :: d in m ==> m[d].onDate == d && WellDated(m[d], c, name))
            && (forall d :: d in m <==> exists j :: 0 <= j < |es| && OnDate(es[j]) == d)
            && (forall d :: d in m ==> exists j :: LastWith(es, OnDate, d, j) && m[d] == es[j])
            && |m| <= |es|
  {
    var m := IndexBy(es, OnDate);
    forall d
      ensures d in m <==> exists j :: 0 <= j < |es| && OnDate(es[j]) == d
      ensures d in m ==> exists j :: LastWith(es, OnDate, d, j) && m[d] == es[j]
    {
      IndexByLastWins(es, OnDate, d);
    }
    forall d | d in m
      ensures m[d].onDate == d && WellDated(m[d], c, name)
    {
      var j :| LastWith(es, OnDate, d, j) && m[d] == es[j];
    }
    IndexBySize(es, OnDate);
  }

  /** The table of a parsed response, as `TableOfEntries` describes it. */
  lemma TableOfRows(rows: seq<Element>, c: Currency, name: string)
    requires AllRowsParse(rows, c, name)
    ensures var es := Entries(rows, c, name);
            var m := IndexBy(es, OnDate);
            && (forall d :: d in m ==> m[d].onDate == d && WellDated(m[d], c, name))
            && (forall d :: d in m <==> exists j :: 0 <= j < |rows| && OnDate(es[j]) == d)
            && |m| <= |rows|
  {
    EntriesWellDated(rows, c, name);
    TableOfEntries(Entries(rows, c, name), c, name);
  }

  // ---------------------------------------------------------------------------------------------
  // Reading the table.

  /** `__getitem__`: a falsy item is refused; any other is normalised to midnight of its day and
      looked up, and a date the table does not hold is `ExchangeRateNotFound`. */
  function Get(rates: Table, item: DateArg): (r: Result<ExchangeRate>)
    ensures !DateTruthy(item) ==> r == Err(WrongArguments)
    ensures DateTruthy(item) && DateTimeFromString(item).Err? ==> r == Err(ValueError)
    ensures DateTruthy(item) && DateTimeFromString(item).Ok? ==>
              && DateTimeFromString(item).value.Some?
              && (r.Ok? <==> DateTimeFromString(item).value.value in rates)
              && (r.Ok? ==> r.value == rates[DateTimeFromString(item).value.value])
              && (r.Err? ==> r.error == ExchangeRateNotFound)
  {
    if !DateTruthy(item) then Err(WrongArguments)
    else
      var key :- DateTimeFromString(item);
      assert key.Some?;
      if key.value in rates then Ok(rates[key.value]) else Err(ExchangeRateNotFound)
  }

  /** A `date`, a `datetime` at any time of that day and its ISO text all find the same rate. */
  lemma GetIgnoresForm(rates: Table, d: Date, t: DateTime, s: string)
    requires t.date == d && ParseISO(s) == Ok(d)
    ensures Get(rates, DDateTime(t)) == Get(rates, DDate(d))
    ensures Get(rates, DStr(s)) == Get(rates, DDate(d))
  {
  }

  /** Every rate of a table built from well-dated rates is found by its day, and what is found is
      the last rate of that day. */
  lemma GetFindsEntry(es: seq<ExchangeRate>, c: Currency, name: string, j: int)
    requires forall k :: 0 <= k < |es| ==> WellDated(es[k], c, name)
    requires 0 <= j < |es|
    ensures var r := Get(IndexBy(es, OnDate), DDate(es[j].onDate.date));
            && r.Ok? && r.value.onDate == es[j].onDate
            && exists k :: LastWith(es, OnDate, es[j].onDate, k) && r.value == es[k]
  {
    TableOfEntries(es, c, name);
    assert WellDated(es[j], c, name);
    assert AtMidnight(es[j].onDate.date) == es[j].onDate;
  }

  // ---------------------------------------------------------------------------------------------
  // The object.

  /** `ExchangeRateDynamics` */
  class ExchangeRateDynamics {
    var dateFrom: DateTime
    var dateTo: DateTime
    var currency: Currency
    var rates: Table

    constructor (p: Period, rates: Table)
      ensures dateFrom == p.since && dateTo == p.till && currency == p.currency && this.rates == rates
    {
      dateFrom := p.since;
      dateTo := p.till;
      currency := p.currency;
      this.rates := rates;
    }

    /** `__getitem__` (see `Get`). */
    function GetRate(item: DateArg): (r: Result<ExchangeRate>)
      reads this
      ensures r == Get(rates, item)
    {
      Get(rates, item)
    }

    /** `__len__`: the number of dates the response gave (see `TableOfRows`). */
    function Len(): (n: nat)
      reads this
      ensures n == |rates|
    {
      |rates|
    }
  }

  /** `ExchangeRateDynamics(date_from, date_to, currency=...)`: the arguments are checked against
      the registry first, then `doc` (the decoded response to `DynamicsRequest` for that period) is
      parsed with the currency's English name. */
  method Open(since: DateArg, till: DateArg, currency: CurrencyArg, today: Date,
              registry: CurrencyLibrary.Currencies, doc: Document)
    returns (r: Result<ExchangeRateDynamics>)
    ensures var p := CheckAndConvertArgs(since, till, currency, today, registry.currencies);
            && (p.Err? ==> r == Err(p.error))
            && (p.Ok? ==> (r.Ok? <==> AllRowsParse(doc.children, p.value.currency, p.value.currency.nameEng)))
            && (r.Ok? ==> && p.Ok? && fresh(r.value)
                          && r.value.dateFrom == p.value.since && r.value.dateTo == p.value.till
                          && r.value.currency == p.value.currency
                          && r.value.rates == IndexBy(Entries(doc.children, p.value.currency, p.value.currency.nameEng), OnDate))
  {
    var p := CheckAndConvertArgs(since, till, currency, today, registry.currencies);
    if p.Err? {
      return Err(p.error);
    }
    var c := p.value.currency;
    var parsed := Parse(doc.children, c, c.nameEng);
    if parsed.Err? {
      return Err(parsed.error);
    }
    var dynamics := new ExchangeRateDynamics(p.value, parsed.value);
    return Ok(dynamics);
  }
}
