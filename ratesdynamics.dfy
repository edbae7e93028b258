/** pycbrf/rates/dynamics.py: the second revision of the rates of one currency over a period, with
    `since`/`till` bounds, names in either locale and currencies resolved through the registry of
    pycbrf/rates/currencies.py. Checking the arguments, the request, one element of the response
    and the lookup by date are those of `RateDynamics`. */
module RatesDynamics {
  import opened Base
  import opened Dates
  import opened Xml
  import opened Utils
  import opened Indexing
  import opened CurrencyCore
  import opened RatesBasic
  import opened RateDynamics
  import RatesCurrencies

  // ---------------------------------------------------------------------------------------------
  // The code as written: the record is built with `date=`, but `ExchangeRate` declares `on_date`.

  /** `_parse` as written, given the date helper it calls (`_date_parse`, taken to be `strptime`
      with `'%d.%m.%Y'`, which `pycbrf/utils.py` does not define). Every argument of the
      `ExchangeRate(...)` call is evaluated first (so the date, `Nominal`, `Value` and the division
      fail as they would anyway), and then the call itself is a `TypeError`. Given that helper, the
      first element therefore always ends the parse. */
  function ParseAsWritten(rows: seq<Element>, c: Currency, localeEn: bool): (r: Result<Table>)
    ensures r.Err? ==> rows != []
    ensures rows != [] && DynamicsRow(rows[0], c, RateName(c, localeEn)).Err? ==>
              r == Err(DynamicsRow(rows[0], c, RateName(c, localeEn)).error)
  {
    if rows == [] then Ok(map[])
    else
      var first := DynamicsRow(rows[0], c, RateName(c, localeEn));
      if first.Err? then Err(first.error) else Err(TypeError)
  }

  /** As written and given the date helper above, only an empty response parses, and its table is
      empty; a response whose first element is well-formed is a `TypeError`. The corrected parse
      (`RateDynamics.Parse` with the locale's name) gives such a response at least one dated rate. */
  lemma DateKeywordAsWritten(rows: seq<Element>, c: Currency, localeEn: bool)
    ensures ParseAsWritten(rows, c, localeEn).Ok? <==> rows == []
    ensures ParseAsWritten(rows, c, localeEn).Ok? ==> ParseAsWritten(rows, c, localeEn).value == map[]
    ensures rows != [] && DynamicsRow(rows[0], c, RateName(c, localeEn)).Ok? ==>
              ParseAsWritten(rows, c, localeEn) == Err(TypeError)
    ensures rows != [] && AllRowsParse(rows, c, RateName(c, localeEn)) ==>
              |IndexBy(Entries(rows, c, RateName(c, localeEn)), OnDate)| >= 1
  {
    var name := RateName(c, localeEn);
    if rows != [] && AllRowsParse(rows, c, name) {
      var es := Entries(rows, c, name);
      TableOfRows(rows, c, name);
      assert OnDate(es[0]) in IndexBy(es, OnDate);
    }
  }

  // ---------------------------------------------------------------------------------------------
  // The corrected code.

  /** Every rate of the table is named in the requested locale, carries the requested currency and
      has `rate = value / par` with the response's own `Nominal`, which may differ from the
      currency's `par`. */
  lemma TableFollowsLocale(rows: seq<Element>, c: Currency, localeEn: bool)
    requires AllRowsParse(rows, c, RateName(c, localeEn))
    ensures var m := IndexBy(Entries(rows, c, RateName(c, localeEn)), OnDate);
            forall d :: d in m ==> && m[d].name == (if localeEn then c.nameEng else c.nameRu)
                                   && m[d].currency == c && m[d].onDate == d
                                   && m[d].par != 0.0 && m[d].rate == m[d].value / m[d].par
  {
    TableOfRows(rows, c, RateName(c, localeEn));
  }

  /** The rate an element yields does not depend on the currency's own `par`. */
  lemma RateUsesPayloadNominal(e: Element, c: Currency, par: real, name: string)
    ensures var d := DynamicsRow(e, c.(par := par), name);
            d.Ok? <==> DynamicsRow(e, c, name).Ok?
    ensures DynamicsRow(e, c, name).Ok? ==>
              && DynamicsRow(e, c.(par := par), name).value.rate == DynamicsRow(e, c, name).value.rate
              && DynamicsRow(e, c.(par := par), name).value.par == DynamicsRow(e, c, name).value.par
  {
  }

  /** `ExchangeRateDynamics` */
  class ExchangeRateDynamics {
    var since: DateTime
    var till: DateTime
    var currency: Currency
    var rates: Table

    constructor (p: Period, rates: Table)
      ensures since == p.since && till == p.till && currency == p.currency && this.rates == rates
    {
      since := p.since;
      till := p.till;
      currency := p.currency;
      this.rates := rates;
    }

    /** `__getitem__` (see `RateDynamics.Get`). */
    function GetRate(item: DateArg): (r: Result<ExchangeRate>)
      reads this
      ensures r == Get(rates, item)
    {
      Get(rates, item)
    }

    /** `__len__`: the number of dates in the table (see `RateDynamics.TableOfRows`). */
    function Len(): (n: nat)
      reads this
      ensures n == |rates|
    {
      |rates|
    }
  }

  /** `ExchangeRateDynamics(since, till, currency=..., locale_en=...)`, corrected to build each
      record with `on_date`: the arguments are checked against the registry first, then `doc` (the
      decoded response to `DynamicsRequest` for that period) is parsed with the currency's name in
      the requested locale. */
  method Open(since: DateArg, till: DateArg, currency: CurrencyArg, localeEn: bool, today: Date,
              registry: RatesCurrencies.Currencies, doc: Document)
    returns (r: Result<ExchangeRateDynamics>)
    ensures var p := CheckAndConvertArgs(since, till, currency, today, registry.currencies);
            && (p.Err? ==> r == Err(p.error))
            && (p.Ok? ==>
                  var c := p.value.currency;
                  && (r.Ok? <==> AllRowsParse(doc.children, c, RateName(c, localeEn)))
                  && (r.Ok? ==> && fresh(r.value)
                                && r.value.since == p.value.since && r.value.till == p.value.till
                                && r.value.currency == c
                                && r.value.rates == IndexBy(Entries(doc.children, c, RateName(c, localeEn)), OnDate)))
  {
    var p := CheckAndConvertArgs(since, till, currency, today, registry.currencies);
    if p.Err? {
      return Err(p.error);
    }
    var c := p.value.currency;
    var parsed := RateDynamics.Parse(doc.children, c, RateName(c, localeEn));
    if parsed.Err? {
      return Err(parsed.error);
    }
    var dynamics := new ExchangeRateDynamics(p.value, parsed.value);
    return Ok(dynamics);
  }
}
