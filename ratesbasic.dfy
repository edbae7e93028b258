/** pycbrf/rates/basic.py: the exchange-rate record and the daily table of rates, with currencies
    resolved through the registry of pycbrf/rates/currencies.py. */
module RatesBasic {
  import opened Base
  import opened Text
  import opened Dates
  import opened Xml
  import opened Utils
  import opened CurrencyCore
  import RatesCurrencies

  /** `ExchangeRate`: the rate of one currency on one date; `rate` is `value` per one unit. */
  datatype ExchangeRate = ExchangeRate(onDate: DateTime, currency: Currency, name: string, value: real, par: real, rate: real)

  /** The table of rates, keyed by currency (by the triple `Currency.__eq__` compares). */
  type Rates = map<Ident, ExchangeRate>

  /** What `_parse` returns: the date the server reports and the rates. */
  datatype Parsed = Parsed(date: DateTime, rates: Rates)

  /** The name a rate carries: English or Russian by the locale flag. */
  function RateName(c: Currency, localeEn: bool): string
  {
    if localeEn then c.nameEng else c.nameRu
  }

  /** A rate as `_parse` builds it: dated with the server's date, named by the locale and keyed by
      its own currency, with `rate = value / par` and a non-zero `par`. */
  predicate WellFormedRate(k: Ident, x: ExchangeRate, date: DateTime, localeEn: bool)
  {
    && x.onDate == date
    && IdentOf(x.currency) == k
    && x.name == RateName(x.currency, localeEn)
    && x.par != 0.0
    && x.rate == x.value / x.par
  }

  predicate WellFormedRates(rates: Rates, date: DateTime, localeEn: bool)
  {
    forall k :: k in rates ==> WellFormedRate(k, rates[k], date, localeEn)
  }

  /** `__init__`'s date: a falsy argument means today at 00:00; any other is normalised by
      `_datetime_from_string`. Either way the time is midnight. */
  function RequestedDate(onDate: DateArg, today: Date): (r: Result<DateTime>)
    ensures r.Ok? ==> IsMidnight(r.value)
    ensures !DateTruthy(onDate) ==> r == Ok(AtMidnight(today))
    ensures onDate.DDate? ==> r == Ok(AtMidnight(onDate.d))
    ensures onDate.DDateTime? ==> r == Ok(AtMidnight(onDate.t.date))
    ensures onDate.DStr? && onDate.s != "" ==> (r.Ok? <==> ParseISO(onDate.s).Ok?)
    ensures onDate.DStr? && onDate.s != "" && r.Ok? ==> r.value == AtMidnight(ParseISO(onDate.s).value)
    ensures r.Err? ==> r.error == ValueError
  {
    if DateTruthy(onDate) then
      var t :- DateTimeFromString(onDate);
      assert t.Some?;
      Ok(t.value)
    else Ok(AtMidnight(today))
  }

  /** `_get_data`: `XML_daily.asp`, or `XML_daily_eng.asp` for English names, with the date as
      `dd/mm/yyyy`. */
  function DailyRequest(urlBase: string, onDate: DateTime, localeEn: bool): (q: Request)
    ensures q.url == urlBase + (if localeEn then "XML_daily_eng.asp" else "XML_daily.asp")
    ensures q.params.Keys == {"date_req"}
  {
    Request(urlBase + "XML_daily" + (if localeEn then "_eng" else "") + ".asp",
            map["date_req" := FormatDMY(onDate.date, "/")])
  }

  /** The server reads the requested date back as the same date. */
  lemma DailyRequestDate(urlBase: string, onDate: DateTime, localeEn: bool)
    requires 1000 <= onDate.date.year
    ensures ParseDMY(DailyRequest(urlBase, onDate, localeEn).params["date_req"], '/') == Ok(onDate.date)
  {
    FormatThenParse(onDate.date, '/');
  }

  /** The currency built for a row whose id the registry does not know: both names from `Name`,
      and the row's own `CharCode`, `NumCode` (as the row writes it) and `Nominal`. */
  function StandIn(e: Element, id: string): (r: Result<Currency>)
    ensures r.Ok? <==> "Name" in e.props && "CharCode" in e.props && "NumCode" in e.props
                       && "Nominal" in e.props && ParseDecimal(e.props["Nominal"]).Ok?
    ensures r.Ok? ==> r.value.id == id && r.value.nameEng == e.props["Name"] && r.value.nameRu == e.props["Name"]
                      && r.value.code == e.props["CharCode"] && r.value.num == e.props["NumCode"]
                      && Ok(r.value.par) == ParseDecimal(e.props["Nominal"])
  {
    var name :- Prop(e, "Name");
    var code :- Prop(e, "CharCode");
    var num :- Prop(e, "NumCode");
    var nominal :- Prop(e, "Nominal");
    var par :- ParseDecimal(nominal);
    Ok(Currency(id, name, name, num, code, par))
  }

  /** The currency a row resolves to, and the registry's index afterwards. */
  datatype Resolution = Resolution(found: Result<Currency>, index: Index)

  /** Resolution of a row's id, with the stand-in registered when the id is unknown. The
      registration stays in place even when a later step of the row fails. */
  function Resolve(e: Element, id: string, index: Index): (o: Resolution)
    ensures LookupIn(index, KStr(id)).Ok? ==> o == Resolution(LookupIn(index, KStr(id)), index)
    ensures LookupIn(index, KStr(id)).Err? && StandIn(e, id).Ok? ==>
              o == Resolution(StandIn(e, id), index + Pack(StandIn(e, id).value))
    ensures LookupIn(index, KStr(id)).Err? && StandIn(e, id).Err? ==> o == Resolution(StandIn(e, id), index)
    ensures o.found.Ok? && |id| >= 3 ==> Lower(id) in o.index
    ensures index.Keys <= o.index.Keys
  {
    var found := LookupIn(index, KStr(id));
    if found.Ok? then Resolution(found, index)
    else
      match StandIn(e, id)
      case Err(err) => Resolution(Err(err), index)
      case Ok(c) =>
        assert Lower(id) in Pack(c);
        Resolution(Ok(c), index + Pack(c))
  }

  /** The rate of one row of currency `c`. */
  function MakeRate(received: DateTime, c: Currency, localeEn: bool, value: real, par: real): (r: Result<ExchangeRate>)
    ensures r.Ok? <==> par != 0.0
    ensures r.Ok? ==> WellFormedRate(IdentOf(c), r.value, received, localeEn)
    ensures r.Ok? ==> r.value.currency == c && r.value.value == value && r.value.par == par
  {
    var rate :- DecimalDivide(value, par);
    Ok(ExchangeRate(received, c, RateName(c, localeEn), value, par, rate))
  }

  /** What one row yields: its rate or the error it ends in, and the index afterwards. */
  datatype RowOutcome = RowOutcome(entry: Result<ExchangeRate>, index: Index)

  function RateRow(e: Element, received: DateTime, localeEn: bool, index: Index): (o: RowOutcome)
    ensures index.Keys <= o.index.Keys
    ensures o.entry.Ok? ==> WellFormedRate(IdentOf(o.entry.value.currency), o.entry.value, received, localeEn)
    ensures o.entry.Ok? ==> "ID" in e.attrib && (|e.attrib["ID"]| >= 3 ==> Lower(e.attrib["ID"]) in o.index)
    ensures RowPrelude(e).Err? ==> o == RowOutcome(Err(RowPrelude(e).error), index)
    ensures RowPrelude(e).Ok? && Resolve(e, RowPrelude(e).value.id, index).found.Err? ==>
              o == RowOutcome(Err(Resolve(e, RowPrelude(e).value.id, index).found.error),
                              Resolve(e, RowPrelude(e).value.id, index).index)
    ensures o.entry.Ok? ==> && RowPrelude(e).Ok?
                            && o.entry.value.par == RowPrelude(e).value.par
                            && o.entry.value.value == RowPrelude(e).value.value
                            && Resolve(e, RowPrelude(e).value.id, index).found == Ok(o.entry.value.currency)
                            && o.index == Resolve(e, RowPrelude(e).value.id, index).index
  {
    match RowPrelude(e)
    case Err(err) => RowOutcome(Err(err), index)
    case Ok(p) =>
      var res := Resolve(e, p.id, index);
      match res.found
      case Err(err) => RowOutcome(Err(err), res.index)
      case Ok(c) => RowOutcome(MakeRate(received, c, localeEn, p.value, p.par), res.index)
  }

  /** What `_parse` yields, and the registry's index afterwards. */
  datatype ParseOutcome = ParseOutcome(result: Result<Parsed>, index: Index)

  /** The rows from `i` on, folded into the table `acc`; the first row that fails ends the fold
      with its error and with the index as that row left it. */
  function RatesFrom(rows: seq<Element>, i: nat, received: DateTime, localeEn: bool, acc: Rates, index: Index): ParseOutcome
    requires i <= |rows|
    decreases |rows| - i
  {
    if i == |rows| then ParseOutcome(Ok(Parsed(received, acc)), index)
    else
      var o := RateRow(rows[i], received, localeEn, index);
      match o.entry
      case Err(err) => ParseOutcome(Err(err), o.index)
      case Ok(x) => RatesFrom(rows, i + 1, received, localeEn, acc[IdentOf(x.currency) := x], o.index)
  }

  /** `ExchangeRates._parse`, with unknown currencies registered in the registry. */
  function ParseRates(doc: Document, localeEn: bool, index: Index): ParseOutcome
  {
    match ReceivedDate(doc)
    case Err(err) => ParseOutcome(Err(err), index)
    case Ok(received) => RatesFrom(doc.children, 0, received, localeEn, map[], index)
  }

  /** Every rate of the fold is well formed and dated with the server's date. */
  lemma {:induction false} RatesFromWellFormed(rows: seq<Element>, i: nat, received: DateTime, localeEn: bool, acc: Rates, index: Index)
    requires i <= |rows|
    requires WellFormedRates(acc, received, localeEn)
    requires RatesFrom(rows, i, received, localeEn, acc, index).result.Ok?
    ensures var p := RatesFrom(rows, i, received, localeEn, acc, index).result.value;
      p.date == received && WellFormedRates(p.rates, received, localeEn)
    decreases |rows| - i
  {
    if i < |rows| {
      var o := RateRow(rows[i], received, localeEn, index);
      var x := o.entry.value;
      var acc' := acc[IdentOf(x.currency) := x];
      assert RatesFrom(rows, i, received, localeEn, acc, index) == RatesFrom(rows, i + 1, received, localeEn, acc', o.index);
      forall k | k in acc'
        ensures WellFormedRate(k, acc'[k], received, localeEn)
      {
        if k != IdentOf(x.currency) {
          assert acc'[k] == acc[k];
        }
      }
      RatesFromWellFormed(rows, i + 1, received, localeEn, acc', o.index);
    }
  }

  /** The table has no more rates than the payload has rows. */
  lemma {:induction false} RatesFromSize(rows: seq<Element>, i: nat, received: DateTime, localeEn: bool, acc: Rates, index: Index)
    requires i <= |rows|
    requires RatesFrom(rows, i, received, localeEn, acc, index).result.Ok?
    ensures |RatesFrom(rows, i, received, localeEn, acc, index).result.value.rates| <= |acc| + |rows| - i
    decreases |rows| - i
  {
    if i < |rows| {
      var o := RateRow(rows[i], received, localeEn, index);
      var x := o.entry.value;
      var acc' := acc[IdentOf(x.currency) := x];
      assert RatesFrom(rows, i, received, localeEn, acc, index) == RatesFrom(rows, i + 1, received, localeEn, acc', o.index);
      UpdateSize(acc, IdentOf(x.currency), x);
      RatesFromSize(rows, i + 1, received, localeEn, acc', o.index);
    }
  }

  /** The index only gains keys. */
  lemma {:induction false} RatesFromKeysGrow(rows: seq<Element>, i: nat, received: DateTime, localeEn: bool, acc: Rates, index: Index)
    requires i <= |rows|
    ensures index.Keys <= RatesFrom(rows, i, received, localeEn, acc, index).index.Keys
    decreases |rows| - i
  {
    if i < |rows| {
      var o := RateRow(rows[i], received, localeEn, index);
      if o.entry.Ok? {
        var x := o.entry.value;
        RatesFromKeysGrow(rows, i + 1, received, localeEn, acc[IdentOf(x.currency) := x], o.index);
      }
    }
  }

  /** A rate carries the `Nominal` and `Value` of a row, not the `par` of its currency. */
  ghost predicate FromRow(x: ExchangeRate, e: Element)
  {
    RowPrelude(e).Ok? && x.par == RowPrelude(e).value.par && x.value == RowPrelude(e).value.value
  }

  /** Every rate of `m` is either one of `acc`, untouched, or was built from one of the rows from
      `i` on. */
  ghost predicate PayloadFrom(m: Rates, acc: Rates, rows: seq<Element>, i: nat)
  {
    forall k :: k in m ==> (k in acc && m[k] == acc[k]) || exists j :: i <= j < |rows| && FromRow(m[k], rows[j])
  }

  /** One row of the fold: a rate stored from row `i` is built from it. */
  lemma PayloadFromStep(m: Rates, acc: Rates, key: Ident, x: ExchangeRate, rows: seq<Element>, i: nat)
    requires i < |rows| && FromRow(x, rows[i])
    requires PayloadFrom(m, acc[key := x], rows, i + 1)
    ensures PayloadFrom(m, acc, rows, i)
  {
    forall k | k in m
      ensures (k in acc && m[k] == acc[k]) || exists j :: i <= j < |rows| && FromRow(m[k], rows[j])
    {
      if k in acc[key := x] && m[k] == acc[key := x][k] {
        if k == key {
          assert FromRow(m[k], rows[i]);
        } else {
          assert acc[key := x][k] == acc[k];
        }
      } else {
        var j :| i + 1 <= j < |rows| && FromRow(m[k], rows[j]);
        assert i <= j;
      }
    }
  }

  /** Every rate of the fold is either one of `acc`, untouched, or was built from one of the rows
      from `i` on, with that row's `Nominal` and `Value`. */
  lemma {:induction false} RatesFromUsesPayload(rows: seq<Element>, i: nat, received: DateTime, localeEn: bool, acc: Rates, index: Index)
    requires i <= |rows|
    requires RatesFrom(rows, i, received, localeEn, acc, index).result.Ok?
    ensures PayloadFrom(RatesFrom(rows, i, received, localeEn, acc, index).result.value.rates, acc, rows, i)
    decreases |rows| - i
  {
    if i < |rows| {
      var o := RateRow(rows[i], received, localeEn, index);
      var x := o.entry.value;
      var acc' := acc[IdentOf(x.currency) := x];
      var m := RatesFrom(rows, i, received, localeEn, acc, index).result.value.rates;
      assert RatesFrom(rows, i, received, localeEn, acc, index) == RatesFrom(rows, i + 1, received, localeEn, acc', o.index);
      RatesFromUsesPayload(rows, i + 1, received, localeEn, acc', o.index);
      assert FromRow(x, rows[i]);
      PayloadFromStep(m, acc, IdentOf(x.currency), x, rows, i);
    }
  }

  /** Every rate of a parsed table takes its `par` from the `Nominal` and its `value` from the
      `Value` of one of the rows, whatever `par` the registry holds for its currency, and
      `rate = value / par`. */
  lemma ParseRatesUsesPayload(doc: Document, localeEn: bool, index: Index)
    requires ParseRates(doc, localeEn, index).result.Ok?
    ensures var m := ParseRates(doc, localeEn, index).result.value.rates;
            forall k :: k in m ==> && m[k].par != 0.0 && m[k].rate == m[k].value / m[k].par
                                   && exists j :: 0 <= j < |doc.children| && FromRow(m[k], doc.children[j])
  {
    var received := ReceivedDate(doc).value;
    var fold := RatesFrom(doc.children, 0, received, localeEn, map[], index);
    assert ParseRates(doc, localeEn, index) == fold;
    var m := fold.result.value.rates;
    RatesFromUsesPayload(doc.children, 0, received, localeEn, map[], index);
    RatesFromWellFormed(doc.children, 0, received, localeEn, map[], index);
    forall k | k in m
      ensures m[k].par != 0.0 && m[k].rate == m[k].value / m[k].par
      ensures exists j :: 0 <= j < |doc.children| && FromRow(m[k], doc.children[j])
    {
      assert WellFormedRate(k, m[k], received, localeEn);
    }
  }

  /** The row of the example below reads as a quote of 5 for 10 units of `R01235`. */
  lemma ExampleRowPrelude()
    ensures RowPrelude(Element(map["ID" := "R01235"], map["Nominal" := "10", "Value" := "5"]))
            == Ok(Prelude(10.0, 5.0, "R01235"))
  {
    ParseDecimalOfDigits("10");
    assert DigitsValue("10") == 10;
    assert CommaToDot("5") == "5";
    ParseDecimalOfDigits("5");
  }

  /** The dollar registered with `par` 1 and a row quoting it per 10 units: the rate keeps the
      row's `Nominal`, so its `par` differs from the currency's. */
  lemma PayloadNominalNotCurrencyPar(received: DateTime)
    ensures var usd := Currency("R01235", "US Dollar", "Доллар США", "840", "USD", 1.0);
            var row := Element(map["ID" := "R01235"], map["Nominal" := "10", "Value" := "5"]);
            var o := RateRow(row, received, true, Pack(usd));
            && o.entry.Ok? && o.entry.value.currency == usd
            && o.entry.value.par == 10.0 && o.entry.value.par != usd.par && o.entry.value.rate == 0.5
  {
    var usd := Currency("R01235", "US Dollar", "Доллар США", "840", "USD", 1.0);
    var row := Element(map["ID" := "R01235"], map["Nominal" := "10", "Value" := "5"]);
    ExampleRowPrelude();
    LookupById(Pack(usd), usd, "R01235");
    assert Resolve(row, "R01235", Pack(usd)).found == Ok(usd);
  }

  /** The fold over one more row at the end: a failure so far stays; otherwise the extra row is
      resolved against the index the others left, and its rate, if any, is stored under its
      currency over whatever rate was there. */
  lemma {:induction false} RatesFromSnoc(rows: seq<Element>, e: Element, i: nat, received: DateTime, localeEn: bool, acc: Rates, index: Index)
    requires i <= |rows|
    ensures var before := RatesFrom(rows, i, received, localeEn, acc, index);
            var after := RatesFrom(rows + [e], i, received, localeEn, acc, index);
            && (before.result.Err? ==> after == before)
            && (before.result.Ok? ==>
                  var o := RateRow(e, received, localeEn, before.index);
                  && (o.entry.Err? ==> after == ParseOutcome(Err(o.entry.error), o.index))
                  && (o.entry.Ok? ==>
                        after == ParseOutcome(Ok(Parsed(received, before.result.value.rates[IdentOf(o.entry.value.currency) := o.entry.value])), o.index)))
    decreases |rows| - i
  {
    var all := rows + [e];
    if i == |rows| {
      assert all[i] == e;
    } else {
      assert all[i] == rows[i];
      var o := RateRow(rows[i], received, localeEn, index);
      if o.entry.Ok? {
        var x := o.entry.value;
        RatesFromSnoc(rows, e, i + 1, received, localeEn, acc[IdentOf(x.currency) := x], o.index);
      }
    }
  }

  /** `_parse` of a payload with one more row at the end: the extra row is resolved against the
      index the others left, and its rate is stored under its currency. */
  lemma ParseRatesSnoc(doc: Document, e: Element, localeEn: bool, index: Index)
    requires ParseRates(Document(doc.attrib, doc.children + [e]), localeEn, index).result.Ok?
    ensures var before := ParseRates(doc, localeEn, index);
            var after := ParseRates(Document(doc.attrib, doc.children + [e]), localeEn, index).result.value;
            var x := RateRow(e, after.date, localeEn, before.index).entry;
            && before.result.Ok? && x.Ok?
            && after.rates == before.result.value.rates[IdentOf(x.value.currency) := x.value]
  {
    var longer := Document(doc.attrib, doc.children + [e]);
    assert ReceivedDate(longer) == ReceivedDate(doc);
    var received := ReceivedDate(doc).value;
    var before := RatesFrom(doc.children, 0, received, localeEn, map[], index);
    var after := RatesFrom(doc.children + [e], 0, received, localeEn, map[], index);
    assert ParseRates(doc, localeEn, index) == before;
    assert ParseRates(longer, localeEn, index) == after;
    RatesFromSnoc(doc.children, e, 0, received, localeEn, map[], index);
  }

  /** A later row of the same currency overwrites the earlier rate: after a successful parse the
      last row's rate is stored under its currency, and every other currency keeps its rate. */
  lemma LaterRowOverwrites(doc: Document, e: Element, localeEn: bool, index: Index)
    requires ParseRates(Document(doc.attrib, doc.children + [e]), localeEn, index).result.Ok?
    ensures var before := ParseRates(doc, localeEn, index);
            var after := ParseRates(Document(doc.attrib, doc.children + [e]), localeEn, index).result.value;
            var x := RateRow(e, after.date, localeEn, before.index).entry;
            && before.result.Ok? && x.Ok?
            && IdentOf(x.value.currency) in after.rates && after.rates[IdentOf(x.value.currency)] == x.value
            && forall k :: k in before.result.value.rates && k != IdentOf(x.value.currency) ==>
                 k in after.rates && after.rates[k] == before.result.value.rates[k]
  {
    ParseRatesSnoc(doc, e, localeEn, index);
    var before := ParseRates(doc, localeEn, index).result.value.rates;
    var after := ParseRates(Document(doc.attrib, doc.children + [e]), localeEn, index).result.value;
    var x := RateRow(e, after.date, localeEn, ParseRates(doc, localeEn, index).index).entry.value;
    UpdateKeeps(before, IdentOf(x.currency), x);
  }

  lemma UpdateKeeps(m: Rates, k: Ident, v: ExchangeRate)
    ensures k in m[k := v] && m[k := v][k] == v
    ensures forall j :: j in m && j != k ==> j in m[k := v] && m[k := v][j] == m[j]
  {
  }

  lemma UpdateSize(m: Rates, k: Ident, v: ExchangeRate)
    ensures |m[k := v]| <= |m| + 1
  {
    if k in m {
      assert m[k := v].Keys == m.Keys;
    } else {
      assert m[k := v].Keys == m.Keys + {k};
    }
  }

  /** A row that yields a rate leaves its id resolvable in every index that keeps the keys of
      the index the row left. */
  lemma RateRowRegistersId(e: Element, received: DateTime, localeEn: bool, index: Index, later: Index)
    requires RateRow(e, received, localeEn, index).entry.Ok?
    requires RateRow(e, received, localeEn, index).index.Keys <= later.Keys
    ensures "ID" in e.attrib
    ensures |e.attrib["ID"]| >= 3 ==> Lower(e.attrib["ID"]) in later
  {
  }

  /** After a successful fold every row's id of at least three characters is known to the
      registry, whether it was known before or registered by the fold. */
  lemma {:induction false} RatesFromRegistersIds(rows: seq<Element>, i: nat, received: DateTime, localeEn: bool, acc: Rates, index: Index)
    requires i <= |rows|
    requires RatesFrom(rows, i, received, localeEn, acc, index).result.Ok?
    ensures forall j :: i <= j < |rows| ==> "ID" in rows[j].attrib
    ensures forall j :: i <= j < |rows| && |rows[j].attrib["ID"]| >= 3 ==>
              Lower(rows[j].attrib["ID"]) in RatesFrom(rows, i, received, localeEn, acc, index).index
    decreases |rows| - i
  {
    if i < |rows| {
      var o := RateRow(rows[i], received, localeEn, index);
      var x := o.entry.value;
      var acc' := acc[IdentOf(x.currency) := x];
      assert o.entry.Ok?;
      var final := RatesFrom(rows, i, received, localeEn, acc, index).index;
      assert final == RatesFrom(rows, i + 1, received, localeEn, acc', o.index).index;
      RatesFromRegistersIds(rows, i + 1, received, localeEn, acc', o.index);
      RatesFromKeysGrow(rows, i + 1, received, localeEn, acc', o.index);
      RateRowRegistersId(rows[i], received, localeEn, index, final);
      forall j | i <= j < |rows|
        ensures "ID" in rows[j].attrib
        ensures |rows[j].attrib["ID"]| >= 3 ==> Lower(rows[j].attrib["ID"]) in final
      {
        if j > i {
          assert "ID" in rows[j].attrib;
        }
      }
    }
  }

  /** After a successful parse every row's id of at least three characters resolves in the
      registry, whether it was known before or registered by the parse. */
  lemma ParseRatesRegistersIds(doc: Document, localeEn: bool, index: Index)
    requires ParseRates(doc, localeEn, index).result.Ok?
    ensures forall j :: 0 <= j < |doc.children| ==> "ID" in doc.children[j].attrib
    ensures forall j :: 0 <= j < |doc.children| && |doc.children[j].attrib["ID"]| >= 3 ==>
              LookupIn(ParseRates(doc, localeEn, index).index, KStr(doc.children[j].attrib["ID"])).Ok?
  {
    var received := ReceivedDate(doc).value;
    var final := ParseRates(doc, localeEn, index).index;
    assert final == RatesFrom(doc.children, 0, received, localeEn, map[], index).index;
    RatesFromRegistersIds(doc.children, 0, received, localeEn, map[], index);
    forall j | 0 <= j < |doc.children| && |doc.children[j].attrib["ID"]| >= 3
      ensures LookupIn(final, KStr(doc.children[j].attrib["ID"])).Ok?
    {
      LookupByIndexKey(final, doc.children[j].attrib["ID"]);
    }
  }

  /** A row whose id the registry does not know, and which yields a rate, registers its
      stand-in: the currency of `CharCode` and `NumCode` as the row writes them. */
  lemma RateRowRegistersStandIn(e: Element, received: DateTime, localeEn: bool, index: Index)
    requires RateRow(e, received, localeEn, index).entry.Ok?
    requires "ID" in e.attrib && LookupIn(index, KStr(e.attrib["ID"])).Err?
    ensures StandIn(e, e.attrib["ID"]).Ok?
    ensures var c := StandIn(e, e.attrib["ID"]).value;
            && "CharCode" in e.props && c.code == e.props["CharCode"]
            && "NumCode" in e.props && c.num == e.props["NumCode"]
            && RateRow(e, received, localeEn, index).index == index + Pack(c)
  {
  }

  /** Every index holding a currency's keys resolves its code and a three-digit num, the num as
      text or as a number. */
  lemma PackKeysResolve(c: Currency, later: Index)
    requires Pack(c).Keys <= later.Keys
    ensures |c.code| >= 3 ==> LookupIn(later, KStr(c.code)).Ok?
    ensures IsDigitString(c.num) && |c.num| == 3 ==> LookupIn(later, KStr(c.num)).Ok?
    ensures IsDigitString(c.num) && |c.num| == 3 && DigitsValue(c.num) > 0 ==> LookupIn(later, KInt(DigitsValue(c.num))).Ok?
  {
    if |c.code| >= 3 {
      assert Lower(c.code) in Pack(c);
      LookupByIndexKey(later, c.code);
    }
    if IsDigitString(c.num) && |c.num| == 3 {
      LowerKeepsDigits(c.num);
      assert c.num in Pack(c);
      LookupByIndexKey(later, c.num);
      if DigitsValue(c.num) > 0 {
        DigitsValueBound(c.num);
        Pow10Step(2);
        Pow10Step(1);
        Pow10Step(0);
        FormatNumCodeAgrees(DigitsValue(c.num), c.num);
      }
    }
  }

  /** A row whose id the registry did not know when the fold reached it registers its stand-in,
      so after the fold the stand-in's `CharCode` (of three or more characters) and a three-digit
      `NumCode`, as text or as a number, resolve in the registry as well. */
  lemma StandInFindable(rows: seq<Element>, i: nat, received: DateTime, localeEn: bool, acc: Rates, index: Index)
    requires i < |rows|
    requires RatesFrom(rows, i, received, localeEn, acc, index).result.Ok?
    requires "ID" in rows[i].attrib && LookupIn(index, KStr(rows[i].attrib["ID"])).Err?
    ensures "CharCode" in rows[i].props && "NumCode" in rows[i].props
    ensures var final := RatesFrom(rows, i, received, localeEn, acc, index).index;
            var code := rows[i].props["CharCode"];
            var num := rows[i].props["NumCode"];
            && (|code| >= 3 ==> LookupIn(final, KStr(code)).Ok?)
            && (IsDigitString(num) && |num| == 3 ==> LookupIn(final, KStr(num)).Ok?)
            && (IsDigitString(num) && |num| == 3 && DigitsValue(num) > 0 ==> LookupIn(final, KInt(DigitsValue(num))).Ok?)
  {
    var e := rows[i];
    var o := RateRow(e, received, localeEn, index);
    var x := o.entry.value;
    var acc' := acc[IdentOf(x.currency) := x];
    var final := RatesFrom(rows, i, received, localeEn, acc, index).index;
    assert final == RatesFrom(rows, i + 1, received, localeEn, acc', o.index).index;
    RatesFromKeysGrow(rows, i + 1, received, localeEn, acc', o.index);
    RateRowRegistersStandIn(e, received, localeEn, index);
    var c := StandIn(e, e.attrib["ID"]).value;
    assert Pack(c).Keys <= final.Keys;
    PackKeysResolve(c, final);
  }

  /** For the first row of a table whose id the registry does not know: after a successful parse
      the new currency can be looked up by its id, its `CharCode` and its `NumCode`. */
  lemma ParseRatesFindsStandIn(doc: Document, localeEn: bool, index: Index)
    requires ParseRates(doc, localeEn, index).result.Ok? && |doc.children| > 0
    requires "ID" in doc.children[0].attrib && LookupIn(index, KStr(doc.children[0].attrib["ID"])).Err?
    ensures var e := doc.children[0];
            var final := ParseRates(doc, localeEn, index).index;
            && "CharCode" in e.props && "NumCode" in e.props
            && (|e.attrib["ID"]| >= 3 ==> LookupIn(final, KStr(e.attrib["ID"])).Ok?)
            && (|e.props["CharCode"]| >= 3 ==> LookupIn(final, KStr(e.props["CharCode"])).Ok?)
            && (IsDigitString(e.props["NumCode"]) && |e.props["NumCode"]| == 3 ==>
                  LookupIn(final, KStr(e.props["NumCode"])).Ok?)
  {
    var received := ReceivedDate(doc).value;
    assert ParseRates(doc, localeEn, index) == RatesFrom(doc.children, 0, received, localeEn, map[], index);
    StandInFindable(doc.children, 0, received, localeEn, map[], index);
    ParseRatesRegistersIds(doc, localeEn, index);
  }

  /** One pass of `_parse`'s loop body over the registry object: the row's rate, with its currency
      resolved through the registry and registered there when unknown. */
  method ParseRow(row: Element, received: DateTime, localeEn: bool, registry: RatesCurrencies.Currencies)
    returns (entry: Result<ExchangeRate>)
    modifies registry
    ensures RateRow(row, received, localeEn, old(registry.currencies)) == RowOutcome(entry, registry.currencies)
    ensures registry.updated == old(registry.updated)
  {
    var prelude := RowPrelude(row);
    if prelude.Err? {
      return Err(prelude.error);
    }
    var currency: Currency;
    var found := registry.Get(KStr(prelude.value.id));
    if found.Ok? {
      currency := found.value;
    } else {
      var standIn := StandIn(row, prelude.value.id);
      if standIn.Err? {
        return Err(standIn.error);
      }
      currency := standIn.value;
      registry.Register(currency);
    }
    entry := MakeRate(received, currency, localeEn, prelude.value.value, prelude.value.par);
  }

  /** `_parse` as the source runs it: one pass over the rows, each resolved through the registry. */
  method Parse(doc: Document, localeEn: bool, registry: RatesCurrencies.Currencies) returns (r: Result<Parsed>)
    modifies registry
    ensures ParseRates(doc, localeEn, old(registry.currencies)) == ParseOutcome(r, registry.currencies)
    ensures registry.updated == old(registry.updated)
  {
    var received := ReceivedDate(doc);
    if received.Err? {
      return Err(received.error);
    }
    var rows := doc.children;
    var rates: Rates := map[];
    var i := 0;
    while i < |rows|
      invariant 0 <= i <= |rows|
      invariant registry.updated == old(registry.updated)
      invariant ParseRates(doc, localeEn, old(registry.currencies))
                == RatesFrom(rows, i, received.value, localeEn, rates, registry.currencies)
    {
      var entry := ParseRow(rows[i], received.value, localeEn, registry);
      if entry.Err? {
        return Err(entry.error);
      }
      rates := rates[IdentOf(entry.value.currency) := entry.value];
      i := i + 1;
    }
    return Ok(Parsed(received.value, rates));
  }

  // ---------------------------------------------------------------------------------------------
  // The code as written: `CURRENCIES.add` is called on the registry, which has no such method.

  /** Resolution as written: the stand-in is built, then `CURRENCIES.add(currency)` ends the call
      with an AttributeError, because the registry declares `register` and no `add`. */
  function ResolveAsWritten(e: Element, id: string, index: Index): (r: Result<Currency>)
    ensures LookupIn(index, KStr(id)).Ok? ==> r == LookupIn(index, KStr(id))
    ensures LookupIn(index, KStr(id)).Err? ==> r.Err?
    ensures LookupIn(index, KStr(id)).Err? && StandIn(e, id).Ok? ==> r == Err(AttributeError)
  {
    match LookupIn(index, KStr(id))
    case Ok(c) => Ok(c)
    case Err(_) =>
      match StandIn(e, id)
      case Err(err) => Err(err)
      case Ok(_) => Err(AttributeError)
  }

  function RateRowAsWritten(e: Element, received: DateTime, localeEn: bool, index: Index): (r: Result<ExchangeRate>)
    ensures RowPrelude(e).Err? ==> r == Err(RowPrelude(e).error)
    ensures r.Ok? ==> && RowPrelude(e).Ok?
                      && LookupIn(index, KStr(RowPrelude(e).value.id)) == Ok(r.value.currency)
                      && r.value.par == RowPrelude(e).value.par && r.value.value == RowPrelude(e).value.value
  {
    var p :- RowPrelude(e);
    var c :- ResolveAsWritten(e, p.id, index);
    MakeRate(received, c, localeEn, p.value, p.par)
  }

  function RatesFromAsWritten(rows: seq<Element>, i: nat, received: DateTime, localeEn: bool, acc: Rates, index: Index): (r: Result<Parsed>)
    requires i <= |rows|
    ensures r.Ok? ==> r.value.date == received
    decreases |rows| - i
  {
    if i == |rows| then Ok(Parsed(received, acc))
    else
      var x :- RateRowAsWritten(rows[i], received, localeEn, index);
      RatesFromAsWritten(rows, i + 1, received, localeEn, acc[IdentOf(x.currency) := x], index)
  }

  /** `_parse` as written; the index never changes. */
  function ParseRatesAsWritten(doc: Document, localeEn: bool, index: Index): (r: Result<Parsed>)
    ensures ReceivedDate(doc).Err? ==> r == Err(ReceivedDate(doc).error)
    ensures r.Ok? ==> ReceivedDate(doc).Ok? && r.value.date == ReceivedDate(doc).value
  {
    var received :- ReceivedDate(doc);
    RatesFromAsWritten(doc.children, 0, received, localeEn, map[], index)
  }

  /** A row whose currency the registry does not know, and which is otherwise complete, ends the
      parse as written in an AttributeError; the corrected parse registers it instead, after which
      its id resolves. */
  lemma UnknownCurrencyAsWritten(e: Element, received: DateTime, localeEn: bool, index: Index)
    requires RowPrelude(e).Ok? && LookupIn(index, KStr(e.attrib["ID"])).Err?
    requires StandIn(e, e.attrib["ID"]).Ok? && |e.attrib["ID"]| >= 3
    ensures RateRowAsWritten(e, received, localeEn, index) == Err(AttributeError)
    ensures ParseRatesAsWritten(Document(map["Date" := "25.06.2016"], [e]), localeEn, index) == Err(AttributeError)
    ensures var o := RateRow(e, received, localeEn, index);
      && o.index == index + Pack(StandIn(e, e.attrib["ID"]).value)
      && LookupIn(o.index, KStr(e.attrib["ID"])).Ok?
  {
    var doc := Document(map["Date" := "25.06.2016"], [e]);
    ParseDMYExample();
  }

  /** Wherever the code as written succeeds, the corrected parse gives the same table and
      registers nothing. */
  lemma {:induction false} AsWrittenAgreesWhenKnown(rows: seq<Element>, i: nat, received: DateTime, localeEn: bool, acc: Rates, index: Index)
    requires i <= |rows|
    requires RatesFromAsWritten(rows, i, received, localeEn, acc, index).Ok?
    ensures RatesFrom(rows, i, received, localeEn, acc, index)
            == ParseOutcome(RatesFromAsWritten(rows, i, received, localeEn, acc, index), index)
    decreases |rows| - i
  {
    if i < |rows| {
      var x := RateRowAsWritten(rows[i], received, localeEn, index).value;
      assert RateRow(rows[i], received, localeEn, index) == RowOutcome(Ok(x), index);
      AsWrittenAgreesWhenKnown(rows, i + 1, received, localeEn, acc[IdentOf(x.currency) := x], index);
    }
  }

  // ---------------------------------------------------------------------------------------------
  // Lookup of a rate.

  /** `__getitem__` as written: a currency the registry does not know gives `None`, but a known
      currency absent from the table raises KeyError, since the surrounding `except` names
      ExchangeRateNotFound, which a dict lookup never raises. */
  function GetAsWritten(rates: Rates, index: Index, item: Key): (r: Result<Option<ExchangeRate>>)
    ensures LookupIn(index, item).Err? ==> r == Ok(None)
    ensures LookupIn(index, item).Ok? && IdentOf(LookupIn(index, item).value) !in rates ==> r == Err(KeyError)
    ensures r.Ok? && r.value.Some? ==> LookupIn(index, item).Ok? && r.value.value == rates[IdentOf(LookupIn(index, item).value)]
  {
    match LookupIn(index, item)
    case Err(_) => Ok(None)
    case Ok(c) => if IdentOf(c) in rates then Ok(Some(rates[IdentOf(c)])) else Err(KeyError)
  }

  /** `__getitem__` as intended: `None` for a currency the registry does not know or the table
      does not list, and the table's rate otherwise. */
  function TryGet(rates: Rates, index: Index, item: Key): (r: Option<ExchangeRate>)
    ensures r.Some? <==> LookupIn(index, item).Ok? && IdentOf(LookupIn(index, item).value) in rates
    ensures r.Some? ==> r.value == rates[IdentOf(LookupIn(index, item).value)]
  {
    match LookupIn(index, item)
    case Err(_) => None
    case Ok(c) => if IdentOf(c) in rates then Some(rates[IdentOf(c)]) else None
  }

  /** A well-formed table's rate, found by any key of its currency, is that currency's rate. */
  lemma TryGetFindsRate(rates: Rates, index: Index, date: DateTime, localeEn: bool, c: Currency, item: Key)
    requires WellFormedRates(rates, date, localeEn)
    requires LookupIn(index, item) == Ok(c) && IdentOf(c) in rates
    ensures TryGet(rates, index, item).Some?
    ensures var x := TryGet(rates, index, item).value;
      Same(x.currency, c) && x.onDate == date && x.rate == x.value / x.par
  {
  }

  /** The two agree wherever the code as written returns, and differ exactly where it raises. */
  lemma GetAsWrittenVersusTryGet(rates: Rates, index: Index, item: Key)
    ensures GetAsWritten(rates, index, item).Ok? ==> GetAsWritten(rates, index, item).value == TryGet(rates, index, item)
    ensures GetAsWritten(rates, index, item).Err? <==> LookupIn(index, item).Ok? && TryGet(rates, index, item).None?
  {
  }

  /** The discrepancy on a concrete registry: the dollar is known but today's table is empty. */
  lemma KnownCurrencyMissingFromTable()
    ensures var usd := Currency("R01235", "US Dollar", "Доллар США", "840", "USD", 1.0);
      && GetAsWritten(map[], Pack(usd), KStr("USD")) == Err(KeyError)
      && TryGet(map[], Pack(usd), KStr("USD")) == None
  {
    var usd := Currency("R01235", "US Dollar", "Доллар США", "840", "USD", 1.0);
    assert Lower("USD") == "usd";
    assert FormatNumCode(KStr("USD")) == "USD";
    assert "usd" in Pack(usd);
  }

  // ---------------------------------------------------------------------------------------------
  // The object.

  /** `ExchangeRates`: the rates of one date. */
  class ExchangeRates {
    var dateRequested: DateTime
    var dateReceived: DateTime
    var rates: Rates
    var datesMatch: bool

    constructor (requested: DateTime, parsed: Parsed)
      ensures dateRequested == requested && dateReceived == parsed.date && rates == parsed.rates
      ensures datesMatch == (requested == parsed.date)
    {
      dateRequested := requested;
      dateReceived := parsed.date;
      rates := parsed.rates;
      datesMatch := requested == parsed.date;
    }

    /** `__getitem__`, corrected (see `TryGet`). */
    function Get(registry: RatesCurrencies.Currencies, item: Key): (r: Option<ExchangeRate>)
      reads this, registry
      ensures r == TryGet(rates, registry.currencies, item)
    {
      TryGet(rates, registry.currencies, item)
    }

    /** `__len__` */
    function Len(): (n: nat)
      reads this
      ensures n == |rates|
    {
      |rates|
    }
  }

  /** `ExchangeRates(on_date, locale_en)`: the requested date is worked out first, then `doc` (the
      decoded response to `DailyRequest` for that date) is parsed against the registry. */
  method Open(onDate: DateArg, localeEn: bool, today: Date, doc: Document, registry: RatesCurrencies.Currencies)
    returns (r: Result<ExchangeRates>)
    modifies registry
    ensures RequestedDate(onDate, today).Err? ==>
              r == Err(RequestedDate(onDate, today).error) && registry.currencies == old(registry.currencies)
    ensures RequestedDate(onDate, today).Ok? ==>
              var o := ParseRates(doc, localeEn, old(registry.currencies));
              && registry.currencies == o.index
              && (r.Ok? <==> o.result.Ok?)
              && (r.Err? ==> r.error == o.result.error)
              && (r.Ok? ==> && fresh(r.value)
                            && r.value.dateRequested == RequestedDate(onDate, today).value
                            && r.value.dateReceived == o.result.value.date
                            && r.value.rates == o.result.value.rates
                            && r.value.datesMatch == (r.value.dateRequested == r.value.dateReceived))
    ensures registry.updated == old(registry.updated)
  {
    var requested := RequestedDate(onDate, today);
    if requested.Err? {
      return Err(requested.error);
    }
    var parsed := Parse(doc, localeEn, registry);
    if parsed.Err? {
      return Err(parsed.error);
    }
    var rates := new ExchangeRates(requested.value, parsed.value);
    return Ok(rates);
  }

  /** Rates asked for on a Sunday are those the server dates on the Saturday before, so the dates
      do not match: `ExchangeRates('2016-06-26')` receives `25.06.2016`. */
  lemma WeekendDatesDoNotMatch(today: Date)
    ensures RequestedDate(DStr("2016-06-26"), today) == Ok(AtMidnight(Ymd(2016, 6, 26)))
    ensures ReceivedDate(Document(map["Date" := "25.06.2016"], [])) == Ok(AtMidnight(Ymd(2016, 6, 25)))
    ensures AtMidnight(Ymd(2016, 6, 26)) != AtMidnight(Ymd(2016, 6, 25))
  {
    ParseISOExample();
    ParseDMYExample();
  }
}
