/** pycbrf/rates.py: the first revision's daily table, a list of flat rate records looked up by
    the shape of the key. */
module LegacyRates {
  import opened Base
  import opened Text
  import opened Dates
  import opened Xml
  import opened Utils
  import opened Indexing

  /** `URL_BASE` */
  const UrlBase := "http://www.cbr.ru/scripts/"

  /** The `ExchangeRate` namedtuple: every field as the row writes it, and `rate = value / par`. */
  datatype LegacyRate = LegacyRate(id: string, name: string, code: string, num: string, value: real, par: real, rate: real)

  /** One row of the table, its fields read in the order the source evaluates them. */
  function LegacyRow(e: Element): (r: Result<LegacyRate>)
    ensures r.Ok? ==> && RowPrelude(e).Ok?
                      && r.value.id == RowPrelude(e).value.id
                      && r.value.par == RowPrelude(e).value.par
                      && r.value.value == RowPrelude(e).value.value
                      && r.value.par != 0.0 && r.value.rate == r.value.value / r.value.par
    ensures r.Ok? ==> && "Name" in e.props && r.value.name == e.props["Name"]
                      && "CharCode" in e.props && r.value.code == e.props["CharCode"]
                      && "NumCode" in e.props && r.value.num == e.props["NumCode"]
  {
    var p :- RowPrelude(e);
    var name :- Prop(e, "Name");
    var code :- Prop(e, "CharCode");
    var num :- Prop(e, "NumCode");
    var rate :- DecimalDivide(p.value, p.par);
    Ok(LegacyRate(p.id, name, code, num, p.value, p.par, rate))
  }

  /** What `_parse` returns. */
  datatype LegacyParsed = LegacyParsed(date: DateTime, rates: seq<LegacyRate>)

  /** `_parse`: the table's date, then one record per row, appended in the order of the rows. The
      first row that fails ends the parse with its error. */
  method Parse(doc: Document) returns (r: Result<LegacyParsed>)
    ensures ReceivedDate(doc).Err? ==> r == Err(ReceivedDate(doc).error)
    ensures ReceivedDate(doc).Ok? ==>
              (r.Ok? <==> forall j :: 0 <= j < |doc.children| ==> LegacyRow(doc.children[j]).Ok?)
    ensures r.Ok? ==> && r.value.date == ReceivedDate(doc).value
                      && |r.value.rates| == |doc.children|
                      && forall j :: 0 <= j < |doc.children| ==> LegacyRow(doc.children[j]) == Ok(r.value.rates[j])
    ensures r.Err? && ReceivedDate(doc).Ok? ==>
              exists j :: && 0 <= j < |doc.children|
                          && LegacyRow(doc.children[j]) == Err(r.error)
                          && forall k :: 0 <= k < j ==> LegacyRow(doc.children[k]).Ok?
  {
    var received := ReceivedDate(doc);
    if received.Err? {
      return Err(received.error);
    }
    var rows := doc.children;
    ghost var results := RowResults(rows);
    var rates: seq<LegacyRate> := [];
    var i := 0;
    while i < |rows|
      invariant i == |rates| && OkPrefix(results, rates)
    {
      var entry := LegacyRow(rows[i]);
      assert results[i] == entry;
      if entry.Err? {
        RowResultsPrefix(rows, rates);
        return Err(entry.error);
      }
      OkPrefixStep(results, rates);
      rates := rates + [entry.value];
      i := i + 1;
    }
    RowResultsPrefix(rows, rates);
    return Ok(LegacyParsed(received.value, rates));
  }

  /** The outcome of every row, in the order of the rows. */
  function RowResults(rows: seq<Element>): seq<Result<LegacyRate>>
  {
    seq(|rows|, j requires 0 <= j < |rows| => LegacyRow(rows[j]))
  }

  /** The rows that have succeeded gave `rates`. */
  lemma RowResultsPrefix(rows: seq<Element>, rates: seq<LegacyRate>)
    requires OkPrefix(RowResults(rows), rates)
    ensures forall k :: 0 <= k < |rates| ==> LegacyRow(rows[k]) == Ok(rates[k])
  {
    var results := RowResults(rows);
    forall k | 0 <= k < |rates|
      ensures LegacyRow(rows[k]) == Ok(rates[k])
    {
      assert results[k] == Ok(rates[k]);
    }
  }

  /** The field a lookup goes by: `num` for a string of digits, `code` for a string of letters, and
      `id` for anything else. */
  datatype Field = ByNum | ByCode | ById

  function FieldFor(item: string): (f: Field)
    ensures f == ByNum <==> IsDigitString(item)
    ensures f == ByCode <==> !IsDigitString(item) && IsAlphaString(item)
  {
    if IsDigitString(item) then ByNum else if IsAlphaString(item) then ByCode else ById
  }

  /** `getattr(rate, key)` */
  function FieldOf(x: LegacyRate, f: Field): string
  {
    match f
    case ByNum => x.num
    case ByCode => x.code
    case ById => x.id
  }

  function KeyOf(f: Field): LegacyRate -> string
  {
    x => FieldOf(x, f)
  }

  /** `__getitem__`: the rates indexed by the chosen field (a later rate overwrites an earlier one
      with the same value), then `indexed[item]`. The item is compared as written, without any
      case folding or padding. */
  function Get(rates: seq<LegacyRate>, item: string): (r: Result<LegacyRate>)
    ensures r.Ok? <==> exists i :: 0 <= i < |rates| && FieldOf(rates[i], FieldFor(item)) == item
    ensures r.Ok? ==> exists i :: LastWith(rates, KeyOf(FieldFor(item)), item, i) && r.value == rates[i]
    ensures r.Err? ==> r.error == KeyError
  {
    var key := KeyOf(FieldFor(item));
    IndexByLastWins(rates, key, item);
    var indexed := IndexBy(rates, key);
    if item in indexed then Ok(indexed[item]) else Err(KeyError)
  }

  /** The dollar's row, found by each of its three keys as the documentation shows. */
  lemma GetDollar(x: LegacyRate)
    requires x.id == "R01235" && x.code == "USD" && x.num == "840"
    ensures Get([x], "USD") == Ok(x) && Get([x], "R01235") == Ok(x) && Get([x], "840") == Ok(x)
    ensures Get([x], "usd").Err? && Get([x], "36").Err?
  {
    assert !IsDigitString("USD") && IsAlphaString("USD") by { assert !IsDigit("USD"[0]); }
    assert !IsDigitString("usd") && IsAlphaString("usd") by { assert !IsDigit("usd"[0]); }
    assert !IsDigitString("R01235") && !IsAlphaString("R01235") by {
      assert !IsDigit("R01235"[0]) && !IsLetter("R01235"[1]);
    }
    assert IsDigitString("840") && IsDigitString("36");
    assert [x][0] == x;
  }

  /** `date_requested` may be a `date` or a `datetime`, as the caller passed it. */
  datatype Moment = MDate(d: Date) | MDateTime(t: DateTime)

  function MomentDate(m: Moment): Date
  {
    match m
    case MDate(d) => d
    case MDateTime(t) => t.date
  }

  /** `__init__`'s first step: only a str is converted (to a `datetime` at 00:00); `None`, a
      `date` and a `datetime` are kept as they are. */
  function Requested(onDate: DateArg): (r: Result<Option<Moment>>)
    ensures onDate.DNone? ==> r == Ok(None)
    ensures onDate.DDate? ==> r == Ok(Some(MDate(onDate.d)))
    ensures onDate.DDateTime? ==> r == Ok(Some(MDateTime(onDate.t)))
    ensures onDate.DStr? ==> (r.Ok? <==> ParseISO(onDate.s).Ok?)
    ensures onDate.DStr? && r.Ok? ==> r.value == Some(MDateTime(AtMidnight(ParseISO(onDate.s).value)))
  {
    match onDate
    case DNone => Ok(None)
    case DStr(s) => var d :- ParseISO(s); Ok(Some(MDateTime(AtMidnight(d))))
    case DDate(d) => Ok(Some(MDate(d)))
    case DDateTime(t) => Ok(Some(MDateTime(t)))
  }

  /** `_get_data`'s URL: `XML_daily.asp` or `XML_daily_eng.asp`, with `?date_req=dd/mm/yyyy` only
      when a date was given. */
  function DailyUrl(onDate: Option<Moment>, localeEn: bool): (url: string)
    ensures onDate.None? ==> url == UrlBase + (if localeEn then "XML_daily_eng.asp" else "XML_daily.asp")
    ensures onDate.Some? ==> url == UrlBase + (if localeEn then "XML_daily_eng.asp" else "XML_daily.asp")
                                    + "?date_req=" + FormatDMY(MomentDate(onDate.value), "/")
  {
    var page := "XML_daily" + (if localeEn then "_eng" else "") + ".asp";
    assert page == if localeEn then "XML_daily_eng.asp" else "XML_daily.asp";
    var url := UrlBase + page;
    if onDate.Some? then url + "?date_req=" + FormatDMY(MomentDate(onDate.value), "/") else url
  }

  /** The requested date the object reports: the received one when none was given. */
  function ReportedRequest(requested: Option<Moment>, received: DateTime): Moment
  {
    if requested.None? then MDateTime(received) else requested.value
  }

  /** `dates_match`: a `date` never equals a `datetime`, so only a `datetime` argument can match. */
  function DatesMatch(requested: Option<Moment>, received: DateTime): (m: bool)
    ensures requested.None? ==> m
    ensures requested.Some? && requested.value.MDate? ==> !m
    ensures requested.Some? && requested.value.MDateTime? ==> (m <==> requested.value.t == received)
  {
    ReportedRequest(requested, received) == MDateTime(received)
  }

  /** The first revision's `ExchangeRates`. */
  class ExchangeRates {
    var dateRequested: Moment
    var dateReceived: DateTime
    var rates: seq<LegacyRate>
    var datesMatch: bool

    constructor (requested: Option<Moment>, parsed: LegacyParsed)
      ensures dateRequested == ReportedRequest(requested, parsed.date)
      ensures dateReceived == parsed.date && rates == parsed.rates
      ensures datesMatch == DatesMatch(requested, parsed.date)
    {
      dateRequested := ReportedRequest(requested, parsed.date);
      dateReceived := parsed.date;
      rates := parsed.rates;
      datesMatch := DatesMatch(requested, parsed.date);
    }

    /** `__getitem__` (see `Get`). */
    function GetRate(item: string): (r: Result<LegacyRate>)
      reads this
      ensures r == Get(rates, item)
    {
      Get(rates, item)
    }
  }

  /** `ExchangeRates(on_date, locale_en)`: the date argument is converted first, then `doc` (the
      decoded response from `DailyUrl`) is parsed. */
  method Open(onDate: DateArg, doc: Document) returns (r: Result<ExchangeRates>)
    ensures Requested(onDate).Err? ==> r == Err(Requested(onDate).error)
    ensures r.Ok? ==> && Requested(onDate).Ok? && ReceivedDate(doc).Ok?
                      && fresh(r.value)
                      && r.value.dateRequested == ReportedRequest(Requested(onDate).value, ReceivedDate(doc).value)
                      && r.value.dateReceived == ReceivedDate(doc).value
                      && r.value.datesMatch == DatesMatch(Requested(onDate).value, ReceivedDate(doc).value)
                      && |r.value.rates| == |doc.children|
                      && forall j :: 0 <= j < |doc.children| ==> LegacyRow(doc.children[j]) == Ok(r.value.rates[j])
    ensures Requested(onDate).Ok? && ReceivedDate(doc).Ok? ==>
              (r.Ok? <==> forall j :: 0 <= j < |doc.children| ==> LegacyRow(doc.children[j]).Ok?)
  {
    var requested := Requested(onDate);
    if requested.Err? {
      return Err(requested.error);
    }
    var parsed := Parse(doc);
    if parsed.Err? {
      return Err(parsed.error);
    }
    var rates := new ExchangeRates(requested.value, parsed.value);
    return Ok(rates);
  }
}
