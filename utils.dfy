/** pycbrf/utils.py: the argument formatters shared by the registry and the rate classes, and the
    metaclass that keeps one instance per class. */
module Utils {
  import opened Base
  import opened Text
  import opened Dates
  import opened Xml

  /** A currency lookup key as callers pass it: `None`, an int or a str. */
  datatype Key = KNone | KInt(i: int) | KStr(s: string)

  /** Python truthiness of a key: `None`, `0` and `''` are false. */
  predicate Truthy(k: Key)
  {
    match k
    case KNone => false
    case KInt(i) => i != 0
    case KStr(s) => s != ""
  }

  /** `f'{k}'` */
  function PyStr(k: Key): string
  {
    match k
    case KNone => "None"
    case KInt(i) => IntToString(i)
    case KStr(s) => s
  }

  /** `FormatMixin._format_num_code`: `f'{num}'.zfill(3)`. */
  function FormatNumCode(num: Key): (r: string)
    ensures |r| == Max(3, |PyStr(num)|)
    ensures |PyStr(num)| >= 3 ==> r == PyStr(num)
    ensures var s := PyStr(num);
      |s| < 3 && !(|s| > 0 && (s[0] == '+' || s[0] == '-')) ==> r == Zeros(3 - |s|) + s
    ensures var s := PyStr(num);
      |s| < 3 && |s| > 0 && (s[0] == '+' || s[0] == '-') ==> r == [s[0]] + Zeros(3 - |s|) + s[1..]
  {
    ZFillLength(PyStr(num), 3);
    ZFill(PyStr(num), 3)
  }

  /** Formatting an already formatted code changes nothing. */
  lemma FormatNumCodeIdempotent(num: Key)
    ensures FormatNumCode(KStr(FormatNumCode(num))) == FormatNumCode(num)
  {
  }

  /** Zero-padding keeps the number a numeric code denotes. */
  lemma FormatNumCodeKeepsValue(num: Key)
    requires AllDigits(PyStr(num))
    ensures AllDigits(FormatNumCode(num))
    ensures DigitsValue(FormatNumCode(num)) == DigitsValue(PyStr(num))
  {
    var s := PyStr(num);
    if |s| < 3 {
      LeadingZerosValue(3 - |s|, s);
    }
  }

  /** A natural number below 1000 and every digit string of at most three digits that denotes it
      format to one and the same three-digit code. */
  lemma FormatNumCodeAgrees(n: nat, s: string)
    requires n < 1000
    requires IsDigitString(s) && |s| <= 3 && DigitsValue(s) == n
    ensures FormatNumCode(KInt(n)) == FormatNumCode(KStr(s))
    ensures |FormatNumCode(KStr(s))| == 3
  {
    NatToStringValue(n);
    NatToStringLength(n, 3);
    FormatNumCodeKeepsValue(KInt(n));
    FormatNumCodeKeepsValue(KStr(s));
    DigitsInjective(FormatNumCode(KInt(n)), FormatNumCode(KStr(s)));
  }

  lemma FormatNumCodeExamples()
    ensures FormatNumCode(KInt(36)) == "036"
    ensures FormatNumCode(KStr("36")) == "036"
    ensures FormatNumCode(KStr("036")) == "036"
  {
    assert NatToString(36) == "36" by {
      assert NatToString(3) == "3";
    }
  }

  /** A date argument as callers pass it: `None`, an ISO `'%Y-%m-%d'` str, a `date` or a `datetime`. */
  datatype DateArg = DNone | DStr(s: string) | DDate(d: Date) | DDateTime(t: DateTime)

  /** Python truthiness: `None` and `''` are false, every date and datetime is true. */
  predicate DateTruthy(a: DateArg)
  {
    !a.DNone? && a != DStr("")
  }

  /** `FormatMixin._datetime_from_string`. A str is parsed as `'%Y-%m-%d'`; a `date` (which a
      `datetime` also is) becomes a `datetime` at midnight of the same day. */
  function DateTimeFromString(a: DateArg): (r: Result<Option<DateTime>>)
    ensures a.DNone? <==> r == Ok(None)
    ensures r.Ok? && r.value.Some? ==> IsMidnight(r.value.value)
    ensures a.DDate? ==> r == Ok(Some(AtMidnight(a.d)))
    ensures a.DDateTime? ==> r == Ok(Some(AtMidnight(a.t.date)))
    ensures a.DStr? ==> (r.Ok? <==> ParseISO(a.s).Ok?)
    ensures a.DStr? && r.Ok? ==> r.value == Some(AtMidnight(ParseISO(a.s).value))
  {
    match a
    case DNone => Ok(None)
    case DStr(s) => var d :- ParseISO(s); Ok(Some(AtMidnight(d)))
    case DDate(d) => Ok(Some(AtMidnight(d)))
    case DDateTime(t) => Ok(Some(AtMidnight(t.date)))
  }

  /** Normalising a normalised value changes nothing. */
  lemma DateTimeFromStringIdempotent(a: DateArg, t: DateTime)
    requires DateTimeFromString(a) == Ok(Some(t))
    ensures DateTimeFromString(DDateTime(t)) == Ok(Some(t))
  {
  }

  /** The date a daily table reports: its root's `Date` attribute read as `dd.mm.yyyy`, at 00:00. */
  function ReceivedDate(doc: Document): (r: Result<DateTime>)
    ensures r.Ok? <==> "Date" in doc.attrib && ParseDMY(doc.attrib["Date"], '.').Ok?
    ensures r.Ok? ==> r.value == AtMidnight(ParseDMY(doc.attrib["Date"], '.').value)
  {
    if "Date" !in doc.attrib then Err(KeyError)
    else
      var d :- ParseDMY(doc.attrib["Date"], '.');
      Ok(AtMidnight(d))
  }

  /** What both daily tables read first from each row, in this order: `Nominal`, `Value` (with a
      decimal comma) and the `ID` attribute. */
  datatype Prelude = Prelude(par: real, value: real, id: string)

  function RowPrelude(e: Element): (r: Result<Prelude>)
    ensures r.Ok? ==> "Nominal" in e.props && ParseDecimal(e.props["Nominal"]) == Ok(r.value.par)
    ensures r.Ok? ==> "Value" in e.props && ParseDecimal(CommaToDot(e.props["Value"])) == Ok(r.value.value)
    ensures r.Ok? ==> "ID" in e.attrib && r.value.id == e.attrib["ID"]
  {
    var nominal :- Prop(e, "Nominal");
    var par :- ParseDecimal(nominal);
    var text :- Prop(e, "Value");
    var value :- ParseDecimal(CommaToDot(text));
    var id :- Attr(e, "ID");
    Ok(Prelude(par, value, id))
  }

  /** The URL and query parameters of a `WithRequests._get_response` call; the HTTP exchange itself
      is not part of this model, and callers are handed the decoded response. */
  datatype Request = Request(url: string, params: map<string, string>)

  /** `SingletonMeta`: the class-level `_instances` dict, from class name to its one instance.
      The ghost log `constructed` lists the classes whose constructor has run, in order. */
  class Singletons<T> {
    var instances: map<string, T>
    ghost var constructed: seq<string>

    ghost predicate Valid()
      reads this
    {
      && (forall i, j :: 0 <= i < j < |constructed| ==> constructed[i] != constructed[j])
      && instances.Keys == set c | c in constructed
    }

    constructor ()
      ensures Valid() && instances == map[] && constructed == []
    {
      instances := map[];
      constructed := [];
    }

    /** `SingletonMeta.__call__`: the first call for `cls` constructs and stores an instance; every
        later call returns the stored one and constructs nothing. */
    method Call(cls: string, construct: () -> T) returns (instance: T)
      requires Valid()
      modifies this
      ensures Valid()
      ensures cls in instances && instances[cls] == instance
      ensures cls in old(instances) ==>
                instance == old(instances)[cls] && instances == old(instances) && constructed == old(constructed)
      ensures cls !in old(instances) ==>
                instance == construct() && instances == old(instances)[cls := instance]
                && constructed == old(constructed) + [cls]
    {
      if cls !in instances {
        var made := construct();
        instances := instances[cls := made];
        constructed := constructed + [cls];
      }
      instance := instances[cls];
    }
  }
}
