/** The currency record and the index both registry revisions keep (pycbrf/currencies.py and
    pycbrf/rates/currencies.py): the three-key pack of one currency, the lookup by id, ISO code or
    ISO number, and the fold that parses the feeds. The two revisions read a record's fields in a
    different order; `ParseRecordOrderIrrelevant` shows the outcome is the same. */
module CurrencyCore {
  import opened Base
  import opened Text
  import opened Xml
  import opened Utils

  /** A `Currency` record. `num` and `code` are `""` where the feed carries no ISO attribute
      (the source stores `None` or the element's missing text; both are falsy). */
  datatype Currency = Currency(id: string, nameEng: string, nameRu: string, num: string, code: string, par: real)

  /** What `__eq__` and `__hash__` look at: two records with the same id, number and code are the
      same currency, whatever their names and nominal. */
  datatype Ident = Ident(id: string, num: string, code: string)

  function IdentOf(c: Currency): Ident
  {
    Ident(c.id, c.num, c.code)
  }

  /** `Currency.__eq__` */
  predicate Same(a: Currency, b: Currency)
  {
    IdentOf(a) == IdentOf(b)
  }

  /** Equality looks at the id, the number and the code only, and the hash is a function of the
      same triple, so equal currencies hash alike. */
  lemma SameIsIdentity(a: Currency, b: Currency)
    ensures Same(a, b) <==> a.id == b.id && a.num == b.num && a.code == b.code
    ensures Same(a, b) <==> IdentOf(a) == IdentOf(b)
  {
  }

  /** Two records that differ only in their names and nominal are the same currency. */
  lemma SameIgnoresNamesAndPar(a: Currency, nameEng: string, nameRu: string, par: real)
    ensures Same(a, a.(nameEng := nameEng, nameRu := nameRu, par := par))
  {
  }

  /** The registry's index: lowered ids and codes, and three-digit numbers, to currencies. */
  type Index = map<string, Currency>

  /** `_make_currency_pack` / `_index_currency`: the lowered id always, the lowered code and the
      number only when they are non-empty; every key maps to the currency itself. */
  function Pack(c: Currency): (m: Index)
    ensures forall k :: k in m <==> (k == Lower(c.id) || (c.code != "" && k == Lower(c.code)) || (c.num != "" && k == c.num))
    ensures forall k :: k in m ==> m[k] == c
    ensures 1 <= |m| <= 3
  {
    var m := map[Lower(c.id) := c];
    var m := if c.code != "" then m[Lower(c.code) := c] else m;
    var m := if c.num != "" then m[c.num := c] else m;
    assert m.Keys <= {Lower(c.id), Lower(c.code), c.num};
    assert |{Lower(c.id), Lower(c.code), c.num}| <= 3;
    PackSize(m.Keys, {Lower(c.id), Lower(c.code), c.num});
    m
  }

  lemma PackSize(a: set<string>, b: set<string>)
    requires a <= b
    ensures |a| <= |b|
  {
    assert b == a + (b - a);
  }

  /** Every key of the currency's pack is present in the index and leads to it. */
  predicate Indexed(index: Index, c: Currency)
  {
    forall k :: k in Pack(c) ==> k in index && index[k] == c
  }

  /** The message `__getitem__` gives for a falsy argument: `f'Currency "{value}" not found.'`. */
  function NotFoundMessage(value: Key): string
  {
    "Currency \"" + PyStr(value) + "\" not found."
  }

  /** `Currencies.__getitem__`: a falsy argument is refused with an explicit message; any other is
      formatted as a numeric code, lowered and looked up, and a miss is refused with the default
      message. */
  function LookupIn(index: Index, value: Key): (r: Result<Currency>)
    ensures !Truthy(value) ==> r == Err(CurrencyNotFound(Some(NotFoundMessage(value))))
    ensures Truthy(value) && r.Err? ==> r.error == CurrencyNotFound(None)
    ensures Truthy(value) ==> (r.Ok? <==> Lower(FormatNumCode(value)) in index)
    ensures r.Ok? ==> r.value == index[Lower(FormatNumCode(value))]
  {
    if !Truthy(value) then Err(CurrencyNotFound(Some(NotFoundMessage(value))))
    else
      var item := Lower(FormatNumCode(value));
      if item in index then Ok(index[item]) else Err(CurrencyNotFound(None))
  }

  /** The messages for the falsy arguments `None` and `''`. */
  lemma LookupFalsyMessages(index: Index)
    ensures LookupIn(index, KNone) == Err(CurrencyNotFound(Some("Currency \"None\" not found.")))
    ensures LookupIn(index, KStr("")) == Err(CurrencyNotFound(Some("Currency \"\" not found.")))
    ensures LookupIn(index, KInt(0)).Err?
  {
    assert NatToString(0) == "0";
    assert NotFoundMessage(KStr("")) == "Currency \"\" not found.";
    assert NotFoundMessage(KNone) == "Currency \"None\" not found.";
  }

  /** A text of at least three characters whose lowered form is a key finds that key's currency. */
  lemma LookupByIndexKey(index: Index, s: string)
    requires |s| >= 3 && Lower(s) in index
    ensures LookupIn(index, KStr(s)) == Ok(index[Lower(s)])
  {
  }

  /** An indexed currency is found by its id in any letter case (ids are at least three
      characters long, so formatting leaves them alone). */
  lemma LookupById(index: Index, c: Currency, s: string)
    requires Indexed(index, c)
    requires |s| >= 3 && Lower(s) == Lower(c.id)
    ensures LookupIn(index, KStr(s)) == Ok(c)
  {
    assert Lower(c.id) in Pack(c);
  }

  /** An indexed currency is found by its alphabetic code in any letter case. */
  lemma LookupByCode(index: Index, c: Currency, s: string)
    requires Indexed(index, c) && c.code != ""
    requires |s| >= 3 && Lower(s) == Lower(c.code)
    ensures LookupIn(index, KStr(s)) == Ok(c)
  {
    assert Lower(c.code) in Pack(c);
  }

  /** An indexed currency with a three-digit number is found by any digit string of at most three
      digits that denotes that number, padded or not. */
  lemma LookupByNumText(index: Index, c: Currency, s: string)
    requires Indexed(index, c)
    requires IsDigitString(c.num) && |c.num| == 3
    requires IsDigitString(s) && |s| <= 3 && DigitsValue(s) == DigitsValue(c.num)
    ensures LookupIn(index, KStr(s)) == Ok(c)
  {
    FormatNumCodeKeepsValue(KStr(s));
    DigitsInjective(FormatNumCode(KStr(s)), c.num);
    LowerKeepsDigits(c.num);
    assert c.num in Pack(c);
  }

  /** ... and by the int that number denotes. */
  lemma LookupByNumInt(index: Index, c: Currency, n: int)
    requires Indexed(index, c)
    requires IsDigitString(c.num) && |c.num| == 3
    requires 0 < n && DigitsValue(c.num) == n
    ensures LookupIn(index, KInt(n)) == Ok(c)
  {
    DigitsValueBound(c.num);
    FormatNumCodeAgrees(n, c.num);
    LowerKeepsDigits(c.num);
    assert FormatNumCode(KStr(c.num)) == c.num;
    assert c.num in Pack(c);
  }

  /** The Australian dollar of the library's documentation. */
  const AustralianDollar := Currency("R01010", "Australian Dollar", "Австралийский доллар", "036", "AUD", 1.0)

  /** ... is found by its id and its code in either case, ... */
  lemma LookupAustralianDollarByName(index: Index)
    requires Indexed(index, AustralianDollar)
    ensures LookupIn(index, KStr("R01010")) == Ok(AustralianDollar)
    ensures LookupIn(index, KStr("r01010")) == Ok(AustralianDollar)
    ensures LookupIn(index, KStr("AUD")) == Ok(AustralianDollar)
    ensures LookupIn(index, KStr("aud")) == Ok(AustralianDollar)
  {
    LookupById(index, AustralianDollar, "R01010");
    LookupById(index, AustralianDollar, "r01010");
    LookupByCode(index, AustralianDollar, "AUD");
    LookupByCode(index, AustralianDollar, "aud");
  }

  /** ... and by its number, padded or not, as text or as an int. */
  lemma LookupAustralianDollarByNumber(index: Index)
    requires Indexed(index, AustralianDollar)
    ensures LookupIn(index, KStr("036")) == Ok(AustralianDollar)
    ensures LookupIn(index, KStr("36")) == Ok(AustralianDollar)
    ensures LookupIn(index, KInt(36)) == Ok(AustralianDollar)
  {
    assert DigitsValue("036") == 36 by {
      assert "036"[..2] == "03" && "03"[..1] == "0" && "0"[..0] == [];
    }
    assert DigitsValue("36") == 36 by {
      assert "36"[..1] == "3" && "3"[..0] == [];
    }
    LookupByNumText(index, AustralianDollar, "036");
    LookupByNumText(index, AustralianDollar, "36");
    LookupByNumInt(index, AustralianDollar, 36);
  }

  /** Merging a currency's pack indexes it and leaves every other key as it was. */
  lemma MergePack(index: Index, c: Currency)
    ensures Indexed(index + Pack(c), c)
    ensures forall k :: k !in Pack(c) ==> (k in index + Pack(c) <==> k in index)
    ensures forall k :: k in index && k !in Pack(c) ==> (index + Pack(c))[k] == index[k]
  {
  }

  /** `_get_data`: the full daily list, then the monthly list (`d=1`), both from `XML_valFull.asp`. */
  function FeedRequests(urlBase: string): (r: seq<Request>)
    ensures |r| == 2 && r[0].url == r[1].url == urlBase + "XML_valFull.asp"
    ensures r[0].params == map[] && r[1].params == map["d" := "1"]
  {
    [Request(urlBase + "XML_valFull.asp", map[]), Request(urlBase + "XML_valFull.asp", map["d" := "1"])]
  }

  /** One child of a feed's root: the `Currency` built from its `ID` attribute and its child texts.
      `ISO_Num_Code` is zero-padded to three characters when it is non-empty. Every missing
      attribute or child is a KeyError; `Nominal` goes through `Decimal`. */
  function ParseRecord(e: Element): (r: Result<Currency>)
    ensures r.Ok? ==> "ID" in e.attrib && r.value.id == e.attrib["ID"]
    ensures r.Ok? ==> "EngName" in e.props && "Name" in e.props && "ISO_Char_Code" in e.props
                      && "ISO_Num_Code" in e.props && "Nominal" in e.props
    ensures r.Ok? ==> r.value.nameEng == e.props["EngName"] && r.value.nameRu == e.props["Name"]
                      && r.value.code == e.props["ISO_Char_Code"]
                      && ParseDecimal(e.props["Nominal"]) == Ok(r.value.par)
    ensures r.Ok? ==> (r.value.num == "" <==> e.props["ISO_Num_Code"] == "")
    ensures r.Ok? && r.value.num != "" ==> r.value.num == FormatNumCode(KStr(e.props["ISO_Num_Code"]))
    ensures r.Err? ==> r.error == KeyError || r.error == DecimalError
  {
    var id :- Attr(e, "ID");
    var nameEng :- Prop(e, "EngName");
    var nameRu :- Prop(e, "Name");
    var code :- Prop(e, "ISO_Char_Code");
    var rawNum :- Prop(e, "ISO_Num_Code");
    var nominal :- Prop(e, "Nominal");
    var par :- ParseDecimal(nominal);
    Ok(Currency(id, nameEng, nameRu, if rawNum != "" then FormatNumCode(KStr(rawNum)) else "", code, par))
  }

  /** A record as the second revision reads it: `ISO_Num_Code` first, then the other fields in the
      order of `ParseRecord`. */
  function ParseRecordNumFirst(e: Element): Result<Currency>
  {
    var rawNum :- Prop(e, "ISO_Num_Code");
    var id :- Attr(e, "ID");
    var nameEng :- Prop(e, "EngName");
    var nameRu :- Prop(e, "Name");
    var code :- Prop(e, "ISO_Char_Code");
    var nominal :- Prop(e, "Nominal");
    var par :- ParseDecimal(nominal);
    Ok(Currency(id, nameEng, nameRu, if rawNum != "" then FormatNumCode(KStr(rawNum)) else "", code, par))
  }

  /** The two revisions read the fields in different orders, with the same outcome: every missing
      field is the same KeyError, and `Nominal` is converted last in both. */
  lemma ParseRecordOrderIrrelevant(e: Element)
    ensures ParseRecordNumFirst(e) == ParseRecord(e)
  {
  }

  /** A feed's non-empty `ISO_Num_Code` of up to three digits is stored as a three-digit number
      with the same value. */
  lemma ParsedNumIsThreeDigits(e: Element)
    requires ParseRecord(e).Ok?
    requires IsDigitString(e.props["ISO_Num_Code"]) && |e.props["ISO_Num_Code"]| <= 3
    ensures var num := ParseRecord(e).value.num;
      IsDigitString(num) && |num| == 3 && DigitsValue(num) == DigitsValue(e.props["ISO_Num_Code"])
  {
    FormatNumCodeKeepsValue(KStr(e.props["ISO_Num_Code"]));
  }

  /** The children of every feed, in order. */
  function Flatten(feeds: seq<seq<Element>>): (r: seq<Element>)
    ensures |feeds| > 0 ==> r == feeds[0] + Flatten(feeds[1..])
  {
    if feeds == [] then [] else feeds[0] + Flatten(feeds[1..])
  }

  /** Merge the packs of `records`, in order, into `acc`; the first record that fails to parse
      ends the fold with its error. */
  function IndexRecords(records: seq<Element>, acc: Index): (r: Result<Index>)
    ensures r.Ok? ==> acc.Keys <= r.value.Keys
    ensures r.Err? ==> exists i :: 0 <= i < |records| && ParseRecord(records[i]) == Err(r.error)
  {
    if records == [] then Ok(acc)
    else
      var c :- ParseRecord(records[0]);
      IndexRecords(records[1..], acc + Pack(c))
  }

  /** `_parse`: the index built from every child of every feed. */
  function ParsedIndex(feeds: seq<seq<Element>>): Result<Index>
  {
    IndexRecords(Flatten(feeds), map[])
  }

  predicate AllParse(records: seq<Element>)
  {
    forall i :: 0 <= i < |records| ==> ParseRecord(records[i]).Ok?
  }

  lemma AllParseCons(records: seq<Element>)
    requires records != []
    ensures AllParse(records) <==> ParseRecord(records[0]).Ok? && AllParse(records[1..])
  {
    var rest := records[1..];
    if ParseRecord(records[0]).Ok? && AllParse(rest) {
      forall i | 0 <= i < |records|
        ensures ParseRecord(records[i]).Ok?
      {
        if i > 0 {
          assert records[i] == rest[i - 1];
        }
      }
    }
    if AllParse(records) {
      forall i | 0 <= i < |rest|
        ensures ParseRecord(rest[i]).Ok?
      {
        assert rest[i] == records[i + 1];
      }
    }
  }

  /** The fold succeeds exactly when every record parses. */
  lemma {:induction false} IndexRecordsSucceeds(records: seq<Element>, acc: Index)
    ensures IndexRecords(records, acc).Ok? <==> AllParse(records)
    decreases |records|
  {
    if records != [] {
      AllParseCons(records);
      var head := ParseRecord(records[0]);
      if head.Ok? {
        IndexRecordsSucceeds(records[1..], acc + Pack(head.value));
      }
    }
  }

  /** One more record after a fold: the fold's error stays, else the record's error, else its
      pack is merged over the index so far. */
  function Then(prefix: Result<Index>, x: Element): Result<Index>
  {
    var m :- prefix;
    var c :- ParseRecord(x);
    Ok(m + Pack(c))
  }

  /** Folding one more record at the end. */
  lemma {:induction false} IndexRecordsSnoc(records: seq<Element>, x: Element, acc: Index)
    ensures IndexRecords(records + [x], acc) == Then(IndexRecords(records, acc), x)
    decreases |records|
  {
    var all := records + [x];
    if records == [] {
      assert all[1..] == [];
    } else {
      assert all[0] == records[0];
      assert all[1..] == records[1..] + [x];
      var c := ParseRecord(records[0]);
      if c.Ok? {
        IndexRecordsSnoc(records[1..], x, acc + Pack(c.value));
      }
    }
  }

  /** A key maps to the last currency that packs it: a later record overwrites an earlier one
      under every key of its pack, and the keys it does not pack keep their currency. */
  lemma LaterRecordOverwrites(records: seq<Element>, x: Element, acc: Index)
    requires IndexRecords(records + [x], acc).Ok?
    ensures IndexRecords(records, acc).Ok? && ParseRecord(x).Ok?
    ensures var before := IndexRecords(records, acc).value;
            var after := IndexRecords(records + [x], acc).value;
            && Indexed(after, ParseRecord(x).value)
            && after.Keys == before.Keys + Pack(ParseRecord(x).value).Keys
            && forall k :: k in before && k !in Pack(ParseRecord(x).value) ==> after[k] == before[k]
  {
    IndexRecordsSnoc(records, x, acc);
  }

  /** Folding the rest of a feed, then the feeds after it, one record at a time. */
  lemma IndexRecordsNext(root: seq<Element>, j: int, later: seq<Element>, acc: Index)
    requires 0 <= j < |root|
    ensures ParseRecord(root[j]).Err? ==> IndexRecords(root[j..] + later, acc) == Err(ParseRecord(root[j]).error)
    ensures ParseRecord(root[j]).Ok? ==>
              IndexRecords(root[j..] + later, acc) == IndexRecords(root[j + 1..] + later, acc + Pack(ParseRecord(root[j]).value))
  {
    var records := root[j..] + later;
    assert records[0] == root[j];
    assert records[1..] == root[j + 1..] + later;
  }

  /** `_parse` as the source runs it: loop over the feeds and over each feed's children, merging
      every record's pack into the index. */
  method Parse(feeds: seq<seq<Element>>) returns (r: Result<Index>)
    ensures r == ParsedIndex(feeds)
  {
    var currencies: Index := map[];
    var i := 0;
    while i < |feeds|
      invariant 0 <= i <= |feeds|
      invariant ParsedIndex(feeds) == IndexRecords(Flatten(feeds[i..]), currencies)
    {
      var root := feeds[i];
      assert feeds[i..][1..] == feeds[i + 1..];
      assert root[0..] == root;
      var j := 0;
      while j < |root|
        invariant 0 <= j <= |root|
        invariant ParsedIndex(feeds) == IndexRecords(root[j..] + Flatten(feeds[i + 1..]), currencies)
      {
        IndexRecordsNext(root, j, Flatten(feeds[i + 1..]), currencies);
        var record := ParseRecord(root[j]);
        if record.Err? {
          return Err(record.error);
        }
        currencies := currencies + Pack(record.value);
        j := j + 1;
      }
      assert root[j..] + Flatten(feeds[i + 1..]) == Flatten(feeds[i + 1..]);
      i := i + 1;
    }
    return Ok(currencies);
  }
}
