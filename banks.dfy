/** pycbrf/banks.py: the legacy bank directory, assembled from the tables of the daily BIC archive
    (read by a DBF library, which is not part of this model) and the BIC-to-SWIFT table. */
module Banks {
  import opened Base
  import opened Text
  import opened Dates
  import opened Utils
  import opened Indexing

  /** What a DBF cell holds: nothing, text, a number or a date. */
  datatype Scalar = SNone | SStr(s: string) | SInt(i: int) | SDate(d: Date)

  /** Python truthiness of a cell: `None`, `''` and `0` are false. */
  predicate ScalarTruthy(v: Scalar)
  {
    match v
    case SNone => false
    case SStr(s) => s != ""
    case SInt(i) => i != 0
    case SDate(_) => true
  }

  /** A DBF record: its columns by (lower-case) name. */
  type Row = map<string, Scalar>

  /** `row.<name>`: a column the table does not have is an `AttributeError`. */
  function Col(row: Row, name: string): (r: Result<Scalar>)
    ensures r.Ok? <==> name in row
    ensures r.Ok? ==> r.value == row[name]
    ensures r.Err? ==> r.error == AttributeError
  {
    if name in row then Ok(row[name]) else Err(AttributeError)
  }

  /** A field of a `Bank`: a cell as read, or a whole record found in a lookup table. */
  datatype Cell = Plain(v: Scalar) | Nested(r: Row)

  /** The `Bank` namedtuple, its 27 fields in declaration order (`type` is `bankType` here). */
  datatype Bank = Bank(
    bic: Cell, name: Cell, nameFull: Cell, regionCode: Cell, region: Cell, zip: Cell, placeType: Cell,
    place: Cell, address: Cell, rkcBic: Cell, term: Cell, dateAdded: Cell, dateUpdated: Cell,
    dateChange: Cell, mfo: Cell, corr: Cell, corrBik: Cell, phone: Cell, telegraph: Cell,
    commutator: Cell, okpo: Cell, regnum: Cell, bankType: Cell, payType: Cell, controlCode: Cell,
    controlDate: Cell, swift: Cell)

  /** The namedtuple's field names, in declaration order. */
  const FieldNames: seq<string> := [
    "bic", "name", "name_full", "region_code", "region", "zip", "place_type", "place", "address",
    "rkc_bic", "term", "date_added", "date_updated", "date_change", "mfo", "corr", "corr_bik",
    "phone", "telegraph", "commutator", "okpo", "regnum", "type", "pay_type", "control_code",
    "control_date", "swift"]

  /** `bank._asdict()` */
  function AsDict(b: Bank): (d: map<string, Cell>)
    ensures "bic" in d && d["bic"] == b.bic && "type" in d && d["type"] == b.bankType
  {
    map["bic" := b.bic, "name" := b.name, "name_full" := b.nameFull, "region_code" := b.regionCode,
        "region" := b.region, "zip" := b.zip, "place_type" := b.placeType, "place" := b.place,
        "address" := b.address, "rkc_bic" := b.rkcBic, "term" := b.term, "date_added" := b.dateAdded,
        "date_updated" := b.dateUpdated, "date_change" := b.dateChange, "mfo" := b.mfo,
        "corr" := b.corr, "corr_bik" := b.corrBik, "phone" := b.phone, "telegraph" := b.telegraph,
        "commutator" := b.commutator, "okpo" := b.okpo, "regnum" := b.regnum, "type" := b.bankType,
        "pay_type" := b.payType, "control_code" := b.controlCode, "control_date" := b.controlDate,
        "swift" := b.swift]
  }

  /** The dictionary has exactly the namedtuple's fields. */
  lemma AsDictKeys(b: Bank)
    ensures AsDict(b).Keys == set f | f in FieldNames
  {
  }

  // ---------------------------------------------------------------------------------------------
  // Lookup tables.

  function KeyField(field: string): Row -> Scalar
  {
    row => if field in row then row[field] else SNone
  }

  /** `get_indexed`: `{getattr(row, field): row for row in rows}`. A row without the field is an
      `AttributeError`; otherwise a key is present exactly when some row has it, and it leads to
      the last such row. */
  function IndexRows(rows: seq<Row>, field: string): (r: Result<map<Scalar, Row>>)
    ensures r.Ok? <==> forall j :: 0 <= j < |rows| ==> field in rows[j]
    ensures r.Err? ==> r.error == AttributeError
    ensures r.Ok? ==> forall k :: k in r.value <==> exists j :: 0 <= j < |rows| && rows[j][field] == k
    ensures r.Ok? ==> forall k :: k in r.value ==>
              exists j :: LastWith(rows, KeyField(field), k, j) && r.value[k] == rows[j]
  {
    if forall j :: 0 <= j < |rows| ==> field in rows[j] then
      var key := KeyField(field);
      var m := IndexBy(rows, key);
      assert forall k :: k in m <==> exists j :: 0 <= j < |rows| && rows[j][field] == k by {
        forall k
          ensures k in m <==> exists j :: 0 <= j < |rows| && rows[j][field] == k
        {
          IndexByLastWins(rows, key, k);
        }
      }
      assert forall k :: k in m ==> exists j :: LastWith(rows, key, k, j) && m[k] == rows[j] by {
        forall k | k in m
          ensures exists j :: LastWith(rows, key, k, j) && m[k] == rows[j]
        {
          IndexByLastWins(rows, key, k);
        }
      }
      Ok(m)
    else Err(AttributeError)
  }

  const SwiftUrl := "http://www.cbr.ru/analytics/digest/bik_swift-bik.zip"

  /** `_get_data_swift`: `{item.kod_rus: item.kod_swift for item in rows}` from `bik_swif.dbf`,
      so the last row of a BIC gives its SWIFT code. */
  function SwiftIndex(rows: seq<Row>): (r: Result<map<Scalar, Scalar>>)
    ensures r.Ok? <==> forall j :: 0 <= j < |rows| ==> "kod_rus" in rows[j] && "kod_swift" in rows[j]
    ensures r.Err? ==> r.error == AttributeError
    ensures r.Ok? ==> forall k :: k in r.value <==> exists j :: 0 <= j < |rows| && rows[j]["kod_rus"] == k
    ensures r.Ok? ==> forall k :: k in r.value ==>
              exists j :: LastWith(rows, KeyField("kod_rus"), k, j) && r.value[k] == rows[j]["kod_swift"]
  {
    var byBic :- IndexRows(rows, "kod_rus");
    if forall j :: 0 <= j < |rows| ==> "kod_swift" in rows[j] then
      var m := map k | k in byBic :: byBic[k]["kod_swift"];
      Ok(m)
    else Err(AttributeError)
  }

  /** The lookup tables a row is resolved against. */
  datatype Tables = Tables(
    regions: map<Scalar, Row>, types: map<Scalar, Row>, placeTypes: map<Scalar, Row>,
    payTypes: map<Scalar, Row>, swifts: map<Scalar, Scalar>)

  /** `dict.get(key)`: a record, or `None`. */
  function Soft(table: map<Scalar, Row>, key: Scalar): (c: Cell)
    ensures key in table ==> c == Nested(table[key])
    ensures key !in table ==> c == Plain(SNone)
  {
    if key in table then Nested(table[key]) else Plain(SNone)
  }

  /** `dict[key]`: a missing key is a `KeyError`. */
  function Hard(table: map<Scalar, Row>, key: Scalar): (r: Result<Cell>)
    ensures r.Ok? <==> key in table
    ensures r.Ok? ==> r.value == Nested(table[key])
    ensures r.Err? ==> r.error == KeyError
  {
    if key in table then Ok(Nested(table[key])) else Err(KeyError)
  }

  // ---------------------------------------------------------------------------------------------
  // One bank.

  /** `int(v)`: a number is kept, a text is parsed, anything else is a `TypeError`. */
  function PyInt(v: Scalar): (r: Result<int>)
    ensures v.SInt? ==> r == Ok(v.i)
    ensures v.SStr? ==> r == ParseInt(v.s)
    ensures v.SNone? || v.SDate? ==> r == Err(TypeError)
  {
    match v
    case SInt(i) => Ok(i)
    case SStr(s) => ParseInt(s)
    case _ => Err(TypeError)
  }

  /** `','.join(telegraph)` where `telegraph` holds `at1` and then `at2`, each only when truthy; a
      part that is not text is a `TypeError`. */
  function Telegraph(at1: Scalar, at2: Scalar): (r: Result<string>)
    ensures r.Ok? <==> (ScalarTruthy(at1) ==> at1.SStr?) && (ScalarTruthy(at2) ==> at2.SStr?)
    ensures r.Err? ==> r.error == TypeError
    ensures r.Ok? && ScalarTruthy(at1) && ScalarTruthy(at2) ==> r.value == at1.s + "," + at2.s
    ensures r.Ok? && ScalarTruthy(at1) && !ScalarTruthy(at2) ==> r.value == at1.s
    ensures r.Ok? && !ScalarTruthy(at1) && ScalarTruthy(at2) ==> r.value == at2.s
    ensures r.Ok? && !ScalarTruthy(at1) && !ScalarTruthy(at2) ==> r.value == ""
  {
    if (ScalarTruthy(at1) && !at1.SStr?) || (ScalarTruthy(at2) && !at2.SStr?) then Err(TypeError)
    else
      var parts := (if ScalarTruthy(at1) then [at1.s] else []) + (if ScalarTruthy(at2) then [at2.s] else []);
      Ok(Join(",", parts))
  }

  /** A field copied from the row's column as it was read. */
  predicate Copied(row: Row, column: string, field: Cell)
  {
    column in row && field == Plain(row[column])
  }

  /** The `Bank(...)` of one `bnkseek.dbf` row, every column read in the order the source
      evaluates them (`rgn`, `newnum`, `at1`, `at2`, then the keyword arguments in order). Region,
      settlement type and SWIFT code are soft lookups (`None` when unknown); the participant type
      and the settlement kind are hard lookups, so an unknown code is a `KeyError`. */
  function MakeBank(row: Row, t: Tables): (r: Result<Bank>)
    ensures r.Ok? ==> && "rgn" in row && "newnum" in row && "tnp" in row && "pzn" in row && "uer" in row
                      && "srok" in row && "at1" in row && "at2" in row
    ensures r.Ok? ==> && r.value.bic == Plain(row["newnum"]) && r.value.regionCode == Plain(row["rgn"])
                      && r.value.region == Soft(t.regions, row["rgn"])
                      && r.value.placeType == Soft(t.placeTypes, row["tnp"])
                      && r.value.swift == (if row["newnum"] in t.swifts then Plain(t.swifts[row["newnum"]]) else Plain(SNone))
    ensures r.Ok? ==> && row["pzn"] in t.types && r.value.bankType == Nested(t.types[row["pzn"]])
                      && row["uer"] in t.payTypes && r.value.payType == Nested(t.payTypes[row["uer"]])
    ensures r.Ok? ==> && PyInt(row["srok"]).Ok? && r.value.term == Plain(SInt(PyInt(row["srok"]).value))
                      && Telegraph(row["at1"], row["at2"]).Ok?
                      && r.value.telegraph == Plain(SStr(Telegraph(row["at1"], row["at2"]).value))
    ensures r.Ok? ==> && Copied(row, "namen", r.value.name) && Copied(row, "namep", r.value.nameFull)
                      && Copied(row, "ind", r.value.zip) && Copied(row, "nnp", r.value.place)
                      && Copied(row, "adr", r.value.address) && Copied(row, "rkc", r.value.rkcBic)
                      && Copied(row, "date_in", r.value.dateAdded) && Copied(row, "dt_izm", r.value.dateUpdated)
                      && Copied(row, "dt_izmr", r.value.dateChange) && Copied(row, "permfo", r.value.mfo)
                      && Copied(row, "ksnp", r.value.corr) && Copied(row, "newks", r.value.corrBik)
                      && Copied(row, "telef", r.value.phone) && Copied(row, "cks", r.value.commutator)
                      && Copied(row, "okpo", r.value.okpo) && Copied(row, "regn", r.value.regnum)
                      && Copied(row, "real", r.value.controlCode) && Copied(row, "date_ch", r.value.controlDate)
  {
    var regionCode :- Col(row, "rgn");
    var bic :- Col(row, "newnum");
    var at1 :- Col(row, "at1");
    var at2 :- Col(row, "at2");
    var name :- Col(row, "namen");
    var nameFull :- Col(row, "namep");
    var zip :- Col(row, "ind");
    var tnp :- Col(row, "tnp");
    var place :- Col(row, "nnp");
    var address :- Col(row, "adr");
    var rkc :- Col(row, "rkc");
    var srok :- Col(row, "srok");
    var term :- PyInt(srok);
    var dateAdded :- Col(row, "date_in");
    var dateUpdated :- Col(row, "dt_izm");
    var dateChange :- Col(row, "dt_izmr");
    var mfo :- Col(row, "permfo");
    var corr :- Col(row, "ksnp");
    var corrBik :- Col(row, "newks");
    var phone :- Col(row, "telef");
    var telegraph :- Telegraph(at1, at2);
    var commutator :- Col(row, "cks");
    var okpo :- Col(row, "okpo");
    var regnum :- Col(row, "regn");
    var pzn :- Col(row, "pzn");
    var bankType :- Hard(t.types, pzn);
    var uer :- Col(row, "uer");
    var payType :- Hard(t.payTypes, uer);
    var controlCode :- Col(row, "real");
    var controlDate :- Col(row, "date_ch");
    Ok(Bank(Plain(bic), Plain(name), Plain(nameFull), Plain(regionCode), Soft(t.regions, regionCode),
            Plain(zip), Soft(t.placeTypes, tnp), Plain(place), Plain(address), Plain(rkc),
            Plain(SInt(term)), Plain(dateAdded), Plain(dateUpdated), Plain(dateChange), Plain(mfo),
            Plain(corr), Plain(corrBik), Plain(phone), Plain(SStr(telegraph)), Plain(commutator),
            Plain(okpo), Plain(regnum), bankType, payType, Plain(controlCode), Plain(controlDate),
            if bic in t.swifts then Plain(t.swifts[bic]) else Plain(SNone)))
  }

  /** Whether a row yields a bank does not depend on the soft tables: unknown regions, settlement
      types and SWIFT codes never fail a row. */
  lemma SoftLookupsNeverFail(row: Row, t: Tables, regions: map<Scalar, Row>, placeTypes: map<Scalar, Row>,
                             swifts: map<Scalar, Scalar>)
    ensures MakeBank(row, t).Ok? <==> MakeBank(row, t.(regions := regions, placeTypes := placeTypes, swifts := swifts)).Ok?
  {
  }

  // ---------------------------------------------------------------------------------------------
  // The directory.

  /** The outcome of every row, in the order of the rows. */
  function RowResults(rows: seq<Row>, t: Tables): seq<Result<Bank>>
  {
    seq(|rows|, j requires 0 <= j < |rows| => MakeBank(rows[j], t))
  }

  /** The rows that have succeeded gave `banks`. */
  lemma RowResultsPrefix(rows: seq<Row>, t: Tables, banks: seq<Bank>)
    requires OkPrefix(RowResults(rows, t), banks)
    ensures forall k :: 0 <= k < |banks| ==> MakeBank(rows[k], t) == Ok(banks[k])
  {
    var results := RowResults(rows, t);
    forall k | 0 <= k < |banks|
      ensures MakeBank(rows[k], t) == Ok(banks[k])
    {
      assert results[k] == Ok(banks[k]);
    }
  }

  /** `_get_data`'s loop over `bnkseek.dbf`: exactly one bank per row, in row order, with nothing
      filtered; the first row that fails ends the load with its error. */
  method AssembleBanks(rows: seq<Row>, t: Tables) returns (r: Result<seq<Bank>>)
    ensures r.Ok? <==> forall j :: 0 <= j < |rows| ==> MakeBank(rows[j], t).Ok?
    ensures r.Ok? ==> |r.value| == |rows| && forall j :: 0 <= j < |rows| ==> MakeBank(rows[j], t) == Ok(r.value[j])
    ensures r.Err? ==> exists j :: && 0 <= j < |rows| && MakeBank(rows[j], t) == Err(r.error)
                                   && forall k :: 0 <= k < j ==> MakeBank(rows[k], t).Ok?
  {
    ghost var results := RowResults(rows, t);
    var banks: seq<Bank> := [];
    var i := 0;
    while i < |rows|
      invariant i == |banks| && OkPrefix(results, banks)
    {
      var bank := MakeBank(rows[i], t);
      assert results[i] == bank;
      if bank.Err? {
        RowResultsPrefix(rows, t, banks);
        return Err(bank.error);
      }
      OkPrefixStep(results, banks);
      banks := banks + [bank.value];
      i := i + 1;
    }
    RowResultsPrefix(rows, t, banks);
    return Ok(banks);
  }

  /** The tables of the daily archive, decoded: `reg.dbf`, `pzn.dbf`, `tnp.dbf`, `uer.dbf` and
      `bnkseek.dbf`. */
  datatype Archive = Archive(reg: seq<Row>, pzn: seq<Row>, tnp: seq<Row>, uer: seq<Row>, bnkseek: seq<Row>)

  /** The lookup tables in the order `_get_data` builds them: SWIFT codes first, then regions,
      participant types, settlement types and settlement kinds. */
  function LoadTables(swiftRows: seq<Row>, a: Archive): (r: Result<Tables>)
    ensures r.Ok? ==> && SwiftIndex(swiftRows) == Ok(r.value.swifts)
                      && IndexRows(a.reg, "rgn") == Ok(r.value.regions)
                      && IndexRows(a.pzn, "pzn") == Ok(r.value.types)
                      && IndexRows(a.tnp, "tnp") == Ok(r.value.placeTypes)
                      && IndexRows(a.uer, "uer") == Ok(r.value.payTypes)
    ensures r.Err? ==> r.error == AttributeError
  {
    var swifts :- SwiftIndex(swiftRows);
    var regions :- IndexRows(a.reg, "rgn");
    var types :- IndexRows(a.pzn, "pzn");
    var placeTypes :- IndexRows(a.tnp, "tnp");
    var payTypes :- IndexRows(a.uer, "uer");
    Ok(Tables(regions, types, placeTypes, payTypes, swifts))
  }

  /** `_get_data`'s date: a str (taking `string_types` to be `str`, since `pycbrf/utils.py` does not
      define it) is parsed as `'%Y-%m-%d'`; a missing date is the clock's `now`. */
  function ArchiveDate(onDate: DateArg, now: DateTime): (r: Result<Date>)
    ensures onDate.DNone? ==> r == Ok(now.date)
    ensures onDate.DDate? ==> r == Ok(onDate.d)
    ensures onDate.DDateTime? ==> r == Ok(onDate.t.date)
    ensures onDate.DStr? ==> r == ParseISO(onDate.s)
  {
    match onDate
    case DNone => Ok(now.date)
    case DStr(s) => ParseISO(s)
    case DDate(d) => Ok(d)
    case DDateTime(t) => Ok(t.date)
  }

  /** The archive's URL: the date as `ddmmyyyy` in `bik_db_<date>.zip`. */
  function ArchiveUrl(d: Date): (url: string)
    ensures var prefix := "http://www.cbr.ru/vfs/mcirabis/BIK/bik_db_";
            && |prefix| + 4 < |url| && url[..|prefix|] == prefix && url[|url| - 4..] == ".zip"
            && url[|prefix|..|url| - 4] == FormatDMY(d, "")
  {
    "http://www.cbr.ru/vfs/mcirabis/BIK/bik_db_" + FormatDMY(d, "") + ".zip"
  }

  /** For a four-digit year the URL holds eight digits that read back as the day, month and year. */
  lemma ArchiveUrlDate(d: Date)
    requires 1000 <= d.year
    ensures var prefix := "http://www.cbr.ru/vfs/mcirabis/BIK/bik_db_";
            var stamp := ArchiveUrl(d)[|prefix|..|prefix| + 8];
            && ArchiveUrl(d) == prefix + stamp + ".zip"
            && AllDigits(stamp)
            && DigitsValue(stamp[0..2]) == d.day && DigitsValue(stamp[2..4]) == d.month
            && DigitsValue(stamp[4..8]) == d.year
  {
    YearIsFourDigits(d.year);
    var stamp := FormatDMY(d, "");
    assert stamp[0..2] == Two(d.day) && stamp[2..4] == Two(d.month) && stamp[4..8] == NatToString(d.year);
  }

  /** `Banks.__getitem__`: a key of 8 or 11 characters is matched against `swift`, any other
      against `bic`; the match is exact, a later bank overwrites an earlier one with the same key,
      and a miss is a `KeyError`. */
  function KeyOf(item: string): (key: Bank -> Cell)
    ensures |item| == 8 || |item| == 11 ==> forall b :: key(b) == b.swift
    ensures |item| != 8 && |item| != 11 ==> forall b :: key(b) == b.bic
  {
    if |item| == 8 || |item| == 11 then (b: Bank) => b.swift else (b: Bank) => b.bic
  }

  function Lookup(banks: seq<Bank>, item: string): (r: Result<Bank>)
    ensures r.Ok? <==> exists i :: 0 <= i < |banks| && KeyOf(item)(banks[i]) == Plain(SStr(item))
    ensures r.Ok? ==> exists i :: LastWith(banks, KeyOf(item), Plain(SStr(item)), i) && r.value == banks[i]
    ensures r.Err? ==> r.error == KeyError
  {
    var key := KeyOf(item);
    IndexByLastWins(banks, key, Plain(SStr(item)));
    var indexed := IndexBy(banks, key);
    if Plain(SStr(item)) in indexed then Ok(indexed[Plain(SStr(item))]) else Err(KeyError)
  }

  /** A bank is found by its nine-character BIC and by its eleven-character SWIFT code. */
  lemma LookupBicAndSwift(b: Bank)
    requires b.bic == Plain(SStr("045004641")) && b.swift == Plain(SStr("SABRRUMMNH1"))
    ensures Lookup([b], "045004641") == Ok(b)
    ensures Lookup([b], "SABRRUMMNH1") == Ok(b)
  {
    assert [b][0] == b;
  }

  /** `Banks`: the list of banks of one archive. */
  class Directory {
    var banks: seq<Bank>

    constructor (banks: seq<Bank>)
      ensures this.banks == banks
    {
      this.banks := banks;
    }

    /** `__getitem__`: the lookup in this object's banks (see `Lookup` for what it promises). */
    function Get(item: string): (r: Result<Bank>)
      reads this
      ensures r == Lookup(banks, item)
    {
      Lookup(banks, item)
    }
  }

  /** `Banks(on_date)`: the date is worked out, then the SWIFT table (`swiftRows`, decoded from
      `SwiftUrl`) and the archive (`archive`, decoded from `ArchiveUrl` of that date) are read. */
  method Open(onDate: DateArg, now: DateTime, swiftRows: seq<Row>, archive: Archive) returns (r: Result<Directory>)
    ensures ArchiveDate(onDate, now).Err? ==> r == Err(ArchiveDate(onDate, now).error)
    ensures ArchiveDate(onDate, now).Ok? && LoadTables(swiftRows, archive).Err? ==>
              r == Err(LoadTables(swiftRows, archive).error)
    ensures r.Ok? ==> && ArchiveDate(onDate, now).Ok? && LoadTables(swiftRows, archive).Ok?
                      && fresh(r.value)
                      && |r.value.banks| == |archive.bnkseek|
                      && forall j :: 0 <= j < |archive.bnkseek| ==>
                           MakeBank(archive.bnkseek[j], LoadTables(swiftRows, archive).value) == Ok(r.value.banks[j])
    ensures ArchiveDate(onDate, now).Ok? && LoadTables(swiftRows, archive).Ok? ==>
              (r.Ok? <==> forall j :: 0 <= j < |archive.bnkseek| ==>
                            MakeBank(archive.bnkseek[j], LoadTables(swiftRows, archive).value).Ok?)
  {
    var date := ArchiveDate(onDate, now);
    if date.Err? {
      return Err(date.error);
    }
    var tables := LoadTables(swiftRows, archive);
    if tables.Err? {
      return Err(tables.error);
    }
    var banks := AssembleBanks(archive.bnkseek, tables.value);
    if banks.Err? {
      return Err(banks.error);
    }
    var directory := new Directory(banks.value);
    return Ok(directory);
  }

  // ---------------------------------------------------------------------------------------------
  // Titles and annotation.

  /** `get_titles`: each field's alias with its Russian title, in display order. */
  const Titles: seq<(string, string)> := [
    ("bic", "БИК"),
    ("swift", "Код SWIFT"),
    ("name", "Название"),
    ("name_full", "Полное название"),
    ("date_added", "Дата добавления записи"),
    ("date_updated", "Дата обновления записи"),
    ("date_change", "Дата изменения реквизитов"),
    ("control_code", "Код контроля"),
    ("control_date", "Дата контроля"),
    ("corr", "Кор. счёт"),
    ("corr_bik", "Кор. счёт (расчёты с БИК)"),
    ("regnum", "Регистрационный номер"),
    ("mfo", "Номер МФО"),
    ("okpo", "Номер ОКПО"),
    ("type", "Тип"),
    ("pay_type", "Тип расчётов"),
    ("region_code", "Код региона ОКАТО"),
    ("region", "Регион"),
    ("zip", "Индекс"),
    ("place_type", "Тип населённого пункта"),
    ("place", "Населённый пункт"),
    ("address", "Адрес"),
    ("phone", "Телефон"),
    ("telegraph", "Телеграф"),
    ("commutator", "Коммутатор"),
    ("rkc_bic", "БИК РКЦ"),
    ("term", "Срок проведения расчётов (дней)")]

  /** The titles name fields of `Bank`, as many as it has, ... */
  lemma TitlesAreFields()
    ensures |Titles| == |FieldNames|
    ensures forall k :: 0 <= k < |Titles| ==> Titles[k].0 in FieldNames
  {
  }

  /** ... each exactly once (so they are a permutation of its fields), ... */
  lemma AliasesAreDistinct()
    ensures forall i, j :: 0 <= i < j < |Titles| ==> Titles[i].0 != Titles[j].0
  {
  }

  /** ... and no two titles are the same. */
  lemma TitlesAreDistinct()
    ensures forall i, j :: 0 <= i < j < |Titles| ==> Titles[i].1 != Titles[j].1
  {
  }

  /** `pick_value`: the first truthy of `name`, `fullname` and `uername` (a missing column counts
      as `None`), else `'<no name>'`. */
  function PickValue(record: Row): (v: Scalar)
    ensures ScalarTruthy(v)
    ensures "name" in record && ScalarTruthy(record["name"]) ==> v == record["name"]
    ensures v != SStr("<no name>") ==>
              exists key :: key in ["name", "fullname", "uername"] && key in record && record[key] == v
  {
    if "name" in record && ScalarTruthy(record["name"]) then record["name"]
    else if "fullname" in record && ScalarTruthy(record["fullname"]) then record["fullname"]
    else if "uername" in record && ScalarTruthy(record["uername"]) then record["uername"]
    else SStr("<no name>")
  }

  /** A field as `annotate` renders it: a looked-up record by `pick_value`, and any falsy value as
      `''`. */
  function Render(c: Cell): (v: Scalar)
    ensures v == SStr("") || ScalarTruthy(v)
    ensures v == SStr("") <==> c.Plain? && !ScalarTruthy(c.v)
  {
    match c
    case Nested(record) => PickValue(record)
    case Plain(v) => if ScalarTruthy(v) then v else SStr("")
  }

  /** An annotated bank: `(title, value)` pairs in title order. (The titles are distinct, so the
      `OrderedDict` holds exactly these pairs in this order.) */
  type Annotation = seq<(string, Scalar)>

  function TitleEntry(b: Bank, k: int): (string, Scalar)
    requires 0 <= k < |Titles|
  {
    TitlesAreFields();
    AsDictKeys(b);
    assert Titles[k].0 in AsDict(b);
    (Titles[k].1, Render(AsDict(b)[Titles[k].0]))
  }

  function Annotated(b: Bank): (a: Annotation)
    ensures |a| == |Titles|
    ensures forall k :: 0 <= k < |a| ==> a[k].0 == Titles[k].1
  {
    seq(|Titles|, k requires 0 <= k < |Titles| => TitleEntry(b, k))
  }

  /** The annotation of a bank has one entry per title, in title order, each the rendering of the
      field the title names. */
  lemma AnnotatedShape(b: Bank)
    ensures |Annotated(b)| == 27
    ensures forall k :: 0 <= k < 27 ==> Annotated(b)[k].0 == Titles[k].1
    ensures Annotated(b)[0] == ("БИК", Render(b.bic))
    ensures Annotated(b)[1] == ("Код SWIFT", Render(b.swift))
  {
  }

  /** The `k`-th entry renders the field the `k`-th title names, which the bank always has. */
  lemma TitleEntryIs(b: Bank, k: int)
    requires 0 <= k < |Titles|
    ensures Titles[k].0 in AsDict(b)
    ensures Annotated(b)[k] == (Titles[k].1, Render(AsDict(b)[Titles[k].0]))
  {
    TitlesAreFields();
    AsDictKeys(b);
  }

  /** One pass of `annotate`'s outer loop: the bank's dictionary, then one entry per title. */
  method AnnotateBank(b: Bank) returns (entry: Annotation)
    ensures entry == Annotated(b)
  {
    var bank := AsDict(b);
    ghost var want := Annotated(b);
    entry := [];
    var k := 0;
    while k < |Titles|
      invariant 0 <= k <= |Titles| && entry == want[..k]
    {
      var (alias, title) := Titles[k];
      TitleEntryIs(b, k);
      assert want[..k + 1] == want[..k] + [want[k]];
      entry := entry + [(title, Render(bank[alias]))];
      k := k + 1;
    }
  }

  /** `annotate`: one annotation per bank, in the order of the banks. */
  method Annotate(banks: seq<Bank>) returns (annotated: seq<Annotation>)
    ensures |annotated| == |banks|
    ensures forall i :: 0 <= i < |banks| ==> annotated[i] == Annotated(banks[i])
  {
    ghost var target := seq(|banks|, j requires 0 <= j < |banks| => Annotated(banks[j]));
    annotated := [];
    var i := 0;
    while i < |banks|
      invariant 0 <= i <= |banks| && annotated == target[..i]
    {
      var entry := AnnotateBank(banks[i]);
      assert target[..i + 1] == target[..i] + [target[i]];
      annotated := annotated + [entry];
      i := i + 1;
    }
    assert target[..|banks|] == target;
  }
}
