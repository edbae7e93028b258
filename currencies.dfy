/** pycbrf/currencies.py: the singleton library of known currencies (first revision). */
module CurrencyLibrary {
  import opened Base
  import opened Text
  import opened Dates
  import opened Utils
  import opened Xml
  import opened CurrencyCore

  /** The argument of `add`: a `Currency`, or an object of any other type. */
  datatype Addition = ACurrency(c: Currency) | NotACurrency

  /** `Currencies`. Its one instance per process is kept by `SingletonMeta` (see `Utils.Singletons`). */
  class Currencies {
    var currencies: Index
    var updateDate: Option<DateTime>

    /** `__init__` once the bundled feeds have been parsed into `index` (see `Load`). */
    constructor FromIndex(index: Index)
      ensures currencies == index && updateDate == None
    {
      currencies := index;
      updateDate := None;
    }

    /** `__getitem__`: the lookup in this object's index (see `CurrencyCore.LookupIn` for what it
        promises). */
    function Get(value: Key): (r: Result<Currency>)
      reads this
      ensures r == LookupIn(currencies, value)
    {
      LookupIn(currencies, value)
    }

    /** `add`: a currency's pack is merged into the index, so it is found by each of its keys from
        now on; an argument of any other type is ignored. */
    method Add(a: Addition)
      modifies this
      ensures a.ACurrency? ==> currencies == old(currencies) + Pack(a.c) && Indexed(currencies, a.c)
      ensures a.NotACurrency? ==> currencies == old(currencies)
      ensures updateDate == old(updateDate)
    {
      if a.ACurrency? {
        currencies := currencies + Pack(a.c);
      }
    }

    /** `update` with the downloaded daily and monthly feeds and the clock's `now`: the parsed
        index is merged over the current one and the update time recorded. A feed that fails to
        parse changes nothing. */
    method Update(feeds: seq<seq<Element>>, now: DateTime) returns (err: Option<Error>)
      modifies this
      ensures ParsedIndex(feeds).Ok? ==>
                err == None && currencies == old(currencies) + ParsedIndex(feeds).value && updateDate == Some(now)
      ensures ParsedIndex(feeds).Err? ==>
                err == Some(ParsedIndex(feeds).error) && currencies == old(currencies) && updateDate == old(updateDate)
    {
      var parsed := Parse(feeds);
      if parsed.Err? {
        return Some(parsed.error);
      }
      currencies := currencies + parsed.value;
      updateDate := Some(now);
      return None;
    }
  }

  /** Constructing the library from the bundled daily and monthly feeds. */
  method Load(feeds: seq<seq<Element>>) returns (r: Result<Currencies>)
    ensures r.Ok? <==> ParsedIndex(feeds).Ok?
    ensures r.Ok? ==> fresh(r.value) && r.value.currencies == ParsedIndex(feeds).value && r.value.updateDate == None
  {
    var parsed := Parse(feeds);
    if parsed.Err? {
      return Err(parsed.error);
    }
    var library := new Currencies.FromIndex(parsed.value);
    return Ok(library);
  }
}
