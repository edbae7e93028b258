/** pycbrf/rates/currencies.py: the singleton registry of known currencies (second revision), with
    `register` in place of `add`. */
module RatesCurrencies {
  import opened Base
  import opened Text
  import opened Dates
  import opened Utils
  import opened Xml
  import opened CurrencyCore

  /** `Currencies`. The module-level `CURRENCIES` instance is a `Currencies` object that callers
      are handed explicitly. */
  class Currencies {
    var currencies: Index
    var updated: Option<DateTime>

    /** `__init__` once the bundled feeds have been parsed into `index` (see `Load`). */
    constructor FromIndex(index: Index)
      ensures currencies == index && updated == None
    {
      currencies := index;
      updated := None;
    }

    /** `__getitem__`: the lookup in this object's index (see `CurrencyCore.LookupIn` for what it
        promises). */
    function Get(value: Key): (r: Result<Currency>)
      reads this
      ensures r == LookupIn(currencies, value)
    {
      LookupIn(currencies, value)
    }

    /** `register`: the currency's pack is merged into the index, replacing whatever its keys led
        to, so it is found by each of them from now on. */
    method Register(c: Currency)
      modifies this
      ensures currencies == old(currencies) + Pack(c) && Indexed(currencies, c)
      ensures updated == old(updated)
    {
      currencies := currencies + Pack(c);
    }

    /** `update` with the downloaded feeds and the clock's `now`. A feed that fails to parse
        changes nothing. */
    method Update(feeds: seq<seq<Element>>, now: DateTime) returns (err: Option<Error>)
      modifies this
      ensures ParsedIndex(feeds).Ok? ==>
                err == None && currencies == old(currencies) + ParsedIndex(feeds).value && updated == Some(now)
      ensures ParsedIndex(feeds).Err? ==>
                err == Some(ParsedIndex(feeds).error) && currencies == old(currencies) && updated == old(updated)
    {
      var parsed := Parse(feeds);
      if parsed.Err? {
        return Some(parsed.error);
      }
      currencies := currencies + parsed.value;
      updated := Some(now);
      return None;
    }
  }

  /** Constructing the registry (`CURRENCIES = Currencies()`) from the bundled feeds. */
  method Load(feeds: seq<seq<Element>>) returns (r: Result<Currencies>)
    ensures r.Ok? <==> ParsedIndex(feeds).Ok?
    ensures r.Ok? ==> fresh(r.value) && r.value.currencies == ParsedIndex(feeds).value && r.value.updated == None
  {
    var parsed := Parse(feeds);
    if parsed.Err? {
      return Err(parsed.error);
    }
    var registry := new Currencies.FromIndex(parsed.value);
    return Ok(registry);
  }
}
