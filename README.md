# pycbrf in Dafny

A model of the core of pycbrf, a client for the data published by the Central Bank of Russia:

- the currency library, shared between both revisions of the package (`CurrencyCore` for the common logic,
  `CurrencyLibrary` for `pycbrf/currencies.py`, `RatesCurrencies` for `pycbrf/rates/currencies.py`);
- the first revision's daily rates (`LegacyRates`, `pycbrf/rates.py`);
- the second revision's daily rates (`RatesBasic`, `pycbrf/rates/basic.py`);
- the rates of one currency over a period in both revisions (`RateDynamics`, `pycbrf/rate_dynamics.py`, and
  `RatesDynamics`, `pycbrf/rates/dynamics.py`);
- the directory of banks (`Banks`, `pycbrf/banks.py`);
- the formatting helpers and the singleton metaclass (`Utils`, `pycbrf/utils.py`).

Supporting modules: `Base` (Option, Result, the Python errors the code raises and the prefix predicate used by
the parsing loops), `Xml` (a decoded XML element: attributes, child texts by tag and children), `Text`
(ASCII lowering, digits, `zfill`, `Decimal` parsing and division), `Dates` (`date`, `datetime`, `strftime` and
`strptime` for the formats the code uses) and `Indexing` (`{key(x): x for x in xs}` where a later element
overwrites an earlier one).

Downloads are parameters: every operation that fetches from www.cbr.ru takes the decoded document (or the
DBF rows of the bank archive) as an argument, and the request it would send is a value whose URL and
parameters are stated. The clock is a parameter as well (`today`, `now`).

Objects whose fields the code updates are classes (the two currency registries, the singleton table, the
rate objects and the bank directory); the parsing loops are methods proved against a specification function
over the whole input; everything else is functions and lemmas.

## Model

| member | source | states |
|---|---|---|
| Xml.Attr | pycbrf/rates/basic.py:145 | `element.attrib[name]` succeeds exactly when the attribute exists and gives its value, otherwise KeyError |
| Xml.Prop | pycbrf/rates/basic.py:137-141 | `props[tag]` succeeds exactly when a child with that tag exists and gives its text, otherwise KeyError |
| Text.LowerChar | pycbrf/currencies.py:68 | `str.lower` on one character: upper-case ASCII letters move up 32 code points, to the lower-case letter; every other character is kept, and the result is never upper-case |
| Text.Lower | pycbrf/currencies.py:68 | `str.lower` keeps the length and lowers each character independently |
| Text.DigitChar | pycbrf/utils.py:48 | the digit character for `d` has value `d` |
| Text.DigitsValueBound | pycbrf/utils.py:48 | a string of `k` digits has a value below 10^k |
| Text.NatToStringValue | pycbrf/utils.py:48 | `f'{n}'` of a non-negative integer is a digit string whose value is `n` |
| Text.NatToStringLength | pycbrf/utils.py:48 | a number below 10^k prints with at most `k` digits (at least one) |
| Text.NatToStringLengthAtLeast | pycbrf/utils.py:48 | a number of at least 10^k prints with more than `k` digits |
| Text.ZFillLength | pycbrf/utils.py:48 | `zfill(width)` gives `max(width, len(s))` characters |
| Text.ZFillIdempotent | pycbrf/utils.py:48 | `zfill` applied to its own result changes nothing |
| Text.ZFill | pycbrf/utils.py:48 | `str.zfill(width)`: a string at least `width` long is kept; a shorter one becomes exactly `width` long, zeros on the left, after its sign when it has one |
| Text.LeadingZerosValue | pycbrf/utils.py:48 | leading zeros do not change the value of a digit string |
| Text.DigitsInjective | pycbrf/currencies.py:140 | two digit strings of equal length and equal value are equal |
| Text.CommaToDot | pycbrf/rates/basic.py:141 | `replace(',', '.')` keeps the length and replaces exactly the commas |
| Text.CommaToDotRemovesCommas | pycbrf/rates/basic.py:141 | after the replacement no comma is left, and replacing again changes nothing |
| Text.ParseDecimal | pycbrf/rates/basic.py:140-141 | `Decimal(text)` fails only with the decimal conversion error, and a text without a minus sign gives a non-negative value |
| Text.ParseDecimalOfDigits | pycbrf/rates/basic.py:140 | `Decimal` of a digit string is its value |
| Text.DecimalDivide | pycbrf/rates/basic.py:166 | `value / par` fails exactly when `par` is zero (decimal division error) and otherwise is the quotient |
| Text.ParseInt | pycbrf/banks.py:215 | `int(text)` fails only with ValueError; a digit string gives its value, and a text without a minus sign a non-negative number |
| Text.Join | pycbrf/banks.py:223 | `sep.join(parts)`: no parts give `''`, one part gives itself, two parts give the first, the separator and the second, and with more the text starts with the first part and the separator |
| Text.ParseIntRoundTrip | pycbrf/banks.py:215 | `int(str(i)) == i` for every integer |
| Dates.AtMidnight | pycbrf/utils.py:55-56 | `datetime(d.year, d.month, d.day)` is at 00:00 on that date |
| Dates.Two | pycbrf/rates.py:142 | a two-digit field of `strftime` has two digits and the given value |
| Dates.FormatDMY | pycbrf/rates.py:142 | `strftime` with day, month and year: the text starts with the day as two digits of its value and ends with the digits of the year |
| Dates.ParseDMY | pycbrf/rates/basic.py:131 | `strptime(s, '%d.%m.%Y')` (any separator) succeeds only on `dd<sep>mm<sep>yyyy` with digit fields, takes day, month and year from them, and otherwise is ValueError |
| Dates.ParseISO | pycbrf/utils.py:54 | `strptime(s, '%Y-%m-%d')` succeeds only on `yyyy-mm-dd` with digit fields, takes year, month and day from them, and otherwise is ValueError |
| Dates.YearIsFourDigits | pycbrf/rates.py:142 | a year from 1000 to 9999 prints with four digits of that value |
| Dates.FormatThenParse | pycbrf/rates/basic.py:131 | `strptime(strftime(d, '%d.%m.%Y'), '%d.%m.%Y') == d` (and the same for `/`) for four-digit years |
| Dates.ParseThenFormat | pycbrf/rates/basic.py:131 | a date string `strptime` accepts is exactly the one `strftime` prints for the result |
| Dates.ParseISOExample | pycbrf/utils.py:54 | `'2016-06-26'` parses with `'%Y-%m-%d'` to 26 June 2016 |
| Dates.ParseDMYExample | pycbrf/rates/basic.py:131 | `'25.06.2016'` parses with `'%d.%m.%Y'` to 25 June 2016 |
| Indexing.IndexByLastWins | pycbrf/banks.py:186-192 | a key is in a dict comprehension exactly when some element has it, and its value is the last such element |
| Indexing.IndexBySize | pycbrf/banks.py:186-192 | a dict comprehension has no more keys than the list has elements |
| Indexing.IndexBySnoc | pycbrf/rate_dynamics.py:141-152 | adding one more element to the list assigns that element to its key and leaves the dict otherwise as it was |
| Utils.FormatNumCode | pycbrf/utils.py:44-48 | `f'{num}'.zfill(3)`: at least three characters; a string of three or more is kept; shorter ones get leading zeros, after the sign when there is one |
| Utils.FormatNumCodeIdempotent | pycbrf/utils.py:44-48 | formatting an already formatted code changes nothing |
| Utils.FormatNumCodeKeepsValue | pycbrf/utils.py:44-48 | formatting a digit string keeps it a digit string of the same value |
| Utils.FormatNumCodeAgrees | pycbrf/utils.py:44-48 | the integer `n` and any digit string of value `n` with at most three digits format to the same three-character code |
| Utils.FormatNumCodeExamples | pycbrf/utils.py:44-48 | `36`, `'36'` and `'036'` all format to `'036'` |
| Utils.DateTimeFromString | pycbrf/utils.py:50-57 | `None` stays `None`; a str is parsed with `'%Y-%m-%d'` (ValueError otherwise); a date or a datetime becomes that day at 00:00 |
| Utils.DateTimeFromStringIdempotent | pycbrf/utils.py:50-57 | converting a converted moment again gives the same moment |
| Utils.ReceivedDate | pycbrf/rates/basic.py:131 | the table's date is `Date` of the root parsed with `'%d.%m.%Y'`, at 00:00; it fails exactly when the attribute is missing or malformed |
| Utils.RowPrelude | pycbrf/rates/basic.py:137-141 | every row reads `Nominal` as a decimal, `Value` as a decimal after replacing commas, and its `ID` |
| Utils.Singletons.constructor | pycbrf/utils.py:30-32 | the metaclass starts with no instances |
| Utils.Singletons.Call | pycbrf/utils.py:34-38 | the first call for a class constructs and records one instance; every later call returns that same instance and constructs nothing |
| CurrencyCore.SameIsIdentity | pycbrf/currencies.py:42-46 | two currencies are equal exactly when their `(id, num, code)` agree, which is also what their hash is taken over |
| CurrencyCore.Same | pycbrf/currencies.py:42-46 | `Currency.__eq__`: two currencies are equal when their `(id, num, code)` triples are; its properties are `CurrencyCore.SameIsIdentity` and `CurrencyCore.SameIgnoresNamesAndPar` |
| CurrencyCore.SameIgnoresNamesAndPar | pycbrf/rates/currencies.py:49-53 | the names and the par take no part in equality |
| CurrencyCore.Pack | pycbrf/currencies.py:103-115 | the pack maps exactly the lowered id, the lowered code (when not empty) and the num (when not empty) to the currency, so it has one to three keys |
| CurrencyCore.LookupIn | pycbrf/currencies.py:62-75 | a falsy key fails with the message naming it; any other key is formatted as a numeric code, lowered and looked up, failing without a message when it is not there |
| CurrencyCore.LookupFalsyMessages | pycbrf/currencies.py:64-65 | `None`, `''` and `0` are refused as falsy, with the messages `Currency "None" not found.` and `Currency "" not found.` |
| CurrencyCore.LookupByIndexKey | pycbrf/currencies.py:67-69 | a key of three or more characters finds what its lowered form indexes |
| CurrencyCore.LookupById | pycbrf/currencies.py:62-75 | a registered currency is found by its id in any letter case |
| CurrencyCore.LookupByCode | pycbrf/currencies.py:62-75 | a registered currency is found by its letter code in any letter case |
| CurrencyCore.LookupByNumText | pycbrf/currencies.py:62-75 | a registered currency is found by its numeric code written with or without leading zeros |
| CurrencyCore.LookupByNumInt | pycbrf/currencies.py:62-75 | a registered currency is found by its numeric code given as an integer |
| CurrencyCore.LookupAustralianDollarByName | pycbrf/currencies.py:62-75 | the Australian dollar is found by `R01010`, `r01010`, `AUD` and `aud` |
| CurrencyCore.LookupAustralianDollarByNumber | pycbrf/currencies.py:62-75 | the Australian dollar is found by `'036'`, `'36'` and `36` |
| CurrencyCore.MergePack | pycbrf/currencies.py:83-86 | `dict.update` with a pack makes the currency findable by all its keys and leaves every other key as it was |
| CurrencyCore.FeedRequests | pycbrf/currencies.py:88-101 | two requests to `XML_valFull.asp`, the second with `d=1` |
| CurrencyCore.ParseRecord | pycbrf/currencies.py:132-142 | a record takes id, both names, code and par from the element, keeps an empty num empty and formats any other num; it fails only with KeyError or a decimal error |
| CurrencyCore.ParseRecordOrderIrrelevant | pycbrf/rates/currencies.py:143-157 | the second revision reads `ISO_Num_Code` before `ID` and the other fields; this gives the same result or error as the first revision's order, because every missing field is the same KeyError and `Nominal` is converted last in both |
| CurrencyCore.ParsedNumIsThreeDigits | pycbrf/currencies.py:140 | a numeric code of up to three digits is stored as exactly three digits of the same value |
| CurrencyCore.Flatten | pycbrf/currencies.py:124-125 | the records of the daily feed come before those of the monthly feed |
| CurrencyCore.IndexRecords | pycbrf/currencies.py:124-145 | the fold only adds keys to the index it starts from, and when it fails its error is the error of one of the records |
| CurrencyCore.IndexRecordsSucceeds | pycbrf/currencies.py:124-145 | the fold succeeds exactly when every record of both feeds parses |
| CurrencyCore.IndexRecordsSnoc | pycbrf/currencies.py:124-145 | folding one more record is the fold so far followed by that record's pack, or its error |
| CurrencyCore.LaterRecordOverwrites | pycbrf/currencies.py:145 | after a later record, that record owns all its keys, the keys are those before plus its own, and every key it does not have keeps its earlier currency |
| CurrencyCore.IndexRecordsNext | pycbrf/currencies.py:124-145 | one step of the fold at position `j`: an error ends it, a currency is merged and the fold goes on |
| CurrencyCore.Parse | pycbrf/currencies.py:117-148 | the nested loops compute the fold over both feeds, so they share its success condition and its last-wins index |
| CurrencyLibrary.Currencies.FromIndex | pycbrf/currencies.py:58-60 | a library holds the given index and has not been updated |
| CurrencyLibrary.Currencies.Get | pycbrf/currencies.py:62-75 | `__getitem__` is `CurrencyCore.LookupIn` on this library's own index, so it has that lookup's contract |
| CurrencyLibrary.Currencies.Add | pycbrf/currencies.py:83-86 | adding a currency merges its pack and makes it findable by its keys; anything that is not a `Currency` is ignored; the update date is kept |
| CurrencyLibrary.Currencies.Update | pycbrf/currencies.py:77-81 | when both feeds parse, their index is merged and the update date is now; otherwise the error is returned and nothing changes |
| CurrencyLibrary.Load | pycbrf/currencies.py:58-60 | the library loads exactly when the feeds parse, and holds their index |
| RatesCurrencies.Currencies.FromIndex | pycbrf/rates/currencies.py:59-64 | a registry holds the given index and has not been updated |
| RatesCurrencies.Currencies.Get | pycbrf/rates/currencies.py:66-79 | `__getitem__` is `CurrencyCore.LookupIn` on this registry's own index, so it has that lookup's contract |
| RatesCurrencies.Currencies.Register | pycbrf/rates/currencies.py:87-93 | registering merges the currency's pack, so it is findable, and keeps `updated` |
| RatesCurrencies.Currencies.Update | pycbrf/rates/currencies.py:81-85 | when both feeds parse, their index is merged and `updated` is now; otherwise the error is returned and nothing changes |
| RatesCurrencies.Load | pycbrf/rates/currencies.py:59-64 | the registry loads exactly when the feeds parse, and holds their index |
| LegacyRates.LegacyRow | pycbrf/rates.py:117-132 | a record holds the row's ID, Name, CharCode, NumCode, Nominal and Value, and `rate = value / par` with a non-zero par |
| LegacyRates.Parse | pycbrf/rates.py:104-136 | the table's date, then one record per row in row order; the first failing row ends the parse with its error |
| LegacyRates.FieldFor | pycbrf/rates.py:93-98 | digits look up `num`, letters look up `code`, anything else looks up `id` |
| LegacyRates.Get | pycbrf/rates.py:88-102 | the lookup succeeds exactly when a rate has the key in the chosen field, gives the last such rate, and otherwise is KeyError |
| LegacyRates.GetDollar | pycbrf/rates.py:88-102 | the dollar is found by `USD`, `R01235` and `840`, but not by `usd` or by `36` |
| LegacyRates.Requested | pycbrf/rates.py:52-53 | only a str is parsed (to 00:00 of that day); `None`, a date and a datetime are kept |
| LegacyRates.DailyUrl | pycbrf/rates.py:138-144 | `XML_daily.asp` or `XML_daily_eng.asp`, followed by `?date_req=dd/mm/yyyy` only when a date was given |
| LegacyRates.DatesMatch | pycbrf/rates.py:77-86 | with no date requested the dates match; a `date` never equals the received `datetime`; a `datetime` matches when it is the received one |
| LegacyRates.ExchangeRates.constructor | pycbrf/rates.py:77-86 | the object reports the requested date (the received one when none was given), the received date, the rates and whether the dates match |
| LegacyRates.ExchangeRates.GetRate | pycbrf/rates.py:88-102 | `__getitem__` is `LegacyRates.Get` on this object's rates, so it has that lookup's contract |
| LegacyRates.Open | pycbrf/rates.py:33-86 | the date is converted first, then the response is parsed; the object exists exactly when every row parses, with one rate per row, and reports the requested date (the received one when none was asked) |
| RatesBasic.RequestedDate | pycbrf/rates/basic.py:86-90 | a falsy date means today at 00:00; a str is parsed with `'%Y-%m-%d'`; a date or datetime becomes that day at 00:00 |
| RatesBasic.DailyRequest | pycbrf/rates/basic.py:173-187 | the request goes to `XML_daily.asp` or `XML_daily_eng.asp` with the single parameter `date_req` |
| RatesBasic.DailyRequestDate | pycbrf/rates/basic.py:179 | `date_req` is the requested date as `dd/mm/yyyy` |
| RatesBasic.StandIn | pycbrf/rates/basic.py:149-155 | the stand-in currency has the row's ID, its Name in both locales, its CharCode, NumCode and Nominal |
| RatesBasic.Resolve | pycbrf/rates/basic.py:143-156 | corrected (see ## Findings): a known id gives the registered currency and leaves the registry alone; an unknown one gives the stand-in and registers its pack; the registry only grows |
| RatesBasic.MakeRate | pycbrf/rates/basic.py:158-167 | a record exists exactly when par is non-zero, is dated with the table's date, named in the chosen locale, and has `rate = value / par` |
| RatesBasic.RateRow | pycbrf/rates/basic.py:136-167 | corrected (see ## Findings): a row that cannot be read fails with that error; its currency is what resolution gives (or its error, with the registry as resolution leaves it); the record's par and value are the row's Nominal and Value; the record is well formed and the row's ID is findable in the registry afterwards |
| RatesBasic.RatesFrom | pycbrf/rates/basic.py:136-167 | corrected (see ## Findings): the specification of the loop over the rows: each row's record is stored under its currency, the registry is threaded through, and the first failing row ends the fold (its properties are the `RatesFrom…` lemmas) |
| RatesBasic.ParseRates | pycbrf/rates/basic.py:122-171 | corrected (see ## Findings): the specification of `_parse`: the received date, then the fold over all rows from an empty table (its properties are the `ParseRates…` lemmas) |
| RatesBasic.RatesFromWellFormed | pycbrf/rates/basic.py:122-171 | every record of a parsed table is well formed and the table carries the received date |
| RatesBasic.RatesFromSize | pycbrf/rates/basic.py:160 | a table has no more rates than rows, because rates are keyed by currency |
| RatesBasic.RatesFromKeysGrow | pycbrf/rates/basic.py:156 | parsing never removes a key from the registry |
| RatesBasic.RatesFromUsesPayload | pycbrf/rates/basic.py:136-167 | corrected (see ## Findings): every rate of the fold is an untouched rate of the table so far, or was built from one of the remaining rows with that row's Nominal as par and Value as value |
| RatesBasic.ParseRatesUsesPayload | pycbrf/rates/basic.py:137-167 | corrected (see ## Findings): every rate of a parsed table takes its par from the Nominal and its value from the Value of a row of the response, and `rate = value / par` with a non-zero par |
| RatesBasic.PayloadNominalNotCurrencyPar | pycbrf/rates/basic.py:158-167 | a dollar row with Nominal 10 and Value 5 gives par 10, not the registry's par 1, and rate 0.5 |
| RatesBasic.RatesFromSnoc | pycbrf/rates/basic.py:136-167 | one more row either fails (ending the parse) or stores its record under its currency in the table so far |
| RatesBasic.ParseRatesSnoc | pycbrf/rates/basic.py:122-171 | for a whole document, a last row's record is stored over the table of the rows before it |
| RatesBasic.LaterRowOverwrites | pycbrf/rates/basic.py:160 | the last row for a currency owns that currency's entry and every other currency keeps its record |
| RatesBasic.RateRowRegistersId | pycbrf/rates/basic.py:143-156 | a parsed row's ID is in the registry from then on |
| RatesBasic.RatesFromRegistersIds | pycbrf/rates/basic.py:143-156 | after parsing, the ID of every row is in the registry |
| RatesBasic.ParseRatesRegistersIds | pycbrf/rates/basic.py:143-156 | after a successful parse, every row's currency can be looked up by its ID |
| RatesBasic.RateRowRegistersStandIn | pycbrf/rates/basic.py:149-156 | corrected (see ## Findings): a parsed row whose ID is unknown registers exactly the stand-in's pack, and the stand-in's code and num are the row's CharCode and NumCode |
| RatesBasic.PackKeysResolve | pycbrf/rates/currencies.py:66-79 | an index holding a currency's pack resolves that currency by its letter code, by its numeric code as text and by its numeric code as an integer |
| RatesBasic.StandInFindable | pycbrf/rates/basic.py:143-156 | corrected (see ## Findings): an unknown row's CharCode and NumCode are present, and after the whole fold the registry resolves its currency by the CharCode, the NumCode text and the NumCode as an integer |
| RatesBasic.ParseRatesFindsStandIn | pycbrf/rates/basic.py:143-156 | corrected (see ## Findings): after a table whose first row is unknown has been parsed, its currency is found by its ID, CharCode, NumCode text and NumCode integer, as `rates['BYR']` and `rates['R01090']` are in the tests |
| RatesBasic.ParseRow | pycbrf/rates/basic.py:136-167 | corrected (see ## Findings): the method computes the row's record and leaves the registry as the row specification says |
| RatesBasic.Parse | pycbrf/rates/basic.py:122-171 | corrected (see ## Findings): the loop computes the table specification and its registry, and does not touch `updated` |
| RatesBasic.ResolveAsWritten | pycbrf/rates/basic.py:143-156 | as written, an unknown id whose stand-in can be built ends in AttributeError (`add` does not exist on the registry) |
| RatesBasic.RateRowAsWritten | pycbrf/rates/basic.py:136-167 | as written, a row that cannot be read fails with that error, and a record exists only for an ID already registered, with the registered currency and the row's Nominal and Value |
| RatesBasic.RatesFromAsWritten | pycbrf/rates/basic.py:136-167 | as written, a successful fold carries the received date |
| RatesBasic.ParseRatesAsWritten | pycbrf/rates/basic.py:122-171 | as written, a bad received date is the parse's error, and a parsed table carries that date |
| RatesBasic.UnknownCurrencyAsWritten | pycbrf/rates/basic.py:156 | a table with an unregistered currency fails as written, while the corrected parse registers it and finds it |
| RatesBasic.AsWrittenAgreesWhenKnown | pycbrf/rates/basic.py:122-171 | when the code as written succeeds, the corrected parse gives the same table and leaves the registry as it was |
| RatesBasic.GetAsWritten | pycbrf/rates/basic.py:106-120 | an unknown key gives `None`; a known currency absent from the table is KeyError; otherwise its rate |
| RatesBasic.TryGet | pycbrf/rates/basic.py:106-120 | corrected (see ## Findings): a rate is returned exactly when the key names a currency that is in the table, and `None` otherwise |
| RatesBasic.TryGetFindsRate | pycbrf/rates/basic.py:106-120 | a looked-up currency in a well-formed table gives a rate of an equal currency, on the table's date, with `rate = value / par` |
| RatesBasic.GetAsWrittenVersusTryGet | pycbrf/rates/basic.py:112-120 | the two lookups agree except that the code as written fails exactly when the currency is known but missing |
| RatesBasic.KnownCurrencyMissingFromTable | pycbrf/rates/basic.py:117-120 | `rates['USD']` on a table without the dollar is KeyError as written and `None` when corrected |
| RatesBasic.ExchangeRates.constructor | pycbrf/rates/basic.py:95-104 | the object holds the requested date, the received date, the rates, and whether the two dates are equal |
| RatesBasic.ExchangeRates.Get | pycbrf/rates/basic.py:106-120 | corrected (see ## Findings): `__getitem__` is `RatesBasic.TryGet` on this object's rates and the registry's index, so it has that lookup's contract |
| RatesBasic.ExchangeRates.Len | pycbrf/rates/basic.py:192-193 | `len` is the number of entries in the table |
| RatesBasic.Open | pycbrf/rates/basic.py:56-104 | corrected (see ## Findings): the date is converted first (ValueError changes nothing); then the parse decides the object and the registry's new index, and `updated` is kept |
| RatesBasic.WeekendDatesDoNotMatch | pycbrf/rates/basic.py:104 | asking for Sunday 26 June 2016 and receiving 25 June 2016 gives dates that do not match |
| RateDynamics.CheckAndConvertArgs | pycbrf/rate_dynamics.py:87-111 | dates are converted (ValueError), a falsy currency is refused, missing dates default to each other or to today, a reversed period is refused, and a key is resolved in the registry |
| RateDynamics.NoDatesMeansToday | pycbrf/rate_dynamics.py:99-103 | with no dates the period is today to today |
| RateDynamics.SingleDateIsOneDay | pycbrf/rate_dynamics.py:99-103 | one date alone gives a one-day period on that date |
| RateDynamics.ReversedPeriodRefused | pycbrf/rate_dynamics.py:105-106 | a period that ends before it starts is refused |
| RateDynamics.DynamicsRequest | pycbrf/rate_dynamics.py:113-125 | the request goes to `XML_dynamic.asp` with `date_req1`, `date_req2` and `VAL_NM_RQ` = the currency id |
| RateDynamics.DynamicsRequestDates | pycbrf/rate_dynamics.py:116-120 | the two dates are the period's bounds as `dd/mm/yyyy` |
| RateDynamics.ElementDate | pycbrf/rate_dynamics.py:141-143 | an element's date is its `Date` attribute parsed with `'%d.%m.%Y'` at 00:00 |
| RateDynamics.DynamicsRow | pycbrf/rate_dynamics.py:141-152 | a record carries the element's date, Nominal and Value, the requested currency and name, and `rate = value / par` |
| RateDynamics.Parse | pycbrf/rate_dynamics.py:127-156 | the table exists exactly when every element parses; it maps each date to the last element with that date; otherwise the first failing element's error |
| RateDynamics.EntriesWellDated | pycbrf/rate_dynamics.py:141-152 | every parsed record is well dated for the requested currency |
| RateDynamics.TableOfEntries | pycbrf/rate_dynamics.py:141-152 | the table's dates are exactly the records' dates, each maps to the last record of that date, and there are no more dates than records |
| RateDynamics.TableOfRows | pycbrf/rate_dynamics.py:161-162 | `len` of the table is at most the number of elements, and each date maps to a record of that date |
| RateDynamics.Get | pycbrf/rate_dynamics.py:70-85 | a falsy item is refused; otherwise it is converted to a moment and looked up, failing with ExchangeRateNotFound |
| RateDynamics.GetIgnoresForm | pycbrf/rate_dynamics.py:70-85 | a date, a datetime of that day and the ISO string of that day find the same rate |
| RateDynamics.GetFindsEntry | pycbrf/rate_dynamics.py:70-85 | every record's date finds a record of that date, the last one with it |
| RateDynamics.ExchangeRateDynamics.constructor | pycbrf/rate_dynamics.py:44-68 | the object holds the checked period, the currency and the table |
| RateDynamics.ExchangeRateDynamics.GetRate | pycbrf/rate_dynamics.py:70-85 | `__getitem__` is `RateDynamics.Get` on this object's table, so it has that lookup's contract |
| RateDynamics.ExchangeRateDynamics.Len | pycbrf/rate_dynamics.py:161-162 | `len` is the number of entries in the table |
| RateDynamics.Open | pycbrf/rate_dynamics.py:44-68 | the arguments are checked first; then the object exists exactly when every element parses, with the English name |
| RatesDynamics.DateKeywordAsWritten | pycbrf/rates/dynamics.py:163 | as written, and given the date helper that `pycbrf/utils.py` does not define (see ## Left out), only an empty response parses; a response whose first element is well formed is TypeError, though the corrected parse gives it a table |
| RatesDynamics.ParseAsWritten | pycbrf/rates/dynamics.py:141-170 | as written, and given the date helper that `pycbrf/utils.py` does not define (see ## Left out), the parse fails only on a non-empty response, and a first element that cannot be read fails with its own error before the record is built |
| RatesDynamics.TableFollowsLocale | pycbrf/rates/dynamics.py:162-167 | every rate is named in the requested locale, carries the currency and its own date, and has `rate = value / par` |
| RatesDynamics.RateUsesPayloadNominal | pycbrf/rates/dynamics.py:160-167 | the rate depends on the response's Nominal and not on the currency's par |
| RatesDynamics.ExchangeRateDynamics.constructor | pycbrf/rates/dynamics.py:45-76 | the object holds the checked period, the currency and the table |
| RatesDynamics.ExchangeRateDynamics.GetRate | pycbrf/rates/dynamics.py:78-94 | `__getitem__` is `RateDynamics.Get` on this object's table, so it has that lookup's contract |
| RatesDynamics.ExchangeRateDynamics.Len | pycbrf/rates/dynamics.py:176-177 | `len` is the number of entries in the table |
| RatesDynamics.Open | pycbrf/rates/dynamics.py:45-76 | corrected (see ## Findings): the arguments are checked against the registry; then the object exists exactly when every element parses, named in the locale |
| Banks.Col | pycbrf/banks.py:194-234 | reading a column succeeds exactly when the row has it, otherwise AttributeError |
| Banks.AsDict | pycbrf/banks.py:146 | `bank._asdict()` holds the bank's BIC under `bic` and its type under `type` |
| Banks.AsDictKeys | pycbrf/banks.py:16-47 | `bank._asdict()` has exactly the 27 fields |
| Banks.IndexRows | pycbrf/banks.py:186-192 | `get_indexed` succeeds exactly when every row has the field, maps each value to the last row with it, otherwise AttributeError |
| Banks.SwiftIndex | pycbrf/banks.py:236-243 | the SWIFT table maps each `kod_rus` to the `kod_swift` of the last row with it |
| Banks.Soft | pycbrf/banks.py:209-211 | `.get` gives the row or `None`, never an error |
| Banks.Hard | pycbrf/banks.py:227-228 | `[]` gives the row, or KeyError when it is missing |
| Banks.PyInt | pycbrf/banks.py:215 | `int()` keeps an integer, parses a str, and is TypeError for `None` or a date |
| Banks.Telegraph | pycbrf/banks.py:200-202 | the truthy telegraph codes joined by a comma; TypeError when a truthy code is not a str |
| Banks.MakeBank | pycbrf/banks.py:194-234 | a bank takes its BIC and region code from the row, looks up region and place type softly, type and payment type strictly, converts the term, joins the telegraph codes and finds its SWIFT code; every other field (name, full name, zip, place, address, RKC BIC, the three dates, MFO, correspondent accounts, phone, commutator, OKPO, registration number, control code and date) is its column as read |
| Banks.SoftLookupsNeverFail | pycbrf/banks.py:209-231 | whether a bank can be built does not depend on the region, place type or SWIFT tables |
| Banks.AssembleBanks | pycbrf/banks.py:194-234 | one bank per row in row order; the first failing row ends the loop with its error |
| Banks.LoadTables | pycbrf/banks.py:181-192 | the five lookup tables are the indexed SWIFT, region, type, place type and payment type tables |
| Banks.ArchiveDate | pycbrf/banks.py:176-179 | no date means today; a str is parsed with `'%Y-%m-%d'`; a datetime gives its date |
| Banks.ArchiveUrl | pycbrf/banks.py:183 | the URL is the archive address, then `bik_db_`, the date as `strftime('%d%m%Y')` and `.zip` |
| Banks.ArchiveUrlDate | pycbrf/banks.py:183 | the archive URL is `bik_db_ddmmyyyy.zip` for the day asked |
| Banks.KeyOf | pycbrf/banks.py:72-75 | a key of 8 or 11 characters selects the SWIFT field of every bank, any other the BIC |
| Banks.Lookup | pycbrf/banks.py:67-79 | a key of 8 or 11 characters is matched against the SWIFT code and any other against the BIC; the last bank with the key is returned, otherwise KeyError |
| Banks.LookupBicAndSwift | pycbrf/banks.py:67-79 | a bank is found both by its nine-character BIC and by its eleven-character SWIFT code |
| Banks.Directory.constructor | pycbrf/banks.py:57-65 | the directory holds the banks it was given |
| Banks.Directory.Get | pycbrf/banks.py:67-79 | `Banks.__getitem__` is `Banks.Lookup` on this directory's banks, so it has that lookup's contract |
| Banks.Open | pycbrf/banks.py:57-65 | the date is resolved, the tables are loaded, then one bank per archive row |
| Banks.TitlesAreFields | pycbrf/banks.py:81-123 | there is one title per field and every alias is a field |
| Banks.Titles | pycbrf/banks.py:81-123 | `get_titles`: the field aliases with their Russian titles, in display order; its properties are `Banks.TitlesAreFields`, `Banks.AliasesAreDistinct` and `Banks.TitlesAreDistinct` |
| Banks.AliasesAreDistinct | pycbrf/banks.py:81-123 | no alias is listed twice |
| Banks.TitlesAreDistinct | pycbrf/banks.py:81-123 | no two titles are the same, so the ordered dict loses no entry |
| Banks.PickValue | pycbrf/banks.py:137-142 | the first truthy of `name`, `fullname` and `uername`, otherwise `<no name>`; the result is always truthy |
| Banks.Render | pycbrf/banks.py:151-154 | a nested row shows its picked name; a falsy plain value shows as `''` |
| Banks.Annotated | pycbrf/banks.py:144-156 | one entry per title, in title order, each labelled with its title |
| Banks.AnnotatedShape | pycbrf/banks.py:144-156 | an annotated bank has the 27 titles in order, starting with the BIC and the SWIFT code |
| Banks.TitleEntryIs | pycbrf/banks.py:148-154 | the entry for each title is the rendered field its alias names |
| Banks.AnnotateBank | pycbrf/banks.py:146-156 | the loop over the titles builds the annotation of one bank |
| Banks.Annotate | pycbrf/banks.py:125-158 | one annotation per bank, in order |

## Left out

- HTTP (`WithRequests._get_response`, `urlopen`), XML parsing, ZIP extraction and DBF decoding: the decoded document or rows are parameters. The requests themselves are modelled as values.
- The clock: `datetime.now()` and `date.today()` are the parameters `now` and `today`.
- `Decimal` is a `real`. The decimal parser accepts an optional sign, digits and an optional fraction; exponents, surrounding whitespace, `_` digit separators, `NaN` and `Infinity` are not modelled.
- Text.ParseInt: Python's `int()` also accepts surrounding whitespace and `_` between digits; the model accepts only an optional sign and digits, and rejects those texts with ValueError (the `srok` column is a plain number).
- `strptime` accepts only the fixed-width forms the data uses; single-digit days and months are not modelled.
- `str.lower` and `str.isdigit` are ASCII only here; Unicode case mapping and Unicode digits are not modelled.
- Using a `Currency` object as a registry key (it is converted with its str representation) is not modelled; keys are strings, integers and `None`.
- An XML child whose text is `None` is modelled with the empty string as its text, so a missing ISO code is `''`, which is falsy like `None`. For `Nominal` and `Value` this merges two different failures into the decimal error: `Decimal(None)` is a TypeError and `None.replace(',', '.')` an AttributeError, while `Decimal('')` is the conversion error.
- `__str__`, `__repr__`, logging and command-line code are not modelled.
- `CURRENCIES` is passed as an explicit registry instead of a module-level singleton; the singleton behaviour itself is `Utils.Singletons`.
- The two revisions' `_parse` in `pycbrf/currencies.py` and `pycbrf/rates/currencies.py` share `CurrencyCore.Parse`. They are not the same code. The second revision reads `ISO_Num_Code` before `ID` (`pycbrf/rates/currencies.py:143`), and `CurrencyCore.ParseRecordOrderIrrelevant` proves that this order gives the same outcome. The rest of the two loops is not proved to agree.
- RateDynamics.Parse and RateDynamics.Open rest on two assumptions about the imports of `pycbrf/rate_dynamics.py`, because the source tree holds both revisions of the package side by side:
  - line 8 imports `CURRENCIES` from `pycbrf/currencies.py`, which defines no such name, so as the code stands that import fails too. `pycbrf/__init__.py` already fails at line 1, because of the `Banks.ArchiveDate, Banks.Open` line below, and would fail again at line 3. The model assumes the currency library is passed in, as `registry`.
  - line 10 imports `ExchangeRate` from `.rates`. The source tree has no `pycbrf/rates/__init__.py`. If `.rates` resolves to `pycbrf/rates.py`, its `ExchangeRate` is a namedtuple of `id, name, code, num, value, par, rate`, and the call at lines 145-152 is a TypeError for each element. The model assumes `.rates` is the package `pycbrf/rates/`, whose `ExchangeRate` (`pycbrf/rates/basic.py`) has the fields that call uses.
- Banks.ArchiveDate, Banks.Open: `pycbrf/banks.py:11` imports `string_types` and `BytesIO` from `pycbrf/utils.py`, which defines neither name, so as the code stands `pycbrf/banks.py` cannot be imported and `pycbrf/__init__.py` fails at its first line. The model takes `string_types` to be `str` (banks.py:176) and counts `BytesIO` (banks.py:165) as part of the HTTP and archive handling left out above; Banks.ArchiveDate and Banks.Open hold only under that assumption.
- `Banks.Annotate`: the ordered dict is a sequence of title and value pairs; this is faithful because the titles are distinct (`Banks.TitlesAreDistinct`).
- `RateDynamics.CheckAndConvertArgs`: the dates are converted before the currency is checked, as the code does, so an unparsable date is a ValueError even when the currency is missing.
- `CurrencyCore.Parse`: the registry receives the merged index of both feeds at once; the intermediate states of the dict during the loop are not modelled.
- RatesDynamics.ParseAsWritten: `pycbrf/rates/dynamics.py` uses four names from `pycbrf/utils.py` that `pycbrf/utils.py` does not define: `TypeDateDef` (line 11), `_get_datetime` (lines 89 and 104-105), `_date_format` (line 128) and `_date_parse` (line 149). As the code stands, the module cannot be imported, and `_parse` would fail at line 149 before it reaches the `date=` call. The model assumes these four names mean the `on_date` argument type, `_datetime_from_string`, `strftime` with `'%d/%m/%Y'`, and `strptime` with `'%d.%m.%Y'`. RatesDynamics.ParseAsWritten, RatesDynamics.DateKeywordAsWritten and RatesDynamics.Open hold only given those helpers.
- RatesBasic.Resolve, RatesBasic.RateRow, RatesBasic.RatesFrom, RatesBasic.ParseRates, RatesBasic.ParseRow, RatesBasic.Parse, RatesBasic.Open, RatesBasic.TryGet, RatesBasic.ExchangeRates.Get and RatesDynamics.Open model the corrected code of the findings below, not the code as written; the code as written is RatesBasic.ResolveAsWritten, RatesBasic.RateRowAsWritten, RatesBasic.RatesFromAsWritten, RatesBasic.ParseRatesAsWritten, RatesBasic.GetAsWritten and RatesDynamics.ParseAsWritten, and the lemmas in the findings relate the two.
- `Utils.Singletons.Call`: classes are named by strings, and the construction is a pure function passed in.

## Findings

| source | as written | input that shows it | evidently intended | confidence | as-written member | corrected member |
|---|---|---|---|---|---|---|
| pycbrf/rates/basic.py:156 | `CURRENCIES.add(currency)` is called on the registry of `pycbrf/rates/currencies.py`, which has `register` and no `add`, so it is an AttributeError | a daily table whose row has an `ID` not in the registry, e.g. a currency removed from the library | register the stand-in currency and go on parsing | not executed | RatesBasic.UnknownCurrencyAsWritten | RatesBasic.ParseRatesRegistersIds |
| pycbrf/rates/basic.py:117-120 | `self.rates[currency]` raises KeyError for a currency that is registered but not in this day's table | `rates['USD']` on a table without the dollar | return `None` for a missing rate, as for an unknown key | not executed | RatesBasic.KnownCurrencyMissingFromTable | RatesBasic.TryGetFindsRate |
| pycbrf/rates/dynamics.py:163 | `ExchangeRate(date=...)` passes a keyword the `NamedTuple` (`pycbrf/rates/basic.py:15`) does not have (`on_date`), so, given the helpers named under ## Left out, it is a TypeError | any response with at least one well-formed element | build the record with `on_date` | not executed | RatesDynamics.DateKeywordAsWritten | RatesDynamics.TableFollowsLocale |
