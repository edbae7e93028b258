/** Failure-compatible wrappers and the kinds of exception the library raises or lets through. */
module Base {

  datatype Option<+T> = None | Some(value: T)

  /** The exceptions a call can end in. `CurrencyNotFound` carries its explicit message when the
      raising code gives one, and `None` when it relies on the exception's default message. */
  datatype Error =
    | WrongArguments
    | CurrencyNotFound(message: Option<string>)
    | ExchangeRateNotFound
    | KeyError        // a dictionary lookup with `[]` that misses
    | AttributeError  // a missing attribute, field or method
    | ValueError      // a date or integer text that does not parse
    | TypeError       // a call with a keyword argument the callee does not declare
    | DecimalError    // a Decimal conversion or division that the default context traps

  datatype Result<+T> = Ok(value: T) | Err(error: Error) {
    predicate IsFailure() { Err? }

    function PropagateFailure<U>(): Result<U>
      requires Err?
    {
      Err(error)
    }

    function Extract(): T
      requires Ok?
    {
      value
    }
  }

  /** The first `|oks|` of `results` succeed, with the values `oks` in order. */
  ghost predicate OkPrefix<T>(results: seq<Result<T>>, oks: seq<T>)
  {
    |oks| <= |results| && forall j :: 0 <= j < |oks| ==> results[j] == Ok(oks[j])
  }

  lemma OkPrefixStep<T>(results: seq<Result<T>>, oks: seq<T>)
    requires OkPrefix(results, oks) && |oks| < |results| && results[|oks|].Ok?
    ensures OkPrefix(results, oks + [results[|oks|].value])
  {
    var next := oks + [results[|oks|].value];
    forall j | 0 <= j < |next|
      ensures results[j] == Ok(next[j])
    {
      if j < |oks| {
        assert next[j] == oks[j];
      }
    }
  }
}

/** A decoded XML element: its attributes and, for each child element, the child's tag mapped to
    its text (an element without text is represented by the empty string). Decoding bytes into
    elements is done by the XML library and is not part of this model. */
module Xml {
  import opened Base

  datatype Element = Element(attrib: map<string, string>, props: map<string, string>)

  /** A decoded document: the root's attributes and its child elements in document order. */
  datatype Document = Document(attrib: map<string, string>, children: seq<Element>)

  /** `element.attrib[name]` */
  function Attr(e: Element, name: string): (r: Result<string>)
    ensures r.Ok? <==> name in e.attrib
    ensures r.Ok? ==> r.value == e.attrib[name]
    ensures r.Err? ==> r.error == KeyError
  {
    if name in e.attrib then Ok(e.attrib[name]) else Err(KeyError)
  }

  /** `props[name]`, where `props` maps each child tag to its text. */
  function Prop(e: Element, name: string): (r: Result<string>)
    ensures r.Ok? <==> name in e.props
    ensures r.Ok? ==> r.value == e.props[name]
    ensures r.Err? ==> r.error == KeyError
  {
    if name in e.props then Ok(e.props[name]) else Err(KeyError)
  }
}
