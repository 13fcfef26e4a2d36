/** The `env` part of the `soukousei` crate: reading a field from an environment provider
    and recording the failure under the field's name. A provider is any function
    `fetch` from a variable name to present/absent/error, and a parser is any function
    from the raw text to a value or an error report; both share the report type `R`. */
module Env {
  import opened Wrappers
  import opened Soukousei

  /** `FieldFromEnvError`: the report of a failed fetch or parse, with the variable read. */
  datatype FieldFromEnvError<R> = FieldFromEnvError(report: R, variable: string)

  /** `default_env_parse` for `String`: the standard `FromStr` for strings cannot fail and
      takes the raw text as it is. */
  function ParseString<R>(raw: string): (r: Result<string, R>)
    ensures r.Ok? && r.value == raw
  {
    Ok(raw)
  }

  /** `MultipleFieldsError::add_if_err`: a success (present or absent) is passed on with the
      accumulator untouched; a failure leaves the field absent and adds exactly one entry
      carrying that failure at `loc`. */
  function AddIfErr<T, R>(errors: MultipleFieldsError<FieldFromEnvError<R>>, loc: string,
                          result: Result<Option<T>, FieldFromEnvError<R>>)
    : (r: (Option<T>, MultipleFieldsError<FieldFromEnvError<R>>))
    ensures result.Ok? ==> r.0 == result.value && r.1 == errors
    ensures result.Err? ==> r.0 == None && Entries(r.1) == Entries(errors) + [WithPath([loc], result.error)]
  {
    match result
    case Ok(value) => (value, errors)
    case Err(err) => (None, Add(errors, err, loc))
  }

  /** `EnvProvider::fetch_and_parse`: a provider error and a parse error both become a
      `FieldFromEnvError` naming `key`; an absent variable is `Ok(None)`; a present one is
      handed to the parser and its value, if any, is returned. */
  function FetchAndParse<T, R>(fetch: string -> Result<Option<string>, R>, key: string,
                               parse: string -> Result<T, R>)
    : (r: Result<Option<T>, FieldFromEnvError<R>>)
    ensures r.Err? ==> r.error.variable == key
    ensures fetch(key).Err? ==> r == Err(FieldFromEnvError(fetch(key).error, key))
    ensures r == Ok(None) <==> fetch(key) == Ok(None)
    ensures fetch(key).Ok? && fetch(key).value.Some? ==>
              var raw := fetch(key).value.value;
              && (parse(raw).Ok? ==> r == Ok(Some(parse(raw).value)))
              && (parse(raw).Err? ==> r == Err(FieldFromEnvError(parse(raw).error, key)))
  {
    match fetch(key)
    case Err(report) => Err(FieldFromEnvError(report, key))
    case Ok(None) => Ok(None)
    case Ok(Some(raw)) =>
      match parse(raw)
      case Err(report) => Err(FieldFromEnvError(report, key))
      case Ok(value) => Ok(Some(value))
  }

  /** A `String` field read through `default_env_parse` fails only when the provider does,
      and otherwise holds exactly what the provider returned, absent included. */
  lemma StringFieldReadsRawValue<R>(fetch: string -> Result<Option<string>, R>, key: string)
    ensures var r := FetchAndParse(fetch, key, ParseString<R>);
            && (r.Err? <==> fetch(key).Err?)
            && (r.Ok? ==> r.value == fetch(key).value)
  {
  }

  /** An absent variable never reaches the parser: any two parsers give the same `Ok(None)`. */
  lemma AbsentIgnoresParser<T, R>(fetch: string -> Result<Option<string>, R>, key: string,
                                  parse1: string -> Result<T, R>, parse2: string -> Result<T, R>)
    requires fetch(key) == Ok(None)
    ensures FetchAndParse(fetch, key, parse1) == FetchAndParse(fetch, key, parse2) == Ok(None)
  {
  }

  /** `EnvProvider::try_fetch_multiple_and_parse`: the keys are tried in order; the result
      is `Ok(None)` exactly when every key is absent, and a first key that is present or
      fails decides the result on its own. `FirstPresentKeyDecides` extends the last
      point to whichever key is the first one not absent. */
  function TryFetchMultipleAndParse<T, R>(fetch: string -> Result<Option<string>, R>, keys: seq<string>,
                                          parse: string -> Result<T, R>)
    : (r: Result<Option<T>, FieldFromEnvError<R>>)
    ensures r == Ok(None) <==> forall i :: 0 <= i < |keys| ==> fetch(keys[i]) == Ok(None)
    ensures |keys| > 0 && fetch(keys[0]) != Ok(None) ==> r == FetchAndParse(fetch, keys[0], parse)
  {
    if |keys| == 0 then Ok(None)
    else
      match FetchAndParse(fetch, keys[0], parse)
      case Err(err) => Err(err)
      case Ok(Some(value)) => Ok(Some(value))
      case Ok(None) => TryFetchMultipleAndParse(fetch, keys[1..], parse)
  }

  /** The first key not absent decides: if key `j` is the first one whose fetch is not
      `Ok(None)`, the search returns exactly what fetching and parsing key `j` gives,
      whether a value or an error, and never looks further. */
  lemma {:induction false} FirstPresentKeyDecides<T, R>(fetch: string -> Result<Option<string>, R>, keys: seq<string>,
                                                         parse: string -> Result<T, R>, j: nat)
    requires j < |keys|
    requires forall i :: 0 <= i < j ==> fetch(keys[i]) == Ok(None)
    requires fetch(keys[j]) != Ok(None)
    ensures TryFetchMultipleAndParse(fetch, keys, parse) == FetchAndParse(fetch, keys[j], parse)
  {
    if j > 0 {
      assert fetch(keys[0]) == Ok(None);
      FirstPresentKeyDecides(fetch, keys[1..], parse, j - 1);
    }
  }
}
