/**
  The helpers of `Utils` (scaile/utils.py) that carry logic: the required-field
  check and the classification of an API response by its status code.
 */
module Utils {
  import opened Python

  const MissingFieldsPrefix := "Missing required fields: "
  const UnknownError := "Unknown error"

  /**
    `[field for field in required_fields if field not in data]`: the required
    names absent from `data`, in the order and with the multiplicity they have
    in `requiredFields`.
   */
  function MissingFields<V>(data: map<string, V>, requiredFields: seq<string>): (missing: seq<string>)
    ensures |missing| <= |requiredFields|
    ensures forall f :: f in missing <==> f in requiredFields && f !in data
    ensures missing == [] <==> forall i :: 0 <= i < |requiredFields| ==> requiredFields[i] in data
  {
    if requiredFields == [] then []
    else (if requiredFields[0] in data then [] else [requiredFields[0]]) + MissingFields(data, requiredFields[1..])
  }

  /** The filter distributes over concatenation, so it keeps the order of `requiredFields`. */
  lemma {:induction false} MissingFieldsAppend<V>(data: map<string, V>, a: seq<string>, b: seq<string>)
    ensures MissingFields(data, a + b) == MissingFields(data, a) + MissingFields(data, b)
    decreases |a|
  {
    if a == [] {
      assert a + b == b;
    } else {
      assert (a + b)[0] == a[0] && (a + b)[1..] == a[1..] + b;
      MissingFieldsAppend(data, a[1..], b);
    }
  }

  /** A missing name occurs in the result as often as in `requiredFields`: duplicates are kept. */
  lemma {:induction false} MissingFieldsCount<V>(data: map<string, V>, requiredFields: seq<string>, f: string)
    ensures multiset(MissingFields(data, requiredFields))[f]
         == if f in data then 0 else multiset(requiredFields)[f]
    decreases |requiredFields|
  {
    if requiredFields != [] {
      MissingFieldsCount(data, requiredFields[1..], f);
      assert requiredFields == [requiredFields[0]] + requiredFields[1..];
    }
  }

  /** `sep.join(parts)`. */
  function Join(sep: string, parts: seq<string>): (s: string)
    ensures parts == [] ==> s == ""
    ensures |parts| == 1 ==> s == parts[0]
    ensures |parts| > 0 ==> |s| >= |parts[0]| && s[..|parts[0]|] == parts[0]
  {
    if parts == [] then ""
    else if |parts| == 1 then parts[0]
    else parts[0] + sep + Join(sep, parts[1..])
  }

  /**
    `validate_data`: `True` when every required field is a key of `data`;
    otherwise `ValueError("Missing required fields: " + ", ".join(missing))`.
   */
  function ValidateData<V>(data: map<string, V>, requiredFields: seq<string>): (r: Result<bool>)
    ensures r.Ok? <==> forall i :: 0 <= i < |requiredFields| ==> requiredFields[i] in data
    ensures r.Ok? ==> r.value
    ensures r.Raise? ==> r.error == ValueError(MissingFieldsPrefix + Join(", ", MissingFields(data, requiredFields)))
  {
    var missing := MissingFields(data, requiredFields);
    if missing != [] then Raise(ValueError(MissingFieldsPrefix + Join(", ", missing)))
    else Ok(true)
  }

  /**
    When `requiredFields[k]` is the first required name absent from `data`, it
    heads the missing list, followed by whatever is missing after it; it is
    therefore the first name after the prefix in the `ValueError` message.
   */
  lemma MissingFieldsFirst<V>(data: map<string, V>, requiredFields: seq<string>, k: nat)
    requires k < |requiredFields| && requiredFields[k] !in data
    requires forall j :: 0 <= j < k ==> requiredFields[j] in data
    ensures MissingFields(data, requiredFields) == [requiredFields[k]] + MissingFields(data, requiredFields[k + 1..])
  {
    var before, rest := requiredFields[..k], requiredFields[k..];
    assert requiredFields == before + rest;
    MissingFieldsAppend(data, before, rest);
    assert MissingFields(data, before) == [] by {
      forall i | 0 <= i < |before| ensures before[i] in data { assert before[i] == requiredFields[i]; }
    }
    assert rest[1..] == requiredFields[k + 1..];
  }

  /**
    A response as `handle_api_response` sees it: the status code, the outcome of
    `response.json()` (`None` when it raises) and `response.text`.
   */
  datatype Response = Response(statusCode: int, json: Option<Json>, text: string)

  predicate IsSuccessStatus(status: int) {
    200 <= status < 300
  }

  /** `response.json()` returns a dict, so `error_data.get` does not raise. */
  predicate IsDictBody(response: Response) {
    response.json.Some? && response.json.value.JDict?
  }

  /**
    The value put into the message of a failed call: the body's `"message"`
    entry when the body parses to a dict that has one (whatever its value,
    `null` included), `"Unknown error"` for a dict without it, and the raw text
    when parsing raises or the parsed body has no `.get`.
   */
  function ErrorDetail(response: Response): (detail: Json)
    ensures IsDictBody(response) && "message" in response.json.value.fields ==>
              detail == response.json.value.fields["message"]
    ensures IsDictBody(response) && "message" !in response.json.value.fields ==>
              detail == JString(UnknownError)
    ensures !IsDictBody(response) ==> detail == JString(response.text)
  {
    match response.json
    case Some(JDict(fields)) => if "message" in fields then fields["message"] else JString(UnknownError)
    case _ => JString(response.text)
  }

  /**
    `handle_api_response`: returns the parsed body for a 2xx status (and lets the
    parse error through when the body is not JSON); for every other status it
    raises, carrying the status and the detail chosen by `ErrorDetail`.
   */
  function HandleApiResponse(response: Response): (r: Result<Json>)
    ensures r.Ok? <==> IsSuccessStatus(response.statusCode) && response.json.Some?
    ensures r.Ok? ==> r.value == response.json.value
    ensures IsSuccessStatus(response.statusCode) && response.json.None? ==> r == Raise(JSONDecodeError)
    ensures !IsSuccessStatus(response.statusCode) ==>
              r == Raise(ApiRequestFailed(response.statusCode, ErrorDetail(response)))
  {
    if response.statusCode >= 200 && response.statusCode < 300 then
      match response.json
      case Some(body) => Ok(body)
      case None => Raise(JSONDecodeError)
    else
      Raise(ApiRequestFailed(response.statusCode, ErrorDetail(response)))
  }

  /** The success range is closed at 200 and open at 300: 200 and 299 pass, 199 and 300 raise. */
  lemma SuccessRangeBoundaries(json: Json, text: string)
    ensures HandleApiResponse(Response(200, Some(json), text)) == Ok(json)
    ensures HandleApiResponse(Response(299, Some(json), text)) == Ok(json)
    ensures HandleApiResponse(Response(199, Some(json), text)).error.ApiRequestFailed?
    ensures HandleApiResponse(Response(300, Some(json), text)).error.ApiRequestFailed?
  {
  }
}
