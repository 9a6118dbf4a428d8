/**
  The webhook receiver (scaile/webhook_listener.py): HMAC signature check on the
  raw body, one JSON decode and `event` lookup, a bounded retry loop around
  `process_webhook`, and its three-way dispatch on the event name.

  HMAC-SHA256 with `hexdigest()` is the parameter `mac`, `json.loads` the
  parameter `decode`, and `time.sleep` a counter. `process_webhook` never raises
  as written; whether the processing raises on attempt k (the custom logic that
  the source leaves as a comment) is the input `failures`.
 */
module WebhookListener {
  import opened Python
  import Configs

  /** `MAX_RETRIES`: attempts per request. */
  const MaxRetries: nat := 3
  /** `RETRY_DELAY`: seconds slept between two attempts. */
  const RetryDelay: nat := 5

  predicate IsLowerHexDigit(c: char) {
    '0' <= c <= '9' || 'a' <= c <= 'f'
  }

  /** What `hexdigest()` of an HMAC-SHA256 returns: 64 lower-case hex digits. */
  predicate IsHexDigest(s: string) {
    |s| == 64 && forall i :: 0 <= i < |s| ==> IsLowerHexDigit(s[i])
  }

  type HexDigest = s: string | IsHexDigest(s)
    witness seq(64, _ => '0')

  /**
    `hmac.new(key=secret.encode(), msg=payload, digestmod=hashlib.sha256).hexdigest()`,
    left uninterpreted: the key string and the message bytes to the digest.
   */
  type Mac = (string, seq<byte>) -> HexDigest

  /** `json.loads(payload)`, left uninterpreted: `None` when it raises. */
  type Decoder = seq<byte> -> Option<Json>

  lemma HexDigestIsAscii(s: HexDigest)
    ensures IsAscii(s)
  {
  }

  /**
    `hmac.compare_digest(a, b)` on a `str` and the header value: it raises
    `TypeError` when the header is absent (`None`) or either string holds a
    non-ASCII character, and otherwise tells whether the two are equal.
   */
  function CompareDigest(a: string, b: Option<string>): (r: Result<bool>)
    ensures r.Ok? <==> b.Some? && IsAscii(a) && IsAscii(b.value)
    ensures r.Ok? ==> (r.value <==> a == b.value)
    ensures r.Raise? ==> r.error == TypeError
  {
    match b
    case None => Raise(TypeError)
    case Some(s) => if IsAscii(a) && IsAscii(s) then Ok(a == s) else Raise(TypeError)
  }

  /**
    `verify_signature`: compares the supplied header with the hex HMAC-SHA256 of
    the raw payload bytes under `Config.WEBHOOK_SECRET`. It is true exactly for
    that digest, false for every other ASCII string, and raises `TypeError` for
    a missing header or a non-ASCII one.
   */
  function VerifySignature(environ: map<string, string>, mac: Mac, payload: seq<byte>, signature: Option<string>)
    : (r: Result<bool>)
    ensures r.Ok? <==> signature.Some? && IsAscii(signature.value)
    ensures r.Ok? ==> (r.value <==> signature.value == mac(Configs.WebhookSecret(environ), payload))
    ensures signature.None? ==> r == Raise(TypeError)
  {
    var expected := mac(Configs.WebhookSecret(environ), payload);
    HexDigestIsAscii(expected);
    CompareDigest(expected, signature)
  }

  /** The digest the sender computes over the exact body is accepted; no other string is. */
  lemma GenuineSignatureAccepted(environ: map<string, string>, mac: Mac, payload: seq<byte>, other: string)
    ensures VerifySignature(environ, mac, payload, Some(mac(Configs.WebhookSecret(environ), payload))) == Ok(true)
    ensures other != mac(Configs.WebhookSecret(environ), payload) ==>
              VerifySignature(environ, mac, payload, Some(other)) != Ok(true)
  {
  }

  /**
    `data.get("event")` at line 38: the `event` entry of a dict, `None` (here
    `JNull`) when it is absent; any other decoded value has no `.get`.
   */
  function EventOf(data: Json): (r: Result<Json>)
    ensures r.Ok? <==> data.JDict?
    ensures r.Ok? && "event" in data.fields ==> r.value == data.fields["event"]
    ensures r.Ok? && "event" !in data.fields ==> r.value == JNull
    ensures r.Raise? ==> r.error == AttributeError("'" + TypeName(data) + "' object has no attribute 'get'")
  {
    match data
    case JDict(fields) => Ok(if "event" in fields then fields["event"] else JNull)
    case _ => Raise(AttributeError("'" + TypeName(data) + "' object has no attribute 'get'"))
  }

  /** The branch `process_webhook` takes. */
  datatype Route = NewData | DeleteData | UnknownEvent(event: Json)

  /**
    `process_webhook`: `"new_data"` and `"delete_data"` have their own branches;
    every other value, a missing `event` and JSON `null` included, is unknown.
   */
  function ProcessWebhook(data: map<string, Json>): (route: Route)
    ensures route == NewData <==> "event" in data && data["event"] == JString("new_data")
    ensures route == DeleteData <==> "event" in data && data["event"] == JString("delete_data")
    ensures "event" !in data ==> route == UnknownEvent(JNull)
    ensures route.UnknownEvent? ==> route.event == EventOf(JDict(data)).value
  {
    var event := if "event" in data then data["event"] else JNull;
    if event == JString("new_data") then NewData
    else if event == JString("delete_data") then DeleteData
    else UnknownEvent(event)
  }

  /** What `handle_webhook` returns, or the exception that escapes it. */
  datatype Outcome = Responded(status: int, body: map<string, string>) | Raised(error: Exception)

  const Success := Responded(200, map["status" := "success"])
  const Unauthorized := Responded(403, map["error" := "Unauthorized"])
  const FailedAfterRetries := Responded(500, map["error" := "Failed after retries"])

  /** Attempt `attempt` (counted from 0, as `range` does) of the processing raises. */
  predicate RaisesOn(failures: seq<bool>, attempt: nat) {
    attempt < |failures| && failures[attempt]
  }

  /** The result of the retry loop: outcome, calls of `process_webhook`, sleeps. */
  datatype Attempts = Attempts(outcome: Outcome, calls: nat, sleeps: nat)

  /**
    The retry loop from attempt `attempt` on, as a state machine: success ends
    it with 200; a failure before the last attempt sleeps and moves on; a
    failure on the last attempt ends it with 500, without sleeping. The loop
    ends on the first attempt that does not raise, it sleeps once less than it
    calls, and it fails only after every attempt raised.
   */
  function RetryFrom(failures: seq<bool>, attempt: nat): (a: Attempts)
    requires attempt < MaxRetries
    ensures attempt < a.calls <= MaxRetries
    ensures a.sleeps == a.calls - 1
    ensures a.outcome == Success || a.outcome == FailedAfterRetries
    ensures a.outcome == Success ==>
              !RaisesOn(failures, a.calls - 1) && forall j :: attempt <= j < a.calls - 1 ==> RaisesOn(failures, j)
    ensures a.outcome == FailedAfterRetries ==>
              a.calls == MaxRetries && forall j :: attempt <= j < MaxRetries ==> RaisesOn(failures, j)
    decreases MaxRetries - attempt
  {
    if !RaisesOn(failures, attempt) then Attempts(Success, attempt + 1, attempt)
    else if attempt < MaxRetries - 1 then RetryFrom(failures, attempt + 1)
    else Attempts(FailedAfterRetries, MaxRetries, MaxRetries - 1)
  }

  /** The request: the bytes of `request.data` and the `X-Signature` header, `None` when absent. */
  datatype Request = Request(payload: seq<byte>, signature: Option<string>)

  /**
    What one request does: its outcome, how often `json.loads` and
    `process_webhook` ran, how often it slept, and the dispatch branch taken.
   */
  datatype Trace = Trace(outcome: Outcome, decodes: nat, calls: nat, sleeps: nat, route: Option<Route>)

  /**
    `handle_webhook` on one request. The signature is checked first, on the
    raw bytes; a rejected request answers 403 before any decoding. An exception
    from the check, the decode or the `event` lookup escapes before the loop,
    so none of them is retried. Otherwise the loop runs as `RetryFrom` says.
   */
  function Handle(environ: map<string, string>, mac: Mac, decode: Decoder, request: Request, failures: seq<bool>)
    : (t: Trace)
    ensures t.decodes <= 1 && t.calls <= MaxRetries
    ensures t.outcome == Unauthorized <==>
              VerifySignature(environ, mac, request.payload, request.signature) == Ok(false)
    ensures t.outcome == Unauthorized ==> t.decodes == 0 && t.calls == 0
    ensures request.signature.None? ==> t == Trace(Raised(TypeError), 0, 0, 0, None)
    ensures t.decodes == 1 ==> VerifySignature(environ, mac, request.payload, request.signature) == Ok(true)
    ensures t.calls > 0 ==> t.decodes == 1 && t.sleeps == t.calls - 1
    ensures t.calls > 0 ==> decode(request.payload).Some? && decode(request.payload).value.JDict?
    ensures t.calls == 0 ==> t.sleeps == 0 && t.route.None?
    ensures t.outcome == FailedAfterRetries ==> t.calls == MaxRetries && t.sleeps == MaxRetries - 1
    ensures t.sleeps * RetryDelay <= (MaxRetries - 1) * RetryDelay
  {
    match VerifySignature(environ, mac, request.payload, request.signature)
    case Raise(e) => Trace(Raised(e), 0, 0, 0, None)
    case Ok(verified) =>
      if !verified then Trace(Unauthorized, 0, 0, 0, None)
      else
        match decode(request.payload)
        case None => Trace(Raised(JSONDecodeError), 1, 0, 0, None)
        case Some(data) =>
          match EventOf(data)
          case Raise(e) => Trace(Raised(e), 1, 0, 0, None)
          case Ok(_) =>
            var a := RetryFrom(failures, 0);
            Trace(a.outcome, 1, a.calls, a.sleeps, Some(ProcessWebhook(data.fields)))
  }

  /**
    `handle_webhook` as the source runs it: a `for attempt in range(MAX_RETRIES)`
    loop with an early return on success and on the last failure, and a sleep
    after every other failure.
   */
  method HandleWebhook(environ: map<string, string>, mac: Mac, decode: Decoder, request: Request, failures: seq<bool>)
    returns (t: Trace)
    ensures t == Handle(environ, mac, decode, request, failures)
  {
    var verified := VerifySignature(environ, mac, request.payload, request.signature);
    if verified.Raise? {
      return Trace(Raised(verified.error), 0, 0, 0, None);
    }
    if !verified.value {
      return Trace(Unauthorized, 0, 0, 0, None);
    }
    var decoded := decode(request.payload);
    if decoded.None? {
      return Trace(Raised(JSONDecodeError), 1, 0, 0, None);
    }
    var data := decoded.value;
    var event := EventOf(data);
    if event.Raise? {
      return Trace(Raised(event.error), 1, 0, 0, None);
    }
    var calls, sleeps := 0, 0;
    var attempt := 0;
    while attempt < MaxRetries
      invariant attempt < MaxRetries
      invariant calls == attempt && sleeps == attempt
      invariant RetryFrom(failures, attempt) == RetryFrom(failures, 0)
      decreases MaxRetries - attempt
    {
      var route := ProcessWebhook(data.fields);
      calls := calls + 1;
      if !RaisesOn(failures, attempt) {
        return Trace(Success, 1, calls, sleeps, Some(route));
      }
      if attempt < MaxRetries - 1 {
        sleeps := sleeps + 1;
      } else {
        return Trace(FailedAfterRetries, 1, calls, sleeps, Some(route));
      }
      attempt := attempt + 1;
    }
    assert false;
  }

  /** A verified request whose body decodes to a dict: the loop is entered. */
  predicate Dispatchable(environ: map<string, string>, mac: Mac, decode: Decoder, request: Request) {
    VerifySignature(environ, mac, request.payload, request.signature) == Ok(true)
    && decode(request.payload).Some? && decode(request.payload).value.JDict?
  }

  /**
    If attempt k is the first that does not raise, the request answers 200
    after exactly k + 1 calls and k sleeps.
   */
  lemma SucceedsOnFirstPassingAttempt(environ: map<string, string>, mac: Mac, decode: Decoder, request: Request,
                                      failures: seq<bool>, k: nat)
    requires Dispatchable(environ, mac, decode, request)
    requires k < MaxRetries && !RaisesOn(failures, k)
    requires forall j :: 0 <= j < k ==> RaisesOn(failures, j)
    ensures Handle(environ, mac, decode, request, failures)
         == Trace(Success, 1, k + 1, k, Some(ProcessWebhook(decode(request.payload).value.fields)))
  {
  }

  /** If every attempt raises, the request answers 500 after MaxRetries calls and one sleep fewer. */
  lemma FailsWhenEveryAttemptRaises(environ: map<string, string>, mac: Mac, decode: Decoder, request: Request,
                                    failures: seq<bool>)
    requires Dispatchable(environ, mac, decode, request)
    requires forall j :: 0 <= j < MaxRetries ==> RaisesOn(failures, j)
    ensures Handle(environ, mac, decode, request, failures)
         == Trace(FailedAfterRetries, 1, MaxRetries, MaxRetries - 1,
                  Some(ProcessWebhook(decode(request.payload).value.fields)))
  {
  }

  /** A body that does not decode, or decodes to something other than a dict, is never retried. */
  lemma UndecodableBodyNotRetried(environ: map<string, string>, mac: Mac, decode: Decoder, request: Request,
                                  failures: seq<bool>)
    requires VerifySignature(environ, mac, request.payload, request.signature) == Ok(true)
    requires decode(request.payload).None? || !decode(request.payload).value.JDict?
    ensures var t := Handle(environ, mac, decode, request, failures);
      t.outcome.Raised? && t.decodes == 1 && t.calls == 0 && t.sleeps == 0
  {
  }

  /**
    As written, `process_webhook` never raises: every verified request with a
    dict body answers 200 on the first attempt, without sleeping.
   */
  lemma AsWrittenSucceedsAtOnce(environ: map<string, string>, mac: Mac, decode: Decoder, request: Request)
    requires Dispatchable(environ, mac, decode, request)
    ensures Handle(environ, mac, decode, request, [])
         == Trace(Success, 1, 1, 0, Some(ProcessWebhook(decode(request.payload).value.fields)))
  {
  }
}
