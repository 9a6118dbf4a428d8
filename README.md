# scaile-sdk: webhook receiver, validation helpers and configuration overlay

This Dafny project models the parts of the `scaile` Python SDK that hold logic of
their own:

- **The webhook receiver** (`scaile/webhook_listener.py`). It checks the
  `X-Signature` header against the hex HMAC-SHA256 (RFC 2104 over FIPS 180-4)
  of the request body as Flask's `request.data` gives it. The key is `Config.WEBHOOK_SECRET`. It then decodes
  the JSON body once and reads its `event`. It calls `process_webhook` in a loop
  of at most `MAX_RETRIES` = 3 attempts, sleeping `RETRY_DELAY` = 5 seconds
  between attempts. The request ends in 200, 403 or 500, or with an exception
  that escapes the handler. `process_webhook` routes `"new_data"` and
  `"delete_data"` to their own branches. Every other value is an unknown event.
- **The `Utils` helpers** (`scaile/utils.py`). `validate_data` checks required
  fields. `handle_api_response` sorts a response by status code into a parsed
  body or a raised error.
- **The configuration** (`scaile/configs.py`). `Config.DEBUG` and
  `Config.WEBHOOK_SECRET` are read from the environment. `Settings` is a loaded
  configuration dictionary. Variables `SCAILE_<KEY>` override its keys in place,
  and `__getattr__` reads it.

Modules: `Python` (`python.dfy`: bytes, `None`, decoded JSON values, exceptions,
and a `Result` meaning "returned or raised"), `Configs` (`configs.dfy`), `Utils`
(`utils.dfy`) and `WebhookListener` (`webhook_listener.dfy`).

How the outside world is represented:

- The process environment is an explicit `map<string, string>`.
- HMAC-SHA256 with `hexdigest()` is the function parameter `mac`. The only thing
  known about it is that its result is 64 lower-case hex digits.
- `json.loads` is the function parameter `decode`. It returns `None` when the
  real call would raise.
- `time.sleep` is a counter.
- As written, `process_webhook` never raises. The source marks the place for
  real processing with a comment. Whether that processing raises on attempt k
  is the input sequence `failures`: attempt k raises iff `k < |failures|` and
  `failures[k]`. The code as written is the case `failures == []`.

Two behaviours are modelled as the code has them, not as a reader might
expect them:

- **A missing `X-Signature` header.** `request.headers.get` returns `None`, and
  `hmac.compare_digest(str, None)` raises `TypeError`. Python's
  `compare_digest` also raises `TypeError` when a `str` argument holds a
  non-ASCII character. So a missing or non-ASCII header makes an exception
  escape the handler. One might expect a 403 here; the code raises.
- **A body that does not decode, or decodes to something other than a dict.**
  Here `json.loads` or `data.get` raises before the retry loop. The exception
  escapes before the loop, so it is never retried or turned into a 4xx
  answer.

In both cases the model follows the code. An escaping exception is the outcome
`Raised(e)`. Flask would answer with its generic 500 page.

## Model

| member | source | states |
|---|---|---|
| `Configs.Debug` | scaile/configs.py:11 | with `SCAILE_DEBUG` unset the flag is false (the default `"False"`); the value `"true"` gives true |
| `Configs.DebugSpellsTrue` | scaile/configs.py:11 | `Config.DEBUG` holds iff `SCAILE_DEBUG` is set and spells "true" in any letter case |
| `Configs.WebhookSecret` | scaile/configs.py:13 | the secret is the value of `WEBHOOK_SECRET` whenever it is set, even empty; `"default_secret_key"` only when it is unset |
| `Configs.EnvVariable` | scaile/configs.py:39 | the overriding variable of a key is `SCAILE_` followed by the key with each letter upper-cased, character by character |
| `Configs.CaseVariantsShareVariable` | scaile/configs.py:38-41 | keys that differ only in letter case read one variable, and a non-empty value of it overrides both with the same string |
| `Configs.Overlay` | scaile/configs.py:36-41 | the override keeps the same keys; a key whose variable is set and non-empty gets that string; every other key keeps its loaded value |
| `Configs.OverrideKeysPartial` | scaile/configs.py:38-41 | after the loop body has run for some keys, exactly the visited keys with a non-empty variable hold that variable's string |
| `Configs.AnyKeyOrderGivesOverlay` | scaile/configs.py:38-41 | visiting the keys in any order, each at least once, gives the same configuration: each key depends only on its own variable |
| `Configs.OverlayIdempotent` | scaile/configs.py:36-41 | overriding a second time from the same environment changes nothing |
| `Configs.Settings.constructor` | scaile/configs.py:16-28 | a new `Settings` keeps its environment name and holds the loaded configuration overridden from the environment |
| `Configs.Settings.OverrideFromEnv` | scaile/configs.py:36-41 | the in-place loop over the keys leaves `config` equal to `Overlay` of its old value, whatever order the keys are visited in |
| `Configs.Settings.GetAttr` | scaile/configs.py:43-47 | returns `config[name]` iff `name` is a key; otherwise raises `AttributeError("No configuration found for: " + name)` |
| `Utils.MissingFields` | scaile/utils.py:17 | a name is in the missing list iff it is required and not a key of `data`; the list is empty iff every required field is present |
| `Utils.MissingFieldsAppend` | scaile/utils.py:17 | the filter distributes over concatenation of `required_fields`, so their order is kept |
| `Utils.MissingFieldsCount` | scaile/utils.py:17 | an absent name occurs in the missing list exactly as often as in `required_fields`; a present name never occurs |
| `Utils.MissingFieldsFirst` | scaile/utils.py:17-19 | the first required name absent from `data` heads the missing list, and so comes first in the error message |
| `Utils.Join` | scaile/utils.py:19 | `", ".join` of no names is empty and of one name is that name; a joined list starts with its first name |
| `Utils.ValidateData` | scaile/utils.py:9-20 | returns `True` iff every required field is a key of `data`; otherwise raises `ValueError` with `"Missing required fields: "` and the missing names joined by `", "` |
| `Utils.ErrorDetail` | scaile/utils.py:34-38 | the body's `"message"` entry (even `null`) when the body parses to a dict holding one; `"Unknown error"` for a dict without it; `response.text` when parsing raises or the parsed body is not a dict |
| `Utils.HandleApiResponse` | scaile/utils.py:23-39 | returns the parsed body iff the status is in [200, 300) and the body parses; a 2xx status with an unparseable body raises the parse error; any other status raises the API error with that status and `ErrorDetail` |
| `Utils.SuccessRangeBoundaries` | scaile/utils.py:31-32 | 200 and 299 return the body; 199 and 300 raise |
| `WebhookListener.HexDigestIsAscii` | scaile/webhook_listener.py:18-22 | a hex digest is ASCII, so `compare_digest` never rejects the expected signature for its own characters |
| `WebhookListener.CompareDigest` | scaile/webhook_listener.py:24 | raises `TypeError` iff the header is absent or either string is non-ASCII; otherwise it is true iff the two strings are equal |
| `WebhookListener.VerifySignature` | scaile/webhook_listener.py:16-24 | defined iff the header is present and ASCII; then true iff it equals the hex HMAC of the raw payload under `Config.WEBHOOK_SECRET`; a missing header raises `TypeError` |
| `WebhookListener.GenuineSignatureAccepted` | scaile/webhook_listener.py:16-24 | the digest of the exact body under the configured secret is accepted; every other string is not |
| `WebhookListener.EventOf` | scaile/webhook_listener.py:38 | `data.get("event")` succeeds iff the body decoded to a dict; it is the `event` entry, or `None` when absent; otherwise it raises `AttributeError` naming the decoded type |
| `WebhookListener.ProcessWebhook` | scaile/webhook_listener.py:58-67 | the `new_data` branch iff `event` is the string `"new_data"`, the `delete_data` branch iff it is `"delete_data"`; anything else, a missing event included, is the unknown branch |
| `WebhookListener.RetryFrom` | scaile/webhook_listener.py:42-56 | the loop calls at most `MAX_RETRIES` times and sleeps once less than it calls; it answers 200 right after the first attempt that does not raise; it answers 500 only when every attempt raised, after all `MAX_RETRIES` calls |
| `WebhookListener.Handle` | scaile/webhook_listener.py:27-56 | decodes at most once and calls at most `MAX_RETRIES` times; answers 403 iff verification returns false, with no decode and no call; a missing header escapes as `TypeError` before anything else; a call happens only after exactly one decode that returned a dict; the total sleep is at most `(MAX_RETRIES - 1) * RETRY_DELAY` seconds |
| `WebhookListener.HandleWebhook` | scaile/webhook_listener.py:27-56 | the loop with early returns computes exactly the outcome, decode count, call count, sleep count and branch of `Handle` |
| `WebhookListener.SucceedsOnFirstPassingAttempt` | scaile/webhook_listener.py:42-54 | for a verified request with a dict body, if attempt k is the first that does not raise, the request answers 200 after exactly k + 1 calls and k sleeps |
| `WebhookListener.FailsWhenEveryAttemptRaises` | scaile/webhook_listener.py:42-56 | for a verified request with a dict body, if every attempt raises, the request answers 500 after `MAX_RETRIES` calls and `MAX_RETRIES - 1` sleeps |
| `WebhookListener.UndecodableBodyNotRetried` | scaile/webhook_listener.py:37-42 | a verified body that is not JSON, or is JSON but not a dict, raises after one decode, with no call and no sleep |
| `WebhookListener.AsWrittenSucceedsAtOnce` | scaile/webhook_listener.py:42-67 | as written, with `process_webhook` never raising, every verified request with a dict body answers 200 on the first attempt without sleeping |

## Left out

- HTTP client and endpoint wrappers (`scaile/client.py`, `scaile/annotation.py`, `scaile/rewards.py`, `scaile/storage.py`): they only build paths and forward them to HTTP calls.
- Logging (`logger` calls, `scaile/logging.py`, `Utils.setup_logging`, `Utils.log_error`, `Utils.log_info`): no functional effect.
- Flask routing and `jsonify`: a response is its status and body dictionary. An exception that escapes the handler is `Raised(e)`; the generic 500 page Flask makes of it is not modelled.
- `Request.payload` is `request.data`. Werkzeug leaves it empty when it parses the body itself (a form-encoded POST), so for such a request the HMAC covers empty bytes; how Werkzeug fills `request.data` is not modelled.
- Reading the header: `X-Signature` is given as an `Option<string>`. Werkzeug's case-insensitive lookup and its choice among repeated headers are not modelled.
- HMAC-SHA256, `hexdigest()` and the UTF-8 `.encode()` of the secret are folded into the uninterpreted parameter `mac`. A secret that cannot be encoded (a lone surrogate) would raise; that is not modelled.
- The constant-time behaviour of `hmac.compare_digest`: it concerns timing, not results.
- `json.loads` is the uninterpreted parameter `decode`. What it names an undecodable body (JSON or Unicode decode error) is one exception, `JSONDecodeError`.
- `time.sleep`: only the number of sleeps is recorded. The delay in seconds follows as sleeps times `RETRY_DELAY`.
- `Utils.HandleApiResponse`: does not render the text of the raised `Exception`. It carries the status and the value put into the f-string instead, because `str()` of a non-string value (a number, a list, a dict) is not modelled.
- `Configs.Debug` and `Configs.WebhookSecret`: their `environ` is the process environment when `scaile.configs` is imported. Both values are computed as the class `Config` is defined, before `Settings.__init__` loads `.env.<env>`. A secret present only in that file is therefore never seen. The model takes `environ` as a separate parameter for each function and does not tie these environments together.
- `Configs.AsciiUpper` and `Configs.AsciiLower` change ASCII letters only. Python's Unicode case mapping (`"ß".upper() == "SS"`) is not modelled.
- `Configs.Settings.constructor`: loading `.env.<env>` with `load_dotenv` and reading `configs/config.<env>.yaml` are replaced by the already loaded dictionary and environment. So is choosing the environment name from `SCAILE_ENV` at module level (line 50).
- `Configs.Overlay`: configuration keys are strings. A YAML file with a non-string key would make `key.upper()` raise, and an empty file (`None`) would make `.keys()` raise. Neither is modelled.
- `Configs.Settings.GetAttr`: Python calls `__getattr__` only when ordinary attribute lookup fails. So a configuration key named `env`, `base_dir`, `config` or after a method is shadowed; that is not modelled.
- Example scripts, `setup.py`, `scaile/__init__.py` and the tests: they do not describe the modelled code. The tests call methods that do not exist.
