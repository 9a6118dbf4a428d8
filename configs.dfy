/**
  Configuration of the SDK (scaile/configs.py): the two process-wide values of
  `Config`, derived from the environment, and `Settings`, a loaded configuration
  dictionary that environment variables named `SCAILE_<KEY>` override in place.

  The process environment is an explicit `map<string, string>` (`environ`);
  `os.getenv(name)` is `Get(environ, name)`.
 */
module Configs {
  import opened Python

  const DebugVariable := "SCAILE_DEBUG"
  const WebhookSecretVariable := "WEBHOOK_SECRET"
  const DefaultWebhookSecret := "default_secret_key"
  const EnvPrefix := "SCAILE_"

  /** `os.getenv(name, default)`: `os.getenv(name)` with `None` replaced by `default`. */
  function GetenvOr(environ: map<string, string>, name: string, default: string): string {
    match Get(environ, name)
    case Some(v) => v
    case None => default
  }

  function LowerChar(c: char): char {
    if 'A' <= c <= 'Z' then (c as int + 32) as char else c
  }

  function UpperChar(c: char): char {
    if 'a' <= c <= 'z' then (c as int - 32) as char else c
  }

  /** `s.lower()`, restricted to ASCII letters. */
  function AsciiLower(s: string): (r: string)
    ensures |r| == |s|
    ensures forall i :: 0 <= i < |s| ==> r[i] == LowerChar(s[i])
  {
    seq(|s|, i requires 0 <= i < |s| => LowerChar(s[i]))
  }

  /** `s.upper()`, restricted to ASCII letters. */
  function AsciiUpper(s: string): (r: string)
    ensures |r| == |s|
    ensures forall i :: 0 <= i < |s| ==> r[i] == UpperChar(s[i])
  {
    seq(|s|, i requires 0 <= i < |s| => UpperChar(s[i]))
  }

  /** `Config.DEBUG`: `SCAILE_DEBUG`, lower-cased, is `"true"`; unset reads as `"False"`. */
  function Debug(environ: map<string, string>): (debug: bool)
    ensures DebugVariable !in environ ==> !debug
    ensures DebugVariable in environ && environ[DebugVariable] == "true" ==> debug
  {
    AsciiLower(GetenvOr(environ, DebugVariable, "False")) == "true"
  }

  /** The value spells "true" in any mix of upper and lower case. */
  predicate SpellsTrue(v: string) {
    |v| == 4 && v[0] in "tT" && v[1] in "rR" && v[2] in "uU" && v[3] in "eE"
  }

  /** `Config.DEBUG` holds exactly when `SCAILE_DEBUG` is set to "true" ignoring case. */
  lemma DebugSpellsTrue(environ: map<string, string>)
    ensures Debug(environ) <==> DebugVariable in environ && SpellsTrue(environ[DebugVariable])
  {
  }

  /**
    `Config.WEBHOOK_SECRET`: the value of `WEBHOOK_SECRET` whenever it is set,
    even to the empty string, and `"default_secret_key"` only when it is unset.
   */
  function WebhookSecret(environ: map<string, string>): (secret: string)
    ensures WebhookSecretVariable in environ ==> secret == environ[WebhookSecretVariable]
    ensures WebhookSecretVariable !in environ ==> secret == DefaultWebhookSecret
  {
    GetenvOr(environ, WebhookSecretVariable, DefaultWebhookSecret)
  }

  /** The variable that overrides configuration key `key`: `f"SCAILE_{key.upper()}"`. */
  function EnvVariable(key: string): (name: string)
    ensures |name| == |EnvPrefix| + |key| && name[..|EnvPrefix|] == EnvPrefix
    ensures forall i :: 0 <= i < |key| ==> name[|EnvPrefix| + i] == UpperChar(key[i])
  {
    EnvPrefix + AsciiUpper(key)
  }

  /**
    Keys that differ only in the case of their letters (`"foo"` and `"FOO"`)
    read the same variable, so one non-empty `SCAILE_FOO` overrides both with
    the same string.
   */
  lemma CaseVariantsShareVariable(config: map<string, Json>, environ: map<string, string>, a: string, b: string)
    requires |a| == |b| && forall i :: 0 <= i < |a| ==> UpperChar(a[i]) == UpperChar(b[i])
    requires a in config && b in config && Overrides(environ, a)
    ensures EnvVariable(a) == EnvVariable(b)
    ensures Overlay(config, environ)[a] == Overlay(config, environ)[b] == JString(environ[EnvVariable(a)])
  {
    assert EnvVariable(a) == EnvVariable(b);
  }

  /** `if env_value := os.getenv(env_key)`: the variable is set and not empty. */
  predicate Overrides(environ: map<string, string>, key: string) {
    EnvVariable(key) in environ && environ[EnvVariable(key)] != ""
  }

  /**
    The configuration after the override: the same keys; a key whose variable is
    set and non-empty holds that variable's string, every other key keeps its value.
   */
  function Overlay(config: map<string, Json>, environ: map<string, string>): (r: map<string, Json>)
    ensures r.Keys == config.Keys
    ensures forall k :: k in r && Overrides(environ, k) ==> r[k] == JString(environ[EnvVariable(k)])
    ensures forall k :: k in r && !Overrides(environ, k) ==> r[k] == config[k]
  {
    map k | k in config :: if Overrides(environ, k) then JString(environ[EnvVariable(k)]) else config[k]
  }

  /*
    The loop of `_override_from_env` once more, over an explicit sequence of
    keys. `Settings.OverrideFromEnv` below runs it on the object, picking each
    key arbitrarily; this sequence form makes the independence from the
    visiting order a stated lemma rather than a consequence of that choice.
   */

  /** One pass of the loop body for `key`. */
  function OverrideKey(config: map<string, Json>, environ: map<string, string>, key: string): map<string, Json> {
    if Overrides(environ, key) then config[key := JString(environ[EnvVariable(key)])] else config
  }

  /** The loop body run for each key of `keys`, in that order. */
  function OverrideKeys(config: map<string, Json>, environ: map<string, string>, keys: seq<string>): map<string, Json>
    decreases |keys|
  {
    if keys == [] then config else OverrideKeys(OverrideKey(config, environ, keys[0]), environ, keys[1..])
  }

  /**
    Running the loop body over the keys in any order, each at least once and
    none from outside the configuration, gives `Overlay`: the result does not
    depend on the iteration order of `self.config.keys()`.
   */
  lemma {:induction false} AnyKeyOrderGivesOverlay(config: map<string, Json>, environ: map<string, string>, keys: seq<string>)
    requires forall i :: 0 <= i < |keys| ==> keys[i] in config
    requires forall k :: k in config ==> k in keys
    ensures OverrideKeys(config, environ, keys) == Overlay(config, environ)
  {
    OverrideKeysPartial(config, environ, keys);
  }

  lemma {:induction false} OverrideKeysPartial(config: map<string, Json>, environ: map<string, string>, keys: seq<string>)
    requires forall i :: 0 <= i < |keys| ==> keys[i] in config
    ensures OverrideKeys(config, environ, keys)
         == map k | k in config :: if k in keys && Overrides(environ, k) then JString(environ[EnvVariable(k)]) else config[k]
    decreases |keys|
  {
    if keys != [] {
      var next := OverrideKey(config, environ, keys[0]);
      assert next.Keys == config.Keys;
      OverrideKeysPartial(next, environ, keys[1..]);
      forall k | k in config
        ensures (if k in keys[1..] && Overrides(environ, k) then JString(environ[EnvVariable(k)]) else next[k])
             == (if k in keys && Overrides(environ, k) then JString(environ[EnvVariable(k)]) else config[k])
      {
        assert k in keys <==> k == keys[0] || k in keys[1..];
      }
    }
  }

  /** Overriding twice from the same environment changes nothing further. */
  lemma OverlayIdempotent(config: map<string, Json>, environ: map<string, string>)
    ensures Overlay(Overlay(config, environ), environ) == Overlay(config, environ)
  {
  }

  /**
    `Settings`: the environment name and the configuration dictionary that
    `__init__` loads and then overrides from the environment.
   */
  class Settings {
    var env: string
    var config: map<string, Json>

    /**
      `Settings(env)`, with the file and YAML loading replaced by the already
      loaded dictionary `loaded` and the process environment by `environ`.
     */
    constructor (env: string, loaded: map<string, Json>, environ: map<string, string>)
      ensures this.env == env
      ensures config == Overlay(loaded, environ)
    {
      this.env := env;
      config := loaded;
      new;
      OverrideFromEnv(environ);
    }

    /** `_override_from_env`: reassigns, in place, every key whose variable is set and non-empty. */
    method OverrideFromEnv(environ: map<string, string>)
      modifies this
      ensures env == old(env)
      ensures config == Overlay(old(config), environ)
    {
      var keys := config.Keys;
      while keys != {}
        invariant env == old(env)
        invariant keys <= config.Keys == old(config).Keys
        invariant forall k :: k in config && k in keys ==> config[k] == old(config)[k]
        invariant forall k :: k in config && k !in keys ==> config[k] == Overlay(old(config), environ)[k]
        decreases keys
      {
        var key :| key in keys;
        var envKey := EnvVariable(key);
        var envValue := Get(environ, envKey);
        if envValue.Some? && envValue.value != "" {
          config := config[key := JString(envValue.value)];
        }
        keys := keys - {key};
      }
    }

    /** `__getattr__(name)`: the configuration value under `name`, or `AttributeError`. */
    function GetAttr(name: string): (r: Result<Json>)
      reads this
      ensures r.Ok? <==> name in config
      ensures r.Ok? ==> r.value == config[name]
      ensures r.Raise? ==> r.error == AttributeError("No configuration found for: " + name)
    {
      if name in config then Ok(config[name])
      else Raise(AttributeError("No configuration found for: " + name))
    }
  }
}
