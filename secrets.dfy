// The secrets cache of modules/secrets/base.py: `get_secret` answers from the
// cache, then from the environment (`.env`), then from the external provider
// when there is one, caching what it finds; a missing secret gives the
// caller's default or raises.
module Secrets {
  import opened Wrappers
  import opened Text
  import opened Responses

  /** A secret's value after `parse_value`: a boolean, an integer, or the text as it was. */
  datatype SecretValue = BoolSecret(b: bool) | IntSecret(i: int) | TextSecret(s: string)

  /** The default that means "raise when the secret is missing". */
  const RAISE_EXCEPTION: SecretValue := TextSecret("RAISE_EXCEPTION")

  /**
   * `parse_value`: the four spellings of a boolean become that boolean, text
   * that `int()` accepts becomes the integer, anything else is kept as text.
   */
  function ParseValue(value: string): (r: SecretValue)
    ensures value == "True" || value == "true" ==> r == BoolSecret(true)
    ensures value == "False" || value == "false" ==> r == BoolSecret(false)
    ensures r.BoolSecret? ==> value in ["True", "true", "False", "false"]
    ensures r.IntSecret? <==> value !in ["True", "true", "False", "false"] && ParseInt(value).Some?
    ensures r.IntSecret? ==> r.i == ParseInt(value).value
    ensures r.TextSecret? ==> r.s == value
  {
    if value in ["True", "true", "False", "false"] then BoolSecret(value in ["True", "true"])
    else
      match ParseInt(value)
      case Some(i) => IntSecret(i)
      case None => TextSecret(value)
  }

  /** An integer written out by `str` is read back as that integer. */
  lemma ParseValueOfInt(n: int)
    ensures ParseValue(IntToString(n)) == IntSecret(n)
  {
    ParseIntOfIntToString(n);
    var s := IntToString(n);
    assert s[0] != 'T' && s[0] != 't' && s[0] != 'F' && s[0] != 'f' by {
      if n < 0 {
        assert s[0] == '-';
      } else {
        assert s == NatToString(n);
        NatToStringDigits(n);
      }
    }
    assert "True"[0] == 'T' && "true"[0] == 't' && "False"[0] == 'F' && "false"[0] == 'f';
    assert s != "True" && s != "true" && s != "False" && s != "false";
  }

  lemma {:induction false} NatToStringDigits(n: nat)
    ensures forall i :: 0 <= i < |NatToString(n)| ==> IsDigit(NatToString(n)[i])
  {
    if n >= 10 {
      NatToStringDigits(n / 10);
      assert NatToString(n) == NatToString(n / 10) + [DigitChar(n % 10)];
    }
  }

  /**
   * `SecretManager`. The environment (the process environment and `.env`
   * file, as `decouple.config` reads them) is passed to each lookup, since it
   * may change while the manager lives; the cache is never refreshed, so a
   * name once found keeps the value it had then.
   */
  class SecretManager {
    /** `with_external_provider`. */
    const withExternalProvider: bool
    /** What the subclass's `get_all_provider_secrets` returned when the manager was built. */
    const providerSecrets: map<string, SecretValue>
    /** `self.secrets`, the cache. */
    var secrets: map<string, SecretValue>

    /** Where a name is found outside the cache: the environment first, then the provider when there is one. */
    function Resolve(env: map<string, string>, name: string): (r: Option<SecretValue>)
      ensures name in env ==> r == Some(ParseValue(env[name]))
      ensures name !in env ==> (r.Some? <==> withExternalProvider && name in providerSecrets)
      ensures name !in env && r.Some? ==> r.value == providerSecrets[name]
    {
      if name in env then Some(ParseValue(env[name]))
      else if withExternalProvider && name in providerSecrets then Some(providerSecrets[name])
      else None
    }

    constructor (withExternalProvider: bool, providerSecrets: map<string, SecretValue>)
      ensures this.withExternalProvider == withExternalProvider && this.providerSecrets == providerSecrets
      ensures secrets == map[]
    {
      this.withExternalProvider := withExternalProvider;
      this.providerSecrets := providerSecrets;
      secrets := map[];
    }

    /** `get_secret_from_env_file`: a name set in the environment is parsed and cached. */
    method GetSecretFromEnvFile(env: map<string, string>, name: string) returns (r: Option<SecretValue>)
      modifies this
      ensures name in env ==> r == Some(ParseValue(env[name])) && secrets == old(secrets)[name := r.value]
      ensures name !in env ==> r.None? && secrets == old(secrets)
    {
      if name in env {
        secrets := secrets[name := ParseValue(env[name])];
        return Some(secrets[name]);
      }
      return None;
    }

    /** `get_secret_from_provider`: a name the provider holds is cached. */
    method GetSecretFromProvider(name: string) returns (r: Option<SecretValue>)
      requires withExternalProvider
      modifies this
      ensures name in providerSecrets ==> r == Some(providerSecrets[name]) && secrets == old(secrets)[name := r.value]
      ensures name !in providerSecrets ==> r.None? && secrets == old(secrets)
    {
      if name in providerSecrets {
        secrets := secrets[name := providerSecrets[name]];
        return Some(secrets[name]);
      }
      return None;
    }

    /**
     * `get_secret` with the environment as it is at the call. A cached name
     * is answered from the cache, whatever the environment now says; any
     * other name is resolved, and a found value is cached. A miss leaves the
     * cache as it was and gives the default or raises.
     */
    method GetSecret(env: map<string, string>, name: string, default: SecretValue) returns (r: Result<SecretValue, Raised>)
      modifies this
      ensures name in old(secrets) ==> r == Ok(old(secrets)[name]) && secrets == old(secrets)
      ensures name !in old(secrets) ==> r == SecretLookup(Resolve(env, name), name, default)
      ensures name !in old(secrets) && Resolve(env, name).Some? ==> secrets == old(secrets)[name := Resolve(env, name).value]
      ensures name !in old(secrets) && Resolve(env, name).None? ==> secrets == old(secrets)
    {
      if name in secrets {
        return Ok(secrets[name]);
      }
      var secret := GetSecretFromEnvFile(env, name);
      if secret.None? && withExternalProvider {
        secret := GetSecretFromProvider(name);
      }
      if secret.None? {
        if default != RAISE_EXCEPTION {
          return Ok(default);
        }
        return Err(Failure("Secret " + name + " not found."));
      }
      return Ok(secret.value);
    }
  }

  /** What `get_secret` answers for a name that resolves to `found`. */
  function SecretLookup(found: Option<SecretValue>, name: string, default: SecretValue): (r: Result<SecretValue, Raised>)
    ensures found.Some? ==> r == Ok(found.value)
    ensures found.None? && default != RAISE_EXCEPTION ==> r == Ok(default)
    ensures found.None? && default == RAISE_EXCEPTION ==> r.Err?
  {
    if found.Some? then Ok(found.value)
    else if default != RAISE_EXCEPTION then Ok(default)
    else Err(Failure("Secret " + name + " not found."))
  }

  /**
   * Two lookups of the same name, the environment changing in between: once
   * the first has found the name (or it was cached), the second gives the
   * same answer from the cache, whatever the new environment holds; after a
   * miss the second resolves the name afresh.
   */
  method LookupTwice(m: SecretManager, before: map<string, string>, after: map<string, string>, name: string, default: SecretValue)
    returns (first: Result<SecretValue, Raised>, second: Result<SecretValue, Raised>)
    modifies m
    ensures name in old(m.secrets) ==> first == Ok(old(m.secrets)[name])
    ensures name !in old(m.secrets) ==> first == SecretLookup(m.Resolve(before, name), name, default)
    ensures name in old(m.secrets) || m.Resolve(before, name).Some? ==> second == first && name in m.secrets
    ensures name !in old(m.secrets) && m.Resolve(before, name).None? ==>
      second == SecretLookup(m.Resolve(after, name), name, default)
  {
    first := m.GetSecret(before, name, default);
    second := m.GetSecret(after, name, default);
  }

  /**
   * The cache is not refreshed: a manager that read "K" as 1 still answers
   * 1 after the environment has changed it to 2.
   */
  method StaleAfterChange() returns (first: Result<SecretValue, Raised>, second: Result<SecretValue, Raised>)
    ensures first == Ok(IntSecret(1)) && second == Ok(IntSecret(1))
  {
    var m := new SecretManager(false, map[]);
    ParseValueOfInt(1);
    assert IntToString(1) == "1";
    assert m.Resolve(map["K" := "1"], "K") == Some(IntSecret(1));
    first, second := LookupTwice(m, map["K" := "1"], map["K" := "2"], "K", RAISE_EXCEPTION);
  }
}
