/** Secret substitution in the env file: after dotenv parsing, every value
    written `$name` is replaced by what the adapter's reader returns for
    `name`, and the dict is written back as `key="value"` lines. The dotenv
    parser and the adapters' command-line readers are opaque functions. */
module Secrets {
  import opened Common
  import opened Config

  /** The adapter's name as it is spelled in the configuration. */
  function AdapterName(a: SecretAdapter): (r: string)
    ensures r == "bitwarden" <==> a == Bitwarden
    ensures r == "1password" <==> a == OnePassword
    ensures r == "doppler" <==> a == Doppler
    ensures r == "system" <==> a == System
  {
    match a
    case Bitwarden => "bitwarden"
    case OnePassword => "1password"
    case Doppler => "doppler"
    case System => "system"
  }

  /** `adapter_to_context`: only bitwarden and 1password have a reader. */
  predicate HasReader(a: SecretAdapter)
    ensures HasReader(a) <==> AdapterName(a) == "bitwarden" || AdapterName(a) == "1password"
  {
    a == Bitwarden || a == OnePassword
  }

  predicate IsSecretRef(value: string)
  {
    StartsWith(value, "$")
  }

  /** `{key: value for key, value in env_dict.items() if value.startswith("$")}`. */
  function SecretEntries(env: Dict<string, string>): (r: Dict<string, string>)
    ensures |r| <= |env|
    ensures forall i :: 0 <= i < |r| ==> IsSecretRef(r[i].1)
  {
    if env == [] then []
    else
      var e := env[|env| - 1];
      SecretEntries(env[..|env| - 1]) + (if IsSecretRef(e.1) then [e] else [])
  }

  /** The names given to the reader: each secret's value without its `$`. */
  function SecretNames(secrets: Dict<string, string>): seq<string>
  {
    seq(|secrets|, i requires 0 <= i < |secrets| => if secrets[i].1 == [] then [] else secrets[i].1[1..])
  }

  /** `d.update(u)`: each entry of `u` in order, as `d[k] = v`. */
  function Update(d: Dict<string, string>, u: Dict<string, string>): Dict<string, string>
  {
    if u == [] then d else Put(Update(d, u[..|u| - 1]), u[|u| - 1].0, u[|u| - 1].1)
  }

  /** The env dict with every `$name` value replaced by `read(name)`. */
  function Substituted(env: Dict<string, string>, read: string -> string): (r: Dict<string, string>)
    ensures |r| == |env|
    ensures forall i :: 0 <= i < |env| ==> r[i].0 == env[i].0
    ensures forall i :: 0 <= i < |env| && !IsSecretRef(env[i].1) ==> r[i].1 == env[i].1
    ensures forall i :: 0 <= i < |env| && IsSecretRef(env[i].1) ==> r[i].1 == read(env[i].1[1..])
  {
    seq(|env|, i requires 0 <= i < |env| =>
      (env[i].0, if IsSecretRef(env[i].1) then read(env[i].1[1..]) else env[i].1))
  }

  function EnvLine(key: string, value: string): string
  {
    key + "=\"" + value + "\""
  }

  /** `"\n".join(f'{key}="{value}"' for key, value in env_dict.items())`. */
  function Serialize(env: Dict<string, string>): string
  {
    Join(seq(|env|, i requires 0 <= i < |env| => EnvLine(env[i].0, env[i].1)), "\n")
  }

  /** `resolve_secrets`: `parse` stands for dotenv parsing and `read` for the
      configured adapter's reader. Returns the new env text and the names
      read, in the order they are read. */
  method ResolveSecrets(envContent: string, config: SecretConfig,
                        parse: string -> Dict<string, string>, read: string -> string)
    returns (r: Result<string>, lookups: seq<string>)
    requires UniqueKeys(parse(envContent))
    ensures !HasReader(config.adapter) ==> r == Err(KeyError(AdapterName(config.adapter))) && lookups == []
    ensures HasReader(config.adapter) ==>
      && r == Ok(Serialize(Substituted(parse(envContent), read)))
      && lookups == SecretNames(SecretEntries(parse(envContent)))
  {
    var envDict := parse(envContent);
    var secrets := SecretEntries(envDict);
    if !HasReader(config.adapter) {
      return Err(KeyError(AdapterName(config.adapter))), [];
    }
    var parsed: Dict<string, string> := [];
    lookups := [];
    var i := 0;
    while i < |secrets|
      invariant 0 <= i <= |secrets|
      invariant parsed == ReadAll(secrets[..i], read)
      invariant lookups == SecretNames(secrets[..i])
    {
      var (key, secret) := secrets[i];
      assert secrets[..i + 1][..i] == secrets[..i];
      var name := if secret == [] then [] else secret[1..];
      parsed := Put(parsed, key, read(name));
      lookups := lookups + [name];
      i := i + 1;
    }
    assert secrets[..i] == secrets;
    var j := 0;
    ghost var start := envDict;
    while j < |parsed|
      invariant 0 <= j <= |parsed|
      invariant envDict == Update(start, parsed[..j])
    {
      assert parsed[..j + 1][..j] == parsed[..j];
      envDict := Put(envDict, parsed[j].0, parsed[j].1);
      j := j + 1;
    }
    assert parsed[..j] == parsed;
    UpdateSecrets(start, read);
    r := Ok(Serialize(envDict));
  }

  /** `parsed_secrets[key] = read(secret[1:])` for each secret in order. */
  function ReadAll(secrets: Dict<string, string>, read: string -> string): Dict<string, string>
  {
    if secrets == [] then []
    else
      var e := secrets[|secrets| - 1];
      Put(ReadAll(secrets[..|secrets| - 1], read), e.0, read(if e.1 == [] then [] else e.1[1..]))
  }

  /** Updating the env dict with what was read is substituting every secret
      reference in place: keys keep their order and only `$` values change. */
  lemma UpdateSecrets(env: Dict<string, string>, read: string -> string)
    requires UniqueKeys(env)
    ensures Update(env, ReadAll(SecretEntries(env), read)) == Substituted(env, read)
  {
    SubstitutedPrefixes(env, read, |env|);
    assert env[..|env|] == env;
    assert PartlySubstituted(env, read, |env|) == Substituted(env, read);
  }

  /** The secret entries of `env` seen through its first `k` entries: their
      updates leave the rest of the dict as it is and substitute exactly the
      secrets among the first `k`. */
  lemma {:induction false} SubstitutedPrefixes(env: Dict<string, string>, read: string -> string, k: nat)
    requires UniqueKeys(env) && k <= |env|
    ensures Update(env, ReadAll(SecretEntries(env[..k]), read)) == PartlySubstituted(env, read, k)
  {
    if k == 0 {
      assert env[..0] == [];
      forall i | 0 <= i < |env| ensures PartlySubstituted(env, read, 0)[i] == env[i] {
        assert (env[i].0, env[i].1) == env[i];
      }
    } else {
      SubstitutedPrefixes(env, read, k - 1);
      SecretEntriesSnoc(env, k);
      PartlyStep(env, read, k);
      var e := env[k - 1];
      var s := SecretEntries(env[..k - 1]);
      var u := ReadAll(s, read);
      if IsSecretRef(e.1) {
        var rv := read(e.1[1..]);
        var p := PartlySubstituted(env, read, k - 1);
        NotYetRead(env, read, k);
        PartlyKeys(env, read, k - 1);
        calc {
          Update(env, ReadAll(SecretEntries(env[..k]), read));
          == Update(env, ReadAll(s + [e], read));
          == { ReadAllSnoc(s, e, read); }
          Update(env, Put(u, e.0, rv));
          == { PutAppend(u, e.0, rv); }
          Update(env, u + [(e.0, rv)]);
          == { UpdateAppend(env, u, e.0, rv); }
          Put(Update(env, u), e.0, rv);
          == Put(p, p[k - 1].0, rv);
          == { PutAt(p, k - 1, rv); }
          p[k - 1 := (e.0, rv)];
        }
      } else {
        assert SecretEntries(env[..k]) == s + [] == s;
      }
    }
  }

  lemma SecretEntriesSnoc(env: Dict<string, string>, k: nat)
    requires 0 < k <= |env|
    ensures SecretEntries(env[..k])
      == SecretEntries(env[..k - 1]) + (if IsSecretRef(env[k - 1].1) then [env[k - 1]] else [])
  {
    assert env[..k][..k - 1] == env[..k - 1];
  }

  lemma ReadAllSnoc(s: Dict<string, string>, e: (string, string), read: string -> string)
    requires IsSecretRef(e.1)
    ensures ReadAll(s + [e], read) == Put(ReadAll(s, read), e.0, read(e.1[1..]))
  {
    assert (s + [e])[..|s|] == s;
  }

  /** The key of entry `k - 1` was not read among the first `k - 1` entries. */
  lemma NotYetRead(env: Dict<string, string>, read: string -> string, k: nat)
    requires UniqueKeys(env) && 0 < k <= |env|
    ensures env[k - 1].0 !in Keys(ReadAll(SecretEntries(env[..k - 1]), read))
  {
    var pre := env[..k - 1];
    ReadAllKeys(SecretEntries(pre), read);
    SecretEntriesKeys(pre);
    assert forall m :: 0 <= m < |pre| ==> Keys(pre)[m] != env[k - 1].0;
  }

  lemma PartlyStep(env: Dict<string, string>, read: string -> string, k: nat)
    requires 0 < k <= |env|
    ensures PartlySubstituted(env, read, k) ==
      if IsSecretRef(env[k - 1].1)
      then PartlySubstituted(env, read, k - 1)[k - 1 := (env[k - 1].0, read(env[k - 1].1[1..]))]
      else PartlySubstituted(env, read, k - 1)
  {
  }

  lemma PartlyKeys(env: Dict<string, string>, read: string -> string, k: nat)
    requires UniqueKeys(env)
    ensures UniqueKeys(PartlySubstituted(env, read, k))
    ensures |PartlySubstituted(env, read, k)| == |env|
    ensures forall i :: 0 <= i < |env| ==> PartlySubstituted(env, read, k)[i].0 == env[i].0
  {
  }

  /** The env dict with the secrets among its first `k` entries substituted. */
  function PartlySubstituted(env: Dict<string, string>, read: string -> string, k: nat): Dict<string, string>
  {
    seq(|env|, i requires 0 <= i < |env| =>
      (env[i].0, if i < k && IsSecretRef(env[i].1) then read(env[i].1[1..]) else env[i].1))
  }

  lemma {:induction false} SecretEntriesKeys(env: Dict<string, string>)
    ensures forall k :: k in Keys(SecretEntries(env)) ==> k in Keys(env)
  {
    if env != [] {
      var init := env[..|env| - 1];
      var e := env[|env| - 1];
      SecretEntriesKeys(init);
      KeysAppend(SecretEntries(init), if IsSecretRef(e.1) then [e] else []);
      KeysAppend(init, [e]);
      assert init + [e] == env;
    }
  }

  lemma {:induction false} ReadAllKeys(secrets: Dict<string, string>, read: string -> string)
    ensures forall k :: k in Keys(ReadAll(secrets, read)) ==> k in Keys(secrets)
  {
    if secrets != [] {
      var init := secrets[..|secrets| - 1];
      var e := secrets[|secrets| - 1];
      ReadAllKeys(init, read);
      PutKeys(ReadAll(init, read), e.0, read(if e.1 == [] then [] else e.1[1..]));
      assert forall i :: 0 <= i < |init| ==> Keys(secrets)[i] == Keys(init)[i];
      assert Keys(secrets)[|secrets| - 1] == e.0;
    }
  }

  /** `d[k] = v` for a new key appends. */
  lemma {:induction false} PutAppend(d: Dict<string, string>, k: string, v: string)
    requires k !in Keys(d)
    ensures Put(d, k, v) == d + [(k, v)]
  {
    if d != [] {
      assert Keys(d) == [d[0].0] + Keys(d[1..]);
      PutAppend(d[1..], k, v);
      assert [d[0]] + (d[1..] + [(k, v)]) == d + [(k, v)];
    }
  }

  /** Updating with one more entry is one more `d[k] = v`. */
  lemma UpdateAppend(d: Dict<string, string>, u: Dict<string, string>, k: string, v: string)
    ensures Update(d, u + [(k, v)]) == Put(Update(d, u), k, v)
  {
    assert (u + [(k, v)])[..|u|] == u;
  }

  /** `d[k] = v` on the key of entry `i` of a unique-keyed dict replaces that entry. */
  lemma {:induction false} PutAt(d: Dict<string, string>, i: nat, v: string)
    requires UniqueKeys(d) && i < |d|
    ensures Put(d, d[i].0, v) == d[i := (d[i].0, v)]
  {
    if i > 0 {
      assert d[0].0 != d[i].0;
      assert UniqueKeys(d[1..]) by {
        forall a, b | 0 <= a < b < |d| - 1 ensures d[1..][a].0 != d[1..][b].0 {
          assert d[1..][a] == d[a + 1] && d[1..][b] == d[b + 1];
        }
      }
      PutAt(d[1..], i - 1, v);
      assert [d[0]] + d[1..][i - 1 := (d[i].0, v)] == d[i := (d[i].0, v)];
    } else {
      assert [(d[0].0, v)] + d[1..] == d[0 := (d[0].0, v)];
    }
  }

  /** One lookup name per secret entry. */
  lemma SecretsReadOnce(env: Dict<string, string>)
    ensures |SecretNames(SecretEntries(env))| == |SecretEntries(env)|
  {
  }

  /** Every `$` entry of the env is selected, key and value. */
  lemma {:induction false} SecretEntriesComplete(env: Dict<string, string>, i: nat)
    requires i < |env| && IsSecretRef(env[i].1)
    ensures env[i] in SecretEntries(env)
  {
    var init := env[..|env| - 1];
    if i < |env| - 1 {
      SecretEntriesComplete(init, i);
      assert init[i] == env[i];
    }
  }

  /** Selection keeps env order: the selection from a prefix of the env is a
      prefix of the selection from the whole env. */
  lemma {:induction false} SecretEntriesOrdered(env: Dict<string, string>, k: nat)
    requires k <= |env|
    ensures SecretEntries(env[..k]) <= SecretEntries(env)
  {
    if k < |env| {
      var init := env[..|env| - 1];
      SecretEntriesOrdered(init, k);
      assert init[..k] == env[..k];
    } else {
      assert env[..k] == env;
    }
  }
}
