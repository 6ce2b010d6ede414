/** Shared vocabulary of the model: optional values, the errors the program
    raises, Python string operations, Python's insertion-ordered dict, and the
    calls made on a connection to a host. */
module Common {

  datatype Option<+T> = None | Some(value: T)

  /** The exceptions the program raises: ImproperlyConfiguredError,
      msgspec.ValidationError, cappa.Exit with its process exit code, a failed
      dict lookup, a missing local file, a malformed format string, and an attribute
      looked up on a value that lacks it. */
  datatype Error =
    | ImproperlyConfigured(message: string)
    | ValidationError(message: string)
    | Exit(code: int, message: string)
    | KeyError(key: string)
    | FileNotFound(path: string)
    | ValueError(message: string)
    | AttributeError(message: string)

  datatype Result<+T> = Ok(value: T) | Err(error: Error)

  /** Python truthiness of an optional string: None and "" are false. */
  predicate Truthy(x: Option<string>)
  {
    x.Some? && x.value != ""
  }

  /** Python's `x or default` on an optional string. */
  function OrElse(x: Option<string>, default: string): string
  {
    if Truthy(x) then x.value else default
  }

  /** An optional string as an f-string shows it: None prints as "None". */
  function Show(x: Option<string>): string
  {
    if x.Some? then x.value else "None"
  }

  predicate StartsWith(s: string, prefix: string)
  {
    |prefix| <= |s| && s[..|prefix|] == prefix
  }

  predicate EndsWith(s: string, suffix: string)
  {
    |suffix| <= |s| && s[|s| - |suffix|..] == suffix
  }

  /** `needle in s` for strings. */
  predicate Contains(s: string, needle: string)
  {
    StartsWith(s, needle) || (s != [] && Contains(s[1..], needle))
  }

  /** An occurrence at position `k` is an occurrence. */
  lemma {:induction false} ContainsAt(s: string, needle: string, k: nat)
    requires k + |needle| <= |s| && s[k..k + |needle|] == needle
    ensures Contains(s, needle)
  {
    if k > 0 {
      assert s[1..][k - 1..k - 1 + |needle|] == needle;
      ContainsAt(s[1..], needle, k - 1);
    }
  }

  /** A line of a joined text occurs in it. */
  lemma {:induction false} JoinContains(parts: seq<string>, sep: string, i: nat)
    requires i < |parts|
    ensures Contains(Join(parts, sep), parts[i])
  {
    var s := Join(parts, sep);
    if i == 0 {
      assert s[..|parts[0]|] == parts[0];
      ContainsAt(s, parts[0], 0);
    } else {
      JoinContains(parts[1..], sep, i - 1);
      ContainsSuffix(parts[0] + sep, Join(parts[1..], sep), parts[i]);
    }
  }

  lemma {:induction false} ContainsSuffix(a: string, b: string, needle: string)
    requires Contains(b, needle)
    ensures Contains(a + b, needle)
  {
    if a != [] {
      ContainsSuffix(a[1..], b, needle);
      assert (a + b)[1..] == a[1..] + b;
      assert Contains((a + b)[1..], needle);
    } else {
      assert a + b == b;
    }
  }

  /** Python's `s.replace(pat, rep)`: every non-overlapping occurrence of `pat`,
      scanning left to right, is replaced. */
  function ReplaceAll(s: string, pat: string, rep: string): string
    requires pat != []
    decreases |s|
  {
    if |s| < |pat| then s
    else if s[..|pat|] == pat then rep + ReplaceAll(s[|pat|..], pat, rep)
    else [s[0]] + ReplaceAll(s[1..], pat, rep)
  }

  /** A prefix that cannot start an occurrence of `pat` passes through untouched. */
  lemma {:induction false} ReplaceAllPrefix(p: string, q: string, pat: string, rep: string)
    requires pat != [] && pat[0] !in p
    ensures ReplaceAll(p + q, pat, rep) == p + ReplaceAll(q, pat, rep)
  {
    if p == [] {
      assert p + q == q;
    } else {
      var s := p + q;
      if |s| < |pat| {
        ReplaceAllShort(q, pat, rep);
      } else {
        assert s[0] == p[0];
        assert s[..|pat|] != pat by { assert s[..|pat|][0] == p[0]; }
        assert s[1..] == p[1..] + q;
        ReplaceAllPrefix(p[1..], q, pat, rep);
        assert [p[0]] + p[1..] == p;
      }
    }
  }

  lemma ReplaceAllShort(s: string, pat: string, rep: string)
    requires pat != [] && |s| < |pat|
    ensures ReplaceAll(s, pat, rep) == s
  {
  }

  /** Replacing in `p + pat` where `p` cannot start an occurrence yields `p + rep`. */
  lemma ReplaceAllSuffix(p: string, pat: string, rep: string)
    requires pat != [] && pat[0] !in p
    ensures ReplaceAll(p + pat, pat, rep) == p + rep
  {
    ReplaceAllPrefix(p, pat, pat, rep);
    assert pat[|pat|..] == [];
  }

  /** A string without the first character of `pat` is left unchanged. */
  lemma ReplaceAllAbsent(s: string, pat: string, rep: string)
    requires pat != [] && pat[0] !in s
    ensures ReplaceAll(s, pat, rep) == s
  {
    ReplaceAllPrefix(s, [], pat, rep);
    assert s + [] == s;
  }

  /** Python's `sep.join(parts)`. */
  function Join(parts: seq<string>, sep: string): string
  {
    if |parts| == 0 then ""
    else if |parts| == 1 then parts[0]
    else parts[0] + sep + Join(parts[1..], sep)
  }

  lemma {:induction false} JoinSnoc(parts: seq<string>, x: string, sep: string)
    requires parts != []
    ensures Join(parts + [x], sep) == Join(parts, sep) + sep + x
  {
    if |parts| == 1 {
      assert (parts + [x])[1..] == [x];
    } else {
      JoinSnoc(parts[1..], x, sep);
      assert (parts + [x])[1..] == parts[1..] + [x];
    }
  }

  function Digit(d: nat): char
    requires d < 10
  {
    "0123456789"[d]
  }

  /** Decimal rendering of a natural number, as `str(n)` or an f-string prints it. */
  function NatToString(n: nat): (s: string)
    ensures |s| >= 1
    ensures forall i :: 0 <= i < |s| ==> '0' <= s[i] <= '9'
  {
    if n < 10 then [Digit(n)] else NatToString(n / 10) + [Digit(n % 10)]
  }

  /** Decimal rendering of an integer, with a leading minus when negative. */
  function IntToString(n: int): string
  {
    if n < 0 then "-" + NatToString(-n) else NatToString(n)
  }

  /** Reading a decimal numeral back. */
  function ParseNat(s: string): nat
    requires forall i :: 0 <= i < |s| ==> '0' <= s[i] <= '9'
  {
    if s == [] then 0 else 10 * ParseNat(s[..|s| - 1]) + (s[|s| - 1] as int - '0' as int)
  }

  lemma {:induction false} ParseNatToString(n: nat)
    ensures ParseNat(NatToString(n)) == n
  {
    var s := NatToString(n);
    if n < 10 {
      assert s[..|s| - 1] == [];
    } else {
      var t := NatToString(n / 10);
      assert s[..|s| - 1] == t;
      ParseNatToString(n / 10);
    }
  }

  /** Different numbers print differently. */
  lemma NatToStringInjective(m: nat, n: nat)
    requires NatToString(m) == NatToString(n)
    ensures m == n
  {
    ParseNatToString(m);
    ParseNatToString(n);
  }

  /** The characters `str.strip()` removes, those for which Python's
      `str.isspace()` holds: tab to carriage return, the separators 0x1C to
      0x1F, space, 0x85, no-break space and the Unicode space separators. */
  predicate IsSpace(c: char)
  {
    var n := c as int;
    (9 <= n <= 13) || (28 <= n <= 32) || n == 0x85 || n == 0xA0 || n == 0x1680
    || (0x2000 <= n <= 0x200A) || n == 0x2028 || n == 0x2029 || n == 0x202F
    || n == 0x205F || n == 0x3000
  }

  function TrimLeft(s: string): (r: string)
    ensures |r| <= |s| && r == s[|s| - |r|..]
    ensures r == [] || !IsSpace(r[0])
    ensures forall i :: 0 <= i < |s| - |r| ==> IsSpace(s[i])
  {
    if s != [] && IsSpace(s[0]) then TrimLeft(s[1..]) else s
  }

  function TrimRight(s: string): (r: string)
    ensures |r| <= |s| && r == s[..|r|]
    ensures r == [] || !IsSpace(r[|r| - 1])
    ensures forall i :: |r| <= i < |s| ==> IsSpace(s[i])
  {
    if s != [] && IsSpace(s[|s| - 1]) then TrimRight(s[..|s| - 1]) else s
  }

  /** Python's `s.strip()`. */
  function Strip(s: string): string
  {
    TrimRight(TrimLeft(s))
  }

  /** The final component of a slash-separated path, as `Path(p).name`. */
  function BaseName(p: string): (r: string)
    ensures '/' !in r
    ensures EndsWith(p, r)
  {
    if p == [] then []
    else if p[|p| - 1] == '/' then []
    else BaseName(p[..|p| - 1]) + [p[|p| - 1]]
  }

  /** ASCII lower-casing of one character. */
  function LowerChar(c: char): (d: char)
    ensures !('A' <= d <= 'Z')
    ensures 'A' <= c <= 'Z' || d == c
  {
    if 'A' <= c <= 'Z' then (c as int + 32) as char else c
  }

  /** ASCII lower-casing, as `str.lower()` does on ASCII text. */
  function Lower(s: string): (r: string)
    ensures |r| == |s|
    ensures forall i :: 0 <= i < |s| ==> r[i] == LowerChar(s[i])
  {
    if s == [] then [] else [LowerChar(s[0])] + Lower(s[1..])
  }

  /** Python's `s.replace(a, b)` for single characters. */
  function ReplaceChar(s: string, a: char, b: char): (r: string)
    ensures |r| == |s|
    ensures forall i :: 0 <= i < |s| ==> r[i] == (if s[i] == a then b else s[i])
  {
    if s == [] then [] else [if s[0] == a then b else s[0]] + ReplaceChar(s[1..], a, b)
  }

  // ---------------------------------------------------------------------
  // Python dict: an insertion-ordered association list.

  type Dict<K, V> = seq<(K, V)>

  function Keys<K(==), V>(d: Dict<K, V>): (ks: seq<K>)
    ensures |ks| == |d|
    ensures forall i :: 0 <= i < |d| ==> ks[i] == d[i].0
  {
    if d == [] then [] else [d[0].0] + Keys(d[1..])
  }

  predicate UniqueKeys<K(==), V>(d: Dict<K, V>)
  {
    forall i, j :: 0 <= i < j < |d| ==> d[i].0 != d[j].0
  }

  /** `d[k]` (the first entry with key `k`). */
  function Lookup<K(==), V>(d: Dict<K, V>, k: K): V
    requires k in Keys(d)
  {
    if d[0].0 == k then d[0].1 else Lookup(d[1..], k)
  }

  /** `d[k] = v`: an existing key keeps its position, a new key goes last. */
  function Put<K(==), V>(d: Dict<K, V>, k: K, v: V): Dict<K, V>
  {
    if d == [] then [(k, v)]
    else if d[0].0 == k then [(k, v)] + d[1..]
    else [d[0]] + Put(d[1..], k, v)
  }

  /** The mapping a dict denotes, built as writing its entries one after the
      other would build it (a later entry wins; a dict has unique keys anyway). */
  function ToMap<K, V>(d: Dict<K, V>): map<K, V>
  {
    if d == [] then map[] else ToMap(d[..|d| - 1])[d[|d| - 1].0 := d[|d| - 1].1]
  }

  lemma {:induction false} PutKeys<K, V>(d: Dict<K, V>, k: K, v: V)
    ensures k in Keys(d) ==> Keys(Put(d, k, v)) == Keys(d)
    ensures k !in Keys(d) ==> Keys(Put(d, k, v)) == Keys(d) + [k]
  {
    if d != [] {
      PutKeys(d[1..], k, v);
      if d[0].0 != k {
        assert Keys(Put(d, k, v)) == [d[0].0] + Keys(Put(d[1..], k, v));
        assert Keys(d) == [d[0].0] + Keys(d[1..]);
      }
    }
  }

  lemma KeysAppend<K, V>(a: Dict<K, V>, b: Dict<K, V>)
    ensures Keys(a + b) == Keys(a) + Keys(b)
  {
    assert forall i :: 0 <= i < |a + b| ==> Keys(a + b)[i] == (Keys(a) + Keys(b))[i];
  }

  /** The keys of a dict, as a set. */
  function KeySet<K(==), V>(d: Dict<K, V>): set<K>
  {
    set k | k in Keys(d)
  }

  lemma PutKeySet<K, V>(d: Dict<K, V>, k: K, v: V)
    ensures KeySet(Put(d, k, v)) == KeySet(d) + {k}
  {
    PutKeys(d, k, v);
  }

  /** Appending two optional elements one at a time appends their sequence. */
  lemma AppendTwo<T>(s: seq<T>, hasA: bool, a: T, hasB: bool, b: T)
    ensures var s1 := if hasA then s + [a] else s;
      (if hasB then s1 + [b] else s1) == s + ((if hasA then [a] else []) + (if hasB then [b] else []))
  {
  }

  /** The keys after one required and two optional `Put`s. */
  lemma PutKeySetOptional<K, V>(d: Dict<K, V>, a: K, va: V, hasB: bool, b: K, vb: V, hasC: bool, c: K, vc: V)
    ensures var d1 := Put(d, a, va);
      var d2 := if hasB then Put(d1, b, vb) else d1;
      var d3 := if hasC then Put(d2, c, vc) else d2;
      KeySet(d3) == KeySet(d) + {a} + (if hasB then {b} else {}) + (if hasC then {c} else {})
  {
    var d1 := Put(d, a, va);
    var d2 := if hasB then Put(d1, b, vb) else d1;
    PutKeySet(d, a, va);
    PutKeySet(d1, b, vb);
    PutKeySet(d2, c, vc);
  }

  lemma {:induction false} PutUnique<K, V>(d: Dict<K, V>, k: K, v: V)
    requires UniqueKeys(d)
    ensures UniqueKeys(Put(d, k, v))
  {
    PutKeys(d, k, v);
    var r := Put(d, k, v);
    var rk := Keys(r);
    if k in Keys(d) {
      assert forall i :: 0 <= i < |r| ==> r[i].0 == d[i].0;
    } else {
      assert forall i :: 0 <= i < |d| ==> r[i].0 == d[i].0;
      assert r[|d|].0 == k;
    }
  }

  lemma ToMapKeys<K, V>(d: Dict<K, V>)
    ensures ToMap(d).Keys == set k | k in Keys(d)
  {
    forall k | true
      ensures k in ToMap(d) <==> k in Keys(d)
    {
      ToMapHas(d, k);
    }
  }

  lemma {:induction false} ToMapHas<K, V>(d: Dict<K, V>, k: K)
    ensures k in ToMap(d) <==> k in Keys(d)
  {
    if d != [] {
      var d' := d[..|d| - 1];
      ToMapHas(d', k);
      assert Keys(d) == Keys(d') + [d[|d| - 1].0];
    }
  }

  lemma {:induction false} LookupPut<K, V>(d: Dict<K, V>, k: K, v: V, k': K)
    requires k' == k || k' in Keys(d)
    ensures k' in Keys(Put(d, k, v))
    ensures Lookup(Put(d, k, v), k') == if k' == k then v else Lookup(d, k')
  {
    PutKeys(d, k, v);
    if d != [] && d[0].0 != k && d[0].0 != k' {
      LookupPut(d[1..], k, v, k');
    }
  }

  lemma {:induction false} LookupToMap<K, V>(d: Dict<K, V>, k: K)
    requires UniqueKeys(d) && k in Keys(d)
    ensures k in ToMap(d) && ToMap(d)[k] == Lookup(d, k)
  {
    var n := |d| - 1;
    var d' := d[..n];
    if d[n].0 == k {
      LookupToMapLast(d, k);
    } else {
      assert Keys(d) == Keys(d') + [d[n].0];
      assert UniqueKeys(d');
      LookupToMap(d', k);
      LookupPrefix(d, k);
    }
  }

  lemma LookupToMapLast<K, V>(d: Dict<K, V>, k: K)
    requires UniqueKeys(d) && d != [] && d[|d| - 1].0 == k
    ensures k in ToMap(d) && ToMap(d)[k] == Lookup(d, k)
  {
    var n := |d| - 1;
    if n > 0 {
      assert k !in Keys(d[..n]);
      LookupLast(d, k);
    }
  }

  /** In a dict with unique keys, looking up an entry's key finds that entry. */
  lemma {:induction false} LookupEntry<K, V>(d: Dict<K, V>, i: nat)
    requires UniqueKeys(d) && i < |d|
    ensures d[i].0 in Keys(d) && Lookup(d, d[i].0) == d[i].1
  {
    assert Keys(d)[i] == d[i].0;
    if i > 0 {
      assert d[0].0 != d[i].0;
      assert forall a, b :: 0 <= a < b < |d| - 1 ==> d[1..][a] == d[a + 1] && d[1..][b] == d[b + 1];
      LookupEntry(d[1..], i - 1);
    }
  }

  lemma {:induction false} LookupLast<K, V>(d: Dict<K, V>, k: K)
    requires d != [] && d[|d| - 1].0 == k && k !in Keys(d[..|d| - 1])
    ensures Lookup(d, k) == d[|d| - 1].1
  {
    if |d| > 1 {
      assert d[0].0 == Keys(d[..|d| - 1])[0];
      assert d[1..][..|d| - 2] == d[1..|d| - 1];
      assert Keys(d[1..|d| - 1]) == Keys(d[..|d| - 1])[1..];
      LookupLast(d[1..], k);
    }
  }

  lemma {:induction false} LookupPrefix<K, V>(d: Dict<K, V>, k: K)
    requires d != [] && k in Keys(d[..|d| - 1])
    ensures Lookup(d, k) == Lookup(d[..|d| - 1], k)
  {
    if d[0].0 != k {
      assert d[1..][..|d| - 2] == d[1..|d| - 1] == d[..|d| - 1][1..];
      assert Keys(d[..|d| - 1]) == [d[0].0] + Keys(d[1..|d| - 1]);
      LookupPrefix(d[1..], k);
    }
  }

  /** `d.pop(k)` on a dict holding `k`: its entry is removed, the order of the
      others is kept. */
  function Pop<K(==), V>(d: Dict<K, V>, k: K): (r: Dict<K, V>)
    ensures |r| <= |d|
  {
    if d == [] then []
    else if d[0].0 == k then d[1..]
    else [d[0]] + Pop(d[1..], k)
  }

  lemma {:induction false} PopKeys<K, V>(d: Dict<K, V>, k: K, k': K)
    requires UniqueKeys(d)
    ensures k' in Keys(Pop(d, k)) <==> k' in Keys(d) && k' != k
  {
    if d != [] {
      PopKeys(d[1..], k, k');
      if d[0].0 == k {
        assert k !in Keys(d[1..]);
      }
    }
  }

  lemma {:induction false} PopLookup<K, V>(d: Dict<K, V>, k: K, k': K)
    requires k' != k && k' in Keys(d)
    ensures k' in Keys(Pop(d, k))
    ensures Lookup(Pop(d, k), k') == Lookup(d, k')
  {
    if d[0].0 != k && d[0].0 != k' {
      PopLookup(d[1..], k, k');
    }
  }

  lemma {:induction false} PopUnique<K, V>(d: Dict<K, V>, k: K)
    requires UniqueKeys(d)
    ensures UniqueKeys(Pop(d, k))
  {
    if d != [] && d[0].0 != k {
      PopUnique(d[1..], k);
      forall j | 0 <= j < |Pop(d[1..], k)|
        ensures Pop(d[1..], k)[j].0 != d[0].0
      {
        assert Keys(Pop(d[1..], k))[j] == Pop(d[1..], k)[j].0;
        PopKeys(d[1..], k, Pop(d[1..], k)[j].0);
      }
    }
  }

  lemma InAppend<T>(a: seq<T>, b: seq<T>, x: T)
    requires x in a || x in b
    ensures x in a + b
  {
  }

  lemma InPrefix<T>(a: seq<T>, b: seq<T>, x: T)
    requires a <= b && x in a
    ensures x in b
  {
    var i :| 0 <= i < |a| && a[i] == x;
    assert b[i] == x;
  }

  lemma PrefixAppend<T>(a: seq<T>, b: seq<T>, tail: seq<T>)
    requires a <= b
    ensures a <= b + tail
  {
    assert (b + tail)[..|a|] == b[..|a|];
  }

  predicate Distinct<T(==)>(xs: seq<T>)
  {
    forall i, j :: 0 <= i < j < |xs| ==> xs[i] != xs[j]
  }

  /** A dict literal: the i-th key paired with the i-th value. */
  function Zip<K, V>(ks: seq<K>, vs: seq<V>): (d: Dict<K, V>)
    requires |ks| == |vs|
    ensures |d| == |ks|
    ensures forall i :: 0 <= i < |d| ==> d[i] == (ks[i], vs[i])
  {
    seq(|ks|, i requires 0 <= i < |ks| => (ks[i], vs[i]))
  }

  /** A dict literal with distinct keys has those keys in order, and each
      key looks up its own value. */
  lemma ZipLookup<K, V>(ks: seq<K>, vs: seq<V>, i: nat)
    requires |ks| == |vs| && Distinct(ks) && i < |ks|
    ensures Keys(Zip(ks, vs)) == ks
    ensures UniqueKeys(Zip(ks, vs))
    ensures Lookup(Zip(ks, vs), ks[i]) == vs[i]
  {
    LookupEntry(Zip(ks, vs), i);
  }

  // ---------------------------------------------------------------------
  // A connection to a host, seen through the calls made on it.

  /** One call on the connection: `conn.run(command, pty=...)`,
      `sudo(command)` (`conn.run_sudo` or the host's `sudo`), an upload `conn.put(local, remote)` or a
      download `conn.get(remote, local)`.
      Output capture (`hide`) is not modelled. */
  datatype Call =
    | Run(command: string, pty: bool)
    | RunSudo(command: string)
    | Upload(local: string, remote: string)
    | Download(remote: string, local: string)

  /** One `prefix + name` command per name, in order. */
  function EachCommand(prefix: string, names: seq<string>, pty: bool): seq<Call>
  {
    seq(|names|, i requires 0 <= i < |names| => Call.Run(prefix + names[i], pty))
  }

  /** One `conn.run_sudo(prefix + name)` per name, in order. */
  function EachSudo(prefix: string, names: seq<string>): seq<Call>
  {
    seq(|names|, i requires 0 <= i < |names| => Call.RunSudo(prefix + names[i]))
  }

  lemma EachSudoSnoc(prefix: string, names: seq<string>, x: string)
    ensures EachSudo(prefix, names + [x]) == EachSudo(prefix, names) + [Call.RunSudo(prefix + x)]
  {
  }

  lemma EachCommandSnoc(prefix: string, names: seq<string>, x: string, pty: bool)
    ensures EachCommand(prefix, names + [x], pty) == EachCommand(prefix, names, pty) + [Call.Run(prefix + x, pty)]
  {
  }

  /** The elements of a sequence after appending one. */
  lemma SeqSetSnoc<T>(xs: seq<T>, x: T)
    ensures (set n | n in xs + [x]) == (set n | n in xs) + {x}
  {
  }
}
