/** Small shared vocabulary: optional values, map lookup and the string
    tests JavaScript code uses implicitly (truthiness, `startsWith`). */
module Wrappers {

  /** A value that may be missing: JavaScript's `undefined`/`null`. */
  datatype Option<+T> = None | Some(value: T)

  /** `m.get(k)` for a map-like store: the value if the key is there. */
  function Lookup<K, V>(m: map<K, V>, k: K): (r: Option<V>)
    ensures r.Some? <==> k in m
    ensures r.Some? ==> r.value == m[k]
  {
    if k in m then Some(m[k]) else None
  }
}

module Strings {
  import opened Wrappers

  /** `s.startsWith(prefix)`: a raw character-wise prefix test. */
  predicate StartsWith(s: string, prefix: string) {
    |prefix| <= |s| && s[..|prefix|] == prefix
  }

  /** JavaScript truthiness of an optional string: present and non-empty. */
  predicate Truthy(v: Option<string>) {
    v.Some? && v.value != ""
  }

  /** Two prefixes of the same string are themselves prefix-ordered. */
  lemma PrefixesOfOneString(s: string, p: string, q: string)
    requires StartsWith(s, p) && StartsWith(s, q)
    requires |p| <= |q|
    ensures StartsWith(q, p)
  {
    assert q[..|p|] == s[..|q|][..|p|] == s[..|p|];
  }

  /** Starting with a string that starts with `q` means starting with `q`. */
  lemma StartsWithTransitive(s: string, p: string, q: string)
    requires StartsWith(s, p) && StartsWith(p, q)
    ensures StartsWith(s, q)
  {
    assert s[..|q|] == s[..|p|][..|q|];
  }
}
