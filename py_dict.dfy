/**
 * Python's `dict` as the registries use it: a finite map that also
 * remembers the order in which its keys were first inserted, because
 * iterating over a dict visits its keys in that order.
 */
module PyDict {

  /** No element occurs twice in `s`. */
  predicate NoDup<T(==)>(s: seq<T>) {
    forall i, j :: 0 <= i < j < |s| ==> s[i] != s[j]
  }

  lemma NoDupAppend<T>(a: seq<T>, b: seq<T>)
    requires NoDup(a) && NoDup(b)
    requires forall x :: x in a ==> x !in b
    ensures NoDup(a + b)
  {
    forall i, j | 0 <= i < j < |a + b|
      ensures (a + b)[i] != (a + b)[j]
    {
      if j < |a| {
      } else if i >= |a| {
        assert (a + b)[i] == b[i - |a|] && (a + b)[j] == b[j - |a|];
      } else {
        assert (a + b)[i] in a && (a + b)[j] in b;
      }
    }
  }

  lemma NoDupTail<T>(s: seq<T>)
    requires s != [] && NoDup(s)
    ensures NoDup(s[1..]) && s[0] !in s[1..]
  {
    forall i, j | 0 <= i < j < |s[1..]| ensures s[1..][i] != s[1..][j] {
      assert s[1..][i] == s[i + 1] && s[1..][j] == s[j + 1];
    }
  }

  /** Concatenation regroups freely; stated once so that big contexts need not rediscover it. */
  lemma AppendAssoc<T>(a: seq<T>, b: seq<T>, c: seq<T>)
    ensures (a + b) + c == a + (b + c)
  {
  }

  /** The head and the tail of a concatenation whose left part is not empty. */
  lemma AppendTail<T>(a: seq<T>, b: seq<T>)
    requires a != []
    ensures (a + b)[0] == a[0] && (a + b)[1..] == a[1..] + b
  {
  }

  /** The next element to visit of `s[j..] + rest`, and what is left after it. */
  lemma SliceAppendTail<T>(s: seq<T>, j: nat, rest: seq<T>)
    requires j < |s|
    ensures (s[j..] + rest)[0] == s[j] && (s[j..] + rest)[1..] == s[j + 1..] + rest
  {
    assert s[j..][1..] == s[j + 1..];
    AppendTail(s[j..], rest);
  }

  /** `s` without any occurrence of `x`, the other elements in order. */
  function Without<T(==,!new)>(s: seq<T>, x: T): (r: seq<T>)
    ensures forall y :: y in r <==> y in s && y != x
    ensures NoDup(s) ==> NoDup(r)
  {
    if s == [] then []
    else
      var rest := Without(s[1..], x);
      if s[0] == x then rest
      else
        assert NoDup(s) ==> NoDup(s[1..]) by {
          if NoDup(s) {
            forall i, j | 0 <= i < j < |s[1..]| ensures s[1..][i] != s[1..][j] {
              assert s[1..][i] == s[i + 1] && s[1..][j] == s[j + 1];
            }
          }
        }
        assert NoDup(s) ==> NoDup([s[0]] + rest) by {
          if NoDup(s) { NoDupAppend([s[0]], rest); }
        }
        [s[0]] + rest
  }

  datatype Dict<K(!new), V> = Dict(keys: seq<K>, entries: map<K, V>)
  {
    /** The keys listed are exactly the keys mapped, each once. */
    ghost predicate Valid() {
      NoDup(keys) && forall k :: k in entries <==> k in keys
    }

    /** `d[k] = v`: a new key goes last, an existing key keeps its place. */
    function Put(k: K, v: V): (r: Dict<K, V>)
      ensures Valid() ==> r.Valid()
      ensures r.entries == entries[k := v]
      ensures k in entries ==> r.keys == keys
      ensures k !in entries ==> r.keys == keys + [k]
    {
      if k in entries then Dict(keys, entries[k := v])
      else
        assert Valid() ==> NoDup(keys + [k]) by {
          if Valid() { NoDupAppend(keys, [k]); }
        }
        Dict(keys + [k], entries[k := v])
    }

    /** Assigning a key twice leaves what the second assignment wrote. */
    lemma PutPut(k: K, v1: V, v2: V)
      ensures Put(k, v1).Put(k, v2) == Put(k, v2)
    {
      assert entries[k := v1][k := v2] == entries[k := v2];
    }

    /** `del d[k]` on a key that is present. */
    function Delete(k: K): (r: Dict<K, V>)
      requires k in entries
      ensures Valid() ==> r.Valid()
      ensures r.entries == entries - {k}
      ensures r.keys == Without(keys, k)
    {
      Dict(Without(keys, k), entries - {k})
    }
  }

  function Empty<K(!new), V>(): (d: Dict<K, V>)
    ensures d.Valid() && d.entries == map[] && d.keys == []
  {
    Dict([], map[])
  }
}
