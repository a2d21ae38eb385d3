/** `URLSearchParams` as an ordered list of name/value entries: `get`, `set`
    and `toString` (without percent-encoding). */
module UrlParams {
  import opened Wrappers

  type Entry = (string, string)

  predicate HasKey(ps: seq<Entry>, key: string)
  {
    exists i :: 0 <= i < |ps| && ps[i].0 == key
  }

  /** `params.get(key)`: the value of the first entry with that name. */
  function Get(ps: seq<Entry>, key: string): (r: Option<string>)
    ensures r.None? <==> !HasKey(ps, key)
  {
    if ps == [] then None
    else if ps[0].0 == key then Some(ps[0].1)
    else
      var r := Get(ps[1..], key);
      assert forall i :: 0 < i < |ps| ==> ps[i] == ps[1..][i - 1];
      r
  }

  /** `get` answers with the value of the first entry that has the name. */
  lemma {:induction false} GetFirst(ps: seq<Entry>, key: string)
    requires HasKey(ps, key)
    ensures exists i :: 0 <= i < |ps| && ps[i] == (key, Get(ps, key).value) && !HasKey(ps[..i], key)
  {
    if ps[0].0 == key {
      assert ps[0] == (key, Get(ps, key).value) && ps[..0] == [];
    } else {
      HasKeyCons(ps, key);
      GetFirst(ps[1..], key);
      var i :| 0 <= i < |ps| - 1 && ps[1..][i] == (key, Get(ps[1..], key).value) && !HasKey(ps[1..][..i], key);
      assert ps[..i + 1] == [ps[0]] + ps[1..][..i];
      HasKeyCons(ps[..i + 1], key);
      assert ps[i + 1] == (key, Get(ps, key).value);
    }
  }

  /** The entries with another name than `key`, in order. */
  function Without(ps: seq<Entry>, key: string): (r: seq<Entry>)
    ensures !HasKey(r, key)
    ensures forall e :: e in r <==> e in ps && e.0 != key
  {
    if ps == [] then []
    else if ps[0].0 == key then Without(ps[1..], key)
    else [ps[0]] + Without(ps[1..], key)
  }

  /** `params.set(key, value)`: the first entry with that name takes the value
      and the later ones go; with no such entry the pair is appended. */
  function Set(ps: seq<Entry>, key: string, value: string): (r: seq<Entry>)
    ensures Get(r, key) == Some(value)
    ensures forall k :: k != key ==> Get(r, k) == Get(ps, k)
    ensures !HasKey(ps, key) ==> r == ps + [(key, value)]
  {
    if ps == [] then [(key, value)]
    else if ps[0].0 == key then
      var rest := Without(ps[1..], key);
      var r := [(key, value)] + rest;
      assert forall k :: k != key ==> Get(r, k) == Get(ps, k) by {
        forall k | k != key ensures Get(r, k) == Get(ps, k) {
          WithoutGet(ps[1..], key);
          GetCons((key, value), rest, k);
          GetCons(ps[0], ps[1..], k);
        }
      }
      GetCons((key, value), rest, key);
      assert HasKey(ps, key) by {
        assert ps[0].0 == key;
      }
      r
    else
      var rest := Set(ps[1..], key, value);
      var r := [ps[0]] + rest;
      assert forall k :: k != key ==> Get(r, k) == Get(ps, k) by {
        forall k | k != key ensures Get(r, k) == Get(ps, k) {
          GetCons(ps[0], rest, k);
          GetCons(ps[0], ps[1..], k);
        }
      }
      GetCons(ps[0], rest, key);
      HasKeyCons(ps, key);
      assert !HasKey(ps, key) ==> r == ps + [(key, value)] by {
        assert ps == [ps[0]] + ps[1..];
      }
      r
  }

  /** `get` on a list with one more entry in front. */
  lemma {:induction false} GetCons(e: Entry, rest: seq<Entry>, k: string)
    ensures Get([e] + rest, k) == if e.0 == k then Some(e.1) else Get(rest, k)
  {
    assert ([e] + rest)[1..] == rest;
  }

  lemma {:induction false} HasKeyCons(ps: seq<Entry>, key: string)
    requires ps != []
    ensures HasKey(ps, key) <==> ps[0].0 == key || HasKey(ps[1..], key)
  {
    assert forall i :: 0 < i < |ps| ==> ps[i] == ps[1..][i - 1];
  }

  lemma {:induction false} WithoutGet(ps: seq<Entry>, key: string)
    ensures forall k :: k != key ==> Get(Without(ps, key), k) == Get(ps, k)
  {
    if ps != [] {
      WithoutGet(ps[1..], key);
      if ps[0].0 != key {
        assert ([ps[0]] + Without(ps[1..], key))[1..] == Without(ps[1..], key);
      }
    }
  }

  /** Appending an entry is seen by `get` only when no earlier entry has its name. */
  lemma {:induction false} GetAppend(ps: seq<Entry>, k: string, v: string, key: string)
    ensures Get(ps + [(k, v)], key)
         == if HasKey(ps, key) then Get(ps, key) else if k == key then Some(v) else None
  {
    if ps != [] {
      assert (ps + [(k, v)])[1..] == ps[1..] + [(k, v)];
      GetAppend(ps[1..], k, v, key);
      assert HasKey(ps, key) <==> ps[0].0 == key || HasKey(ps[1..], key) by {
        assert forall i :: 0 < i < |ps| ==> ps[i] == ps[1..][i - 1];
      }
    }
  }

  /** `params.toString()` with the percent-encoding left out. */
  function Serialize(ps: seq<Entry>): (r: string)
    ensures r == [] <==> ps == []
  {
    if ps == [] then []
    else if |ps| == 1 then ps[0].0 + "=" + ps[0].1
    else ps[0].0 + "=" + ps[0].1 + "&" + Serialize(ps[1..])
  }
}
