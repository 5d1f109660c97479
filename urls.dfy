/** The part of the WHATWG `URL` / `URLSearchParams` behaviour the shop hooks use: reading,
    setting and deleting a query parameter, and printing the URL back. Percent-encoding is
    not modelled: keys and values are kept as they are written. */
module Urls {
  import opened Wrappers
  import opened Text
  import Seqs

  type Query = seq<(string, string)>

  /** `origin + pathname`, the query as its list of pairs, and the fragment (with its `#`). */
  datatype Url = Url(path: string, query: Query, hash: string)

  /** The index of the first pair with key `k`, or `|q|` when there is none. */
  function KeyIndex(q: Query, k: string): (i: nat)
    ensures i <= |q|
    ensures i < |q| ==> q[i].0 == k
    ensures forall j :: 0 <= j < i ==> q[j].0 != k
  {
    if q == [] then 0
    else if q[0].0 == k then 0
    else 1 + KeyIndex(q[1..], k)
  }

  predicate HasKey(q: Query, k: string) {
    exists j :: 0 <= j < |q| && q[j].0 == k
  }

  /** `searchParams.get(k)`: the value of the first pair with key `k`. */
  function Get(q: Query, k: string): (r: Option<string>)
    ensures r.None? <==> !HasKey(q, k)
    ensures r.Some? ==> exists j :: 0 <= j < |q| && q[j] == (k, r.value)
                                     && forall m :: 0 <= m < j ==> q[m].0 != k
  {
    var i := KeyIndex(q, k);
    if i < |q| then Some(q[i].1) else None
  }

  /** `searchParams.delete(k)`: every pair with key `k` goes, the others stay in order. */
  function Delete(q: Query, k: string): (r: Query)
    ensures |r| <= |q|
    ensures !HasKey(r, k)
    ensures forall j :: 0 <= j < |r| ==> r[j] in q
  {
    if q == [] then []
    else if q[0].0 == k then Delete(q[1..], k)
    else
      var rest := Delete(q[1..], k);
      assert forall j :: 0 <= j < |rest| ==> rest[j] in q[1..];
      [q[0]] + rest
  }

  /** Deleting `k` is filtering for the other keys: every other pair stays, as often as it
      occurs and in its order. */
  lemma {:induction false} DeleteIsFilter(q: Query, k: string)
    ensures Delete(q, k) == Seqs.Filter(q, KeptBy(k))
    ensures Seqs.IsSubseq(Delete(q, k), q)
    ensures forall x | x in q :: multiset(Delete(q, k))[x] == if x.0 != k then multiset(q)[x] else 0
  {
    if q != [] {
      DeleteIsFilter(q[1..], k);
    }
    Seqs.FilterIsSubseq(q, KeptBy(k));
  }

  /** The test `delete(k)` keeps a pair by: its key is not `k`. */
  function KeptBy(k: string): ((string, string)) -> bool {
    (pair: (string, string)) => pair.0 != k
  }

  /** `searchParams.set(k, v)`: the first pair with key `k` takes the value `v` and the later
      ones go; with no such pair, `(k, v)` is appended. */
  function Set(q: Query, k: string, v: string): (r: Query)
    ensures HasKey(r, k)
  {
    var i := KeyIndex(q, k);
    if i == |q| then
      assert (q + [(k, v)])[|q|].0 == k;
      q + [(k, v)]
    else
      assert (q[..i] + [(k, v)] + Delete(q[i + 1..], k))[i].0 == k;
      q[..i] + [(k, v)] + Delete(q[i + 1..], k)
  }

  /** Deleting `k` does not change what any other key reads as. */
  lemma {:induction false} GetDeletedOther(q: Query, k: string, other: string)
    requires other != k
    ensures Get(Delete(q, k), other) == Get(q, other)
  {
    if q != [] {
      GetDeletedOther(q[1..], k, other);
      var rest := Delete(q[1..], k);
      if q[0].0 == k {
        assert Delete(q, k) == rest;
        GetTail(q, other);
      } else {
        var d := [q[0]] + rest;
        assert Delete(q, k) == d;
        if q[0].0 == other {
          FirstAt(d, other, 0);
          FirstAt(q, other, 0);
        } else {
          assert d[1..] == rest;
          GetTail(d, other);
          GetTail(q, other);
        }
      }
    }
  }

  /** A first pair with another key does not change what `k` reads as. */
  lemma GetTail(q: Query, k: string)
    requires q != [] && q[0].0 != k
    ensures Get(q, k) == Get(q[1..], k)
  {
    var i := KeyIndex(q[1..], k);
    assert KeyIndex(q, k) == 1 + i;
    if i < |q[1..]| {
      assert q[1 + i] == q[1..][i];
    }
  }

  /** The first pair with key `k` gives what `k` reads as. */
  lemma FirstAt(q: Query, k: string, i: nat)
    requires i < |q| && q[i].0 == k
    requires forall j :: 0 <= j < i ==> q[j].0 != k
    ensures Get(q, k) == Some(q[i].1)
  {
  }

  lemma NoneAt(q: Query, k: string)
    requires forall j :: 0 <= j < |q| ==> q[j].0 != k
    ensures Get(q, k) == None
  {
  }

  /** Reading `k` from `a + [p] + b`, where `p` has another key, reads `a` first, then `b`. */
  lemma GetAround(a: Query, p: (string, string), b: Query, k: string)
    requires p.0 != k
    ensures Get(a + [p] + b, k) == if HasKey(a, k) then Get(a, k) else Get(b, k)
  {
    var s := a + [p] + b;
    var i := KeyIndex(a, k);
    if i < |a| {
      assert s[i] == a[i];
      assert forall j :: 0 <= j < i ==> s[j] == a[j];
      FirstAt(s, k, i);
    } else {
      var j := KeyIndex(b, k);
      assert forall m :: 0 <= m < |a| ==> s[m] == a[m];
      assert s[|a|] == p;
      assert forall m :: 0 <= m < j ==> s[|a| + 1 + m] == b[m];
      if j < |b| {
        assert s[|a| + 1 + j] == b[j];
        forall m | 0 <= m < |a| + 1 + j ensures s[m].0 != k {
          if m > |a| {
            assert s[|a| + 1 + (m - |a| - 1)] == b[m - |a| - 1];
          }
        }
        FirstAt(s, k, |a| + 1 + j);
      } else {
        forall m | 0 <= m < |s| ensures s[m].0 != k {
          if m > |a| {
            assert s[|a| + 1 + (m - |a| - 1)] == b[m - |a| - 1];
          }
        }
        NoneAt(s, k);
      }
    }
  }

  /** After setting `k` to `v` it reads as `v`. */
  lemma GetSet(q: Query, k: string, v: string)
    ensures Get(Set(q, k, v), k) == Some(v)
  {
    var i := KeyIndex(q, k);
    var r := Set(q, k, v);
    if i == |q| {
      assert r == q + [(k, v)];
      assert r[i] == (k, v);
      assert forall j :: 0 <= j < i ==> r[j] == q[j];
    } else {
      assert r == q[..i] + [(k, v)] + Delete(q[i + 1..], k);
      assert r[i] == (k, v);
      assert forall j :: 0 <= j < i ==> r[j] == q[j];
    }
    FirstAt(r, k, i);
  }

  /** Setting `k` does not change what any other key reads as. */
  lemma GetSetOther(q: Query, k: string, v: string, other: string)
    requires other != k
    ensures Get(Set(q, k, v), other) == Get(q, other)
  {
    var i := KeyIndex(q, k);
    if i == |q| {
      GetAround(q, (k, v), [], other);
      assert q + [(k, v)] + [] == q + [(k, v)];
    } else {
      GetAround(q[..i], (k, v), Delete(q[i + 1..], k), other);
      GetAround(q[..i], q[i], q[i + 1..], other);
      assert q[..i] + [q[i]] + q[i + 1..] == q;
      GetDeletedOther(q[i + 1..], k, other);
    }
  }

  /** `k=v` */
  function PairText(p: (string, string)): string {
    p.0 + "=" + p.1
  }

  function PairTexts(q: Query): (ts: seq<string>)
    ensures |ts| == |q|
    ensures forall j :: 0 <= j < |q| ==> ts[j] == PairText(q[j])
  {
    if q == [] then [] else [PairText(q[0])] + PairTexts(q[1..])
  }

  /** `url.search`: empty without parameters, else `?` and the pairs joined by `&`. */
  function Search(q: Query): (s: string)
    ensures s == "" <==> q == []
    ensures s != "" ==> s[0] == '?'
  {
    if q == [] then "" else "?" + Join(PairTexts(q), "&")
  }

  /** `url.toString()` */
  function Href(u: Url): string {
    u.path + Search(u.query) + u.hash
  }

  /** `url.pathname + url.search`, the target of a client-side replace. */
  function PathAndSearch(u: Url): string {
    u.path + Search(u.query)
  }
}
