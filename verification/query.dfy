/** A URL's path and query, with the query kept as `URLSearchParams` keeps
    it: an ordered list of name/value pairs in which a name may repeat.
    Percent-encoding is not modelled: a query is its list of pairs. */
module Query {
  import opened Common

  type Params = seq<(string, string)>

  /** A navigation or request target: a path and its query parameters. */
  datatype Url = Url(path: string, query: Params)

  /** The value of the first pair named `k` (`URLSearchParams.get`). */
  function Get(p: Params, k: string): Option<string> {
    if |p| == 0 then None
    else if p[0].0 == k then Some(p[0].1)
    else Get(p[1..], k)
  }

  /** How many pairs are named `k`. */
  function Count(p: Params, k: string): nat {
    if |p| == 0 then 0 else (if p[0].0 == k then 1 else 0) + Count(p[1..], k)
  }

  /** The pairs not named `k`, in their original order. */
  function Others(p: Params, k: string): Params {
    if |p| == 0 then []
    else if p[0].0 == k then Others(p[1..], k)
    else [p[0]] + Others(p[1..], k)
  }

  /** `URLSearchParams.append`. */
  function Append(p: Params, k: string, v: string): (r: Params)
    ensures Count(r, k) == Count(p, k) + 1
    ensures Get(p, k).None? ==> Get(r, k) == Some(v)
    ensures forall k' :: k' != k ==> Get(r, k') == Get(p, k')
  {
    AppendFacts(p, k, v);
    p + [(k, v)]
  }

  lemma {:induction false} AppendFacts(p: Params, k: string, v: string)
    ensures Count(p + [(k, v)], k) == Count(p, k) + 1
    ensures Get(p, k).None? ==> Get(p + [(k, v)], k) == Some(v)
    ensures forall k' :: k' != k ==> Get(p + [(k, v)], k') == Get(p, k')
    decreases |p|
  {
    if |p| > 0 {
      assert (p + [(k, v)])[1..] == p[1..] + [(k, v)];
      AppendFacts(p[1..], k, v);
    }
  }

  /** `URLSearchParams.delete`: every pair named `k` is removed; the others
      keep their order. */
  function Delete(p: Params, k: string): (r: Params)
    ensures Get(r, k) == None && Count(r, k) == 0
    ensures forall k' :: k' != k ==> Get(r, k') == Get(p, k') && Count(r, k') == Count(p, k')
    ensures r == Others(p, k)
  {
    if |p| == 0 then []
    else if p[0].0 == k then Delete(p[1..], k)
    else
      var rest := Delete(p[1..], k);
      var r := [p[0]] + rest;
      assert r[0] == p[0] && r[1..] == rest;
      assert forall k' :: Get(r, k') == (if p[0].0 == k' then Some(p[0].1) else Get(rest, k'));
      assert forall k' :: Count(r, k') == (if p[0].0 == k' then 1 else 0) + Count(rest, k');
      r
  }

  /** `URLSearchParams.set`: the first pair named `k` takes the value `v` and
      the other pairs named `k` are removed; with no such pair, `(k, v)` is
      appended. */
  function Set(p: Params, k: string, v: string): (r: Params)
    ensures Get(r, k) == Some(v) && Count(r, k) == 1
    ensures forall k' :: k' != k ==> Get(r, k') == Get(p, k') && Count(r, k') == Count(p, k')
    ensures Others(r, k) == Others(p, k)
  {
    if |p| == 0 then [(k, v)]
    else if p[0].0 == k then
      OthersOfAbsent(Delete(p[1..], k), k);
      [(k, v)] + Delete(p[1..], k)
    else
      var rest := Set(p[1..], k, v);
      var r := [p[0]] + rest;
      assert r[0] == p[0] && r[1..] == rest;
      assert forall k' :: Get(r, k') == (if p[0].0 == k' then Some(p[0].1) else Get(rest, k'));
      assert forall k' :: Count(r, k') == (if p[0].0 == k' then 1 else 0) + Count(rest, k');
      r
  }

  lemma {:induction false} OthersOfAbsent(p: Params, k: string)
    requires Count(p, k) == 0
    ensures Others(p, k) == p
    decreases |p|
  {
    if |p| > 0 {
      OthersOfAbsent(p[1..], k);
    }
  }

  /** Setting a name twice keeps only the second value. */
  lemma {:induction false} SetSet(p: Params, k: string, v: string, w: string)
    ensures Set(Set(p, k, v), k, w) == Set(p, k, w)
    decreases |p|
  {
    if |p| > 0 {
      if p[0].0 == k {
        DeleteIdempotent(p[1..], k);
      } else {
        SetSet(p[1..], k, v, w);
      }
    }
  }

  lemma {:induction false} DeleteIdempotent(p: Params, k: string)
    ensures Delete(Delete(p, k), k) == Delete(p, k)
    decreases |p|
  {
    if |p| > 0 {
      DeleteIdempotent(p[1..], k);
    }
  }
}
