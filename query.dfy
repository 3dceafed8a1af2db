/** The query part of the URLs the pages navigate to: `key=value` pairs
    joined with '&', as `URLSearchParams` writes them and as the pages read
    them back with `searchParams.get`. */
module Query {
  import opened Wrappers
  import opened Text

  /** The pairs of a query string, in order. */
  type Params = seq<(string, string)>

  function Pair(key: string, value: string): string {
    key + "=" + value
  }

  function Pieces(params: Params): (r: seq<string>)
    ensures |r| == |params|
    ensures forall i :: 0 <= i < |params| ==> r[i] == Pair(params[i].0, params[i].1)
  {
    if params == [] then [] else [Pair(params[0].0, params[0].1)] + Pieces(params[1..])
  }

  /** `params.toString()`: the pairs joined with '&'. */
  function Encode(params: Params): string {
    Join(Pieces(params), "&")
  }

  /** `new URLSearchParams(q)`: the pieces between '&', empty pieces
      skipped, each cut at its first '='; a piece without '=' is a key
      whose value is "". */
  function Decode(q: string): Params {
    DecodePieces(SplitOn(q, '&'))
  }

  function DecodePieces(pieces: seq<string>): Params {
    if pieces == [] then []
    else
      var p := pieces[0];
      var k := IndexOf(p, '=');
      var rest := DecodePieces(pieces[1..]);
      if p == "" then rest
      else [(p[..k], if k < |p| then p[k + 1..] else "")] + rest
  }

  /** `searchParams.get(key)`: the value of the first pair with that key,
      None when there is none. */
  function Get(params: Params, key: string): Option<string> {
    if params == [] then None
    else if params[0].0 == key then Some(params[0].1)
    else Get(params[1..], key)
  }

  /** `get` finds a value exactly when some pair has the key, and the value
      it finds is that of the first such pair. */
  lemma {:induction false} GetFirst(params: Params, key: string)
    ensures Get(params, key).None? <==> forall i :: 0 <= i < |params| ==> params[i].0 != key
    ensures Get(params, key).Some? ==>
      exists i :: 0 <= i < |params| && params[i] == (key, Get(params, key).value)
        && forall j :: 0 <= j < i ==> params[j].0 != key
  {
    if params != [] && params[0].0 != key {
      GetFirst(params[1..], key);
      var r := Get(params, key);
      if r.Some? {
        var i :| 0 <= i < |params[1..]| && params[1..][i] == (key, r.value)
          && forall j :: 0 <= j < i ==> params[1..][j].0 != key;
        assert params[i + 1] == (key, r.value);
        assert forall j :: 0 <= j < i + 1 ==> params[j].0 != key by {
          forall j | 0 <= j < i + 1 ensures params[j].0 != key {
            if j > 0 { assert params[j] == params[1..][j - 1]; }
          }
        }
      }
    }
  }

  /** A pair with another key is passed over; a pair with the key is found. */
  lemma GetCons(key: string, value: string, rest: Params, wanted: string)
    ensures Get([(key, value)] + rest, wanted) == if key == wanted then Some(value) else Get(rest, wanted)
  {
    assert ([(key, value)] + rest)[1..] == rest;
  }

  /** The query part of a URL: what follows its first '?'. */
  function QueryOf(url: string): (q: string)
    ensures |q| <= |url|
  {
    var k := IndexOf(url, '?');
    if k < |url| then url[k + 1..] else ""
  }

  /** Keys without '&' or '=', values without '&': the pairs the pages put
      into their URLs without percent-encoding survive the trip. */
  predicate Plain(params: Params) {
    forall i :: 0 <= i < |params| ==>
      '&' !in params[i].0 && '=' !in params[i].0 && '&' !in params[i].1
  }

  /** Reading a query string back gives the pairs it was written from. */
  lemma DecodeEncode(params: Params)
    requires Plain(params)
    ensures Decode(Encode(params)) == params
  {
    var pieces := Pieces(params);
    if params == [] {
      assert Encode(params) == "";
      assert SplitOn("", '&') == [""];
    } else {
      forall i | 0 <= i < |pieces|
        ensures '&' !in pieces[i]
      {
        assert pieces[i] == params[i].0 + "=" + params[i].1;
      }
      SplitJoinOn(pieces, '&');
      DecodePiecesOfPairs(params);
    }
  }

  lemma {:induction false} DecodePiecesOfPairs(params: Params)
    requires Plain(params)
    ensures DecodePieces(Pieces(params)) == params
  {
    if params != [] {
      var (key, value) := params[0];
      var p := Pair(key, value);
      assert p[|key|] == '=' && p[..|key|] == key;
      assert IndexOf(p, '=') == |key|;
      assert p[|key| + 1..] == value;
      assert Pieces(params)[1..] == Pieces(params[1..]);
      DecodePiecesOfPairs(params[1..]);
      assert params == [params[0]] + params[1..];
    }
  }

  /** A path followed by '?' and a query string: the query string is read
      back from it. */
  lemma QueryOfPath(path: string, q: string)
    requires '?' !in path
    ensures QueryOf(path + "?" + q) == q
  {
    var url := path + "?" + q;
    assert url[..|path|] == path && url[|path|] == '?';
    assert IndexOf(url, '?') == |path|;
    assert url[|path| + 1..] == q;
  }

  /** A path without '?' followed by a query string written from plain
      pairs: the pairs are read back from it. */
  lemma PathQueryDecodes(path: string, params: Params)
    requires '?' !in path && Plain(params)
    ensures Decode(QueryOf(path + "?" + Encode(params))) == params
  {
    DecodeEncode(params);
    QueryOfPath(path, Encode(params));
  }
}
