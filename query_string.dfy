/** HttpHelper.buildQueryString, identical in both client revisions
    (src/unknown-globe-std/public/js/helper_classes.js and
    src/unknown-globe/public/js/helper_classes.js), together with the
    key/value list it reads, lookups and key deletion on that list, and a
    reader that takes a query string apart again.

    A JavaScript object's keys are kept as a list of (key, value) pairs in
    the order Object.keys returns them. encodeURIComponent is not modelled
    character by character: it is a parameter `enc`, of which the round trip
    only needs that it never outputs '&' or '=' (it percent-encodes both). */
module QueryString {
  import opened Common

  type Params = seq<(string, string)>

  type Encoder = string -> string

  /** encodeURIComponent escapes both separators of a query string. */
  ghost predicate EscapesSeparators(enc: Encoder)
  {
    forall s :: '&' !in enc(s) && '=' !in enc(s)
  }

  /** The pairs as they appear on the wire: key and value each encoded. */
  function EncodedParams(params: Params, enc: Encoder): (r: Params)
    ensures |r| == |params|
  {
    seq(|params|, i requires 0 <= i < |params| => (enc(params[i].0), enc(params[i].1)))
  }

  /** `[key, data[key]].map(encodeURIComponent).join("=")` */
  function EncodePair(kv: (string, string), enc: Encoder): string
  {
    Join([enc(kv.0), enc(kv.1)], '=')
  }

  function EncodedPairs(params: Params, enc: Encoder): (r: seq<string>)
    ensures |r| == |params|
  {
    seq(|params|, i requires 0 <= i < |params| => EncodePair(params[i], enc))
  }

  /** '?' and the encoded pairs joined by '&'; the empty string when there are no keys. */
  function BuildQueryString(params: Params, enc: Encoder): (r: string)
    ensures r == "" <==> |params| == 0
    ensures |params| > 0 ==> r[0] == '?'
  {
    if |params| > 0 then "?" + Join(EncodedPairs(params, enc), '&') else ""
  }

  /** Two keys give `?k1=v1&k2=v2`, each key and value encoded. */
  lemma QueryStringOfTwoKeys(k1: string, v1: string, k2: string, v2: string, enc: Encoder)
    ensures BuildQueryString([(k1, v1), (k2, v2)], enc)
         == "?" + (enc(k1) + "=" + enc(v1)) + "&" + (enc(k2) + "=" + enc(v2))
  {
    var pairs := EncodedPairs([(k1, v1), (k2, v2)], enc);
    assert pairs[0] == Join([enc(k1), enc(v1)], '=') == enc(k1) + "=" + enc(v1);
    assert pairs[1] == Join([enc(k2), enc(v2)], '=') == enc(k2) + "=" + enc(v2);
    assert Join(pairs, '&') == pairs[0] + "&" + Join(pairs[1..], '&');
  }

  // ---------------------------------------------------------------------------
  // reading a query string back

  /** A `k=v` item: the key before the first '=', the value after it. */
  function ParsePair(item: string): (string, string)
  {
    var parts := Split(item, '=');
    (parts[0], Join(parts[1..], '='))
  }

  function ParseQueryString(q: string): Params
  {
    if |q| == 0 || q[0] != '?' then []
    else
      var items := Split(q[1..], '&');
      seq(|items|, i requires 0 <= i < |items| => ParsePair(items[i]))
  }

  lemma EncodedPairParses(kv: (string, string), enc: Encoder)
    requires EscapesSeparators(enc)
    ensures ParsePair(EncodePair(kv, enc)) == (enc(kv.0), enc(kv.1))
  {
    var k, v := enc(kv.0), enc(kv.1);
    assert EncodePair(kv, enc) == k + ['='] + v;
    SplitAtFirstSeparator(k, '=', v);
    SplitWithoutSeparator(v, '=');
  }

  /** Reading the query string back yields every pair, in key order, encoded. */
  lemma QueryStringRoundTrip(params: Params, enc: Encoder)
    requires EscapesSeparators(enc)
    ensures ParseQueryString(BuildQueryString(params, enc)) == EncodedParams(params, enc)
  {
    if |params| > 0 {
      var pairs := EncodedPairs(params, enc);
      forall i | 0 <= i < |pairs| ensures '&' !in pairs[i] {
        JoinAvoids([enc(params[i].0), enc(params[i].1)], '=', '&');
      }
      SplitJoin(pairs, '&');
      var q := BuildQueryString(params, enc);
      assert q[1..] == Join(pairs, '&');
      forall i | 0 <= i < |params|
        ensures ParsePair(pairs[i]) == EncodedParams(params, enc)[i]
      {
        EncodedPairParses(params[i], enc);
      }
    }
  }

  // ---------------------------------------------------------------------------
  // the key/value list as an object

  /** `data[key]`: the value of the first pair with that key. */
  function Lookup(params: Params, key: string): Option<string>
  {
    if |params| == 0 then None
    else if params[0].0 == key then Some(params[0].1)
    else Lookup(params[1..], key)
  }

  /** The object after `delete data[key]`: every pair with another key, in order. */
  function Without(params: Params, key: string): (r: Params)
    ensures forall i :: 0 <= i < |r| ==> r[i].0 != key && r[i] in params
  {
    if |params| == 0 then []
    else (if params[0].0 != key then [params[0]] else []) + Without(params[1..], key)
  }

  /** Deleting a key removes it and leaves every other key's value as it was. */
  lemma {:induction false} WithoutRemovesOnlyKey(params: Params, key: string)
    ensures Lookup(Without(params, key), key) == None
    ensures forall k :: k != key ==> Lookup(Without(params, key), k) == Lookup(params, k)
  {
    if |params| > 0 {
      WithoutRemovesOnlyKey(params[1..], key);
      var rest := Without(params[1..], key);
      if params[0].0 != key {
        assert Without(params, key) == [params[0]] + rest;
        assert ([params[0]] + rest)[1..] == rest;
      } else {
        assert Without(params, key) == rest;
      }
    }
  }

  /** Deleting a key that is not there changes nothing. */
  lemma {:induction false} WithoutAbsentKey(params: Params, key: string)
    requires Lookup(params, key) == None
    ensures Without(params, key) == params
  {
    if |params| > 0 {
      assert params[0].0 != key && Lookup(params[1..], key) == None;
      WithoutAbsentKey(params[1..], key);
      calc {
        Without(params, key);
        [params[0]] + Without(params[1..], key);
        [params[0]] + params[1..];
        params;
      }
    }
  }
}
