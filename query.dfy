/**
 Reading a URL query the way `URLSearchParams` does once the query is
 split into pairs: `has` asks whether some pair carries the key, `get`
 returns the value of the first such pair.
 */
module QueryParams {
  import opened OAuthTypes

  /** Some pair of `q` carries `key`. */
  predicate Has(q: seq<Param>, key: string) {
    exists i :: 0 <= i < |q| && q[i].key == key
  }

  /** The value of the first pair of `q` whose key is `key`, if there is one. */
  function Get(q: seq<Param>, key: string): (r: Option<string>)
    ensures r.Some? <==> Has(q, key)
    ensures r.Some? ==> exists i :: 0 <= i < |q| && q[i] == Param(key, r.value) &&
                                    forall j :: 0 <= j < i ==> q[j].key != key
  {
    if q == [] then None
    else if q[0].key == key then Some(q[0].value)
    else
      var r := Get(q[1..], key);
      assert Has(q, key) ==> Has(q[1..], key) by {
        if Has(q, key) {
          var i :| 0 <= i < |q| && q[i].key == key;
          assert q[1..][i - 1].key == key;
        }
      }
      assert r.Some? ==> Has(q, key) by {
        if r.Some? {
          var i :| 0 <= i < |q[1..]| && q[1..][i].key == key;
          assert q[i + 1].key == key;
        }
      }
      assert r.Some? ==> exists i :: 0 <= i < |q| && q[i] == Param(key, r.value) &&
                                     forall j :: 0 <= j < i ==> q[j].key != key by {
        if r.Some? {
          var i :| 0 <= i < |q[1..]| && q[1..][i] == Param(key, r.value) &&
                   forall j :: 0 <= j < i ==> q[1..][j].key != key;
          assert q[i + 1] == Param(key, r.value);
          assert forall j :: 0 <= j < i + 1 ==> q[j].key != key by {
            forall j | 0 <= j < i + 1 ensures q[j].key != key {
              if j > 0 { assert q[j] == q[1..][j - 1]; }
            }
          }
        }
      }
      r
  }

  /** How many pairs of `q` carry `key`. */
  function Count(q: seq<Param>, key: string): nat {
    if q == [] then 0 else (if q[0].key == key then 1 else 0) + Count(q[1..], key)
  }

  /** Counting distributes over concatenation. */
  lemma {:induction false} CountConcat(a: seq<Param>, b: seq<Param>, key: string)
    ensures Count(a + b, key) == Count(a, key) + Count(b, key)
  {
    if a == [] {
      assert a + b == b;
    } else {
      assert (a + b)[0] == a[0];
      assert (a + b)[1..] == a[1..] + b;
      CountConcat(a[1..], b, key);
    }
  }

  /** A key is counted zero times exactly when no pair carries it. */
  lemma {:induction false} CountZeroIffAbsent(q: seq<Param>, key: string)
    ensures Count(q, key) == 0 <==> !Has(q, key)
  {
    if q != [] {
      CountZeroIffAbsent(q[1..], key);
      if Has(q[1..], key) {
        var i :| 0 <= i < |q[1..]| && q[1..][i].key == key;
        assert q[i + 1].key == key;
      }
      if Has(q, key) && q[0].key != key {
        var i :| 0 <= i < |q| && q[i].key == key;
        assert q[1..][i - 1].key == key;
      }
    }
  }
}
