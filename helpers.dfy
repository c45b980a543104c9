/**
 * utils/helpers.js: `filterObj`, which copies the allowed own keys of an
 * object into a new object, and `hashToken`, the SHA-256 digest of a token.
 */
module Helpers {
  import opened Wrappers

  /**
   * The hex SHA-256 digest of a token, modelled as an ideal hash: equal
   * digests come from equal tokens, and the digest is all that is stored.
   */
  datatype Sha256Hex = Sha256Hex(token: string)

  function HashToken(token: string): Sha256Hex {
    Sha256Hex(token)
  }

  /** A plain object as `Object.keys` sees it: its own keys, in order, with their values. */
  type Obj<V> = seq<(string, V)>

  /** The keys of a JavaScript object are distinct. */
  predicate DistinctKeys<V>(o: Obj<V>) {
    forall i, j :: 0 <= i < j < |o| ==> o[i].0 != o[j].0
  }

  function Keys<V>(o: Obj<V>): set<string> {
    set i | 0 <= i < |o| :: o[i].0
  }

  /** `o[k]`, None for a key the object does not have. */
  function Get<V>(o: Obj<V>, k: string): Option<V>
    decreases |o|
  {
    if |o| == 0 then None
    else if o[|o| - 1].0 == k then Some(o[|o| - 1].1)
    else Get(o[..|o| - 1], k)
  }

  /** Reference definition: the entries whose key is allowed, in the object's key order. */
  function Kept<V>(o: Obj<V>, allowed: seq<string>): Obj<V>
    decreases |o|
  {
    if |o| == 0 then []
    else Kept(o[..|o| - 1], allowed) + (if o[|o| - 1].0 in allowed then [o[|o| - 1]] else [])
  }

  lemma {:induction false} KeptKeys<V>(o: Obj<V>, allowed: seq<string>)
    ensures Keys(Kept(o, allowed)) == Keys(o) * set k | k in allowed
    decreases |o|
  {
    if |o| > 0 {
      var p := o[..|o| - 1];
      KeptKeys(p, allowed);
      assert Keys(o) == Keys(p) + {o[|o| - 1].0} by {
        forall k | k in Keys(o) ensures k in Keys(p) + {o[|o| - 1].0} {
          var i :| 0 <= i < |o| && o[i].0 == k;
          if i < |o| - 1 { assert p[i] == o[i]; }
        }
      }
      var kp := Kept(p, allowed);
      var tail := if o[|o| - 1].0 in allowed then [o[|o| - 1]] else [];
      assert Keys(kp + tail) == Keys(kp) + Keys(tail) by {
        forall k | k in Keys(kp + tail) ensures k in Keys(kp) + Keys(tail) {
          var i :| 0 <= i < |kp + tail| && (kp + tail)[i].0 == k;
          if i < |kp| { assert (kp + tail)[i] == kp[i]; } else { assert (kp + tail)[i] == tail[i - |kp|]; }
        }
        forall k | k in Keys(kp) + Keys(tail) ensures k in Keys(kp + tail) {
          if k in Keys(kp) {
            var i :| 0 <= i < |kp| && kp[i].0 == k;
            assert (kp + tail)[i] == kp[i];
          } else {
            var i :| 0 <= i < |tail| && tail[i].0 == k;
            assert (kp + tail)[|kp| + i] == tail[i];
          }
        }
      }
      assert Kept(o, allowed) == kp + tail;
      if o[|o| - 1].0 in allowed {
        assert tail[0].0 == o[|o| - 1].0;
        assert Keys(tail) == {o[|o| - 1].0};
      } else {
        assert Keys(tail) == {};
      }
    }
  }

  lemma {:induction false} KeptValues<V>(o: Obj<V>, allowed: seq<string>, k: string)
    ensures Get(Kept(o, allowed), k) == if k in allowed then Get(o, k) else None
    decreases |o|
  {
    if |o| > 0 {
      var p := o[..|o| - 1];
      KeptValues(p, allowed, k);
      var kp := Kept(p, allowed);
      if o[|o| - 1].0 in allowed {
        assert (kp + [o[|o| - 1]])[..|kp|] == kp;
      } else {
        assert kp + [] == kp;
      }
    }
  }

  lemma {:induction false} KeptDistinct<V>(o: Obj<V>, allowed: seq<string>)
    requires DistinctKeys(o)
    ensures DistinctKeys(Kept(o, allowed))
    decreases |o|
  {
    if |o| > 0 {
      var p := o[..|o| - 1];
      assert DistinctKeys(p);
      KeptDistinct(p, allowed);
      KeptKeys(p, allowed);
      var kp := Kept(p, allowed);
      if o[|o| - 1].0 in allowed {
        var r := kp + [o[|o| - 1]];
        forall i, j | 0 <= i < j < |r| ensures r[i].0 != r[j].0 {
          if j == |r| - 1 {
            assert r[i].0 in Keys(kp);
            assert r[i].0 in Keys(p);
            var m :| 0 <= m < |p| && p[m].0 == r[i].0;
            assert o[m] == p[m];
          }
        }
      }
    }
  }

  /** Filtering twice with the same fields keeps what filtering once kept. */
  lemma {:induction false} KeptIdempotent<V>(o: Obj<V>, allowed: seq<string>)
    ensures Kept(Kept(o, allowed), allowed) == Kept(o, allowed)
    decreases |o|
  {
    if |o| > 0 {
      var p := o[..|o| - 1];
      KeptIdempotent(p, allowed);
      var kp := Kept(p, allowed);
      if o[|o| - 1].0 in allowed {
        var r := kp + [o[|o| - 1]];
        assert r[..|r| - 1] == kp;
      } else {
        assert kp + [] == kp;
      }
    }
  }

  /**
   * `filterObj(obj, ...allowedFields)`: walks the object's keys and copies
   * each allowed one into a new object. The result has exactly the allowed
   * keys of the input, each with its original value, in the input's order.
   */
  method FilterObj<V>(obj: Obj<V>, allowedFields: seq<string>) returns (newObj: Obj<V>)
    requires DistinctKeys(obj)
    ensures newObj == Kept(obj, allowedFields)
    ensures Keys(newObj) == Keys(obj) * set k | k in allowedFields
    ensures forall k :: k in Keys(newObj) ==> Get(newObj, k) == Get(obj, k)
    ensures DistinctKeys(newObj)
  {
    newObj := [];
    var i := 0;
    while i < |obj|
      invariant 0 <= i <= |obj|
      invariant newObj == Kept(obj[..i], allowedFields)
    {
      assert obj[..i + 1][..i] == obj[..i];
      if obj[i].0 in allowedFields {
        newObj := newObj + [obj[i]];
      }
      i := i + 1;
    }
    assert obj[..i] == obj;
    KeptKeys(obj, allowedFields);
    KeptDistinct(obj, allowedFields);
    forall k | k in Keys(newObj) ensures Get(newObj, k) == Get(obj, k) {
      KeptValues(obj, allowedFields, k);
    }
  }
}
