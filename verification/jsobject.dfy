/**
 * A JavaScript object with string keys and string values, as used for the
 * `session.encrypted` record. Object.keys enumerates properties in insertion
 * order; assigning to an existing property keeps its position; `delete`
 * removes it. The object is a sequence of entries whose keys are distinct.
 */
module JsObject {
  import opened Wrappers

  datatype Entry = Entry(key: string, value: string)

  type Object = seq<Entry>

  /** Keys are distinct: the invariant every JavaScript object keeps. */
  ghost predicate UniqueKeys(o: Object) {
    forall i, j :: 0 <= i < j < |o| ==> o[i].key != o[j].key
  }

  /** Object.keys(o), in enumeration order. */
  function Keys(o: Object): (ks: seq<string>)
    ensures |ks| == |o|
    ensures forall i :: 0 <= i < |o| ==> ks[i] == o[i].key
  {
    if o == [] then [] else [o[0].key] + Keys(o[1..])
  }

  /** o[k], or `undefined` when the property is missing. */
  function Get(o: Object, k: string): (r: Option<string>)
    ensures r.None? <==> k !in Keys(o)
    ensures r.Some? ==> Entry(k, r.value) in o
  {
    if o == [] then None
    else if o[0].key == k then Some(o[0].value)
    else Get(o[1..], k)
  }

  /** `o[k] = v`: overwrite in place when present, otherwise append. */
  function Put(o: Object, k: string, v: string): (r: Object)
    ensures Get(r, k) == Some(v)
    ensures forall k' :: k' != k ==> Get(r, k') == Get(o, k')
  {
    if o == [] then [Entry(k, v)]
    else if o[0].key == k then [Entry(k, v)] + o[1..]
    else [o[0]] + Put(o[1..], k, v)
  }

  /** `delete o[k]`. */
  function Delete(o: Object, k: string): (r: Object)
    ensures Get(r, k) == None
    ensures forall k' :: k' != k ==> Get(r, k') == Get(o, k')
  {
    if o == [] then []
    else if o[0].key == k then Delete(o[1..], k)
    else [o[0]] + Delete(o[1..], k)
  }

  /** Assignment to an existing property keeps the keys where they are. */
  lemma {:induction false} PutPresentKeys(o: Object, k: string, v: string)
    requires k in Keys(o)
    ensures Keys(Put(o, k, v)) == Keys(o)
  {
    var rest := Keys(o[1..]);
    assert Keys(o) == [o[0].key] + rest;
    if o[0].key != k {
      PutPresentKeys(o[1..], k, v);
      assert Keys(Put(o, k, v)) == [o[0].key] + Keys(Put(o[1..], k, v));
    } else {
      assert Keys(Put(o, k, v)) == [k] + rest;
    }
  }

  /** Assignment to a new property appends its key. */
  lemma {:induction false} PutAbsentKeys(o: Object, k: string, v: string)
    requires k !in Keys(o)
    ensures Keys(Put(o, k, v)) == Keys(o) + [k]
  {
    if o != [] {
      var rest := Keys(o[1..]);
      assert Keys(o) == [o[0].key] + rest;
      PutAbsentKeys(o[1..], k, v);
      assert Keys(Put(o, k, v)) == [o[0].key] + (rest + [k]);
    }
  }

  /** Assignment keeps an existing property where it is and appends a new one. */
  lemma PutKeys(o: Object, k: string, v: string)
    ensures k in Keys(o) ==> Keys(Put(o, k, v)) == Keys(o)
    ensures k !in Keys(o) ==> Keys(Put(o, k, v)) == Keys(o) + [k]
  {
    if k in Keys(o) {
      PutPresentKeys(o, k, v);
    } else {
      PutAbsentKeys(o, k, v);
    }
  }

  /** Assignment keeps property names distinct. */
  lemma PutUnique(o: Object, k: string, v: string)
    ensures UniqueKeys(o) ==> UniqueKeys(Put(o, k, v))
  {
    if !UniqueKeys(o) { return; }
    PutKeys(o, k, v);
    var r := Put(o, k, v);
    forall i, j | 0 <= i < j < |r|
      ensures r[i].key != r[j].key
    {
      assert Keys(r)[i] == r[i].key && Keys(r)[j] == r[j].key;
      if k !in Keys(o) && j == |o| {
        assert Keys(o)[i] == o[i].key;
      } else {
        assert Keys(o)[i] == o[i].key && Keys(o)[j] == o[j].key;
      }
    }
  }

  /** After `delete o[k]` the keys are the old keys without `k`. */
  lemma {:induction false} DeleteKeys(o: Object, k: string)
    ensures forall k' :: k' in Keys(Delete(o, k)) <==> k' in Keys(o) && k' != k
    ensures k !in Keys(o) ==> Delete(o, k) == o
  {
    if o != [] {
      DeleteKeys(o[1..], k);
      assert Keys(o) == [o[0].key] + Keys(o[1..]);
      if o[0].key != k {
        assert Keys(Delete(o, k)) == [o[0].key] + Keys(Delete(o[1..], k));
      }
    }
  }

  /** Deleting keeps the remaining entries in their order. */
  lemma {:induction false} DeleteSubsequence(o: Object, k: string)
    ensures forall e :: e in Delete(o, k) ==> e in o
  {
    if o != [] {
      DeleteSubsequence(o[1..], k);
    }
  }

  /** Deletion keeps property names distinct. */
  lemma {:induction false} DeleteUnique(o: Object, k: string)
    ensures UniqueKeys(o) ==> UniqueKeys(Delete(o, k))
  {
    if o != [] && UniqueKeys(o) {
      DeleteUnique(o[1..], k);
      if o[0].key != k {
        var rest := Delete(o[1..], k);
        DeleteKeys(o[1..], k);
        assert o[0].key !in Keys(o[1..]) by {
          forall i | 0 <= i < |o[1..]| ensures Keys(o[1..])[i] != o[0].key {
            assert o[1..][i] == o[i + 1];
          }
        }
        assert o[0].key !in Keys(rest);
        var r := [o[0]] + rest;
        forall i, j | 0 <= i < j < |r|
          ensures r[i].key != r[j].key
        {
          if i == 0 {
            assert Keys(rest)[j - 1] == rest[j - 1].key;
          } else {
            assert r[i] == rest[i - 1] && r[j] == rest[j - 1];
          }
        }
      }
    }
  }
}
