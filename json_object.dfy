/** The three JavaScript operations on one object that the store performs on its
    root: reading `o[k]`, assigning `o[k] = v`, and `delete o[k]`. */
module JsonObject {
  import opened JsonValue

  /** `o[k]`: the value of the field named k, or undefined when there is none. */
  function Lookup(fs: seq<Field>, k: string): (v: Json)
    ensures k !in Keys(fs) ==> v == Undefined
  {
    if fs == [] then Undefined
    else if fs[0].key == k then fs[0].value
    else Lookup(fs[1..], k)
  }

  /** `o[k] = v`: the key reads back as v (PutOther: every other key reads as
      before; PutKeys: the order). Assigning undefined keeps the key. */
  function Put(fs: seq<Field>, k: string, v: Json): (r: seq<Field>)
    ensures Lookup(r, k) == v
  {
    if fs == [] then [Field(k, v)]
    else if fs[0].key == k then [Field(k, v)] + fs[1..]
    else [fs[0]] + Put(fs[1..], k, v)
  }

  /** An existing key keeps its place; a new key is enumerated after all the others. */
  lemma {:induction false} PutKeys(fs: seq<Field>, k: string, v: Json)
    ensures Keys(Put(fs, k, v)) == if k in Keys(fs) then Keys(fs) else Keys(fs) + [k]
  {
    if fs == [] {
    } else if fs[0].key == k {
      assert Keys([Field(k, v)] + fs[1..]) == [k] + Keys(fs[1..]);
      assert Keys(fs) == [k] + Keys(fs[1..]);
    } else {
      PutKeys(fs[1..], k, v);
      assert Keys(Put(fs, k, v)) == [fs[0].key] + Keys(Put(fs[1..], k, v));
      assert Keys(fs) == [fs[0].key] + Keys(fs[1..]);
    }
  }

  /** `delete o[k]`: the key is gone (RemoveOther: every other key keeps its
      value; RemoveAt: the order). */
  function Remove(fs: seq<Field>, k: string): (r: seq<Field>)
    ensures k !in Keys(r)
    ensures |r| <= |fs|
  {
    if fs == [] then []
    else if fs[0].key == k then Remove(fs[1..], k)
    else
      var r := [fs[0]] + Remove(fs[1..], k);
      assert Keys(r) == [fs[0].key] + Keys(Remove(fs[1..], k));
      r
  }

  /** Assigning one key leaves every other key reading as before. */
  lemma {:induction false} PutOther(fs: seq<Field>, k: string, v: Json, k': string)
    requires k' != k
    ensures Lookup(Put(fs, k, v), k') == Lookup(fs, k')
  {
    if fs != [] && fs[0].key != k {
      PutOther(fs[1..], k, v, k');
    }
  }

  /** Deleting one key leaves every other key reading as before. */
  lemma {:induction false} RemoveOther(fs: seq<Field>, k: string, k': string)
    requires k' != k
    ensures Lookup(Remove(fs, k), k') == Lookup(fs, k')
  {
    if fs != [] {
      RemoveOther(fs[1..], k, k');
    }
  }

  /** With distinct keys, `o[k]` finds the field that carries k. */
  lemma {:induction false} LookupAt(fs: seq<Field>, i: nat)
    requires DistinctKeys(fs) && i < |fs|
    ensures Lookup(fs, fs[i].key) == fs[i].value
  {
    if i > 0 {
      assert DistinctKeys(fs[1..]);
      LookupAt(fs[1..], i - 1);
    }
  }

  /** Assignment keeps the keys distinct. */
  lemma PutDistinct(fs: seq<Field>, k: string, v: Json)
    requires DistinctKeys(fs)
    ensures DistinctKeys(Put(fs, k, v))
  {
    var r := Put(fs, k, v);
    PutKeys(fs, k, v);
    forall i, j | 0 <= i < j < |r| ensures r[i].key != r[j].key {
      assert Keys(r)[i] == r[i].key && Keys(r)[j] == r[j].key;
      if k !in Keys(fs) && j == |fs| {
        assert Keys(r)[i] == Keys(fs)[i];
      } else {
        assert Keys(r)[i] == Keys(fs)[i] && Keys(r)[j] == Keys(fs)[j];
      }
    }
  }

  /** Deleting a present key takes exactly its field out: the keys before it keep
      their positions and the keys after it move down by one. */
  lemma {:induction false} RemoveAt(fs: seq<Field>, j: nat)
    requires DistinctKeys(fs) && j < |fs|
    ensures Remove(fs, fs[j].key) == fs[..j] + fs[j + 1..]
  {
    DistinctTail(fs);
    var k, tail := fs[j].key, fs[1..];
    if j == 0 {
      RemoveAbsent(tail, k);
      assert fs[..0] + fs[1..] == tail;
    } else {
      assert tail[j - 1] == fs[j];
      RemoveAt(tail, j - 1);
      assert fs[0].key != k;
      RemoveCons(fs, k);
      ConsSkip(fs, j);
    }
  }

  /** The first key of an object with distinct keys is not among the rest. */
  lemma DistinctTail(fs: seq<Field>)
    requires DistinctKeys(fs) && fs != []
    ensures DistinctKeys(fs[1..]) && fs[0].key !in Keys(fs[1..])
  {
    var tail := fs[1..];
    forall i | 0 <= i < |tail| ensures Keys(tail)[i] != fs[0].key {
      assert tail[i] == fs[i + 1];
    }
  }

  /** The converse: a new key in front of distinct keys keeps them distinct. */
  lemma ConsDistinct(f: Field, fs: seq<Field>)
    requires DistinctKeys(fs) && f.key !in Keys(fs)
    ensures DistinctKeys([f] + fs)
  {
    var r := [f] + fs;
    forall i, j | 0 <= i < j < |r| ensures r[i].key != r[j].key {
      assert r[j] == fs[j - 1] && Keys(fs)[j - 1] == fs[j - 1].key;
      if i > 0 { assert r[i] == fs[i - 1]; }
    }
  }

  /** Putting the head back in front of the tail with one element skipped. */
  lemma ConsSkip<T>(s: seq<T>, j: nat)
    requires 0 < j < |s|
    ensures [s[0]] + (s[1..][..j - 1] + s[1..][j..]) == s[..j] + s[j + 1..]
  {
    assert s[1..][..j - 1] == s[1..j] && s[1..][j..] == s[j + 1..];
    assert [s[0]] + s[1..j] == s[..j];
  }

  /** Deleting a key other than the first one's keeps the first field. */
  lemma RemoveCons(fs: seq<Field>, k: string)
    requires fs != [] && fs[0].key != k
    ensures Remove(fs, k) == [fs[0]] + Remove(fs[1..], k)
  {
  }

  /** Deleting a key the object does not have changes nothing. */
  lemma {:induction false} RemoveAbsent(fs: seq<Field>, k: string)
    requires k !in Keys(fs)
    ensures Remove(fs, k) == fs
  {
    if fs != [] {
      assert Keys(fs)[0] == fs[0].key;
      assert k !in Keys(fs[1..]) by {
        forall i | 0 <= i < |fs[1..]| ensures Keys(fs[1..])[i] != k {
          assert Keys(fs)[i + 1] == fs[i + 1].key && fs[1..][i] == fs[i + 1];
        }
      }
      RemoveAbsent(fs[1..], k);
      assert [fs[0]] + fs[1..] == fs;
    }
  }

  /** Dropping one field of an object leaves its keys distinct. */
  lemma SkipDistinct(fs: seq<Field>, j: nat)
    requires j < |fs| && DistinctKeys(fs)
    ensures DistinctKeys(fs[..j] + fs[j + 1..])
  {
    var r := fs[..j] + fs[j + 1..];
    forall a, b | 0 <= a < b < |r|
      ensures r[a].key != r[b].key
    {
      var a' := if a < j then a else a + 1;
      var b' := if b < j then b else b + 1;
      assert r[a] == fs[a'] && r[b] == fs[b'];
    }
  }

  /** Deletion keeps the keys distinct. */
  lemma RemoveDistinct(fs: seq<Field>, k: string)
    requires DistinctKeys(fs)
    ensures DistinctKeys(Remove(fs, k))
  {
    if k in Keys(fs) {
      var j :| 0 <= j < |Keys(fs)| && Keys(fs)[j] == k;
      RemoveAt(fs, j);
      SkipDistinct(fs, j);
    } else {
      RemoveAbsent(fs, k);
    }
  }
}
