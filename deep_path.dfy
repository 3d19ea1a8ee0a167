/** Reading and writing a nested value by a list of keys: `dlv` (deep get) and
    `dset` (deep set), the two helpers the store hands its dotted keys to. */
module DeepPath {
  import opened JsonValue
  import opened JsonObject

  /** dlv: follow the keys from t; undefined as soon as a step does not reach an
      object or the key is missing. */
  function DeepGet(t: Json, path: seq<string>): (r: Json)
    ensures path != [] && r != Undefined ==> t.Obj? && Lookup(t.fields, path[0]) != Undefined
    decreases path
  {
    if path == [] then t
    else match t
      case Obj(fs) => DeepGet(Lookup(fs, path[0]), path[1..])
      case _ => Undefined
  }

  /** dset: set the value at the end of the path. Every step that does not reach
      an object gets a fresh empty object in its place; the other keys on the way
      keep their values. The result reads back v at the path. */
  function DeepSet(t: Json, path: seq<string>, v: Json): (r: Json)
    requires path != []
    ensures r.Obj?
    ensures DeepGet(r, path) == v
    decreases path
  {
    var fs := if t.Obj? then t.fields else [];
    var k := path[0];
    if |path| == 1 then Obj(Put(fs, k, v))
    else Obj(Put(fs, k, DeepSet(Lookup(fs, k), path[1..], v)))
  }

  /** Nothing is reachable below undefined. */
  lemma DeepGetUndefined(path: seq<string>)
    ensures DeepGet(Undefined, path) == Undefined
  {
  }

  /** dlv along a path that is two paths one after the other is dlv of the
      second from where the first ends. */
  lemma {:induction false} DeepGetAppend(t: Json, p: seq<string>, q: seq<string>)
    ensures DeepGet(t, p + q) == DeepGet(DeepGet(t, p), q)
    decreases p
  {
    if p == [] {
      assert p + q == q;
    } else {
      assert (p + q)[0] == p[0] && (p + q)[1..] == p[1..] + q;
      if t.Obj? {
        DeepGetAppend(Lookup(t.fields, p[0]), p[1..], q);
      } else {
        DeepGetUndefined(q);
      }
    }
  }

  /** Once a prefix of the path reads undefined, the whole path does: a missing
      intermediate key gives undefined, not an error. */
  lemma {:induction false} DeepGetMissing(t: Json, path: seq<string>, n: nat)
    requires n <= |path| && DeepGet(t, path[..n]) == Undefined
    ensures DeepGet(t, path) == Undefined
    decreases n
  {
    if n == 0 {
      assert path[..0] == [];
      DeepGetUndefined(path);
    } else if t.Obj? {
      assert path[..n][1..] == path[1..][..n - 1];
      DeepGetMissing(Lookup(t.fields, path[0]), path[1..], n - 1);
    }
  }

  /** Setting a path leaves every path that branches off it elsewhere reading
      as before: the two paths agree on their first i keys and differ at key i. */
  lemma {:induction false} DeepSetOther(t: Json, p: seq<string>, v: Json, q: seq<string>, i: nat)
    requires i < |p| && i < |q| && p[..i] == q[..i] && p[i] != q[i]
    ensures DeepGet(DeepSet(t, p, v), q) == DeepGet(t, q)
    decreases i
  {
    var fs := if t.Obj? then t.fields else [];
    var r := DeepSet(t, p, v);
    var k := p[0];
    var child := if |p| == 1 then v else DeepSet(Lookup(fs, k), p[1..], v);
    assert r == Obj(Put(fs, k, child));
    if i == 0 {
      PutOther(fs, k, child, q[0]);
      if !t.Obj? {
        DeepGetUndefined(q[1..]);
      }
    } else {
      assert p[0] == q[0] by { assert p[..i][0] == q[..i][0]; }
      assert p[1..][..i - 1] == q[1..][..i - 1] by {
        assert p[1..][..i - 1] == p[..i][1..] && q[1..][..i - 1] == q[..i][1..];
      }
      DeepSetOther(Lookup(fs, k), p[1..], v, q[1..], i - 1);
      if !t.Obj? {
        DeepGetUndefined(q[1..]);
      }
    }
  }

  /** Reading a non-empty prefix of a path is reading the rest of it from the
      first step. */
  lemma DeepGetStep(t: Json, p: seq<string>, n: nat)
    requires 0 < n <= |p|
    ensures DeepGet(t, p[..n]) == DeepGet(if t.Obj? then Lookup(t.fields, p[0]) else Undefined, p[1..][..n - 1])
  {
    assert p[..n][0] == p[0] && p[..n][1..] == p[1..][..n - 1];
    if !t.Obj? {
      DeepGetUndefined(p[1..][..n - 1]);
    }
  }

  /** Setting a path, seen from one of its prefixes, is setting the rest of the
      path inside the subtree found there: in particular every proper prefix now
      reads an object (the intermediate objects exist). */
  lemma {:induction false} DeepSetPrefix(t: Json, p: seq<string>, v: Json, n: nat)
    requires n < |p|
    ensures DeepGet(DeepSet(t, p, v), p[..n]) == DeepSet(DeepGet(t, p[..n]), p[n..], v)
    decreases n
  {
    if n > 0 {
      var fs := if t.Obj? then t.fields else [];
      var k := p[0];
      var child := DeepSet(Lookup(fs, k), p[1..], v);
      assert DeepSet(t, p, v) == Obj(Put(fs, k, child));
      DeepGetStep(DeepSet(t, p, v), p, n);
      DeepGetStep(t, p, n);
      assert p[1..][n - 1..] == p[n..];
      DeepSetPrefix(Lookup(fs, k), p[1..], v, n - 1);
    } else {
      assert p[..0] == [] && p[0..] == p;
    }
  }

  /** Reading a value out of a well-formed object gives a well-formed value. */
  lemma {:induction false} LookupWellFormed(fs: seq<Field>, k: string)
    requires WellFormed(Obj(fs))
    ensures WellFormed(Lookup(fs, k))
  {
    if fs != [] && fs[0].key != k {
      DistinctTail(fs);
      assert forall i :: 0 <= i < |fs[1..]| ==> fs[1..][i] == fs[i + 1];
      LookupWellFormed(fs[1..], k);
    }
  }

  /** Assigning a well-formed value keeps an object well-formed. */
  lemma {:induction false} PutWellFormed(fs: seq<Field>, k: string, v: Json)
    requires WellFormed(Obj(fs)) && WellFormed(v)
    ensures WellFormed(Obj(Put(fs, k, v)))
  {
    PutDistinct(fs, k, v);
    var r := Put(fs, k, v);
    if fs != [] && fs[0].key != k {
      DistinctTail(fs);
      assert forall i :: 0 <= i < |fs[1..]| ==> fs[1..][i] == fs[i + 1];
      PutWellFormed(fs[1..], k, v);
      assert forall i :: 1 <= i < |r| ==> r[i] == Put(fs[1..], k, v)[i - 1];
    }
  }

  /** dset keeps a well-formed tree well-formed. */
  lemma {:induction false} DeepSetWellFormed(t: Json, p: seq<string>, v: Json)
    requires p != [] && WellFormed(t) && WellFormed(v)
    ensures WellFormed(DeepSet(t, p, v))
    decreases p
  {
    var fs := if t.Obj? then t.fields else [];
    var k := p[0];
    if |p| == 1 {
      PutWellFormed(fs, k, v);
    } else {
      LookupWellFormed(fs, k);
      DeepSetWellFormed(Lookup(fs, k), p[1..], v);
      PutWellFormed(fs, k, DeepSet(Lookup(fs, k), p[1..], v));
    }
  }

  /** Deleting a key keeps an object well-formed. */
  lemma {:induction false} RemoveWellFormed(fs: seq<Field>, k: string)
    requires WellFormed(Obj(fs))
    ensures WellFormed(Obj(Remove(fs, k)))
  {
    RemoveDistinct(fs, k);
    if fs != [] {
      DistinctTail(fs);
      assert forall i :: 0 <= i < |fs[1..]| ==> fs[1..][i] == fs[i + 1];
      RemoveWellFormed(fs[1..], k);
      var r := Remove(fs, k);
      if fs[0].key != k {
        assert forall i :: 1 <= i < |r| ==> r[i] == Remove(fs[1..], k)[i - 1];
      }
    }
  }
}
