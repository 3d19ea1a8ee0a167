/** What survives the store's round trip through its file: the file holds
    JSON.stringify(data) and reopening it yields JSON.parse of that text. */
module JsonText {
  import opened JsonValue
  import opened JsonObject

  /** JSON.parse(JSON.stringify(t)) for a tree t: an object member whose value is
      undefined is dropped, an undefined array slot becomes null. */
  function Persisted(t: Json): (r: Json)
    ensures t != Undefined ==> NoUndefined(r)
    ensures r.Obj? <==> t.Obj?
  {
    match t
    case Arr(items) => Arr(PersistedItems(items))
    case Obj(fs) => Obj(PersistedFields(fs))
    case _ => t
  }

  function PersistedItems(items: seq<Json>): (r: seq<Json>)
    ensures |r| == |items|
    ensures forall i :: 0 <= i < |r| ==> NoUndefined(r[i])
  {
    if items == [] then []
    else [if items[0] == Undefined then Null else Persisted(items[0])] + PersistedItems(items[1..])
  }

  function PersistedFields(fs: seq<Field>): (r: seq<Field>)
    ensures forall i :: 0 <= i < |r| ==> NoUndefined(r[i].value)
  {
    if fs == [] then []
    else if fs[0].value == Undefined then PersistedFields(fs[1..])
    else [Field(fs[0].key, Persisted(fs[0].value))] + PersistedFields(fs[1..])
  }

  /** A tree without undefined survives the file unchanged: parsing what was
      stringified gives the same tree back. */
  lemma {:induction false} PersistedIdentity(t: Json)
    requires NoUndefined(t)
    ensures Persisted(t) == t
  {
    match t
    case Arr(items) => PersistedItemsIdentity(items);
    case Obj(fs) => PersistedFieldsIdentity(fs);
    case _ =>
  }

  lemma {:induction false} PersistedItemsIdentity(items: seq<Json>)
    requires forall i :: 0 <= i < |items| ==> NoUndefined(items[i])
    ensures PersistedItems(items) == items
  {
    if items != [] {
      PersistedIdentity(items[0]);
      PersistedItemsIdentity(items[1..]);
      assert [items[0]] + items[1..] == items;
    }
  }

  lemma {:induction false} PersistedFieldsIdentity(fs: seq<Field>)
    requires forall i :: 0 <= i < |fs| ==> NoUndefined(fs[i].value)
    ensures PersistedFields(fs) == fs
  {
    if fs != [] {
      PersistedIdentity(fs[0].value);
      PersistedFieldsIdentity(fs[1..]);
      assert [fs[0]] + fs[1..] == fs;
    }
  }

  /** Writing the file again after reopening it changes nothing. */
  lemma PersistedIdempotent(t: Json)
    ensures Persisted(Persisted(t)) == Persisted(t)
  {
    if t != Undefined {
      PersistedIdentity(Persisted(t));
    }
  }

  /** A stored object keeps exactly the members whose value was not undefined,
      and each of them reads back as its own stored form. */
  lemma {:induction false} PersistedLookup(fs: seq<Field>, k: string)
    requires DistinctKeys(fs)
    ensures Lookup(PersistedFields(fs), k) ==
            if Lookup(fs, k) == Undefined then Undefined else Persisted(Lookup(fs, k))
    ensures k in Keys(PersistedFields(fs)) <==> Lookup(fs, k) != Undefined
  {
    if fs != [] {
      DistinctTail(fs);
      PersistedLookup(fs[1..], k);
      PersistedKeysWithin(fs[1..]);
      if fs[0].value != Undefined {
        var r := PersistedFields(fs);
        assert Keys(r) == [fs[0].key] + Keys(PersistedFields(fs[1..]));
      }
    }
  }

  /** Storing drops members and never invents a key. */
  lemma {:induction false} PersistedKeysWithin(fs: seq<Field>)
    ensures forall k :: k in Keys(PersistedFields(fs)) ==> k in Keys(fs)
  {
    if fs != [] {
      PersistedKeysWithin(fs[1..]);
      assert Keys(fs) == [fs[0].key] + Keys(fs[1..]);
      if fs[0].value != Undefined {
        assert Keys(PersistedFields(fs)) == [fs[0].key] + Keys(PersistedFields(fs[1..]));
      }
    }
  }

  /** The stored tree of a well-formed tree is well-formed: no key is duplicated. */
  lemma {:induction false} PersistedWellFormed(t: Json)
    requires WellFormed(t)
    ensures WellFormed(Persisted(t))
  {
    match t
    case Arr(items) => PersistedItemsWellFormed(items);
    case Obj(fs) => PersistedFieldsWellFormed(fs);
    case _ =>
  }

  lemma {:induction false} PersistedItemsWellFormed(items: seq<Json>)
    requires forall i :: 0 <= i < |items| ==> WellFormed(items[i])
    ensures forall i :: 0 <= i < |items| ==> WellFormed(PersistedItems(items)[i])
  {
    if items != [] {
      if items[0] != Undefined {
        PersistedWellFormed(items[0]);
      }
      PersistedItemsWellFormed(items[1..]);
      var r := PersistedItems(items);
      assert r[1..] == PersistedItems(items[1..]);
      forall i | 1 <= i < |items| ensures WellFormed(r[i]) {
        assert r[i] == r[1..][i - 1] && items[1..][i - 1] == items[i];
      }
    }
  }

  lemma {:induction false} PersistedFieldsWellFormed(fs: seq<Field>)
    requires DistinctKeys(fs) && forall i :: 0 <= i < |fs| ==> WellFormed(fs[i].value)
    ensures DistinctKeys(PersistedFields(fs))
    ensures forall i :: 0 <= i < |PersistedFields(fs)| ==> WellFormed(PersistedFields(fs)[i].value)
  {
    if fs != [] {
      DistinctTail(fs);
      assert forall i :: 0 <= i < |fs[1..]| ==> WellFormed(fs[1..][i].value) by {
        forall i | 0 <= i < |fs[1..]| ensures WellFormed(fs[1..][i].value) {
          assert fs[1..][i] == fs[i + 1];
        }
      }
      PersistedFieldsWellFormed(fs[1..]);
      PersistedKeysWithin(fs[1..]);
      var rest := PersistedFields(fs[1..]);
      if fs[0].value != Undefined {
        PersistedWellFormed(fs[0].value);
        var r := PersistedFields(fs);
        assert r == [Field(fs[0].key, Persisted(fs[0].value))] + rest;
        ConsDistinct(Field(fs[0].key, Persisted(fs[0].value)), rest);
        forall i | 0 <= i < |r| ensures WellFormed(r[i].value) {
          if i > 0 { assert r[i] == rest[i - 1]; }
        }
      }
    }
  }
}
