/** The cache itself. Every Storage instance shares one module-level `context`
    (the bound path and the tree) and one `events.STORAGE` subscriber list, so
    a single Storage object stands for all of them; the filesystem it reads and
    writes is a field of it too. */
module Locster {
  import opened Wrappers
  import opened JsonValue
  import opened JsonObject
  import opened JsonText
  import opened DottedPath
  import opened DeepPath
  import opened CacheSpec

  /** A subscribed callback, by identity: the same function may be added twice. */
  type Subscriber = nat

  /** One callback invocation: which subscriber, the tree it was given, and what
      the bound file held when it ran. */
  datatype Notification = Notification(subscriber: Subscriber, data: Json, file: seq<Field>)

  /** The TypeError a call raises once destroy has set the context to undefined. */
  datatype StoreError = Destroyed

  /** One emitChange: every subscriber exactly once, in registration order. */
  function Broadcast(subs: seq<Subscriber>, data: Json, file: seq<Field>): (r: seq<Notification>)
    ensures |r| == |subs|
    ensures forall i :: 0 <= i < |subs| ==> r[i] == Notification(subs[i], data, file)
  {
    if subs == [] then [] else [Notification(subs[0], data, file)] + Broadcast(subs[1..], data, file)
  }

  /** Every file holds the JSON text of an object: parsed, it never repeats a key
      and holds no undefined. */
  predicate DiskValid(disk: map<string, seq<Field>>)
  {
    forall path :: path in disk ==> WellFormed(Obj(disk[path])) && NoUndefined(Obj(disk[path]))
  }

  class Storage {
    /** False once destroy has set the context to undefined. */
    var live: bool
    /** context.dir: the resolved path of the cache file. */
    var dir: string
    /** context.data: the fields of the root object, in insertion order. */
    var data: seq<Field>
    /** events.STORAGE. */
    var subscribers: seq<Subscriber>
    /** The files, by path: what JSON.parse gives back for each. */
    var disk: map<string, seq<Field>>
    /** Every callback invocation so far, oldest first. */
    ghost var log: seq<Notification>

    ghost predicate Valid()
      reads this
    {
      DiskValid(disk) && (live ==> dir in disk && WellFormed(Obj(data)))
    }

    /** The log since `before` is one emitChange on the current state: every
        subscriber, in order, given the tree and seeing the bound file. */
    ghost predicate Notified(before: seq<Notification>)
      reads this
    {
      dir in disk && log == before + Broadcast(subscribers, Obj(data), disk[dir])
    }

    /** The first `new Storage(dir, { force })`: nobody is subscribed yet. */
    constructor (dir: string, force: bool, cwd: string, files: map<string, seq<Field>>)
      requires DiskValid(files)
      ensures Valid() && live
      ensures this.dir == Resolve(dir, cwd)
      ensures subscribers == [] && log == []
      ensures if this.dir !in files || force
              then data == [] && disk == files[this.dir := []]
              else data == files[this.dir] && disk == files
    {
      live, this.dir, data := false, "", [];
      subscribers, disk, log := [], files, [];
      new;
      Open(dir, force, cwd);
    }

    /** Any later `new Storage(dir, { force })`: it rebinds the shared context,
        creating (or, with force, emptying) the file, or loading it when it
        exists; the subscribers stay, and nobody is notified. */
    method Open(dir: string, force: bool, cwd: string)
      requires Valid()
      modifies this
      ensures subscribers == old(subscribers) && log == old(log)
      ensures Valid() && live
      ensures this.dir == Resolve(dir, cwd)
      ensures if this.dir !in old(disk) || force
              then data == [] && disk == old(disk)[this.dir := []]
              else data == old(disk)[this.dir] && disk == old(disk)
    {
      var resolved := Resolve(dir, cwd);
      var cacheExists := resolved in disk;
      if !cacheExists || force {
        live, this.dir, data := true, resolved, [];
        WriteFile();
      } else {
        live, this.dir, data := true, resolved, disk[resolved];
      }
    }

    /** fs.writeFileSync(context.dir, JSON.stringify(context.data)): the file
        then holds what JSON.parse would give back for the tree. */
    method WriteFile()
      requires DiskValid(disk) && WellFormed(Obj(data))
      modifies this
      ensures live == old(live) && dir == old(dir) && data == old(data) && subscribers == old(subscribers) && log == old(log)
      ensures disk == old(disk)[dir := PersistedFields(data)]
      ensures DiskValid(disk)
    {
      PersistedWellFormed(Obj(data));
      disk := disk[dir := PersistedFields(data)];
    }

    /** emitChange: each subscriber is called once, in order, with the tree. */
    method EmitChange()
      requires dir in disk
      modifies this
      ensures live == old(live) && dir == old(dir) && data == old(data) && disk == old(disk) && subscribers == old(subscribers)
      ensures Notified(old(log))
    {
      var i := 0;
      while i < |subscribers|
        invariant 0 <= i <= |subscribers|
        invariant live == old(live) && dir == old(dir) && data == old(data) && disk == old(disk) && subscribers == old(subscribers)
        invariant log == old(log) + Broadcast(subscribers[..i], Obj(data), disk[dir])
      {
        assert Broadcast(subscribers[..i + 1], Obj(data), disk[dir])
            == Broadcast(subscribers[..i], Obj(data), disk[dir]) + [Notification(subscribers[i], Obj(data), disk[dir])];
        log := log + [Notification(subscribers[i], Obj(data), disk[dir])];
        i := i + 1;
      }
      assert subscribers[..i] == subscribers;
    }

    /** deepSetItem(key, value): dset the value in, write the file, notify. */
    method DeepSetItem(key: string, value: Json)
      requires Valid() && live && WellFormed(value)
      modifies this
      ensures live == old(live) && dir == old(dir) && subscribers == old(subscribers)
      ensures Valid()
      ensures data == DeepSet(Obj(old(data)), Split(key), value).fields
      ensures disk == old(disk)[dir := PersistedFields(data)]
      ensures Notified(old(log))
    {
      DeepSetWellFormed(Obj(data), Split(key), value);
      data := DeepSet(Obj(data), Split(key), value).fields;
      WriteFile();
      EmitChange();
    }

    /** on(type, callback): subscribe when the name is "storage" in any case;
        any other name is ignored. Works on a destroyed store too. */
    method On(name: string, callback: Subscriber)
      requires Valid()
      modifies this
      ensures live == old(live) && dir == old(dir) && data == old(data) && disk == old(disk) && log == old(log)
      ensures Valid()
      ensures subscribers == if IsStorageEvent(name) then old(subscribers) + [callback] else old(subscribers)
    {
      if IsStorageEvent(name) {
        subscribers := subscribers + [callback];
      }
    }

    /** clear(): the root becomes {} under the same path, is written, and the
        subscribers see it. */
    method Clear() returns (r: Result<(), StoreError>)
      requires Valid()
      modifies this
      ensures live == old(live) && dir == old(dir) && subscribers == old(subscribers)
      ensures Valid()
      ensures r.Failure? <==> !live
      ensures !live ==> data == old(data) && disk == old(disk) && log == old(log)
      ensures live ==> data == [] && disk == old(disk)[dir := []]
      ensures live ==> log == old(log) + Broadcast(subscribers, Obj([]), [])
    {
      if !live {
        return Failure(Destroyed);
      }
      data := [];
      WriteFile();
      EmitChange();
      r := Success(());
    }

    /** key(i): the i-th top-level key, or undefined (None) out of range. */
    function Key(i: int): (r: Result<Option<string>, StoreError>)
      reads this
      ensures r.Failure? <==> !live
      ensures live ==> (r.value.Some? <==> 0 <= i < |data|)
      ensures live && 0 <= i < |data| ==> r.value == Some(Keys(data)[i])
    {
      if !live then Failure(Destroyed) else Success(KeyAt(data, i))
    }

    /** removeItem(key): a dotted key has its leaf set to undefined by
        deepSetItem, which writes and notifies once; a plain key is deleted from
        the root and the subscribers are notified, but the file is not written. */
    method RemoveItem(key: string) returns (r: Result<(), StoreError>)
      requires Valid()
      modifies this
      ensures live == old(live) && dir == old(dir) && subscribers == old(subscribers)
      ensures Valid()
      ensures r.Failure? <==> !live
      ensures !live ==> data == old(data) && disk == old(disk) && log == old(log)
      ensures live ==> data == RemoveTree(old(data), key)
      ensures live && IsDotted(key) ==> disk == old(disk)[dir := PersistedFields(data)]
      ensures live && !IsDotted(key) ==> disk == old(disk)
      ensures live ==> Notified(old(log))
    {
      if !live {
        return Failure(Destroyed);
      }
      if IsDotted(key) {
        DeepSetItem(key, Undefined);
      } else {
        DeleteTopLevel(key);
      }
      r := Success(());
    }

    /** The plain branch of removeItem: `delete context.data[key]` and notify,
        without writing the file. */
    method DeleteTopLevel(key: string)
      requires Valid() && live
      modifies this
      ensures live == old(live) && dir == old(dir) && disk == old(disk) && subscribers == old(subscribers)
      ensures Valid()
      ensures data == Remove(old(data), key)
      ensures Notified(old(log))
    {
      RemoveWellFormed(data, key);
      data := Remove(data, key);
      EmitChange();
    }

    /** setItem(key, value): a dotted key goes through deepSetItem; a plain key
        is assigned at the top level; either way the file is written and then
        every subscriber is notified once. */
    method SetItem(key: string, value: Json) returns (r: Result<(), StoreError>)
      requires Valid() && WellFormed(value)
      modifies this
      ensures live == old(live) && dir == old(dir) && subscribers == old(subscribers)
      ensures Valid()
      ensures r.Failure? <==> !live
      ensures !live ==> data == old(data) && disk == old(disk) && log == old(log)
      ensures live ==> data == SetTree(old(data), key, value)
      ensures live ==> disk == old(disk)[dir := PersistedFields(data)]
      ensures live ==> Notified(old(log))
    {
      if !live {
        return Failure(Destroyed);
      }
      if IsDotted(key) {
        DeepSetItem(key, value);
      } else {
        SetTopLevel(key, value);
      }
      r := Success(());
    }

    /** The plain branch of setItem: `context.data[key] = value`, write the
        file, notify. */
    method SetTopLevel(key: string, value: Json)
      requires Valid() && live && WellFormed(value)
      modifies this
      ensures live == old(live) && dir == old(dir) && subscribers == old(subscribers)
      ensures Valid()
      ensures data == Put(old(data), key, value)
      ensures disk == old(disk)[dir := PersistedFields(data)]
      ensures Notified(old(log))
    {
      PutWellFormed(data, key, value);
      data := Put(data, key, value);
      WriteFile();
      EmitChange();
    }

    /** getItem(key): reads only. "*" is the whole tree; every other key reads
        the path of its segments (a plain key is a path of one). */
    function GetItem(key: string): (r: Result<Json, StoreError>)
      reads this
      ensures r.Failure? <==> !live
      ensures live && key == "*" ==> r.value == Obj(data)
      ensures live && key != "*" ==> r.value == DeepGet(Obj(data), Split(key))
    {
      if !live then Failure(Destroyed)
      else Success(Item(data, key))
    }

    /** getDir(): the resolved path. */
    function GetDir(): (r: Result<string, StoreError>)
      reads this
      ensures r.Failure? <==> !live
      ensures live ==> r.value == dir
    {
      if !live then Failure(Destroyed) else Success(dir)
    }

    /** destroy(): the file is unlinked, the subscriber list emptied and the
        context dropped; every later call but `on` and a new construction fails. */
    method Destroy() returns (r: Result<(), StoreError>)
      requires Valid()
      modifies this
      ensures dir == old(dir) && data == old(data) && log == old(log)
      ensures Valid() && !live
      ensures r.Failure? <==> !old(live)
      ensures old(live) ==> disk == old(disk) - {dir} && subscribers == []
      ensures !old(live) ==> disk == old(disk) && subscribers == old(subscribers)
    {
      if !live {
        return Failure(Destroyed);
      }
      disk := disk - {dir};
      subscribers := [];
      live := false;
      r := Success(());
    }
  }

  /** The calls of the repository's test script, on a store forced empty with
      one subscriber: after setItem("foo", "bar") and removeItem("foo") the tree
      is {}; after setItem("a.b.c", "e") it is {a: {b: {c: "e"}}}; after clear()
      it is {} again, and the subscriber has been called once per mutation. */
  method TestScenario(cwd: string, files: map<string, seq<Field>>)
    returns (afterRemove: Result<Json, StoreError>, afterSet: Result<Json, StoreError>,
             afterClear: Result<Json, StoreError>)
    requires DiskValid(files)
    ensures afterRemove == Success(Obj([]))
    ensures afterSet == Success(Obj([Field("a", Obj([Field("b", Obj([Field("c", Str("e"))]))]))]))
    ensures afterClear == Success(Obj([]))
  {
    var storage := new Storage("./.cache", true, cwd, files);
    assert storage.data == [];
    storage.On("storage", 0);
    assert IsStorageEvent("storage") by { StorageEventNames(); }
    var ok := storage.SetItem("foo", Str("bar"));
    assert storage.data == [Field("foo", Str("bar"))] by {
      assert !IsDotted("foo");
    }
    ok := storage.RemoveItem("foo");
    assert storage.data == [] by {
      assert !IsDotted("foo");
    }
    afterRemove := storage.GetItem("*");
    ok := storage.SetItem("a.b.c", Str("e"));
    assert storage.data == [Field("a", Obj([Field("b", Obj([Field("c", Str("e"))]))]))] by {
      ScenarioNestedSet();
    }
    afterSet := storage.GetItem("*");
    ok := storage.Clear();
    afterClear := storage.GetItem("*");
    assert |storage.log| == 4;
  }

  /** Persistence across reopen: a value set under a plain key is read back by
      a store reopened on the same file. */
  method TestReopen(cwd: string, files: map<string, seq<Field>>)
    returns (kept: Result<Json, StoreError>)
    requires DiskValid(files)
    ensures kept == Success(Str("bar"))
  {
    var storage := new Storage("/srv/.cache", false, cwd, files);
    ghost var before := storage.data;
    var ok := storage.SetItem("foo", Str("bar"));
    assert !IsDotted("foo");
    ReopenAfterSet(before, "foo", Str("bar"));
    storage.Open("/srv/.cache", false, cwd);
    kept := storage.GetItem("foo");
  }

  /** A plain removeItem never reaches the file: with a cache file holding
      {foo: "bar"}, the store reads foo as undefined after removing it, and a
      store reopened on the file reads "bar" again. */
  method TestRemoveThenReopen(cwd: string)
    returns (removed: Result<Json, StoreError>, reloaded: Result<Json, StoreError>)
    ensures removed == Success(Undefined)
    ensures reloaded == Success(Str("bar"))
  {
    var files := map["/srv/.cache" := [Field("foo", Str("bar"))]];
    assert DiskValid(files) by {
      assert WellFormed(Obj([Field("foo", Str("bar"))]));
    }
    var storage := new Storage("/srv/.cache", false, cwd, files);
    var ok := storage.RemoveItem("foo");
    assert !IsDotted("foo");
    removed := storage.GetItem("foo");
    storage.Open("/srv/.cache", false, cwd);
    reloaded := storage.GetItem("foo");
  }

  /** Force empties an existing cache, and destroy makes later reads fail. */
  method TestForceAndDestroy(cwd: string, files: map<string, seq<Field>>)
    returns (forced: Result<Json, StoreError>, destroyed: Result<Json, StoreError>)
    requires DiskValid(files)
    ensures forced == Success(Obj([]))
    ensures destroyed == Failure(Destroyed)
  {
    var storage := new Storage("/srv/.cache", false, cwd, files);
    var ok := storage.SetItem("foo", Str("bar"));
    storage.Open("/srv/.cache", true, cwd);
    forced := storage.GetItem("*");
    ok := storage.Destroy();
    destroyed := storage.GetItem("foo");
  }

  /** setItem("a.b.c", "e") on an empty root builds the two missing objects. */
  lemma ScenarioNestedSet()
    ensures SetTree([], "a.b.c", Str("e")) == [Field("a", Obj([Field("b", Obj([Field("c", Str("e"))]))]))]
  {
    assert IsDotted("a.b.c") by { assert "a.b.c"[1] == '.'; }
    var p := ["a", "b", "c"];
    assert Join(p) == "a.b.c" by {
      assert p[1..] == ["b", "c"] && p[1..][1..] == ["c"];
    }
    SplitJoin(p);
    assert p[1..] == ["b", "c"] && p[1..][1..] == ["c"];
    assert DeepSet(Undefined, ["c"], Str("e")) == Obj([Field("c", Str("e"))]);
    assert DeepSet(Undefined, ["b", "c"], Str("e")) == Obj([Field("b", Obj([Field("c", Str("e"))]))]);
  }
}
