/** What the store's operations do to its tree, as functions on the root
    object's fields; the Storage class in module Locster is proved against them. */
module CacheSpec {
  import opened Wrappers
  import opened JsonValue
  import opened JsonObject
  import opened JsonText
  import opened DottedPath
  import opened DeepPath

  /** A key with a dot addresses a nested value. */
  predicate IsDotted(key: string) {
    '.' in key
  }

  /** getItem(key) on a root object: "*" is the whole tree (tested before the
      dot), a dotted key reads the nested path, any other key the top level. */
  function Item(root: seq<Field>, key: string): (r: Json)
    ensures key != "*" ==> r == DeepGet(Obj(root), Split(key))
  {
    SplitSingle(key);
    if key == "*" then Obj(root)
    else if IsDotted(key) then DeepGet(Obj(root), Split(key))
    else Lookup(root, key)
  }

  /** key(i): the i-th top-level key in enumeration order, undefined out of range. */
  function KeyAt(root: seq<Field>, i: int): (r: Option<string>)
    ensures r.Some? <==> 0 <= i < |root|
    ensures r.Some? ==> r.value == Keys(root)[i]
  {
    if 0 <= i < |root| then Some(root[i].key) else None
  }

  /** The root after setItem(key, v): getItem(key) then gives v, dotted or not
      ("*" excepted: it always reads the whole tree). */
  function SetTree(root: seq<Field>, key: string, v: Json): (r: seq<Field>)
    ensures key != "*" ==> Item(r, key) == v
  {
    if IsDotted(key) then DeepSet(Obj(root), Split(key), v).fields
    else Put(root, key, v)
  }

  /** The root after removeItem(key): a dotted key goes through dset with an
      undefined value, a plain key is deleted from the root. */
  function RemoveTree(root: seq<Field>, key: string): (r: seq<Field>)
    ensures key != "*" ==> Item(r, key) == Undefined
    ensures !IsDotted(key) ==> key !in Keys(r)
  {
    if IsDotted(key) then DeepSet(Obj(root), Split(key), Undefined).fields
    else Remove(root, key)
  }

  /** setItem(k, v) with a plain k leaves every other plain key reading as before,
      keeps the keys' order, and enumerates a new k last. */
  lemma SetKeepsOthers(root: seq<Field>, key: string, v: Json, other: string)
    requires !IsDotted(key) && !IsDotted(other) && other != key && other != "*"
    ensures Item(SetTree(root, key, v), other) == Item(root, other)
    ensures Keys(SetTree(root, key, v)) == if key in Keys(root) then Keys(root) else Keys(root) + [key]
  {
    PutOther(root, key, v, other);
    PutKeys(root, key, v);
  }

  /** A dotted setItem touches only the first segment's top-level key. */
  lemma DottedSetKeepsOthers(root: seq<Field>, key: string, v: Json, other: string)
    requires IsDotted(key) && other != Split(key)[0]
    ensures Lookup(SetTree(root, key, v), other) == Lookup(root, other)
  {
    var p := Split(key);
    var child := if |p| == 1 then v else DeepSet(Lookup(root, p[0]), p[1..], v);
    PutOther(root, p[0], child, other);
  }

  /** setItem("a.b.c", v) makes getItem("a.b") an object whose "c" is v: the
      missing intermediate objects are created. */
  lemma DottedSetParent(root: seq<Field>, parent: string, leaf: string, v: Json)
    requires parent != "*" && !IsDotted(leaf)
    ensures Item(SetTree(root, parent + "." + leaf, v), parent).Obj?
    ensures leaf in Keys(Item(SetTree(root, parent + "." + leaf, v), parent).fields)
    ensures Lookup(Item(SetTree(root, parent + "." + leaf, v), parent).fields, leaf) == v
  {
    var key := parent + "." + leaf;
    assert IsDotted(key) by { assert key[|parent|] == '.'; }
    SplitAppend(parent, leaf);
    var p := Split(key);
    var n := |Split(parent)|;
    assert p[..n] == Split(parent) && p[n..] == [leaf];
    DeepSetPrefix(Obj(root), p, v, n);
    var sub := DeepGet(Obj(root), Split(parent));
    PutKeys(if sub.Obj? then sub.fields else [], leaf, v);
  }

  /** A dotted getItem whose first segment is missing gives undefined, not an error. */
  lemma MissingPathReadsUndefined(root: seq<Field>, key: string)
    requires IsDotted(key) && Lookup(root, Split(key)[0]) == Undefined
    ensures Item(root, key) == Undefined
  {
    var p := Split(key);
    DeepGetMissing(Lookup(root, p[0]), p[1..], 0);
  }

  /** removeItem(k) with a plain k: k reads undefined and is no longer
      enumerated, the other keys read as before. */
  lemma RemoveDeletes(root: seq<Field>, key: string, other: string)
    requires !IsDotted(key) && key != "*" && other != key
    ensures Item(RemoveTree(root, key), key) == Undefined
    ensures key !in Keys(RemoveTree(root, key))
    ensures Lookup(RemoveTree(root, key), other) == Lookup(root, other)
  {
    RemoveOther(root, key, other);
  }

  /** removeItem of the j-th key: key(i) below j is unchanged, above j it moves
      down by one, and there is one key less. */
  lemma RemoveShiftsKeys(root: seq<Field>, j: nat, i: int)
    requires DistinctKeys(root) && j < |root| && !IsDotted(root[j].key)
    ensures |RemoveTree(root, root[j].key)| == |root| - 1
    ensures KeyAt(RemoveTree(root, root[j].key), i) == KeyAt(root, if i < j then i else i + 1)
  {
    RemoveAt(root, j);
    if 0 <= i < |root| - 1 {
      SkipAt(root, j, i);
    }
  }

  /** The i-th element of a sequence with its j-th element taken out. */
  lemma SkipAt<T>(s: seq<T>, j: nat, i: nat)
    requires j < |s| && i < |s| - 1
    ensures (s[..j] + s[j + 1..])[i] == s[if i < j then i else i + 1]
  {
  }

  /** A dotted removeItem does not delete the leaf: it is still a key of its
      parent object and reads undefined. */
  lemma DottedRemoveKeepsLeaf(root: seq<Field>, parent: string, leaf: string)
    requires parent != "*" && !IsDotted(leaf)
    ensures Item(RemoveTree(root, parent + "." + leaf), parent).Obj?
    ensures leaf in Keys(Item(RemoveTree(root, parent + "." + leaf), parent).fields)
    ensures Lookup(Item(RemoveTree(root, parent + "." + leaf), parent).fields, leaf) == Undefined
  {
    var key := parent + "." + leaf;
    assert IsDotted(key) by { assert key[|parent|] == '.'; }
    assert RemoveTree(root, key) == SetTree(root, key, Undefined);
    DottedSetParent(root, parent, leaf, Undefined);
  }

  /** The tree read back from a file: what the store writes is the stored form
      of its data, so reading the file after a dotted removeItem no longer has
      the leaf key at all. */
  lemma DottedRemoveDropsLeafInFile(root: seq<Field>, parent: string, leaf: string)
    requires WellFormed(Obj(root)) && parent != "*" && !IsDotted(leaf)
    ensures Item(PersistedFields(RemoveTree(root, parent + "." + leaf)), parent).Obj?
    ensures leaf !in Keys(Item(PersistedFields(RemoveTree(root, parent + "." + leaf)), parent).fields)
  {
    var key := parent + "." + leaf;
    var after := RemoveTree(root, key);
    DottedRemoveKeepsLeaf(root, parent, leaf);
    assert IsDotted(key) by { assert key[|parent|] == '.'; }
    DeepSetWellFormed(Obj(root), Split(key), Undefined);
    var q := Split(parent);
    assert Item(after, parent) == DeepGet(Obj(after), q);
    assert Item(PersistedFields(after), parent) == DeepGet(Obj(PersistedFields(after)), q);
    PersistedDeepGet(Obj(after), q);
    var sub := DeepGet(Obj(after), q);
    DeepGetWellFormed(Obj(after), q);
    PersistedLookup(sub.fields, leaf);
  }

  /** Persistence across reopen: after setItem(k, v) with a JSON value v, the
      stored tree reads v at k. */
  lemma ReopenAfterSet(root: seq<Field>, key: string, v: Json)
    requires WellFormed(Obj(root)) && !IsDotted(key) && key != "*"
    requires NoUndefined(v)
    ensures Item(PersistedFields(SetTree(root, key, v)), key) == v
  {
    PutDistinct(root, key, v);
    PersistedLookup(SetTree(root, key, v), key);
    PersistedIdentity(v);
  }

  /** A plain removeItem is not written: the file still holds the removed value,
      so a store reopened from it reads the key again. */
  lemma PlainRemoveNotInFile(root: seq<Field>, key: string)
    requires WellFormed(Obj(root)) && !IsDotted(key) && key != "*"
    requires Lookup(root, key) != Undefined
    ensures Item(RemoveTree(root, key), key) == Undefined
    ensures Item(PersistedFields(root), key) == Persisted(Lookup(root, key)) != Undefined
  {
    PersistedLookup(root, key);
  }

  /** Reading a path through the stored tree reads the stored form of the object
      found there. */
  lemma {:induction false} PersistedDeepGet(t: Json, q: seq<string>)
    requires WellFormed(t) && DeepGet(t, q).Obj?
    ensures DeepGet(Persisted(t), q) == Persisted(DeepGet(t, q))
    decreases q
  {
    if q != [] {
      var x := Lookup(t.fields, q[0]);
      if x == Undefined {
        DeepGetUndefined(q[1..]);
      } else {
        PersistedLookup(t.fields, q[0]);
        LookupWellFormed(t.fields, q[0]);
        PersistedDeepGet(x, q[1..]);
      }
    }
  }

  /** Any value reached in a well-formed tree is well-formed. */
  lemma {:induction false} DeepGetWellFormed(t: Json, q: seq<string>)
    requires WellFormed(t)
    ensures WellFormed(DeepGet(t, q))
    decreases q
  {
    if q != [] && t.Obj? {
      LookupWellFormed(t.fields, q[0]);
      DeepGetWellFormed(Lookup(t.fields, q[0]), q[1..]);
    }
  }

  /** path.join(cwd, dir), without its clean-up of "." and ".." segments. */
  function JoinPath(cwd: string, dir: string): string
  {
    cwd + "/" + dir
  }

  /** The constructor's resolved path: a path starting with "/" is kept, any
      other (the empty one too) is taken relative to the working directory. */
  function Resolve(dir: string, cwd: string): (r: string)
    ensures |cwd| > 0 && cwd[0] == '/' ==> |r| > 0 && r[0] == '/'
  {
    if |dir| > 0 && dir[0] == '/' then dir else JoinPath(cwd, dir)
  }

  /** A file name that path.join's clean-up leaves alone: not empty, no "." (so
      no "." or ".." segment), no empty segment and no trailing "/". */
  predicate PlainName(dir: string) {
    |dir| > 0 && '.' !in dir && dir[|dir| - 1] != '/' &&
    forall i :: 0 <= i < |dir| - 1 ==> !(dir[i] == '/' && dir[i + 1] == '/')
  }

  /** The resolved path names the given file: it ends with dir. */
  lemma ResolveKeepsName(dir: string, cwd: string)
    requires PlainName(dir)
    ensures |Resolve(dir, cwd)| >= |dir|
    ensures Resolve(dir, cwd)[|Resolve(dir, cwd)| - |dir|..] == dir
  {
    var r := Resolve(dir, cwd);
    if !(|dir| > 0 && dir[0] == '/') {
      assert r == (cwd + "/") + dir;
    }
  }

  /** With an absolute working directory the resolved path is absolute, and
      resolving it again keeps it. */
  lemma ResolveAbsolute(dir: string, cwd: string)
    requires |cwd| > 0 && cwd[0] == '/'
    ensures |Resolve(dir, cwd)| > 0 && Resolve(dir, cwd)[0] == '/'
    ensures Resolve(Resolve(dir, cwd), cwd) == Resolve(dir, cwd)
  {
  }

  /** String.prototype.toUpperCase on one character, for ASCII letters. */
  function UpperChar(c: char): char
  {
    if 'a' <= c <= 'z' then (c as int - 32) as char else c
  }

  /** String.prototype.toUpperCase, character by character. */
  function ToUpper(s: string): string
  {
    seq(|s|, i requires 0 <= i < |s| => UpperChar(s[i]))
  }

  /** Upper-casing leaves no lower-case letter, so doing it twice is doing it once. */
  lemma ToUpperIdempotent(s: string)
    ensures forall i :: 0 <= i < |ToUpper(s)| ==> !('a' <= ToUpper(s)[i] <= 'z')
    ensures ToUpper(ToUpper(s)) == ToUpper(s)
  {
  }

  /** An upper-case letter is the upper case of exactly itself and its lower case. */
  lemma UpperCharIs(c: char, up: char)
    requires 'A' <= up <= 'Z'
    ensures UpperChar(c) == up <==> c == up || c as int == up as int + 32
  {
  }

  /** The letters of the event name, each in both cases. */
  lemma StorageLetters()
    ensures forall i :: 0 <= i < 7 ==> 'A' <= "STORAGE"[i] <= 'Z' && "storage"[i] as int == "STORAGE"[i] as int + 32
  {
    forall i | 0 <= i < 7
      ensures 'A' <= "STORAGE"[i] <= 'Z' && "storage"[i] as int == "STORAGE"[i] as int + 32
    {
      assert i == 0 || i == 1 || i == 2 || i == 3 || i == 4 || i == 5 || i == 6;
    }
  }

  /** `type.toUpperCase() in events`: the only event category is STORAGE. */
  predicate IsStorageEvent(name: string)
    ensures IsStorageEvent(name) <==>
      |name| == 7 && forall i :: 0 <= i < 7 ==> name[i] == "STORAGE"[i] || name[i] == "storage"[i]
  {
    StorageEventLetters(name);
    ToUpper(name) == "STORAGE"
  }

  /** The upper-cased name is STORAGE exactly when each letter matches in one case. */
  lemma StorageEventLetters(name: string)
    ensures ToUpper(name) == "STORAGE" <==>
      |name| == 7 && forall i :: 0 <= i < 7 ==> name[i] == "STORAGE"[i] || name[i] == "storage"[i]
  {
    StorageLetters();
    if |name| == 7 {
      forall i | 0 <= i < 7 ensures UpperChar(name[i]) == "STORAGE"[i] <==> name[i] == "STORAGE"[i] || name[i] == "storage"[i] {
        UpperCharIs(name[i], "STORAGE"[i]);
      }
      if forall i :: 0 <= i < 7 ==> name[i] == "STORAGE"[i] || name[i] == "storage"[i] {
        assert forall i :: 0 <= i < 7 ==> ToUpper(name)[i] == "STORAGE"[i];
      } else {
        var i :| 0 <= i < 7 && !(name[i] == "STORAGE"[i] || name[i] == "storage"[i]);
        assert ToUpper(name)[i] != "STORAGE"[i];
      }
    }
  }

  /** The usual spellings all name the storage event; a near miss does not. */
  lemma StorageEventNames()
    ensures IsStorageEvent("storage") && IsStorageEvent("Storage") && IsStorageEvent("STORAGE")
    ensures !IsStorageEvent("storages") && !IsStorageEvent("stor age")
  {
    assert ToUpper("storage") == "STORAGE";
    assert ToUpper("Storage") == "STORAGE";
    assert ToUpper("STORAGE") == "STORAGE";
    assert "stor age"[4] == ' ';
  }
}
