# locster in Dafny

A model of locster's `Storage`, a local key-value cache. The cache keeps a JSON tree in memory, bound to one file path. Every change except a plain `removeItem` writes the whole tree to that file; every change then calls each `storage` subscriber with the tree. Keys containing a dot address nested values (`"a.b.c"`).

The JavaScript keeps its state in two module-level variables: `context` (the path and the tree) and `events.STORAGE` (the subscriber list). Every `Storage` instance shares them. So the model has a single `Locster.Storage` object that stands for all instances:

- The Dafny constructor models the first `new Storage(dir, { force })`. `Open` models any later one. `Open` rebinds the path and tree and leaves the subscribers alone.
- `live` goes false when `destroy` sets `context` to `undefined`. From then on, every operation except `on` and a new construction throws a `TypeError` in JavaScript and changes nothing. The model returns `Failure(Destroyed)` for those calls.
- `disk` models the filesystem: a map from path to what `JSON.parse` gives back for the file. A write stores `PersistedFields(data)`. That is the tree with `undefined` members dropped (undefined array slots become null), as `JSON.stringify` does.
- `log` is a ghost record of every callback call. Each entry holds the subscriber, the tree it was given, and what the bound file held at that moment. From this the model can show that a mutation writes before it notifies, and that each subscriber is called once, in order.

Pure logic is written as functions with lemmas:

- `JsonObject`: one object's `o[k]`, `o[k] = v` and `delete o[k]`, in insertion order.
- `DottedPath`: `split(".")`.
- `DeepPath`: `dlv` and `dset`.
- `JsonText`: the file round trip.
- `CacheSpec`: what each operation does to the tree.

The `Storage` methods are proved against the `CacheSpec` functions.

Behaviour kept as the code has it:

- A plain `removeItem(k)` deletes `k` and notifies subscribers, but does not write the file (`src/index.js:103-104`). The file keeps the old value. A store reopened from it reads `k` again (`PlainRemoveNotInFile`, `TestRemoveThenReopen`). Subscribers are told about a tree that is not on disk.
- A dotted `removeItem` calls `dset` with no value. The leaf stays a key of its parent, with value `undefined` (`DottedRemoveKeepsLeaf`). Only the written file lacks the leaf, because `JSON.stringify` drops it (`DottedRemoveDropsLeafInFile`).
- `getItem("*")` is checked before anything else. A value stored with `setItem("*", v)` can therefore never be read back: `"*"` always reads the whole tree. The round-trip lemmas exclude `"*"` for this reason.
- The constructor reads the file through the unresolved `dir` argument (`src/index.js:64`). That names the same file as the resolved path, so the model reads the resolved path.

## Model

| member | source | states |
|---|---|---|
| `JsonValue.Keys` | src/index.js:94 | Object.keys lists exactly the field keys, position by position |
| `JsonObject.Lookup` | src/index.js:127 | `o[k]` of a key the object does not have is undefined |
| `JsonObject.LookupAt` | src/index.js:127 | with distinct keys, `o[k]` is the value of the field named k |
| `JsonObject.Put` | src/index.js:114 | after `o[k] = v`, `o[k]` reads v |
| `JsonObject.PutOther` | src/index.js:114 | `o[k] = v` leaves every other key reading as before |
| `JsonObject.PutKeys` | src/index.js:114 | an existing key keeps its place; a new key is enumerated last |
| `JsonObject.PutDistinct` | src/index.js:114 | assignment never duplicates a key |
| `JsonObject.Remove` | src/index.js:103 | after `delete o[k]`, k is not a key and no field was added |
| `JsonObject.RemoveOther` | src/index.js:103 | `delete o[k]` leaves every other key reading as before |
| `JsonObject.RemoveAt` | src/index.js:103 | deleting the j-th key removes exactly that field, order otherwise kept |
| `JsonObject.RemoveAbsent` | src/index.js:103 | deleting a missing key changes nothing |
| `JsonObject.RemoveDistinct` | src/index.js:103 | deletion keeps keys distinct |
| `JsonText.Persisted` | src/index.js:29 | the tree read back from the file has no undefined in it, and an object stays an object |
| `JsonText.PersistedIdentity` | src/index.js:62-65 | a tree without undefined is read back from its file unchanged |
| `JsonText.PersistedIdempotent` | src/index.js:29 | writing a reloaded tree again changes nothing |
| `JsonText.PersistedLookup` | src/index.js:29 | the file keeps exactly the members whose value is not undefined, each in stored form |
| `JsonText.PersistedKeysWithin` | src/index.js:29 | the stored object never gains a key |
| `JsonText.PersistedWellFormed` | src/index.js:29 | the stored tree has no duplicate keys |
| `DottedPath.Split` | src/index.js:22-28 | a key splits into at least one segment, none containing a dot |
| `DottedPath.JoinSplit` | src/index.js:22-28 | joining the segments of a key with "." gives the key back |
| `DottedPath.SplitJoin` | src/index.js:22-28 | splitting joined dot-free segments gives the segments back |
| `DottedPath.SplitSingle` | src/index.js:126-127 | a key is one segment exactly when it has no dot, and then the segment is the key |
| `DottedPath.SplitAppend` | src/index.js:22-28 | appending ".leaf" to a key appends one segment |
| `DeepPath.DeepGet` | src/index.js:38-40 | dlv gives a defined value only when it starts from an object whose member at the first segment is defined |
| `DeepPath.DeepGetAppend` | src/index.js:38-40 | dlv along p then q is dlv of q from where p ends |
| `DeepPath.DeepSet` | src/index.js:22-31 | dset gives an object in which the path reads the value just set |
| `DeepPath.DeepGetMissing` | src/index.js:33-40 | once a prefix of the path reads undefined, the whole path reads undefined |
| `DeepPath.DeepSetOther` | src/index.js:22-31 | dset leaves every path that branches off the set path reading as before |
| `DeepPath.DeepSetPrefix` | src/index.js:22-31 | seen from any proper prefix, dset is dset of the rest of the path in the subtree found there, so every intermediate is an object |
| `DeepPath.LookupWellFormed` | src/index.js:38-39 | a value read from a well-formed object is well-formed |
| `DeepPath.PutWellFormed` | src/index.js:114 | assigning a well-formed value keeps the object well-formed |
| `DeepPath.RemoveWellFormed` | src/index.js:103 | deleting a key keeps the object well-formed |
| `DeepPath.DeepSetWellFormed` | src/index.js:27-28 | dset keeps the tree well-formed |
| `CacheSpec.KeyAt` | src/index.js:93-95 | key(i) is some key exactly when 0 <= i < number of keys, and then it is the i-th key in enumeration order |
| `CacheSpec.Item` | src/index.js:124-128 | every key but "*" reads as the path of its segments, whether it went through dlv or the top-level `o[k]`: a plain key is a one-segment path |
| `CacheSpec.SetTree` | src/index.js:112-114 | getItem(k) after setItem(k, v) is v, dotted or not, for every k but "*" |
| `CacheSpec.RemoveTree` | src/index.js:101-103 | getItem(k) after removeItem(k) is undefined, dotted or not, for every k but "*"; a plain k is no longer a key |
| `CacheSpec.SetKeepsOthers` | src/index.js:114 | a plain setItem leaves other plain keys reading as before, keeps the key order, and lists a new key last |
| `CacheSpec.DottedSetKeepsOthers` | src/index.js:113 | a dotted setItem changes only the top-level key of its first segment |
| `CacheSpec.DottedSetParent` | src/index.js:113 | after setItem("p.c", v), getItem("p") is an object that has key c with value v; missing intermediates are created |
| `CacheSpec.MissingPathReadsUndefined` | src/index.js:126 | a dotted getItem whose first segment is missing reads undefined, not an error |
| `CacheSpec.RemoveDeletes` | src/index.js:103 | a plain removeItem(k) makes k read undefined and drops it from the key enumeration; other keys read as before |
| `CacheSpec.RemoveShiftsKeys` | src/index.js:93-103 | after removing the j-th key, key(i) is unchanged below j and is the old key(i+1) from j on |
| `CacheSpec.DottedRemoveKeepsLeaf` | src/index.js:102 | a dotted removeItem leaves the leaf as a key of its parent with value undefined |
| `CacheSpec.DottedRemoveDropsLeafInFile` | src/index.js:102 | the written file no longer has that leaf key |
| `CacheSpec.ReopenAfterSet` | src/index.js:114-115 | for a plain k other than "*" and a value v without undefined in it, the file written by setItem(k, v) reads v at k when reopened |
| `CacheSpec.PlainRemoveNotInFile` | src/index.js:101-105 | after a plain removeItem the tree reads undefined at k, but the unwritten file still holds the old value |
| `CacheSpec.PersistedDeepGet` | src/index.js:29 | reading a path in the stored tree gives the stored form of the object found there |
| `CacheSpec.DeepGetWellFormed` | src/index.js:38-39 | anything read from a well-formed tree is well-formed |
| `CacheSpec.Resolve` | src/index.js:50-51 | the resolved path is absolute whenever the working directory is |
| `CacheSpec.ResolveKeepsName` | src/index.js:50-51 | for a non-empty dir with no ".", no empty segment and no trailing "/", the resolved path ends with dir |
| `CacheSpec.ResolveAbsolute` | src/index.js:50-51 | with an absolute working directory, the resolved path is absolute and resolving it again keeps it |
| `CacheSpec.ToUpperIdempotent` | src/index.js:75 | upper-casing leaves no lower-case letter, so upper-casing twice is upper-casing once |
| `CacheSpec.IsStorageEvent` | src/index.js:75-76 | a name is the storage event exactly when it has seven letters, each the letter of "storage" in either case |
| `CacheSpec.StorageEventNames` | src/index.js:75-76 | "storage", "Storage" and "STORAGE" subscribe; "storages" and "stor age" do not |
| `Locster.Broadcast` | src/index.js:16-20 | one emitChange calls every subscriber once, in registration order, each with the same tree |
| `Locster.Storage.constructor` | src/index.js:48-67 | first construction: the path is resolved; a missing file or force gives {} and writes it, otherwise the file's tree is loaded; no subscribers |
| `Locster.Storage.Open` | src/index.js:48-67 | later construction: same as the first, subscribers and the notification log untouched |
| `Locster.Storage.WriteFile` | src/index.js:29 | the bound file afterwards holds the stored form of the tree; other files unchanged |
| `Locster.Storage.EmitChange` | src/index.js:16-20 | the log grows by one call per subscriber, in order, each with the current tree and file |
| `Locster.Storage.DeepSetItem` | src/index.js:27-31 | the tree becomes dset of the key's segments, is written, then every subscriber sees the new tree with the file already written |
| `Locster.Storage.On` | src/index.js:74-77 | appends the callback exactly when the name upper-cases to STORAGE; works after destroy |
| `Locster.Storage.Clear` | src/index.js:82-86 | the root becomes {} under the same path, the file holds {}, then every subscriber gets {} |
| `Locster.Storage.Key` | src/index.js:93-95 | key(i) reads the i-th top-level key or undefined, and fails after destroy |
| `Locster.Storage.DeleteTopLevel` | src/index.js:103-104 | a plain key is deleted from the root and one notification round follows; the file, path and subscribers are unchanged |
| `Locster.Storage.RemoveItem` | src/index.js:101-105 | dotted: the leaf becomes undefined, the file is written, then one notification round; plain: the key is deleted and one notification round follows with the file unchanged |
| `Locster.Storage.SetTopLevel` | src/index.js:114-116 | a plain key is assigned at the top level (in place if present, appended otherwise), the file is written, then every subscriber sees the new tree; path, liveness and subscribers unchanged |
| `Locster.Storage.SetItem` | src/index.js:112-117 | the tree becomes SetTree(old, key, value), the file holds it, then every subscriber gets the new tree once, in order |
| `Locster.Storage.GetItem` | src/index.js:124-128 | "*" gives the whole tree; any other key gives the value at the path of its segments; fails after destroy; reads only |
| `Locster.Storage.GetDir` | src/index.js:134-136 | gives the resolved path; fails after destroy |
| `Locster.Storage.Destroy` | src/index.js:141-145 | removes the bound file, empties the subscribers, and leaves the store destroyed; a second destroy fails and changes nothing |
| `Locster.TestScenario` | test.js:5-20 | the test script's calls give {} after removing foo, {a:{b:{c:"e"}}} after setItem("a.b.c","e"), and {} after clear |
| `Locster.ScenarioNestedSet` | test.js:16-17 | setItem("a.b.c","e") on {} creates both intermediate objects |
| `Locster.TestReopen` | src/index.js:54-65 | a value set under a plain key is read back by a store reopened on the same file |
| `Locster.TestRemoveThenReopen` | src/index.js:101-105 | on a file holding {foo:"bar"}, a plain removeItem("foo") reads undefined afterwards, yet a store reopened on the file reads "bar" again |
| `Locster.TestForceAndDestroy` | src/index.js:54-60 | reopening with force empties an existing cache to {}; after destroy a read fails |

## Left out

- Filesystem calls (`existsSync`, `readFileSync`, `writeFileSync`, `unlinkSync`) become operations on the `disk` map. Their platform errors (missing directory, permissions) are not modelled.
- JSON text is not modelled: the file holds the parsed tree. A parse failure is not modelled. A file whose content is not a JSON object cannot be expressed: `disk` maps each path to the fields of an object. `DiskValid` adds that those fields have distinct keys and hold no undefined, which is what `JSON.parse` gives.
- Numbers are integers. Floating point, NaN and `toJSON` are not modelled.
- `path.join` does not remove `.` and `..` segments here (`JoinPath` is plain concatenation). `process.cwd()` is a parameter.
- `dset` and `dlv` are not part of this model; `DeepSet` and `DeepGet` follow their documented contract. Their edge cases are not modelled: arrays created for numeric segments, `null` or array intermediates (dset reuses those, the model replaces them with `{}`), string and array indexing in `dlv`, and dset's guard against prototype keys.
- `Object.keys` puts integer-like keys first. The model uses plain insertion order.
- Aliasing is not modelled: `getItem("*")` and the callbacks receive the live tree in JavaScript, value snapshots here.
- Callback bodies are not modelled: a subscriber is an id and only its calls are logged. A callback that throws (stopping later callbacks) or that calls back into the store is not modelled.
- `toUpperCase` covers ASCII letters only. Unicode case mapping (for example "ſ" becoming "S") is not modelled.
- `key(i)` is modelled for integer indices only. Strings such as `"0"` and fractional indices are not modelled.
- The state before any construction (`context = {}`) is not reachable through an instance and is not modelled.
- `JsonObject.Lookup`: objects have no prototype here. In JavaScript `o[k]` also finds inherited members, so `getItem("constructor")` or `getItem("a.toString")` reads a function where the model reads undefined.
- `JsonObject.Put`: `o["__proto__"] = v` replaces the prototype in JavaScript rather than adding a key: `key(i)` never lists it, `JSON.stringify` never writes it, and a primitive `v` is ignored. The model adds `__proto__` as an ordinary key.
- `CacheSpec.SetTree`: its read-back promise and the lemmas built on it (`SetKeepsOthers`, `ReopenAfterSet`, `Locster.Storage.SetItem`) hold for every key but `__proto__`, where JavaScript differs as the line above says. An inherited name such as `toString` becomes an own property on assignment and reads back as the model says.
- `CacheSpec.ResolveKeepsName`: `path.join` removes `.` and `..` segments, empty segments and a trailing `/`, which the model's concatenation keeps; the lemma is restricted by `PlainName` to names where the two agree at the end. `"./.cache"`, the default, resolves to `<cwd>/.cache` in JavaScript and to `<cwd>/./.cache` in the model.
- `CacheSpec.Item`: reads own keys only; an inherited name such as `toString` reads a function in JavaScript, undefined here.
- `CacheSpec.RemoveTree`: after removing an inherited name such as `toString`, JavaScript still reads the inherited function; the model reads undefined.
- `Locster.Storage.constructor`: both arguments are required. The source defaults `dir` to `"./.cache"` and `options` to `{ force: false }`, and only `force === true` forces; any other `force` value, truthy or not, counts as false. The caller passes `force` as that comparison's result.
- `Locster.Storage.Open`: the same as the constructor: no defaults, and `force` is the result of `=== true`.
- `Locster.Storage.SetItem`: values are stored by value. JavaScript stores a reference, so setting a value that contains the live tree (say the result of `getItem("*")`) makes the tree cyclic; `JSON.stringify` then throws after the assignment has happened, so the file is not written and nobody is notified. Aliasing of inputs and this throw are not modelled.
