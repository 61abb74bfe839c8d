/** The remote folder tree and the client that makes sure a path's folders exist, while other clients
    keep adding entries and calls keep failing. */
module FolderTree {
  import opened Prelude
  import opened Paths

  type Id = nat

  /** Entries by parent and name; siblings have different names. */
  type Entries = map<(Id, string), Id>

  function Resolve(entries: Entries, root: Id, path: seq<string>): Option<Id>
    decreases |path|
  {
    if path == [] then Some(root)
    else
      var name := path[|path| - 1];
      match Resolve(entries, root, path[..|path| - 1])
      case None => None
      case Some(parent) => if (parent, name) in entries then Some(entries[(parent, name)]) else None
  }

  /** Entries are only ever added. */
  ghost predicate Grown(before: Entries, after: Entries) {
    forall k :: k in before ==> k in after && after[k] == before[k]
  }

  lemma {:induction false} ResolveStays(before: Entries, after: Entries, root: Id, path: seq<string>)
    requires Grown(before, after) && Resolve(before, root, path).Some?
    ensures Resolve(after, root, path) == Resolve(before, root, path)
    decreases |path|
  {
    if path != [] {
      ResolveStays(before, after, root, path[..|path| - 1]);
    }
  }

  lemma {:induction false} PrefixesResolve(entries: Entries, root: Id, path: seq<string>, k: nat)
    requires Resolve(entries, root, path).Some? && k <= |path|
    ensures Resolve(entries, root, path[..k]).Some?
    decreases |path|
  {
    if k == |path| {
      assert path[..k] == path;
    } else {
      PrefixesResolve(entries, root, path[..|path| - 1], k);
      assert path[..|path| - 1][..k] == path[..k];
    }
  }

  lemma PrefixStillThere(before: Entries, after: Entries, root: Id, path: seq<string>, k: nat)
    requires Grown(before, after) && k <= |path|
    ensures Resolve(before, root, path).Some? ==> Resolve(after, root, path[..k]).Some?
  {
    if Resolve(before, root, path).Some? {
      PrefixesResolve(before, root, path, k);
      ResolveStays(before, after, root, path[..k]);
    }
  }

  lemma ResolveChild(entries: Entries, root: Id, parts: seq<string>, k: nat)
    requires k < |parts| && Resolve(entries, root, parts[..k]).Some?
    ensures var parent := Resolve(entries, root, parts[..k]).value;
            Resolve(entries, root, parts[..k + 1]) ==
            if (parent, parts[k]) in entries then Some(entries[(parent, parts[k])]) else None
  {
    assert parts[..k + 1][..k] == parts[..k];
  }

  /** A create call as the server saw it. */
  datatype Create = Create(name: string, parent: Id)

  datatype Reply =
    | Created(id: Id)
    | CreatedWithoutId
    | Conflict
    | Refused(message: string)

  datatype Outcome =
    | Raised
    | Done
    | RootUnresolved
    | Failed(path: string, lastError: string)

  class Remote {
    const root: Id
    /** A reliable server answers every call truthfully; other clients still interfere. */
    const reliable: bool
    var entries: Entries
    ghost var creates: seq<Create>

    constructor (root: Id, reliable: bool)
      ensures this.root == root && this.reliable == reliable && entries == map[] && creates == []
    {
      this.root, this.reliable, this.entries, this.creates := root, reliable, map[], [];
    }

    /** Other clients add whatever they like at any point between two calls. */
    method OthersAct()
      modifies this`entries
      ensures Grown(old(entries), entries)
    {
      var more: Entries := *;
      entries := more + entries;
    }

    /** The id of a path, or nothing: the path may not exist, or the call may have failed. */
    method GetIdByPath(path: string) returns (id: Option<Id>)
      modifies this`entries
      ensures Grown(old(entries), entries)
      ensures id.Some? || reliable ==> id == Resolve(entries, root, Components(path))
    {
      OthersAct();
      var fails: bool := *;
      id := if fails && !reliable then None else Resolve(entries, root, Components(path));
    }

    /** Creates a folder, unless the name is taken or the call fails; a failed call may have created
        the folder all the same. */
    method CreateFolder(name: string, parent: Id) returns (r: Reply)
      modifies this`entries, this`creates
      ensures Grown(old(entries), entries)
      ensures creates == old(creates) + [Create(name, parent)]
      ensures r.Created? || r.Conflict? ==> (parent, name) in entries
      ensures r.Created? ==> entries[(parent, name)] == r.id
      ensures reliable ==> r.Created? || r.Conflict?
    {
      creates := creates + [Create(name, parent)];
      OthersAct();
      var lostBefore, lostAfter, noId: bool := *, *, *;
      if lostBefore && !reliable {
        return Refused("");
      }
      if (parent, name) in entries {
        return Conflict;
      }
      var id: Id := *;
      entries := entries[(parent, name) := id];
      if lostAfter && !reliable {
        return Refused("");
      }
      return if noId && !reliable then CreatedWithoutId else Created(id);
    }

    /** Up to three attempts to find or create one folder. */
    method EnsureFolder(checkPath: string, folder: string, currId: Id, error: string,
                        ghost parts: seq<string>, ghost k: nat)
      returns (success: bool, id: Id, lastError: string)
      requires k < |parts| && parts[k] == folder && Components(checkPath) == parts[..k + 1]
      requires Resolve(entries, root, parts[..k]) == Some(currId)
      modifies this`entries, this`creates
      ensures Grown(old(entries), entries)
      ensures success ==> Resolve(entries, root, parts[..k + 1]) == Some(id)
      ensures reliable ==> success
      ensures OnlyRepeats(old(creates), creates, Create(folder, currId), 3)
      ensures !success ==> |creates| == |old(creates)| + 3
      ensures reliable && Resolve(old(entries), root, parts[..k + 1]).Some? ==> creates == old(creates)
    {
      success, id, lastError := false, currId, error;
      var attempt := 0;
      while attempt < 3 && !success
        invariant 0 <= attempt <= 3
        decreases 3 - attempt
        invariant Grown(old(entries), entries)
        invariant !success ==> id == currId
        invariant success ==> Resolve(entries, root, parts[..k + 1]) == Some(id)
        invariant reliable && !success && 0 < attempt ==> attempt == 1 && (currId, folder) in entries
        invariant OnlyRepeats(old(creates), creates, Create(folder, currId), attempt)
        invariant !success ==> |creates| == |old(creates)| + attempt
        invariant reliable && Resolve(old(entries), root, parts[..k + 1]).Some? ==>
                    creates == old(creates) && (attempt > 0 ==> success)
      {
        var eid := GetIdByPath(checkPath);
        ResolveStays(old(entries), entries, root, parts[..k]);
        if Resolve(old(entries), root, parts[..k + 1]).Some? {
          ResolveStays(old(entries), entries, root, parts[..k + 1]);
        }
        ResolveChild(entries, root, parts, k);
        if eid.Some? {
          id, success := eid.value, true;
        } else {
          var r := CreateFolder(folder, id);
          ResolveStays(old(entries), entries, root, parts[..k]);
          ResolveChild(entries, root, parts, k);
          match r {
            case Conflict =>
            case Created(nid) => id, success := nid, true;
            case CreatedWithoutId => lastError := "Failed to create folder: " + folder;
            case Refused(message) =>
              lastError := if message != "" then message else "Failed to create folder: " + folder;
          }
        }
        attempt := attempt + 1;
      }
    }

    /** Walks down the path, one folder at a time. */
    method EnsureFolders(parts: seq<string>) returns (r: Outcome)
      requires forall i :: 0 <= i < |parts| ==> SlashFree(parts[i]) && parts[i] != ""
      modifies this`entries, this`creates
      ensures Grown(old(entries), entries)
      ensures r.Done? || r.Failed?
      ensures r.Done? ==> Resolve(entries, root, parts).Some?
      ensures reliable ==> r.Done?
      ensures r.Failed? ==> StopsAt(entries, root, parts, r.path) && |creates| >= |old(creates)| + 3
      ensures CreatesAreExact(entries, root, old(creates), creates, parts)
      ensures reliable && Resolve(old(entries), root, parts).Some? ==> creates == old(creates)
    {
      var currId, checkPath, lastError := root, "", "";
      var k := 0;
      ComponentsOfNothing();
      while k < |parts|
        invariant 0 <= k <= |parts|
        invariant Components(checkPath) == parts[..k]
        invariant Grown(old(entries), entries)
        invariant Resolve(entries, root, parts[..k]) == Some(currId)
        invariant |creates| <= |old(creates)| + 3 * k
        invariant CreatesAreExact(entries, root, old(creates), creates, parts)
        invariant reliable && Resolve(old(entries), root, parts).Some? ==> creates == old(creates)
      {
        ghost var before, had, above := entries, creates, currId;
        PrefixStillThere(old(entries), entries, root, parts, k + 1);
        ComponentsJoin(checkPath, parts[k]);
        ComponentsOfName(parts[k]);
        checkPath := checkPath + "/" + parts[k];
        var success;
        success, currId, lastError := EnsureFolder(checkPath, parts[k], currId, lastError, parts, k);
        CreatesStayExact(before, entries, root, old(creates), had, creates, parts, k, above);
        if !success {
          ResolveStays(before, entries, root, parts[..k]);
          return Failed(checkPath, lastError);
        }
        k := k + 1;
      }
      assert parts[..k] == parts;
      r := Done;
    }

    /** Every folder of the path is found or created, top down, or the call says which could not be. */
    method EnsureStructure(fullKey: string) returns (r: Outcome)
      modifies this`entries, this`creates
      ensures Grown(old(entries), entries)
      ensures r == Raised <==> fullKey == ""
      ensures r == Done ==> Resolve(entries, root, FoldersOf(fullKey)).Some?
      ensures fullKey != "" && (reliable || FoldersOf(fullKey) == []) ==> r == Done
      ensures r.Failed? ==> StopsAt(entries, root, FoldersOf(fullKey), r.path) && |creates| >= |old(creates)| + 3
      ensures CreatesAreExact(entries, root, old(creates), creates, FoldersOf(fullKey))
      ensures reliable && Resolve(old(entries), root, FoldersOf(fullKey)).Some? ==> creates == old(creates)
    {
      FolderPartsFails(fullKey);
      var split := FolderParts(fullKey);
      if split.None? {
        return Raised;
      }
      var parts := split.value;
      if parts == [] {
        return Done;
      }
      ComponentsAreNames(fullKey);
      RootHasNoComponents();
      var rootId := GetIdByPath("/");
      if rootId.None? {
        return RootUnresolved;
      }
      if Resolve(old(entries), root, parts).Some? {
        ResolveStays(old(entries), entries, root, parts);
      }
      r := EnsureFolders(parts);
    }
  }

  lemma RootHasNoComponents()
    ensures Components("/") == []
  {
    ComponentsOfTrailingSlash("");
    ComponentsOfNothing();
    assert "" + "/" == "/";
  }

  /** The folders above a path; none when there is nothing to take the file name off. */
  function FoldersOf(fullKey: string): seq<string> {
    var parts := FolderParts(fullKey);
    if parts.Some? then parts.value else []
  }

  /** The calls after `before` are at most `n` repetitions of one call. */
  ghost predicate OnlyRepeats(before: seq<Create>, after: seq<Create>, c: Create, n: int) {
    && before <= after && |after| <= |before| + n
    && forall i :: |before| <= i < |after| ==> after[i] == c
  }

  /** The call named a folder of the path, and the id of exactly the folder above it. */
  ghost predicate IsExact(entries: Entries, root: Id, c: Create, parts: seq<string>) {
    exists k :: 0 <= k < |parts| && c.name == parts[k] && Resolve(entries, root, parts[..k]) == Some(c.parent)
  }

  ghost predicate CreatesAreExact(entries: Entries, root: Id, before: seq<Create>, after: seq<Create>,
                                  parts: seq<string>)
  {
    && before <= after && |after| <= |before| + 3 * |parts|
    && forall i :: |before| <= i < |after| ==> IsExact(entries, root, after[i], parts)
  }

  /** The folder that failed is on the path, and the one above it exists. */
  ghost predicate StopsAt(entries: Entries, root: Id, parts: seq<string>, path: string) {
    exists k :: 0 <= k < |parts| && Components(path) == parts[..k + 1]
                && Resolve(entries, root, parts[..k]).Some?
  }

  lemma IsExactStays(before: Entries, after: Entries, root: Id, c: Create, parts: seq<string>)
    requires Grown(before, after) && IsExact(before, root, c, parts)
    ensures IsExact(after, root, c, parts)
  {
    var k :| 0 <= k < |parts| && c.name == parts[k] && Resolve(before, root, parts[..k]) == Some(c.parent);
    ResolveStays(before, after, root, parts[..k]);
  }

  lemma CreatesStayExact(before: Entries, after: Entries, root: Id, first: seq<Create>, mid: seq<Create>,
                         last: seq<Create>, parts: seq<string>, k: nat, parent: Id)
    requires k < |parts| && Grown(before, after)
    requires Resolve(before, root, parts[..k]) == Some(parent)
    requires CreatesAreExact(before, root, first, mid, parts) && |mid| <= |first| + 3 * k
    requires OnlyRepeats(mid, last, Create(parts[k], parent), 3)
    ensures CreatesAreExact(after, root, first, last, parts)
  {
    ResolveStays(before, after, root, parts[..k]);
    forall i | |first| <= i < |last| ensures IsExact(after, root, last[i], parts) {
      if i < |mid| {
        IsExactStays(before, after, root, mid[i], parts);
      }
    }
  }
}

/** The directory phase of an import job. */
module DirectoryPhase {
  import opened Paths
  import opened FolderTree

  ghost predicate IsShortest(d: string, dirs: set<string>) {
    d in dirs && forall e :: e in dirs ==> |d| <= |e|
  }

  lemma {:induction false} ShortestExists(dirs: set<string>) returns (least: string)
    requires dirs != {}
    ensures IsShortest(least, dirs)
    decreases |dirs|
  {
    least :| least in dirs;
    var rest := dirs - {least};
    if rest != {} {
      var m := ShortestExists(rest);
      if |m| < |least| {
        least := m;
      }
    }
  }

  /** The bucket and the directory of every key. */
  function DirsOf(bucket: string, keys: seq<string>): set<string> {
    if keys == [] then {bucket}
    else DirsOf(bucket, keys[..|keys| - 1]) + {DirectoryOf(bucket, keys[|keys| - 1])}
  }

  /** The directories of all keys. */
  function Directories(bucket: string, keys: seq<string>): set<string> {
    set k | k in keys :: DirectoryOf(bucket, k)
  }

  lemma {:induction false} DirsOfHasAll(bucket: string, keys: seq<string>)
    ensures DirsOf(bucket, keys) == {bucket} + Directories(bucket, keys)
  {
    if keys == [] {
      assert Directories(bucket, keys) == {};
    } else {
      var n := |keys| - 1;
      DirsOfHasAll(bucket, keys[..n]);
      LastKey(bucket, keys);
    }
  }

  lemma LastKey(bucket: string, keys: seq<string>)
    requires keys != []
    ensures var n := |keys| - 1;
            Directories(bucket, keys) == Directories(bucket, keys[..n]) + {DirectoryOf(bucket, keys[n])}
  {
    var n := |keys| - 1;
    OneMoreKey(bucket, keys[..n], keys[n]);
    assert keys[..n] + [keys[n]] == keys;
  }

  lemma OneMoreKey(bucket: string, keys: seq<string>, key: string)
    ensures Directories(bucket, keys + [key]) == Directories(bucket, keys) + {DirectoryOf(bucket, key)}
  {
    assert forall k :: k in keys + [key] <==> k in keys || k == key;
  }

  /** The directories of all keys, each once. */
  method UniqueDirs(bucket: string, keys: seq<string>) returns (dirs: set<string>)
    ensures dirs == DirsOf(bucket, keys)
  {
    dirs := {bucket};
    for i := 0 to |keys|
      invariant bucket in dirs && dirs == DirsOf(bucket, keys[..i])
    {
      assert keys[..i + 1][..i] == keys[..i];
      var d := Dirname(keys[i]);
      if d != "" {
        dirs := dirs + {bucket + "/" + d};
      }
    }
    assert keys[..|keys|] == keys;
  }

  ghost predicate AllExist(entries: Entries, root: Id, dirs: set<string>) {
    forall d :: d in dirs ==> Resolve(entries, root, Components(d)).Some?
  }

  lemma AllExistStays(before: Entries, after: Entries, root: Id, dirs: set<string>)
    requires AllExist(before, root, dirs) && Grown(before, after)
    ensures AllExist(after, root, dirs)
  {
    forall d | d in dirs ensures Resolve(after, root, Components(d)).Some? {
      ResolveStays(before, after, root, Components(d));
    }
  }

  lemma TargetExists(entries: Entries, root: Id, dirs: set<string>, bucket: string, key: string)
    requires AllExist(entries, root, dirs) && DirectoryOf(bucket, key) in dirs
    requires key != "" && !EndsWithSlash(key)
    ensures Resolve(entries, root, FoldersOf(TargetPath(bucket, key))).Some?
  {
    DirectoryCoversTarget(bucket, key);
  }

  lemma TargetsExist(entries: Entries, root: Id, failed: set<string>, bucket: string, keys: seq<string>)
    requires AllExist(entries, root, DirsOf(bucket, keys) - failed)
    ensures forall k :: k in keys && k != "" && !EndsWithSlash(k) && DirectoryOf(bucket, k) !in failed ==>
              Resolve(entries, root, FoldersOf(TargetPath(bucket, k))).Some?
  {
    DirsOfHasAll(bucket, keys);
    forall k | k in keys && k != "" && !EndsWithSlash(k) && DirectoryOf(bucket, k) !in failed
      ensures Resolve(entries, root, FoldersOf(TargetPath(bucket, k))).Some?
    {
      TargetExists(entries, root, DirsOf(bucket, keys) - failed, bucket, k);
    }
  }

  /** Shortest first. */
  predicate ByLength(order: seq<string>) {
    forall i, j :: 0 <= i < j < |order| ==> |order[i]| <= |order[j]|
  }

  /** The directories tried so far, in order, and those still to come. */
  ghost predicate Tried(order: seq<string>, left: set<string>, all: set<string>) {
    && ByLength(order) && left <= all && |order| == |all| - |left|
    && (forall d :: d in order <==> d in all - left)
    && forall i, e :: 0 <= i < |order| && e in left ==> |order[i]| <= |e|
  }

  lemma TriedNext(order: seq<string>, left: set<string>, all: set<string>, d: string)
    requires Tried(order, left, all) && IsShortest(d, left)
    ensures Tried(order + [d], left - {d}, all)
  {
    var order' := order + [d];
    assert forall i :: 0 <= i < |order| ==> order'[i] == order[i];
    assert order'[|order|] == d;
    forall e ensures e in order' <==> e in all - (left - {d}) {
      assert e in order' <==> e in order || e == d;
    }
  }

  /** Creates every directory once, shortest first, going on when one fails. The folder above the target
      path of every listed key exists afterwards, unless the directory of the key failed. */
  method CreateDirectories(remote: Remote, bucket: string, keys: seq<string>)
    returns (failed: set<string>, ghost order: seq<string>)
    modifies remote`entries, remote`creates
    ensures Grown(old(remote.entries), remote.entries)
    ensures failed <= DirsOf(bucket, keys)
    ensures forall k :: k in keys && k != "" && !EndsWithSlash(k) && DirectoryOf(bucket, k) !in failed ==>
              Resolve(remote.entries, remote.root, FoldersOf(TargetPath(bucket, k))).Some?
    ensures remote.reliable ==> failed == {}
    ensures ByLength(order) && |order| == |DirsOf(bucket, keys)|
    ensures forall d :: d in order <==> d in DirsOf(bucket, keys)
  {
    failed, order := {}, [];
    var all := UniqueDirs(bucket, keys);
    var left := all;
    while left != {}
      invariant left <= all && failed <= all - left && Tried(order, left, all)
      invariant Grown(old(remote.entries), remote.entries)
      invariant AllExist(remote.entries, remote.root, all - left - failed)
      invariant remote.reliable ==> failed == {}
      decreases |left|
    {
      ghost var shortest := ShortestExists(left);
      var d :| d in left && forall e :: e in left ==> |d| <= |e|;
      ghost var before := remote.entries;
      DummyFile(d);
      TriedNext(order, left, all, d);
      order := order + [d];
      var r := remote.EnsureStructure(d + "/dummy_file");
      AllExistStays(before, remote.entries, remote.root, all - left - failed);
      if r != Done {
        failed := failed + {d};
      }
      left := left - {d};
    }
    TargetsExist(remote.entries, remote.root, failed, bucket, keys);
  }
}
