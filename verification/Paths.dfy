/** Slash-separated keys: splitting, the components of a path, and os.path.dirname. */
module Paths {
  import opened Prelude

  /** str.split("/") */
  function Split(s: string): (pieces: seq<string>)
    ensures pieces != []
  {
    if s == "" then [""]
    else
      var rest := Split(s[1..]);
      if s[0] == '/' then [""] + rest else [[s[0]] + rest[0]] + rest[1..]
  }

  function NonEmpty(pieces: seq<string>): seq<string> {
    if pieces == [] then []
    else (if pieces[0] == "" then [] else [pieces[0]]) + NonEmpty(pieces[1..])
  }

  /** The pieces that are not empty. */
  function Components(s: string): seq<string> {
    NonEmpty(Split(s))
  }

  predicate EndsWithSlash(s: string) {
    s != "" && s[|s| - 1] == '/'
  }

  predicate SlashFree(s: string) {
    forall i :: 0 <= i < |s| ==> s[i] != '/'
  }

  lemma SplitFirst(s: string)
    requires s != ""
    ensures Split(s) == if s[0] == '/' then [""] + Split(s[1..])
                        else [[s[0]] + Split(s[1..])[0]] + Split(s[1..])[1..]
  {
  }

  lemma {:induction false} SplitJoin(a: string, b: string)
    ensures Split(a + "/" + b) == Split(a) + Split(b)
  {
    var s := a + "/" + b;
    SplitFirst(s);
    if a == "" {
      assert s[1..] == b;
    } else {
      SplitFirst(a);
      SplitJoin(a[1..], b);
      assert s[0] == a[0] && s[1..] == a[1..] + "/" + b;
      PiecesGrow(a[0], Split(a[1..]), Split(b));
    }
  }

  lemma {:induction false} NonEmptyAppend(p: seq<string>, q: seq<string>)
    ensures NonEmpty(p + q) == NonEmpty(p) + NonEmpty(q)
  {
    if p == [] {
      assert p + q == q;
    } else {
      assert (p + q)[1..] == p[1..] + q;
      NonEmptyAppend(p[1..], q);
    }
  }

  /** Joining two paths with a slash joins their components, whatever slashes they carry already. */
  lemma ComponentsJoin(a: string, b: string)
    ensures Components(a + "/" + b) == Components(a) + Components(b)
  {
    SplitJoin(a, b);
    NonEmptyAppend(Split(a), Split(b));
  }

  lemma {:induction false} SplitSlashFree(s: string)
    requires SlashFree(s)
    ensures Split(s) == [s]
  {
    if s != "" {
      SplitSlashFree(s[1..]);
      assert [s[0]] + s[1..] == s;
    }
  }

  /** A name is its own only component. */
  lemma ComponentsOfName(s: string)
    requires SlashFree(s) && s != ""
    ensures Components(s) == [s]
  {
    SplitSlashFree(s);
    assert NonEmpty([s][1..]) == [];
  }

  lemma ComponentsOfNothing()
    ensures Components("") == []
  {
    assert NonEmpty([""][1..]) == [];
  }

  lemma ComponentsOfTrailingSlash(s: string)
    ensures Components(s + "/") == Components(s)
  {
    ComponentsJoin(s, "");
    assert s + "/" + "" == s + "/";
    ComponentsOfNothing();
  }

  lemma {:induction false} SplitPieces(s: string)
    ensures forall i :: 0 <= i < |Split(s)| ==> SlashFree(Split(s)[i])
  {
    if s != "" {
      SplitPieces(s[1..]);
    }
  }

  lemma {:induction false} NonEmptyPieces(p: seq<string>)
    requires forall i :: 0 <= i < |p| ==> SlashFree(p[i])
    ensures forall i :: 0 <= i < |NonEmpty(p)| ==> SlashFree(NonEmpty(p)[i]) && NonEmpty(p)[i] != ""
  {
    if p != [] {
      NonEmptyPieces(p[1..]);
    }
  }

  lemma ComponentsAreNames(s: string)
    ensures forall i :: 0 <= i < |Components(s)| ==> SlashFree(Components(s)[i]) && Components(s)[i] != ""
  {
    SplitPieces(s);
    NonEmptyPieces(Split(s));
  }

  // ----- os.path.dirname -----

  /** str.rfind("/") + 1 */
  function AfterLastSlash(p: string): (i: nat)
    ensures i <= |p|
    ensures SlashFree(p[i..])
    ensures 0 < i ==> p[i - 1] == '/'
  {
    if p == "" || EndsWithSlash(p) then |p|
    else
      var i := AfterLastSlash(p[..|p| - 1]);
      assert p[i..] == p[..|p| - 1][i..] + [p[|p| - 1]];
      i
  }

  /** str.rstrip("/") */
  function StripSlashes(s: string): string {
    if EndsWithSlash(s) then StripSlashes(s[..|s| - 1]) else s
  }

  predicate AllSlashes(s: string) {
    forall i :: 0 <= i < |s| ==> s[i] == '/'
  }

  function Dirname(p: string): string {
    var head := p[..AfterLastSlash(p)];
    if head != "" && !AllSlashes(head) then StripSlashes(head) else head
  }

  lemma {:induction false} StripKeepsComponents(s: string)
    ensures Components(StripSlashes(s)) == Components(s)
  {
    if EndsWithSlash(s) {
      assert s == s[..|s| - 1] + "/";
      ComponentsOfTrailingSlash(s[..|s| - 1]);
      StripKeepsComponents(s[..|s| - 1]);
    }
  }

  lemma ComponentsOfHead(p: string)
    ensures Components(Dirname(p)) == Components(p[..AfterLastSlash(p)])
  {
    StripKeepsComponents(p[..AfterLastSlash(p)]);
  }

  lemma ComponentsOfLast(p: string)
    requires p != "" && !EndsWithSlash(p)
    ensures Components(p) == Components(p[..AfterLastSlash(p)]) + [p[AfterLastSlash(p)..]]
  {
    var i := AfterLastSlash(p);
    var head, name := p[..i], p[i..];
    ComponentsOfName(name);
    if i == 0 {
      assert p == name;
      ComponentsOfNothing();
    } else {
      var front := p[..i - 1];
      assert p == front + "/" + name && head == front + "/";
      ComponentsJoin(front, name);
      ComponentsOfTrailingSlash(front);
    }
  }

  /** Taking the directory and splitting it is splitting the path and dropping its last piece. */
  lemma DirnameDropsLast(p: string)
    requires p != "" && !EndsWithSlash(p)
    ensures |Components(p)| > 0
    ensures Components(Dirname(p)) == Components(p)[..|Components(p)| - 1]
    ensures Components(p)[|Components(p)| - 1] == p[AfterLastSlash(p)..]
  {
    ComponentsOfHead(p);
    ComponentsOfLast(p);
  }

  // ----- the folders a key needs -----

  /** The folders ensure_structure walks through; popping the file name off an empty list raises. */
  function FolderParts(fullKey: string): Option<seq<string>> {
    var parts := Components(fullKey);
    if EndsWithSlash(fullKey) then Some(parts)
    else if parts == [] then None
    else Some(parts[..|parts| - 1])
  }

  /** A path that ends in a slash is a folder itself. */
  lemma FolderOfSlash(dir: string)
    ensures FolderParts(dir + "/") == Some(Components(dir))
  {
    ComponentsOfTrailingSlash(dir);
  }

  lemma LastSlashIs(p: string, i: nat)
    requires i <= |p| && SlashFree(p[i..]) && (i == 0 || p[i - 1] == '/')
    ensures AfterLastSlash(p) == i
  {
    var j := AfterLastSlash(p);
    NoSlashFrom(p, i, j);
    NoSlashFrom(p, j, i);
  }

  /** A slash before position j is not in a stretch without slashes. */
  lemma NoSlashFrom(p: string, i: nat, j: nat)
    requires i <= |p| && j <= |p| && SlashFree(p[i..]) && (j == 0 || p[j - 1] == '/')
    ensures j <= i
  {
    assert forall k :: i <= k < |p| ==> p[i..][k - i] == p[k];
  }

  lemma {:induction false} SlashesStripped(dir: string, slashes: string)
    requires AllSlashes(slashes) && !EndsWithSlash(dir)
    ensures StripSlashes(dir + slashes) == dir
  {
    if slashes == "" {
      assert dir + slashes == dir;
    } else {
      assert (dir + slashes)[..|dir + slashes| - 1] == dir + slashes[..|slashes| - 1];
      SlashesStripped(dir, slashes[..|slashes| - 1]);
    }
  }

  /** os.path.dirname: what is before the last slashes, the slashes alone if nothing is, and nothing without a
      slash. */
  lemma DirnameIs(dir: string, slashes: string, name: string)
    requires !EndsWithSlash(dir) && SlashFree(name) && AllSlashes(slashes) && slashes != ""
    ensures Dirname(dir + slashes + name) == if dir == "" then slashes else dir
    ensures Dirname(name) == ""
  {
    var head := dir + slashes;
    var p := head + name;
    assert p[|head|..] == name && p[..|head|] == head && p[|head| - 1] == slashes[|slashes| - 1];
    LastSlashIs(p, |head|);
    LastSlashIs(name, 0);
    if dir == "" {
      assert head == slashes;
    } else {
      assert head[|dir| - 1] == dir[|dir| - 1] && !AllSlashes(head);
      SlashesStripped(dir, slashes);
    }
  }

  lemma FolderPartsFails(fullKey: string)
    ensures FolderParts(fullKey).None? <==> fullKey == ""
  {
    if fullKey == "" {
      ComponentsOfNothing();
    } else if !EndsWithSlash(fullKey) {
      DirnameDropsLast(fullKey);
    }
  }

  /** The directory the worker registers for a key. */
  function DirectoryOf(bucket: string, key: string): string {
    if Dirname(key) == "" then bucket else bucket + "/" + Dirname(key)
  }

  function TargetPath(bucket: string, key: string): string {
    "/" + bucket + "/" + key
  }

  lemma DirectoryComponents(bucket: string, key: string)
    ensures Components(DirectoryOf(bucket, key)) == Components(bucket) + Components(Dirname(key))
  {
    ComponentsJoin(bucket, Dirname(key));
    ComponentsOfNothing();
  }

  lemma TargetComponents(bucket: string, key: string)
    ensures Components(TargetPath(bucket, key)) == Components(bucket) + Components(key)
  {
    ComponentsJoin("/" + bucket, key);
    ComponentsJoin("", bucket);
    assert "" + "/" + bucket == "/" + bucket;
    ComponentsOfNothing();
  }

  /** The folders created for a key's directory are exactly the folders above its target path, with
      repeated and leading slashes in the key or the bucket included. */
  lemma DirectoryCoversTarget(bucket: string, key: string)
    requires key != "" && !EndsWithSlash(key)
    ensures FolderParts(DirectoryOf(bucket, key) + "/dummy_file") ==
            Some(Components(DirectoryOf(bucket, key))) == FolderParts(TargetPath(bucket, key))
    ensures TargetPath(bucket, key) == "/" + bucket + "/" + key
  {
    DummyFile(DirectoryOf(bucket, key));
    DirectoryComponents(bucket, key);
    TargetComponents(bucket, key);
    DirnameDropsLast(key);
    FrontOfJoined(Components(bucket), Components(key), Components(Dirname(key)));
  }

  lemma FrontOfJoined(p: seq<string>, all: seq<string>, front: seq<string>)
    requires all != [] && front == all[..|all| - 1]
    ensures (p + all)[..|p + all| - 1] == p + front
  {
  }

  lemma FileInFolder(dir: string, name: string)
    requires SlashFree(name) && name != ""
    ensures FolderParts(dir + "/" + name) == Some(Components(dir))
  {
    ComponentsOfName(name);
    ComponentsJoin(dir, name);
    assert (Components(dir) + [name])[..|Components(dir)|] == Components(dir);
  }

  lemma DummyFile(dir: string)
    ensures FolderParts(dir + "/dummy_file") == Some(Components(dir))
  {
    FileInFolder(dir, "dummy_file");
    assert dir + "/" + "dummy_file" == dir + "/dummy_file";
  }
}
