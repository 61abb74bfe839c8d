/** Listing a bucket: the continuation loop with its cap, the stable sort by lower-cased name, and the
    pages the browser cuts from the result. */
module S3Listing {
  import opened Prelude
  import opened Paths
  import opened Text

  type Token = string

  datatype Object = Object(key: string, size: nat)

  datatype Item = Item(name: string, key: string, isFolder: bool, size: nat)

  /** One answer of list_objects_v2; `next` is the continuation token of a truncated page. */
  datatype Reply =
    | Page(prefixes: seq<string>, contents: seq<Object>, next: Option<Token>)
    | ClientError

  /** The bucket as the listing sees it: the answer to each token, None asking for the first page. */
  type Server = Option<Token> -> Reply

  datatype Listing = Listing(items: seq<Item>, totalCount: nat, isTruncated: bool)

  // ----- entries -----

  function Last(pieces: seq<string>): string
    requires pieces != []
  {
    pieces[|pieces| - 1]
  }

  function FolderItem(prefix: string): Item {
    Item(Last(Split(StripSlashes(prefix))), prefix, true, 0)
  }

  function FileItem(o: Object): Item {
    Item(Last(Split(o.key)), o.key, false, o.size)
  }

  function Folders(prefixes: seq<string>): (items: seq<Item>)
    ensures |items| == |prefixes|
  {
    if prefixes == [] then [] else Folders(prefixes[..|prefixes| - 1]) + [FolderItem(Last(prefixes))]
  }

  /** The objects of a page but for the marker of the prefix itself. */
  function Files(contents: seq<Object>, prefix: string): seq<Item> {
    if contents == [] then []
    else
      var o := contents[|contents| - 1];
      Files(contents[..|contents| - 1], prefix) + (if o.key == prefix then [] else [FileItem(o)])
  }

  /** In a delimited listing an entry is a prefix and one name, and that name is what is shown. */
  lemma EntryNames(prefix: string, name: string, size: nat)
    requires (prefix == "" || EndsWithSlash(prefix)) && SlashFree(name) && name != ""
    ensures FileItem(Object(prefix + name, size)) == Item(name, prefix + name, false, size)
    ensures FolderItem(prefix + name + "/") == Item(name, prefix + name + "/", true, 0)
  {
    var key := prefix + name;
    NameIsLast(prefix, name);
    FolderKeyStrips(key);
  }

  lemma NameIsLast(prefix: string, name: string)
    requires (prefix == "" || EndsWithSlash(prefix)) && SlashFree(name) && name != ""
    ensures Last(Split(prefix + name)) == name && !EndsWithSlash(prefix + name)
  {
    SplitSlashFree(name);
    assert (prefix + name)[|prefix + name| - 1] == name[|name| - 1];
    if prefix == "" {
      assert prefix + name == name;
    } else {
      LastOfJoined(prefix[..|prefix| - 1], name);
      assert prefix == prefix[..|prefix| - 1] + "/";
    }
  }

  lemma LastOfJoined(p: string, name: string)
    requires Split(name) == [name]
    ensures Last(Split(p + "/" + name)) == name
  {
    SplitJoin(p, name);
    assert (Split(p) + [name])[|Split(p)|] == name;
  }

  lemma FolderKeyStrips(key: string)
    requires !EndsWithSlash(key)
    ensures StripSlashes(key + "/") == key
  {
    assert (key + "/")[..|key|] == key;
    assert StripSlashes(key) == key;
  }

  function AllFolders(pages: seq<Reply>): seq<Item> {
    if pages == [] then []
    else
      var p := pages[|pages| - 1];
      AllFolders(pages[..|pages| - 1]) + (if p.Page? then Folders(p.prefixes) else [])
  }

  function AllFiles(pages: seq<Reply>, prefix: string): seq<Item> {
    if pages == [] then []
    else
      var p := pages[|pages| - 1];
      AllFiles(pages[..|pages| - 1], prefix) + (if p.Page? then Files(p.contents, prefix) else [])
  }

  function Found(pages: seq<Reply>, prefix: string): nat {
    |AllFolders(pages)| + |AllFiles(pages, prefix)|
  }

  /** An object is listed unless it is the marker of the prefix itself. */
  lemma OneMoreFile(contents: seq<Object>, o: Object, prefix: string)
    ensures Files(contents + [o], prefix) ==
            Files(contents, prefix)
            + (if o.key == prefix then [] else [Item(Last(Split(o.key)), o.key, false, o.size)])
  {
    assert (contents + [o])[..|contents|] == contents;
  }

  // ----- sorting -----

  /** str.lower, of which only that it maps strings to strings is used. */
  type Lower = string -> string

  predicate Ascending(items: seq<Item>, lower: Lower) {
    forall i, j :: 0 <= i <= j < |items| ==> Leq(lower(items[i].name), lower(items[j].name))
  }

  /** The items that sort as `key`, in the order they have. */
  function Ties(items: seq<Item>, lower: Lower, key: string): seq<Item> {
    if items == [] then []
    else (if lower(items[0].name) == key then [items[0]] else []) + Ties(items[1..], lower, key)
  }

  /** A stable sort: ascending, and every tie keeps its members and their order. */
  ghost predicate IsStableSort(items: seq<Item>, sorted: seq<Item>, lower: Lower) {
    && |sorted| == |items| && Ascending(sorted, lower)
    && forall key :: Ties(sorted, lower, key) == Ties(items, lower, key)
  }

  function Insert(x: Item, items: seq<Item>, lower: Lower): seq<Item> {
    if items == [] || Leq(lower(x.name), lower(items[0].name)) then [x] + items
    else [items[0]] + Insert(x, items[1..], lower)
  }

  /** list.sort(key=lambda x: x.name.lower()) */
  function Sort(items: seq<Item>, lower: Lower): seq<Item> {
    if items == [] then [] else Insert(items[0], Sort(items[1..], lower), lower)
  }

  lemma {:induction false} InsertTies(x: Item, items: seq<Item>, lower: Lower, key: string)
    ensures Ties(Insert(x, items, lower), lower, key) == Ties([x] + items, lower, key)
  {
    if items != [] && !Leq(lower(x.name), lower(items[0].name)) {
      LeqTotal(lower(x.name), lower(x.name));
      var rest := Insert(x, items[1..], lower);
      assert ([items[0]] + rest)[1..] == rest;
      InsertTies(x, items[1..], lower, key);
      assert ([x] + items[1..])[1..] == items[1..] && ([x] + items)[1..] == items;
    }
  }

  lemma {:induction false} InsertKeeps(x: Item, items: seq<Item>, lower: Lower)
    ensures multiset(Insert(x, items, lower)) == multiset(items) + multiset{x}
  {
    if items != [] && !Leq(lower(x.name), lower(items[0].name)) {
      InsertKeeps(x, items[1..], lower);
      assert items == [items[0]] + items[1..];
    }
  }

  lemma {:induction false} InsertAscends(x: Item, items: seq<Item>, lower: Lower)
    requires Ascending(items, lower)
    ensures Ascending(Insert(x, items, lower), lower)
  {
    if items == [] {
      LeqTotal(lower(x.name), lower(x.name));
    } else if Leq(lower(x.name), lower(items[0].name)) {
      LeqTotal(lower(x.name), lower(x.name));
      forall i | 0 <= i < |items| ensures Leq(lower(x.name), lower(items[i].name)) {
        LeqTransitive(lower(x.name), lower(items[0].name), lower(items[i].name));
      }
    } else {
      var rest := Insert(x, items[1..], lower);
      InsertAscends(x, items[1..], lower);
      InsertKeeps(x, items[1..], lower);
      LeqTotal(lower(x.name), lower(items[0].name));
      forall i | 0 <= i < |rest| ensures Leq(lower(items[0].name), lower(rest[i].name)) {
        assert rest[i] in multiset(rest);
      }
      LeqTotal(lower(items[0].name), lower(items[0].name));
    }
  }

  lemma {:induction false} SortIsStable(items: seq<Item>, lower: Lower)
    ensures IsStableSort(items, Sort(items, lower), lower)
    ensures multiset(Sort(items, lower)) == multiset(items)
  {
    if items != [] {
      var rest := Sort(items[1..], lower);
      SortIsStable(items[1..], lower);
      InsertAscends(items[0], rest, lower);
      InsertKeeps(items[0], rest, lower);
      forall key ensures Ties(Sort(items, lower), lower, key) == Ties(items, lower, key) {
        InsertTies(items[0], rest, lower, key);
        assert ([items[0]] + rest)[1..] == rest;
      }
      assert items == [items[0]] + items[1..];
      SameSize(Sort(items, lower), items);
    }
  }

  lemma SameSize<T>(a: seq<T>, b: seq<T>)
    requires multiset(a) == multiset(b)
    ensures |a| == |b|
  {
    assert |multiset(a)| == |a| && |multiset(b)| == |b|;
  }

  lemma {:induction false} TiesAreMembers(items: seq<Item>, lower: Lower, key: string)
    ensures forall x :: x in Ties(items, lower, key) ==> x in items && lower(x.name) == key
    ensures (exists x :: x in items && lower(x.name) == key) ==> Ties(items, lower, key) != []
  {
    if items != [] {
      TiesAreMembers(items[1..], lower, key);
    }
  }

  /** Being a stable sort leaves no freedom: there is one such list. */
  lemma {:induction false} StableSortIsUnique(a: seq<Item>, b: seq<Item>, lower: Lower)
    requires Ascending(a, lower) && IsStableSort(a, b, lower)
    ensures a == b
  {
    if a != [] {
      HeadsAgree(a, b, lower);
      assert a[0] == b[0];
      forall key ensures Ties(b[1..], lower, key) == Ties(a[1..], lower, key) {
        var head := if lower(a[0].name) == key then [a[0]] else [];
        assert Ties(b, lower, key) == Ties(a, lower, key);
        assert head + Ties(a[1..], lower, key) == head + Ties(b[1..], lower, key);
        assert Ties(a[1..], lower, key) == (head + Ties(a[1..], lower, key))[|head|..];
        assert Ties(b[1..], lower, key) == (head + Ties(b[1..], lower, key))[|head|..];
      }
      StableSortIsUnique(a[1..], b[1..], lower);
      assert a == [a[0]] + a[1..] && b == [b[0]] + b[1..];
    }
  }

  lemma HeadsAgree(a: seq<Item>, b: seq<Item>, lower: Lower)
    requires a != [] && Ascending(a, lower) && IsStableSort(a, b, lower)
    ensures b != [] && a[0] == b[0]
  {
    var key := lower(a[0].name);
    TiesAreMembers(a, lower, key);
    TiesAreMembers(b, lower, key);
    assert a[0] in a;
    var x := Ties(b, lower, key)[0];
    assert x in b && lower(x.name) == key;
    var key' := lower(b[0].name);
    TiesAreMembers(b, lower, key');
    TiesAreMembers(a, lower, key');
    assert b[0] in b;
    var y := Ties(a, lower, key')[0];
    assert y in a && lower(y.name) == key';
    LeqAntisymmetric(key, key');
    assert Ties(a, lower, key)[0] == a[0] && Ties(b, lower, key)[0] == b[0];
  }

  // ----- the loop -----

  /** The entries of one page. */
  function EntriesOf(r: Reply, prefix: string): nat
    requires r.Page?
  {
    |r.prefixes| + |Files(r.contents, prefix)|
  }

  /** Following the tokens from this one, with `found` entries so far, ends within `n` more pages: on the
      last page, on an error, or at the cap. */
  predicate Ends(server: Server, prefix: string, maxItems: int, found: nat, token: Option<Token>, n: nat)
    decreases n
  {
    var r := server(token);
    || r.ClientError? || r.next.None? || found + EntriesOf(r, prefix) >= maxItems
    || (n > 0 && Ends(server, prefix, maxItems, found + EntriesOf(r, prefix), r.next, n - 1))
  }

  /** A page that neither ends the walk nor fills the cap leaves less to follow. */
  lemma EndsLater(server: Server, prefix: string, maxItems: int, found: nat, token: Option<Token>, n: nat,
                  r: Reply, found': nat)
    requires Ends(server, prefix, maxItems, found, token, n)
    requires r == server(token) && r.Page? && r.next.Some?
    requires found' == found + EntriesOf(r, prefix) && found' < maxItems
    ensures n > 0 && Ends(server, prefix, maxItems, found', r.next, n - 1)
  {
  }

  /** The answers to one request after the other, each with the token of the page before. */
  predicate IsWalk(server: Server, pages: seq<Reply>) {
    && (pages != [] ==> pages[0] == server(None))
    && (forall i :: 0 <= i < |pages| - 1 ==>
          pages[i].Page? && pages[i].next.Some? && pages[i + 1] == server(pages[i].next))
  }

  /** A walk that went on only while fewer than `maxItems` entries were found. */
  ghost predicate Consumed(server: Server, prefix: string, maxItems: int, pages: seq<Reply>) {
    && IsWalk(server, pages) && pages != []
    && (|pages| > 1 ==> Found(pages[..|pages| - 1], prefix) < maxItems)
  }

  /** What the listing `l` promises about the pages it was made from. */
  ghost predicate IsListing(prefix: string, maxItems: int, lower: Lower, pages: seq<Reply>, l: Listing) {
    var n := |AllFolders(pages)|;
    && l.totalCount == |l.items| == Found(pages, prefix)
    && IsStableSort(AllFolders(pages), l.items[..n], lower)
    && IsStableSort(AllFiles(pages, prefix), l.items[n..], lower)
    && multiset(l.items) == multiset(AllFolders(pages)) + multiset(AllFiles(pages, prefix))
    && (l.isTruncated <==> l.totalCount >= maxItems)
  }

  /** The listing is made from the pages consumed: either the cap was reached on the last of them, and
      not before, or it is the last there is. Without a listing a request failed. */
  ghost predicate IsResult(
      server: Server, prefix: string, maxItems: int, lower: Lower, pages: seq<Reply>, r: Option<Listing>)
  {
    && Consumed(server, prefix, maxItems, pages)
    && var last := pages[|pages| - 1];
       match r
       case None => last.ClientError?
       case Some(l) =>
         && last.Page? && IsListing(prefix, maxItems, lower, pages, l)
         && (!l.isTruncated ==> last.next.None?)
  }

  lemma SortedListing(folders: seq<Item>, files: seq<Item>, lower: Lower)
    ensures var items := Sort(folders, lower) + Sort(files, lower);
            && |items| == |folders| + |files|
            && IsStableSort(folders, items[..|folders|], lower)
            && IsStableSort(files, items[|folders|..], lower)
            && multiset(items) == multiset(folders) + multiset(files)
  {
    SortIsStable(folders, lower);
    SortIsStable(files, lower);
    var items := Sort(folders, lower) + Sort(files, lower);
    assert items[..|folders|] == Sort(folders, lower) && items[|folders|..] == Sort(files, lower);
  }

  /** Before a request: the pages so far lead to this token, and they leave room. */
  ghost predicate Walking(server: Server, prefix: string, maxItems: int, pages: seq<Reply>, token: Option<Token>) {
    && IsWalk(server, pages) && LeadsTo(pages, token)
    && (pages != [] ==> Found(pages, prefix) < maxItems)
  }

  /** The token a walk over these pages goes on with. */
  predicate LeadsTo(pages: seq<Reply>, token: Option<Token>) {
    if pages == [] then token.None?
    else pages[|pages| - 1].Page? && pages[|pages| - 1].next == token && token.Some?
  }

  lemma WalkExtends(server: Server, pages: seq<Reply>, token: Option<Token>)
    requires IsWalk(server, pages) && LeadsTo(pages, token)
    ensures IsWalk(server, pages + [server(token)])
  {
    var pages' := pages + [server(token)];
    forall i | 0 <= i < |pages'| - 1
      ensures pages'[i].Page? && pages'[i].next.Some? && pages'[i + 1] == server(pages'[i].next)
    {
      assert pages'[i] == pages[i];
      if i < |pages| - 1 {
        assert pages'[i + 1] == pages[i + 1];
      } else {
        assert pages'[i + 1] == server(token);
      }
    }
  }

  lemma WalkGoesOn(server: Server, prefix: string, maxItems: int, pages: seq<Reply>, token: Option<Token>)
    requires Walking(server, prefix, maxItems, pages, token)
    ensures Consumed(server, prefix, maxItems, pages + [server(token)])
    ensures (pages + [server(token)])[|pages|] == server(token)
  {
    WalkExtends(server, pages, token);
    assert (pages + [server(token)])[..|pages|] == pages;
  }

  lemma PageAdds(pages: seq<Reply>, p: Reply, prefix: string)
    requires p.Page?
    ensures AllFolders(pages + [p]) == AllFolders(pages) + Folders(p.prefixes)
    ensures AllFiles(pages + [p], prefix) == AllFiles(pages, prefix) + Files(p.contents, prefix)
    ensures Found(pages + [p], prefix) == Found(pages, prefix) + EntriesOf(p, prefix)
  {
    assert (pages + [p])[..|pages|] == pages;
  }

  method AddFolders(folders: seq<Item>, prefixes: seq<string>) returns (r: seq<Item>)
    ensures r == folders + Folders(prefixes)
  {
    r := folders;
    for i := 0 to |prefixes|
      invariant r == folders + Folders(prefixes[..i])
    {
      assert prefixes[..i + 1][..i] == prefixes[..i];
      r := r + [FolderItem(prefixes[i])];
    }
    assert prefixes[..|prefixes|] == prefixes;
  }

  method AddFiles(files: seq<Item>, contents: seq<Object>, prefix: string) returns (r: seq<Item>)
    ensures r == files + Files(contents, prefix)
  {
    r := files;
    for i := 0 to |contents|
      invariant r == files + Files(contents[..i], prefix)
    {
      assert contents[..i + 1][..i] == contents[..i];
      if contents[i].key != prefix {
        r := r + [FileItem(contents[i])];
      }
    }
    assert contents[..|contents|] == contents;
  }

  /** Sorting what the pages brought makes the result. */
  lemma SortingMakesResult(server: Server, prefix: string, maxItems: int, lower: Lower, pages: seq<Reply>)
    requires Consumed(server, prefix, maxItems, pages) && pages[|pages| - 1].Page?
    requires Found(pages, prefix) < maxItems ==> pages[|pages| - 1].next.None?
    ensures var items := Sort(AllFolders(pages), lower) + Sort(AllFiles(pages, prefix), lower);
            IsResult(server, prefix, maxItems, lower, pages,
                     Some(Listing(items, |items|, Found(pages, prefix) >= maxItems)))
  {
    SortedListing(AllFolders(pages), AllFiles(pages, prefix), lower);
  }

  /** list_objects */
  method ListObjects(server: Server, prefix: string, maxItems: int, lower: Lower, ghost bound: nat)
    returns (r: Option<Listing>)
    requires Ends(server, prefix, maxItems, 0, None, bound)
    ensures exists pages :: IsResult(server, prefix, maxItems, lower, pages, r)
  {
    var folders, files := [], [];
    var token: Option<Token> := None;
    var isTruncated := false;
    ghost var pages: seq<Reply> := [];
    ghost var found: nat, left: nat := 0, bound;
    while true
      invariant Walking(server, prefix, maxItems, pages, token)
      invariant Ends(server, prefix, maxItems, found, token, left) && found == Found(pages, prefix)
      invariant folders == AllFolders(pages) && files == AllFiles(pages, prefix)
      invariant !isTruncated
      decreases left
    {
      var response := server(token);
      WalkGoesOn(server, prefix, maxItems, pages, token);
      ghost var before := pages;
      pages := pages + [response];
      if response.ClientError? {
        r := None;
        assert IsResult(server, prefix, maxItems, lower, pages, r);
        return;
      }
      PageAdds(before, response, prefix);
      folders := AddFolders(folders, response.prefixes);
      files := AddFiles(files, response.contents, prefix);
      if |folders| + |files| >= maxItems {
        isTruncated := true;
        break;
      }
      if response.next.None? {
        break;
      }
      ghost var more := |folders| + |files|;
      EndsLater(server, prefix, maxItems, found, token, left, response, more);
      token, found, left := response.next, more, left - 1;
    }
    SortingMakesResult(server, prefix, maxItems, lower, pages);
    var items := Sort(folders, lower) + Sort(files, lower);
    r := Some(Listing(items, |items|, isTruncated));
  }

  lemma {:induction false} FoundGrows(pages: seq<Reply>, prefix: string, n: nat)
    requires n <= |pages|
    ensures Found(pages[..n], prefix) <= Found(pages, prefix)
    decreases |pages|
  {
    if n == |pages| {
      assert pages[..n] == pages;
    } else {
      FoundGrows(pages[..|pages| - 1], prefix, n);
      assert pages[..|pages| - 1][..n] == pages[..n];
    }
  }

  lemma {:induction false} WalksAgree(server: Server, p: seq<Reply>, q: seq<Reply>, i: nat)
    requires IsWalk(server, p) && IsWalk(server, q) && i < |p| && i < |q|
    ensures p[i] == q[i]
    decreases i
  {
    if i > 0 {
      WalksAgree(server, p, q, i - 1);
    }
  }

  /** The beginning of a longer walk ends on a page that names the next, with room for more. */
  lemma BeginningGoesOn(server: Server, prefix: string, maxItems: int, p: seq<Reply>, q: seq<Reply>)
    requires IsWalk(server, p) && Consumed(server, prefix, maxItems, q) && 0 < |p| < |q|
    ensures p[|p| - 1].Page? && p[|p| - 1].next.Some? && Found(p, prefix) < maxItems
  {
    forall i | 0 <= i < |p| ensures p[i] == q[i] {
      WalksAgree(server, p, q, i);
    }
    var most := q[..|q| - 1];
    FoundGrows(most, prefix, |p|);
    assert most[..|p|] == p;
  }

  /** A walk that ended is not the beginning of another. */
  lemma NotShorter(server: Server, prefix: string, maxItems: int, lower: Lower,
                   p: seq<Reply>, r: Option<Listing>, q: seq<Reply>)
    requires IsResult(server, prefix, maxItems, lower, p, r) && Consumed(server, prefix, maxItems, q)
    ensures |p| >= |q|
  {
    if |p| < |q| {
      BeginningGoesOn(server, prefix, maxItems, p, q);
    }
  }

  lemma ListingIsUnique(prefix: string, maxItems: int, lower: Lower, pages: seq<Reply>, a: Listing, b: Listing)
    requires IsListing(prefix, maxItems, lower, pages, a) && IsListing(prefix, maxItems, lower, pages, b)
    ensures a == b
  {
    var n := |AllFolders(pages)|;
    StableSortIsUnique(a.items[..n], b.items[..n], lower);
    StableSortIsUnique(a.items[n..], b.items[n..], lower);
    assert a.items == a.items[..n] + a.items[n..] && b.items == b.items[..n] + b.items[n..];
  }

  /** The server, the prefix, the cap and the order leave one result, whatever the program that meets
      the contract. */
  lemma ResultIsUnique(server: Server, prefix: string, maxItems: int, lower: Lower,
                       p: seq<Reply>, r: Option<Listing>, q: seq<Reply>, s: Option<Listing>)
    requires IsResult(server, prefix, maxItems, lower, p, r)
    requires IsResult(server, prefix, maxItems, lower, q, s)
    ensures p == q && r == s
  {
    NotShorter(server, prefix, maxItems, lower, p, r, q);
    NotShorter(server, prefix, maxItems, lower, q, s, p);
    forall i | 0 <= i < |p| ensures p[i] == q[i] {
      WalksAgree(server, p, q, i);
    }
    assert p == q;
    if r.Some? && s.Some? {
      ListingIsUnique(prefix, maxItems, lower, p, r.value, s.value);
    }
  }

  // ----- list_all_objects -----

  /** The keys of a page that name objects and not folder markers. */
  function ObjectKeys(contents: seq<Object>): seq<string> {
    if contents == [] then []
    else
      var key := contents[|contents| - 1].key;
      ObjectKeys(contents[..|contents| - 1]) + (if EndsWithSlash(key) then [] else [key])
  }

  /** The pages in the order requested; None is a request that failed. */
  type Pages = seq<Option<seq<Object>>>

  predicate AllAnswered(pages: Pages) {
    forall i :: 0 <= i < |pages| ==> pages[i].Some?
  }

  function Contents(pages: Pages): seq<Object>
    requires AllAnswered(pages)
  {
    if pages == [] then [] else Contents(pages[..|pages| - 1]) + pages[|pages| - 1].value
  }

  lemma {:induction false} ObjectKeysAppend(a: seq<Object>, b: seq<Object>)
    ensures ObjectKeys(a + b) == ObjectKeys(a) + ObjectKeys(b)
  {
    if b == [] {
      assert a + b == a;
    } else {
      ObjectKeysAppend(a, b[..|b| - 1]);
      assert (a + b)[..|a + b| - 1] == a + b[..|b| - 1];
    }
  }

  /** Every key counts but those that end in a slash. */
  lemma OneMoreKey(contents: seq<Object>, o: Object)
    ensures ObjectKeys(contents + [o]) ==
            ObjectKeys(contents) + (if o.key != "" && o.key[|o.key| - 1] == '/' then [] else [o.key])
  {
    assert (contents + [o])[..|contents|] == contents;
  }

  lemma {:induction false} ObjectKeysAreObjects(contents: seq<Object>)
    ensures forall k :: k in ObjectKeys(contents) ==> !EndsWithSlash(k)
  {
    if contents != [] {
      ObjectKeysAreObjects(contents[..|contents| - 1]);
    }
  }

  method AddKeys(keys: seq<string>, contents: seq<Object>) returns (r: seq<string>)
    ensures r == keys + ObjectKeys(contents)
  {
    r := keys;
    for i := 0 to |contents|
      invariant r == keys + ObjectKeys(contents[..i])
    {
      assert contents[..i + 1][..i] == contents[..i];
      if !EndsWithSlash(contents[i].key) {
        r := r + [contents[i].key];
      }
    }
    assert contents[..|contents|] == contents;
  }

  /** All keys of all pages in order, without the folder markers, unless a request fails. */
  method ListAllObjects(pages: Pages) returns (r: Option<seq<string>>)
    ensures r.Some? <==> AllAnswered(pages)
    ensures r.Some? ==> r.value == ObjectKeys(Contents(pages))
    ensures r.Some? ==> forall k :: k in r.value ==> !EndsWithSlash(k)
  {
    var keys := [];
    for p := 0 to |pages|
      invariant AllAnswered(pages[..p]) && keys == ObjectKeys(Contents(pages[..p]))
    {
      if pages[p].None? {
        return None;
      }
      assert pages[..p + 1][..p] == pages[..p];
      ObjectKeysAppend(Contents(pages[..p]), pages[p].value);
      keys := AddKeys(keys, pages[p].value);
    }
    assert pages[..|pages|] == pages;
    ObjectKeysAreObjects(Contents(pages));
    r := Some(keys);
  }

  // ----- the pages of the browser -----

  datatype View = View(items: seq<Item>, page: int, pageSize: int, totalPages: int)

  /** max(low, min(x, high)) */
  function Clamp(low: int, x: int, high: int): int {
    var m := if x < high then x else high;
    if m < low then low else m
  }

  /** ceil(n / d) */
  function Ceil(n: nat, d: nat): nat
    requires d > 0
  {
    (n + d - 1) / d
  }

  /** A Python slice, whose bounds may lie beyond the end. */
  function Slice<T>(s: seq<T>, start: nat, end: nat): seq<T>
    requires start <= end
  {
    if |s| <= start then [] else if |s| < end then s[start..] else s[start..end]
  }

  function Browse(items: seq<Item>, page: int, pageSize: int): View {
    var size := Clamp(10, pageSize, 200);
    var total := if Ceil(|items|, size) < 1 then 1 else Ceil(|items|, size);
    var at := Clamp(1, page, total);
    View(Slice(items, (at - 1) * size, (at - 1) * size + size), at, size, total)
  }

  /** Pages 1 to n, joined. */
  function Joined(items: seq<Item>, pageSize: int, n: nat): seq<Item> {
    if n == 0 then [] else Joined(items, pageSize, n - 1) + Browse(items, n, pageSize).items
  }

  lemma CeilBounds(n: nat, d: nat)
    requires d > 0
    ensures Ceil(n, d) * d >= n
    ensures n > 0 ==> (Ceil(n, d) - 1) * d < n
    ensures n == 0 ==> Ceil(n, d) == 0
  {
    var q, m := Ceil(n, d), n + d - 1;
    assert m == q * d + m % d;
    assert (q - 1) * d == q * d - d;
  }

  /** The first `end` elements, or all of them if there are fewer. */
  function Upto<T>(s: seq<T>, end: nat): seq<T> {
    if end <= |s| then s[..end] else s
  }

  lemma SliceExtends<T>(s: seq<T>, start: nat, end: nat)
    requires start <= end
    ensures Upto(s, start) + Slice(s, start, end) == Upto(s, end)
  {
  }

  lemma ProductGrows(a: int, b: int, c: nat)
    requires a <= b
    ensures a * c <= b * c
  {
  }

  lemma OneLess(a: int, c: int)
    ensures (a - 1) * c + c == a * c
  {
  }

  lemma BrowseAt(items: seq<Item>, pageSize: int, n: nat)
    requires 1 <= n <= Browse(items, 1, pageSize).totalPages
    ensures var size := Clamp(10, pageSize, 200);
            0 <= (n - 1) * size <= n * size
            && Browse(items, n, pageSize).items == Slice(items, (n - 1) * size, n * size)
  {
    var size := Clamp(10, pageSize, 200);
    OneLess(n, size);
    ProductGrows(0, n - 1, size);
    PageAt(items, pageSize, n, (n - 1) * size, size);
  }

  lemma PageAt(items: seq<Item>, pageSize: int, n: nat, start: nat, size: nat)
    requires 1 <= n <= Browse(items, 1, pageSize).totalPages
    requires size == Clamp(10, pageSize, 200) && start == (n - 1) * size
    ensures Browse(items, n, pageSize).items == Slice(items, start, start + size)
  {
  }

  lemma {:induction false} JoinedIsPrefix(items: seq<Item>, pageSize: int, n: nat)
    requires n <= Browse(items, 1, pageSize).totalPages
    ensures 0 <= n * Clamp(10, pageSize, 200)
    ensures Joined(items, pageSize, n) == Upto(items, n * Clamp(10, pageSize, 200))
  {
    var size := Clamp(10, pageSize, 200);
    if n > 0 {
      var start, end := (n - 1) * size, n * size;
      JoinedIsPrefix(items, pageSize, n - 1);
      BrowseAt(items, pageSize, n);
      SliceExtends(items, start, end);
    }
  }

  /** Whatever page size is asked for, the pages 1 to totalPages joined are the whole listing. */
  lemma PagesCover(items: seq<Item>, pageSize: int)
    ensures Joined(items, pageSize, Browse(items, 1, pageSize).totalPages) == items
  {
    var v := Browse(items, 1, pageSize);
    CeilBounds(|items|, v.pageSize);
    JoinedIsPrefix(items, pageSize, v.totalPages);
  }

  lemma StartOfPage(n: nat, size: nat, page: nat)
    requires 0 < n && 0 < size && 1 <= page <= Ceil(n, size)
    ensures (page - 1) * size < n
    ensures page < Ceil(n, size) ==> (page - 1) * size + size <= n
  {
    var last := Ceil(n, size);
    CeilBounds(n, size);
    ProductGrows(page - 1, last - 1, size);
    if page < last {
      ProductGrows(page, last - 1, size);
      OneLess(page, size);
    }
  }

  lemma SliceSize<T>(s: seq<T>, start: nat, size: nat)
    requires start < |s| && 0 < size
    ensures 0 < |Slice(s, start, start + size)| <= size
    ensures start + size <= |s| ==> |Slice(s, start, start + size)| == size
  {
  }

  lemma PageSize(items: seq<Item>, size: nat, at: nat)
    requires items != [] && 0 < size && 1 <= at <= Ceil(|items|, size)
    ensures 0 <= (at - 1) * size
    ensures var shown := Slice(items, (at - 1) * size, (at - 1) * size + size);
            0 < |shown| <= size && (at < Ceil(|items|, size) ==> |shown| == size)
  {
    StartOfPage(|items|, size, at);
    SliceSize(items, (at - 1) * size, size);
  }

  /** Any page asked for is one of them; all but the last are full, and none is empty unless the
      listing is. */
  lemma PagesAreFull(items: seq<Item>, page: int, pageSize: int)
    ensures var v := Browse(items, page, pageSize);
            && v.pageSize == (if pageSize < 10 then 10 else if pageSize > 200 then 200 else pageSize)
            && v.page == (if page < 1 then 1 else if page > v.totalPages then v.totalPages else page)
            && 1 <= v.page
            && v == Browse(items, v.page, pageSize)
            && (v.page < v.totalPages ==> |v.items| == v.pageSize)
            && (items != [] ==> 0 < |v.items| <= v.pageSize)
            && (items == [] ==> v.totalPages == 1)
  {
    var size := Clamp(10, pageSize, 200);
    CeilBounds(|items|, size);
    if items != [] {
      PageSize(items, size, Clamp(1, page, Ceil(|items|, size)));
    }
  }
}
