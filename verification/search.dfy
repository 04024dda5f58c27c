/**
 * components/dashboard/search.tsx: the command palette. A query of at least
 * two characters that is not blank looks up the caller's bookmarks (ten at
 * most), folders and tags (five each) and lists them in that order; picking
 * a result routes to its page; Cmd/Ctrl-K opens and closes the palette.
 */
module Search {
  import opened Wrappers
  import opened Arithmetic
  import opened Strings
  import opened Store
  import opened Api
  import opened QueryHooks

  datatype Kind = BookmarkHit | FolderHit | TagHit

  datatype SearchResult = SearchResult(id: string, title: string, kind: Kind, url: Option<string>, description: Option<string>)

  const BookmarkLimit: nat := 10
  const FolderLimit: nat := 5
  const TagLimit: nat := 5

  /**
   * `!query.trim() || query.length < 2` clears the results; the length is of
   * the untrimmed query, in UTF-16 code units.
   */
  function ShouldSearch(query: string): (b: bool)
    ensures (forall i :: 0 <= i < |query| ==> IsSpace(query[i])) ==> !b
    ensures b ==> |query| >= 1
  {
    var ts := TrimStart(query);
    assert Trim(query) != [] ==> ts != [] && query[|query| - |ts|] == ts[0];
    !(Trim(query) == [] || Utf16Length(query) < 2)
  }

  /** One character outside the Basic Multilingual Plane is two code units: enough to search. */
  lemma SingleAstralCharIsSearched(c: char)
    requires c as int >= 0x10000
    ensures ShouldSearch([c]) && SearchQueryEnabled([c])
  {
    assert Utf16Length([c]) == 2 by {
      assert [c][1..] == [];
    }
    assert !IsSpace(c);
  }

  /**
   * The palette is stricter than the bookmark search hook: whatever it
   * searches the hook would too, but a blank query of two or more spaces
   * enables the hook and not the palette.
   */
  lemma PaletteStricterThanHook(query: string)
    ensures ShouldSearch(query) ==> SearchQueryEnabled(query)
    ensures |query| >= 2 && (forall i :: 0 <= i < |query| ==> IsSpace(query[i])) ==>
      SearchQueryEnabled(query) && !ShouldSearch(query)
  {
    if forall i :: 0 <= i < |query| ==> IsSpace(query[i]) {
      assert TrimStart(query) == [];
    }
  }

  /** `.limit(n)`: the first `n` rows, in the order the table returns them. */
  function Take<T>(s: seq<T>, n: nat): (r: seq<T>)
    ensures |r| <= n && |r| <= |s|
    ensures r == s[..|r|]
    ensures |s| >= n ==> |r| == n
  {
    if |s| <= n then s else s[..n]
  }

  /** `.ilike("name", "%q%").eq("user_id", user)`. */
  function FolderHitFilter(user: string, query: string): Folder -> bool {
    (f: Folder) => f.userId == user && ContainsCI(f.name, query)
  }

  function TagHitFilter(user: string, query: string): Tag -> bool {
    (t: Tag) => t.userId == user && ContainsCI(t.name, query)
  }

  /** A bookmark row as a result; `description || undefined` drops an empty description. */
  function BookmarkResult(b: Bookmark): SearchResult {
    SearchResult(b.id, b.title, BookmarkHit, Some(b.url), OrNull(b.description))
  }

  function FolderResult(f: Folder): SearchResult {
    SearchResult(f.id, f.name, FolderHit, None, None)
  }

  function TagResult(t: Tag): SearchResult {
    SearchResult(t.id, t.name, TagHit, None, None)
  }

  function Rank(k: Kind): nat {
    match k
    case BookmarkHit => 0
    case FolderHit => 1
    case TagHit => 2
  }

  /**
   * The caller's matching bookmarks as results: the first ten matches in
   * table order, or all of them when there are fewer.
   */
  function BookmarkResults(bookmarks: seq<Bookmark>, user: string, query: string): (r: seq<SearchResult>)
    ensures |r| == Min(Count(bookmarks, SearchFilter(user, query)), BookmarkLimit)
    ensures forall i :: 0 <= i < |r| ==> r[i] == BookmarkResult(Filter(bookmarks, SearchFilter(user, query))[i])
    ensures forall i :: 0 <= i < |r| ==>
      r[i].kind == BookmarkHit && exists b :: b in bookmarks && SearchFilter(user, query)(b) && r[i] == BookmarkResult(b)
  {
    var all := Filter(bookmarks, SearchFilter(user, query));
    var bs := Take(all, BookmarkLimit);
    var r := seq(|bs|, i requires 0 <= i < |bs| => BookmarkResult(bs[i]));
    forall i | 0 <= i < |r|
      ensures exists b :: b in bookmarks && SearchFilter(user, query)(b) && r[i] == BookmarkResult(b)
    {
      assert bs[i] == all[i];
      assert all[i] in multiset(bookmarks) by { assert all[i] in multiset(all); }
    }
    r
  }

  /** The caller's folders whose name contains the query: the first five in table order, or all of them. */
  function FolderResults(folders: seq<Folder>, user: string, query: string): (r: seq<SearchResult>)
    ensures |r| == Min(Count(folders, FolderHitFilter(user, query)), FolderLimit)
    ensures forall i :: 0 <= i < |r| ==> r[i] == FolderResult(Filter(folders, FolderHitFilter(user, query))[i])
    ensures forall i :: 0 <= i < |r| ==>
      r[i].kind == FolderHit && exists f :: f in folders && f.userId == user && ContainsCI(f.name, query) && r[i] == FolderResult(f)
  {
    var all := Filter(folders, FolderHitFilter(user, query));
    var fs := Take(all, FolderLimit);
    var r := seq(|fs|, i requires 0 <= i < |fs| => FolderResult(fs[i]));
    forall i | 0 <= i < |r|
      ensures exists f :: f in folders && f.userId == user && ContainsCI(f.name, query) && r[i] == FolderResult(f)
    {
      assert fs[i] == all[i];
      assert all[i] in multiset(folders) by { assert all[i] in multiset(all); }
    }
    r
  }

  /** The caller's tags whose name contains the query: the first five in table order, or all of them. */
  function TagResults(tags: seq<Tag>, user: string, query: string): (r: seq<SearchResult>)
    ensures |r| == Min(Count(tags, TagHitFilter(user, query)), TagLimit)
    ensures forall i :: 0 <= i < |r| ==> r[i] == TagResult(Filter(tags, TagHitFilter(user, query))[i])
    ensures forall i :: 0 <= i < |r| ==>
      r[i].kind == TagHit && exists t :: t in tags && t.userId == user && ContainsCI(t.name, query) && r[i] == TagResult(t)
  {
    var all := Filter(tags, TagHitFilter(user, query));
    var ts := Take(all, TagLimit);
    var r := seq(|ts|, i requires 0 <= i < |ts| => TagResult(ts[i]));
    forall i | 0 <= i < |r|
      ensures exists t :: t in tags && t.userId == user && ContainsCI(t.name, query) && r[i] == TagResult(t)
    {
      assert ts[i] == all[i];
      assert all[i] in multiset(tags) by { assert all[i] in multiset(all); }
    }
    r
  }

  /** With no more matches than the limit, every match of the caller is listed. */
  lemma FewMatchesAllListed(bookmarks: seq<Bookmark>, folders: seq<Folder>, tags: seq<Tag>, user: string, query: string)
    ensures Count(bookmarks, SearchFilter(user, query)) <= BookmarkLimit ==>
      forall b :: b in bookmarks && SearchFilter(user, query)(b) ==> BookmarkResult(b) in BookmarkResults(bookmarks, user, query)
    ensures Count(folders, FolderHitFilter(user, query)) <= FolderLimit ==>
      forall f :: f in folders && FolderHitFilter(user, query)(f) ==> FolderResult(f) in FolderResults(folders, user, query)
    ensures Count(tags, TagHitFilter(user, query)) <= TagLimit ==>
      forall t :: t in tags && TagHitFilter(user, query)(t) ==> TagResult(t) in TagResults(tags, user, query)
  {
    forall b | b in bookmarks && SearchFilter(user, query)(b) && Count(bookmarks, SearchFilter(user, query)) <= BookmarkLimit
      ensures BookmarkResult(b) in BookmarkResults(bookmarks, user, query)
    {
      var all := Filter(bookmarks, SearchFilter(user, query));
      var i :| 0 <= i < |all| && all[i] == b;
      assert BookmarkResults(bookmarks, user, query)[i] == BookmarkResult(b);
    }
    forall f | f in folders && FolderHitFilter(user, query)(f) && Count(folders, FolderHitFilter(user, query)) <= FolderLimit
      ensures FolderResult(f) in FolderResults(folders, user, query)
    {
      var all := Filter(folders, FolderHitFilter(user, query));
      var i :| 0 <= i < |all| && all[i] == f;
      assert FolderResults(folders, user, query)[i] == FolderResult(f);
    }
    forall t | t in tags && TagHitFilter(user, query)(t) && Count(tags, TagHitFilter(user, query)) <= TagLimit
      ensures TagResult(t) in TagResults(tags, user, query)
    {
      var all := Filter(tags, TagHitFilter(user, query));
      var i :| 0 <= i < |all| && all[i] == t;
      assert TagResults(tags, user, query)[i] == TagResult(t);
    }
  }

  /** The rows a palette query hands on: none when it failed (`data || []`). */
  function Answered<T>(rows: seq<T>, failed: bool): seq<T> {
    if failed then [] else rows
  }

  /** A section whose query failed is shown empty, and the other sections are unaffected. */
  lemma FailedQueryEmptiesItsSection(bookmarks: seq<Bookmark>, folders: seq<Folder>, tags: seq<Tag>, user: string,
                                     query: string, failed: set<Kind>)
    ensures var r := Assemble(Answered(bookmarks, BookmarkHit in failed), Answered(folders, FolderHit in failed),
                              Answered(tags, TagHit in failed), user, query);
      && Filter(r, KindIs(BookmarkHit)) == (if BookmarkHit in failed then [] else BookmarkResults(bookmarks, user, query))
      && Filter(r, KindIs(FolderHit)) == (if FolderHit in failed then [] else FolderResults(folders, user, query))
      && Filter(r, KindIs(TagHit)) == (if TagHit in failed then [] else TagResults(tags, user, query))
  {
    var nb: seq<Bookmark>, nf: seq<Folder>, nt: seq<Tag> := [], [], [];
    assert Count(nb, SearchFilter(user, query)) == 0;
    assert Count(nf, FolderHitFilter(user, query)) == 0;
    assert Count(nt, TagHitFilter(user, query)) == 0;
  }

  function KindIs(k: Kind): SearchResult -> bool {
    (x: SearchResult) => x.kind == k
  }

  /**
   * The spread of the three result lists: bookmarks first, then folders,
   * then tags. Each section is exactly that kind's result list.
   */
  function Assemble(bookmarks: seq<Bookmark>, folders: seq<Folder>, tags: seq<Tag>, user: string, query: string)
    : (r: seq<SearchResult>)
    ensures |r| <= BookmarkLimit + FolderLimit + TagLimit
    ensures forall i, j :: 0 <= i < j < |r| ==> Rank(r[i].kind) <= Rank(r[j].kind)
    ensures Filter(r, KindIs(BookmarkHit)) == BookmarkResults(bookmarks, user, query)
    ensures Filter(r, KindIs(FolderHit)) == FolderResults(folders, user, query)
    ensures Filter(r, KindIs(TagHit)) == TagResults(tags, user, query)
  {
    var rb := BookmarkResults(bookmarks, user, query);
    var rf := FolderResults(folders, user, query);
    var rt := TagResults(tags, user, query);
    RanksAscend(rb, rf, rt);
    Sections(rb, rf, rt);
    rb + rf + rt
  }

  /** Filtering three lists by a kind filters each list in turn. */
  lemma SectionOf(rb: seq<SearchResult>, rf: seq<SearchResult>, rt: seq<SearchResult>, k: Kind)
    ensures Filter(rb + rf + rt, KindIs(k)) == Filter(rb, KindIs(k)) + Filter(rf, KindIs(k)) + Filter(rt, KindIs(k))
  {
    FilterAppend(rb + rf, rt, KindIs(k));
    FilterAppend(rb, rf, KindIs(k));
  }

  /** A list of one kind survives a filter for that kind whole and any other not at all. */
  lemma OneKind(s: seq<SearchResult>, k: Kind, j: Kind)
    requires forall i :: 0 <= i < |s| ==> s[i].kind == k
    ensures Filter(s, KindIs(j)) == if j == k then s else []
  {
    if j == k {
      FilterAll(s, KindIs(j));
    } else {
      FilterNone(s, KindIs(j));
    }
  }

  /** Picking one kind out of the three concatenated lists gives back that kind's list. */
  lemma Sections(rb: seq<SearchResult>, rf: seq<SearchResult>, rt: seq<SearchResult>)
    requires forall i :: 0 <= i < |rb| ==> rb[i].kind == BookmarkHit
    requires forall i :: 0 <= i < |rf| ==> rf[i].kind == FolderHit
    requires forall i :: 0 <= i < |rt| ==> rt[i].kind == TagHit
    ensures Filter(rb + rf + rt, KindIs(BookmarkHit)) == rb
    ensures Filter(rb + rf + rt, KindIs(FolderHit)) == rf
    ensures Filter(rb + rf + rt, KindIs(TagHit)) == rt
  {
    SectionOf(rb, rf, rt, BookmarkHit);
    OneKind(rb, BookmarkHit, BookmarkHit);
    OneKind(rf, FolderHit, BookmarkHit);
    OneKind(rt, TagHit, BookmarkHit);
    SectionOf(rb, rf, rt, FolderHit);
    OneKind(rb, BookmarkHit, FolderHit);
    OneKind(rf, FolderHit, FolderHit);
    OneKind(rt, TagHit, FolderHit);
    SectionOf(rb, rf, rt, TagHit);
    OneKind(rb, BookmarkHit, TagHit);
    OneKind(rf, FolderHit, TagHit);
    OneKind(rt, TagHit, TagHit);
    assert rb + [] + [] == rb;
    assert [] + rf + [] == rf;
    assert [] + [] + rt == rt;
  }

  lemma RanksAscend(rb: seq<SearchResult>, rf: seq<SearchResult>, rt: seq<SearchResult>)
    requires forall i :: 0 <= i < |rb| ==> rb[i].kind == BookmarkHit
    requires forall i :: 0 <= i < |rf| ==> rf[i].kind == FolderHit
    requires forall i :: 0 <= i < |rt| ==> rt[i].kind == TagHit
    ensures forall i, j :: 0 <= i < j < |rb + rf + rt| ==> Rank((rb + rf + rt)[i].kind) <= Rank((rb + rf + rt)[j].kind)
  {
    var r := rb + rf + rt;
    forall i | 0 <= i < |r|
      ensures Rank(r[i].kind) == if i < |rb| then 0 else if i < |rb| + |rf| then 1 else 2
    {
      if i < |rb| {
        assert r[i] == rb[i];
      } else if i < |rb| + |rf| {
        assert r[i] == rf[i - |rb|];
      } else {
        assert r[i] == rt[i - |rb| - |rf|];
      }
    }
  }

  /** Every assembled result stands for a row of the caller that matches the query. */
  lemma AssembledResultsMatch(bookmarks: seq<Bookmark>, folders: seq<Folder>, tags: seq<Tag>, user: string,
                              query: string, x: SearchResult)
    requires x in Assemble(bookmarks, folders, tags, user, query)
    ensures x.kind == BookmarkHit ==> exists b :: b in bookmarks && SearchFilter(user, query)(b) && x == BookmarkResult(b)
    ensures x.kind == FolderHit ==>
      exists f :: f in folders && f.userId == user && ContainsCI(f.name, query) && x == FolderResult(f)
    ensures x.kind == TagHit ==> exists t :: t in tags && t.userId == user && ContainsCI(t.name, query) && x == TagResult(t)
  {
    var rb := BookmarkResults(bookmarks, user, query);
    var rf := FolderResults(folders, user, query);
    var rt := TagResults(tags, user, query);
    if x in rb {
      var i :| 0 <= i < |rb| && rb[i] == x;
    } else if x in rf {
      var i :| 0 <= i < |rf| && rf[i] == x;
    } else {
      assert x in rt;
      var i :| 0 <= i < |rt| && rt[i] == x;
    }
  }

  function Section(k: Kind): string {
    match k
    case BookmarkHit => "bookmarks"
    case FolderHit => "folders"
    case TagHit => "tags"
  }

  /** `handleSelect`'s target page for a result. */
  function Route(r: SearchResult): (path: string)
    ensures |path| == 12 + |Section(r.kind)| + |r.id|
    ensures path[..11] == "/dashboard/" && path[11] == Section(r.kind)[0]
    ensures path[|path| - |r.id|..] == r.id
  {
    var path := "/dashboard/" + Section(r.kind) + "/" + r.id;
    assert path[|path| - |r.id|..] == r.id;
    path
  }

  /** Different results route to different pages: the kind and the id can be read back. */
  lemma RouteInjective(a: SearchResult, b: SearchResult)
    requires Route(a) == Route(b)
    ensures a.kind == b.kind && a.id == b.id
  {
    assert Section(a.kind)[0] == Section(b.kind)[0];
    assert Section(BookmarkHit)[0] == 'b' && Section(FolderHit)[0] == 'f' && Section(TagHit)[0] == 't';
  }

  /** The palette's state. */
  class Palette {
    const db: Db
    var open: bool
    var query: string
    var results: seq<SearchResult>
    var isLoading: bool

    constructor (db: Db)
      ensures this.db == db && !open && query == [] && results == [] && !isLoading
    {
      this.db := db;
      open, query, results, isLoading := false, [], [], false;
    }

    /** The keydown listener: `k` with Cmd or Ctrl flips `open`; any other key changes nothing. */
    method KeyDown(key: string, metaKey: bool, ctrlKey: bool)
      modifies this
      ensures open == (if key == "k" && (metaKey || ctrlKey) then !old(open) else old(open))
      ensures query == old(query) && results == old(results) && isLoading == old(isLoading)
    {
      if key == "k" && (metaKey || ctrlKey) {
        open := !open;
      }
    }

    /**
     * `searchData`: a blank or too short query clears the results and runs
     * no query; without a session the results stay as they were; else they
     * become the assembled list. A section whose query reports an error (its
     * kind is in `failed`) has no data, which `|| []` turns into no rows.
     * `isLoading` ends false once set.
     */
    method SearchData(session: Option<string>, failed: set<Kind>)
      modifies this
      ensures open == old(open) && query == old(query)
      ensures !ShouldSearch(query) ==> results == [] && isLoading == old(isLoading)
      ensures ShouldSearch(query) && session.None? ==> results == old(results) && !isLoading
      ensures ShouldSearch(query) && session.Some? ==>
        && results == Assemble(Answered(db.bookmarks, BookmarkHit in failed), Answered(db.folders, FolderHit in failed),
                               Answered(db.tags, TagHit in failed), session.value, query)
        && !isLoading
    {
      if !ShouldSearch(query) {
        results := [];
        return;
      }
      isLoading := true;
      if session.Some? {
        results := Assemble(Answered(db.bookmarks, BookmarkHit in failed), Answered(db.folders, FolderHit in failed),
                            Answered(db.tags, TagHit in failed), session.value, query);
      }
      isLoading := false;
    }

    /** `handleSelect`: closes the palette and returns the page to open. */
    method HandleSelect(r: SearchResult) returns (path: string)
      modifies this
      ensures !open && path == Route(r)
      ensures query == old(query) && results == old(results) && isLoading == old(isLoading)
    {
      open := false;
      path := Route(r);
    }
  }
}
