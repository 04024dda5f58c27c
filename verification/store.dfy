/**
 * The rows of the hosted database as types/supabase.ts declares them, and an
 * in-memory stand-in for the database holding the tables the code touches.
 * A query's `.eq(...)` is `Filter`, `.delete().eq(...)` keeps the complement,
 * `.insert` appends, and `.order(...)` sorts. Timestamps are numbers on the
 * model clock.
 */
module Store {
  import opened Wrappers
  import opened Strings

  datatype Bookmark = Bookmark(
    id: string, createdAt: int, updatedAt: int, url: string, title: string,
    description: Option<string>, favicon: Option<string>, folderId: Option<string>,
    userId: string, notes: Option<string>)

  datatype Folder = Folder(id: string, createdAt: int, updatedAt: int, name: string, userId: string, parentId: Option<string>)

  datatype Tag = Tag(id: string, createdAt: int, name: string, userId: string, color: Option<string>)

  datatype BookmarkTag = BookmarkTag(bookmarkId: string, tagId: string)

  /** A `user_preferences` row (the table is used by the user hooks). */
  datatype Preferences = Preferences(userId: string, autoFetchMetadata: bool, emailNotifications: bool)

  /** A bookmark with its folder and tags embedded, as the list queries select it. */
  datatype BookmarkWithRelations = BookmarkWithRelations(bookmark: Bookmark, folder: Option<Folder>, tags: seq<Tag>)

  /** The database: one sequence per table, in insertion order. */
  class Db {
    var bookmarks: seq<Bookmark>
    var folders: seq<Folder>
    var tags: seq<Tag>
    var bookmarkTags: seq<BookmarkTag>
    var preferences: seq<Preferences>

    constructor ()
      ensures bookmarks == [] && folders == [] && tags == [] && bookmarkTags == [] && preferences == []
    {
      bookmarks, folders, tags, bookmarkTags, preferences := [], [], [], [], [];
    }
  }

  /* ----------------------------------------------------------- filtering */

  /** The rows that satisfy `keep`, in their stored order. */
  function Filter<T>(s: seq<T>, keep: T -> bool): (r: seq<T>)
    ensures |r| <= |s|
    ensures forall i :: 0 <= i < |r| ==> keep(r[i])
    ensures multiset(r) <= multiset(s)
    ensures forall x :: x in s && keep(x) ==> x in r
  {
    if s == [] then []
    else
      assert s == [s[0]] + s[1..];
      if keep(s[0]) then [s[0]] + Filter(s[1..], keep)
      else Filter(s[1..], keep)
  }

  /** Filtering keeps the relative order: it distributes over concatenation. */
  lemma {:induction false} FilterAppend<T>(s: seq<T>, t: seq<T>, keep: T -> bool)
    ensures Filter(s + t, keep) == Filter(s, keep) + Filter(t, keep)
  {
    if s == [] {
      assert s + t == t;
    } else {
      assert (s + t)[0] == s[0];
      assert (s + t)[1..] == s[1..] + t;
      FilterAppend(s[1..], t, keep);
    }
  }

  /** The rows a `.delete()` with filter `p` keeps. */
  function Not<T>(p: T -> bool): T -> bool { (x: T) => !p(x) }

  /** A delete (keeping the complement) and the matching select split the table. */
  lemma {:induction false} FilterSplits<T>(s: seq<T>, keep: T -> bool)
    ensures multiset(Filter(s, keep)) + multiset(Filter(s, Not(keep))) == multiset(s)
  {
    if s != [] {
      FilterSplits(s[1..], keep);
      assert s == [s[0]] + s[1..];
    }
  }

  /** Filtering with a condition every row meets changes nothing. */
  lemma {:induction false} FilterAll<T>(s: seq<T>, keep: T -> bool)
    requires forall i :: 0 <= i < |s| ==> keep(s[i])
    ensures Filter(s, keep) == s
  {
    if s != [] {
      FilterAll(s[1..], keep);
    }
  }

  /** Filtering with a condition no row meets leaves nothing. */
  lemma FilterNone<T>(s: seq<T>, keep: T -> bool)
    requires forall i :: 0 <= i < |s| ==> !keep(s[i])
    ensures Filter(s, keep) == []
  {
  }

  /** The number of rows that satisfy `p`. */
  function Count<T>(s: seq<T>, p: T -> bool): (n: nat)
    ensures n == |Filter(s, p)|
  {
    if s == [] then 0 else (if p(s[0]) then 1 else 0) + Count(s[1..], p)
  }

  /** `.update(change).eq(...)`: every matching row changed, the others kept, in place. */
  function UpdateWhere<T>(s: seq<T>, matches: T -> bool, change: T -> T): (r: seq<T>)
    ensures |r| == |s|
    ensures forall i :: 0 <= i < |s| && !matches(s[i]) ==> r[i] == s[i]
    ensures forall i :: 0 <= i < |s| && matches(s[i]) ==> r[i] == change(s[i])
  {
    seq(|s|, i requires 0 <= i < |s| => if matches(s[i]) then change(s[i]) else s[i])
  }

  /** The first row satisfying `p`. */
  function Find<T>(s: seq<T>, p: T -> bool): (r: Option<T>)
    ensures r.Some? ==> r.value in s && p(r.value)
    ensures r.None? <==> Count(s, p) == 0
  {
    if s == [] then None else if p(s[0]) then Some(s[0]) else Find(s[1..], p)
  }

  /* ------------------------------------------------------------- sorting */

  /** `.order(col, { ascending: false })` on a numeric column. */
  predicate SortedDesc<T>(s: seq<T>, key: T -> int) {
    forall i, j :: 0 <= i < j < |s| ==> key(s[i]) >= key(s[j])
  }

  /** What an insertion returns holds the inserted row and the old rows, nothing else. */
  lemma InsertedFrom<T>(t: seq<T>, x: T, rest: seq<T>)
    requires multiset(t) == multiset(rest) + multiset{x}
    ensures forall y :: y in t ==> y == x || y in rest
  {
    forall y | y in t ensures y == x || y in rest {
      assert y in multiset(t);
    }
  }

  lemma HeadAboveRest<T>(s: seq<T>, key: T -> int)
    requires s != [] && SortedDesc(s, key)
    ensures forall y :: y in s[1..] ==> key(s[0]) >= key(y)
  {
    forall y | y in s[1..] ensures key(s[0]) >= key(y) {
      var m :| 0 <= m < |s[1..]| && s[1..][m] == y;
      assert s[m + 1] == y;
    }
  }

  lemma ConsSortedDesc<T>(h: T, t: seq<T>, key: T -> int)
    requires SortedDesc(t, key) && forall y :: y in t ==> key(h) >= key(y)
    ensures SortedDesc([h] + t, key)
  {
    forall i, j | 0 <= i < j < |t| + 1 ensures key(([h] + t)[i]) >= key(([h] + t)[j]) {
      assert ([h] + t)[j] == t[j - 1];
      if i > 0 { assert ([h] + t)[i] == t[i - 1]; }
    }
  }

  function InsertDesc<T>(x: T, s: seq<T>, key: T -> int): (r: seq<T>)
    requires SortedDesc(s, key)
    ensures SortedDesc(r, key)
    ensures multiset(r) == multiset(s) + multiset{x}
    ensures |r| == |s| + 1
  {
    if s == [] then [x]
    else if key(x) >= key(s[0]) then
      HeadAboveRest(s, key);
      assert s == [s[0]] + s[1..];
      ConsSortedDesc(x, s, key);
      [x] + s
    else
      var t := InsertDesc(x, s[1..], key);
      assert s == [s[0]] + s[1..];
      InsertedFrom(t, x, s[1..]);
      HeadAboveRest(s, key);
      ConsSortedDesc(s[0], t, key);
      [s[0]] + t
  }

  /** Newest first: sorted by a key, descending, and a permutation of the input. */
  function SortDesc<T>(s: seq<T>, key: T -> int): (r: seq<T>)
    ensures SortedDesc(r, key)
    ensures multiset(r) == multiset(s)
    ensures |r| == |s|
  {
    if s == [] then [] else
      assert s == [s[0]] + s[1..];
      InsertDesc(s[0], SortDesc(s[1..], key), key)
  }

  /** Code-point lexicographic order, which is the UTF-8 byte order `.order("name")` gives under the C collation. */
  predicate LexLe(a: string, b: string)
    decreases |a|
  {
    a == [] || (b != [] && (a[0] < b[0] || (a[0] == b[0] && LexLe(a[1..], b[1..]))))
  }

  lemma {:induction false} LexLeTotal(a: string, b: string)
    ensures LexLe(a, b) || LexLe(b, a)
    decreases |a|
  {
    if a != [] && b != [] && a[0] == b[0] {
      LexLeTotal(a[1..], b[1..]);
    }
  }

  lemma {:induction false} LexLeTrans(a: string, b: string, c: string)
    requires LexLe(a, b) && LexLe(b, c)
    ensures LexLe(a, c)
    decreases |a|
  {
    if a != [] && b != [] && c != [] && a[0] == b[0] && b[0] == c[0] {
      LexLeTrans(a[1..], b[1..], c[1..]);
    }
  }

  predicate SortedByName<T>(s: seq<T>, name: T -> string) {
    forall i, j :: 0 <= i < j < |s| ==> LexLe(name(s[i]), name(s[j]))
  }

  lemma HeadBeforeRest<T>(s: seq<T>, name: T -> string)
    requires s != [] && SortedByName(s, name)
    ensures forall y :: y in s[1..] ==> LexLe(name(s[0]), name(y))
  {
    forall y | y in s[1..] ensures LexLe(name(s[0]), name(y)) {
      var m :| 0 <= m < |s[1..]| && s[1..][m] == y;
      assert s[m + 1] == y;
    }
  }

  lemma ConsSortedByName<T>(h: T, t: seq<T>, name: T -> string)
    requires SortedByName(t, name) && forall y :: y in t ==> LexLe(name(h), name(y))
    ensures SortedByName([h] + t, name)
  {
    forall i, j | 0 <= i < j < |t| + 1 ensures LexLe(name(([h] + t)[i]), name(([h] + t)[j])) {
      assert ([h] + t)[j] == t[j - 1];
      if i > 0 { assert ([h] + t)[i] == t[i - 1]; }
    }
  }

  function InsertByName<T>(x: T, s: seq<T>, name: T -> string): (r: seq<T>)
    requires SortedByName(s, name)
    ensures SortedByName(r, name)
    ensures multiset(r) == multiset(s) + multiset{x}
    ensures |r| == |s| + 1
  {
    if s == [] then [x]
    else if LexLe(name(x), name(s[0])) then
      HeadBeforeRest(s, name);
      assert forall y :: y in s[1..] ==> LexLe(name(x), name(y)) by {
        forall y | y in s[1..] ensures LexLe(name(x), name(y)) {
          LexLeTrans(name(x), name(s[0]), name(y));
        }
      }
      assert s == [s[0]] + s[1..];
      ConsSortedByName(x, s, name);
      [x] + s
    else
      LexLeTotal(name(x), name(s[0]));
      var t := InsertByName(x, s[1..], name);
      assert s == [s[0]] + s[1..];
      InsertedFrom(t, x, s[1..]);
      HeadBeforeRest(s, name);
      ConsSortedByName(s[0], t, name);
      [s[0]] + t
  }

  /** A filter of a name-ordered list is still name-ordered. */
  lemma {:induction false} FilterKeepsNameOrder<T>(s: seq<T>, keep: T -> bool, name: T -> string)
    requires SortedByName(s, name)
    ensures SortedByName(Filter(s, keep), name)
  {
    if s != [] {
      FilterKeepsNameOrder(s[1..], keep, name);
      var rest := Filter(s[1..], keep);
      if keep(s[0]) {
        forall k | 0 <= k < |rest| ensures LexLe(name(s[0]), name(rest[k])) {
          assert rest[k] in multiset(s[1..]) by { assert rest[k] in multiset(rest); }
          var m :| 0 <= m < |s[1..]| && s[1..][m] == rest[k];
          assert s[m + 1] == rest[k];
        }
        assert Filter(s, keep) == [s[0]] + rest;
      }
    }
  }

  /** `.order("name")`: sorted by name and a permutation of the input. */
  function SortByName<T>(s: seq<T>, name: T -> string): (r: seq<T>)
    ensures SortedByName(r, name)
    ensures multiset(r) == multiset(s)
    ensures |r| == |s|
  {
    if s == [] then [] else
      assert s == [s[0]] + s[1..];
      InsertByName(s[0], SortByName(s[1..], name), name)
  }

  /* ----------------------------------------------------------- relations */

  /** The first row of `folders` with the given id. */
  function FolderById(folders: seq<Folder>, id: string): (r: Option<Folder>)
    ensures r.Some? ==> r.value in folders && r.value.id == id
    ensures r.None? ==> forall f :: f in folders ==> f.id != id
  {
    if folders == [] then None
    else if folders[0].id == id then Some(folders[0])
    else FolderById(folders[1..], id)
  }

  /** No two stored tags share an id (`id` is the table's primary key). */
  predicate TagIdsUnique(tags: seq<Tag>) {
    forall i, j :: 0 <= i < j < |tags| ==> tags[i].id != tags[j].id
  }

  /**
   * The tags linked to a bookmark, one per association row, in association
   * order: every embedded tag is a stored tag linked to the bookmark, and,
   * with unique tag ids, every stored tag linked to it is embedded.
   */
  function TagsOf(bookmarkId: string, links: seq<BookmarkTag>, tags: seq<Tag>): (r: seq<Tag>)
    ensures forall t :: t in r ==> t in tags && BookmarkTag(bookmarkId, t.id) in links
    ensures TagIdsUnique(tags) ==> forall t :: t in tags && BookmarkTag(bookmarkId, t.id) in links ==> t in r
  {
    if links == [] then []
    else
      var rest := TagsOf(bookmarkId, links[1..], tags);
      assert forall l :: l in links ==> l == links[0] || l in links[1..];
      assert TagIdsUnique(tags) ==> forall t :: t in tags && links[0] == BookmarkTag(bookmarkId, t.id) ==>
        TagById(tags, links[0].tagId) == Some(t) by {
        if TagIdsUnique(tags) {
          forall t | t in tags && links[0] == BookmarkTag(bookmarkId, t.id)
            ensures TagById(tags, links[0].tagId) == Some(t)
          {
            TagByIdFinds(tags, t);
          }
        }
      }
      if links[0].bookmarkId == bookmarkId then
        match TagById(tags, links[0].tagId)
        case Some(t) => [t] + rest
        case None => rest
      else rest
  }

  function TagById(tags: seq<Tag>, id: string): (r: Option<Tag>)
    ensures r.Some? ==> r.value in tags && r.value.id == id
    ensures r.None? ==> forall t :: t in tags ==> t.id != id
  {
    if tags == [] then None
    else if tags[0].id == id then Some(tags[0])
    else TagById(tags[1..], id)
  }

  /** With unique ids, looking a stored tag up by its id finds that tag. */
  lemma TagByIdFinds(tags: seq<Tag>, t: Tag)
    requires TagIdsUnique(tags) && t in tags
    ensures TagById(tags, t.id) == Some(t)
  {
    var u := TagById(tags, t.id).value;
    var i :| 0 <= i < |tags| && tags[i] == t;
    var j :| 0 <= j < |tags| && tags[j] == u;
    assert i == j;
  }

  /** `*, folders (id, name), bookmark_tags (tags (id, name, color))` for one row. */
  function WithRelations(b: Bookmark, folders: seq<Folder>, links: seq<BookmarkTag>, tags: seq<Tag>): (r: BookmarkWithRelations)
    ensures r.bookmark == b
    ensures r.folder.Some? <==> b.folderId.Some? && FolderById(folders, b.folderId.value).Some?
    ensures r.folder.Some? ==> r.folder.value in folders && Some(r.folder.value.id) == b.folderId
    ensures forall t :: t in r.tags ==> t in tags && BookmarkTag(b.id, t.id) in links
    ensures TagIdsUnique(tags) ==> forall t :: t in tags && BookmarkTag(b.id, t.id) in links ==> t in r.tags
  {
    var folder := if b.folderId.Some? then FolderById(folders, b.folderId.value) else None;
    BookmarkWithRelations(b, folder, TagsOf(b.id, links, tags))
  }
}
