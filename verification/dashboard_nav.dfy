/**
 * components/dashboard/dashboard-nav.tsx: the sidebar. It loads the folders
 * and tags in name order with their bookmark counts, draws root folders with
 * their direct subfolders one level in, colours each tag's dot, and
 * highlights the navigation entry whose link is the current path.
 */
module DashboardNav {
  import opened Wrappers
  import opened Store
  import opened Api
  import opened FolderList

  datatype FolderWithCount = FolderWithCount(id: string, name: string, parentId: Option<string>, bookmarkCount: nat)

  datatype TagWithCount = TagWithCount(id: string, name: string, color: Option<string>, bookmarkCount: nat)

  /* -------------------------------------------------------------- counts */

  /** `folders(..., bookmarks(id))` mapped to `bookmarks?.length || 0`, in the order given. */
  function FolderCounts(folders: seq<Folder>, bookmarks: seq<Bookmark>): (r: seq<FolderWithCount>)
    ensures |r| == |folders|
    ensures forall i :: 0 <= i < |r| ==>
      r[i] == FolderWithCount(folders[i].id, folders[i].name, folders[i].parentId, Count(bookmarks, InFolder(folders[i].id)))
  {
    seq(|folders|, i requires 0 <= i < |folders| =>
      FolderWithCount(folders[i].id, folders[i].name, folders[i].parentId, Count(bookmarks, InFolder(folders[i].id))))
  }

  /** `tags(..., bookmark_tags(bookmark_id))` mapped to `bookmark_tags?.length || 0`, in the order given. */
  function TagCounts(tags: seq<Tag>, links: seq<BookmarkTag>): (r: seq<TagWithCount>)
    ensures |r| == |tags|
    ensures forall i :: 0 <= i < |r| ==>
      r[i] == TagWithCount(tags[i].id, tags[i].name, tags[i].color, Count(links, LinksTag(tags[i].id)))
  {
    seq(|tags|, i requires 0 <= i < |tags| => TagWithCount(tags[i].id, tags[i].name, tags[i].color, Count(links, LinksTag(tags[i].id))))
  }

  /**
   * A folder shows 0 exactly when no bookmark is filed in it, which is
   * exactly when the folder card's delete gets past its bookmark check.
   */
  lemma ZeroCountMeansNoBookmarks(bookmarks: seq<Bookmark>, id: string)
    ensures Count(bookmarks, InFolder(id)) == 0 <==> !HasBookmarks(bookmarks, id)
  {
    ProbesFindReferences(bookmarks, [], id);
  }

  /** After the tag card's cascade, the tag's count is 0. */
  lemma {:induction false} UnlinkedTagCountsZero(links: seq<BookmarkTag>, id: string)
    ensures Count(Filter(links, Not(LinksTag(id))), LinksTag(id)) == 0
  {
    var after := Filter(links, Not(LinksTag(id)));
    if Count(after, LinksTag(id)) != 0 {
      var hits := Filter(after, LinksTag(id));
      assert hits[0] in multiset(after) by { assert hits[0] in multiset(hits); }
      FilterMembers(links, Not(LinksTag(id)), hits[0]);
      assert false;
    }
  }

  /* ------------------------------------------------------ folder grouping */

  /** `folder.parent_id` is truthy: set and not the empty string. */
  predicate HasParent(f: FolderWithCount) {
    f.parentId.Some? && f.parentId.value != []
  }

  function Nested(): FolderWithCount -> bool { (f: FolderWithCount) => HasParent(f) }

  function WithCountName(f: FolderWithCount): string { f.name }

  /** `folders.filter((folder) => !folder.parent_id)`. */
  function Roots(folders: seq<FolderWithCount>): (r: seq<FolderWithCount>)
    ensures forall f :: f in r <==> f in folders && !HasParent(f)
  {
    var r := Filter(folders, Not(Nested()));
    assert forall f :: f in r <==> f in folders && !HasParent(f) by {
      forall f ensures f in r <==> f in folders && !HasParent(f) {
        FilterMembers(folders, Not(Nested()), f);
      }
    }
    r
  }

  /** `folders.filter((folder) => folder.parent_id)`. */
  function SubFolders(folders: seq<FolderWithCount>): (r: seq<FolderWithCount>)
    ensures forall f :: f in r <==> f in folders && HasParent(f)
  {
    var r := Filter(folders, Nested());
    assert forall f :: f in r <==> f in folders && HasParent(f) by {
      forall f ensures f in r <==> f in folders && HasParent(f) {
        FilterMembers(folders, Nested(), f);
      }
    }
    r
  }

  /**
   * Roots and subfolders split the loaded list between them, each keeping
   * the name order the query returned.
   */
  lemma RootsAndSubfoldersPartition(folders: seq<FolderWithCount>)
    ensures multiset(Roots(folders)) + multiset(SubFolders(folders)) == multiset(folders)
    ensures forall f :: f in Roots(folders) <==> f in folders && !HasParent(f)
    ensures forall f :: f in SubFolders(folders) <==> f in folders && HasParent(f)
    ensures SortedByName(folders, WithCountName) ==>
      SortedByName(Roots(folders), WithCountName) && SortedByName(SubFolders(folders), WithCountName)
  {
    FilterSplits(folders, Nested());
    forall f ensures f in Roots(folders) <==> f in folders && !HasParent(f) {
      FilterMembers(folders, Not(Nested()), f);
    }
    forall f ensures f in SubFolders(folders) <==> f in folders && HasParent(f) {
      FilterMembers(folders, Nested(), f);
    }
    if SortedByName(folders, WithCountName) {
      FilterKeepsNameOrder(folders, Not(Nested()), WithCountName);
      FilterKeepsNameOrder(folders, Nested(), WithCountName);
    }
  }

  /** One drawn `FolderItem`: the folder and its level. */
  datatype NavFolder = NavFolder(folder: FolderWithCount, level: nat)

  /** `style={{ paddingLeft: level * 16 + 12 }}`, in pixels. */
  function PaddingLeft(level: nat): nat {
    level * 16 + 12
  }

  /** `sub.parent_id === folder.id`. */
  function ChildOfRoot(id: string): FolderWithCount -> bool {
    (f: FolderWithCount) => f.parentId == Some(id)
  }

  function AtLevel(folders: seq<FolderWithCount>, level: nat): (r: seq<NavFolder>)
    ensures forall x :: x in r <==> x.folder in folders && x.level == level
  {
    if folders == [] then [] else [NavFolder(folders[0], level)] + AtLevel(folders[1..], level)
  }

  /** Each root at level 0 followed by the subfolders that name it as parent, at level 1. */
  function Grouped(roots: seq<FolderWithCount>, subs: seq<FolderWithCount>): (r: seq<NavFolder>)
    ensures forall x :: x in r ==> (x.level == 0 && x.folder in roots) || (x.level == 1 && x.folder in subs)
    ensures |r| >= |roots|
  {
    if roots == [] then []
    else
      var kids := AtLevel(Filter(subs, ChildOfRoot(roots[0].id)), 1);
      var rest := Grouped(roots[1..], subs);
      assert forall x :: x in kids ==> x.level == 1 && x.folder in subs by {
        forall x | x in kids ensures x.level == 1 && x.folder in subs {
          FilterMembers(subs, ChildOfRoot(roots[0].id), x.folder);
        }
      }
      assert forall x :: x in rest && x.level == 0 ==> x.folder in roots by {
        forall x | x in rest && x.level == 0 ensures x.folder in roots {
          assert x.folder in roots[1..];
        }
      }
      [NavFolder(roots[0], 0)] + kids + rest
  }

  /**
   * The folder section of the sidebar for the loaded list: only loaded
   * folders are drawn, roots at level 0 and subfolders at level 1.
   */
  function FolderTree(folders: seq<FolderWithCount>): (r: seq<NavFolder>)
    ensures forall x :: x in r ==> x.folder in folders && x.level <= 1 && (x.level == 0 <==> !HasParent(x.folder))
  {
    Grouped(Roots(folders), SubFolders(folders))
  }

  predicate UnderSomeRoot(f: FolderWithCount, roots: seq<FolderWithCount>) {
    exists r :: r in roots && f.parentId == Some(r.id)
  }

  lemma {:induction false} GroupedMembers(roots: seq<FolderWithCount>, subs: seq<FolderWithCount>, x: NavFolder)
    ensures x in Grouped(roots, subs) <==>
      (x.level == 0 && x.folder in roots) || (x.level == 1 && x.folder in subs && UnderSomeRoot(x.folder, roots))
  {
    if roots != [] {
      GroupedMembers(roots[1..], subs, x);
      FilterMembers(subs, ChildOfRoot(roots[0].id), x.folder);
      assert roots == [roots[0]] + roots[1..];
      if UnderSomeRoot(x.folder, roots) && !UnderSomeRoot(x.folder, roots[1..]) {
        var r :| r in roots && x.folder.parentId == Some(r.id);
        assert r == roots[0];
      }
    }
  }

  /**
   * What the folder section draws: every root at level 0, and a subfolder
   * at level 1 exactly when its parent is one of the roots; nothing else.
   */
  lemma FolderTreeShows(folders: seq<FolderWithCount>, x: NavFolder)
    ensures x in FolderTree(folders) <==>
      || (x.level == 0 && x.folder in folders && !HasParent(x.folder))
      || (x.level == 1 && x.folder in folders && HasParent(x.folder) && UnderSomeRoot(x.folder, Roots(folders)))
  {
    RootsAndSubfoldersPartition(folders);
    GroupedMembers(Roots(folders), SubFolders(folders), x);
  }

  /**
   * A subfolder whose parent is not a root -- a deeper folder or one whose
   * parent is missing -- is not drawn at any level.
   */
  lemma OrphansAreHidden(folders: seq<FolderWithCount>, f: FolderWithCount, level: nat)
    requires HasParent(f) && !UnderSomeRoot(f, Roots(folders))
    ensures NavFolder(f, level) !in FolderTree(folders)
  {
    FolderTreeShows(folders, NavFolder(f, level));
  }

  /** Roots are drawn 12px in and subfolders 28px in. */
  lemma FolderTreeIndentation(folders: seq<FolderWithCount>, x: NavFolder)
    requires x in FolderTree(folders)
    ensures PaddingLeft(x.level) == if HasParent(x.folder) then 28 else 12
  {
    FolderTreeShows(folders, x);
  }

  /* ---------------------------------------------------------- tag colour */

  /** `tag.color ? "bg-[" + color + "]" : "bg-blue-500"`. */
  function DotClass(color: Option<string>): (c: string)
    ensures color.Some? && color.value != [] ==> |c| == |color.value| + 5 && c[..4] == "bg-[" && c[|c| - 1] == ']' && c[4..|c| - 1] == color.value
    ensures !(color.Some? && color.value != []) ==> c == "bg-blue-500"
  {
    if color.Some? && color.value != [] then "bg-[" + color.value + "]" else "bg-blue-500"
  }

  /** Distinct colours give distinct classes, and no colour gives the default class. */
  lemma DotClassesDistinct(a: Option<string>, b: Option<string>)
    requires a.Some? && a.value != []
    ensures DotClass(a) != DotClass(None)
    ensures b.Some? && b.value != [] && a != b ==> DotClass(a) != DotClass(b)
  {
    var c := DotClass(a);
    assert c[3] == '[';
    assert DotClass(None)[3] == 'b';
    if b.Some? && b.value != [] && DotClass(a) == DotClass(b) {
      assert a.value == c[4..|c| - 1] == b.value;
    }
  }

  /* ------------------------------------------------------ main navigation */

  datatype NavItem = NavItem(title: string, href: string)

  const MainNav: seq<NavItem> := [
    NavItem("Dashboard", "/dashboard"),
    NavItem("All Bookmarks", "/dashboard/bookmarks"),
    NavItem("Folders", "/dashboard/folders"),
    NavItem("Tags", "/dashboard/tags"),
    NavItem("Search", "/dashboard/search"),
    NavItem("Settings", "/dashboard/settings")
  ]

  /** `pathname === item.href`: exact match only, so a page below an entry's link does not highlight it. */
  function IsActive(pathname: string, item: NavItem): (b: bool)
    ensures |item.href| < |pathname| && pathname[..|item.href|] == item.href ==> !b
  {
    pathname == item.href
  }

  /** At most one main entry is highlighted: their links differ (even in length). */
  lemma AtMostOneActive(pathname: string, i: nat, j: nat)
    requires i < |MainNav| && j < |MainNav|
    requires IsActive(pathname, MainNav[i]) && IsActive(pathname, MainNav[j])
    ensures i == j
  {
    var lengths := [10, 20, 18, 15, 17, 19];
    assert forall k :: 0 <= k < 6 ==> |MainNav[k].href| == lengths[k];
  }

  /* ---------------------------------------------------------------- state */

  /** The sidebar's state: the loaded folders and tags and the loading flag. */
  class Sidebar {
    const db: Db
    var folders: seq<FolderWithCount>
    var tags: seq<TagWithCount>
    var loading: bool

    constructor (db: Db)
      ensures this.db == db && folders == [] && tags == [] && loading
    {
      this.db := db;
      folders, tags, loading := [], [], true;
    }

    /**
     * `fetchData`: without a session nothing is loaded; otherwise the folders
     * and the tags are read in name order with their counts. Either way
     * `loading` ends false (`finally`).
     */
    method FetchData(session: Option<string>)
      modifies this
      ensures !loading
      ensures session.None? ==> folders == old(folders) && tags == old(tags)
      ensures session.Some? ==>
        && folders == FolderCounts(SortByName(db.folders, FolderName), db.bookmarks)
        && tags == TagCounts(SortByName(db.tags, TagName), db.bookmarkTags)
        && SortedByName(folders, WithCountName)
        && multiset(db.folders) == multiset(SortByName(db.folders, FolderName))
    {
      if session.Some? {
        var sorted := SortByName(db.folders, FolderName);
        folders := FolderCounts(sorted, db.bookmarks);
        tags := TagCounts(SortByName(db.tags, TagName), db.bookmarkTags);
        forall i, j | 0 <= i < j < |folders| ensures LexLe(WithCountName(folders[i]), WithCountName(folders[j])) {
          assert WithCountName(folders[i]) == FolderName(sorted[i]);
          assert WithCountName(folders[j]) == FolderName(sorted[j]);
        }
      }
      loading := false;
    }
  }
}
