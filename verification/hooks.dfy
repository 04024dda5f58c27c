/**
 * hooks/use-bookmarks.ts, hooks/use-folders.ts and hooks/use-tags.ts: which
 * cached query each hook reads, when it is enabled, and what each mutation
 * does to the shared query cache. The cache is a map from query key to cached
 * data; `invalidateQueries` only marks a key stale (refetching and the
 * prefix matching of keys are the library's business and are not modelled).
 */
module QueryHooks {
  import opened Wrappers
  import opened Strings
  import opened QueryClient
  import opened Store
  import Api

  /** What a query caches: one of the three lists, or one bookmark row. */
  datatype Cached =
    | CachedBookmarks(bookmarks: seq<BookmarkWithRelations>)
    | CachedFolders(folders: seq<Folder>)
    | CachedTags(tags: seq<Tag>)
    | CachedRow(row: Bookmark)

  /* -------------------------------------------------- query selection */

  /** `useBookmarks(folderId)`: the folder's key for a non-empty folder id, else the list key. */
  function BookmarksQueryKey(folderId: Option<string>): (k: Key)
    ensures folderId.Some? && folderId.value != [] ==> k == BookmarksByFolderKey(folderId.value)
    ensures !(folderId.Some? && folderId.value != []) ==> k == BookmarksKey()
    ensures k[0] == "bookmarks"
  {
    if folderId.Some? && folderId.value != [] then BookmarksByFolderKey(folderId.value) else BookmarksKey()
  }

  /** `useBookmark(id)` runs only for a non-empty id. */
  function BookmarkQueryEnabled(id: string): (b: bool)
    ensures !b ==> id == ""
  {
    id != []
  }

  /** `useSearchBookmarks(query)` runs only from two UTF-16 code units on. */
  function SearchQueryEnabled(query: string): (b: bool)
    ensures |query| >= 2 ==> b
    ensures b ==> |query| >= 1
  {
    Utf16Length(query) >= 2
  }

  /**
   * The keys a created or updated bookmark invalidates: the list, and its
   * folder's key when it has a non-empty folder.
   */
  function ListKeysOf(row: Bookmark): (keys: set<Key>)
    ensures BookmarksKey() in keys
    ensures forall f :: BookmarksByFolderKey(f) in keys <==> row.folderId == Some(f) && f != []
    ensures |keys| <= 2
  {
    var folder := if row.folderId.Some? && row.folderId.value != [] then {BookmarksByFolderKey(row.folderId.value)} else {};
    assert forall f :: BookmarksByFolderKey(f) != BookmarksKey() by {
      forall f ensures BookmarksByFolderKey(f) != BookmarksKey() {
        assert |BookmarksByFolderKey(f)| == 3;
      }
    }
    assert forall f, g :: BookmarksByFolderKey(f) == BookmarksByFolderKey(g) ==> f == g by {
      forall f, g | BookmarksByFolderKey(f) == BookmarksByFolderKey(g) ensures f == g {
        assert BookmarksByFolderKey(f)[2] == f;
      }
    }
    {BookmarksKey()} + folder
  }

  /* ------------------------------------------ optimistic list removal */

  function BookmarkIdNot(id: string): BookmarkWithRelations -> bool { (x: BookmarkWithRelations) => x.bookmark.id != id }
  function FolderIdNot(id: string): Folder -> bool { (f: Folder) => f.id != id }
  function TagIdNot(id: string): Tag -> bool { (t: Tag) => t.id != id }

  /**
   * The cached list without the entries whose id is `id`: the `filter` the
   * updater runs, which keeps the other entries in their order.
   */
  function WithoutId(v: Cached, id: string): (r: Cached)
    ensures v.CachedBookmarks? ==>
      && r.CachedBookmarks? && r.bookmarks == Filter(v.bookmarks, BookmarkIdNot(id))
      && forall x :: x in r.bookmarks <==> x in v.bookmarks && x.bookmark.id != id
    ensures v.CachedFolders? ==>
      && r.CachedFolders? && r.folders == Filter(v.folders, FolderIdNot(id))
      && forall f :: f in r.folders <==> f in v.folders && f.id != id
    ensures v.CachedTags? ==>
      && r.CachedTags? && r.tags == Filter(v.tags, TagIdNot(id))
      && forall t :: t in r.tags <==> t in v.tags && t.id != id
    ensures v.CachedRow? ==> r == v
  {
    match v
    case CachedBookmarks(items) =>
      forall x ensures x in Filter(items, BookmarkIdNot(id)) <==> x in items && BookmarkIdNot(id)(x) {
        Api.FilterMembers(items, BookmarkIdNot(id), x);
      }
      CachedBookmarks(Filter(items, BookmarkIdNot(id)))
    case CachedFolders(items) =>
      forall f ensures f in Filter(items, FolderIdNot(id)) <==> f in items && FolderIdNot(id)(f) {
        Api.FilterMembers(items, FolderIdNot(id), f);
      }
      CachedFolders(Filter(items, FolderIdNot(id)))
    case CachedTags(items) =>
      forall t ensures t in Filter(items, TagIdNot(id)) <==> t in items && TagIdNot(id)(t) {
        Api.FilterMembers(items, TagIdNot(id), t);
      }
      CachedTags(Filter(items, TagIdNot(id)))
    case CachedRow(_) => v
  }

  /**
   * The optimistic removal keeps the order of what stays: removing from a
   * list made of two parts is removing from each part, and a list without
   * the id is left as it is.
   */
  lemma WithoutIdKeepsOrder(a: seq<BookmarkWithRelations>, b: seq<BookmarkWithRelations>, id: string)
    ensures WithoutId(CachedBookmarks(a + b), id).bookmarks
         == WithoutId(CachedBookmarks(a), id).bookmarks + WithoutId(CachedBookmarks(b), id).bookmarks
    ensures (forall i :: 0 <= i < |a| ==> a[i].bookmark.id != id) ==> WithoutId(CachedBookmarks(a), id).bookmarks == a
  {
    FilterAppend(a, b, BookmarkIdNot(id));
    if forall i :: 0 <= i < |a| ==> a[i].bookmark.id != id {
      FilterAll(a, BookmarkIdNot(id));
    }
  }

  /** `getQueryData(key)`: the snapshot, absent when nothing is cached. */
  function Snapshot(data: map<Key, Cached>, key: Key): (r: Option<Cached>)
    ensures r.Some? <==> key in data
    ensures r.Some? ==> r.value == data[key]
  {
    if key in data then Some(data[key]) else None
  }

  /**
   * `setQueryData(key, old => old?.filter(...))`: the cached list loses the
   * entries with that id; with nothing cached the key stays absent.
   */
  function RemoveOptimistically(data: map<Key, Cached>, key: Key, id: string): (r: map<Key, Cached>)
    ensures key in r <==> key in data
    ensures key in data ==> r[key] == WithoutId(data[key], id)
    ensures forall k :: k != key ==> (k in r <==> k in data) && (k in data ==> r[k] == data[k])
  {
    if key in data then data[key := WithoutId(data[key], id)] else data
  }

  /** `onError`: the snapshot is written back when there is one. */
  function Restore(data: map<Key, Cached>, key: Key, snapshot: Option<Cached>): (r: map<Key, Cached>)
    ensures snapshot.Some? ==> key in r && r[key] == snapshot.value
    ensures snapshot.None? ==> r == data
    ensures forall k :: k != key ==> (k in r <==> k in data) && (k in data ==> r[k] == data[k])
  {
    if snapshot.Some? then data[key := snapshot.value] else data
  }

  /** Rolling back with the snapshot taken before the optimistic removal gives back the cache as it was. */
  lemma RollbackRestores(data: map<Key, Cached>, key: Key, id: string)
    ensures Restore(RemoveOptimistically(data, key, id), key, Snapshot(data, key)) == data
  {
    var r := Restore(RemoveOptimistically(data, key, id), key, Snapshot(data, key));
    assert forall k :: k in r <==> k in data;
    assert forall k :: k in r ==> r[k] == data[k];
  }

  /**
   * For a bookmark delete the detail entry removed in `onMutate` is not part
   * of the snapshot: a rolled-back delete gives back the list but not that entry.
   */
  lemma BookmarkRollbackLosesDetail(data: map<Key, Cached>, id: string)
    ensures var key := BookmarksKey();
      var afterMutate := RemoveOptimistically(data, key, id) - {BookmarkKey(id)};
      Restore(afterMutate, key, Snapshot(data, key)) == data - {BookmarkKey(id)}
  {
    var key := BookmarksKey();
    assert BookmarkKey(id) != key by {
      assert |BookmarkKey(id)| == 3;
    }
    var r := Restore(RemoveOptimistically(data, key, id) - {BookmarkKey(id)}, key, Snapshot(data, key));
    assert forall k :: k in r <==> k in data - {BookmarkKey(id)};
    assert forall k :: k in r ==> r[k] == (data - {BookmarkKey(id)})[k];
  }

  /* ---------------------------------------------------------- the cache */

  /** The shared query client: the cached data and the keys marked stale. */
  class QueryCache {
    var data: map<Key, Cached>
    var stale: set<Key>

    constructor ()
      ensures data == map[] && stale == {}
    {
      data := map[];
      stale := {};
    }

    /* ------------------------------------------------ use-bookmarks.ts */

    /** `useCreateBookmark` `onSuccess`: the list and the new row's folder are marked stale. */
    method CreateBookmarkSucceeded(row: Bookmark)
      modifies this
      ensures data == old(data)
      ensures stale == old(stale) + ListKeysOf(row)
    {
      stale := stale + {BookmarksKey()};
      if row.folderId.Some? && row.folderId.value != [] {
        stale := stale + {BookmarksByFolderKey(row.folderId.value)};
      }
    }

    /**
     * `useUpdateBookmark` `onSuccess`: the returned row is cached under its
     * detail key, then the list and its folder are marked stale.
     */
    method UpdateBookmarkSucceeded(id: string, row: Bookmark)
      modifies this
      ensures data == old(data)[BookmarkKey(id) := CachedRow(row)]
      ensures stale == old(stale) + ListKeysOf(row)
    {
      data := data[BookmarkKey(id) := CachedRow(row)];
      stale := stale + {BookmarksKey()};
      if row.folderId.Some? && row.folderId.value != [] {
        stale := stale + {BookmarksByFolderKey(row.folderId.value)};
      }
    }

    /**
     * `useDeleteBookmark` `onMutate`: snapshot the list, drop the entries with
     * that id from it, and forget the bookmark's detail entry.
     */
    method DeleteBookmarkMutate(id: string) returns (snapshot: Option<Cached>)
      modifies this
      ensures snapshot == Snapshot(old(data), BookmarksKey())
      ensures data == RemoveOptimistically(old(data), BookmarksKey(), id) - {BookmarkKey(id)}
      ensures stale == old(stale)
    {
      snapshot := Snapshot(data, BookmarksKey());
      data := RemoveOptimistically(data, BookmarksKey(), id);
      data := data - {BookmarkKey(id)};
    }

    /** `useDeleteBookmark` `onError`: the snapshot goes back under the list key. */
    method DeleteBookmarkFailed(snapshot: Option<Cached>)
      modifies this
      ensures data == Restore(old(data), BookmarksKey(), snapshot)
      ensures stale == old(stale)
    {
      data := Restore(data, BookmarksKey(), snapshot);
    }

    /** `useDeleteBookmark` `onSettled`: the list is marked stale whatever the outcome. */
    method DeleteBookmarkSettled()
      modifies this
      ensures data == old(data)
      ensures stale == old(stale) + {BookmarksKey()}
    {
      stale := stale + {BookmarksKey()};
    }

    /**
     * One whole `useDeleteBookmark` mutation whose request `succeeded` or not:
     * a failed delete leaves the list as it was, a successful one leaves it
     * without that bookmark; either way the detail entry is gone and the
     * list is marked stale.
     */
    method DeleteBookmark(id: string, succeeded: bool)
      modifies this
      ensures !succeeded ==> data == old(data) - {BookmarkKey(id)}
      ensures succeeded ==> data == RemoveOptimistically(old(data), BookmarksKey(), id) - {BookmarkKey(id)}
      ensures stale == old(stale) + {BookmarksKey()}
    {
      ghost var before := data;
      var snapshot := DeleteBookmarkMutate(id);
      if !succeeded {
        DeleteBookmarkFailed(snapshot);
        BookmarkRollbackLosesDetail(before, id);
      }
      DeleteBookmarkSettled();
    }

    /* -------------------------------------------------- use-folders.ts */

    /** `useCreateFolder` `onSuccess`: the folder list is marked stale. */
    method CreateFolderSucceeded()
      modifies this
      ensures data == old(data)
      ensures stale == old(stale) + {FoldersKey()}
    {
      stale := stale + {FoldersKey()};
    }

    /**
     * One whole `useDeleteFolder` mutation: the optimistic removal looks only
     * at the cached list, a failure restores it, and both the folder list and
     * the bookmark list are marked stale.
     */
    method DeleteFolder(id: string, succeeded: bool)
      modifies this
      ensures !succeeded ==> data == old(data)
      ensures succeeded ==> data == RemoveOptimistically(old(data), FoldersKey(), id)
      ensures stale == old(stale) + {FoldersKey(), BookmarksKey()}
    {
      ghost var before := data;
      var snapshot := Snapshot(data, FoldersKey());
      data := RemoveOptimistically(data, FoldersKey(), id);
      if !succeeded {
        data := Restore(data, FoldersKey(), snapshot);
        RollbackRestores(before, FoldersKey(), id);
      }
      stale := stale + {FoldersKey()};
      stale := stale + {BookmarksKey()};
    }

    /* ----------------------------------------------------- use-tags.ts */

    /** `useCreateTag` `onSuccess`: the tag list is marked stale. */
    method CreateTagSucceeded()
      modifies this
      ensures data == old(data)
      ensures stale == old(stale) + {TagsKey()}
    {
      stale := stale + {TagsKey()};
    }

    /** One whole `useDeleteTag` mutation, with the same snapshot, removal and rollback. */
    method DeleteTag(id: string, succeeded: bool)
      modifies this
      ensures !succeeded ==> data == old(data)
      ensures succeeded ==> data == RemoveOptimistically(old(data), TagsKey(), id)
      ensures stale == old(stale) + {TagsKey(), BookmarksKey()}
    {
      ghost var before := data;
      var snapshot := Snapshot(data, TagsKey());
      data := RemoveOptimistically(data, TagsKey(), id);
      if !succeeded {
        data := Restore(data, TagsKey(), snapshot);
        RollbackRestores(before, TagsKey(), id);
      }
      stale := stale + {TagsKey()};
      stale := stale + {BookmarksKey()};
    }
  }
}
