/**
 * lib/query-client.ts: the query defaults (freshness, retry policy, back-off)
 * and the query-key factory that names every cached query.
 */
module QueryClient {
  import opened Wrappers
  import opened Arithmetic

  type Key = seq<string>

  const StaleTime: nat := 5 * 60 * 1000
  const GcTime: nat := 10 * 60 * 1000

  /**
   * The default `retry` option: no retry when the error carries a 4xx
   * status; otherwise retry while fewer than three failures have happened.
   */
  function ShouldRetry(failureCount: int, status: Option<int>): (r: bool)
    ensures status.Some? && 400 <= status.value < 500 ==> !r
    ensures !(status.Some? && 400 <= status.value < 500) ==> (r <==> failureCount < 3)
  {
    if status.Some? && 400 <= status.value < 500 then false else failureCount < 3
  }

  /** The default `retryDelay`: `min(1000 * 2 ** attemptIndex, 30000)`. */
  function RetryDelay(attemptIndex: nat): (d: nat)
    ensures d <= 30000 && d <= 1000 * Pow2(attemptIndex)
    ensures d == 30000 || d == 1000 * Pow2(attemptIndex)
  {
    Min(1000 * Pow2(attemptIndex), 30000)
  }

  /** The back-off never shrinks from one attempt to the next. */
  lemma RetryDelayMonotone(i: nat, j: nat)
    requires i <= j
    ensures RetryDelay(i) <= RetryDelay(j)
  {
    Pow2Monotone(i, j);
  }

  /** The first attempts wait 1 s, 2 s and 4 s, and from the sixth on the cap applies. */
  lemma RetryDelaySchedule(i: nat)
    ensures RetryDelay(0) == 1000 && RetryDelay(1) == 2000 && RetryDelay(2) == 4000
    ensures i >= 5 ==> RetryDelay(i) == 30000
  {
    if i >= 5 {
      Pow2Monotone(5, i);
      assert Pow2(5) == 32;
    }
  }

  /* ------------------------------------------------------------ queryKeys */

  const All: Key := ["bookmarks"]

  function BookmarksKey(): Key
  {
    All + ["list"]
  }

  function BookmarkKey(id: string): Key
  {
    All + ["detail", id]
  }

  function BookmarksByFolderKey(folderId: string): Key
  {
    All + ["folder", folderId]
  }

  function SearchBookmarksKey(query: string): Key
  {
    All + ["search", query]
  }

  function FoldersKey(): Key
  {
    ["folders"]
  }

  function FolderKey(id: string): Key
  {
    FoldersKey() + [id]
  }

  function TagsKey(): Key
  {
    ["tags"]
  }

  function TagKey(id: string): Key
  {
    TagsKey() + [id]
  }

  function AuthKey(): Key
  {
    ["auth"]
  }

  function UserKey(): Key
  {
    AuthKey() + ["user"]
  }

  /** The factory's entries, with their arguments. */
  datatype KeyName =
    | AllBookmarks | BookmarkList | BookmarkDetail(id: string) | BookmarksInFolder(folderId: string)
    | BookmarkSearch(query: string) | FolderList | FolderDetail(folderId: string)
    | TagList | TagDetail(tagId: string) | AuthRoot | CurrentUser

  function KeyOf(n: KeyName): (k: Key)
    ensures |k| >= 1
  {
    match n
    case AllBookmarks => All
    case BookmarkList => BookmarksKey()
    case BookmarkDetail(id) => BookmarkKey(id)
    case BookmarksInFolder(id) => BookmarksByFolderKey(id)
    case BookmarkSearch(q) => SearchBookmarksKey(q)
    case FolderList => FoldersKey()
    case FolderDetail(id) => FolderKey(id)
    case TagList => TagsKey()
    case TagDetail(id) => TagKey(id)
    case AuthRoot => AuthKey()
    case CurrentUser => UserKey()
  }

  predicate IsBookmarkName(n: KeyName) {
    n.AllBookmarks? || n.BookmarkList? || n.BookmarkDetail? || n.BookmarksInFolder? || n.BookmarkSearch?
  }

  /**
   * Every bookmark key starts with `"bookmarks"`, and every one but the root
   * has `list`, `detail`, `folder` or `search` second.
   */
  lemma BookmarkKeysShape(n: KeyName)
    ensures IsBookmarkName(n) <==> KeyOf(n)[0] == "bookmarks"
    ensures IsBookmarkName(n) && !n.AllBookmarks? ==>
      |KeyOf(n)| >= 2 && KeyOf(n)[1] in {"list", "detail", "folder", "search"}
  {
  }

  /**
   * No two entries of the factory, and no two arguments of one entry, give
   * the same key: each cached query has its own name.
   */
  lemma KeysInjective(a: KeyName, b: KeyName)
    ensures KeyOf(a) == KeyOf(b) ==> a == b
  {
    if KeyOf(a) == KeyOf(b) {
      var k := KeyOf(a);
      assert KeyOf(b)[0] == k[0] && |KeyOf(b)| == |k|;
      if |k| >= 2 {
        assert KeyOf(b)[1] == k[1];
      }
      if |k| >= 3 {
        assert KeyOf(b)[2] == k[2];
      }
    }
  }

  /** `folder(id)` and `tag(id)` extend their list keys; `user()` is `["auth", "user"]`. */
  lemma DetailKeysExtendListKeys(id: string)
    ensures FolderKey(id)[..1] == FoldersKey() && TagKey(id)[..1] == TagsKey()
    ensures UserKey() == ["auth", "user"]
  {
  }
}
