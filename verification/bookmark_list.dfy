/**
 * components/dashboard/bookmark-list.tsx: the empty state, the tag badges of
 * a card (three) and of a row (two) with a "+N" overflow badge, and the
 * bookmark's delete action, which filters by id alone.
 */
module BookmarkList {
  import opened Wrappers
  import opened Store
  import opened Api
  import opened Toasts

  const EmptyText: string := "No bookmarks found."

  /** What the list renders: the empty-state text, or the bookmarks. */
  datatype ListView<T> = EmptyState(text: string) | Listing(items: seq<T>)

  /** `!bookmarks || bookmarks.length === 0` renders only the empty state. */
  function Render<T>(bookmarks: Option<seq<T>>): (v: ListView<T>)
    ensures v.EmptyState? <==> bookmarks.None? || |bookmarks.value| == 0
    ensures v.EmptyState? ==> v.text == EmptyText
    ensures v.Listing? ==> v.items == bookmarks.value && |v.items| > 0
  {
    if bookmarks.None? || |bookmarks.value| == 0 then EmptyState(EmptyText) else Listing(bookmarks.value)
  }

  /** The badges drawn for a bookmark's tags: the first few, then `+N` for the rest. */
  datatype Badges<T> = Badges(shown: seq<T>, more: Option<nat>)

  /**
   * `bookmark_tags?.slice(0, limit)` and, when there are more than `limit`,
   * a `+(length - limit)` badge; a missing tag list draws nothing.
   */
  function TagBadges<T>(tags: Option<seq<T>>, limit: nat): (r: Badges<T>)
    ensures tags.None? ==> r == Badges([], None)
    ensures tags.Some? ==>
      && r.shown == tags.value[..if |tags.value| < limit then |tags.value| else limit]
      && (r.more.Some? <==> |tags.value| > limit)
  {
    match tags
    case None => Badges([], None)
    case Some(ts) =>
      if |ts| > limit then Badges(ts[..limit], Some(|ts| - limit)) else Badges(ts, None)
  }

  /** `BookmarkCard` shows three tags, `BookmarkRow` two. */
  function CardBadges<T>(tags: Option<seq<T>>): (r: Badges<T>)
    ensures |r.shown| <= 3
    ensures tags.Some? ==> (r.more.Some? <==> |tags.value| > 3)
  {
    TagBadges(tags, 3)
  }

  function RowBadges<T>(tags: Option<seq<T>>): (r: Badges<T>)
    ensures |r.shown| <= 2
    ensures tags.Some? ==> (r.more.Some? <==> |tags.value| > 2)
  {
    TagBadges(tags, 2)
  }

  /**
   * Every tag is accounted for exactly once: the drawn badges plus the
   * overflow count add up to the number of tags, and the overflow badge
   * appears only when the drawn badges are full.
   */
  lemma BadgesCountEveryTag<T>(tags: seq<T>, limit: nat)
    ensures var r := TagBadges(Some(tags), limit);
      && |r.shown| + (if r.more.Some? then r.more.value else 0) == |tags|
      && |r.shown| <= limit
      && (r.more.Some? ==> |r.shown| == limit && r.more.value > 0)
  {
  }

  /** A card shows one more tag than a row, and never an overflow badge when a row does not. */
  lemma CardShowsAtLeastRow<T>(tags: Option<seq<T>>)
    ensures |RowBadges(tags).shown| <= |CardBadges(tags).shown| <= |RowBadges(tags).shown| + 1
    ensures CardBadges(tags).more.Some? ==> RowBadges(tags).more.Some?
  {
  }

  /** `.eq("id", id)` with no owner filter. */
  function HasId(id: string): Bookmark -> bool {
    (b: Bookmark) => b.id == id
  }

  /**
   * The component's delete keeps a row exactly when its id differs: unlike
   * the service's delete, it does not look at the owner.
   */
  lemma DeleteIgnoresOwner(table: seq<Bookmark>, id: string, b: Bookmark)
    ensures b in Filter(table, Not(HasId(id))) <==> b in table && b.id != id
  {
    FilterMembers(table, Not(HasId(id)), b);
  }

  /** One bookmark's action menu, with its dialog and progress flags. */
  class BookmarkActions {
    const db: Db
    const bookmarkId: string
    var showDeleteDialog: bool
    var isDeleting: bool

    constructor (db: Db, bookmarkId: string)
      ensures this.db == db && this.bookmarkId == bookmarkId
      ensures !showDeleteDialog && !isDeleting
    {
      this.db := db;
      this.bookmarkId := bookmarkId;
      showDeleteDialog := false;
      isDeleting := false;
    }

    /**
     * `handleDelete`: the bookmark's associations are removed first (result
     * not checked), then every bookmark row with that id, unless the
     * database reports `deleteError`. There is no session check. Both flags
     * are false afterwards on every path (`finally`).
     */
    method HandleDelete(deleteError: Option<string>) returns (toast: Toast)
      modifies this, db
      ensures !isDeleting && !showDeleteDialog
      ensures db.bookmarkTags == Filter(old(db.bookmarkTags), Not(LinksBookmark(bookmarkId)))
      ensures forall l :: l in db.bookmarkTags ==> l.bookmarkId != bookmarkId
      ensures db.folders == old(db.folders) && db.tags == old(db.tags) && db.preferences == old(db.preferences)
      ensures deleteError.Some? ==>
        toast == Toast("Failed to delete bookmark", ErrorText(deleteError.value), true) && db.bookmarks == old(db.bookmarks)
      ensures deleteError.None? ==>
        && toast == Toast("Bookmark deleted", "The bookmark has been successfully deleted.", false)
        && db.bookmarks == Filter(old(db.bookmarks), Not(HasId(bookmarkId)))
        && forall b :: b in db.bookmarks ==> b.id != bookmarkId
    {
      isDeleting := true;
      db.bookmarkTags := Filter(db.bookmarkTags, Not(LinksBookmark(bookmarkId)));
      if deleteError.Some? {
        toast := Toast("Failed to delete bookmark", ErrorText(deleteError.value), true);
      } else {
        db.bookmarks := Filter(db.bookmarks, Not(HasId(bookmarkId)));
        toast := Toast("Bookmark deleted", "The bookmark has been successfully deleted.", false);
      }
      isDeleting := false;
      showDeleteDialog := false;
    }
  }
}
