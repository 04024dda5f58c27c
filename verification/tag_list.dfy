/**
 * components/dashboard/tag-list.tsx: the tag card's delete action, which
 * removes the tag's associations before the tag itself, and the note the
 * confirmation dialog shows for a tag in use.
 */
module TagList {
  import opened Wrappers
  import opened Strings
  import opened Store
  import opened Api
  import opened Toasts

  const NotLoggedIn: string := "You must be logged in to delete tags."

  /**
   * The association delete (`.eq("tag_id", id)`, whoever owns the rows)
   * removes exactly the links to that tag and keeps every other link.
   */
  lemma UnlinkRemovesOnlyThatTag(links: seq<BookmarkTag>, id: string, l: BookmarkTag)
    ensures l in Filter(links, Not(LinksTag(id))) <==> l in links && l.tagId != id
  {
    FilterMembers(links, Not(LinksTag(id)), l);
  }

  const NotePrefix: string := "Note: This tag is associated with "
  const NoteSuffix: string := " bookmark(s). Deleting it will remove the tag from all bookmarks."

  /**
   * The dialog's note, shown only when `bookmark_tags.count > 0`; an absent
   * count (`?.`) shows nothing. The note is the fixed text around the count
   * written in decimal.
   */
  function AssociationNote(count: Option<int>): (r: Option<string>)
    ensures r.Some? <==> count.Some? && count.value > 0
    ensures r.Some? ==>
      && |NotePrefix| + |NoteSuffix| < |r.value|
      && StartsWith(r.value, NotePrefix) && EndsWith(r.value, NoteSuffix)
      && var digits := r.value[|NotePrefix|..|r.value| - |NoteSuffix|];
         && (forall i :: 0 <= i < |digits| ==> IsDigit(digits[i]))
         && DecimalValue(digits) == count.value
         && digits[0] != '0'
  {
    if count.Some? && count.value > 0 then
      var digits := NatToString(count.value);
      var note := NotePrefix + digits + NoteSuffix;
      assert note[..|NotePrefix|] == NotePrefix;
      assert note[|note| - |NoteSuffix|..] == NoteSuffix;
      assert note[|NotePrefix|..|note| - |NoteSuffix|] == digits;
      NatToStringDenotes(count.value);
      Some(note)
    else None
  }

  /** One tag card's action menu, with its dialog and progress flags. */
  class TagActions {
    const db: Db
    const tagId: string
    const tagName: string
    var showDeleteDialog: bool
    var isDeleting: bool

    constructor (db: Db, tagId: string, tagName: string)
      ensures this.db == db && this.tagId == tagId && this.tagName == tagName
      ensures !showDeleteDialog && !isDeleting
    {
      this.db := db;
      this.tagId := tagId;
      this.tagName := tagName;
      showDeleteDialog := false;
      isDeleting := false;
    }

    /**
     * `handleDelete`: no session fails with no row touched; otherwise every
     * association of the tag is removed first (its result is not checked),
     * then the caller's tag row, unless the database reports `deleteError` --
     * in which case the associations are already gone. `isDeleting` is reset
     * on every path (`finally`); the dialog closes only on success.
     */
    method HandleDelete(session: Option<string>, deleteError: Option<string>) returns (toast: Toast)
      modifies this, db
      ensures !isDeleting
      ensures session.None? ==>
        toast == Toast("Failed to delete tag", NotLoggedIn, true)
        && unchanged(db) && showDeleteDialog == old(showDeleteDialog)
      ensures session.Some? ==>
        && db.bookmarkTags == Filter(old(db.bookmarkTags), Not(LinksTag(tagId)))
        && (forall l :: l in db.bookmarkTags ==> l.tagId != tagId)
        && db.bookmarks == old(db.bookmarks) && db.folders == old(db.folders) && db.preferences == old(db.preferences)
      ensures session.Some? && deleteError.Some? ==>
        toast == Toast("Failed to delete tag", ErrorText(deleteError.value), true)
        && db.tags == old(db.tags) && showDeleteDialog == old(showDeleteDialog)
      ensures session.Some? && deleteError.None? ==>
        toast == Toast("Tag deleted", tagName + " has been deleted successfully.", false)
        && db.tags == Filter(old(db.tags), Not(TagMatch(tagId, session.value)))
        && !showDeleteDialog
    {
      isDeleting := true;
      if session.None? {
        isDeleting := false;
        return Toast("Failed to delete tag", NotLoggedIn, true);
      }
      db.bookmarkTags := Filter(db.bookmarkTags, Not(LinksTag(tagId)));
      if deleteError.Some? {
        isDeleting := false;
        return Toast("Failed to delete tag", ErrorText(deleteError.value), true);
      }
      db.tags := Filter(db.tags, Not(TagMatch(tagId, session.value)));
      toast := Toast("Tag deleted", tagName + " has been deleted successfully.", false);
      showDeleteDialog := false;
      isDeleting := false;
    }
  }
}
