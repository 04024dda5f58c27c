/**
 * components/dashboard/folder-list.tsx: the folder card's delete action.
 * It refuses to delete a folder that still holds bookmarks or subfolders,
 * checking bookmarks first, and otherwise deletes the caller's folder row.
 * The probes' own errors are not looked at: a probe that fails finds nothing.
 */
module FolderList {
  import opened Wrappers
  import opened Store
  import opened Api
  import opened Toasts

  const NotLoggedIn: string := "You must be logged in to delete folders."
  const HoldsBookmarks: string := "This folder contains bookmarks. Please move or delete the bookmarks first."
  const HoldsSubfolders: string := "This folder contains subfolders. Please move or delete the subfolders first."

  /** `.from("bookmarks").eq("folder_id", id)`: not restricted to the caller. */
  function InFolder(id: string): Bookmark -> bool {
    (b: Bookmark) => b.folderId == Some(id)
  }

  /** `.from("folders").eq("parent_id", id)`: not restricted to the caller. */
  function ChildOf(id: string): Folder -> bool {
    (f: Folder) => f.parentId == Some(id)
  }

  /** Some bookmark is filed in the folder: exactly when its probe finds a row. */
  function HasBookmarks(bookmarks: seq<Bookmark>, id: string): (b: bool)
    ensures b <==> |Filter(bookmarks, InFolder(id))| > 0
  {
    var hits := Filter(bookmarks, InFolder(id));
    assert hits != [] ==> hits[0] in bookmarks && hits[0].folderId == Some(id) by {
      if hits != [] { assert hits[0] in multiset(hits); }
    }
    exists b :: b in bookmarks && b.folderId == Some(id)
  }

  /** Some folder names this one as its parent: exactly when its probe finds a row. */
  function HasSubfolders(folders: seq<Folder>, id: string): (b: bool)
    ensures b <==> |Filter(folders, ChildOf(id))| > 0
  {
    var hits := Filter(folders, ChildOf(id));
    assert hits != [] ==> hits[0] in folders && hits[0].parentId == Some(id) by {
      if hits != [] { assert hits[0] in multiset(hits); }
    }
    exists f :: f in folders && f.parentId == Some(id)
  }

  /** The first-row probes (`.limit(1)`) find a row exactly when some row refers to the folder. */
  lemma ProbesFindReferences(bookmarks: seq<Bookmark>, folders: seq<Folder>, id: string)
    ensures |Filter(bookmarks, InFolder(id))| > 0 <==> HasBookmarks(bookmarks, id)
    ensures |Filter(folders, ChildOf(id))| > 0 <==> HasSubfolders(folders, id)
  {
    var hits := Filter(bookmarks, InFolder(id));
    if |hits| > 0 {
      assert hits[0] in multiset(bookmarks) by { assert hits[0] in multiset(hits); }
    }
    var subs := Filter(folders, ChildOf(id));
    if |subs| > 0 {
      assert subs[0] in multiset(folders) by { assert subs[0] in multiset(subs); }
    }
  }

  /**
   * Once the subfolder probe came back empty, deleting the folder row leaves
   * no folder pointing at it, and exactly the caller's row is gone.
   */
  lemma {:induction false} GuardedDeleteLeavesNoOrphans(bookmarks: seq<Bookmark>, folders: seq<Folder>, id: string, user: string)
    requires !HasSubfolders(folders, id)
    ensures var after := Filter(folders, Not(FolderMatch(id, user)));
      && !HasSubfolders(after, id)
      && (forall f :: f in after <==> f in folders && !(f.id == id && f.userId == user))
  {
    var after := Filter(folders, Not(FolderMatch(id, user)));
    forall f
      ensures f in after <==> f in folders && !(f.id == id && f.userId == user)
    {
      FilterMembers(folders, Not(FolderMatch(id, user)), f);
    }
  }

  /** One folder card's action menu, with its dialog and progress flags. */
  class FolderActions {
    const db: Db
    const folderId: string
    const folderName: string
    var showDeleteDialog: bool
    var isDeleting: bool

    constructor (db: Db, folderId: string, folderName: string)
      ensures this.db == db && this.folderId == folderId && this.folderName == folderName
      ensures !showDeleteDialog && !isDeleting
    {
      this.db := db;
      this.folderId := folderId;
      this.folderName := folderName;
      showDeleteDialog := false;
      isDeleting := false;
    }

    /**
     * `handleDelete`: no session fails; a folder holding bookmarks, or else
     * subfolders, is refused with no row touched; otherwise the caller's row
     * with that id is deleted, unless the database reports `deleteError`.
     * A probe whose select fails (`bookmarkProbeFailed`,
     * `subfolderProbeFailed`) has no data, and its error is not looked at:
     * its guard is passed as if nothing were found.
     * `isDeleting` is false whatever happens; the dialog closes on a refusal
     * and on success, and stays as it was when an error is shown.
     */
    method HandleDelete(session: Option<string>, bookmarkProbeFailed: bool, subfolderProbeFailed: bool,
                        deleteError: Option<string>)
      returns (toast: Toast)
      modifies this, db
      ensures !isDeleting
      ensures session.None? ==>
        toast == Toast("Failed to delete folder", NotLoggedIn, true)
        && unchanged(db) && showDeleteDialog == old(showDeleteDialog)
      ensures session.Some? && !bookmarkProbeFailed && HasBookmarks(old(db.bookmarks), folderId) ==>
        toast == Toast("Cannot delete folder", HoldsBookmarks, true) && unchanged(db) && !showDeleteDialog
      ensures session.Some? && !(!bookmarkProbeFailed && HasBookmarks(old(db.bookmarks), folderId))
              && !subfolderProbeFailed && HasSubfolders(old(db.folders), folderId) ==>
        toast == Toast("Cannot delete folder", HoldsSubfolders, true) && unchanged(db) && !showDeleteDialog
      ensures session.Some? && !(!bookmarkProbeFailed && HasBookmarks(old(db.bookmarks), folderId))
              && !(!subfolderProbeFailed && HasSubfolders(old(db.folders), folderId)) ==>
        if deleteError.Some? then
          toast == Toast("Failed to delete folder", ErrorText(deleteError.value), true)
          && unchanged(db) && showDeleteDialog == old(showDeleteDialog)
        else
          && toast == Toast("Folder deleted", folderName + " has been deleted successfully.", false)
          && db.folders == Filter(old(db.folders), Not(FolderMatch(folderId, session.value)))
          && (!bookmarkProbeFailed ==> !HasBookmarks(db.bookmarks, folderId))
          && (!subfolderProbeFailed ==> !HasSubfolders(db.folders, folderId))
          && db.bookmarks == old(db.bookmarks) && db.tags == old(db.tags)
          && db.bookmarkTags == old(db.bookmarkTags) && db.preferences == old(db.preferences)
          && !showDeleteDialog
    {
      isDeleting := true;
      if session.None? {
        isDeleting := false;
        return Toast("Failed to delete folder", NotLoggedIn, true);
      }
      ProbesFindReferences(db.bookmarks, db.folders, folderId);
      var bookmarks := if bookmarkProbeFailed then [] else Filter(db.bookmarks, InFolder(folderId));
      if |bookmarks| > 0 {
        showDeleteDialog := false;
        isDeleting := false;
        return Toast("Cannot delete folder", HoldsBookmarks, true);
      }
      var subfolders := if subfolderProbeFailed then [] else Filter(db.folders, ChildOf(folderId));
      if |subfolders| > 0 {
        showDeleteDialog := false;
        isDeleting := false;
        return Toast("Cannot delete folder", HoldsSubfolders, true);
      }
      if deleteError.Some? {
        isDeleting := false;
        return Toast("Failed to delete folder", ErrorText(deleteError.value), true);
      }
      if !subfolderProbeFailed {
        GuardedDeleteLeavesNoOrphans(db.bookmarks, db.folders, folderId, session.value);
      }
      db.folders := Filter(db.folders, Not(FolderMatch(folderId, session.value)));
      toast := Toast("Folder deleted", folderName + " has been deleted successfully.", false);
      showDeleteDialog := false;
      isDeleting := false;
    }
  }
}
