/**
 * lib/api.ts: the bookmark, folder and tag services over the database.
 * Each service holds the database it talks to; the signed-in user is the
 * `session` parameter (`None` when signed out), the clock is `now`, and the
 * id the database gives a new row is `newId`, and `dbError` is the message
 * of the error the database call reports (`None` when it succeeds). A query is a filter over one
 * table, `.order` a sort, `.insert` an append and `.delete` keeps the rows
 * that do not match.
 */
module Api {
  import opened Wrappers
  import opened Strings
  import opened Urls
  import opened Validations
  import opened Store

  /** Why a call failed: the schema's issues, or the message of what was thrown. */
  datatype ApiError = Invalid(issues: seq<Issue>) | Failed(message: string)

  /** `ApiResponse<T>`: `success` with `data`, or not with `error`. */
  datatype ApiResponse<T> = Success(data: T) | Failure(error: ApiError)

  const AuthRequired: string := "Authentication required"
  /** What `.single()` reports when the filter matched no row or several. */
  const SingleRowError: string := "JSON object requested, multiple (or no) rows returned"
  const Unexpected: string := "An unexpected error occurred"

  /** `uuidSchema.parse` failing. */
  function InvalidId(): ApiError {
    Invalid([Issue("", "Invalid ID format")])
  }

  /* ------------------------------------------------------ handleApiError */

  /** What a `catch` can receive: an object with a `message`, a bare string, or anything else. */
  datatype Raised = WithMessage(message: string) | Text(text: string) | Opaque

  /** `handleApiError`: a non-empty `message` first, then the string itself, else a fixed text. */
  function HandleApiError(e: Raised): (r: string)
    ensures e.WithMessage? && e.message != [] ==> r == e.message
    ensures e.Text? ==> r == e.text
    ensures !(e.WithMessage? && e.message != []) && !e.Text? ==> r == Unexpected
    ensures r == [] <==> e == Text([])
  {
    match e
    case WithMessage(m) => if m != [] then m else Unexpected
    case Text(s) => s
    case Opaque => Unexpected
  }

  /**
   * What a service answers when the database reports an error: the error
   * object is thrown, and `handleApiError` reads its `message`.
   */
  function DbFailure(message: string): (e: ApiError)
    ensures e.Failed? && e.message != []
    ensures message != [] ==> e.message == message
    ensures message == [] ==> e.message == Unexpected
  {
    Failed(HandleApiError(WithMessage(message)))
  }

  /* ------------------------------------------------------------ helpers */

  /** `value || null` on an optional string: the empty string is falsy. */
  function OrNull(o: Option<string>): (r: Option<string>)
    ensures r.Some? <==> o.Some? && o.value != []
    ensures r.Some? ==> r == o
  {
    if o.Some? && o.value != [] then o else None
  }

  function CreatedAt(b: Bookmark): int { b.createdAt }
  function FolderName(f: Folder): string { f.name }
  function TagName(t: Tag): string { t.name }

  /** `.eq("user_id", user)`, and `.eq("folder_id", folder)` when a folder is given. */
  function ListFilter(user: string, folder: Option<string>): Bookmark -> bool {
    (b: Bookmark) => b.userId == user && (folder.None? || b.folderId == folder)
  }

  /** `.eq("id", id).eq("user_id", user)`. */
  function ById(id: string, user: string): Bookmark -> bool {
    (b: Bookmark) => b.id == id && b.userId == user
  }

  /** `title.ilike.%q%,description.ilike.%q%,url.ilike.%q%` together with the owner filter. */
  function SearchFilter(user: string, query: string): Bookmark -> bool {
    (b: Bookmark) => b.userId == user &&
      (ContainsCI(b.title, query) || (b.description.Some? && ContainsCI(b.description.value, query))
       || ContainsCI(b.url, query))
  }


  function LinksBookmark(id: string): BookmarkTag -> bool { (l: BookmarkTag) => l.bookmarkId == id }
  function LinksTag(id: string): BookmarkTag -> bool { (l: BookmarkTag) => l.tagId == id }

  function FolderOwned(user: string): Folder -> bool { (f: Folder) => f.userId == user }
  function FolderMatch(id: string, user: string): Folder -> bool { (f: Folder) => f.id == id && f.userId == user }
  function TagOwned(user: string): Tag -> bool { (t: Tag) => t.userId == user }
  function TagMatch(id: string, user: string): Tag -> bool { (t: Tag) => t.id == id && t.userId == user }

  function Rows(data: seq<BookmarkWithRelations>): seq<Bookmark> {
    seq(|data|, i requires 0 <= i < |data| => data[i].bookmark)
  }

  /** The select's embedding of folder and tags into each row, keeping the rows' order. */
  function Embed(rows: seq<Bookmark>, folders: seq<Folder>, links: seq<BookmarkTag>, tags: seq<Tag>): (r: seq<BookmarkWithRelations>)
    ensures Rows(r) == rows
    ensures forall x :: x in r ==> x == WithRelations(x.bookmark, folders, links, tags)
  {
    var r := seq(|rows|, i requires 0 <= i < |rows| => WithRelations(rows[i], folders, links, tags));
    assert forall i :: 0 <= i < |rows| ==> Rows(r)[i] == rows[i];
    r
  }

  /** The rows a filter selects, by membership. */
  lemma FilterMembers<T>(s: seq<T>, keep: T -> bool, x: T)
    ensures x in Filter(s, keep) <==> x in s && keep(x)
  {
    var r := Filter(s, keep);
    if x in r {
      assert x in multiset(r);
      var i :| 0 <= i < |r| && r[i] == x;
      assert keep(r[i]);
    }
  }

  /** Sorted newest first and holding exactly the selected rows, each as many times. */
  predicate NewestFirst(rows: seq<Bookmark>, table: seq<Bookmark>, keep: Bookmark -> bool) {
    && multiset(rows) == multiset(Filter(table, keep))
    && SortedDesc(rows, CreatedAt)
  }

  /** A result sorted from a selection holds exactly the table's rows that pass the filter. */
  lemma NewestFirstMembers(rows: seq<Bookmark>, table: seq<Bookmark>, keep: Bookmark -> bool, b: Bookmark)
    requires NewestFirst(rows, table, keep)
    ensures b in rows <==> b in table && keep(b)
  {
    FilterMembers(table, keep, b);
    assert b in rows <==> b in multiset(rows);
    assert b in Filter(table, keep) <==> b in multiset(Filter(table, keep));
  }

  /* ----------------------------------------------------- payload columns */

  /** The columns of the bookmarks table (types/supabase.ts). */
  const BookmarkColumns: set<string> :=
    {"id", "created_at", "updated_at", "url", "title", "description", "favicon", "folder_id", "user_id", "notes"}

  /**
   * The keys of `createBookmark`'s insert payload: the validated fields that
   * are present (the spread keeps `folderId`), `user_id` and `folder_id`.
   */
  function InsertKeys(v: BookmarkData): set<string> {
    {"url", "title", "user_id", "folder_id"}
    + (if v.description.Some? then {"description"} else {})
    + (if v.notes.Some? then {"notes"} else {})
    + (if v.folderId.Some? then {"folderId"} else {})
  }

  /** The keys of `updateBookmark`'s payload: the present fields, `folder_id` and `updated_at`. */
  function UpdateKeys(v: BookmarkPatchInput): set<string> {
    {"folder_id", "updated_at"}
    + (if v.url.Some? then {"url"} else {})
    + (if v.title.Some? then {"title"} else {})
    + (if v.description.Some? then {"description"} else {})
    + (if v.notes.Some? then {"notes"} else {})
    + (if v.folderId.Some? then {"folderId"} else {})
  }

  /** What PostgREST answers to a single-row payload with a key that is not a column of the table. */
  function UnknownColumn(key: string): string {
    "Could not find the '" + key + "' column of 'bookmarks' in the schema cache"
  }

  /**
   * The only key of either payload that is not a column is `folderId`, and
   * it is there exactly when the validated data carries a folder id
   * (`""` included).
   */
  lemma PayloadUnknownKeys(v: BookmarkData, p: BookmarkPatchInput)
    ensures InsertKeys(v) - BookmarkColumns == (if v.folderId.Some? then {"folderId"} else {})
    ensures UpdateKeys(p) - BookmarkColumns == (if p.folderId.Some? then {"folderId"} else {})
  {
    assert "folderId" !in BookmarkColumns;
  }

  /** The row an insert stores: id and timestamps from the database, owner from the session. */
  function NewBookmark(v: BookmarkData, user: string, newId: string, now: int): (b: Bookmark)
    ensures b.userId == user && b.folderId == OrNull(v.folderId) && b.favicon.None?
    ensures b.url == v.url && b.title == v.title && b.description == v.description && b.notes == v.notes
    ensures b.id == newId && b.createdAt == now && b.updatedAt == now
  {
    Bookmark(newId, now, now, v.url, v.title, v.description, None, OrNull(v.folderId), user, v.notes)
  }

  /**
   * The update's effect on one row: present fields overwritten, `folder_id`
   * always overwritten with the patch's folder or null, `updated_at` stamped.
   */
  function Patched(b: Bookmark, v: BookmarkPatchInput, now: int): (r: Bookmark)
    ensures r.id == b.id && r.userId == b.userId && r.createdAt == b.createdAt && r.favicon == b.favicon
    ensures r.updatedAt == now && r.folderId == OrNull(v.folderId)
    ensures r.url == (if v.url.Some? then v.url.value else b.url)
    ensures r.title == (if v.title.Some? then v.title.value else b.title)
    ensures r.description == (if v.description.Some? then v.description else b.description)
    ensures r.notes == (if v.notes.Some? then v.notes else b.notes)
  {
    b.(url := if v.url.Some? then v.url.value else b.url,
       title := if v.title.Some? then v.title.value else b.title,
       description := if v.description.Some? then v.description else b.description,
       notes := if v.notes.Some? then v.notes else b.notes,
       folderId := OrNull(v.folderId),
       updatedAt := now)
  }

  /**
   * An insert the database accepts has no `folderId` key, so its `folder_id`
   * is null: a bookmark created through the service is never in a folder.
   */
  lemma AcceptedInsertHasNoFolder(v: BookmarkData, user: string, newId: string, now: int)
    requires InsertKeys(v) - BookmarkColumns == {}
    ensures NewBookmark(v, user, newId, now).folderId.None?
  {
    PayloadUnknownKeys(v, BookmarkPatchInput(None, None, None, None, None));
  }

  /** Likewise an update the database accepts sets `folder_id` to null: it takes the row out of its folder. */
  lemma AcceptedUpdateClearsFolder(b: Bookmark, v: BookmarkPatchInput, now: int)
    requires UpdateKeys(v) - BookmarkColumns == {}
    ensures Patched(b, v, now).folderId.None?
  {
    PayloadUnknownKeys(BookmarkData([], [], None, None, None), v);
  }

  function PatchWith(v: BookmarkPatchInput, now: int): Bookmark -> Bookmark {
    (b: Bookmark) => Patched(b, v, now)
  }

  /* ---------------------------------------------------- BookmarkService */

  class BookmarkService {
    const db: Db

    constructor (db: Db)
      ensures this.db == db
    {
      this.db := db;
    }

    /**
     * `getBookmarks(folderId?)`: the caller's rows, only those in the folder
     * when a non-empty folder id is given (which must be a UUID), newest first.
     */
    method GetBookmarks(session: Option<string>, folderId: Option<string>, isUuid: string -> bool,
                        dbError: Option<string>)
      returns (r: ApiResponse<seq<BookmarkWithRelations>>)
      ensures session.None? ==> r == Failure(Failed(AuthRequired))
      ensures session.Some? && OrNull(folderId).Some? && !isUuid(folderId.value) ==> r == Failure(InvalidId())
      ensures session.Some? && !(OrNull(folderId).Some? && !isUuid(folderId.value)) && dbError.Some? ==>
        r == Failure(DbFailure(dbError.value))
      ensures session.Some? && !(OrNull(folderId).Some? && !isUuid(folderId.value)) && dbError.None? ==>
        && r.Success?
        && NewestFirst(Rows(r.data), db.bookmarks, ListFilter(session.value, OrNull(folderId)))
        && (forall x :: x in r.data ==> x == WithRelations(x.bookmark, db.folders, db.bookmarkTags, db.tags))
    {
      if session.None? {
        return Failure(Failed(AuthRequired));
      }
      var folder := OrNull(folderId);
      if folder.Some? && !isUuid(folder.value) {
        return Failure(InvalidId());
      }
      if dbError.Some? {
        return Failure(DbFailure(dbError.value));
      }
      var rows := SortDesc(Filter(db.bookmarks, ListFilter(session.value, folder)), CreatedAt);
      r := Success(Embed(rows, db.folders, db.bookmarkTags, db.tags));
    }

    /**
     * `getBookmark(id)`: the id must be a UUID; the one row with that id and
     * the caller as owner, or the single-row error when there is none.
     */
    method GetBookmark(id: string, session: Option<string>, isUuid: string -> bool, dbError: Option<string>)
      returns (r: ApiResponse<BookmarkWithRelations>)
      ensures !isUuid(id) ==> r == Failure(InvalidId())
      ensures isUuid(id) && session.None? ==> r == Failure(Failed(AuthRequired))
      ensures isUuid(id) && session.Some? && dbError.Some? ==> r == Failure(DbFailure(dbError.value))
      ensures r.Success? <==>
        isUuid(id) && session.Some? && dbError.None? && Count(db.bookmarks, ById(id, session.value)) == 1
      ensures isUuid(id) && session.Some? && dbError.None? && !r.Success? ==> r == Failure(Failed(SingleRowError))
      ensures r.Success? ==>
        && r.data.bookmark in db.bookmarks && r.data.bookmark.id == id && r.data.bookmark.userId == session.value
        && r.data == WithRelations(r.data.bookmark, db.folders, db.bookmarkTags, db.tags)
    {
      if !isUuid(id) {
        return Failure(InvalidId());
      }
      if session.None? {
        return Failure(Failed(AuthRequired));
      }
      if dbError.Some? {
        return Failure(DbFailure(dbError.value));
      }
      var rows := Filter(db.bookmarks, ById(id, session.value));
      if |rows| != 1 {
        return Failure(Failed(SingleRowError));
      }
      assert rows[0] in multiset(db.bookmarks) by {
        assert rows[0] in multiset(rows);
      }
      r := Success(WithRelations(rows[0], db.folders, db.bookmarkTags, db.tags));
    }

    /**
     * `createBookmark`: the form is validated before the session is looked
     * at; a payload carrying `folderId` is refused by the database and
     * nothing is stored; otherwise the stored row belongs to the caller.
     */
    method CreateBookmark(input: BookmarkInput, session: Option<string>, parse: UrlParser, isUuid: string -> bool,
                          newId: string, now: int, dbError: Option<string>)
      returns (r: ApiResponse<Bookmark>)
      modifies db
      ensures BookmarkFormSchema(input, parse, isUuid).Err? ==>
        r == Failure(Invalid(BookmarkFormSchema(input, parse, isUuid).error)) && unchanged(db)
      ensures BookmarkFormSchema(input, parse, isUuid).Ok? && session.None? ==>
        r == Failure(Failed(AuthRequired)) && unchanged(db)
      ensures BookmarkFormSchema(input, parse, isUuid).Ok? && session.Some?
              && InsertKeys(BookmarkFormSchema(input, parse, isUuid).value) - BookmarkColumns != {} ==>
        r == Failure(Failed(UnknownColumn("folderId"))) && unchanged(db)
      ensures BookmarkFormSchema(input, parse, isUuid).Ok? && session.Some?
              && InsertKeys(BookmarkFormSchema(input, parse, isUuid).value) - BookmarkColumns == {} && dbError.Some? ==>
        r == Failure(DbFailure(dbError.value)) && unchanged(db)
      ensures BookmarkFormSchema(input, parse, isUuid).Ok? && session.Some?
              && InsertKeys(BookmarkFormSchema(input, parse, isUuid).value) - BookmarkColumns == {} && dbError.None? ==>
        && r == Success(NewBookmark(BookmarkFormSchema(input, parse, isUuid).value, session.value, newId, now))
        && db.bookmarks == old(db.bookmarks) + [r.data]
        && db.folders == old(db.folders) && db.tags == old(db.tags)
        && db.bookmarkTags == old(db.bookmarkTags) && db.preferences == old(db.preferences)
    {
      var validated := BookmarkFormSchema(input, parse, isUuid);
      if validated.Err? {
        return Failure(Invalid(validated.error));
      }
      if session.None? {
        return Failure(Failed(AuthRequired));
      }
      if InsertKeys(validated.value) - BookmarkColumns != {} {
        return Failure(Failed(UnknownColumn("folderId")));
      }
      if dbError.Some? {
        return Failure(DbFailure(dbError.value));
      }
      var row := NewBookmark(validated.value, session.value, newId, now);
      db.bookmarks := db.bookmarks + [row];
      r := Success(row);
    }

    /**
     * `updateBookmark`: id, then patch, then session. A payload carrying
     * `folderId` is refused by the database. Otherwise the row with that id
     * owned by the caller is patched and returned; with no such row nothing
     * changes and the single-row error is reported.
     */
    method UpdateBookmark(id: string, patch: BookmarkPatchInput, session: Option<string>, parse: UrlParser,
                          isUuid: string -> bool, now: int, dbError: Option<string>)
      returns (r: ApiResponse<Bookmark>)
      modifies db
      ensures !isUuid(id) ==> r == Failure(InvalidId()) && unchanged(db)
      ensures isUuid(id) && BookmarkPatchSchema(patch, parse, isUuid).Err? ==>
        r == Failure(Invalid(BookmarkPatchSchema(patch, parse, isUuid).error)) && unchanged(db)
      ensures isUuid(id) && BookmarkPatchSchema(patch, parse, isUuid).Ok? && session.None? ==>
        r == Failure(Failed(AuthRequired)) && unchanged(db)
      ensures isUuid(id) && BookmarkPatchSchema(patch, parse, isUuid).Ok? && session.Some?
              && UpdateKeys(BookmarkPatchSchema(patch, parse, isUuid).value) - BookmarkColumns != {} ==>
        r == Failure(Failed(UnknownColumn("folderId"))) && unchanged(db)
      ensures isUuid(id) && BookmarkPatchSchema(patch, parse, isUuid).Ok? && session.Some?
              && UpdateKeys(BookmarkPatchSchema(patch, parse, isUuid).value) - BookmarkColumns == {} && dbError.Some? ==>
        r == Failure(DbFailure(dbError.value)) && unchanged(db)
      ensures isUuid(id) && BookmarkPatchSchema(patch, parse, isUuid).Ok? && session.Some?
              && UpdateKeys(BookmarkPatchSchema(patch, parse, isUuid).value) - BookmarkColumns == {} && dbError.None? ==>
        var matched := Filter(old(db.bookmarks), ById(id, session.value));
        && (r.Success? <==> |matched| == 1)
        && (r.Success? ==>
              && r.data == Patched(matched[0], BookmarkPatchSchema(patch, parse, isUuid).value, now)
              && db.bookmarks == UpdateWhere(old(db.bookmarks), ById(id, session.value),
                                             PatchWith(BookmarkPatchSchema(patch, parse, isUuid).value, now)))
        && (!r.Success? ==> r == Failure(Failed(SingleRowError)) && db.bookmarks == old(db.bookmarks))
        && db.folders == old(db.folders) && db.tags == old(db.tags)
        && db.bookmarkTags == old(db.bookmarkTags) && db.preferences == old(db.preferences)
    {
      if !isUuid(id) {
        return Failure(InvalidId());
      }
      var validated := BookmarkPatchSchema(patch, parse, isUuid);
      if validated.Err? {
        return Failure(Invalid(validated.error));
      }
      if session.None? {
        return Failure(Failed(AuthRequired));
      }
      if UpdateKeys(validated.value) - BookmarkColumns != {} {
        return Failure(Failed(UnknownColumn("folderId")));
      }
      if dbError.Some? {
        return Failure(DbFailure(dbError.value));
      }
      var matched := Filter(db.bookmarks, ById(id, session.value));
      if |matched| != 1 {
        return Failure(Failed(SingleRowError));
      }
      var v := validated.value;
      db.bookmarks := UpdateWhere(db.bookmarks, ById(id, session.value), PatchWith(v, now));
      r := Success(Patched(matched[0], v, now));
    }

    /**
     * `deleteBookmark`: every association of that bookmark id is removed
     * first (whoever owns it, and whatever that delete reports), then the
     * caller's row with that id. When the row delete fails, the
     * associations are already gone and the row stays.
     */
    method DeleteBookmark(id: string, session: Option<string>, isUuid: string -> bool, dbError: Option<string>)
      returns (r: ApiResponse<()>)
      modifies db
      ensures !isUuid(id) ==> r == Failure(InvalidId()) && unchanged(db)
      ensures isUuid(id) && session.None? ==> r == Failure(Failed(AuthRequired)) && unchanged(db)
      ensures isUuid(id) && session.Some? ==>
        && (r.Success? <==> dbError.None?)
        && (dbError.Some? ==> r == Failure(DbFailure(dbError.value)))
        && db.bookmarkTags == Filter(old(db.bookmarkTags), Not(LinksBookmark(id)))
        && db.bookmarks == (if dbError.None? then Filter(old(db.bookmarks), Not(ById(id, session.value)))
                            else old(db.bookmarks))
        && db.folders == old(db.folders) && db.tags == old(db.tags) && db.preferences == old(db.preferences)
    {
      if !isUuid(id) {
        return Failure(InvalidId());
      }
      if session.None? {
        return Failure(Failed(AuthRequired));
      }
      db.bookmarkTags := Filter(db.bookmarkTags, Not(LinksBookmark(id)));
      if dbError.Some? {
        return Failure(DbFailure(dbError.value));
      }
      db.bookmarks := Filter(db.bookmarks, Not(ById(id, session.value)));
      r := Success(());
    }

    /**
     * `searchBookmarks(query)`: the caller's rows whose title, description or
     * url contains the query ignoring case, newest first; notes are not searched.
     */
    method SearchBookmarks(query: string, session: Option<string>, dbError: Option<string>)
      returns (r: ApiResponse<seq<BookmarkWithRelations>>)
      ensures session.None? ==> r == Failure(Failed(AuthRequired))
      ensures session.Some? && dbError.Some? ==> r == Failure(DbFailure(dbError.value))
      ensures session.Some? && dbError.None? ==>
        && r.Success?
        && NewestFirst(Rows(r.data), db.bookmarks, SearchFilter(session.value, query))
        && (forall x :: x in r.data ==> x == WithRelations(x.bookmark, db.folders, db.bookmarkTags, db.tags))
    {
      if session.None? {
        return Failure(Failed(AuthRequired));
      }
      if dbError.Some? {
        return Failure(DbFailure(dbError.value));
      }
      var rows := SortDesc(Filter(db.bookmarks, SearchFilter(session.value, query)), CreatedAt);
      r := Success(Embed(rows, db.folders, db.bookmarkTags, db.tags));
    }
  }

  /** A listing holds exactly the caller's rows in the folder asked for, and nobody else's. */
  lemma ListedRowsAreExactlyOwned(rows: seq<Bookmark>, table: seq<Bookmark>, user: string, folder: Option<string>, b: Bookmark)
    requires NewestFirst(rows, table, ListFilter(user, folder))
    ensures b in rows <==> b in table && b.userId == user && (folder.Some? ==> b.folderId == folder)
  {
    NewestFirstMembers(rows, table, ListFilter(user, folder), b);
  }

  /** A search result holds exactly the caller's rows matching the query in title, description or url. */
  lemma SearchedRowsMatch(rows: seq<Bookmark>, table: seq<Bookmark>, user: string, query: string, b: Bookmark)
    requires NewestFirst(rows, table, SearchFilter(user, query))
    ensures b in rows <==> (b in table && b.userId == user &&
      (ContainsCI(b.title, query) || (b.description.Some? && ContainsCI(b.description.value, query))
       || ContainsCI(b.url, query)))
  {
    NewestFirstMembers(rows, table, SearchFilter(user, query), b);
  }

  /**
   * A created row under a fresh id is what a later `getBookmark` of that id
   * by the same user finds: exactly one row matches.
   */
  lemma {:induction false} CreatedRowIsFound(table: seq<Bookmark>, row: Bookmark, user: string)
    requires forall b :: b in table ==> b.id != row.id
    requires row.userId == user
    ensures Count(table + [row], ById(row.id, user)) == 1
  {
    FilterAppend(table, [row], ById(row.id, user));
    if Filter(table, ById(row.id, user)) != [] {
      var x := Filter(table, ById(row.id, user))[0];
      FilterMembers(table, ById(row.id, user), x);
      assert false;
    }
    assert Filter([row], ById(row.id, user)) == [row];
  }

  /** An update that keeps each row's match status keeps the number of matching rows. */
  lemma {:induction false} UpdateKeepsMatches<T>(s: seq<T>, matches: T -> bool, change: T -> T)
    requires forall x :: matches(change(x)) == matches(x)
    ensures Count(UpdateWhere(s, matches, change), matches) == Count(s, matches)
  {
    if s != [] {
      var r := UpdateWhere(s, matches, change);
      assert r[1..] == UpdateWhere(s[1..], matches, change);
      UpdateKeepsMatches(s[1..], matches, change);
    }
  }

  /**
   * A patch never changes a row's id or owner, so after a successful update
   * `getBookmark` of the same id still finds exactly one row.
   */
  lemma UpdatedRowStaysFound(table: seq<Bookmark>, id: string, user: string, v: BookmarkPatchInput, now: int)
    requires Count(table, ById(id, user)) == 1
    ensures Count(UpdateWhere(table, ById(id, user), PatchWith(v, now)), ById(id, user)) == 1
  {
    UpdateKeepsMatches(table, ById(id, user), PatchWith(v, now));
  }

  /** A delete leaves no row of the caller with that id, and every other row in place. */
  lemma {:induction false} DeleteRemovesOnlyTheRow(table: seq<Bookmark>, id: string, user: string, b: Bookmark)
    ensures var after := Filter(table, Not(ById(id, user)));
      (b in after <==> b in table && !(b.id == id && b.userId == user))
  {
    FilterMembers(table, Not(ById(id, user)), b);
  }

  /* ------------------------------------------------------ FolderService */

  class FolderService {
    const db: Db

    constructor (db: Db)
      ensures this.db == db
    {
      this.db := db;
    }

    /** `getFolders`: the caller's folders ordered by name. */
    method GetFolders(session: Option<string>, dbError: Option<string>) returns (r: ApiResponse<seq<Folder>>)
      ensures session.None? ==> r == Failure(Failed(AuthRequired))
      ensures session.Some? && dbError.Some? ==> r == Failure(DbFailure(dbError.value))
      ensures session.Some? && dbError.None? ==>
        && r.Success?
        && multiset(r.data) == multiset(Filter(db.folders, FolderOwned(session.value)))
        && SortedByName(r.data, FolderName)
        && (forall f :: f in r.data ==> f in db.folders && f.userId == session.value)
    {
      if session.None? {
        return Failure(Failed(AuthRequired));
      }
      if dbError.Some? {
        return Failure(DbFailure(dbError.value));
      }
      var rows := SortByName(Filter(db.folders, FolderOwned(session.value)), FolderName);
      forall f | f in rows ensures f in db.folders && f.userId == session.value {
        assert f in multiset(rows);
        FilterMembers(db.folders, FolderOwned(session.value), f);
      }
      r := Success(rows);
    }

    /** `createFolder`: validated first; the caller's folder under the parent or at the root. */
    method CreateFolder(input: FolderInput, session: Option<string>, isUuid: string -> bool, newId: string, now: int,
                        dbError: Option<string>)
      returns (r: ApiResponse<Folder>)
      modifies db
      ensures FolderFormSchema(input, isUuid).Err? ==>
        r == Failure(Invalid(FolderFormSchema(input, isUuid).error)) && unchanged(db)
      ensures FolderFormSchema(input, isUuid).Ok? && session.None? ==>
        r == Failure(Failed(AuthRequired)) && unchanged(db)
      ensures FolderFormSchema(input, isUuid).Ok? && session.Some? && dbError.Some? ==>
        r == Failure(DbFailure(dbError.value)) && unchanged(db)
      ensures FolderFormSchema(input, isUuid).Ok? && session.Some? && dbError.None? ==>
        && r == Success(Folder(newId, now, now, FolderFormSchema(input, isUuid).value.name, session.value,
                               OrNull(input.parentId)))
        && db.folders == old(db.folders) + [r.data]
        && db.bookmarks == old(db.bookmarks) && db.tags == old(db.tags)
        && db.bookmarkTags == old(db.bookmarkTags) && db.preferences == old(db.preferences)
    {
      var validated := FolderFormSchema(input, isUuid);
      if validated.Err? {
        return Failure(Invalid(validated.error));
      }
      if session.None? {
        return Failure(Failed(AuthRequired));
      }
      if dbError.Some? {
        return Failure(DbFailure(dbError.value));
      }
      var row := Folder(newId, now, now, validated.value.name, session.value, OrNull(validated.value.parentId));
      db.folders := db.folders + [row];
      r := Success(row);
    }

    /** `deleteFolder`: the caller's folder with that id goes, with no look at what it holds. */
    method DeleteFolder(id: string, session: Option<string>, isUuid: string -> bool, dbError: Option<string>)
      returns (r: ApiResponse<()>)
      modifies db
      ensures !isUuid(id) ==> r == Failure(InvalidId()) && unchanged(db)
      ensures isUuid(id) && session.None? ==> r == Failure(Failed(AuthRequired)) && unchanged(db)
      ensures isUuid(id) && session.Some? && dbError.Some? ==> r == Failure(DbFailure(dbError.value)) && unchanged(db)
      ensures isUuid(id) && session.Some? && dbError.None? ==>
        && r == Success(())
        && db.folders == Filter(old(db.folders), Not(FolderMatch(id, session.value)))
        && db.bookmarks == old(db.bookmarks) && db.tags == old(db.tags)
        && db.bookmarkTags == old(db.bookmarkTags) && db.preferences == old(db.preferences)
    {
      if !isUuid(id) {
        return Failure(InvalidId());
      }
      if session.None? {
        return Failure(Failed(AuthRequired));
      }
      if dbError.Some? {
        return Failure(DbFailure(dbError.value));
      }
      db.folders := Filter(db.folders, Not(FolderMatch(id, session.value)));
      r := Success(());
    }
  }

  /* --------------------------------------------------------- TagService */

  class TagService {
    const db: Db

    constructor (db: Db)
      ensures this.db == db
    {
      this.db := db;
    }

    /** `getTags`: the caller's tags ordered by name. */
    method GetTags(session: Option<string>, dbError: Option<string>) returns (r: ApiResponse<seq<Tag>>)
      ensures session.None? ==> r == Failure(Failed(AuthRequired))
      ensures session.Some? && dbError.Some? ==> r == Failure(DbFailure(dbError.value))
      ensures session.Some? && dbError.None? ==>
        && r.Success?
        && multiset(r.data) == multiset(Filter(db.tags, TagOwned(session.value)))
        && SortedByName(r.data, TagName)
        && (forall t :: t in r.data ==> t in db.tags && t.userId == session.value)
    {
      if session.None? {
        return Failure(Failed(AuthRequired));
      }
      if dbError.Some? {
        return Failure(DbFailure(dbError.value));
      }
      var rows := SortByName(Filter(db.tags, TagOwned(session.value)), TagName);
      forall t | t in rows ensures t in db.tags && t.userId == session.value {
        assert t in multiset(rows);
        FilterMembers(db.tags, TagOwned(session.value), t);
      }
      r := Success(rows);
    }

    /** `createTag`: validated first; the caller's tag with its colour or null. */
    method CreateTag(input: TagInput, session: Option<string>, newId: string, now: int, dbError: Option<string>)
      returns (r: ApiResponse<Tag>)
      modifies db
      ensures TagFormSchema(input).Err? ==> r == Failure(Invalid(TagFormSchema(input).error)) && unchanged(db)
      ensures TagFormSchema(input).Ok? && session.None? ==> r == Failure(Failed(AuthRequired)) && unchanged(db)
      ensures TagFormSchema(input).Ok? && session.Some? && dbError.Some? ==>
        r == Failure(DbFailure(dbError.value)) && unchanged(db)
      ensures TagFormSchema(input).Ok? && session.Some? && dbError.None? ==>
        && r == Success(Tag(newId, now, TagFormSchema(input).value.name, session.value, OrNull(input.color)))
        && db.tags == old(db.tags) + [r.data]
        && db.bookmarks == old(db.bookmarks) && db.folders == old(db.folders)
        && db.bookmarkTags == old(db.bookmarkTags) && db.preferences == old(db.preferences)
    {
      var validated := TagFormSchema(input);
      if validated.Err? {
        return Failure(Invalid(validated.error));
      }
      if session.None? {
        return Failure(Failed(AuthRequired));
      }
      if dbError.Some? {
        return Failure(DbFailure(dbError.value));
      }
      var row := Tag(newId, now, validated.value.name, session.value, OrNull(validated.value.color));
      db.tags := db.tags + [row];
      r := Success(row);
    }

    /**
     * `deleteTag`: the tag's associations go first (whoever owns them, and
     * whatever that delete reports), then the caller's tag. When the tag
     * delete fails, the associations are already gone and the tag stays.
     */
    method DeleteTag(id: string, session: Option<string>, isUuid: string -> bool, dbError: Option<string>)
      returns (r: ApiResponse<()>)
      modifies db
      ensures !isUuid(id) ==> r == Failure(InvalidId()) && unchanged(db)
      ensures isUuid(id) && session.None? ==> r == Failure(Failed(AuthRequired)) && unchanged(db)
      ensures isUuid(id) && session.Some? ==>
        && (r.Success? <==> dbError.None?)
        && (dbError.Some? ==> r == Failure(DbFailure(dbError.value)))
        && db.bookmarkTags == Filter(old(db.bookmarkTags), Not(LinksTag(id)))
        && db.tags == (if dbError.None? then Filter(old(db.tags), Not(TagMatch(id, session.value))) else old(db.tags))
        && db.bookmarks == old(db.bookmarks) && db.folders == old(db.folders) && db.preferences == old(db.preferences)
    {
      if !isUuid(id) {
        return Failure(InvalidId());
      }
      if session.None? {
        return Failure(Failed(AuthRequired));
      }
      db.bookmarkTags := Filter(db.bookmarkTags, Not(LinksTag(id)));
      if dbError.Some? {
        return Failure(DbFailure(dbError.value));
      }
      db.tags := Filter(db.tags, Not(TagMatch(id, session.value)));
      r := Success(());
    }
  }
}
