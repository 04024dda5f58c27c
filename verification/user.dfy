/**
 * hooks/use-user.ts: the preferences read that creates a default row, and
 * the bookmark import. The signed-in user is `user` (`None` when signed
 * out). `JSON.parse`, the HTML link extraction and the bulk bookmark insert
 * are parameters; the tag phase of the import runs over the tags and
 * bookmark_tags tables of the database.
 */
module UserHooks {
  import opened Wrappers
  import opened Strings
  import opened Json
  import opened Store
  import QueryClient
  import QueryHooks

  const NotAuthenticated: string := "Not authenticated"
  const InvalidJsonFormat: string := "Invalid JSON format"
  const UnsupportedFormat: string := "Unsupported file format"
  /** What reading `.bookmarks` of a parsed `null` throws. */
  const NullRead: string := "Cannot read properties of null (reading 'bookmarks')"

  /* --------------------------------------------------------- preferences */

  function OwnPreferences(user: string): Preferences -> bool {
    (p: Preferences) => p.userId == user
  }

  /** The row inserted when the user has none: metadata fetching on, e-mail off. */
  function DefaultPreferences(user: string): (p: Preferences)
    ensures p.userId == user && p.autoFetchMetadata && !p.emailNotifications
  {
    Preferences(user, true, false)
  }

  /* -------------------------------------------------------------- import */

  /** What the file input gives: its MIME type, its name and its text. */
  datatype File = File(mime: string, name: string, text: string)

  /** One `a[href]` element: its `href` and its text content. */
  datatype Link = Link(href: string, text: string)

  type Record = map<string, Json>

  /** The bookmarks array of a parsed JSON file: the `bookmarks` array of an object, or the array itself. */
  function JsonItems(data: Json): (r: Result<seq<Json>, string>)
    ensures r.Ok? <==> data.JArr? || (data.JObj? && "bookmarks" in data.fields && data.fields["bookmarks"].JArr?)
    ensures data.JArr? ==> r == Ok(data.items)
    ensures data.JObj? && r.Ok? ==> r.value == data.fields["bookmarks"].items
    ensures data.JNull? ==> r == Err(NullRead)
    ensures r.Err? && !data.JNull? ==> r.error == InvalidJsonFormat
  {
    match data
    case JNull => Err(NullRead)
    case JObj(fields) =>
      if "bookmarks" in fields && fields["bookmarks"].JArr? then Ok(fields["bookmarks"].items)
      else Err(InvalidJsonFormat)
    case JArr(items) => Ok(items)
    case _ => Err(InvalidJsonFormat)
  }

  /** The record made from one link: its href as url, its text (or the href) as title, the rest null. */
  function HtmlRecord(l: Link): (r: Json)
    ensures r.JObj? && r.fields.Keys == {"url", "title", "description", "favicon", "folder_id", "notes"}
    ensures r.fields["url"] == JStr(l.href)
    ensures r.fields["title"] == JStr(if l.text != [] then l.text else l.href)
    ensures r.fields["description"] == JNull && r.fields["favicon"] == JNull
    ensures r.fields["folder_id"] == JNull && r.fields["notes"] == JNull
  {
    JObj(map["url" := JStr(l.href), "title" := JStr(if l.text != [] then l.text else l.href),
             "description" := JNull, "favicon" := JNull, "folder_id" := JNull, "notes" := JNull])
  }

  function IsJsonFile(file: File): (b: bool)
    ensures file.mime == "application/json" ==> b
    ensures EndsWith(file.name, ".json") ==> b
    ensures file.mime != "application/json" && |file.name| < 5 ==> !b
  {
    file.mime == "application/json" || EndsWith(file.name, ".json")
  }

  /**
   * The format dispatch: a JSON file by type or name, otherwise an HTML
   * file by name, otherwise refused.
   */
  function ImportItems(file: File, jsonParse: string -> Result<Json, string>, links: string -> seq<Link>)
    : (r: Result<seq<Json>, string>)
    ensures IsJsonFile(file) && jsonParse(file.text).Err? ==> r == Err(jsonParse(file.text).error)
    ensures IsJsonFile(file) && jsonParse(file.text).Ok? ==> r == JsonItems(jsonParse(file.text).value)
    ensures !IsJsonFile(file) && EndsWith(file.name, ".html") ==>
      r.Ok? && |r.value| == |links(file.text)| &&
      forall k :: 0 <= k < |r.value| ==> r.value[k] == HtmlRecord(links(file.text)[k])
    ensures !IsJsonFile(file) && !EndsWith(file.name, ".html") ==> r == Err(UnsupportedFormat)
  {
    if IsJsonFile(file) then
      match jsonParse(file.text)
      case Err(e) => Err(e)
      case Ok(data) => JsonItems(data)
    else if EndsWith(file.name, ".html") then
      var ls := links(file.text);
      Ok(seq(|ls|, k requires 0 <= k < |ls| => HtmlRecord(ls[k])))
    else Err(UnsupportedFormat)
  }

  /** The keys that do not belong to the bookmarks table, dropped before the insert. */
  const Dropped: set<string> := {"id", "bookmark_tags", "tags", "folders", "created_at", "updated_at"}

  /** What destructuring a `null` item throws. */
  const NullItem: string := "Cannot destructure property 'id' of 'bookmark' as it is null."

  /** `k` is a decimal numeral below `n`. */
  predicate IsDecimalIndex(k: string, n: nat) {
    (forall j :: 0 <= j < |k| ==> IsDigit(k[j])) && DecimalValue(k) < n
  }

  /** The value a decimal key names. */
  function ValueAt(vals: seq<Json>, k: string): Json {
    if IsDecimalIndex(k, |vals|) then vals[DecimalValue(k)] else JNull
  }

  function IndexKeys(n: nat): set<string> {
    set i | 0 <= i < n :: NatToString(i)
  }

  /** Values under their indices written in decimal, as the own keys of an array or a string. */
  function Indexed(vals: seq<Json>): (r: Record)
    ensures r.Keys == IndexKeys(|vals|)
    ensures forall i :: 0 <= i < |vals| ==> NatToString(i) in r && r[NatToString(i)] == vals[i]
  {
    var r := map k | k in IndexKeys(|vals|) :: ValueAt(vals, k);
    forall i | 0 <= i < |vals| ensures NatToString(i) in r && r[NatToString(i)] == vals[i] {
      NatToStringDenotes(i);
    }
    r
  }

  /** A string's characters as one-character strings. */
  function Chars(s: string): (r: seq<Json>)
    ensures |r| == |s| && forall i :: 0 <= i < |s| ==> r[i] == JStr([s[i]])
  {
    seq(|s|, i requires 0 <= i < |s| => JStr([s[i]]))
  }

  /**
   * The own enumerable keys an object rest pattern copies from an item: an
   * object's fields; an array's elements or a string's characters under their
   * indices; nothing from a number or a boolean.
   */
  function Fields(item: Json): (r: Record)
    ensures item.JObj? ==> r == item.fields
    ensures item.JArr? ==> r == Indexed(item.items)
    ensures item.JStr? ==> r == Indexed(Chars(item.s))
    ensures item.JNull? || item.JBool? || item.JNum? ==> r == map[]
  {
    match item
    case JObj(fields) => fields
    case JArr(items) => Indexed(items)
    case JStr(s) => Indexed(Chars(s))
    case _ => map[]
  }

  /**
   * One item made ready for the insert: a `null` item cannot be
   * destructured and throws; otherwise the dropped keys are removed, every
   * other key is kept and `user_id` is set.
   */
  function Prepare(item: Json, user: string): (r: Result<Record, string>)
    ensures r.Err? <==> item.JNull?
    ensures r.Err? ==> r.error == NullItem
    ensures r.Ok? ==> "user_id" in r.value && r.value["user_id"] == JStr(user)
    ensures r.Ok? ==> forall k :: k in Dropped ==> k !in r.value
    ensures r.Ok? ==> forall k :: k !in Dropped && k != "user_id" ==>
      (k in r.value <==> k in Fields(item)) && (k in r.value ==> r.value[k] == Fields(item)[k])
  {
    if item.JNull? then Err(NullItem) else Ok((Fields(item) - Dropped)["user_id" := JStr(user)])
  }

  /**
   * An array item reaches the insert with every element under its index:
   * index keys are digits, so none of them is dropped or overwritten.
   */
  lemma ArrayItemKeepsEveryElement(items: seq<Json>, user: string, i: nat)
    requires i < |items|
    ensures Prepare(JArr(items), user).Ok?
    ensures NatToString(i) in Prepare(JArr(items), user).value
    ensures Prepare(JArr(items), user).value[NatToString(i)] == items[i]
  {
    var k := NatToString(i);
    assert IsDigit(k[0]);
    assert k !in Dropped && k != "user_id" by {
      assert forall d :: d in Dropped + {"user_id"} ==> !IsDigit(d[0]);
    }
  }

  /** `bookmarks.map(...)`: one record per item in order, or the throw of the first `null` item. */
  function PrepareAll(items: seq<Json>, user: string): (r: Result<seq<Record>, string>)
    ensures r.Err? <==> exists k | 0 <= k < |items| :: items[k].JNull?
    ensures r.Err? ==> r.error == NullItem
    ensures r.Ok? ==> |r.value| == |items| && forall k :: 0 <= k < |items| ==> Ok(r.value[k]) == Prepare(items[k], user)
  {
    if exists k | 0 <= k < |items| :: items[k].JNull? then Err(NullItem)
    else Ok(seq(|items|, k requires 0 <= k < |items| => Prepare(items[k], user).value))
  }

  /* ----------------------------------------------------------- tag phase */

  /** A request to tag bookmark `bookmarkId` with the tag called `name`. */
  datatype TagRequest = TagRequest(bookmarkId: string, name: string, color: Option<string>)

  /** The tags listed on an item: its `tags` array, or none. */
  function TagsField(item: Json): (r: seq<Json>)
    ensures r == [] || (item.JObj? && "tags" in item.fields && item.fields["tags"] == JArr(r))
    ensures item.JObj? && "tags" in item.fields && item.fields["tags"].JArr? ==> r == item.fields["tags"].items
  {
    if item.JObj? && "tags" in item.fields && item.fields["tags"].JArr? then item.fields["tags"].items else []
  }

  /** A listed tag takes part when it is an object with a non-empty string name. */
  function TagName(t: Json): (r: Option<string>)
    ensures r.Some? ==> r.value != [] && t.JObj? && "name" in t.fields && t.fields["name"] == JStr(r.value)
    ensures t.JObj? && "name" in t.fields && t.fields["name"].JStr? && t.fields["name"].s != [] ==> r.Some?
  {
    if t.JObj? && "name" in t.fields && t.fields["name"].JStr? && t.fields["name"].s != [] then Some(t.fields["name"].s)
    else None
  }

  /** `tag.color || null`. */
  function TagColor(t: Json): (r: Option<string>)
    ensures r.Some? ==> r.value != [] && t.JObj? && "color" in t.fields && t.fields["color"] == JStr(r.value)
    ensures t.JObj? && "color" in t.fields && t.fields["color"].JStr? && t.fields["color"].s != [] ==> r.Some?
  {
    if t.JObj? && "color" in t.fields && t.fields["color"].JStr? && t.fields["color"].s != [] then Some(t.fields["color"].s)
    else None
  }

  /** The requests made by the first `m` listed tags of one bookmark, in order. */
  function RequestsOf(bookmarkId: string, tags: seq<Json>, m: nat): (r: seq<TagRequest>)
    requires m <= |tags|
    ensures forall q :: q in r ==> q.bookmarkId == bookmarkId
  {
    if m == 0 then []
    else
      var name := TagName(tags[m - 1]);
      RequestsOf(bookmarkId, tags, m - 1)
        + (if name.Some? then [TagRequest(bookmarkId, name.value, TagColor(tags[m - 1]))] else [])
  }

  lemma RequestsOfStep(bookmarkId: string, tags: seq<Json>, m: nat)
    requires m < |tags|
    ensures RequestsOf(bookmarkId, tags, m + 1) == RequestsOf(bookmarkId, tags, m)
      + (if TagName(tags[m]).Some? then [TagRequest(bookmarkId, TagName(tags[m]).value, TagColor(tags[m]))] else [])
  {
  }

  /** One more listed tag: resolved when it has a name, ignored otherwise. */
  lemma TagStep(start: TagPhase, bookmarkId: string, tags: seq<Json>, j: nat, user: string, now: int,
                newId: nat -> string, insertOk: nat -> bool, before: TagPhase, after: TagPhase)
    requires j < |tags|
    requires before == Run(start, RequestsOf(bookmarkId, tags, j), user, now, newId, insertOk)
    requires TagName(tags[j]).Some? ==>
      after == Resolve(before, TagRequest(bookmarkId, TagName(tags[j]).value, TagColor(tags[j])), user, now, newId, insertOk)
    requires TagName(tags[j]).None? ==> after == before
    ensures after == Run(start, RequestsOf(bookmarkId, tags, j + 1), user, now, newId, insertOk)
  {
    RequestsOfStep(bookmarkId, tags, j);
    if TagName(tags[j]).Some? {
      RunStep(start, RequestsOf(bookmarkId, tags, j), TagRequest(bookmarkId, TagName(tags[j]).value, TagColor(tags[j])),
              user, now, newId, insertOk);
    } else {
      assert RequestsOf(bookmarkId, tags, j + 1) == RequestsOf(bookmarkId, tags, j);
    }
  }

  /** The ids of the inserted rows, in order. */
  function Ids(rows: seq<Bookmark>): (r: seq<string>)
    ensures |r| == |rows| && forall k :: 0 <= k < |rows| ==> r[k] == rows[k].id
  {
    seq(|rows|, k requires 0 <= k < |rows| => rows[k].id)
  }

  /** The requests made by the first `n` items, each with the id its inserted row got. */
  function Requests(items: seq<Json>, ids: seq<string>, n: nat): (r: seq<TagRequest>)
    requires n <= |items| && |items| <= |ids|
    ensures forall q :: q in r ==> q.bookmarkId in ids[..n]
  {
    if n == 0 then [] else Requests(items, ids, n - 1) + RequestsOf(ids[n - 1], TagsField(items[n - 1]), |TagsField(items[n - 1])|)
  }

  lemma RequestsStep(items: seq<Json>, ids: seq<string>, n: nat)
    requires n < |items| <= |ids|
    ensures Requests(items, ids, n + 1) == Requests(items, ids, n) + RequestsOf(ids[n], TagsField(items[n]), |TagsField(items[n])|)
  {
  }

  /** The two tables the tag phase writes, and how many tag inserts it has tried. */
  datatype TagPhase = TagPhase(tags: seq<Tag>, links: seq<BookmarkTag>, attempts: nat)

  /** `.eq("name", name).eq("user_id", user)`. */
  function Named(name: string, user: string): Tag -> bool {
    (t: Tag) => t.name == name && t.userId == user
  }

  /**
   * One request: `.single()` finds the user's tag of that name only when it
   * is the one such row; otherwise a tag is inserted (with the database's
   * `newId` for this attempt) unless that insert fails, in which case the
   * request is skipped. The association is then added.
   */
  function Resolve(s: TagPhase, q: TagRequest, user: string, now: int, newId: nat -> string,
                   insertOk: nat -> bool): (r: TagPhase)
    ensures Count(s.tags, Named(q.name, user)) == 1 ==>
      r.tags == s.tags && r.attempts == s.attempts &&
      exists t :: t in s.tags && Named(q.name, user)(t) && r.links == s.links + [BookmarkTag(q.bookmarkId, t.id)]
    ensures Count(s.tags, Named(q.name, user)) != 1 && !insertOk(s.attempts) ==>
      r == s.(attempts := s.attempts + 1)
    ensures Count(s.tags, Named(q.name, user)) != 1 && insertOk(s.attempts) ==>
      r == TagPhase(s.tags + [Tag(newId(s.attempts), now, q.name, user, q.color)],
                    s.links + [BookmarkTag(q.bookmarkId, newId(s.attempts))], s.attempts + 1)
  {
    var found := Filter(s.tags, Named(q.name, user));
    if |found| == 1 then
      assert found[0] in multiset(s.tags) by { assert found[0] in multiset(found); }
      s.(links := s.links + [BookmarkTag(q.bookmarkId, found[0].id)])
    else if !insertOk(s.attempts) then
      s.(attempts := s.attempts + 1)
    else
      var id := newId(s.attempts);
      TagPhase(s.tags + [Tag(id, now, q.name, user, q.color)], s.links + [BookmarkTag(q.bookmarkId, id)], s.attempts + 1)
  }

  /** The requests resolved one after another, in order. */
  function Run(s: TagPhase, qs: seq<TagRequest>, user: string, now: int, newId: nat -> string,
               insertOk: nat -> bool): (r: TagPhase)
    ensures s.attempts <= r.attempts <= s.attempts + |qs|
  {
    if qs == [] then s
    else Resolve(Run(s, qs[..|qs| - 1], user, now, newId, insertOk), qs[|qs| - 1], user, now, newId, insertOk)
  }

  lemma RunStep(s: TagPhase, qs: seq<TagRequest>, q: TagRequest, user: string, now: int, newId: nat -> string,
                insertOk: nat -> bool)
    ensures Run(s, qs + [q], user, now, newId, insertOk)
         == Resolve(Run(s, qs, user, now, newId, insertOk), q, user, now, newId, insertOk)
  {
    assert (qs + [q])[..|qs|] == qs;
  }

  /** One request adds at most one tag and at most one association, and keeps what was there. */
  lemma ResolveOnlyAppends(s: TagPhase, q: TagRequest, user: string, now: int, newId: nat -> string,
                           insertOk: nat -> bool)
    ensures var r := Resolve(s, q, user, now, newId, insertOk);
      && |s.tags| <= |r.tags| <= |s.tags| + 1 && r.tags[..|s.tags|] == s.tags
      && |s.links| <= |r.links| <= |s.links| + 1 && r.links[..|s.links|] == s.links
      && (|r.links| > |s.links| ==> r.links[|s.links|].bookmarkId == q.bookmarkId)
  {
    var r := Resolve(s, q, user, now, newId, insertOk);
    assert r.tags[..|s.tags|] == s.tags;
    assert r.links[..|s.links|] == s.links;
  }

  /** Resolving two runs of requests one after the other is resolving them together. */
  lemma {:induction false} RunAppend(s: TagPhase, a: seq<TagRequest>, b: seq<TagRequest>, user: string, now: int,
                                     newId: nat -> string, insertOk: nat -> bool)
    ensures Run(s, a + b, user, now, newId, insertOk) == Run(Run(s, a, user, now, newId, insertOk), b, user, now, newId, insertOk)
  {
    if b == [] {
      assert a + b == a;
    } else {
      var init := b[..|b| - 1];
      RunAppend(s, a, init, user, now, newId, insertOk);
      assert (a + b)[..|a + b| - 1] == a + init;
      assert (a + b)[|a + b| - 1] == b[|b| - 1];
    }
  }

  /**
   * The tag phase only adds rows: earlier tags and associations stay, in
   * place, and each request adds at most one tag and one association.
   */
  lemma {:induction false} RunOnlyAppends(s: TagPhase, qs: seq<TagRequest>, user: string, now: int,
                                          newId: nat -> string, insertOk: nat -> bool)
    ensures var r := Run(s, qs, user, now, newId, insertOk);
      && |s.tags| <= |r.tags| <= |s.tags| + |qs| && r.tags[..|s.tags|] == s.tags
      && |s.links| <= |r.links| <= |s.links| + |qs| && r.links[..|s.links|] == s.links
  {
    if qs != [] {
      var init := qs[..|qs| - 1];
      RunOnlyAppends(s, init, user, now, newId, insertOk);
      var p := Run(s, init, user, now, newId, insertOk);
      ResolveOnlyAppends(p, qs[|qs| - 1], user, now, newId, insertOk);
      var r := Resolve(p, qs[|qs| - 1], user, now, newId, insertOk);
      assert r.tags[..|s.tags|] == r.tags[..|p.tags|][..|s.tags|];
      assert r.links[..|s.links|] == r.links[..|p.links|][..|s.links|];
    }
  }

  /** One request never leaves two of the user's tags with the name where there was at most one. */
  lemma ResolveKeepsNamesUnique(s: TagPhase, q: TagRequest, name: string, user: string, now: int,
                                newId: nat -> string, insertOk: nat -> bool)
    requires Count(s.tags, Named(name, user)) <= 1
    ensures Count(Resolve(s, q, user, now, newId, insertOk).tags, Named(name, user)) <= 1
  {
    var r := Resolve(s, q, user, now, newId, insertOk);
    if r.tags != s.tags {
      var t := Tag(newId(s.attempts), now, q.name, user, q.color);
      assert r.tags == s.tags + [t];
      FilterAppend(s.tags, [t], Named(name, user));
      if Named(name, user)(t) {
        assert Count(s.tags, Named(q.name, user)) == 0;
      }
    }
  }

  /**
   * Lookups run one at a time, so a name repeated within one import gives
   * the user at most one tag of that name, provided there was at most one before.
   */
  lemma {:induction false} ImportKeepsNamesUnique(s: TagPhase, qs: seq<TagRequest>, name: string, user: string,
                                                  now: int, newId: nat -> string, insertOk: nat -> bool)
    requires Count(s.tags, Named(name, user)) <= 1
    ensures Count(Run(s, qs, user, now, newId, insertOk).tags, Named(name, user)) <= 1
  {
    if qs != [] {
      ImportKeepsNamesUnique(s, qs[..|qs| - 1], name, user, now, newId, insertOk);
      ResolveKeepsNamesUnique(Run(s, qs[..|qs| - 1], user, now, newId, insertOk), qs[|qs| - 1], name, user, now,
                              newId, insertOk);
    }
  }

  /** A request for a name the user already has exactly once reuses that tag and creates none. */
  lemma ExistingTagIsReused(s: TagPhase, q: TagRequest, user: string, now: int, newId: nat -> string,
                            insertOk: nat -> bool)
    requires Count(s.tags, Named(q.name, user)) == 1
    ensures var r := Resolve(s, q, user, now, newId, insertOk);
      r.tags == s.tags && |r.links| == |s.links| + 1 && r.links[|s.links|].bookmarkId == q.bookmarkId
      && exists t :: t in s.tags && t.name == q.name && t.userId == user && r.links[|s.links|].tagId == t.id
  {
  }

  /* ------------------------------------------------------------- service */

  /** The user hooks over the database. */
  class UserData {
    const db: Db

    constructor (db: Db)
      ensures this.db == db
    {
      this.db := db;
    }

    /**
     * `useUserPreferences`: the user's row when the read finds exactly one;
     * when it finds none (or several, which `.single()` reports the same
     * way) a default row is inserted and returned. `readError` is any other
     * failure of the read and `insertError` a failure of the insert; both
     * are thrown.
     */
    method UserPreferences(user: Option<string>, readError: Option<string>, insertError: Option<string>)
      returns (r: Result<Preferences, string>)
      modifies db
      ensures user.None? ==> r == Err(NotAuthenticated) && unchanged(db)
      ensures user.Some? && readError.Some? ==> r == Err(readError.value) && unchanged(db)
      ensures user.Some? && readError.None? && Count(old(db.preferences), OwnPreferences(user.value)) == 1 ==>
        r.Ok? && r.value in old(db.preferences) && r.value.userId == user.value && unchanged(db)
      ensures user.Some? && readError.None? && Count(old(db.preferences), OwnPreferences(user.value)) != 1 ==>
        if insertError.Some? then r == Err(insertError.value) && unchanged(db)
        else
          && r == Ok(DefaultPreferences(user.value))
          && db.preferences == old(db.preferences) + [r.value]
          && db.bookmarks == old(db.bookmarks) && db.folders == old(db.folders)
          && db.tags == old(db.tags) && db.bookmarkTags == old(db.bookmarkTags)
    {
      if user.None? {
        return Err(NotAuthenticated);
      }
      if readError.Some? {
        return Err(readError.value);
      }
      var rows := Filter(db.preferences, OwnPreferences(user.value));
      if |rows| == 1 {
        assert rows[0] in multiset(db.preferences) by { assert rows[0] in multiset(rows); }
        return Ok(rows[0]);
      }
      if insertError.Some? {
        return Err(insertError.value);
      }
      var row := DefaultPreferences(user.value);
      db.preferences := db.preferences + [row];
      r := Ok(row);
    }

    /** One pass of the inner loop of the tag phase: look the name up, create the tag if needed, link it. */
    method ResolveRequest(q: TagRequest, user: string, now: int, newTagId: nat -> string, tagInsertOk: nat -> bool,
                          attempts: nat)
      returns (next: nat)
      modifies db
      ensures TagPhase(db.tags, db.bookmarkTags, next)
           == Resolve(TagPhase(old(db.tags), old(db.bookmarkTags), attempts), q, user, now, newTagId, tagInsertOk)
      ensures db.bookmarks == old(db.bookmarks) && db.folders == old(db.folders) && db.preferences == old(db.preferences)
    {
      var found := Filter(db.tags, Named(q.name, user));
      if |found| == 1 {
        db.bookmarkTags := db.bookmarkTags + [BookmarkTag(q.bookmarkId, found[0].id)];
        return attempts;
      }
      if tagInsertOk(attempts) {
        var tagId := newTagId(attempts);
        db.tags := db.tags + [Tag(tagId, now, q.name, user, q.color)];
        db.bookmarkTags := db.bookmarkTags + [BookmarkTag(q.bookmarkId, tagId)];
      }
      next := attempts + 1;
    }

    /** One listed tag of the inner loop: resolved when it has a name, skipped otherwise. */
    method TagListed(bookmarkId: string, tags: seq<Json>, j: nat, user: string, now: int, newTagId: nat -> string,
                     tagInsertOk: nat -> bool, ghost start: TagPhase, attempts: nat)
      returns (next: nat)
      requires j < |tags|
      requires TagPhase(db.tags, db.bookmarkTags, attempts)
            == Run(start, RequestsOf(bookmarkId, tags, j), user, now, newTagId, tagInsertOk)
      modifies db
      ensures TagPhase(db.tags, db.bookmarkTags, next)
           == Run(start, RequestsOf(bookmarkId, tags, j + 1), user, now, newTagId, tagInsertOk)
      ensures db.bookmarks == old(db.bookmarks) && db.folders == old(db.folders) && db.preferences == old(db.preferences)
    {
      var t := tags[j];
      var name := TagName(t);
      ghost var before := TagPhase(db.tags, db.bookmarkTags, attempts);
      next := attempts;
      if name.Some? {
        next := ResolveRequest(TagRequest(bookmarkId, name.value, TagColor(t)), user, now, newTagId, tagInsertOk, attempts);
      }
      TagStep(start, bookmarkId, tags, j, user, now, newTagId, tagInsertOk, before, TagPhase(db.tags, db.bookmarkTags, next));
    }

    /** The inner loop: every listed tag of one inserted bookmark, in order. */
    method TagBookmark(bookmarkId: string, tags: seq<Json>, user: string, now: int, newTagId: nat -> string,
                       tagInsertOk: nat -> bool, attempts: nat)
      returns (next: nat)
      modifies db
      ensures TagPhase(db.tags, db.bookmarkTags, next)
           == Run(TagPhase(old(db.tags), old(db.bookmarkTags), attempts), RequestsOf(bookmarkId, tags, |tags|),
                  user, now, newTagId, tagInsertOk)
      ensures db.bookmarks == old(db.bookmarks) && db.folders == old(db.folders) && db.preferences == old(db.preferences)
    {
      ghost var start := TagPhase(db.tags, db.bookmarkTags, attempts);
      next := attempts;
      var j := 0;
      while j < |tags|
        invariant 0 <= j <= |tags|
        invariant TagPhase(db.tags, db.bookmarkTags, next)
               == Run(start, RequestsOf(bookmarkId, tags, j), user, now, newTagId, tagInsertOk)
        invariant db.bookmarks == old(db.bookmarks) && db.folders == old(db.folders)
        invariant db.preferences == old(db.preferences)
      {
        next := TagListed(bookmarkId, tags, j, user, now, newTagId, tagInsertOk, start, next);
        j := j + 1;
      }
    }

    /** The outer loop: the listed tags of every item, attached to the row inserted for it. */
    method TagAll(items: seq<Json>, ids: seq<string>, user: string, now: int, newTagId: nat -> string,
                  tagInsertOk: nat -> bool)
      returns (attempts: nat)
      requires |items| <= |ids|
      modifies db
      ensures TagPhase(db.tags, db.bookmarkTags, attempts)
           == Run(TagPhase(old(db.tags), old(db.bookmarkTags), 0), Requests(items, ids, |items|),
                  user, now, newTagId, tagInsertOk)
      ensures db.bookmarks == old(db.bookmarks) && db.folders == old(db.folders) && db.preferences == old(db.preferences)
    {
      ghost var start := TagPhase(db.tags, db.bookmarkTags, 0);
      attempts := 0;
      var i := 0;
      while i < |items|
        invariant 0 <= i <= |items|
        invariant TagPhase(db.tags, db.bookmarkTags, attempts) == Run(start, Requests(items, ids, i), user, now, newTagId, tagInsertOk)
        invariant db.bookmarks == old(db.bookmarks) && db.folders == old(db.folders)
        invariant db.preferences == old(db.preferences)
      {
        var tags := TagsField(items[i]);
        RequestsStep(items, ids, i);
        attempts := TagBookmark(ids[i], tags, user, now, newTagId, tagInsertOk, attempts);
        RunAppend(start, Requests(items, ids, i), RequestsOf(ids[i], tags, |tags|), user, now, newTagId, tagInsertOk);
        i := i + 1;
      }
    }

    /**
     * `useImportBookmarks`: the user check, the format dispatch, one insert
     * of all the prepared records (`insertBookmarks` is the database's answer:
     * the stored rows in order, or an error), then the tag phase over every
     * item's tags. Returns the inserted rows.
     */
    method ImportBookmarks(user: Option<string>, file: File, jsonParse: string -> Result<Json, string>,
                           links: string -> seq<Link>, insertBookmarks: seq<Record> -> Result<seq<Bookmark>, string>,
                           newTagId: nat -> string, tagInsertOk: nat -> bool, now: int)
      returns (r: Result<seq<Bookmark>, string>)
      requires forall recs :: insertBookmarks(recs).Ok? ==> |insertBookmarks(recs).value| == |recs|
      modifies db
      ensures user.None? ==> r == Err(NotAuthenticated) && unchanged(db)
      ensures user.Some? && ImportItems(file, jsonParse, links).Err? ==>
        r == Err(ImportItems(file, jsonParse, links).error) && unchanged(db)
      ensures user.Some? && ImportItems(file, jsonParse, links).Ok?
              && PrepareAll(ImportItems(file, jsonParse, links).value, user.value).Err? ==>
        r == Err(NullItem) && unchanged(db)
      ensures user.Some? && ImportItems(file, jsonParse, links).Ok?
              && PrepareAll(ImportItems(file, jsonParse, links).value, user.value).Ok? ==>
        var items := ImportItems(file, jsonParse, links).value;
        var answer := insertBookmarks(PrepareAll(items, user.value).value);
        && r == answer
        && (answer.Err? ==> unchanged(db))
        && (answer.Ok? ==>
              var phase := Run(TagPhase(old(db.tags), old(db.bookmarkTags), 0), Requests(items, Ids(answer.value), |items|),
                               user.value, now, newTagId, tagInsertOk);
              && db.bookmarks == old(db.bookmarks) + answer.value
              && db.tags == phase.tags && db.bookmarkTags == phase.links
              && db.folders == old(db.folders) && db.preferences == old(db.preferences))
    {
      if user.None? {
        return Err(NotAuthenticated);
      }
      var u := user.value;
      var source := ImportItems(file, jsonParse, links);
      if source.Err? {
        return Err(source.error);
      }
      var items := source.value;
      var prepared := PrepareAll(items, u);
      if prepared.Err? {
        return Err(prepared.error);
      }
      var answer := insertBookmarks(prepared.value);
      if answer.Err? {
        return answer;
      }
      var inserted := answer.value;
      db.bookmarks := db.bookmarks + inserted;
      var ids := Ids(inserted);
      var _ := TagAll(items, ids, u, now, newTagId, tagInsertOk);
      r := Ok(inserted);
    }
  }

  /** `useImportBookmarks` `onSuccess`: everything under `["bookmarks"]` and `["tags"]` is marked stale. */
  method ImportSucceeded(cache: QueryHooks.QueryCache)
    modifies cache
    ensures cache.data == old(cache.data)
    ensures cache.stale == old(cache.stale) + {QueryClient.All, QueryClient.TagsKey()}
  {
    cache.stale := cache.stale + {QueryClient.All, QueryClient.TagsKey()};
  }
}
