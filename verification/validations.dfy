/**
 * The form schemas of lib/validations.ts. Each zod schema becomes a function
 * from the raw field to `Ok(parsed value)` or `Err(messages)`. zod keeps
 * checking after a failed `min`/`max`/`regex` (the value is only "dirty"), so
 * a field reports every check it fails, in declaration order; a `transform`
 * runs only on a valid value.
 */
module Validations {
  import opened Wrappers
  import opened Strings
  import opened Urls

  datatype Issue = Issue(path: string, message: string)

  /* ---------------------------------------------------------------- URL */

  /** A line terminator, which the regular-expression `.` does not match. */
  predicate IsLineTerminator(c: char) {
    c == '\n' || c == '\r' || c as int == 0x2028 || c as int == 0x2029
  }

  /** `/^https?:\/\/.+/`: a lower-case scheme, `://`, and one more character. */
  predicate MatchesUrlRegex(s: string) {
    (StartsWith(s, "http://") && |s| > 7 && !IsLineTerminator(s[7]))
    || (StartsWith(s, "https://") && |s| > 8 && !IsLineTerminator(s[8]))
  }

  /** The `refine` step: `new URL(url)` succeeds with an http or https protocol. */
  predicate ParsesAsHttp(url: string, parse: UrlParser) {
    var p := parse(url);
    p.Some? && (p.value.protocol == "http:" || p.value.protocol == "https:")
  }

  function UrlMessages(url: string, parse: UrlParser): seq<string> {
    (if |url| < 1 then ["URL is required"] else [])
    + (if !MatchesUrlRegex(url) then ["Must be a valid HTTP/HTTPS URL"] else [])
    + (if !ParsesAsHttp(url, parse) then ["Invalid URL format"] else [])
  }

  /** `urlSchema`. */
  function UrlSchema(url: string, parse: UrlParser): (r: Result<string, seq<string>>)
    ensures r.Ok? <==> MatchesUrlRegex(url) && ParsesAsHttp(url, parse)
    ensures r.Ok? ==> r.value == url && |url| >= 8
    ensures r.Ok? ==> StartsWith(url, "http://") || StartsWith(url, "https://")
    ensures r.Err? ==> |r.error| >= 1
  {
    var m := UrlMessages(url, parse);
    if m == [] then Ok(url) else Err(m)
  }

  /* -------------------------------------------------------------- colour */

  /** `/^#[0-9A-F]{6}$/i`. */
  predicate MatchesHexColor(s: string) {
    |s| == 7 && s[0] == '#' && forall i :: 1 <= i < 7 ==> IsHexDigit(s[i])
  }

  /** `colorSchema`: optional, and when present a `#` and six hex digits in either case. */
  function ColorSchema(color: Option<string>): (r: Result<Option<string>, seq<string>>)
    ensures r.Ok? <==> color.None? || MatchesHexColor(color.value)
    ensures r.Ok? ==> r.value == color
  {
    match color
    case None => Ok(None)
    case Some(c) =>
      if MatchesHexColor(c) then Ok(Some(c)) else Err(["Please enter a valid hex color code"])
  }

  /* -------------------------------------------------- script stripping */

  const ScriptOpen: string := "<script"
  const ScriptClose: string := "</script>"

  /**
   * The length of the match of
   * `/<script\b[^<]*(?:(?!<\/script>)<[^<]*)*<\/script>/i` that starts at the
   * beginning of `s`, if there is one: `<script` followed by a non-word
   * character, up to and including the first `</script>` after it.
   */
  function ScriptBlockAt(s: string): (r: Option<nat>)
    ensures r.Some? ==> 16 <= r.value <= |s|
  {
    if StartsWithCI(s, ScriptOpen) && |s| > 7 && !IsWordChar(s[7]) then
      match FindCI(s, ScriptClose, 7)
      case Some(j) => Some(j + 9)
      case None => None
    else None
  }

  /** `sanitizeText`: one left-to-right pass of the global script-block replace. */
  function StripScriptBlocks(s: string): (r: string)
    ensures |r| <= |s|
    decreases |s|
  {
    if s == [] then []
    else match ScriptBlockAt(s)
      case Some(n) => StripScriptBlocks(s[n..])
      case None => [s[0]] + StripScriptBlocks(s[1..])
  }

  /** A complete block as the pattern matches it. */
  predicate IsScriptBlock(b: string) {
    |b| >= 16 && StartsWithCI(b, ScriptOpen) && !IsWordChar(b[7])
    && StartsWithCI(b[|b| - 9..], ScriptClose)
    && forall k :: 7 <= k < |b| - 9 ==> !StartsWithCI(b[k..], ScriptClose)
  }

  lemma StartsWithCIPrefix(s: string, t: string, p: string)
    requires |p| <= |s|
    ensures StartsWithCI(s + t, p) == StartsWithCI(s, p)
  {
    assert (s + t)[..|p|] == s[..|p|];
  }

  lemma {:induction false} NoScriptPrefix(s: string)
    requires !ContainsCI(s, ScriptOpen)
    ensures ScriptBlockAt(s) == None
    ensures s != [] ==> !ContainsCI(s[1..], ScriptOpen)
  {
    assert s[0..] == s;
    if s != [] {
      forall i | 0 <= i <= |s[1..]| ensures !StartsWithCI(s[1..][i..], ScriptOpen) {
        assert s[1..][i..] == s[i + 1..];
      }
    }
  }

  /** Text without `<script` in any case passes through unchanged. */
  lemma {:induction false} StripWithoutScriptIsIdentity(s: string)
    requires !ContainsCI(s, ScriptOpen)
    ensures StripScriptBlocks(s) == s
    decreases |s|
  {
    NoScriptPrefix(s);
    if s != [] {
      StripWithoutScriptIsIdentity(s[1..]);
    }
  }

  lemma BlockIsMatched(b: string, rest: string)
    requires IsScriptBlock(b)
    ensures ScriptBlockAt(b + rest) == Some(|b|)
  {
    var s := b + rest;
    StartsWithCIPrefix(b, rest, ScriptOpen);
    assert s[7] == b[7];
    forall k | 7 <= k < |b| - 9 ensures !StartsWithCI(s[k..], ScriptClose) {
      assert s[k..] == b[k..] + rest;
      StartsWithCIPrefix(b[k..], rest, ScriptClose);
    }
    assert s[|b| - 9..] == b[|b| - 9..] + rest;
    StartsWithCIPrefix(b[|b| - 9..], rest, ScriptClose);
    var f := FindCI(s, ScriptClose, 7);
    assert f.Some? && f.value == |b| - 9;
  }

  /** A script block at the front is dropped and stripping goes on after it. */
  lemma StripDropsLeadingBlock(b: string, rest: string)
    requires IsScriptBlock(b)
    ensures StripScriptBlocks(b + rest) == StripScriptBlocks(rest)
  {
    BlockIsMatched(b, rest);
    assert (b + rest)[|b|..] == rest;
  }

  /** No block starts at a character other than `<`, so that character is kept. */
  lemma StripKeepsNonAngle(s: string)
    requires s != [] && s[0] != '<'
    ensures StripScriptBlocks(s) == [s[0]] + StripScriptBlocks(s[1..])
  {
    if |s| >= 7 {
      assert LowerStr(s[..7])[0] == Lower(s[0]);
      assert LowerStr(ScriptOpen)[0] == '<';
    }
    assert ScriptBlockAt(s) == None;
  }

  lemma StripKeepsFirst(a: string, t: string)
    requires a != [] && a[0] != '<'
    ensures StripScriptBlocks(a + t) == [a[0]] + StripScriptBlocks(a[1..] + t)
  {
    var s := a + t;
    assert s[0] == a[0];
    assert s[1..] == a[1..] + t;
    StripKeepsNonAngle(s);
  }

  lemma HeadThenTail(a: string, u: string)
    requires a != []
    ensures [a[0]] + (a[1..] + u) == a + u
  {
    assert [a[0]] + a[1..] == a;
  }

  /** Text holding no `<` cannot start a block, so stripping keeps all of it. */
  lemma {:induction false} StripKeepsAngleFree(a: string, t: string)
    requires forall i :: 0 <= i < |a| ==> a[i] != '<'
    ensures StripScriptBlocks(a + t) == a + StripScriptBlocks(t)
    decreases |a|
  {
    if a == [] {
      assert a + t == t;
    } else {
      StripKeepsFirst(a, t);
      StripKeepsAngleFree(a[1..], t);
      HeadThenTail(a, StripScriptBlocks(t));
    }
  }

  /**
   * A complete script block is removed, and the text before it (when it holds
   * no `<`) is kept: `sanitize(a + block + rest) == a + sanitize(rest)`.
   */
  lemma StripRemovesBlock(a: string, b: string, rest: string)
    requires forall i :: 0 <= i < |a| ==> a[i] != '<'
    requires IsScriptBlock(b)
    ensures StripScriptBlocks(a + b + rest) == a + StripScriptBlocks(rest)
  {
    assert a + b + rest == a + (b + rest);
    StripKeepsAngleFree(a, b + rest);
    StripDropsLeadingBlock(b, rest);
  }

  /* ------------------------------------------------------ text fields */

  /**
   * trim, then `min(lo)` and `max(hi)` on the trimmed text's length in UTF-16
   * code units, then strip scripts.
   */
  function TrimmedText(s: string, lo: nat, hi: nat, tooShort: string, tooLong: string): (r: Result<string, seq<string>>)
    ensures r.Ok? <==> lo <= Utf16Length(Trim(s)) <= hi
    ensures r.Ok? ==> r.value == StripScriptBlocks(Trim(s)) && |r.value| <= |Trim(s)| <= hi
    ensures r.Err? ==> r.error != []
  {
    var t := Trim(s);
    var n := Utf16Length(t);
    if n < lo && n > hi then Err([tooShort, tooLong])
    else if n < lo then Err([tooShort])
    else if n > hi then Err([tooLong])
    else Ok(StripScriptBlocks(t))
  }

  /** `titleSchema`: 1 to 255 UTF-16 code units once trimmed. */
  function TitleSchema(s: string): (r: Result<string, seq<string>>)
    ensures r.Ok? <==> 1 <= Utf16Length(Trim(s)) <= 255
    ensures r.Ok? ==> |r.value| <= |Trim(s)|
    ensures r.Err? ==> r.error != []
  {
    TrimmedText(s, 1, 255, "Title is required", "Title must be less than 255 characters")
  }

  /** `nameSchema`: 1 to 100 UTF-16 code units once trimmed. */
  function NameSchema(s: string): (r: Result<string, seq<string>>)
    ensures r.Ok? <==> 1 <= Utf16Length(Trim(s)) <= 100
    ensures r.Ok? ==> |r.value| <= |Trim(s)|
    ensures r.Err? ==> r.error != []
  {
    TrimmedText(s, 1, 100, "Name is required", "Name must be less than 100 characters")
  }

  /** `descriptionSchema`: absent, or at most 1000 UTF-16 code units once trimmed. */
  function DescriptionSchema(s: Option<string>): (r: Result<Option<string>, seq<string>>)
    ensures r.Ok? <==> s.None? || Utf16Length(Trim(s.value)) <= 1000
    ensures r.Ok? && s.None? ==> r.value.None?
    ensures r.Ok? && s.Some? ==> r.value.Some? && |r.value.value| <= |Trim(s.value)|
    ensures r.Err? ==> r.error != []
  {
    match s
    case None => Ok(None)
    case Some(d) =>
      match TrimmedText(d, 0, 1000, "", "Description must be less than 1000 characters")
      case Ok(v) => Ok(Some(v))
      case Err(m) => Err(m)
  }

  /** `notesSchema`: absent, or at most 2000 UTF-16 code units once trimmed. */
  function NotesSchema(s: Option<string>): (r: Result<Option<string>, seq<string>>)
    ensures r.Ok? <==> s.None? || Utf16Length(Trim(s.value)) <= 2000
    ensures r.Ok? && s.None? ==> r.value.None?
    ensures r.Ok? && s.Some? ==> r.value.Some? && |r.value.value| <= |Trim(s.value)|
    ensures r.Err? ==> r.error != []
  {
    match s
    case None => Ok(None)
    case Some(d) =>
      match TrimmedText(d, 0, 2000, "", "Notes must be less than 2000 characters")
      case Ok(v) => Ok(Some(v))
      case Err(m) => Err(m)
  }

  /* --------------------------------------------------------- password */

  predicate HasChar(s: string, p: char -> bool) {
    exists i | 0 <= i < |s| :: p(s[i])
  }

  predicate NotAlnum(c: char) { !IsAlnum(c) }

  function PasswordMessages(s: string): seq<string> {
    (if Utf16Length(s) < 8 then ["Password must be at least 8 characters"] else [])
    + (if !HasChar(s, IsUpper) then ["Password must contain at least one uppercase letter"] else [])
    + (if !HasChar(s, IsLower) then ["Password must contain at least one lowercase letter"] else [])
    + (if !HasChar(s, IsDigit) then ["Password must contain at least one number"] else [])
    + (if !HasChar(s, NotAlnum) then ["Password must contain at least one special character"] else [])
  }

  /** `passwordSchema`: the minimum of 8 counts UTF-16 code units. */
  function PasswordSchema(s: string): (r: Result<string, seq<string>>)
    ensures r.Ok? <==>
      Utf16Length(s) >= 8
      && (exists i | 0 <= i < |s| :: IsUpper(s[i]))
      && (exists i | 0 <= i < |s| :: IsLower(s[i]))
      && (exists i | 0 <= i < |s| :: IsDigit(s[i]))
      && (exists i | 0 <= i < |s| :: !IsAlnum(s[i]))
    ensures r.Ok? ==> r.value == s
  {
    var m := PasswordMessages(s);
    if m == [] then Ok(s) else Err(m)
  }

  /* ---------------------------------------------------- id references */

  /** `z.string().uuid().optional().or(z.literal(""))`, used for `folderId` and `parentId`. */
  function OptionalIdSchema(id: Option<string>, isUuid: string -> bool): (r: Result<Option<string>, seq<string>>)
    ensures r.Ok? <==> id.None? || id.value == "" || isUuid(id.value)
    ensures r.Ok? ==> r.value == id
    ensures r.Err? ==> r.error != []
  {
    match id
    case None => Ok(None)
    case Some(s) => if s == "" || isUuid(s) then Ok(id) else Err(["Invalid input"])
  }

  /** `uuidSchema`: the id must be a UUID. */
  function UuidSchema(id: string, isUuid: string -> bool): (r: Result<string, seq<string>>)
    ensures r.Ok? <==> isUuid(id)
    ensures r.Ok? ==> r.value == id
  {
    if isUuid(id) then Ok(id) else Err(["Invalid ID format"])
  }

  /* ------------------------------------------------------ form schemas */

  datatype BookmarkInput = BookmarkInput(
    url: string, title: string, description: Option<string>, notes: Option<string>, folderId: Option<string>)

  datatype BookmarkData = BookmarkData(
    url: string, title: string, description: Option<string>, notes: Option<string>, folderId: Option<string>)

  function Tagged<T>(path: string, r: Result<T, seq<string>>): (issues: seq<Issue>)
    ensures |issues| == (if r.Ok? then 0 else |r.error|)
  {
    if r.Ok? then [] else seq(|r.error|, i requires 0 <= i < |r.error| => Issue(path, r.error[i]))
  }

  /** `bookmarkFormSchema`. */
  function BookmarkFormSchema(b: BookmarkInput, parse: UrlParser, isUuid: string -> bool): (r: Result<BookmarkData, seq<Issue>>)
    ensures r.Ok? <==>
      UrlSchema(b.url, parse).Ok? && TitleSchema(b.title).Ok? && DescriptionSchema(b.description).Ok?
      && NotesSchema(b.notes).Ok? && OptionalIdSchema(b.folderId, isUuid).Ok?
    ensures r.Ok? ==>
      r.value == BookmarkData(b.url, TitleSchema(b.title).value, DescriptionSchema(b.description).value,
                              NotesSchema(b.notes).value, b.folderId)
    ensures r.Err? ==> |r.error| >= 1
  {
    var u, t, d, n, f := UrlSchema(b.url, parse), TitleSchema(b.title), DescriptionSchema(b.description),
                         NotesSchema(b.notes), OptionalIdSchema(b.folderId, isUuid);
    if u.Ok? && t.Ok? && d.Ok? && n.Ok? && f.Ok? then
      Ok(BookmarkData(u.value, t.value, d.value, n.value, f.value))
    else
      Err(Tagged("url", u) + Tagged("title", t) + Tagged("description", d) + Tagged("notes", n) + Tagged("folderId", f))
  }

  datatype BookmarkPatchInput = BookmarkPatchInput(
    url: Option<string>, title: Option<string>, description: Option<string>, notes: Option<string>,
    folderId: Option<string>)

  function OptionalField<T>(v: Option<string>, schema: string -> Result<T, seq<string>>): Result<Option<T>, seq<string>> {
    match v
    case None => Ok(None)
    case Some(x) => match schema(x) case Ok(y) => Ok(Some(y)) case Err(m) => Err(m)
  }

  /** `bookmarkFormSchema.partial()`: every field may be left out; present fields are checked as above. */
  function BookmarkPatchSchema(p: BookmarkPatchInput, parse: UrlParser, isUuid: string -> bool): (r: Result<BookmarkPatchInput, seq<Issue>>)
    ensures r.Ok? <==>
      (p.url.None? || UrlSchema(p.url.value, parse).Ok?) && (p.title.None? || TitleSchema(p.title.value).Ok?)
      && DescriptionSchema(p.description).Ok? && NotesSchema(p.notes).Ok? && OptionalIdSchema(p.folderId, isUuid).Ok?
    ensures r.Ok? ==>
      && (r.value.url.Some? <==> p.url.Some?) && (r.value.title.Some? <==> p.title.Some?)
      && (p.url.Some? ==> r.value.url.value == p.url.value)
      && (p.title.Some? ==> r.value.title.value == TitleSchema(p.title.value).value)
      && r.value.description == DescriptionSchema(p.description).value
      && r.value.notes == NotesSchema(p.notes).value
      && r.value.folderId == p.folderId
  {
    var u, t := OptionalField(p.url, x => UrlSchema(x, parse)), OptionalField(p.title, TitleSchema);
    var d, n, f := DescriptionSchema(p.description), NotesSchema(p.notes), OptionalIdSchema(p.folderId, isUuid);
    if u.Ok? && t.Ok? && d.Ok? && n.Ok? && f.Ok? then
      Ok(BookmarkPatchInput(u.value, t.value, d.value, n.value, f.value))
    else
      Err(Tagged("url", u) + Tagged("title", t) + Tagged("description", d) + Tagged("notes", n) + Tagged("folderId", f))
  }

  datatype FolderInput = FolderInput(name: string, parentId: Option<string>)

  /** `folderFormSchema`. */
  function FolderFormSchema(f: FolderInput, isUuid: string -> bool): (r: Result<FolderInput, seq<Issue>>)
    ensures r.Ok? <==> NameSchema(f.name).Ok? && OptionalIdSchema(f.parentId, isUuid).Ok?
    ensures r.Ok? ==> r.value == FolderInput(NameSchema(f.name).value, f.parentId)
  {
    var n, p := NameSchema(f.name), OptionalIdSchema(f.parentId, isUuid);
    if n.Ok? && p.Ok? then Ok(FolderInput(n.value, p.value))
    else Err(Tagged("name", n) + Tagged("parentId", p))
  }

  datatype TagInput = TagInput(name: string, color: Option<string>)

  /** `tagFormSchema`. */
  function TagFormSchema(t: TagInput): (r: Result<TagInput, seq<Issue>>)
    ensures r.Ok? <==> NameSchema(t.name).Ok? && ColorSchema(t.color).Ok?
    ensures r.Ok? ==> r.value == TagInput(NameSchema(t.name).value, t.color)
  {
    var n, c := NameSchema(t.name), ColorSchema(t.color);
    if n.Ok? && c.Ok? then Ok(TagInput(n.value, c.value))
    else Err(Tagged("name", n) + Tagged("color", c))
  }
}
