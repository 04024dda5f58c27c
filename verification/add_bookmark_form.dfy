/**
 * components/forms/add-bookmark-form.tsx: the form's tag selection, its
 * folder select with the `"no-folder"` placeholder, and the effect that
 * normalises a typed URL and fills the title and description from the
 * page's metadata without overwriting what the user typed.
 */
module AddBookmarkForm {
  import opened Wrappers
  import opened Strings
  import opened Urls
  import opened Store
  import opened Metadata

  /* ------------------------------------------------------- tag selection */

  function Differs(id: string): string -> bool {
    (x: string) => x != id
  }

  /** `prev.filter((id) => id !== tagId)`. */
  function Removed(prev: seq<string>, id: string): (r: seq<string>)
    ensures forall x :: x in r <==> x in prev && x != id
  {
    var r := Filter(prev, Differs(id));
    assert forall x :: x in r ==> x in prev by {
      forall x | x in r ensures x in prev {
        assert x in multiset(prev) by { assert x in multiset(r); }
      }
    }
    r
  }

  /** `toggleTag`: drop every copy of the id when it is selected, else append it. */
  function Toggled(prev: seq<string>, id: string): (r: seq<string>)
    ensures id in r <==> id !in prev
    ensures forall x :: x != id ==> (x in r <==> x in prev)
  {
    if id in prev then Removed(prev, id) else prev + [id]
  }

  predicate Distinct(s: seq<string>) {
    forall i, j :: 0 <= i < j < |s| ==> s[i] != s[j]
  }

  lemma {:induction false} FilterKeepsDistinct(s: seq<string>, keep: string -> bool)
    requires Distinct(s)
    ensures Distinct(Filter(s, keep))
  {
    if s != [] {
      FilterKeepsDistinct(s[1..], keep);
      var rest := Filter(s[1..], keep);
      if keep(s[0]) {
        assert s[0] !in s[1..];
        assert s[0] !in multiset(rest);
        assert Filter(s, keep) == [s[0]] + rest;
      }
    }
  }

  /**
   * Toggling selects an unselected id (at the end) and deselects a selected
   * one entirely, and keeps a duplicate-free selection duplicate-free.
   */
  lemma ToggleSelectsOrDeselects(prev: seq<string>, id: string)
    ensures id in prev ==> id !in Toggled(prev, id) && forall x :: x != id ==> (x in Toggled(prev, id) <==> x in prev)
    ensures id !in prev ==> Toggled(prev, id) == prev + [id]
    ensures Distinct(prev) ==> Distinct(Toggled(prev, id))
  {
    if Distinct(prev) {
      if id in prev {
        FilterKeepsDistinct(prev, Differs(id));
      } else {
        var r := prev + [id];
        forall i, j | 0 <= i < j < |r| ensures r[i] != r[j] {
          if j == |prev| { assert r[i] in prev; }
        }
      }
    }
  }

  /** Toggling an unselected id twice gives back the original selection. */
  lemma ToggleTwiceRestores(prev: seq<string>, id: string)
    requires id !in prev
    ensures Toggled(Toggled(prev, id), id) == prev
  {
    assert id in prev + [id];
    FilterAppend(prev, [id], Differs(id));
    FilterAll(prev, Differs(id));
    assert Filter([id], Differs(id)) == [];
  }

  /* ------------------------------------------------------- folder select */

  const NoFolder: string := "no-folder"

  /** `onValueChange`: the placeholder item stands for "no folder", stored as `""`. */
  function FolderOnChange(value: string): (r: string)
    ensures r == [] <==> value == NoFolder || value == []
    ensures r != [] ==> r == value
  {
    if value == NoFolder then [] else value
  }

  /** `value={folderId || "no-folder"}`. */
  function FolderSelectValue(folderId: string): (r: string)
    ensures r != []
  {
    if folderId == [] then NoFolder else folderId
  }

  /**
   * Displaying then picking again gives back the stored folder id, except
   * for a folder whose id is literally `"no-folder"`; picking then
   * displaying gives back the picked item, except the empty value.
   */
  lemma FolderSelectRoundTrip(folderId: string, value: string)
    ensures FolderOnChange(FolderSelectValue(folderId)) == folderId <==> folderId != NoFolder
    ensures FolderSelectValue(FolderOnChange(value)) == value <==> value != []
  {
  }

  /* ------------------------------------------------------------ metadata */

  /** Set the field from the fetched value only while the field is empty (`!getValues(field) && value`). */
  function FillIfEmpty(current: string, fetched: string): (r: string)
    ensures current != [] ==> r == current
    ensures current == [] ==> r == fetched
  {
    if current == [] && fetched != [] then fetched else current
  }

  /** `hostname.replace("www.", "")`: only the first occurrence goes. */
  function DisplayHost(hostname: string): (r: string)
    ensures StartsWith(hostname, "www.") ==> r == hostname[4..]
    ensures !Contains(hostname, "www.") ==> r == hostname
  {
    assert StartsWith(hostname, "www.") ==> FirstOccurrence(hostname, "www.", 0);
    ReplaceFirst(hostname, "www.", "")
  }

  /**
   * The fetch starts only when the normalised URL starts with lower-case
   * `http`: a typed URL with an upper-case scheme such as `HTTPS://` is
   * kept as it is by the normaliser and then never fetched.
   */
  lemma FetchNeedsLowerCaseScheme(url: string)
    requires url != []
    ensures StartsWith(NormalizeUrl(url), "http") <==> !HasHttpPrefixCI(url) || StartsWith(url, "http")
  {
    if !HasHttpPrefixCI(url) {
      assert NormalizeUrl(url)[..4] == "http";
    }
  }

  /** The form values the effect reads and writes, the selection, and the progress flag. */
  class BookmarkForm {
    var url: string
    var title: string
    var description: string
    var notes: string
    var folderId: string
    var selectedTags: seq<string>
    var isExtractingMetadata: bool

    /** `defaultValues`: everything empty except the initial URL. */
    constructor (initialUrl: string)
      ensures url == initialUrl && title == [] && description == [] && notes == [] && folderId == []
      ensures selectedTags == [] && !isExtractingMetadata
    {
      url, title, description, notes, folderId := initialUrl, [], [], [], [];
      selectedTags, isExtractingMetadata := [], false;
    }

    method ToggleTag(id: string)
      modifies this
      ensures selectedTags == Toggled(old(selectedTags), id)
      ensures url == old(url) && title == old(title) && description == old(description) && folderId == old(folderId)
    {
      selectedTags := Toggled(selectedTags, id);
    }

    method RemoveTag(id: string)
      modifies this
      ensures selectedTags == Removed(old(selectedTags), id)
      ensures url == old(url) && title == old(title) && description == old(description) && folderId == old(folderId)
    {
      selectedTags := Removed(selectedTags, id);
    }

    method SelectFolder(value: string)
      modifies this
      ensures folderId == FolderOnChange(value)
      ensures url == old(url) && title == old(title) && description == old(description) && selectedTags == old(selectedTags)
    {
      folderId := FolderOnChange(value);
    }

    /**
     * `extractMetadata(url)`: nothing happens for an empty URL or when the
     * preference is off (or not loaded). Otherwise the URL field is
     * normalised; a URL not starting with `http` stops there. Then the
     * fetched title and description fill only empty fields. `fetched` is
     * the outcome of `fetchBookmarkMetadata`, `None` when it rejects, in
     * which case an empty title gets the display hostname if the URL parses.
     */
    method ExtractMetadata(typed: string, autoFetch: Option<bool>, parse: UrlParser, fetched: Option<BookmarkMetadata>)
      modifies this
      ensures notes == old(notes) && folderId == old(folderId) && selectedTags == old(selectedTags)
      ensures typed == [] || autoFetch != Some(true) ==>
        url == old(url) && title == old(title) && description == old(description)
        && isExtractingMetadata == old(isExtractingMetadata)
      ensures typed != [] && autoFetch == Some(true) ==>
        url == (if NormalizeUrl(typed) != typed then NormalizeUrl(typed) else old(url))
      ensures typed != [] && autoFetch == Some(true) && !StartsWith(NormalizeUrl(typed), "http") ==>
        title == old(title) && description == old(description) && isExtractingMetadata == old(isExtractingMetadata)
      ensures typed != [] && autoFetch == Some(true) && StartsWith(NormalizeUrl(typed), "http") ==>
        && !isExtractingMetadata
        && (old(title) != [] ==> title == old(title))
        && (old(description) != [] ==> description == old(description))
        && (fetched.Some? ==>
              && title == FillIfEmpty(old(title), fetched.value.title)
              && description == FillIfEmpty(old(description), match fetched.value.description case Some(d) => d case None => []))
        && (fetched.None? ==>
              (description == old(description)
               && title == (match parse(NormalizeUrl(typed))
                            case Some(u) => FillIfEmpty(old(title), DisplayHost(u.hostname))
                            case None => old(title))))
    {
      if typed == [] || autoFetch != Some(true) {
        return;
      }
      var normalized := NormalizeUrl(typed);
      if normalized != typed {
        url := normalized;
      }
      if !StartsWith(normalized, "http") {
        return;
      }
      isExtractingMetadata := true;
      match fetched {
        case Some(m) =>
          if title == [] && m.title != [] {
            title := m.title;
          }
          if description == [] && m.description.Some? && m.description.value != [] {
            description := m.description.value;
          }
        case None =>
          var parsed := parse(normalized);
          if parsed.Some? && title == [] {
            title := DisplayHost(parsed.value.hostname);
          }
      }
      isExtractingMetadata := false;
    }
  }

  /**
   * With the fetch as `fetchBookmarkMetadata` performs it (it never
   * rejects) and nothing scraped, an empty title becomes the full hostname,
   * `www.` included: the stripping branch is not reached.
   */
  lemma UnscrapedTitleIsFullHostname(url: string, parse: UrlParser, title: string)
    requires parse(url).Some?
    ensures FillIfEmpty(title, FetchBookmarkMetadata(url, parse, Scrape(None, None)).title)
         == (if title == [] then parse(url).value.hostname else title)
  {
  }
}
