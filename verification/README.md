# Bookmark manager core, modelled in Dafny

This project models the logic of a bookmark manager: a Next.js front end
over a hosted Supabase (PostgreSQL) database, in which a signed-in user
keeps bookmarks, arranges them in a two-level folder tree, and labels them
with coloured tags. The model covers:

- the zod form schemas and the string sanitisers. These include the URL
  prefix rule, the hex colour, trimmed length bounds counted in UTF-16
  code units as JavaScript's `.length` counts them, the single-pass
  script stripping, the password rules, `escapeHtml`, `validateUrl` and
  `normalizeUrl`;
- the row store. The class `Store.Db` holds the `bookmarks`,
  `bookmark_tags`, `folders` and `tags` tables of `types/supabase.ts`, plus
  the `user_preferences` table that `hooks/use-user.ts` reads and writes
  (it is not declared in `types/supabase.ts`). The `profiles` table of
  `types/supabase.ts` is not modelled: no modelled code reads it. `.eq`
  becomes a filter, `.delete` a complementary filter, `.insert` an append
  and `.order` a sort;
- the services of `lib/api.ts` and the delete handlers of the dashboard
  components, each over that store. That covers ownership filtering,
  associations removed before their row, the folder delete refused while
  the folder is not empty, and tag lookup-or-create by name during import.
  A bookmark payload is checked against the columns of the table: the
  `folderId` key that `createBookmark` and `updateBookmark` spread into it
  is not a column, and the database refuses such a payload;
- the client cache layer: query keys, retry and back-off, the optimistic
  deletes with snapshot and rollback, the invalidation sets, the TTL cache,
  `throttle`, `retry`, `batchAsync`, `withCache`, `memoize` and the rate
  limiter;
- error classification: the `AppError` family, `ErrorHandler.handle`,
  `createApiError` and `extractFormErrors`;
- the small decision and list rules:
  - the route guard and the auth callback;
  - the command palette's threshold, limits, ordering and routing;
  - the folder tree grouping and counts in the sidebar;
  - tag-badge truncation;
  - the add-bookmark form's tag toggling, folder select and metadata fill.

Foreign code is passed in as parameters. This covers the session (an
`Option` of the user id), `new URL(...)` (a `UrlParser` function returning
`None` where the constructor throws) and zod's `.uuid()` (an `isUuid`
predicate). It also covers `JSON.parse` and the DOM parser (their parsed
values), the clock (`now`), the ids and outcomes of database inserts
(`newId`, `insertOk`), and the errors reported by individual database calls.
Every service of `lib/api.ts` takes `dbError`, the message of the error its
database call reports, and answers it with `success: false` and the message
`handleApiError` reads. The component handlers take their delete errors, the
folder card takes whether each of its two probes failed, and the search
palette takes the set of sections whose query failed.

Modules, one per source file: `Wrappers`, `Arithmetic`, `Json`
(wrappers.dfy); `Strings`, `Urls` (strings.dfy); `Validations`; `Security`;
`Metadata`; `ErrorHandling`; `Performance`; `QueryClient`; `Store`; `Api`;
`QueryHooks` (use-bookmarks, use-folders, use-tags); `UserHooks`
(use-user); `Toasts`; `FolderList`; `TagList`; `BookmarkList`;
`DashboardNav`; `Search`; `AddBookmarkForm`; `Middleware`; `AuthCallback`.

## Model

| member | source | states |
|---|---|---|
| Strings.Trim | lib/validations.ts:33 | `String.prototype.trim`: never longer than its input, and neither end of the result is white space |
| Strings.TrimIdempotent | lib/validations.ts:28 | trimming twice is trimming once |
| Strings.TrimNoop | lib/utils/security.ts:23 | a string with no white space at either end is left unchanged by trim |
| Strings.ReplaceFirst | components/forms/add-bookmark-form.tsx:100 | `replace` with a string pattern: at the first occurrence of the pattern the result is the text before it, the replacement, and the text after it; with no occurrence the text is unchanged; the length changes by the difference of the two strings exactly when the pattern occurs |
| Strings.FirstOccurrenceExists | components/forms/add-bookmark-form.tsx:100 | a pattern that occurs somewhere has a first occurrence, so the replacement always has a place |
| Strings.TrimStart | lib/validations.ts:28 | drops exactly the leading white space: the result is a suffix of the input that does not start with white space |
| Strings.TrimEnd | lib/validations.ts:28 | drops exactly the trailing white space: the result is a prefix of the input that does not end with white space |
| Strings.LowerStr | lib/utils/security.ts:57 | ASCII lower-casing, character by character, same length |
| Strings.IndexOf | lib/utils/error-handling.ts:198 | the first occurrence of the pattern at or after `from`; none iff it occurs nowhere there |
| Strings.FindCI | lib/validations.ts:25 | the first case-insensitive occurrence at or after `from`; none iff there is none |
| Strings.NatToString | components/dashboard/tag-list.tsx:175 | a non-empty string of decimal digits |
| Strings.NatToStringDenotes | components/dashboard/tag-list.tsx:175 | the decimal text of `n` reads back as `n`, and it starts with `0` only for zero (no leading zeros) |
| Strings.NatToStringInjective | components/dashboard/tag-list.tsx:175 | different numbers are written differently |
| Strings.Utf16Length | components/dashboard/search.tsx:48 | `.length`: the number of UTF-16 code units, between the number of characters and twice that, and equal to it exactly when every character lies in the Basic Multilingual Plane |
| Validations.UrlSchema | lib/validations.ts:4-20 | accepted iff the URL matches the lower-case `^https?://.+` (no `i` flag) and the parser gives an http or https protocol; an accepted URL is kept as it is, is at least 8 characters long, and starts with `http://` or `https://`; a rejection carries at least one message |
| Validations.ColorSchema | lib/validations.ts:59-63 | accepted iff absent, or `#` followed by exactly six hex digits in either case; the value is passed through unchanged |
| Validations.StripWithoutScriptIsIdentity | lib/validations.ts:23-26 | text with no `<script` in any case comes through the script stripper unchanged |
| Validations.ScriptBlockAt | lib/validations.ts:25 | a block at the front is `<script` not followed by a word character, through the first `</script>` in any case; it is at least 16 characters |
| Validations.StripScriptBlocks | lib/validations.ts:23-26 | the global replace of complete script blocks: never longer than its input |
| Validations.StripDropsLeadingBlock | lib/validations.ts:25 | a complete `<script…>…</script>` block at the front is dropped and stripping continues after it |
| Validations.StripKeepsAngleFree | lib/validations.ts:25 | text holding no `<` cannot start a block, so the stripper keeps all of it |
| Validations.StripRemovesBlock | lib/validations.ts:23-26 | `strip(a + block + rest) == a + strip(rest)` for a complete block preceded by `<`-free text |
| Validations.TrimmedText | lib/validations.ts:28-36 | the shared trim → min → max → strip chain: accepted iff the trimmed text's length in UTF-16 code units lies between `lo` and `hi`; the stored value is the stripped trimmed text, never longer than the trimmed input; a rejection carries a message |
| Validations.TitleSchema | lib/validations.ts:31-36 | accepted iff the trimmed title is between 1 and 255 UTF-16 code units long; the value is never longer than the trimmed input |
| Validations.NameSchema | lib/validations.ts:38-43 | accepted iff the trimmed name is between 1 and 100 UTF-16 code units long |
| Validations.DescriptionSchema | lib/validations.ts:45-50 | accepted iff absent or at most 1000 UTF-16 code units once trimmed; absent stays absent |
| Validations.NotesSchema | lib/validations.ts:52-57 | accepted iff absent or at most 2000 UTF-16 code units once trimmed; absent stays absent |
| Validations.PasswordSchema | lib/validations.ts:72-81 | accepted iff at least 8 UTF-16 code units long with an upper-case letter, a lower-case letter, a digit and a character that is none of these; the password is kept as typed |
| Validations.OptionalIdSchema | lib/validations.ts:99-104 | `folderId`/`parentId`: accepted iff absent, the empty string, or a UUID; passed through unchanged |
| Validations.UuidSchema | lib/validations.ts:119 | accepted iff the id is a UUID |
| Validations.BookmarkFormSchema | lib/validations.ts:94-100 | the object is accepted iff every field schema accepts, and the parsed record holds each field's parsed value; a rejection has at least one issue |
| Validations.BookmarkPatchSchema | lib/validations.ts:94-100 | `.partial()`: accepted iff every present field is accepted; absent fields stay absent and present ones hold their parsed values |
| Validations.FolderFormSchema | lib/validations.ts:102-105 | accepted iff the name and the parent id are accepted; the name is the parsed one |
| Validations.TagFormSchema | lib/validations.ts:107-110 | accepted iff the name and the colour are accepted; the name is the parsed one and the colour is unchanged |
| Security.EscapeHtml | lib/utils/security.ts:157-167 | the output is never shorter than the input and contains none of `< > " '` |
| Security.EscapeHtmlRoundTrip | lib/utils/security.ts:157-167 | escaping loses nothing: mapping the five entities back gives the original text |
| Security.EscapeHtmlPlain | lib/utils/security.ts:166 | text without any of `& < > " '` is left unchanged |
| Security.RemoveJavascript | lib/utils/security.ts:21 | the global case-insensitive replace of `javascript:`: never longer than its input |
| Security.WordRun | lib/utils/security.ts:22 | `\w+` is greedy: the run covers word characters up to the first non-word character |
| Security.SpaceRun | lib/utils/security.ts:22 | `\s*` is greedy: the run covers white space up to the first other character |
| Security.RemoveEventHandlers | lib/utils/security.ts:22 | the global replace of `on\w+\s*=` in any case: never longer than its input |
| Security.SanitizeText | lib/utils/security.ts:18-24 | the result is never longer than the input and never starts or ends with white space, because trim runs last |
| Security.SanitizeTextPlain | lib/utils/security.ts:18-24 | text with no `<script`, `javascript:` or `on` in any case is only trimmed |
| Security.RemoveJavascriptPlain | lib/utils/security.ts:21 | text without `javascript:` in any case passes the second replace unchanged |
| Security.RemoveEventHandlersPlain | lib/utils/security.ts:22 | text without `on` in any case passes the event-handler replace unchanged |
| Security.RemoveJavascriptKeeps | lib/utils/security.ts:21 | a prefix at none of whose positions `javascript:` starts is kept as it is |
| Security.SinglePassLeavesJavascript | lib/utils/security.ts:21 | the replace is a single pass: `java` + `javascript:` + `script:` comes out as `javascript:` |
| Security.EventHandlerAt | lib/utils/security.ts:22 | a match of `on\w+\s*=` at the front starts with `on` in any case, is at least 4 characters long and ends with `=` |
| Security.IsPrivateHost | lib/utils/security.ts:58-63 | every host starting `10.`, `172.` or `192.168.` counts as private, whatever follows; a private host is `localhost` or starts with a digit, so no other DNS name is refused |
| Security.ValidateUrl | lib/utils/security.ts:29-76 | a trimmed input without an `http://`/`https://` prefix in any case is refused with the prefix message before any parsing; an unparsable one gets the format message; valid iff prefixed, parsed, http or https, and (in production) not a private host; a valid result carries the parser's href, and an invalid one one of the four messages |
| Security.ValidateUrlHostOnlyInProduction | lib/utils/security.ts:56-70 | whatever production accepts the development mode accepts; the two differ exactly on private hosts |
| Security.ValidateCsrfToken | lib/utils/security.ts:149-152 | true iff the token is non-empty and equals the expected one; false when either is empty |
| Security.InWindow | lib/utils/security.ts:107-109 | the kept timestamps are exactly those with `now - t < windowMs` |
| Security.InWindowAppend | lib/utils/security.ts:107-109 | the window filter distributes over concatenation |
| Security.InWindowIdempotent | lib/utils/security.ts:107-109 | filtering twice at the same instant filters nothing more |
| Security.RateLimiter.constructor | lib/utils/security.ts:92-100 | an empty history with the given limits (defaults 10 requests per 60000 ms) |
| Security.RateLimiter.IsAllowed | lib/utils/security.ts:102-119 | allowed iff fewer than `maxRequests` timestamps remain in the window; a refusal changes nothing; an allowance stores the window's timestamps plus `now` for that identifier only; the identifier never has more than `maxRequests` timestamps in the window |
| Security.RateLimiter.Reset | lib/utils/security.ts:121-123 | removes only that identifier; every other history is unchanged |
| Metadata.NormalizeUrl | lib/utils/metadata.ts:109-118 | empty stays empty; input without an `http://`/`https://` prefix in any case gets `https://` in front; prefixed input is returned unchanged; every non-empty result has the prefix |
| Metadata.NormalizeUrlIdempotent | lib/utils/metadata.ts:109-118 | normalising twice is normalising once |
| Metadata.GetHostname | lib/utils/metadata.ts:86-92 | the parsed hostname, or the input unchanged when it does not parse |
| Metadata.IsValidUrl | lib/utils/metadata.ts:97-104 | true iff the URL parses |
| Metadata.FaviconUrl | lib/utils/metadata.ts:21 | the favicon service prefix, then exactly the hostname, then `&sz=32` |
| Metadata.FetchBookmarkMetadata | lib/utils/metadata.ts:10-81 | an unparsable URL gives only the raw URL as title; otherwise the favicon of the hostname, the scraped title (trimmed) or else the hostname, and the scraped description (trimmed) if any |
| Metadata.MetadataTitleFallback | lib/utils/metadata.ts:24-79 | with nothing scraped the title is `getHostname(url)` and there is no description |
| ErrorHandling.NewAppError | lib/utils/error-handling.ts:4-22 | the base class keeps the given message, type, status and operational flag (defaults `APP_ERROR`, 500, true) |
| ErrorHandling.NewValidationError | lib/utils/error-handling.ts:24-28 | type `VALIDATION_ERROR`, status 400; the message is `field: message` for a non-empty field, else the message |
| ErrorHandling.NewAuthenticationError | lib/utils/error-handling.ts:30-34 | type `AUTHENTICATION_ERROR`, status 401, default message "Authentication required" |
| ErrorHandling.NewAuthorizationError | lib/utils/error-handling.ts:36-40 | type `AUTHORIZATION_ERROR`, status 403 |
| ErrorHandling.NewNotFoundError | lib/utils/error-handling.ts:42-46 | type `NOT_FOUND_ERROR`, status 404, message `<resource> not found` |
| ErrorHandling.NewRateLimitError | lib/utils/error-handling.ts:48-52 | type `RATE_LIMIT_ERROR`, status 429 |
| ErrorHandling.NewNetworkError | lib/utils/error-handling.ts:54-58 | type `NETWORK_ERROR`, status 500 |
| ErrorHandling.Handle | lib/utils/error-handling.ts:85-150 | an `AppError` passes its message, type and status through, with `shouldNotify = notifyUser && isOperational`; a plain `Error` is classified by case-sensitive name or message substrings, validation first, then network/fetch, then unauthorized/authentication; anything else gives the fallback message, `UNKNOWN_ERROR`, 500 |
| ErrorHandling.HandleClassifiesPlainErrors | lib/utils/error-handling.ts:104-150 | anything that is not an `AppError` ends in one of four (type, status) pairs |
| ErrorHandling.HandleNotifiesOnlyIfConfigured | lib/utils/error-handling.ts:100-148 | no notification is requested when `notifyUser` is off |
| ErrorHandling.ApiMessage | lib/utils/error-handling.ts:224 | `data.message`, else `data.error`, else the status text, with empty strings falsy |
| ErrorHandling.CreateApiError | lib/utils/error-handling.ts:222-240 | 400/401/403/404/429 give exactly the matching class's error (its class, type, message and status; 404 appends " not found"); any other status gives `API_ERROR` with that status |
| ErrorHandling.HandleKeepsApiStatus | lib/utils/error-handling.ts:222-240 | handling an API error reports the response's own status |
| ErrorHandling.HandleKeepsApiType | lib/utils/error-handling.ts:222-240 | handling an API error reports the type its status class sets, and `API_ERROR` for any other status |
| ErrorHandling.AsyncErrorHandler | lib/utils/error-handling.ts:158-167 | a resolution is passed on; a rejection is rethrown as a base `AppError` with the message, type and status the default handler gives it |
| ErrorHandling.AsyncErrorHandlerIdempotent | lib/utils/error-handling.ts:158-167 | wrapping an already wrapped call changes nothing |
| ErrorHandling.AsyncErrorHandlerKeepsAppErrors | lib/utils/error-handling.ts:158-167 | an `AppError` rejection keeps its message, type and status, and becomes operational |
| ErrorHandling.FieldPattern | lib/utils/error-handling.ts:198 | a match of `^([^:]+): (.+)$` splits the message into a non-empty colon-free field and a non-empty rest joined by `": "` |
| ErrorHandling.ExtractFormErrors | lib/utils/error-handling.ts:195-217 | a `ValidationError` of the `field: message` shape gives that one entry; else an `Error` mentioning "validation" whose message is a JSON object gives the object; else `{general: handle(error).message}` |
| ErrorHandling.ExtractFormErrorsRoundTrip | lib/utils/error-handling.ts:195-202 | a `ValidationError` built from a non-empty colon-free field and a non-empty one-line message is read back as `{field: message}` |
| ErrorHandling.IndexOfLeast | lib/utils/error-handling.ts:198 | the search for the first colon finds the least index |
| Performance.Cache.constructor | lib/utils/performance.ts:4-8 | a new cache is empty |
| Performance.Live | lib/utils/performance.ts:23 | an entry is served up to and including `timestamp + ttl`, and not after |
| Performance.Cache.Set | lib/utils/performance.ts:10-17 | overwrites any entry for the key with the data, a fresh timestamp `now` and the ttl (default 300000) |
| Performance.Cache.Get | lib/utils/performance.ts:19-30 | a missing key gives null; once `now - timestamp > ttl` the entry is deleted and null returned; otherwise the stored data, with the cache unchanged |
| Performance.Cache.Delete | lib/utils/performance.ts:32-34 | removes only its key; every other entry is kept |
| Performance.Cache.Clear | lib/utils/performance.ts:36-38 | empties the cache |
| Performance.Cache.Size | lib/utils/performance.ts:40-42 | the number of stored keys, expired ones included |
| Performance.SetThenGet | lib/utils/performance.ts:23 | a stored entry is served exactly until `stored + ttl` |
| Performance.Throttle.constructor | lib/utils/performance.ts:69 | `lastCall` starts at 0 |
| Performance.Throttle.Call | lib/utils/performance.ts:71-77 | `func` runs iff `now - lastCall >= delay`, and then `lastCall = now`; a suppressed call leaves `lastCall` unchanged |
| Performance.CachedCall | lib/utils/performance.ts:83-101 | a truthy cached value live at the lookup time `now` is returned without calling `func` and the cache is unchanged; otherwise `func` is called and its outcome returned: a resolved value is stored under the key with the ttl, stamped with the later time `settledAt` at which the promise resolved, while a rejection is passed on and stores nothing (an expired entry the lookup found is gone) |
| Performance.BatchAsync | lib/utils/performance.ts:125-139 | exactly one result per item, in input order, each `asyncFn(item)`; with no items any `batchSize` gives `[]` |
| Performance.Retry | lib/utils/performance.ts:144-169 | a negative `maxRetries` throws "Maximum retries exceeded" without calling `fn`; otherwise at most `maxRetries + 1` attempts, the result is the first success, or the last failure after exactly `maxRetries + 1` attempts; every earlier attempt failed; the wait after failure `i` is `delay * 2^i` |
| Performance.Memoized.constructor | lib/utils/performance.ts:174-175 | an empty memo table for `fn` |
| Performance.Memoized.Call | lib/utils/performance.ts:177-188 | always answers `fn(args)`; the table then remembers that answer for these arguments, and every remembered answer is `fn`'s |
| QueryClient.ShouldRetry | lib/query-client.ts:8-15 | false for a 4xx status; otherwise true iff fewer than 3 failures so far |
| QueryClient.RetryDelay | lib/query-client.ts:16-19 | `min(1000 * 2^i, 30000)`: never above 30000 nor above `1000 * 2^i`, and equal to one of the two |
| QueryClient.RetryDelayMonotone | lib/query-client.ts:16-19 | the back-off never shrinks from one attempt to the next |
| QueryClient.RetryDelaySchedule | lib/query-client.ts:17-18 | 1 s, 2 s, 4 s for the first attempts, and the 30 s cap from the sixth on |
| QueryClient.KeyOf | lib/query-client.ts:43-60 | every key of the factory is non-empty |
| QueryClient.BookmarkKeysShape | lib/query-client.ts:44-51 | a key starts with `"bookmarks"` iff it comes from a bookmark entry, and every bookmark key but the root has `list`, `detail`, `folder` or `search` second |
| QueryClient.KeysInjective | lib/query-client.ts:43-60 | different entries, or one entry with different arguments, never give the same key |
| QueryClient.DetailKeysExtendListKeys | lib/query-client.ts:52-59 | `folder(id)` and `tag(id)` extend `["folders"]` and `["tags"]`; `user()` is `["auth", "user"]` |
| Store.Db.constructor | types/supabase.ts:12-112 | an empty database: no rows in the `bookmarks`, `bookmark_tags`, `folders` and `tags` tables declared here, nor in the `user_preferences` table of hooks/use-user.ts |
| Store.Filter | lib/api.ts:100 | `.eq(...)`: the result is a sub-multiset of the table, every row of it passes the filter, and every passing row of the table is in it |
| Store.FilterAppend | lib/api.ts:100 | a filter keeps the table's order: it distributes over concatenation |
| Store.FilterSplits | lib/api.ts:224-234 | what a `.delete()` keeps and what the matching select returns together are the whole table |
| Store.FilterAll | lib/api.ts:100 | a filter every row passes returns the table unchanged |
| Store.Count | lib/api.ts:137-139 | the number of rows that match a filter |
| Store.UpdateWhere | lib/api.ts:195-203 | `.update(...).eq(...)`: same length, every matching row replaced by its changed version in place, every other row kept |
| Store.Find | lib/api.ts:137-139 | a row found passes the filter and is in the table; nothing is found iff no row matches |
| Store.InsertDesc | lib/api.ts:101 | inserting into a list sorted newest first keeps it sorted and adds exactly that row |
| Store.SortDesc | lib/api.ts:101 | `.order("created_at", { ascending: false })`: sorted newest first and a permutation of the input |
| Store.LexLeTotal | lib/api.ts:294 | any two names are ordered one way or the other |
| Store.LexLeTrans | lib/api.ts:294 | the name order is transitive |
| Store.InsertByName | lib/api.ts:294 | inserting into a name-ordered list keeps it ordered and adds exactly that row |
| Store.FilterKeepsNameOrder | lib/api.ts:293-294 | filtering a name-ordered list leaves it name-ordered |
| Store.SortByName | lib/api.ts:294 | `.order("name")`: ordered by name and a permutation of the input |
| Store.FolderById | lib/api.ts:94 | the embedded folder has the row's `folder_id`; none iff no folder has that id |
| Store.TagsOf | lib/api.ts:95-97 | every embedded tag is a stored tag linked to the bookmark by an association row; when tag ids are unique, every stored tag linked to the bookmark is embedded |
| Store.TagByIdFinds | lib/api.ts:96 | with unique ids, looking up a stored tag's id finds that tag |
| Store.TagById | lib/api.ts:96 | the tag found has that id; none iff no tag has it |
| Store.WithRelations | types/bookmark.ts:23-28 | the row itself, its folder exactly when its `folder_id` names a stored folder, and exactly the tags linked to it (all of them when tag ids are unique) |
| Api.HandleApiError | lib/api.ts:33-41 | a non-empty `message` wins, then a thrown string, then the fixed text; the message is empty only for a thrown empty string |
| Api.DbFailure | lib/api.ts:109-114 | a database error's answer: its message when non-empty, else the fixed text; never empty |
| Api.OrNull | lib/api.ts:166 | `value or null`: kept iff present and non-empty |
| Api.Embed | lib/api.ts:91-98 | the embedding keeps the selected rows and their order and gives each exactly what `WithRelations` gives it: its folder and every tag linked to it |
| Api.FilterMembers | lib/api.ts:100 | a row is selected iff it is in the table and passes the filter |
| Api.NewestFirstMembers | lib/api.ts:100-101 | a sorted selection holds exactly the table's rows that pass the filter |
| Api.NewBookmark | lib/api.ts:163-167 | the stored row has the validated fields, the caller as owner, the folder or null, and the database's id and timestamps |
| Api.PayloadUnknownKeys | lib/api.ts:163-167 | the only payload key of the insert that is not a column of `bookmarks` is `folderId`, present exactly when the validated data has a folder id; likewise for the update |
| Api.AcceptedInsertHasNoFolder | lib/api.ts:163-167 | an insert the database accepts carries no folder id, so the new row's `folder_id` is null |
| Api.Patched | lib/api.ts:195-201 | id, owner, creation time and favicon kept; present fields overwritten, absent ones kept; `folder_id` always overwritten with the folder or null; `updated_at` stamped |
| Api.AcceptedUpdateClearsFolder | lib/api.ts:197-201 | an update the database accepts carries no folder id, so it sets `folder_id` to null and takes the row out of its folder |
| Api.BookmarkService.constructor | lib/api.ts:77-78 | the service talks to the given database |
| Api.BookmarkService.GetBookmarks | lib/api.ts:80-116 | signed out: the authentication error; a non-empty folder id that is not a UUID: the id error; a database error: failure with its message; otherwise success with exactly the caller's rows (in that folder when one is given), newest first, each with its relations |
| Api.BookmarkService.GetBookmark | lib/api.ts:118-148 | the id error, then the authentication error, then a database error with its message; success iff there is no such error and exactly one row has that id and the caller as owner, and it is that row with its relations; otherwise the single-row error |
| Api.BookmarkService.CreateBookmark | lib/api.ts:150-181 | a form error, then the authentication error, then the database's refusal of the unknown `folderId` column, then any other insert error, each leaving the database unchanged; otherwise exactly the new row is appended and returned, and no other table changes |
| Api.BookmarkService.UpdateBookmark | lib/api.ts:183-213 | id, patch and session are checked in that order with nothing changed on failure; a patch carrying `folderId` is refused by the database, and any other database error is reported, each with nothing changed; otherwise success iff exactly one row matches id and owner, and then exactly the matching rows are patched in place and the patched row is returned; else the single-row error and no change |
| Api.BookmarkService.DeleteBookmark | lib/api.ts:215-242 | after the id and session checks, every association of the id is removed; then the caller's row with that id is removed and success answered, or, on a database error, the row stays and the failure is answered with the associations already gone; nothing else changes |
| Api.BookmarkService.SearchBookmarks | lib/api.ts:244-276 | signed out: the authentication error; a database error: failure with its message; otherwise exactly the caller's rows whose title, description or url contains the query ignoring case, newest first, with relations |
| Api.ListedRowsAreExactlyOwned | lib/api.ts:100-107 | a listing contains a row iff the caller owns it and it is in the asked folder |
| Api.SearchedRowsMatch | lib/api.ts:264-267 | a search result contains a row iff the caller owns it and the query occurs in its title, description or url |
| Api.CreatedRowIsFound | lib/api.ts:169-173 | a row created under a fresh id is then found by `getBookmark` as exactly one row |
| Api.UpdateKeepsMatches | lib/api.ts:195-205 | an update that keeps each row's match status keeps the number of matching rows |
| Api.UpdatedRowStaysFound | lib/api.ts:197-203 | after a successful update the same id and owner still match exactly one row |
| Api.DeleteRemovesOnlyTheRow | lib/api.ts:230-234 | after the delete a row remains iff it was there and is not the caller's row with that id |
| Api.FolderService.constructor | lib/api.ts:280-281 | the service talks to the given database |
| Api.FolderService.GetFolders | lib/api.ts:283-302 | signed out: the authentication error; a database error: failure with its message; otherwise exactly the caller's folders, ordered by name |
| Api.FolderService.CreateFolder | lib/api.ts:304-330 | a form error, then the authentication error, then an insert error, each with no change; otherwise the caller's folder under the parent or at the root is appended and returned, and nothing else changes |
| Api.FolderService.DeleteFolder | lib/api.ts:332-352 | after the id and session checks, a database error is answered with no change; otherwise only the caller's folder with that id is removed, and bookmarks and associations are untouched |
| Api.TagService.constructor | lib/api.ts:356-357 | the service talks to the given database |
| Api.TagService.GetTags | lib/api.ts:359-378 | signed out: the authentication error; a database error: failure with its message; otherwise exactly the caller's tags, ordered by name |
| Api.TagService.CreateTag | lib/api.ts:380-406 | a form error, then the authentication error, then an insert error, each with no change; otherwise the caller's tag, with its colour or null, is appended and returned |
| Api.TagService.DeleteTag | lib/api.ts:408-435 | after the id and session checks, every association of the tag is removed; then only the caller's tag with that id is removed and success answered, or, on a database error, the tag stays and the failure is answered with the associations already gone |
| QueryHooks.BookmarkQueryEnabled | hooks/use-bookmarks.ts:35 | `!!id`: the only id that disables the detail query is the empty string |
| QueryHooks.SearchQueryEnabled | hooks/use-bookmarks.ts:50 | `query.length >= 2` in UTF-16 code units: any two characters enable the search, and the empty query never does |
| QueryHooks.BookmarksQueryKey | hooks/use-bookmarks.ts:11-13 | the folder's key for a non-empty folder id, else the list key; always under `"bookmarks"` |
| QueryHooks.ListKeysOf | hooks/use-bookmarks.ts:66-73 | the keys a created or updated row makes stale: the list, and its folder's key exactly when it has a non-empty folder |
| QueryHooks.WithoutId | hooks/use-bookmarks.ts:140-145 | the cached list becomes the `filter` of entries whose id differs, in order: it keeps exactly those entries; a single cached row is left alone |
| QueryHooks.WithoutIdKeepsOrder | hooks/use-bookmarks.ts:140-145 | removal distributes over concatenation, and a list without that id comes back unchanged |
| QueryHooks.Snapshot | hooks/use-bookmarks.ts:137 | `getQueryData`: present iff the key is cached, and then that value |
| QueryHooks.RemoveOptimistically | hooks/use-bookmarks.ts:140-145 | only the given key's entry changes, to the list without the id |
| QueryHooks.Restore | hooks/use-bookmarks.ts:153-160 | with a snapshot the key holds it again; without one nothing changes; other keys are untouched |
| QueryHooks.RollbackRestores | hooks/use-folders.ts:57-79 | restoring the snapshot taken before the optimistic removal gives back the cache exactly |
| QueryHooks.BookmarkRollbackLosesDetail | hooks/use-bookmarks.ts:132-160 | a rolled-back bookmark delete gives back the list but not the detail entry removed in `onMutate` |
| QueryHooks.QueryCache.constructor | lib/query-client.ts:3-35 | an empty cache with nothing stale |
| QueryHooks.QueryCache.CreateBookmarkSucceeded | hooks/use-bookmarks.ts:66-73 | the data is kept and exactly the row's list keys are marked stale |
| QueryHooks.QueryCache.UpdateBookmarkSucceeded | hooks/use-bookmarks.ts:101-111 | the detail entry becomes the returned row and the row's list keys are marked stale |
| QueryHooks.QueryCache.DeleteBookmarkMutate | hooks/use-bookmarks.ts:132-152 | returns the list's snapshot, removes the id from the cached list and drops the detail entry |
| QueryHooks.QueryCache.DeleteBookmarkFailed | hooks/use-bookmarks.ts:153-160 | puts the snapshot back under the list key |
| QueryHooks.QueryCache.DeleteBookmarkSettled | hooks/use-bookmarks.ts:162-165 | the list key is marked stale, success or not |
| QueryHooks.QueryCache.DeleteBookmark | hooks/use-bookmarks.ts:122-172 | one whole delete: on success the id is gone from the list, on failure the list is as before; either way the detail entry is gone and the list is stale |
| QueryHooks.QueryCache.CreateFolderSucceeded | hooks/use-folders.ts:34-36 | only the folder list is marked stale |
| QueryHooks.QueryCache.DeleteFolder | hooks/use-folders.ts:57-86 | on success the id is gone from the cached folder list, on failure the cache is as before; folders and bookmarks are marked stale |
| QueryHooks.QueryCache.CreateTagSucceeded | hooks/use-tags.ts:34-36 | only the tag list is marked stale |
| QueryHooks.QueryCache.DeleteTag | hooks/use-tags.ts:57-83 | on success the id is gone from the cached tag list, on failure the cache is as before; tags and bookmarks are marked stale |
| UserHooks.DefaultPreferences | hooks/use-user.ts:57-61 | the row created for a user without one: that user, metadata fetching on, e-mail notifications off |
| UserHooks.UserData.constructor | hooks/use-user.ts:1-16 | the hooks talk to the given database |
| UserHooks.UserData.UserPreferences | hooks/use-user.ts:38-74 | signed out: "Not authenticated"; a read error is passed on; the user's single row is returned unchanged; with no single row the default row is inserted and returned, unless that insert fails |
| UserHooks.JsonItems | hooks/use-user.ts:213-222 | an object's `bookmarks` array, else the array itself, else "Invalid JSON format"; a parsed `null` fails on the property read |
| UserHooks.Indexed | hooks/use-user.ts:244-254 | the own keys of an array or a string: exactly the decimal indices, each holding its element |
| UserHooks.IsJsonFile | hooks/use-user.ts:211 | a file typed `application/json` is JSON whatever its name, and a file named `*.json` whatever its type; a file of another type with a name shorter than `.json` is not |
| UserHooks.ImportItems | hooks/use-user.ts:211-239 | JSON by type or name first, then `.html` by name, else "Unsupported file format"; a parse error is passed on; an HTML file gives one record per link, in order |
| UserHooks.HtmlRecord | hooks/use-user.ts:229-236 | exactly the six fields: `href` as url, the text or else `href` as title, the rest null |
| UserHooks.Fields | hooks/use-user.ts:244-254 | the own keys an object rest copies: an object's fields, an array's or string's index keys, nothing from `null`, a number or a boolean |
| UserHooks.Prepare | hooks/use-user.ts:242-259 | a `null` item throws the destructuring error; otherwise the six non-table keys are dropped, every other own key (an array's or a string's index keys included) is kept with its value, and `user_id` is the importing user |
| UserHooks.ArrayItemKeepsEveryElement | hooks/use-user.ts:244-256 | an array item reaches the insert with every element under its decimal index |
| UserHooks.PrepareAll | hooks/use-user.ts:242-258 | fails with the destructuring error iff some item is `null`; otherwise one prepared record per item, in order |
| UserHooks.TagsField | hooks/use-user.ts:275 | the listed tags are the item's `tags` array, or none |
| UserHooks.TagName | hooks/use-user.ts:280 | a listed tag takes part iff it is an object whose `name` is a non-empty string, and then under that name |
| UserHooks.TagColor | hooks/use-user.ts:297 | the fallback to null: a colour is kept iff it is a non-empty string, so an empty colour is stored as null |
| UserHooks.RequestsOf | hooks/use-user.ts:279-280 | every tag request of one item is for that item's inserted row |
| UserHooks.Resolve | hooks/use-user.ts:279-307 | a name the user has exactly once links that tag and adds none; otherwise a new tag is inserted and linked, or, when that insert fails, the request is skipped |
| UserHooks.Requests | hooks/use-user.ts:270-280 | every request made for the first `n` items is for one of those items' inserted rows |
| UserHooks.Run | hooks/use-user.ts:279-316 | the requests resolved in order; each tries at most one tag insert |
| UserHooks.RunAppend | hooks/use-user.ts:270-279 | resolving two runs of requests in turn is resolving them together |
| UserHooks.ResolveOnlyAppends | hooks/use-user.ts:293-316 | one request adds at most one tag and one association, keeps the earlier rows in place, and links only its own bookmark |
| UserHooks.RunOnlyAppends | hooks/use-user.ts:270-320 | the whole tag phase only appends: earlier tags and associations stay, and each request adds at most one of each |
| UserHooks.ResolveKeepsNamesUnique | hooks/use-user.ts:282-301 | a request never gives the user a second tag of a name held at most once |
| UserHooks.ImportKeepsNamesUnique | hooks/use-user.ts:270-320 | because the lookups run one at a time, a name repeated within an import leaves the user at most one tag of that name |
| UserHooks.ExistingTagIsReused | hooks/use-user.ts:305-316 | a name held exactly once is linked to the existing tag and no tag is created |
| UserHooks.UserData.ResolveRequest | hooks/use-user.ts:282-316 | the tables afterwards are exactly what `Resolve` gives; bookmarks, folders and preferences are untouched |
| UserHooks.UserData.TagListed | hooks/use-user.ts:279-280 | after listed tag `j` the tables are the resolution of the first `j + 1` requests |
| UserHooks.UserData.TagBookmark | hooks/use-user.ts:275-319 | the tables afterwards are the resolution of all of one item's requests, in order |
| UserHooks.UserData.TagAll | hooks/use-user.ts:270-320 | the tables afterwards are the resolution of every item's requests, item by item, in order |
| UserHooks.UserData.ImportBookmarks | hooks/use-user.ts:202-323 | signed out: "Not authenticated"; a file error, a `null` item or an insert error leaves the database unchanged; otherwise the inserted rows are appended and returned, and the tags and associations are what the tag phase gives |
| UserHooks.ImportSucceeded | hooks/use-user.ts:324-326 | the cached data is kept; every bookmark key and the tag list are marked stale |
| Toasts.ErrorText | components/dashboard/folder-list.tsx:176 | the error's message when it is non-empty, else the fixed fallback; never empty |
| FolderList.HasBookmarks | components/dashboard/folder-list.tsx:116-120 | some bookmark is filed in the folder exactly when the `folder_id` probe finds a row |
| FolderList.HasSubfolders | components/dashboard/folder-list.tsx:135-139 | some folder has this one as parent exactly when the `parent_id` probe finds a row |
| FolderList.ProbesFindReferences | components/dashboard/folder-list.tsx:116-141 | the first-row probes find a row exactly when some bookmark is filed in the folder, or some folder has it as parent |
| FolderList.GuardedDeleteLeavesNoOrphans | components/dashboard/folder-list.tsx:153-157 | after the subfolder probe came back empty, the delete removes only the caller's folder with that id and leaves no folder pointing at it |
| FolderList.FolderActions.constructor | components/dashboard/folder-list.tsx:98-99 | the dialog is closed and no delete is running |
| FolderList.FolderActions.HandleDelete | components/dashboard/folder-list.tsx:107-181 | signed out: the failure toast and no change; a folder holding bookmarks, then one holding subfolders, is refused with no change and the dialog closed, unless that probe failed, in which case its guard is passed; otherwise a delete error is shown with no change, or the caller's folder is removed and nothing else changes; `isDeleting` always ends false |
| TagList.UnlinkRemovesOnlyThatTag | components/dashboard/tag-list.tsx:109 | the association delete removes exactly the tag's associations |
| TagList.AssociationNote | components/dashboard/tag-list.tsx:173-179 | the note appears iff the association count is present and positive, and is then the fixed opening, the count in decimal without leading zeros, and the fixed closing |
| TagList.TagActions.constructor | components/dashboard/tag-list.tsx:91-92 | the dialog is closed and no delete is running |
| TagList.TagActions.HandleDelete | components/dashboard/tag-list.tsx:100-140 | signed out: the failure toast and no change; otherwise the tag's associations are removed whatever follows; a delete error is shown and the tag kept, or the caller's tag is removed and the dialog closed; `isDeleting` always ends false |
| BookmarkList.Render | components/dashboard/bookmark-list.tsx:59-61 | the empty-state text exactly when the list is missing or empty, else the list itself |
| BookmarkList.TagBadges | components/dashboard/bookmark-list.tsx:170-179 | the first `limit` tags, and an overflow badge exactly when there are more |
| BookmarkList.CardBadges | components/dashboard/bookmark-list.tsx:170-178 | at most three badges; the overflow badge iff there are more than three tags |
| BookmarkList.RowBadges | components/dashboard/bookmark-list.tsx:257-265 | at most two badges; the overflow badge iff there are more than two tags |
| BookmarkList.BadgesCountEveryTag | components/dashboard/bookmark-list.tsx:175-178 | drawn badges plus the overflow count are the number of tags; the overflow badge appears only once the drawn badges are full |
| BookmarkList.CardShowsAtLeastRow | components/dashboard/bookmark-list.tsx:257-266 | a card draws at most one badge more than a row, and a card overflow implies a row overflow |
| BookmarkList.DeleteIgnoresOwner | components/dashboard/bookmark-list.tsx:319-322 | the card's delete removes every row with that id, whoever owns it, and keeps the rest |
| BookmarkList.BookmarkActions.constructor | components/dashboard/bookmark-list.tsx:292-293 | the dialog is closed and no delete is running |
| BookmarkList.BookmarkActions.HandleDelete | components/dashboard/bookmark-list.tsx:309-347 | the bookmark's associations are removed first; a delete error is shown with the bookmark kept, otherwise every row with that id is removed; the dialog closes and `isDeleting` ends false either way |
| DashboardNav.FolderCounts | components/dashboard/dashboard-nav.tsx:69-75 | one entry per folder, in order, counting the bookmarks filed in it |
| DashboardNav.TagCounts | components/dashboard/dashboard-nav.tsx:92-98 | one entry per tag, in order, counting its associations |
| DashboardNav.ZeroCountMeansNoBookmarks | components/dashboard/dashboard-nav.tsx:74 | a folder shows 0 exactly when no bookmark is filed in it |
| DashboardNav.UnlinkedTagCountsZero | components/dashboard/dashboard-nav.tsx:97 | after the tag card removes a tag's associations, its count is 0 |
| DashboardNav.Roots | components/dashboard/dashboard-nav.tsx:145 | exactly the loaded folders without a truthy `parent_id` |
| DashboardNav.SubFolders | components/dashboard/dashboard-nav.tsx:146 | exactly the loaded folders with a truthy `parent_id` |
| DashboardNav.Grouped | components/dashboard/dashboard-nav.tsx:203-221 | every root is drawn at level 0, and every other drawn folder is a subfolder at level 1; only roots and subfolders are drawn |
| DashboardNav.FolderTree | components/dashboard/dashboard-nav.tsx:145-221 | only loaded folders are drawn, roots at level 0 and folders with a parent at level 1, never deeper |
| DashboardNav.RootsAndSubfoldersPartition | components/dashboard/dashboard-nav.tsx:145-146 | roots and subfolders split the list by `parent_id`, and each keeps the name order |
| DashboardNav.AtLevel | components/dashboard/dashboard-nav.tsx:213-220 | the folders given, each drawn at the given level |
| DashboardNav.GroupedMembers | components/dashboard/dashboard-nav.tsx:203-221 | roots are drawn at level 0 and a subfolder at level 1 exactly when it names a root as parent |
| DashboardNav.FolderTreeShows | components/dashboard/dashboard-nav.tsx:145-221 | the folder section draws every root at level 0 and exactly the subfolders of roots at level 1 |
| DashboardNav.OrphansAreHidden | components/dashboard/dashboard-nav.tsx:211-212 | a subfolder whose parent is not a root is not drawn at all |
| DashboardNav.FolderTreeIndentation | components/dashboard/dashboard-nav.tsx:281 | roots are drawn 12px in and subfolders 28px in |
| DashboardNav.DotClass | components/dashboard/dashboard-nav.tsx:256 | a non-empty colour gives `bg-[colour]` and can be read back; no colour gives `bg-blue-500` |
| DashboardNav.DotClassesDistinct | components/dashboard/dashboard-nav.tsx:256 | different colours give different classes, and a colour never gives the default class |
| DashboardNav.IsActive | components/dashboard/dashboard-nav.tsx:169-171 | exact match: a page below an entry's link does not highlight that entry |
| DashboardNav.AtMostOneActive | components/dashboard/dashboard-nav.tsx:169-171 | at most one main navigation entry is highlighted for any path |
| DashboardNav.Sidebar.constructor | components/dashboard/dashboard-nav.tsx:46-48 | no folders or tags, and loading |
| DashboardNav.Sidebar.FetchData | components/dashboard/dashboard-nav.tsx:50-106 | signed out: nothing loaded; otherwise the folders and tags in name order with their counts; `loading` ends false |
| Search.ShouldSearch | components/dashboard/search.tsx:48 | a query of white space only is never searched, nor is the empty query |
| Search.PaletteStricterThanHook | components/dashboard/search.tsx:48 | whatever the palette searches the search hook would too, but a query of two or more spaces enables the hook and not the palette |
| Search.SingleAstralCharIsSearched | components/dashboard/search.tsx:48 | one character outside the Basic Multilingual Plane is two UTF-16 code units, so both the palette and the search hook search for it |
| Search.Take | components/dashboard/search.tsx:68 | `.limit(n)`: the first `n` rows, or all of them when there are fewer |
| Search.BookmarkResults | components/dashboard/search.tsx:61-68 | the first ten of the caller's bookmarks whose title, description or url contains the query ignoring case, in table order, or all of them when there are fewer |
| Search.FolderResults | components/dashboard/search.tsx:71-76 | the first five of the caller's folders whose name contains the query ignoring case, or all of them when there are fewer |
| Search.TagResults | components/dashboard/search.tsx:79-84 | the first five of the caller's tags whose name contains the query ignoring case, or all of them when there are fewer |
| Search.FewMatchesAllListed | components/dashboard/search.tsx:61-84 | with no more matches than a section's limit, every matching row of the caller is listed |
| Search.Assemble | components/dashboard/search.tsx:86-104 | at most twenty results, bookmarks first, then folders, then tags; picking out one kind gives back exactly that kind's result list |
| Search.Sections | components/dashboard/search.tsx:86-104 | out of three lists of one kind each, concatenated, a kind filter picks exactly its own list |
| Search.FailedQueryEmptiesItsSection | components/dashboard/search.tsx:87-99 | a section whose query failed is shown empty, and every other section is its full result list |
| Search.RanksAscend | components/dashboard/search.tsx:86-104 | the spread of the three lists puts every bookmark before every folder and every folder before every tag |
| Search.AssembledResultsMatch | components/dashboard/search.tsx:58-104 | every listed result stands for a row of the caller that matches the query |
| Search.Route | components/dashboard/search.tsx:118-131 | the page is `/dashboard/` followed by the kind's section and the id, which can be read back from it |
| Search.RouteInjective | components/dashboard/search.tsx:120-130 | different results never route to the same page |
| Search.Palette.constructor | components/dashboard/search.tsx:27-30 | closed, with an empty query and no results, not loading |
| Search.Palette.KeyDown | components/dashboard/search.tsx:35-40 | `k` with Cmd or Ctrl flips `open`; any other key changes nothing |
| Search.Palette.SearchData | components/dashboard/search.tsx:47-112 | a blank query, or one shorter than two UTF-16 code units, clears the results; signed out keeps them; otherwise they become the assembled list, with the section of each failed query empty; loading ends false once started |
| Search.Palette.HandleSelect | components/dashboard/search.tsx:118-131 | closes the palette and returns the result's page |
| AddBookmarkForm.Removed | components/forms/add-bookmark-form.tsx:127-129 | exactly the selected ids other than the removed one are kept |
| AddBookmarkForm.Toggled | components/forms/add-bookmark-form.tsx:118-124 | the toggled id is selected afterwards iff it was not before; every other id keeps its selection |
| AddBookmarkForm.ToggleSelectsOrDeselects | components/forms/add-bookmark-form.tsx:118-124 | toggling drops a selected id entirely and keeps the others, appends an unselected one, and keeps a duplicate-free selection duplicate-free |
| AddBookmarkForm.ToggleTwiceRestores | components/forms/add-bookmark-form.tsx:118-124 | toggling an unselected id twice gives back the selection |
| AddBookmarkForm.FolderOnChange | components/forms/add-bookmark-form.tsx:211-216 | the placeholder item stores the empty folder id; any other value is stored as it is |
| AddBookmarkForm.FolderSelectValue | components/forms/add-bookmark-form.tsx:217 | the select always shows a non-empty value |
| AddBookmarkForm.FolderSelectRoundTrip | components/forms/add-bookmark-form.tsx:211-217 | showing then picking gives back the stored folder id unless it is literally `no-folder`; picking then showing gives back any non-empty item |
| AddBookmarkForm.FillIfEmpty | components/forms/add-bookmark-form.tsx:86-93 | a field the user filled is never overwritten; an empty one takes the fetched value |
| AddBookmarkForm.DisplayHost | components/forms/add-bookmark-form.tsx:100 | a leading `www.` is dropped, and a hostname without `www.` is kept |
| AddBookmarkForm.FetchNeedsLowerCaseScheme | components/forms/add-bookmark-form.tsx:74-79 | the fetch starts iff the typed URL has no scheme or starts with lower-case `http`: an upper-case scheme is never fetched |
| AddBookmarkForm.UnscrapedTitleIsFullHostname | components/forms/add-bookmark-form.tsx:83-88 | since the metadata fetch never rejects, an empty title becomes the full hostname, `www.` included |
| AddBookmarkForm.BookmarkForm.constructor | components/forms/add-bookmark-form.tsx:46-58 | every field empty but the initial URL, no tag selected, not extracting |
| AddBookmarkForm.BookmarkForm.ToggleTag | components/forms/add-bookmark-form.tsx:118-124 | the selection is toggled and the form fields are kept |
| AddBookmarkForm.BookmarkForm.RemoveTag | components/forms/add-bookmark-form.tsx:127-129 | the id is removed from the selection and the form fields are kept |
| AddBookmarkForm.BookmarkForm.SelectFolder | components/forms/add-bookmark-form.tsx:211-216 | the folder id becomes the picked item, with the placeholder as empty |
| AddBookmarkForm.BookmarkForm.ExtractMetadata | components/forms/add-bookmark-form.tsx:69-108 | nothing without a URL or the preference; the URL field takes the normalised URL when it differs; without an `http` prefix nothing more; else only empty title and description are filled, from the metadata or, when the fetch rejects, the title from the hostname; extraction ends false |
| Middleware.IsAuthPage | middleware.ts:24 | the login and sign-up pages, neither of which lies under `/dashboard` |
| Middleware.Guard | middleware.ts:14-30 | a visitor without a session is sent from the dashboard to `/login`; a confirmed user is sent from `/login` or `/signup` to `/dashboard`; everything else passes |
| Middleware.UnconfirmedStaysOnAuthPages | middleware.ts:21-28 | a user whose email is not confirmed stays on the login and sign-up pages |
| Middleware.NoRedirectLoop | middleware.ts:14-30 | following a redirect with the same session is never redirected again |
| AuthCallback.Callback | app/auth/callback/route.ts:8-59 | a provider error goes to `/login` with its description or the fixed text; no code goes to `next`; otherwise an exchange error, an exception and an unconfirmed user go to `/login` with their message, and a success to `next` |
| AuthCallback.FailuresExplainThemselves | app/auth/callback/route.ts:8-59 | every path that does not reach `next` lands on `/login` with one non-empty parameter; `next` is reached only without one |
| AuthCallback.CodeReachesNextIffExchanged | app/auth/callback/route.ts:23-59 | with a code and no provider error, `next` is reached iff the exchange succeeded without an unconfirmed user |
| AuthCallback.UnconfirmedSignUpStaysOnLogin | app/auth/callback/route.ts:37-46 | an unconfirmed sign-up is sent to `/login`, where the guard lets them stay |
| AuthCallback.ErrorParamWins | app/auth/callback/route.ts:13-21 | a provider error decides the target whatever the exchange does |

## Left out

- The Supabase client, its auth calls and the network: the session is an `Option` parameter and the database is the in-memory `Store.Db`. Row-level security, foreign-key constraints and database defaults are not visible in the code and are not modelled; only the filters the code writes are.
- The association deletes that `deleteBookmark`, `deleteTag` and the delete handlers run first, and the association inserts of the import, always succeed in the model. The code does not look at their results.
- UserHooks.Resolve: the import's tag lookup (hooks/use-user.ts:282-291) ignores its error. A lookup that fails for a reason other than "no single row" leaves `existingTag` null, so the code inserts a second tag of that name. The model's lookup never fails this way, so `UserHooks.ImportKeepsNamesUnique` holds only when every lookup succeeds.
- UserHooks.TagName: the code takes part any tag whose `name` is truthy (`tag && tag.name`), and `UserHooks.TagColor` keeps any truthy colour (`tag.color || null`). The model takes part only string names and keeps only string colours. A truthy non-string name or colour (a number, `true`, an object) is skipped by the model, while the code sends it to the database.
- UserHooks.TagsField: a truthy `tags` value that is not iterable but has a positive `length` (such as `{"length": 1}`) makes `for...of` throw after the bookmarks were inserted, so the import rejects with those rows stored. A string `tags` is iterated character by character and yields no names. The model reads only an array `tags` and treats anything else as no tags, so that import succeeds in the model.
- PostgREST filter strings: the model treats the query as plain text at all three filter sites: the `.or(...ilike...)` of `searchBookmarks` (lib/api.ts:266), the palette's `.or(...ilike...)` (components/dashboard/search.tsx:65), and its `.ilike("name", ...)` for folders and tags (components/dashboard/search.tsx:74 and :82). In the code, `%`, `_` and `*` (which PostgREST reads as `%`) are wildcards and `\` escapes the next character, at every site. Inside the two `.or(...)` strings, `,`, `.`, `:` and parentheses are also filter syntax.
- Case-insensitive matching (`/i`, `ilike`) is ASCII case folding, and `.order("name")` is code-point order, which is the UTF-8 byte order of the C collation; Unicode case folding and other database collations are not modelled.
- Strings are sequences of Unicode scalar values. Where the code compares `.length` (the zod `min`/`max` bounds, the search thresholds), the model counts UTF-16 code units with `Strings.Utf16Length`. Lone surrogates, which a JavaScript string can hold, are not representable.
- UserHooks.Prepare: for a string item, JavaScript copies one index key per UTF-16 code unit, so a character outside the Basic Multilingual Plane gives two keys holding its surrogate halves; the model copies one key per character.
- `Search.Take`: `.limit(n)` takes the first rows in the order the table stores them; the database's unspecified row order is not modelled.
- `JSON.parse`, `DOMParser`/`querySelectorAll`, `new URL(...)`, zod's `.uuid()` and `.email()` are foreign: their results are parameters. A parsed JSON number (`Json.JNum`) holds an integer, while JSON numbers are doubles: the truthiness of a fraction such as `0.5` and of `NaN` cannot be expressed.
- zod's error text (the JSON of the issue list) is not modelled: a rejection carries the list of issue messages.
- `emailSchema`, `authFormSchema`, `loginFormSchema`, `searchSchema` and the exported `sanitizedTextSchema` alone (lib/validations.ts) are not modelled: no modelled code path uses them.
- `sanitizeHtml` and `extractHostname` (lib/utils/security.ts) depend on the DOM and on `new URL`, and no modelled code calls them.
- `generateCSRFToken` uses randomness; `PerformanceTimer` uses `performance.now` and floating point.
- `debounce` and every `setTimeout` debounce (the palette's 300 ms, the form's 1000 ms) are timers: each modelled call is the call that fires. The retry sleeps are returned as a list of waits instead. The form's effect also fires only when `url && url !== initialUrl` (components/forms/add-bookmark-form.tsx:110); `AddBookmarkForm.BookmarkForm.ExtractMetadata` models a call that passed that guard, so the model does not show that a form opened with an initial URL never fetches metadata for that URL.
- `Performance.BatchAsync`: `Promise.all` is modelled as a sequential map, so it does not capture interleaving or the rejection of a whole batch.
- Performance.BatchAsync: with at least one item and a `batchSize` of 0 or less, `i += batchSize` (lib/utils/performance.ts:132) never reaches `items.length`, so the source never finishes. That call has no result to model, and the method requires `items == [] || batchSize > 0`. A fractional `batchSize` (where `slice` truncates its bounds and items repeat) is not modelled either: the size is an integer.
- Performance.Retry: `maxRetries` is an integer. A fractional value, for which `i === maxRetries` never holds and the last failure is thrown after the loop (lib/utils/performance.ts:168), is not modelled.
- `Performance.Memoized.Call`: the `JSON.stringify` key is replaced by the arguments themselves, so arguments that serialise alike are not merged.
- TanStack Query internals (`cancelQueries`, prefix matching in `invalidateQueries`, garbage collection, refetching) are modelled only as a set of keys marked stale. `staleTime`/`gcTime` are constants with no behaviour attached.
- The global mutation `onError` toast (lib/query-client.ts:23-33) only shows a message.
- `createErrorBoundaryConfig` (lib/utils/error-handling.ts:172-190) only logs and supplies a fixed fallback message. The `Logger` class (lib/utils/error-handling.ts:245-274) only writes to the console in development. Neither is modelled.
- Toasts other than the text of the delete handlers, router pushes and refreshes, and the `onUpdate` callbacks are presentation.
- The dashboard sidebar ignores its query errors (`console.error`); the model has no error path there.
- `AuthCallback.Callback`: resolving `next` against the request URL (`new URL(next, request.url)`) is not modelled; the target is `next` as given.
- `fetchBookmarkMetadata`'s network fetch and HTML extraction: the scraped title and description are parameters.
- The profile hooks and account deletion (hooks/use-user.ts:77-195) are thin single-call mutations.
- Landing pages, UI primitives, layout shells and the duplicate card and row components are presentation only.
