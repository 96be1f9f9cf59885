# voice_of_sharavathi content core, in Dafny

voice_of_sharavathi is a small Next.js content site for river-conservation
stories. An admin adds image, video and social-post entries, and a public
gallery shows them. This project models the parts of it that hold logic:

- **The content route** (`GET` and `POST /api/content`). GET probes a hosted
  table under four candidate names. It then falls back to a direct SQL
  connection and finally to a local JSON file. Rows from the first two
  sources are normalised to one camelCase record shape. POST maps the
  request body and tries an SQL insert, then a hosted insert (retried once
  with lowercase column names), then an append to the local file.
- **The add form**: its initial state, the content-type reset, the YouTube
  URL check, the ordered submit checks and the payload.
- **The two gallery pages**: acceptance of the fetched list, like counters,
  the reading-time estimate, the YouTube embed address (pattern-based on
  one page, a string rewrite on the other), the media panel, and the card
  details of the revised page.
- **The admin list**: the filter applied after a delete, and the item count.

The hosted client, the SQL connection and the local file are not code the
model can see. Each is a parameter: `Env` carries a flag for each backend
and a function standing for each call's result. `FileStore` holds the file
as a list, or nothing when the file is missing or does not parse. The
clock and generated ids are passed in as `Clock`. JavaScript values are
modelled as `Val` (undefined, null, booleans, integers, strings), and
records as maps from field name to `Val`.

Modules: `Values` (values, `??`, `||`), `Text` (string helpers),
`YouTube` (the two shared patterns and the regular-expression search),
`ContentRoute`, `AddPage`, `View`, `ViewUpdated` and `HomePage`.

GET answers 200 for every modelled input. Each backend failure is caught
(app/api/content/route.js:67 and 93), and the local read yields `[]` when
the file is missing or does not parse (lib/storage.js:10-11). No modelled
failure reaches the 500 branch at app/api/content/route.js:103-106, so
`GetResponse` states status 200 for every input it models. A file that
parses to something other than a list is not modelled (see "## Left out").

Responses are sent through `JSON.stringify`, which leaves out every field
whose value is `undefined`. `Values.Serialize` models that step. The
response bodies and the records written to the local file go through it.

## Model

| member | source | states |
|---|---|---|
| Values.Coalesce | app/api/content/route.js:55-61 | `a ?? b ?? … ?? null` is null exactly when no alternative is present; otherwise it is the first present alternative |
| Values.Serialize | app/api/content/route.js:63 | a serialised record keeps exactly the fields whose value is not `undefined`, with their values |
| Values.SerializeKeepsFields | app/api/content/route.js:197 | reading any field gives the same value before and after serialisation |
| Values.Or | app/api/content/route.js:116-120 | `a \|\| b` is `a` when `a` is truthy and `b` otherwise |
| Text.IndexOf | app/view/page_updated.js:176 | a reported index is an occurrence of the pattern |
| Text.IndexOfLeftmost | app/view/page_updated.js:176 | `indexOf` reports nothing exactly when there is no occurrence; a reported index is the leftmost one |
| Text.ReplaceFirst | app/view/page_updated.js:180 | a string `replace` changes only the leftmost occurrence and leaves the string alone when there is none |
| Text.BeforeFirst | app/view/page_updated.js:180 | `split('&')[0]` is a prefix free of `&`, the whole string when there is no `&`, and is followed by `&` otherwise |
| Text.Split | app/view/page.js:109 | `split(' ')` yields at least one piece and no piece contains the separator |
| Text.SplitCount | app/view/page.js:109 | the number of pieces is the number of separators plus one |
| Text.SplitJoin | app/view/page.js:109 | joining the pieces with the separator gives back the string |
| YouTube.MatchAltsAt | app/add/page.js:56 | at one position, the alternation matches exactly when one of its literal alternatives followed by 11 id characters does; the capture is a video id |
| YouTube.Search | app/view/page.js:123 | any match found by the unanchored search is an 11-character id from `[a-zA-Z0-9_-]` |
| YouTube.SearchFindsAny | app/add/page.js:59 | the search succeeds exactly when some alternative matches at some position |
| YouTube.SearchLeftmost | app/view/page.js:123-125 | the capture comes from the leftmost matching position, with no match before it |
| YouTube.CapturesFindLinks | app/add/page.js:55-59 | either pattern captures an id exactly when a link prefix followed by a video id occurs in the URL; such a URL has at least 20 characters |
| YouTube.AnyPatternMatches | app/add/page.js:59 | `patterns.some(test)` holds exactly when a link prefix followed by 11 id characters occurs in the URL, which then has at least 20 characters |
| ContentRoute.ContentJson | app/api/content/route.js:52-63 | a normalised record is sent with at most the nine fields and never an `_id`; `id` and `title` are present exactly when defined; the other seven are always present in a settled record; each field reads as normalised |
| ContentRoute.FileStore.constructor | lib/storage.js:6-13 | the store starts from the file's current state |
| ContentRoute.FileStore.Read | lib/storage.js:6-13 | reading yields the stored list, or `[]` when the file is missing or unreadable |
| ContentRoute.FileStore.Write | lib/storage.js:15-18 | writing replaces the whole stored list |
| ContentRoute.FileStore.FailWrite | lib/storage.js:15-18 | a failed write leaves the file in whatever state the failure left it: unchanged, truncated, partial or unparseable |
| ContentRoute.ProbeTables | app/api/content/route.js:20-40 | probing only reports rows that are non-empty |
| ContentRoute.Attempted | app/api/content/route.js:24-40 | the names queried are a prefix of the candidates, in order, and the first is always queried |
| ContentRoute.ProbeFindsFirst | app/api/content/route.js:20-40 | probing finds rows exactly when some candidate returned rows and every earlier candidate erred or was empty; the rows returned are that candidate's |
| ContentRoute.ProbeSkipsErrors | app/api/content/route.js:31-39 | a per-table error never stops probing; when all candidates err or are empty, all four are queried and nothing is found |
| ContentRoute.AttemptedStops | app/api/content/route.js:24-40 | querying stops at the first candidate that is not skipped: exactly the candidates up to and including it are queried |
| ContentRoute.ProbeEach | app/api/content/route.js:24-40 | the `for` loop with `break` computes the probing outcome and the names queried |
| ContentRoute.ProbeHostedTables | app/api/content/route.js:20-40 | the loop over the four candidate names gives the probing outcome for those names |
| ContentRoute.NormalizeHosted | app/api/content/route.js:52-62 | id and title are copied; each other field is the `??` chain of its spellings ending in null: `description`/`text`, `contentType`/`contenttype`, `image`, `externalUrl`/`externalurl`, `platform`, `createdAt`/`createdat`/`created_at`, `updatedAt`/`updatedat`/`updated_at`, so it takes the first present spelling; no field but id and title is undefined |
| ContentRoute.NormalizeSql | app/api/content/route.js:78-88 | id and title are copied; `contentType` and `externalUrl` read only the lowercase `contenttype` and `externalurl` columns; `description` is `description ?? text ?? null`; `image`, `platform`, `createdAt` and `updatedAt` are their column or null |
| ContentRoute.NormalizeRows | app/api/content/route.js:52 | normalisation keeps the length and order of the rows |
| ContentRoute.NormalizeHostedReadsOnly | app/api/content/route.js:52-62 | columns outside the consulted set are dropped: rows that agree on the consulted columns normalise alike |
| ContentRoute.NormalizeSqlReadsOnly | app/api/content/route.js:78-88 | the SQL normalisation depends on its ten columns only |
| ContentRoute.ReadSource | app/api/content/route.js:15-102 | GET answers from the hosted table exactly when a client exists and probing finds rows; from SQL only when the connection is set and returned rows; otherwise from the file |
| ContentRoute.GetResponse | app/api/content/route.js:5-107 | GET always answers 200: normalised hosted rows, normalised SQL rows, or the stored list as is (possibly empty) |
| ContentRoute.Get | app/api/content/route.js:5-102 | the handler's steps produce that response and query the candidate names only when a hosted client exists |
| ContentRoute.CapitalContentsScenario | app/api/content/route.js:20-63 | with only `Contents` holding rows, GET returns those rows normalised and never queries `content` or `Content` |
| ContentRoute.AllTablesFailingFallsBackToFile | app/api/content/route.js:15-102 | when every candidate errs or is empty and no SQL connection is set, GET answers 200 with the stored list |
| ContentRoute.MapBody | app/api/content/route.js:114-121 | `description` is `text` when truthy, else `description`; image, URL and platform become null when falsy |
| ContentRoute.InsertValues | app/api/content/route.js:126-128 | the SQL insert receives the six mapped fields in column order and the same timestamp twice |
| ContentRoute.CamelRow | app/api/content/route.js:150 | the first hosted insert sends exactly the six camelCase keys, each with its mapped value |
| ContentRoute.LowerRow | app/api/content/route.js:155-162 | the retry sends the same six values, with `contentType` and `externalUrl` renamed to lowercase `contenttype` and `externalurl`; every key it shares with the first row carries the same value |
| ContentRoute.UnknownColumn | app/api/content/route.js:154 | a hosted insert counts as an unknown-column error when it failed with code `PGRST204`, or with a message containing `Could not find`, and in no other case |
| ContentRoute.HostedAttempts | app/api/content/route.js:149-165 | the hosted insert is tried once more, with lowercase keys, exactly when the first error has code `PGRST204` or a message containing `Could not find` |
| ContentRoute.InsertHosted | app/api/content/route.js:149-165 | the reassignment of `res` sends those rows and keeps the last result |
| ContentRoute.Overlay | app/api/content/route.js:132-138 | an object spread followed by fields: the added fields win and the rest pass through |
| ContentRoute.SqlInsertResponse | app/api/content/route.js:130-139 | the SQL answer passes every other column through; `contentType` and `externalUrl` come from the lowercase columns and `createdAt`/`updatedAt` from the camelCase ones, each null when absent |
| ContentRoute.HostedInsertResponse | app/api/content/route.js:172-180 | the hosted answer passes every other column through; `contentType`, `externalUrl`, `createdAt` and `updatedAt` each take the camelCase spelling when present, else the lowercase one, else null |
| ContentRoute.NewLocalItem | app/api/content/route.js:188-194 | the appended record carries every mapped field with its value (title, description, type, image, URL, platform), plus `id`, `_id`, `createdAt` and `text == description`, and no `updatedAt` |
| ContentRoute.WriteSource | app/api/content/route.js:124-184 | writes go to SQL when it accepts, otherwise to the hosted table when its insert returns a row, otherwise to the file; a hosted insert with null `data` throws at route.js:175, is caught at :181, and falls back to the file |
| ContentRoute.PostOutcome | app/api/content/route.js:109-202 | a backend write answers 201 with the backend's row reshaped (the SQL row through `SqlInsertResponse`, the last hosted attempt's row through `HostedInsertResponse`) without touching the file; a successful local write appends exactly one serialised record at the end, keeps earlier records, and answers 201 with it; a failing file write answers 500 and leaves the file as the failure left it |
| ContentRoute.Post | app/api/content/route.js:109-202 | the handler's steps produce that answer and that new file state |
| AddPage.IsValidYouTubeUrl | app/add/page.js:53-60 | a URL is accepted exactly when it is non-empty and a link prefix followed by 11 id characters occurs in it; an accepted URL is captured by one of the two patterns |
| AddPage.BuildPayload | app/add/page.js:80-86 | the payload always has title, text and type; `image` only for images; `externalUrl` and `platform` only for videos and posts; never both image and URL |
| AddPage.PayloadBody | app/add/page.js:91 | the request body always has title, text and type as strings, and each of image, URL and platform exactly when the payload has it, with its value |
| AddPage.AddForm.constructor | app/add/page.js:7-12 | the form starts as an image entry with platform `none` and all text fields empty |
| AddPage.AddForm.SelectContentType | app/add/page.js:124-128 | changing the type clears the image and the URL and leaves title, text and platform alone |
| AddPage.AddForm.HandleSubmit | app/add/page.js:62-97 | the three checks run in order and the first failing one stops the submission; a post URL is never checked against YouTube; otherwise the payload is sent |
| AddPage.SubmittedMediaReachesRoute | app/add/page.js:80-86 | an accepted image entry reaches storage with its image and a null URL, a video or post with its URL and a null image; an empty text leaves the description unset |
| AddPage.SubmittedPlatform | app/add/page.js:85 | the stored platform is the chosen one for a video or post and null for anything else |
| View.AcceptFetched | app/view/page.js:29-41 | the page keeps the fetched data only when it is an array; otherwise, and on failure, the list is empty |
| View.ParseBody | app/view/page.js:25-26 | list bodies parse as arrays and other bodies do not |
| View.GetResponseIsAccepted | app/view/page.js:29-30 | whatever backend answers GET, the gallery shows every record of the answer, in order |
| View.LikeCount | app/view/page.js:313 | a record never liked shows 0 |
| View.Bump | app/view/page.js:55-59 | a like raises that record's count by one, starting from 0, and leaves every other count unchanged |
| View.LikesCountClicks | app/view/page.js:55-59 | after any run of clicks, each count has grown by the number of clicks on that record |
| View.BumpCommutes | app/view/page.js:55-59 | likes on two records give the same counters in either order |
| View.EstimateReadingTime | app/view/page.js:107-111 | the estimate is the ceiling of (spaces + 1) / 200, so at least one minute |
| View.UrlText | app/view/page.js:114 | a missing or empty URL yields no embed |
| View.EmbedUrl | app/view/page.js:113-130 | no embed for a missing or empty URL or when neither pattern matches; otherwise the embed base followed by the 11-character id, first pattern before second |
| View.GetYouTubeEmbedUrl | app/view/page.js:113-130 | the loop over the patterns with its early return computes that address |
| View.EmbedIffValid | app/view/page.js:117-120 | the gallery embeds a video exactly when the add form accepts its URL |
| View.MediaPanels | app/view/page.js:181-232 | a card gets the image, video or post panel for those three types and no panel for any other type |
| View.PublicView.constructor | app/view/page.js:7-9 | the page starts loading, with no records and no likes |
| View.PublicView.OnFetch | app/view/page.js:24-42 | the fetch result replaces the list and ends loading |
| View.PublicView.HandleLike | app/view/page.js:55-59 | a like updates only the counters |
| ViewUpdated.InlineEmbedSrc | app/view/page_updated.js:176-180 | an iframe is used exactly for a non-empty URL containing `youtube`; its source never contains `&`; a URL without `watch?v=` is cut at its first `&` and otherwise kept; in a URL with one, the first `watch?v=` becomes `embed/` before the cut |
| ViewUpdated.WatchLinkBecomesEmbed | app/view/page_updated.js:180 | a watch link keeps everything up to `watch?v=`, then `embed/`, then the rest up to its first `&` |
| ViewUpdated.ShowLastUpdated | app/view/page_updated.js:266 | "Last updated" shows only for a present, non-empty `updatedAt` that differs from `createdAt`; equal stamps never show it; a non-empty string `updatedAt` that differs from `createdAt` (an edited record) always does, as does a truthy `updatedAt` without `createdAt` |
| ViewUpdated.ShowPlatform | app/view/page_updated.js:297 | the platform row needs a present platform, never shows for an empty name, and always shows for a non-empty string |
| ViewUpdated.TypeLabel | app/view/page_updated.js:295 | the label is the type when truthy and `Post` otherwise |
| ViewUpdated.LocalCard | app/view/page_updated.js:266-297 | a record appended to the file never shows "Last updated"; the platform row shows exactly when its platform is truthy |
| ViewUpdated.SubmittedLocalCard | app/view/page_updated.js:266-297 | an entry from the add form is labelled with its type and shows a platform row only for a video or post with a platform |
| ViewUpdated.PublicView.constructor | app/view/page_updated.js:6-7 | the page starts with no records and no likes |
| ViewUpdated.PublicView.OnFetch | app/view/page_updated.js:21-37 | a non-array result or a failure leaves the list empty |
| ViewUpdated.PublicView.HandleLike | app/view/page_updated.js:50-55 | a like raises only that record's count |
| HomePage.RemoveById | app/page.js:18 | no kept record has `_id == id`, and the length shrinks by exactly the number of matches |
| HomePage.RemoveByIdKeepsOthers | app/page.js:18 | exactly the records whose `_id` differs are kept |
| HomePage.RemoveByIdAppend | app/page.js:18 | the filter works piecewise, so kept records keep their order |
| HomePage.RemoveByIdAllMatching | app/page.js:18 | when every record carries the id, nothing is kept |
| HomePage.AdminHome.constructor | app/page.js:7-13 | the list is the fetched data |
| HomePage.AdminHome.Total | app/page.js:31-36 | the total is zero exactly when the empty state shows |
| HomePage.AdminHome.HandleDelete | app/page.js:15-20 | a declined confirmation sends nothing and changes nothing; once any answer arrives, the list becomes the click-time list filtered, whatever the status; a network failure leaves it unchanged |
| HomePage.OverlappingDeletesRestore | app/page.js:15-18 | two deletes started from the same drawn list: the second answer filters that list again, so the first deleted record is shown again |
| HomePage.FetchedList | app/page.js:10-12 | the admin list is the parsed GET answer as it arrives; when the hosted table or the SQL connection serves GET, no record of it has an `_id` |
| HomePage.DeleteAfterBackendGetClearsList | app/page.js:79 | on a list with no `_id`, as after such a GET, deleting any record passes `undefined` and empties the whole displayed list |
| HomePage.RemoveByKey | app/page.js:18 | the corrected filter keeps no record with the deleted key |
| HomePage.RemoveByKeyKeepsOthers | app/page.js:18 | the corrected filter keeps the list whole when no record has the key |
| HomePage.RemoveByKeyRemovesOnlyClicked | app/page.js:18 | with distinct keys, the corrected delete removes the clicked record and nothing else |

## Findings

| source | as written | input that shows it | evidently intended | confidence | as-written member | corrected member |
|---|---|---|---|---|---|---|
| app/page.js:18 | the delete button passes `content._id` and the list keeps records whose `_id` differs; records that GET normalises from the hosted table or the SQL connection have no `_id`, so the id passed is `undefined` | GET served by the hosted table with rows `{id: 1, title: "a"}` and `{id: 2, title: "b"}`; delete the first | only the clicked record leaves the list | medium, not executed | HomePage.DeleteAfterBackendGetClearsList | HomePage.RemoveByKeyRemovesOnlyClicked |

The corrected filter keys each record by `_id ?? id` (`HomePage.ItemKey`).
`AdminHome.HandleDelete` keeps the filter as written, so that the page
model matches the code.

## Left out

- The hosted client (`lib/supabase.js`) and the `lib/db` connection are parameters: a presence flag and a function giving each call's result. Their queries, limits and wire formats are not modelled.
- `lib/storage.js`: the file system and JSON parsing are left out. A file that is missing or does not parse is a `None` store. A file that parses to something other than a list is not modelled: for JSON `null`, `readContents()` returns `null` (lib/storage.js:9), `contents.length` throws at app/api/content/route.js:101, and GET answers 500 (route.js:103-106); POST's `push` at route.js:195 throws the same way.
- `Date.now()` and `new Date()` are the `Clock` parameter. The two `Date.now()` calls may differ, so `id` and `_id` are separate inputs.
- `ContentRoute.Post`: how the file write ends is the `write` parameter; a failure leaves the file as the parameter says. A request body that is not JSON, which reaches the outer `catch`, is not modelled.
- `ContentRoute.Post`, `ContentRoute.PostOutcome`: each POST is modelled as finishing before the next request reads the file. In the code, `readContents()` (app/api/content/route.js:187) and `writeContents` (route.js:196) are separate `await`s, so two POSTs that both read before either writes lose one append. The promise that the file grows by exactly one record holds only for POSTs that do not overlap.
- `ContentRoute.NormalizeHosted`: a row that is `null` (which would throw) is not modelled; every row is an object.
- Logging (`console.log`/`console.error`) and the `details` field of the 500 answer are left out.
- Numbers are integers; floating-point values and `NaN` are not modelled.
- `View.Bump` keys counters by `Val`, so the ids `1` and `"1"` have separate counters, while JavaScript's number-to-string key coercion gives them one.
- `View.EmbedUrl`, `View.UrlText`, `View.GetYouTubeEmbedUrl`, `ViewUpdated.InlineEmbedSrc`: a URL value that is truthy but not a string (which would throw in `match` or `includes`) is treated as missing.
- `View.EstimateReadingTime` is defined on both gallery pages but not called by either; a non-string argument (which would throw) is not modelled.
- `app/api/content/[id]/route.js`: the server-side delete by id is not part of this model. The admin list filters regardless of its answer.
- The admin list's initial fetch stores whatever JSON arrives. `AdminHome.constructor` takes the list; a non-array answer and a failing fetch are not modelled.
- Add form: the setters other than the type selector, image upload, the authentication check, the alert texts and the redirect to `/view` are left out. A failing POST request (the `catch` at app/add/page.js:94-96) is outside `HandleSubmit`, which ends when the payload is sent.
- Gallery pages: scroll progress, random themes, heart animations, timers, share links and date formatting are left out. The video and post panels' inner markup, and the paragraph split of descriptions, are not modelled.
- Authentication (`app/api/auth/route.js`, `lib/auth.js`), uploads (`app/api/upload/route.js`), the edit page, `models/Content.js` and `app/layout.js` are not part of this model.
