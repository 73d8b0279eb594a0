# Verified model of the API-tags service

The service is a thin facade over a remote catalogue of published APIs.
It logs in to the catalogue's portal and turns the `set-cookie` header into
a `Cookie` and an `X-XSRF-TOKEN` header. It fetches the whole catalogue or a
single entry, derives three views of the catalogue, and rewrites the
comma-separated `tags` field of one entry. Two HTTP resources expose this:
all APIs (GET), and one API by name and version (GET and PUT).

The model covers:

- the Python string operations the code relies on, in module `PyStr`:
  `split`, `join`, the first and second segment of a delimited string, and
  `str` ordering;
- the error convention, in module `Toolkit`. `handle_exception` raises
  `APIError(code, cause)`. The except clauses of every backend call re-raise
  an `APIError` unchanged and turn any other exception into the connection
  failure;
- the backend's data and the two orders in which the `try` blocks decode and
  check the status, in module `Backend`;
- `all_apis.py` (module `AllApis`) and `single_api.py` (module
  `SingleApi`), one method per Python function.

The network is an input. A login yields a `LoginOutcome`: unreachable, or a
status with the `set-cookie` value if present. Every other request yields an
`HttpOutcome`: unreachable, or a status with the decoded body (`None` when
`json.loads` raises). `GetCookieHeaders` only classifies the login reply;
its callers record the login request. Every method that makes a request
after the login also returns `sent`, the requests issued in order. This is
how the model states which requests happen after a failure.

Three consequences of the code are easy to miss:

- The tag list raises `ValueError` when no entry yields an empty tag, since
  `list.remove('')` raises when `''` is absent. The empty tag is not removed
  only "if present".
- A login refused with a non-200 status raises the same backend failure as
  any other call. There is no separate authentication error.
- Writing the empty tag list stores `''`, which reads back as `['']`. So the
  read/write round trip holds only for non-empty lists of comma-free tags.
  It does not hold for every list.

## Model

| member | source | states |
|---|---|---|
| PyStr.Join | src/mashop/api/single_api.py:39 | `",".join` starts with the first piece, puts a separator right after it when there are two or more, and over separator-free pieces holds a separator exactly when there are two or more pieces |
| PyStr.Split | src/mashop/api/single_api.py:34 | `split(',')` always gives at least one piece and no piece holds the separator |
| PyStr.Before | src/mashop/api/all_apis.py:18 | the text before the first `;` is a prefix free of `;` that ends at the first `;` or at the end |
| PyStr.After | src/mashop/api/all_apis.py:19 | the string is the text before the first `=`, the `=`, then the text after it |
| PyStr.JoinSplit | src/mashop/api/single_api.py:34-39 | joining the pieces of a split on the same separator gives the string back |
| PyStr.SplitJoin | src/mashop/api/single_api.py:34-39 | splitting a join gives the list back when it is non-empty and no piece holds the separator |
| PyStr.RoundTripExactly | src/mashop/api/single_api.py:34-39 | join-then-split is the identity on a list if and only if the list is non-empty and comma-free |
| PyStr.EmptyListReadsBackBlank | src/mashop/api/single_api.py:39 | the empty list is written as `''` and reads back as `['']` |
| PyStr.SplitHead | src/mashop/api/all_apis.py:18 | `split(';')[0]` is the text before the first `;` |
| PyStr.SplitWhole | src/mashop/api/all_apis.py:19 | a split has a single piece exactly when the separator does not occur, so `[1]` raises `IndexError` exactly then |
| PyStr.SplitSecond | src/mashop/api/all_apis.py:19 | when the separator occurs, `split('=')[1]` exists and is the text between the first and second `=` |
| PyStr.BlankPieceExactly | src/mashop/api/all_apis.py:68-72 | a split holds `''` exactly for an empty string or a leading, trailing or doubled separator |
| PyStr.LexLe | src/mashop/api/all_apis.py:61 | Python's `str` ordering on names; a prefix is ordered before the longer name |
| PyStr.LexLeAntisymmetric | src/mashop/api/all_apis.py:61 | two names each ordered before the other are equal, so the order on names is a total order |
| PyStr.LexLeReflexive | src/mashop/api/all_apis.py:61 | every name is ordered with itself |
| PyStr.LexLeTotal | src/mashop/api/all_apis.py:61 | any two names are comparable under `str` ordering |
| PyStr.LexLeTransitive | src/mashop/api/all_apis.py:61 | `str` ordering is transitive |
| Toolkit.ExceptClauses | src/mashop/api/all_apis.py:26-31 | a returned value passes through, an `APIError` is re-raised unchanged, any other exception becomes `'Bad host/port/path/connection'`; only `APIError` leaves |
| Toolkit.ExceptClausesIdempotent | src/mashop/api/all_apis.py:26-27 | classifying an already classified outcome again changes nothing |
| Toolkit.Envelope | src/mashop/api/all_apis.py:89 | the response document is an object with the single key `data` holding the given value |
| Toolkit.StrArray | src/mashop/api/single_api.py:68 | a list of strings becomes a JSON array of the same strings in the same order |
| Backend.DecodeThenCheck | src/mashop/api/all_apis.py:36-46 | decode-first `try` body: returns the data exactly on a 200 that decodes; raises the backend failure exactly on another status whose body decodes; otherwise a non-`APIError` exception |
| Backend.CheckThenDecode | src/mashop/api/single_api.py:44-54 | status-first `try` body: returns the data exactly on a 200 that decodes; raises the backend failure exactly on any other status; otherwise a non-`APIError` exception |
| Backend.DecodeThenCheckClassifies | src/mashop/api/all_apis.py:36-52 | decode-first call: data on a 200 that decodes; backend failure on another status whose body decodes; connection failure when unreachable or undecodable |
| Backend.CheckThenDecodeClassifies | src/mashop/api/single_api.py:44-60 | status-first call: data on a 200 that decodes; backend failure on any other status; connection failure when unreachable or a 200 body does not decode |
| Backend.DecodeOrderMatters | src/mashop/api/single_api.py:13-60 | the two call shapes disagree exactly on a non-200 reply whose body does not decode (connection failure vs backend failure) |
| AllApis.SessionHeaders | src/mashop/api/all_apis.py:17-19 | exactly the two headers; `Cookie` is the `set-cookie` value up to its first `;`; `X-XSRF-TOKEN` is `split('=')[1]` of that cookie: the text after its first `=`, ending at the second `=` or at the cookie's end |
| AllApis.GetCookieHeaders | src/mashop/api/all_apis.py:9-31 | headers on a 200 whose cookie holds `=`; backend failure on another status; connection failure when unreachable, when `set-cookie` is missing, or when the cookie has no `=` |
| AllApis.DecodeFirstCall | src/mashop/api/all_apis.py:34-52 | a login then a decode-first call: data exactly when the login authenticates and the reply is a 200 that decodes; any failure is an `APIError` |
| AllApis.GetAllApis | src/mashop/api/all_apis.py:33-52 | a login failure stops before the catalogue GET; otherwise one GET with the session headers, classified decode-first (a non-200, non-JSON reply is a connection failure) |
| AllApis.Summarize | src/mashop/api/all_apis.py:59-60 | the entry's name and version, and its tags as a non-empty list of comma-free pieces that join back to the `tags` field |
| AllApis.Summaries | src/mashop/api/all_apis.py:57-60 | one summary per entry, at the same position: name, version, tags split on `,` |
| AllApis.InsertByName | src/mashop/api/all_apis.py:61 | inserting adds exactly the one summary |
| AllApis.SortByName | src/mashop/api/all_apis.py:61 | the sort is a permutation of its input |
| AllApis.SortedCons | src/mashop/api/all_apis.py:61 | a summary no larger than every element of a name-ordered list can be put in front and keep it ordered |
| AllApis.InsertKeepsSorted | src/mashop/api/all_apis.py:61 | insertion into a name-ordered list keeps it ordered |
| AllApis.SortIsSorted | src/mashop/api/all_apis.py:61 | the sorted list is in ascending name order |
| AllApis.InsertKeepsOrderOfEqualNames | src/mashop/api/all_apis.py:61 | insertion places the new summary before the others of the same name |
| AllApis.SortIsStable | src/mashop/api/all_apis.py:61 | for every name, the summaries carrying it keep their backend order |
| AllApis.GetAllApisSelectInfo | src/mashop/api/all_apis.py:55-61 | as many summaries as entries, a permutation of the entries' summaries, ascending by name, stable |
| AllApis.GetApiTagsList | src/mashop/api/all_apis.py:64-73 | every tag of every entry once, `''` never; `ValueError` exactly when no entry has an empty, leading-, trailing- or doubled-comma tags string |
| AllApis.MissingTagNames | src/mashop/api/all_apis.py:75-81 | at most one name per entry |
| AllApis.MissingTagNamesMembers | src/mashop/api/all_apis.py:79-80 | a name is listed exactly when an entry with that name has tags `''` (tags `','` do not count) |
| AllApis.MissingTagNamesConcat | src/mashop/api/all_apis.py:78-80 | the list keeps backend order: the names of a concatenation are the names of its parts in turn |
| AllApis.GetApisMissingTagsList | src/mashop/api/all_apis.py:75-81 | the loop computes the names of the entries with tags `''`, in backend order |
| AllApis.SummaryDocs | src/mashop/api/all_apis.py:89 | one JSON object per summary, in order |
| AllApis.HttpGet | src/mashop/api/all_apis.py:84-90 | on success the body is `{"data": [...]}` of the sorted summaries; on failure the response is untouched; the status is never set |
| SingleApi.EntryUrl | src/mashop/api/single_api.py:12 | the fetch address is the fixed prefix followed by name, `/` and version, nothing escaped |
| SingleApi.UpdateUrl | src/mashop/api/single_api.py:43 | the update address is the fixed prefix followed by name, `&oldversion=` and version, nothing escaped |
| SingleApi.UpdateUrlCarriesKey | src/mashop/api/single_api.py:43 | after the prefix, the name is the text before the first `&` when it holds none, and the version is all that follows `&oldversion=` |
| SingleApi.EntryUrlCarriesKey | src/mashop/api/single_api.py:12 | the fetch URL is the fixed prefix, then name `/` version verbatim, recoverable when neither holds `/` |
| SingleApi.EntryUrlAmbiguous | src/mashop/api/single_api.py:12 | nothing is escaped: moving a `/` between name and version gives the same fetch URL |
| SingleApi.UpdateUrlAmbiguous | src/mashop/api/single_api.py:43 | nothing is escaped: a name holding `&oldversion=` gives the update URL of another key |
| SingleApi.GetSingleApiData | src/mashop/api/single_api.py:10-29 | a login failure stops before the GET; otherwise one GET of the entry URL, classified decode-first |
| SingleApi.ReadTags | src/mashop/api/single_api.py:34 | the tag list is never empty, is comma-free, and joins back to the `tags` field |
| SingleApi.GetSingleApiTags | src/mashop/api/single_api.py:32-34 | on success the fetched entry's tags split on `,`; otherwise the fetch's failure |
| SingleApi.WithTags | src/mashop/api/single_api.py:39 | `info.tags` becomes the `,`-join of the tags; every other field is unchanged |
| SingleApi.WrittenTagsReadBack | src/mashop/api/single_api.py:34-39 | written tags read back unchanged iff the list is non-empty and comma-free; `[]` reads back as `['']` |
| SingleApi.UpdateApiTags | src/mashop/api/single_api.py:37-60 | the POST is sent only after both logins and the fetch succeed, to the update URL, with the session headers plus `Content-Type`, carrying the whole entry with only its tags rewritten; classified status-first |
| SingleApi.HttpGet | src/mashop/api/single_api.py:63-69 | on success the body is `{"data": tags}`; on failure the response is untouched; the status is never set |
| SingleApi.HttpPut | src/mashop/api/single_api.py:72-76 | body `''` and status 204 only after the update succeeds; a missing `tags` key raises `KeyError` before any request; otherwise the update's failure escapes unchanged, case by case (login, fetch, second login, POST), with the requests sent in each case; on failure the response is untouched |

## Left out

- The HTTP requests themselves, their timeouts, `r.encoding`, and `json.loads`/`json.dumps` are foreign calls. A reply is an input value with a status and a decoded body or a decode failure, and a dumped body is kept as the JSON document.
- Inside `handle_exception` and `APIError` (`mashop.microtoolkit`, not part of this model): the model assumes only that the call raises `APIError` with the given code and cause. The `error` argument and the message it carries are dropped.
- The login URL, its JSON body with the credentials, and its request headers. The login request is recorded only as `LoginPost`.
- Catalogue replies of the wrong shape are not modelled: a body that is not a list of entries, or an entry without `name`, `apiVersion` or `info.tags`. A decoded body is a well-formed entry or list of entries, so the `KeyError`/`TypeError` the views would raise outside any `try` does not arise. Tag lists holding non-strings (where `join` raises `TypeError`) are excluded the same way.
- Floating-point JSON numbers.
- AllApis.GetAllApisSelectInfo, AllApis.GetApiTagsList, AllApis.GetApisMissingTagsList: these take the already fetched entries rather than calling `get_all_apis` themselves. Their fetch and its failures are those of AllApis.GetAllApis, which AllApis.HttpGet composes with the summary view.
- AllApis.GetApiTagsList: returns a set. The order of the Python list built from a `set` is unspecified.
- SingleApi.HttpPut, SingleApi.UpdateApiTags: the request body's `tags` is taken to be a JSON list of strings. The code accepts any value there. A JSON string is joined character by character (`{"tags": "ab"}` stores `"a,b"`). `null` or a number makes `join` raise `TypeError`, after the login and the GET have been sent. The `Option<seq<string>>` parameter expresses neither case.
- SingleApi.UpdateApiTags: the in-place assignment to the freshly decoded dict is a value update. Nothing else holds a reference to that dict.
- The last-write-wins race between concurrent read-modify-write tag updates. It is a concurrency effect outside a sequential model.
- The `__main__` pretty-print blocks.
- The status and body the hosting framework sends when a handler raises.
