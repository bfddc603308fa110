# LCCS client, modelled in Dafny

This project models the core of the Python client library for LCCS-WS, the
Land Cover Classification System web service. Three parts are modelled.

- **The `LCCS` facade** (`lccs/lccs.py`). It holds a base URL with one
  trailing slash removed, and a lazily filled, insertion-ordered dictionary of
  classification systems keyed by name, or by the id a lookup asked for. It
  forms the URL of every endpoint. It filters hypermedia links down to the
  titles of the `child` ones. It tags mapping groups with their source and
  target system ids. It forms the path of style downloads and the form fields
  and file parts of uploads.
- **The request helpers** (`lccs/utils.py`). `_get` turns a reply into a
  downloaded file (for `application/octet-stream`, named by
  `Content-Disposition`), a JSON document (for exactly `application/json` or
  `application/geo+json`), or an exception: a `ValueError`, an `IndexError`
  for a binary reply whose `Content-Disposition` has no `filename=`, or the
  status error of `raise_for_status`, which passes through. `_post` decodes the reply
  without any content-type check. `get_id_by_name` is a first-match search.
  The other side of the file's unresolved merge adds a token header.
- **The `ClassificationSystem` view** (`lccs/class_system.py`). Its accessors
  return fields verbatim. `classes()` follows the first link whose `rel` is
  `classes`.

The server is an oracle: a total function `Server` from a `Request` (a GET
with optional query parameters, or a multipart POST) to a `Reply`. A reply is
a transport failure, a non-success status, or a delivered reply with headers,
raw bytes and the decoder's view of the body. The server is passed to each
operation, so it may answer differently from one call to the next.

The client keeps two ghost logs. `requests` holds every request sent, and
`writes` holds every file `get_styles` writes. That a registry hit sends no
request is stated on these logs.

Python semantics that decide the library's edge cases are modelled
explicitly, in module `Values`:

- subscripting, where a missing key raises `KeyError` and a non-dictionary
  raises `TypeError`;
- iteration;
- truth values (`data or {}`);
- hashability of dictionary keys;
- `str.lower`;
- substring `in`.

Errors are values of `Result`. Each exception the library raises or lets
through is a constructor of `Error`.

The modules follow the source files:

| module | file | holds |
|---|---|---|
| `Values` | `values.dfy` | Python values and built-ins |
| `Http` | `http.dfy` | the server oracle |
| `Utils` | `utils.dfy` | `lccs/utils.py` |
| `ClassSystem` | `class_system.dfy` | `lccs/class_system.py` |
| `Lccs` | `lccs.dfy` | `lccs/lccs.py`: pure helpers, then the `LCCS` class |
| `Scenarios` | `scenarios.dfy` | clients over several calls, and concrete servers |

The registry loop of `get_classification_systems` is an imperative `while`
loop. Its invariant ties the registry to `Fill`, the same loop written as a
function over the prefix of entries processed. When no entry raises, `Fill`
is the run of dictionary assignments `InsertAll` of the entries' (name, view)
pairs; the properties are proved as lemmas about those:

- every name is stored;
- the last entry with a name wins;
- other keys are kept;
- keys stay distinct and keep their order;
- after an entry raises, the remaining entries change nothing.

Behaviour of the code as written, where it differs from what its own
docstrings and error messages suggest:

- The `except RuntimeError` clauses around `_post` in `add_classification_system`,
  `add_style` and `add_mapping` never catch what `_post` raises. That is a
  `ValueError`, or the status error of `raise_for_status`. The clauses were
  written to raise `ValueError('Could not insert …')`, and never do: those
  errors reach the caller unchanged. The model follows the code.
- `get_id_by_name`'s docstring announces `IndexError`. The code raises
  `ValueError` ("Class with name '…' not found"), and the model follows that.
  Reading `name` of an earlier class, or `id` of the match, can raise
  `KeyError` or `TypeError` first.
- The status error of `raise_for_status` is not a `RequestError`, and in
  `_get` it is not a `ValueError` either. It therefore propagates out of
  `_get` unchanged.
- An `IndexError` from `re.findall(...)[0]` also escapes `_get`. This happens
  when a binary reply has a `Content-Disposition` without any `filename=`.
  Inside `classification_system`, `mappings`, `available_mappings`, `styles`
  and `get_styles` it becomes the facade's `KeyError`.
- A failed JSON decode in `_post` raises the decoder's own `ValueError`,
  without the "Invalid JSON response" wrapping that `_get` applies.
- `classification_system(id)` stores what it fetched under `id`, not under
  the returned name. A registry filled only this way is non-empty, so a later
  `get_classification_systems` returns the ids looked up so far and fetches
  nothing.
- When one entry of the collection raises, `get_classification_systems`
  leaves the entries stored before it in the registry. A later call then
  returns that partial registry without fetching.
- `lccs/utils.py` holds an unresolved merge. Its `HEAD` side calls `httpx`
  with no extra headers; the other side passes an `access_token` and sends it
  as an `x-api-key` header. The model follows `HEAD`. The token rule of the
  other side is modelled on its own, as `Utils.TokenHeaders`.

## Model

| member | source | states |
|---|---|---|
| Values.Subscript | lccs/lccs.py:41 | `j[key]` succeeds exactly on a dictionary holding the key and yields that field; otherwise `KeyError(key)` on a dictionary and `TypeError` on anything else |
| Values.SubscriptValue | lccs/lccs.py:40 | subscripting what `_get` returned: a document behaves as above, a downloaded `(name, content)` pair raises `TypeError` |
| Values.Truthy | lccs/class_system.py:25 | a document is false exactly when it is `None`, `False`, zero, or the empty string, list or dictionary |
| Values.Elements | lccs/lccs.py:40 | a `for` loop visits a list's items in order and a string's one-character strings, and the empty dictionary yields nothing; only these can be iterated, and any other value raises `TypeError` |
| Values.LowerChar | lccs/utils.py:63 | an ASCII capital becomes its own lower-case letter (code point plus 32); every other character is kept |
| Values.Lower | lccs/utils.py:63 | lower-casing keeps the length and lower-cases each character as above |
| Values.Contains | lccs/utils.py:65 | `sub in s` holds exactly when `sub` occurs in `s` at some index |
| Utils.LineOf | lccs/utils.py:67 | what `.+` captures is the longest prefix without a newline: it stops at the first newline or at the end |
| Utils.FileNameFrom | lccs/utils.py:67 | the scan finds nothing exactly when `filename=` followed by a non-newline occurs at no index from `i` on; otherwise it yields the line after the first such occurrence |
| Utils.FileName | lccs/utils.py:67 | `re.findall('filename=(.+)', d)[0]`: the capture of the leftmost match, and none exactly when no index matches |
| Utils.JsonTypesAreNotBinary | lccs/utils.py:65-73 | the two JSON content types never contain `application/octet-stream`, so the two branches of `_get` cannot both apply |
| Utils.Dispatch | lccs/utils.py:62-73 | a file is returned exactly when the lower-cased content type contains `application/octet-stream` and a file name is found, with the raw bytes; a document exactly when the content type is one of the two JSON types and the body parses; a binary reply without a file name raises `IndexError`; any other content type raises "Invalid JSON response from {url}: HTTP response is not JSON: Content-Type: {type}"; an unparsable JSON body raises "Invalid JSON response from {url}: {reason}" |
| Utils.ContentType | lccs/utils.py:63 | the reply's `content-type` lower-cased, with no capital letter left, or the empty string when the reply has none |
| Utils.DownloadName | lccs/utils.py:66-67 | a reply with no or an empty `Content-Disposition` is saved as `unknown_file`; otherwise the name is the first `filename=` capture, and there is none when nothing matches |
| Utils.Get | lccs/utils.py:48-78 | a transport failure raises "An error occurred while requesting {url}: {reason}", an unsuccessful status propagates as a status error, and a delivered reply gives exactly what `Dispatch` makes of its headers, bytes and body |
| Utils.DispatchIgnoresCase | lccs/utils.py:63 | two replies that differ only in the letter case of their content type are dispatched identically |
| Utils.Post | lccs/utils.py:108-113 | a transport failure raises "An error occurred while sending POST request to {url}: {reason}", a status error propagates, and the result is a document exactly when the reply was delivered and its body parses to it; an unparsable body raises the decoder's own `ValueError(reason)`, unwrapped |
| Utils.GetIdByName | lccs/utils.py:176-192 | a found id is the `id` of a class whose `name` equals the one sought |
| Utils.GetIdByNameFirstMatch | lccs/utils.py:190 | when the classes before a match all have other names, the answer is the match's `id`, whatever follows it |
| Utils.GetIdByNameNotFound | lccs/utils.py:189-192 | the lookup raises "Class with name '{name}' not found" exactly when every class has a readable name and none equals `name` |
| Utils.TokenHeaders | lccs/utils.py:53-57 | no headers without a token; with one, exactly the `x-api-key` header carrying it |
| ClassSystem.FirstWithRel | lccs/class_system.py:59-60 | a link found by the scan is one of the links and its `rel` equals the one sought |
| ClassSystem.FirstWithRelIsFirst | lccs/class_system.py:59-60 | when every link before a match has a readable other `rel`, the scan returns that match, whatever follows it |
| ClassSystem.FirstWithRelNone | lccs/class_system.py:59-66 | the scan finds nothing, without error, exactly when every link has a readable `rel` other than the one sought |
| ClassSystem.FromData | lccs/class_system.py:18-25 | `dict(data or {})`: a false-valued document gives an empty view, a dictionary gives a view over exactly its fields, and anything else is refused with `TypeError` |
| ClassSystem.ClassificationSystem.Field | lccs/class_system.py:35 | `self[key]` is the stored field, or `KeyError(key)` |
| ClassSystem.ClassificationSystem.Description | lccs/class_system.py:33-35 | the `description` field verbatim, or `KeyError` |
| ClassSystem.ClassificationSystem.Version | lccs/class_system.py:38-40 | the `version` field verbatim, or `KeyError` |
| ClassSystem.ClassificationSystem.Name | lccs/class_system.py:43-45 | the `name` field verbatim, or `KeyError` |
| ClassSystem.ClassificationSystem.Id | lccs/class_system.py:48-50 | the `id` field verbatim, or `KeyError` |
| ClassSystem.ClassificationSystem.AuthorityName | lccs/class_system.py:53-55 | the `authority_name` field verbatim, or `KeyError` |
| ClassSystem.ClassificationSystem.Links | lccs/class_system.py:28-30 | one `Link` per entry of `self['links']`, same length and order; it fails exactly when `links` is missing or cannot be iterated |
| ClassSystem.ClassificationSystem.Classes | lccs/class_system.py:57-66 | without a request the answer is an error or the empty collection; with a class id it GETs `{href}/{class_id}` without parameters and wraps one class; without one it GETs `href` with `filter` as the query and returns the lookup accessor |
| ClassSystem.ClassesFollowsFirstLink | lccs/class_system.py:59-65 | with a `classes` link preceded only by links of other relations, `classes()` issues exactly the GET built from that link's `href` |
| ClassSystem.ClassesWithoutLink | lccs/class_system.py:66 | with no `classes` link, `classes()` returns the empty collection and issues no request |
| Lccs.TrimUrl | lccs/lccs.py:26 | an empty URL raises `IndexError`; a URL ending in `/` loses exactly that last character; any other URL is kept unchanged |
| Lccs.SystemsUrl | lccs/lccs.py:36 | the collection endpoint is the base URL followed by the fixed `/classification_systems` |
| Lccs.SystemUrl | lccs/lccs.py:68 | the system endpoint begins with the base URL and ends with the system id, at a length fixed by both |
| Lccs.StylesUrl | lccs/lccs.py:127 | the styles endpoint begins with the base URL and ends with `/styles` |
| Lccs.StyleUrl | lccs/lccs.py:151 | the style endpoint begins with the base URL and ends with the format id |
| Lccs.MappingsUrl | lccs/lccs.py:108 | the mapping-list endpoint begins with the base URL and ends with the source id |
| Lccs.MappingUrl | lccs/lccs.py:86 | the mapping endpoint begins with the base URL and ends with the target id |
| Lccs.TrimUrlDropsOneSlash | lccs/lccs.py:26 | `u + "/"` is trimmed back to `u`, even when `u` itself ends in a slash |
| Lccs.SystemUrlInjective | lccs/lccs.py:68 | distinct system ids give distinct endpoints |
| Lccs.EndpointsNest | lccs/lccs.py:127 | the styles endpoint lies under the system's endpoint, a style under the styles endpoint, and a mapping under the source's mapping list |
| Lccs.Registry.Insert | lccs/lccs.py:41 | a dictionary assignment: the entry under the key is replaced, an existing key keeps its place, a new key goes last, and distinct keys stay distinct |
| Lccs.DistinctIndices | lccs/lccs.py:41 | keys without repetition differ at every pair of positions |
| Lccs.Entry | lccs/lccs.py:41 | one pass of the loop succeeds exactly when the view can be built, its `name` read and that name hashed; it then yields that name and that view |
| Lccs.Fill | lccs/lccs.py:40-41 | the loop keeps the registry's keys distinct and in agreement with its entries |
| Lccs.Step | lccs/lccs.py:41 | one pass keeps the registry's keys distinct and in agreement with its entries |
| Lccs.StepStores | lccs/lccs.py:41 | a pass whose entry can be stored stores it under its name and raises nothing |
| Lccs.FillStops | lccs/lccs.py:40-41 | once an entry has raised, the later entries change nothing |
| Lccs.InsertAll | lccs/lccs.py:40-41 | a run of dictionary assignments keeps the registry's keys distinct and in agreement with its entries |
| Lccs.FillStoresAll | lccs/lccs.py:40-41 | when no entry raises, the loop runs to the end and makes exactly the assignments of the entries' (name, view) pairs, in order |
| Lccs.InsertAllHas | lccs/lccs.py:40-41 | after the assignments a key is present exactly when it was present before or some pair assigns it |
| Lccs.InsertAllAppends | lccs/lccs.py:40-43 | the old keys keep their places at the front and new keys only follow them |
| Lccs.InsertAllLastWins | lccs/lccs.py:40-41 | a pair that no later pair shares its key with is the one stored under that key: a later duplicate overwrites an earlier one |
| Lccs.InsertAllKeepsOthers | lccs/lccs.py:40-41 | keys no pair assigns keep their entries |
| Lccs.Load | lccs/lccs.py:36-43 | loading keeps the registry's keys distinct, and on success answers with the registry's keys |
| Lccs.LoadFromEmpty | lccs/lccs.py:36-43 | from the empty registry, a collection reply (with any other fields) whose `classification_systems` is a list of storable entries gives exactly their names as keys, each once, each mapped to the view of the last entry with that name, and answers with those keys |
| Lccs.FetchSystem | lccs/lccs.py:67-71 | a lookup miss succeeds exactly when the GET succeeds and the view can be built, and is then that view; any failure is one `KeyError` naming the system id |
| Lccs.Tag | lccs/lccs.py:90-92 | only a dictionary can be tagged (else `TypeError`); the result has the old keys plus the two tag keys, the tags equal the arguments, and every other field is unchanged |
| Lccs.MappingsOf | lccs/lccs.py:85-94 | a failed GET is the `KeyError` naming both systems; a reply that is not a dictionary raises `TypeError`; otherwise the result is a mapping group over the tagged document |
| Lccs.ChildTitles | lccs/lccs.py:112 | the filter never returns more titles than there are links |
| Lccs.ChildTitlesAppend | lccs/lccs.py:112 | scanning `a + b` is scanning `a`, then `b`: titles keep the server's order, and the first failing entry decides the error |
| Lccs.ChildTitlesOne | lccs/lccs.py:112 | a readable `child` link contributes exactly its title, any other readable link nothing |
| Lccs.ChildTitlesOk | lccs/lccs.py:112 | the filter raises exactly when some entry lacks a `rel`, or is a `child` link without a `title` |
| Lccs.ChildTitlesNoChild | lccs/lccs.py:131 | without `child` links the answer is the empty list, not an error |
| Lccs.LinkTitles | lccs/lccs.py:105-114 | a failed GET is the operation's own `KeyError`; a reply that is not a dictionary raises `TypeError`, one without `links` raises `KeyError('links')`, and `links` that cannot be iterated raise `TypeError`; otherwise the answer is the filter over `data['links']` |
| Lccs.FullPath | lccs/lccs.py:155-158 | without a path the file name alone; with one, the path and the file name concatenated with no separator added |
| Lccs.StyleDownload | lccs/lccs.py:150-158 | a style is saved exactly when the GET returned a downloaded file, under the resolved path and with exactly its bytes; otherwise `KeyError` naming the system |
| Lccs.StyleSavedUnderDispositionName | lccs/lccs.py:150-158 | without a path, a binary style reply is saved under the name its `Content-Disposition` gives, or `unknown_file`, with exactly the bytes the server sent |
| Lccs.NewSystemRequest | lccs/lccs.py:163-177 | the upload goes to the collection endpoint with exactly the four metadata form fields and the classes file sent as `classes.json` of type `application/json` |
| Lccs.NewStyleRequest | lccs/lccs.py:185-197 | the upload goes to the styles endpoint with `style_format` as the only form field and the file sent as `style_{system}_{format}.{extension}` of type `application/octet-stream` |
| Lccs.NewMappingRequest | lccs/lccs.py:205-213 | the upload goes to the mapping endpoint with no form fields and the file sent as `mappings.json` of type `application/json` |
| Lccs.LCCS.constructor | lccs/lccs.py:24-28 | the URL is the given one trimmed of one trailing slash; the registry and both logs start empty |
| Lccs.LCCS.Create | lccs/lccs.py:24-26 | construction fails with `IndexError` exactly on the empty URL; otherwise it yields a fresh client as the constructor does |
| Lccs.LCCS.GetClassificationSystems | lccs/lccs.py:30-43 | a non-empty registry answers with its keys and sends nothing; an empty one sends one GET of `{url}/classification_systems` and ends as `Load` describes |
| Lccs.LCCS.ClassificationSystems | lccs/lccs.py:45-54 | the same hit and miss rules; the answer is the registry's keys as a list |
| Lccs.LCCS.ClassificationSystem | lccs/lccs.py:56-72 | a stored id is answered from the registry with no request; a miss sends one GET of `{url}/classification_system/{id}`, stores a success under the id asked for, and on failure raises `KeyError` and leaves the registry unchanged |
| Lccs.LCCS.Mappings | lccs/lccs.py:74-94 | one GET of `{url}/mappings/{s}/{t}`; the answer is `MappingsOf` that reply; the registry is unchanged |
| Lccs.LCCS.AvailableMappings | lccs/lccs.py:96-114 | one GET of `{url}/mappings/{s}`; the answer is the `child` titles of its links, or the operation's `KeyError` |
| Lccs.LCCS.Styles | lccs/lccs.py:116-133 | one GET of `{url}/classification_system/{id}/styles`; the answer is the `child` titles of its links, or the operation's `KeyError` |
| Lccs.LCCS.GetStyles | lccs/lccs.py:135-158 | one GET of the style's endpoint; a download is written once, to the resolved path, and the answer is the number of bytes written; otherwise nothing is written and the answer is the `KeyError` |
| Lccs.LCCS.AddClassificationSystem | lccs/lccs.py:160-181 | exactly one upload is sent; a POST error reaches the caller unchanged; otherwise the reply becomes a classification-system view |
| Lccs.LCCS.AddStyle | lccs/lccs.py:183-201 | exactly one upload is sent; a POST error reaches the caller unchanged; otherwise the answer is the reply's `message` |
| Lccs.LCCS.AddMapping | lccs/lccs.py:203-221 | exactly one upload is sent; a POST error reaches the caller unchanged; otherwise the reply is tagged with both system ids, as `mappings` does |
| Lccs.LCCS.Repr | lccs/lccs.py:228-231 | `lccs("{url}")`, from which the URL can be read back |
| Lccs.LCCS.Str | lccs/lccs.py:233-235 | `<LCCS [{url}]>`, from which the URL can be read back |
| Scenarios.LookupTwice | lccs/lccs.py:65-72 | after a successful lookup, a second lookup of the same id returns the very same view, and at most one GET was sent |
| Scenarios.LookupThenList | lccs/lccs.py:33-34 | after a single successful lookup into an empty registry, the listing is that id alone and sends nothing more |
| Scenarios.ListThenOpen | lccs/lccs.py:30-72 | with one system on the server, the listing is its name, and opening it by that name answers from the registry; one GET in all |
| Scenarios.MappingBetween | lccs/lccs.py:74-94 | the group fetched for `A` and `B` names both systems and keeps the server's mapping entry unchanged |
| Scenarios.DownloadStyle | lccs/lccs.py:135-158 | a style is written below the directory asked for, under the name from `Content-Disposition`, with exactly the server's bytes |

## Left out

- The HTTP transport (`httpx`, `requests`, `raise_for_status`) is replaced by the server oracle. Statuses are not classified beyond success or failure.
- The upload files are never opened. So the `except RuntimeError` clauses around `open(...)` in `add_classification_system`, `add_style` and `add_mapping`, and their "Could not open" errors, are not modelled.
- The actual file write of `get_styles` is recorded in the ghost `writes` log instead.
- `Utils._delete` is not modelled, since no facade operation calls it. This includes the 404 behaviour of deleting a classification system.
- Of the token-carrying side of the merge in `lccs/utils.py`, only its header rule is modelled.
- JSON-schema validation (`Utils.validate`), HTML rendering (`Utils.render_html`, `_repr_html_`) and the global template state are not modelled. The `validate` flag is carried but has no effect.
- The wrappers `Link`, `ClassificationSystemClass`, `ClassificationSystemClasses` and `MappingGroup` are opaque: `lccs/link.py`, `lccs/classes.py` and `lccs/mappings.py` are not part of this model.
- `lccs/cli.py`, `setup.py` and the usage examples are not modelled.
- Reply header names are taken as lower case. The transport's case-insensitive header lookup is not modelled.
- JSON numbers are exact reals. As registry keys, Python identifies `1`, `1.0` and `True`; the model keeps them apart.
- `Values.Lower`: lower-cases ASCII letters only, not the rest of Unicode.
- `Values.Elements`: iterating a non-empty dictionary is a `TypeError` here; in Python it yields the keys, and the model's JSON objects keep no key order to yield them in. The loops of `ClassificationSystem.classes` and of the `child` filter then subscript a key with a string, which raises `TypeError` there too. In `get_classification_systems`, a key is first passed to `ClassificationSystem`, whose `dict(key or {})` raises `ValueError` for a non-empty key, and `TypeError` for the empty key only when `['name']` is read; the model raises `TypeError` in every case.
- `Lccs.LCCS.GetClassificationSystems`: Python returns a live `dict_keys` view of the registry, which later insertions show through; the model returns the keys as they are when the call returns.
- `ClassSystem.ClassificationSystem.Links`: on a non-empty dictionary under `links`, Python builds one `Link` per key; the model reports `TypeError`.
- `ClassSystem.FromData`: a true-valued document that is not a dictionary is refused with `TypeError`. Python's `dict(...)` would accept a list of pairs, and raises `ValueError` for some other values.
- `ClassSystem.ClassificationSystem.Classes`: a non-string `href` is a `TypeError` here, whereas Python formats it into the URL.
- `Lccs.StyleDownload`: a JSON reply that Python could unpack into two parts (a list, string or dictionary of length two) counts as a failed download here.
- The Python identity check (`is not None` on a stored entry) is modelled by value equality. No `None` entry is ever stored, so the check is always true.
