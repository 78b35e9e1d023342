# Jellyfin collections: aggregation and selection model

A Dafny model of the logic in `create-collections.py` that sits between its
network calls. The script lists the Jellyfin movie library. It asks TMDb
which collection each movie belongs to and groups the movies by TMDb
collection id in a dict `{collection id -> {Name, raw_name, ids}}`. Per-movie
failures go to an error list, and that list is written to
`collection-errors.txt`. Every group with more than one movie becomes a
Jellyfin box set: it is created under the URL-encoded name, then found again
by exact raw name in the box-set listing, and the group's ids are added to it.

Everything is in one module, `JellyfinCollections` (`collections.dfy`):

- `Movie`, `Lookup`, `Group`, `BoxSet`: the records the script reads. `Lookup`
  is what the TMDb client yields: a failure with its message, no collection,
  or a collection id with its name.
- `Collections`: the aggregation dict as a value. Because Python dicts keep
  insertion order and `create_collections` iterates in that order, the keys
  are kept as a sequence `order` beside the map `groups`. `Valid()` is the
  dict's invariant: one entry per key, `order` lists exactly the keys, and no
  `ids` list is empty.
- `CollectionTable`: the dict object itself. `get_collection_data` creates it
  and `check_single_movie` updates it in place, so it is a class whose methods
  change its fields.
- `CheckMovie`, `Step`, `Aggregate`, `Errors`: the per-movie update and the
  pass as functions. The reference definitions `MemberIds`, `FirstRawName`
  and `FirstIndex` characterise the pass's result independently of the dict.
- `GetCollectionData`, `WriteErrorsToDisk`, `CreateCollections`: the
  script's loops as methods, each proved equal to its specification
  function.
- `Synchronise`: `main` without its HTTP steps. It has no loop of its own;
  it calls `GetCollectionData` and then `CreateCollections`.
- `GroupActions`, `Plan`: the requests for one group and for the groups in
  key order.
- `FirstMatch`, `JoinIds`, `Split`: the list-comprehension lookup, and
  `str.join`/`str.split` with a one-character separator.

The opaque collaborators are parameters:

- `provider: string -> Lookup` is the TMDb answer for a TMDb id.
- `quote: string -> string` is `urllib.parse.quote`.
- `listing: CollectionId -> seq<BoxSet>` is the box-set listing the server
  returns right after a group's collection has been created.

The requests `create_collections` sends are returned as a sequence of
`Action`s:

- `CreateRequest`: the create request.
- `AddItemsRequest`: the add-items request, with the box-set id and the
  `Ids` parameter.
- `SortError`: the "error sorting" log record.

Three points of the code's behaviour that the model follows:

- `create_collections` iterates the dict, and a Python dict iterates in
  order of first insertion. The model keeps the keys in that order, and
  `AggregateOrder` proves that the key order is the order in which the
  collections were first found in the movie list.
- The code tests `library_collection.get(collection_id)` for truthiness. Every
  entry is a non-empty dict, so this is the same as testing that the key is
  present, and the model uses key membership.
- The code sleeps before it checks for a TMDb id, so it also sleeps for
  movies it skips. The model leaves timing out.

## Model

| member | source | states |
|---|---|---|
| `JellyfinCollections.TmdbId` | create-collections.py:66-72 | There is no TMDb id exactly when `ProviderIds` has no `Tmdb` key or its value is empty. Otherwise the id is that value. |
| `JellyfinCollections.ErrorLine` | create-collections.py:126 | The record is the movie's display name (`str(movie.get("Name"))`, `DisplayName`), then `" - "`, then the failure message, with nothing else. |
| `JellyfinCollections.AddMember` | create-collections.py:88-100 | For a key already in the dict, `order`, `Name` and `raw_name` stay the same and `ids` grows by exactly the movie's id at the end. A new key gets exactly one new entry `{quote(raw), raw, [id]}` and is appended to the key order. Every other entry is unchanged, and the dict invariant is preserved. |
| `JellyfinCollections.CheckMovie` | create-collections.py:64-105 | No TMDb id (missing or empty) gives `NoDataError`. A failing lookup gives `MovieDataError` carrying the lookup's message. No collection returns the dict unchanged. A movie found in a collection gives the dict after `AddMember` with the collection id, its raw name, `quote` of that name and the movie's id. A stored result keeps the dict invariant. |
| `JellyfinCollections.CollectionTable.constructor` | create-collections.py:117 | The new dict is empty. |
| `JellyfinCollections.CollectionTable.CheckSingleMovie` | create-collections.py:64-105 | Updating the dict object in place returns exactly `CheckMovie` of the old contents. The fields change only when the result is the stored dict, and then they hold that dict. On either error nothing changes. |
| `JellyfinCollections.Step` | create-collections.py:121-132 | One step of the pass leaves the dict unchanged unless the movie is found in a collection, and then applies `AddMember` for that collection. An error of either kind does not touch the dict. |
| `JellyfinCollections.Aggregate` | create-collections.py:117-122 | The dict after the pass has at most as many keys as there are movies. |
| `JellyfinCollections.AggregateValid` | create-collections.py:117-122 | After the pass the dict satisfies `Collections.Valid`: at most one entry per collection id, its key order lists exactly its keys, and every `ids` list is non-empty. |
| `JellyfinCollections.AggregateOrder` | create-collections.py:117-122 | The key order of the final dict lists exactly the collections some movie was found in, ordered by the position of the first movie found in each (`FirstIndex`). This is the order in which `create_collections` visits them (create-collections.py:147). |
| `JellyfinCollections.AggregateGroupAt` | create-collections.py:117-132 | After the pass, collection `k` has an entry exactly when some movie was found in it. Its `ids` are exactly the local ids of the movies found in `k`, in list order. Its `raw_name` is the name reported for the first of them, and its `Name` is `quote` of that. |
| `JellyfinCollections.MemberIdsWitness` | create-collections.py:93-99 | The member list of collection `k` is non-empty exactly when some movie in the list resolves to `k`. |
| `JellyfinCollections.KeysAreFoundCollections` | create-collections.py:117-132 | The key set of the final dict equals the set of collection ids reported for successfully resolved movies. |
| `JellyfinCollections.SkippedMovieLeavesCollections` | create-collections.py:121-132 | A movie with no TMDb id, a failed lookup or no collection leaves the final dict identical to the dict for the list without that movie. The movies after it still reach the dict. |
| `JellyfinCollections.Errors` | create-collections.py:118-128 | The pass records at most one error per movie. |
| `JellyfinCollections.ErrorsAppend` | create-collections.py:124-128 | The error records of a concatenated list are those of the first part followed by those of the second, so records appear in processing order. |
| `JellyfinCollections.FailedMovieRecorded` | create-collections.py:104-105 | A failed lookup adds exactly one record `"<name> - <reason>"`, placed between the records of the earlier and the later movies. |
| `JellyfinCollections.UnfailedMovieNotRecorded` | create-collections.py:130-132 | A movie without a TMDb id, or with a successful lookup, adds no error record. |
| `JellyfinCollections.ExampleCollections` | create-collections.py:117-122 | For four movies (`ExampleA` without a TMDb id, `ExampleB` and `ExampleC` both in collection 99 named "Collection Z", `ExampleD` whose lookup fails), the dict is `{99: {quote("Collection Z"), "Collection Z", ["b", "c"]}}`. |
| `JellyfinCollections.ExampleErrors` | create-collections.py:124-128 | For the same four movies the only error record is `"D - timeout"`, the one for the failed lookup. |
| `JellyfinCollections.GetCollectionData` | create-collections.py:115-141 | The loop over the movies yields exactly `Aggregate` of the list, a valid dict. The error file text is produced exactly when the error list is non-empty, and then it is `ErrorFileText` of the errors in order. |
| `JellyfinCollections.ErrorFileText` | create-collections.py:111-112 | The file text is empty exactly when there are no records, and a non-empty text ends with a newline. |
| `JellyfinCollections.ErrorFileTextSnoc` | create-collections.py:111-112 | Writing one more record appends that record and a newline to the file text. |
| `JellyfinCollections.WriteErrorsToDisk` | create-collections.py:108-112 | The loop writes exactly each record followed by `'\n'`, in order, into the truncated file. |
| `JellyfinCollections.ErrorFileLines` | create-collections.py:108-112 | When no record contains a newline, splitting the file text at newlines gives back the records in order, followed by the empty text after the last newline. |
| `JellyfinCollections.JoinIdsRoundTrip` | create-collections.py:175 | The `Ids` parameter `','.join(ids)` (`JoinIds`) of a non-empty group whose ids contain no comma splits back into exactly those ids. |
| `JellyfinCollections.FirstMatchIsFirst` | create-collections.py:166-170 | The id `FirstMatch` selects from the matching ids (`MatchingIds`) belongs to the first box set whose `Name` equals `raw_name` exactly. There is no selection exactly when no box set has that name. |
| `JellyfinCollections.GroupActionsSpec` | create-collections.py:149-181 | A group yields no request exactly when it has at most one id. Otherwise `GroupActions` yields two actions: the create request under the encoded name, then either the add-items request to the first box set named exactly like the group with the ids joined by `','`, or, when no box set has that name, the sort error for the raw name. |
| `JellyfinCollections.PlanAppend` | create-collections.py:147-181 | The requests for a list of groups are those for its first part followed by those for the rest. So a group whose name matches no box set contributes only its own create request and sort error, and leaves the other groups' requests unchanged. |
| `JellyfinCollections.PlanMembership` | create-collections.py:147-181 | An action is in the plan (`Plan`) exactly when it is one of the actions of some group in the dict. |
| `JellyfinCollections.PlanCreatesLargeGroups` | create-collections.py:149-156 | A create request for a name is issued exactly when some group with more than one id has that encoded name. |
| `JellyfinCollections.PlanAddsToFirstMatch` | create-collections.py:166-178 | An add-items request `(box set, Ids)` is issued exactly when some group with more than one id has that box set as the first exact name match, and `Ids` is that group's ids joined with `','`. |
| `JellyfinCollections.PlanReportsUnmatched` | create-collections.py:166-181 | A sort error for a name is logged exactly when some group with more than one id has that raw name and no box set matches it. |
| `JellyfinCollections.CreateCollections` | create-collections.py:144-181 | The loop over the dict in key order yields exactly the plan for the groups in that order. |
| `JellyfinCollections.Synchronise` | create-collections.py:213-217 | Running the pass and then collection creation gives the error file text of the pass and the plan for the dict the pass produced. |

## Left out

- The library fetch, its error handling and `sys.exit` (create-collections.py:41-61) are left out: they are HTTP requests to the media server. The model takes the decoded movie list as input.
- The create, list and add-items HTTP calls (create-collections.py:152-178) are left out. They are returned as `Action` values, and the box-set listing is the `listing` parameter.
- `refresh_collection_metadata` (create-collections.py:184-210) is left out: it is only HTTP requests and a folder lookup on the server's response.
- The TMDb client call (create-collections.py:75) is the `provider` parameter. Any exception raised inside the `try` (network, response shape, a collection name that `quote` cannot encode) is represented by `Fails(reason)`.
- `provider`: the model's lookups are a fixed function of the TMDb id, so two movies with the same TMDb id always get the same answer. In the script each lookup (create-collections.py:75) is a separate request, so two such movies may get different answers, for example a timeout for one and a collection for the other.
- A failure of the create request or of the box-set listing request, including its `.json()['Items']` (create-collections.py:152-164), is outside the `try` and not caught. It ends `create_collections` and `main`, so no later group is processed and the metadata refresh does not run. The model does not represent this failure: `listing` always returns a list.
- `urllib.parse.quote` (create-collections.py:86) is the `quote` parameter. Its safe-character set belongs to the library and is not modelled.
- The `time.sleep(.5)` rate limit (create-collections.py:68) is left out: it is timing only.
- Logging and the configuration constants (create-collections.py:13-30) are left out: they have no effect on the data.
- The creation of the file `collection-errors.txt` is left out. The model produces only its text.
- JSON decoding of the responses is left out. The inputs are already decoded records.
- A movie without a `ProviderIds` object makes line 66 raise `AttributeError` outside any handler, which ends the run. Every `Movie` of the model carries a `providerIds` map, so that crash path is assumed away rather than modelled.
- Collection ids are integers and local movie ids are strings. A `belongs_to_collection` without an `id`, or a movie without an `Id`, would give Python `None` values, and the model does not represent them.
- `SortError` records only the group's raw name, not the text of the caught exception. The model's only failure in that `try` is the empty match list, which raises `IndexError`. Network exceptions from the add-items request are not modelled.
