# Dog registry and post log

A model of the in-memory core of a small FastAPI service (`main.py`). The
service keeps two process-local stores and five endpoints over them:

- the dog table `dogs_db`, a Python dict from integer key to a `Dog(name, pk, kind)`,
  seeded with seven dogs under keys 0..6, with endpoints to list (optionally by
  breed), create, fetch by key and replace by key;
- the post log `post_db`, a list of `Timestamp(id, timestamp)` seeded with ids 0 and 1,
  to which POST /post appends an entry whose id is the last id plus one.

Files:

- `models.dfy` (module `Models`): the breed enumeration, the `Dog` and `Timestamp`
  records, and `Outcome`, which stands for an endpoint's answer: a value or a 422
  error carrying its `loc` tag (`"kind"` or `"pk"`).
- `dog_lists.dfy` (module `DogLists`): the dict's value list and the breed filter of
  GET /dog as pure functions, with lemmas on order, membership and multiplicity.
- `dogs_db.dfy` (module `DogsStore`): class `DogsDb`. The dict is two fields: `keys`,
  its keys in insertion order, and `rows`, the key-to-dog map. `Put` is dict item
  assignment (an existing key keeps its place). The object invariant `Valid()` says
  the keys are exactly `0..n-1` in order and `n > 0`. Every endpoint keeps it.
  GET /dog and GET /dog/{pk} only read, so they are functions of the object's state.
  POST /dog and PATCH /dog/{pk} write into it, so they are methods.
- `post_db.dfy` (module `PostsStore`): class `PostLog` and the id rule `NextId`. Its
  invariant says every entry's id is its position in the log.
- `scenarios.dfy` (module `Scenarios`): request sequences on the freshly seeded stores.

Keying behaviour of the endpoints:

- POST /dog checks `dog.pk` against the keys (main.py:76), but stores the dog under
  the last inserted key plus one (main.py:81-82). Because keys are always `0..n-1`,
  that key is the table's size, and the supplied `pk` is only a payload field. So a
  dog created with pk 100 on the seed lands under key 7: GET /dog/100 fails and
  GET /dog/7 returns it (`Scenarios.CreateOnSeed`).
- PATCH /dog/{pk} returns the new dog, not the replaced one. The path key decides
  the slot (main.py:99-101).
- GET /dog without a filter returns the dogs in insertion order. Under the invariant
  that is also key order.

The breed query is a raw string. It is accepted when it is one of the member names
`terrier`, `bulldog`, `dalmatian`, after which dogs are compared by breed value.
Names and values coincide in `DogType`, so one function `Name` stands for both.
The clock read of POST /post is the parameter `now`.

## Model

| member | source | states |
|---|---|---|
| `Models.ParseKind` | main.py:65 | a query string is recognised exactly when it is one of the member names, and then it denotes the breed with that name |
| `Models.NameRoundTrip` | main.py:12-15 | every breed's name is a member name that parses back to that breed and to no other |
| `DogLists.ValuesOf` | main.py:64 | the value list has one entry per key, in key-insertion order, each the dog stored under that key |
| `DogLists.FilterKind` | main.py:66 | the comprehension returns no more dogs than it scans, and each has the requested breed |
| `DogLists.FilterMembers` | main.py:66 | a dog is in the filtered list exactly when it is in the input and has the requested breed |
| `DogLists.FilterCounts` | main.py:66 | the filtered list holds each dog of the requested breed as many times as the input, and no other dog |
| `DogLists.FilterConcat` | main.py:66 | filtering keeps relative order: the filter of a concatenation is the concatenation of the filters |
| `DogLists.FilterAppend` | main.py:66 | appending one dog extends the filtered list by that dog exactly when it has the requested breed |
| `DogLists.FilterKeepsAll` | main.py:66 | a list of dogs all of the requested breed passes through unchanged |
| `DogLists.FilterPartition` | main.py:66 | the answers for the three breeds together hold as many dogs as the table |
| `DogLists.FilterReplace` | main.py:100 | replacing one entry changes a filtered list only at that entry's position |
| `DogsStore.DogsDb.constructor` | main.py:29-37 | the seeded table satisfies the invariant and lists the seven seed dogs in order |
| `DogsStore.DogsDb.Put` | main.py:82 | dict item assignment: the map takes the new value; the key list grows by the key only if it was absent |
| `DogsStore.DogsDb.GetDog` | main.py:62-71 | without a breed: every stored dog in insertion order; with a member name: the breed filter of the stored dogs, so exactly the dogs of that breed, each as often as stored, in insertion order; with any other string: an error at "kind" |
| `DogsStore.DogsDb.GetDogByPk` | main.py:87-94 | a key is found exactly when it is in `0..n-1`, and then the answer is the dog inserted in that position; otherwise an error at "pk" |
| `DogsStore.DogsDb.CreateDog` | main.py:75-83 | a `pk` already used as a key gives an error at "pk" and no change; otherwise the dog is returned unchanged and stored under the table's size, a key not used before, the value list grows by that dog at the end, every breed list grows by it if it matches, and the keys stay `0..n-1` |
| `DogsStore.DogsDb.UpdateDog` | main.py:98-106 | an absent key gives an error at "pk" and no change; a present key keeps the key list, holds the new dog in the same position, a later fetch returns it, every other fetch is as before |
| `PostsStore.NextId` | main.py:52-56 | the next id is 0 on an empty log, the log's length when ids are positions, and above every earlier id when ids increase |
| `PostsStore.PositionsIncrease` | main.py:39-42 | ids that equal positions strictly increase |
| `PostsStore.AppendKeepsIncrease` | main.py:52-57 | appending the entry POST /post builds keeps the ids strictly increasing |
| `PostsStore.PostLog.constructor` | main.py:39-42 | the seeded log holds ids 0 and 1, and each id is its position |
| `PostsStore.PostLog.Post` | main.py:51-58 | exactly one entry is appended with the next id and the given clock reading, earlier entries stay, and it keeps the id-is-position invariant and increasing ids |
| `Scenarios.SeedBulldogs` | main.py:29-37 | the seed's bulldogs are Marli, Tillman and Uga, in that order |
| `Scenarios.ListSeed` | main.py:61-71 | on the seed, GET /dog gives the seven dogs, "bulldog" gives the three bulldogs, "poodle" gives an error at "kind" |
| `Scenarios.CreateOnSeed` | main.py:75-83 | on the seed, pk 0 clashes at "pk"; pk 100 succeeds but is stored under key 7, so fetch 100 fails and fetch 7 returns it |
| `Scenarios.UpdateOnSeed` | main.py:98-106 | on the seed, patching key 42 fails at "pk"; patching key 3 returns the new dog and a later fetch sees it |
| `Scenarios.PostOnSeed` | main.py:50-58 | on the seed, two posts get ids 2 and 3 whatever the clock reads |

## Left out

- The FastAPI application, route decorators, response models, HTTP status 422 and `HTTPException` (main.py:9, 45-106): framework glue. Errors are `Outcome.Err` with the `loc` tag.
- The error `msg` texts and the constant `type: "error"` of the error body (main.py:70, 79, 93, 105): cosmetic.
- The `root` endpoint (main.py:45-47): it returns a constant string.
- Pydantic validation and serialisation of `Dog` and `Timestamp` (main.py:18-26): a foreign library. Inputs are taken as already well-typed.
- `time.time()` (main.py:54, 56): a wall-clock read, modelled as the parameter `now`. Timestamps are not claimed to be monotonic; the seed has 12 before 10.
- Concurrent requests: the service has no locking, and the model is sequential.
- DogsStore.DogsDb.CreateDog: requires a non-empty table; on an empty one the source would raise `IndexError` at main.py:81. The seed has seven entries and nothing deletes, so it cannot happen.
