# Audio-file CRUD API — a Dafny model

This project models the request handlers of a small API. The API stores one
audio-narration record per language. A record has an `id`, a `language`, an
`audio_url` and a `text_content`. The handlers live in `backend/main.py`:

- list all records;
- get one record by language (404 if absent);
- create a record (400 if the language is already present, else
  `id = language + "_audio"`);
- update the URL and text of a record (404 if absent);
- delete a record (404 if absent).

The document database is abstracted to the contents of its `audio_files`
collection, as a sequence of records in storage order. The driver calls the
handlers make have the following meaning:

- `find_one`, `update_one` and `delete_one` with a `language` filter act on
  the first matching document.
- `insert_one` appends.
- `find({})` yields every document in storage order.

Layout:

- `records.dfy` (module `Records`): the `AudioFile` / `AudioFileCreate`
  records, the id derivation `AudioId`, the seed `SampleAudioData`, and the
  store invariants (`UniqueLanguages`, `IdsDerived`, `UniqueIds`).
- `collection.dfy` (module `Collection`): the driver operations as recursive
  scans. Their contracts tie each one to the index of the first match. The
  module also holds lemmas about what each operation keeps and what a
  following `find_one` sees.
- `api.dfy` (module `Api`): the HTTP errors and their exact detail messages,
  the in-memory list handler, and the class `AudioServer`. That class holds
  the collection as a mutable field and has one method per handler. A
  client method `Walkthrough` replays a session on the seed data: create
  `french`, read it back, get 400 on a second create, update, delete, then
  get 404.

Behaviour of the code that the model follows:

- **Two handlers for `GET /api/audio`.** The first one registered (main.py
  lines 70-72) returns the in-memory `audio_storage`, a copy of the seed. No
  handler ever writes to that list. The second one (lines 74-91) reads the
  collection. The model keeps both. `GetAllAudioInMemory` always answers the
  seed. `AudioServer.GetAllAudio` answers the collection. `Walkthrough` shows
  that a created record appears in the second and never in the first.
  FastAPI sends `GET /api/audio` only to the first route registered for it
  (lines 70-72), so the collection-backed handler cannot be reached over
  HTTP.
- **No unique index.** Uniqueness of `language` comes only from the check
  before the insert in create. The collection's starting contents come from
  outside, so uniqueness is not assumed. Each write method promises instead
  that a store with one record per language keeps that property. The same
  holds for "every id is derived from its language".
- **No fallback store, no connectivity flag, no sorting.** The code has none
  of these, so the model has none either. The list handlers return records in
  storage order. The startup hook only prints a start-up line and loads
  nothing, so the constructor takes the collection's current contents as a
  parameter.
- **Duplicate languages.** If the store holds two records for one language,
  delete removes only the first. A following get then returns the second.
  "Get after delete is 404" is proved only for stores with one record per
  language.

## Model

| member | source | states |
|---|---|---|
| `Records.AudioIdInjective` | backend/main.py:123 | two different languages never get the same derived id `language + "_audio"` |
| `Records.DerivedIdsAreUnique` | backend/main.py:117-129 | a store with one record per language whose ids are all derived has no two records with the same id |
| `Records.SampleAudioDataWellFormed` | backend/main.py:47-60 | the seed holds exactly two records, `english` then `arabic`; their languages differ; each id is `language + "_audio"`; ids are distinct |
| `Collection.FindIndex` | backend/main.py:97 | it finds nothing exactly when no document has the language; otherwise it returns an in-range position holding the language with no earlier match (the driver's first match) |
| `Collection.FindOne` | backend/main.py:97-99 | it returns nothing exactly when no document has the language; otherwise it returns a stored document with that language, namely the first match |
| `Collection.UpdateOne` | backend/main.py:152-157 | if nothing matches, the contents are unchanged and the matched count is 0; otherwise only the first match gets the new URL and text, every other document is untouched, and the count is 1 |
| `Collection.DeleteOne` | backend/main.py:177-178 | if nothing matches, the contents are unchanged and the deleted count is 0; otherwise exactly the first match is removed, the rest keep their order, and the count is 1 |
| `Collection.FindOneAfterInsert` | backend/main.py:117-129 | after appending a record whose language was absent, `find_one` on that language returns exactly that record, at the last position |
| `Collection.FindOneOtherAfterInsert` | backend/main.py:129 | appending a record does not change what `find_one` returns for any other language |
| `Collection.InsertKeepsUnique` | backend/main.py:117-129 | check-then-insert keeps at most one record per language |
| `Collection.InsertKeepsIdsDerived` | backend/main.py:122-129 | inserting the created document keeps every id equal to its language plus `_audio` |
| `Collection.UpdateOneKeepsKeys` | backend/main.py:147-155 | an update keeps the length and, at every position, the language and the id |
| `Collection.FindOneAfterUpdate` | backend/main.py:152-166 | after a successful update, `find_one` on that language finds the same position and returns the old record with only URL and text replaced |
| `Collection.UpdateKeepsUnique` | backend/main.py:147-155 | an update keeps at most one record per language |
| `Collection.UpdateKeepsIdsDerived` | backend/main.py:147-155 | an update keeps every id derived from its language |
| `Collection.RemoveAtKeepsUnique` | backend/main.py:177 | removing one position from a store with one record per language, keeping the rest in order, leaves one record per language |
| `Collection.DeleteKeepsUnique` | backend/main.py:177 | a delete keeps at most one record per language |
| `Collection.DeleteKeepsIdsDerived` | backend/main.py:177 | a delete keeps every id derived from its language |
| `Collection.FindOneAfterDelete` | backend/main.py:177-181 | in a store with one record per language, `find_one` on a deleted language finds nothing, so a following get is 404 |
| `Api.GetAllAudioInMemory` | backend/main.py:67-72 | the in-memory list handler always answers the two seed records, whatever the writes did; they have unique languages and derived ids |
| `Api.AudioServer.constructor` | backend/main.py:62-65 | the server starts over the collection's existing contents; startup only prints a line and loads nothing |
| `Api.AudioServer.GetAllAudio` | backend/main.py:74-89 | the result has the collection's length and, at every position, the stored record: no filter, no sort |
| `Api.AudioServer.GetAudioByLanguage` | backend/main.py:93-106 | 404 with the not-found message exactly when no record has the language; otherwise the first stored record with that language, its stored id included |
| `Api.AudioServer.CreateAudioFile` | backend/main.py:112-137 | 400 with the already-exists message and an unchanged store when the language is present; otherwise the store gains exactly the record with `id == language + "_audio"` and the input's other three fields, that record is returned, and a following `find_one` returns it; one-record-per-language and derived ids are kept |
| `Api.AudioServer.UpdateAudioFile` | backend/main.py:143-167 | 404 and an unchanged store when absent; otherwise only the first match's URL and text change, its language and id stay, all other records stay, and the updated record is returned; both store invariants are kept |
| `Api.AudioServer.DeleteAudioFile` | backend/main.py:173-181 | 404 and an unchanged store when absent; otherwise exactly the first match is removed, the others stay in order, and the confirmation message is returned; in a store with one record per language the language is then absent |

## Left out

- FastAPI app setup, routing, CORS, dotenv loading and the uvicorn launcher (main.py lines 1-22 and 202-210). They are framework and process plumbing.
- The Motor/MongoDB client and async cursor iteration. The collection is modelled as a sequence of records, and the driver calls are modelled by their effect on it.
- The `except Exception` branches that answer 500. The model assumes every stored document has all four fields, each a string: `seq<AudioFile>` cannot hold a document that lacks `language`, `audio_url` or `text_content`, or has a non-string field. Such a document makes the code raise while building an `AudioFile` (main.py lines 82-87, 101-106 and 162-167), and in the list handler one such document turns the whole answer into a 500. That 500 is not modelled, and neither is the 500 a driver or network failure causes.
- The fallback from a missing `id` field to `str(_id)`. Every stored record carries `id` as a string field.
- The `/health` endpoint (main.py lines 188-200). It is a database ping that answers success or 503, with no logic to model.
- Concurrent requests, including the race between the existence check and the insert in create. The model runs one handler at a time.
- Response serialisation: the delete confirmation is modelled as its message string, not as a JSON object.
