# Single-server key-value store — Dafny model

A model of the state machine behind a small HTTP key-value service. The
service keeps an in-memory dictionary `store` from string keys to string
values and mirrors it to the file `data.json`. Each of its four handlers
(list all, get, put, delete) either reads the dictionary, or changes it and
rewrites the file, while holding one process-wide lock. The reads, their
logging and their answers, and the not-found answer of DELETE, all happen
inside the lock. Only three things happen after it is released: the success
log and return of PUT and of DELETE (main.py:69-70, 82-83), and the
framework's encoding of the dictionary that list-all returns (main.py:48).
Each mutating handler first changes the dictionary. It then overwrites the
whole file with the JSON text of the whole dictionary (`save_to_disk`). At
start-up, the file is parsed and merged into the empty store when it exists,
is non-empty and is valid JSON.

- `persistence.dfy` (module `Persistence`) models the file. `Disk` is either
  no file or a file with some text. `Codec` holds the JSON encoder and
  parser, which stay abstract. `Snapshot` classifies the file as the
  start-up block does, and `Loaded` is the start-up merge.
- `kv_store.dfy` (module `KvStore`) holds `Serve`, the reference definition
  of one locked request on a `State` (store and disk). It also holds the
  class `KeyValueStore`, whose fields `store` and `disk` the handler methods
  update in place. Each method's contract ties it to `Serve`.
- `histories.dfy` (module `Histories`) holds `Run`, which serves a sequence
  of requests in lock order. It also holds the inductive lemmas about every
  such history: last write wins, the file stays in step with memory, a
  restart gives the store back, and the 50-way contended PUT scenario.

Inputs that the code gets from outside are parameters. The file's state at
start-up is the `Disk` given to the constructor. Whether a disk write
succeeds is a boolean `writeOk` passed to each mutating handler. The JSON
library is the `Codec`. The round-trip results assume `RoundTrips(c)`:
parsing the text written for a mapping gives back that mapping, and that
text is never empty (a JSON object is at least `{}`).

## Model

| member | source | states |
|---|---|---|
| `Persistence.Saved` | main.py:24-26 | `save_to_disk` leaves a file; under the codec assumption the start-up parser reads back exactly the store that was written |
| `Persistence.Snapshot` | main.py:32-36 | the file yields entries exactly when it exists, is non-empty and parses; absent, empty and invalid files yield nothing |
| `Persistence.Merge` | main.py:35 | `store.update(parsed)`: the keys are the union, parsed entries win, entries the file does not mention keep their value |
| `Persistence.Loaded` | main.py:32-37 | the start-up block never loses a key; it leaves the store unchanged when the file is absent, empty or invalid, and otherwise merges the parsed entries with parsed keys winning |
| `Persistence.ReloadSavedStore` | main.py:24-37 | loading a file that `save_to_disk` wrote into the empty start-up store reproduces the saved store |
| `KvStore.Lookup` | main.py:54-59 | GET answers a value exactly when the key is present, and that value is the stored one; otherwise it answers not found with detail "Key not found" |
| `KvStore.Serve` | main.py:44-83 | reads change neither memory nor file; list-all answers the whole store and GET answers `Lookup`; PUT sets the key and DELETE removes it whatever happens on disk; DELETE of an absent key answers not found; a successful write leaves the file holding the whole new store and answers "OK" (PUT) or "Deleted" (DELETE), otherwise the file is untouched; a write failure is reported exactly when a write was attempted and failed |
| `KvStore.OverwriteWins` | main.py:61-67 | PUT k v1 then PUT k v2 makes GET k answer v2, whatever became of either disk write |
| `KvStore.DeleteThenGet` | main.py:50-80 | after DELETE k (found or not, written or not), GET k answers not found |
| `KvStore.DeleteUndoesPut` | main.py:61-80 | DELETE is the inverse of a PUT of an absent key: the store returns to what it was |
| `KvStore.FailedWriteHealed` | main.py:61-83 | after a failed write leaves the file stale, the next successful mutation puts the whole store back on disk |
| `KvStore.FailedWriteLostOnRestart` | main.py:24-37 | when the failed write left the file intact (see SaveToDisk under Left out), a restart in the stale window reloads the store as it was before the failed request, not the store in memory |
| `KvStore.KeyValueStore.Start` | main.py:31-37 | the process starts with an empty store and runs the start-up block over the file; running the block a second time over the same file (as a second import of the module does) changes nothing; a restart from the resulting file gives the same store |
| `Persistence.LoadTwice` | main.py:32-37 | the start-up block is idempotent: merging the same file into its own result changes nothing |
| `KvStore.KeyValueStore.LoadSnapshot` | main.py:32-37 | the store becomes `Loaded` of the old store and the file; an absent, empty or unparsable file leaves it unchanged |
| `KvStore.KeyValueStore.SaveToDisk` | main.py:24-26 | on success the file holds the encoding of the whole store (an overwrite, not a merge); on failure the file is unchanged |
| `KvStore.KeyValueStore.GetAll` | main.py:44-48 | answers the full current mapping and changes nothing |
| `KvStore.KeyValueStore.GetValue` | main.py:50-59 | answers the stored value when the key is present, else not found with "Key not found"; changes nothing |
| `KvStore.KeyValueStore.PutValue` | main.py:61-70 | sets the key to the value whether or not it existed, every other key unchanged; memory is updated before the write, so on write failure memory holds the new mapping and the file keeps its previous content |
| `KvStore.KeyValueStore.DeleteValue` | main.py:72-83 | an absent key answers not found and changes nothing; a present key is removed and nothing else is; then the file is rewritten with the whole store, or left stale if the write fails |
| `Histories.Run` | main.py:44-83 | serving a history in lock order gives exactly one reply per request |
| `Histories.ReplyInOrder` | main.py:44-83 | the i-th reply of a history is what that request answers when served on the state left by the requests before it |
| `Histories.UntouchedKeyKept` | main.py:61-83 | a key that no request of a history puts or deletes answers GET exactly as before |
| `Histories.LastPutWins` | main.py:66 | when the last request touching k in a history is PUT k v, GET k answers v, whatever the disk did |
| `Histories.LastDeleteRemoves` | main.py:76-79 | when the last request touching k in a history is DELETE k, GET k answers not found |
| `Histories.ListingAfterHistory` | main.py:44-83 | after any history, whatever the disk did, every key answers as `Expected` defines from the history alone: the value of its last PUT if no DELETE followed, not found if a DELETE was last, and its initial answer if nothing touched it; so list-all returns the keys whose last PUT was not followed by a DELETE, each with that PUT's value, plus the untouched keys of the initial store |
| `Histories.FreshStartListing` | main.py:44-83 | from a fresh process with no file, a key is listed after a history exactly when its last PUT was not followed by a DELETE |
| `Histories.RunKeepsSynced` | main.py:65-80 | from a state whose file already mirrors the store, with every write succeeding, after any history the file holds exactly the encoding of the whole store |
| `Histories.RunKeepsRecoverable` | main.py:24-37 | with every write succeeding, a restart after any history reloads exactly the store in memory, starting from a freshly started process |
| `Histories.PutsAllSucceed` | integration_test.py:40-72 | every PUT of a history of PUTs on one key answers "OK" when the disk accepts the writes |
| `Histories.ContendedPuts` | integration_test.py:35-80 | PUTs of distinct values on one key, in any lock order: all answer "OK", GET then answers one of the submitted values (the last served), and the file parses to exactly the store in memory |

Two behaviours of the code worth stating outright. An absent, empty or
unparsable file leaves the store as it was (main.py:32-37), which at
start-up is the empty store; `Loaded` states the general case. A failing
`save_to_disk` raises after memory has already changed (main.py:66-67,
79-80); the model reports this as `WriteFailed` and keeps the change in
memory.

## Left out

- HTTP routing, the `Item` request model, status codes and the uvicorn entry point (main.py:1-3, 8, 20-21, 28, 39-41, 86-92) are framework plumbing. Not-found and write failure are `Reply` values rather than HTTP 404 and 500 responses. The route order that shadows a key named "all" for GET (main.py:43-44) is also routing.
- The lock (main.py:46, 53, 65, 75) is not modelled as a concurrency primitive. Each handler is one atomic step, and a history is the order in which the handlers took the lock. Interleavings are not modelled.
- Logging (main.py:13-17 and the `logging` calls) is a side channel with no effect on state.
- JSON text encoding and parsing are left abstract in `Codec`. The round-trip results rest on the stated `RoundTrips` assumption about the JSON library.
- A file that parses to something other than a string-to-string object, and a file that fails UTF-8 decoding, are not modelled. The parser's answer is `Option<Mapping>`, so `store.update` on a list or scalar and decoding errors other than `JSONDecodeError` are outside the model.
- `KvStore.KeyValueStore.SaveToDisk`: a failed write leaves the file exactly as it was. A failure after `open(..., "w")` has truncated the file, which would leave it empty or partial, is not modelled.
- `KvStore.KeyValueStore.GetAll` returns the mapping as a value, atomically. The source returns the live dictionary object; the framework encodes it after `with lock:` has been left (main.py:46-48), so a concurrent PUT or DELETE (main.py:66, 79) can change it during encoding. The source's list-all is therefore not atomic against writers, and this model does not capture that or the aliasing.
- Starting through the entry point (main.py:86-92) makes uvicorn import `main` a second time, so the start-up block runs twice over the same store. The model runs it once; `Persistence.LoadTwice` shows the second run changes nothing.
- `storage.py`, which defines `store` and `lock`, is not part of this model. The store is taken to start empty.
