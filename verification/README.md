# Index synchronisation core of bombastic, in Dafny

This project models the part of the bombastic SBOM service that keeps the
search index in step with the object store:

- the **storage key layout** of `bombastic_storage::Storage`. Documents are
  stored at `/data/sbom/<key>` inside the bucket and the index snapshot at
  `/index.sqlite`. Bucket notifications carry keys qualified by the bucket name:
  `is_index` recognises the snapshot key and `extract_key` strips the document
  prefix.
- **one iteration of the indexer's `run` loop**. When a bus message arrives,
  the loop decodes it, filters it, fetches the document, hashes it, inserts an
  entry into the index and commits the message. A failed commit repeats the
  whole body. When the sync timer fires, the loop snapshots the index, writes
  the snapshot to the store and reschedules.

Modules, one per source component:

- `Wrappers`: `Option` and `Result`.
- `HexFormat`: bytes, the 32-byte SHA-256 digest, and `LowerHex`. `LowerHex` is
  the `{:x}` formatting of the digest. `ParseHex` is its inverse, used as a
  reference.
- `BombasticStorage`: `SBOM_PATH`, `INDEX_PATH`, `DocumentPath`, `StripPrefix`
  and `ObjectAt` (what a read of the bucket returns). The class `Storage` holds
  the bucket name, the two qualified keys, and the bucket contents as
  `objects: map<string, Bytes>`, keyed by bucket-relative path. `put`, `get`,
  `put_index` and `get_index` read and write that map.
- `BombasticIndexer`: `StorageEvent`, `PUT_EVENT`, and the class `Indexer`.
  `Indexer` holds `nextSync`, the index (the entries inserted, in order) and
  `trace`, the calls made to the store, the index and the bus. Three
  specification functions describe the event branch: `Classify` (the filters),
  `Process` (one pass up to its commit) and `EventLoop` (the passes until a
  commit succeeds). `RunPass` and `HandleEvent` implement that branch as
  methods with the source's loop and are proved equal to those functions.
  `Sync` implements the timer branch and `Step` the choice between the two
  branches.

Some collaborators are outside the model and become inputs:

- **Deterministic functions, given to the `Indexer` constructor:**
  `decode` (serde decoding of the notification), `purlOf` (parsing the document
  and reading `metadata.component.purl`), `sha256`, and `serialize` (what a
  successful `Index::snapshot` returns).
- **Per-call outcomes, given to each step as an `Attempt` per pass:**
  whether the store is reachable, whether the insert succeeds, and whether the
  commit succeeds. Whether the snapshot succeeds and whether it is stored are
  arguments of the timer branch.
- **The current time:** an argument of the timer branch.

Behaviour of the code that the model keeps:

- A PUT notification of the index key leaves the inner loop by `break` before
  `event.commit()` (indexer/src/indexer.rs:39-40), so it is never committed.
- The inner `loop` (indexer/src/indexer.rs:34-73) wraps both the processing and
  the commit. A failed commit therefore decodes, fetches, hashes and inserts
  again before the next commit, and `insert` is called again with the same entry.
- A document whose JSON or purl cannot be read makes `unwrap` panic
  (indexer/src/indexer.rs:46-47). The model ends the branch with the outcome
  `Panicked`: no insert, no commit.
- `put`/`get` use the bucket-relative path `/data/sbom/<key>`. `extract_key`
  strips `<bucket>/data/sbom/` from notification keys. The two meet in
  `NotificationNamesObject`: a notification key yields `k` exactly when it is
  the bucket name followed by `DocumentPath(k)`.

## Model

| member | source | states |
|---|---|---|
| `HexFormat.LowerHex` | indexer/src/indexer.rs:48-51 | the hash text has two characters per byte, all lowercase hexadecimal digits |
| `HexFormat.DigestTextShape` | indexer/src/indexer.rs:48-51 | the text of a 32-byte SHA-256 digest is 64 lowercase hex characters |
| `HexFormat.HexRoundTrip` | indexer/src/indexer.rs:51 | reading the hash text back in pairs of digits gives the digest bytes |
| `HexFormat.ParseHexSound` | indexer/src/indexer.rs:51 | any text that parses is exactly the formatting of the bytes it parses to |
| `HexFormat.LowerHexInjective` | indexer/src/indexer.rs:51 | different digests give different hash texts |
| `BombasticStorage.StripPrefix` | storage/src/lib.rs:90-92 | yields a value exactly when the key starts with the prefix, and the prefix followed by the value is the key |
| `BombasticStorage.ObjectAt` | storage/src/lib.rs:100-104 | a read succeeds exactly when the store is reachable and the path holds an object, and then returns that object |
| `BombasticStorage.DocumentPath` | storage/src/lib.rs:94-104 | the object path of a key is "/data/sbom/" followed by exactly that key |
| `BombasticStorage.DocumentPathInjective` | storage/src/lib.rs:94-104 | distinct document keys are stored at distinct paths |
| `BombasticStorage.DocumentPathIsNotIndexPath` | storage/src/lib.rs:71-72 | no document path equals the index path |
| `BombasticStorage.GetAfterPut` | storage/src/lib.rs:94-104 | `get` of a key after a `put` of that key returns the bytes put |
| `BombasticStorage.PutLeavesTheRest` | storage/src/lib.rs:94-98 | a `put` changes no other document and not the index snapshot |
| `BombasticStorage.PutIndexLeavesDocuments` | storage/src/lib.rs:106-114 | `get_index` after `put_index` returns the snapshot, and every document reads as before |
| `BombasticStorage.NewStorage` | storage/src/lib.rs:75-84 | fails exactly when the bucket handle cannot be made; otherwise the prefix is bucket name + "/data/sbom/" and the index key is bucket name + "/index.sqlite" |
| `BombasticStorage.Storage.constructor` | storage/src/lib.rs:76-83 | builds both qualified keys from the bucket name and keeps the bucket contents |
| `BombasticStorage.Storage.IsIndex` | storage/src/lib.rs:86-88 | on a well-formed handle, holds exactly for bucket name + "/index.sqlite" |
| `BombasticStorage.Storage.ExtractKey` | storage/src/lib.rs:90-92 | yields a key exactly when the notification key starts with the document prefix, and then the notification key is the bucket name followed by that key's object path |
| `BombasticStorage.Storage.IsIndexExact` | storage/src/lib.rs:86-88 | `is_index(k)` holds iff `k` is bucket name + "/index.sqlite"; no proper prefix or extension of it matches |
| `BombasticStorage.Storage.ExtractKeyIff` | storage/src/lib.rs:90-92 | `extract_key(k) == Some(s)` iff `k` is bucket name + "/data/sbom/" + `s` |
| `BombasticStorage.Storage.ExtractKeyRoundTrip` | storage/src/lib.rs:90-92 | the prefix followed by any `s` is extracted back to `s` |
| `BombasticStorage.Storage.IndexKeyIsNotADocument` | storage/src/lib.rs:86-92 | the index key never yields a document key |
| `BombasticStorage.Storage.NotificationNamesObject` | storage/src/lib.rs:90-104 | a notification key yields `k` exactly when it is the bucket name followed by the path `put`/`get` use for `k` |
| `BombasticStorage.Storage.Put` | storage/src/lib.rs:94-98 | on success only the entry at "/data/sbom/" + key changes, to the value; on failure nothing changes |
| `BombasticStorage.Storage.Get` | storage/src/lib.rs:100-104 | reads the entry at "/data/sbom/" + key; fails when unreachable or absent |
| `BombasticStorage.Storage.PutIndex` | storage/src/lib.rs:106-109 | on success only the entry at "/index.sqlite" changes; on failure nothing changes |
| `BombasticStorage.Storage.GetIndex` | storage/src/lib.rs:111-114 | reads the entry at "/index.sqlite"; fails when unreachable or absent |
| `BombasticIndexer.Indexer.constructor` | indexer/src/indexer.rs:22-28 | the first sync is due one interval after the start; the index is the one given to `run`; the trace is empty; the storage handle is well formed |
| `BombasticIndexer.Indexer.Classify` | indexer/src/indexer.rs:35-42 | a missing payload and an undecodable payload are recognised exactly; an ignored event is not a PUT; a PUT left without a key is neither the index key nor under the document prefix |
| `BombasticIndexer.Indexer.EntryFor` | indexer/src/indexer.rs:46-51 | an entry exists exactly when the purl can be read; it holds that purl, the key, and a 64-character hash text that reads back as the SHA-256 digest of the document |
| `BombasticIndexer.Indexer.Process` | indexer/src/indexer.rs:35-63 | only a document is fetched, once per pass; a failed fetch inserts nothing; a fetched document with a readable purl is inserted as (purl, hex of sha256, key) and does not panic; one with an unreadable purl panics after the fetch, with no insert; the index gains at most the one entry whose insert succeeded |
| `BombasticIndexer.Indexer.EventLoop` | indexer/src/indexer.rs:34-73 | a committed branch ended at one of the passes that were run |
| `BombasticIndexer.Indexer.RunPass` | indexer/src/indexer.rs:35-63 | the body of the inner loop makes exactly the calls and index changes of `Process`, and breaks exactly on the index key |
| `BombasticIndexer.Indexer.HandleEvent` | indexer/src/indexer.rs:33-73 | the event branch with its commit-retry loop makes exactly the calls, index changes and outcome of `EventLoop`; the schedule is untouched |
| `BombasticIndexer.Indexer.Sync` | indexer/src/indexer.rs:78-93 | `put_index` of the snapshot happens only when the snapshot succeeds; `nextSync` becomes now + interval whatever happens and never moves back; the index is unchanged |
| `BombasticIndexer.Indexer.Step` | indexer/src/indexer.rs:29-95 | a poll error changes nothing; a message runs the event branch; the timer runs the sync branch, whose calls are the snapshot and, when it succeeds, the `put_index` of the serialized index |
| `BombasticIndexer.Indexer.PassInsertsDocumentEntry` | indexer/src/indexer.rs:43-51 | a pass inserts only (purl, hex of sha256 of the fetched bytes, stripped key), with a 64-character hash; a pass that fetches a document with a readable purl does insert that entry |
| `BombasticIndexer.Indexer.InsertsAreTheDocumentEntry` | indexer/src/indexer.rs:42-55 | across all passes every insert is of that same entry for the notified document, the bucket being unchanged while the message is handled |
| `BombasticIndexer.Indexer.OneInsertPerFetchedDocument` | indexer/src/indexer.rs:34-73 | every pass whose fetch returns the document makes exactly one insert, except the pass that panics |
| `BombasticIndexer.Indexer.RetryInsertsAgain` | indexer/src/indexer.rs:34-73 | a stored document whose first commit fails is fetched twice and `insert` is called twice with the same entry before the second commit succeeds; the modelled index, a sequence of inserted entries, receives it twice |
| `BombasticIndexer.Indexer.IndexGrowsByInserts` | indexer/src/indexer.rs:51-54 | the index grows by exactly the entries whose insert succeeded, in order; failed inserts change nothing |
| `BombasticIndexer.Indexer.OneCommitPerPass` | indexer/src/indexer.rs:34-72 | in a branch that commits or is still retrying, every pass attempts exactly one commit; a pass that panics stops before its commit |
| `BombasticIndexer.Indexer.OneFetchPerPass` | indexer/src/indexer.rs:34-73 | a document is fetched once per pass, so a failed commit re-runs the fetch; other messages are never fetched or indexed |
| `BombasticIndexer.Indexer.EndsOnFirstSuccessfulCommit` | indexer/src/indexer.rs:64-72 | the branch commits at the first pass whose commit succeeds, and every earlier commit failed |
| `BombasticIndexer.Indexer.CommitIsTheLastCall` | indexer/src/indexer.rs:64-68 | a committed branch's last call is the successful commit |
| `BombasticIndexer.Indexer.RetriesWhileCommitFails` | indexer/src/indexer.rs:34-73 | the branch is still retrying only if every commit failed; it ends without a commit only on the index key or on the panic of a stored document whose purl cannot be read |
| `BombasticIndexer.Indexer.FilteredMessagesAreOnlyCommitted` | indexer/src/indexer.rs:35-64 | no payload, an undecodable payload, a non-PUT event or a key without the document prefix: no fetch, no insert, one commit per pass |
| `BombasticIndexer.Indexer.SelfWriteIsNeverCommitted` | indexer/src/indexer.rs:39-40 | a PUT of the index key makes no call at all, not even a commit |
| `BombasticIndexer.Indexer.ClassifyDocumentIff` | indexer/src/indexer.rs:35-42 | a message reaches the fetch exactly when it decodes to a PUT of bucket name + "/data/sbom/" + key |
| `BombasticIndexer.Indexer.ClassifySelfWriteIff` | indexer/src/indexer.rs:36-40 | a message takes the `break` exactly when it decodes to a PUT of the index key |
| `BombasticIndexer.Indexer.IndexKeyIsNeverFetched` | indexer/src/indexer.rs:38-42 | a notification of the index key is never fetched or indexed, whatever its event name |
| `BombasticIndexer.Indexer.DocumentIsIndexedOnce` | indexer/src/indexer.rs:43-67 | a PUT of a stored document, when everything answers, is fetched, inserted with its purl, hash text and key, and committed once |

## Left out

- S3 transport and credentials are not modelled. Every bucket call takes a `reachable` flag instead. `Config::new_minio_test` and the `Display`/`From` impls of `Error` (storage/src/lib.rs:15-69) are not modelled either.
- BombasticStorage.NewStorage: every failure of `Bucket::new` is the single error `S3(Rejected)`. Credential and region errors are not distinguished.
- The `select` race between `event_bus.poll()` and `sleep_until` (indexer/src/indexer.rs:30-32) is not modelled. Which branch fires is the input `Wake`.
- Async execution and cancellation are not modelled. Only one iteration of the outer `loop` is modelled, as `Step`.
- BombasticIndexer.Indexer.Sync: requires `nextSync <= now`. This is what `sleep_until(next_sync)` guarantees when the timer wins. Time is an integer, not an `Instant`.
- BombasticIndexer.Indexer.HandleEvent: the source retries a failed commit without bound. The model is given at least one `Attempt` and runs at most one pass per element of `attempts`. If every commit fails it stops with `StillRetrying`, a finite prefix of that endless retry.
- BombasticIndexer.Indexer.HandleEvent: the bucket is not written by anyone else while one message is handled. Every pass's fetch reads the same contents, so every retry inserts the same entry. A document replaced between two passes is not modelled.
- BombasticIndexer.Indexer.Step: a `Handled(Panicked)` outcome stands for the panic that unwinds `run`. The model does not forbid stepping the indexer again afterwards, although the source runs nothing after a panic. Likewise, after `Handled(StillRetrying)` the model lets the next step be the timer, whereas the source is still inside the retry loop: while commits keep failing, the timer branch never runs and no snapshot is written.
- The internals of serde JSON decoding, the purl lookup and SHA-256 are not modelled. They are the functions `decode`, `purlOf` and `sha256`. Only the hex formatting of the digest is modelled.
- The `Index` type's internals are not modelled. Its contents are the sequence of entries inserted, and a failed insert leaves it unchanged. Upsert and collision handling are not modelled. A snapshot is `serialize` of that sequence.
- `tracing` logging is not modelled, including the warning for a key without the document prefix.
- spog/ui/src/pages/sbom/mod.rs is not part of this model: it is presentation only.
