/** The synchronisation loop of indexer/src/indexer.rs, one iteration at a time.
    The state of `run` (the schedule `nextSync`, the index, the storage) lives in
    an `Indexer` object; the calls it makes to its collaborators are appended to
    `trace`. Which branch of the `select` fires, and whether each fetch, insert,
    commit, snapshot and snapshot write succeeds, are inputs of a step. JSON
    decoding, purl extraction, SHA-256 and index serialisation are deterministic
    functions given to the constructor. */
module BombasticIndexer {
  import opened Wrappers
  import opened HexFormat
  import opened BombasticStorage

  /** A decoded bucket notification. */
  datatype StorageEvent = StorageEvent(eventName: string, key: string)

  const PUT_EVENT: string := "s3:ObjectCreated:Put"

  /** A message polled from the event bus. */
  datatype Message = Message(payload: Option<Bytes>)

  /** An index entry: package URL, hash text of the document, document key. */
  datatype Entry = Entry(purl: string, hash: string, key: string)

  /** A call to a collaborator, with whether it succeeded. */
  datatype Call =
    | Fetch(key: string, ok: bool)
    | Insert(entry: Entry, ok: bool)
    | Commit(ok: bool)
    | Snapshot(ok: bool)
    | PutIndex(data: Bytes, ok: bool)

  /** What the environment answers during one pass of the inner loop. */
  datatype Attempt = Attempt(storeReachable: bool, insertOk: bool, commitOk: bool)

  /** How a message is routed by the filters at the top of the inner loop. */
  datatype Disposition =
    | NoPayload
    | Undecodable
    | Ignored(event: StorageEvent)
    | SelfWrite
    | NoPrefix(event: StorageEvent)
    | Document(key: string)

  /** The calls and index additions of one pass before its commit; `panicked`
      when an `unwrap` failed. */
  datatype Effect = Effect(calls: seq<Call>, added: seq<Entry>, panicked: bool)

  /** How the event branch ended: committed at pass `passes`; left by `break` on
      the index key; stopped by a panic; or still retrying its commit when the
      given passes ran out. */
  datatype EventOutcome = Committed(passes: nat) | SelfNotification | Panicked | StillRetrying

  datatype Run = Run(calls: seq<Call>, added: seq<Entry>, outcome: EventOutcome)

  /** Which branch of the `select` completes, with the environment's answers. */
  datatype Wake =
    | PollFailed
    | Delivered(message: Message, attempts: seq<Attempt>)
    | TimerFired(now: int, snapshotOk: bool, storeReachable: bool)

  datatype StepOutcome = PollError | Handled(event: EventOutcome) | Synced(persisted: bool)

  function FetchCount(calls: seq<Call>): nat
  {
    if calls == [] then 0 else (if calls[0].Fetch? then 1 else 0) + FetchCount(calls[1..])
  }

  function CommitCount(calls: seq<Call>): nat
  {
    if calls == [] then 0 else (if calls[0].Commit? then 1 else 0) + CommitCount(calls[1..])
  }

  function InsertCount(calls: seq<Call>): nat
  {
    if calls == [] then 0 else (if calls[0].Insert? then 1 else 0) + InsertCount(calls[1..])
  }

  /** The number of fetches that returned the document. */
  function FetchedCount(calls: seq<Call>): nat
  {
    if calls == [] then 0 else (if calls[0].Fetch? && calls[0].ok then 1 else 0) + FetchedCount(calls[1..])
  }

  /** The entries of the successful inserts, in order. */
  function Inserted(calls: seq<Call>): seq<Entry>
  {
    if calls == [] then []
    else (if calls[0].Insert? && calls[0].ok then [calls[0].entry] else []) + Inserted(calls[1..])
  }

  lemma {:induction false} FetchCountAppend(a: seq<Call>, b: seq<Call>)
    ensures FetchCount(a + b) == FetchCount(a) + FetchCount(b)
  {
    if a == [] {
      assert a + b == b;
    } else {
      assert (a + b)[0] == a[0] && (a + b)[1..] == a[1..] + b;
      FetchCountAppend(a[1..], b);
    }
  }

  lemma {:induction false} CommitCountAppend(a: seq<Call>, b: seq<Call>)
    ensures CommitCount(a + b) == CommitCount(a) + CommitCount(b)
  {
    if a == [] {
      assert a + b == b;
    } else {
      assert (a + b)[0] == a[0] && (a + b)[1..] == a[1..] + b;
      CommitCountAppend(a[1..], b);
    }
  }

  lemma {:induction false} InsertedAppend(a: seq<Call>, b: seq<Call>)
    ensures Inserted(a + b) == Inserted(a) + Inserted(b)
  {
    if a == [] {
      assert a + b == b;
    } else {
      assert (a + b)[0] == a[0] && (a + b)[1..] == a[1..] + b;
      InsertedAppend(a[1..], b);
    }
  }

  lemma {:induction false} InsertAndFetchedCountAppend(a: seq<Call>, b: seq<Call>)
    ensures InsertCount(a + b) == InsertCount(a) + InsertCount(b)
    ensures FetchedCount(a + b) == FetchedCount(a) + FetchedCount(b)
  {
    if a == [] {
      assert a + b == b;
    } else {
      assert (a + b)[0] == a[0] && (a + b)[1..] == a[1..] + b;
      InsertAndFetchedCountAppend(a[1..], b);
    }
  }

  lemma CountsDistribute(a: seq<Call>, b: seq<Call>)
    ensures FetchCount(a + b) == FetchCount(a) + FetchCount(b)
    ensures CommitCount(a + b) == CommitCount(a) + CommitCount(b)
    ensures Inserted(a + b) == Inserted(a) + Inserted(b)
  {
    FetchCountAppend(a, b);
    CommitCountAppend(a, b);
    InsertedAppend(a, b);
  }

  lemma Regroup<T>(a: seq<T>, b: seq<T>, c: seq<T>)
    ensures a + (b + c) == (a + b) + c
  {
  }

  class Indexer {
    const storage: Storage
    const syncInterval: nat
    /** `serde_json::from_slice::<StorageEvent>` */
    const decode: Bytes -> Option<StorageEvent>
    /** Parse the document and read `metadata.component.purl` as a string. */
    const purlOf: Bytes -> Option<string>
    const sha256: Bytes -> Digest
    /** `Index::snapshot` on a successful call. */
    const serialize: seq<Entry> -> Bytes

    var nextSync: int
    /** The entries inserted into the index, in order. */
    var index: seq<Entry>
    /** The calls made to collaborators so far. */
    var trace: seq<Call>

    ghost predicate Valid()
    {
      storage.Valid()
    }

    /** The start of `run`: the first sync is due one interval from `start`. */
    constructor (index: seq<Entry>, storage: Storage, syncInterval: nat, start: int,
                 decode: Bytes -> Option<StorageEvent>, purlOf: Bytes -> Option<string>,
                 sha256: Bytes -> Digest, serialize: seq<Entry> -> Bytes)
      requires storage.Valid()
      ensures Valid()
      ensures this.storage == storage && this.syncInterval == syncInterval
      ensures this.decode == decode && this.purlOf == purlOf
      ensures this.sha256 == sha256 && this.serialize == serialize
      ensures nextSync == start + syncInterval && this.index == index && trace == []
    {
      this.storage := storage;
      this.syncInterval := syncInterval;
      this.decode := decode;
      this.purlOf := purlOf;
      this.sha256 := sha256;
      this.serialize := serialize;
      this.nextSync := start + syncInterval;
      this.index := index;
      this.trace := [];
    }

    /** The filters at the head of the inner loop. */
    function Classify(msg: Message): (d: Disposition)
      ensures d.NoPayload? <==> msg.payload.None?
      ensures d.Undecodable? <==> msg.payload.Some? && decode(msg.payload.value).None?
      ensures d.Ignored? ==> d.event.eventName != PUT_EVENT
      ensures d.NoPrefix? ==>
        && d.event.eventName == PUT_EVENT
        && !storage.IsIndex(d.event.key) && storage.ExtractKey(d.event.key).None?
    {
      if msg.payload.None? then NoPayload
      else match decode(msg.payload.value)
        case None => Undecodable
        case Some(event) =>
          if event.eventName != PUT_EVENT then Ignored(event)
          else if storage.IsIndex(event.key) then SelfWrite
          else match storage.ExtractKey(event.key)
            case None => NoPrefix(event)
            case Some(key) => Document(key)
    }

    /** The entry a fetched document yields, when its purl can be read. */
    function EntryFor(data: Bytes, key: string): (r: Option<Entry>)
      ensures r.Some? <==> purlOf(data).Some?
      ensures r.Some? ==>
        && r.value.purl == purlOf(data).value && r.value.key == key
        && |r.value.hash| == 64 && ParseHex(r.value.hash) == Some(sha256(data))
    {
      match purlOf(data)
      case None => None
      case Some(purl) =>
        HexRoundTrip(sha256(data));
        Some(Entry(purl, LowerHex(sha256(data)), key))
    }

    /** One pass of the inner loop up to its commit. */
    function Process(d: Disposition, a: Attempt, objects: map<string, Bytes>): (e: Effect)
      ensures !d.Document? ==> e == Effect([], [], false)
      ensures d.Document? ==>
        && 1 <= |e.calls| <= 2
        && e.calls[0] == Fetch(d.key, ObjectAt(objects, DocumentPath(d.key), a.storeReachable).Success?)
      ensures e.added == Inserted(e.calls) && FetchCount(e.calls) <= 1 && CommitCount(e.calls) == 0
      ensures e.added != [] ==> a.insertOk && a.storeReachable
      ensures e.panicked ==> d.Document?
      ensures d.Document? && ObjectAt(objects, DocumentPath(d.key), a.storeReachable).Failure? ==>
        e == Effect([Fetch(d.key, false)], [], false)
      ensures d.Document? && ObjectAt(objects, DocumentPath(d.key), a.storeReachable).Success? ==>
        var data := objects[DocumentPath(d.key)];
        if purlOf(data).None? then e == Effect([Fetch(d.key, true)], [], true)
        else
          && !e.panicked
          && e.calls == [Fetch(d.key, true), Insert(Entry(purlOf(data).value, LowerHex(sha256(data)), d.key), a.insertOk)]
    {
      if !d.Document? then Effect([], [], false)
      else
        var fetched := ObjectAt(objects, DocumentPath(d.key), a.storeReachable);
        if fetched.Failure? then Effect([Fetch(d.key, false)], [], false)
        else match EntryFor(fetched.value, d.key)
          case None => Effect([Fetch(d.key, true)], [], true)
          case Some(entry) =>
            var calls := [Fetch(d.key, true), Insert(entry, a.insertOk)];
            assert calls[1..][1..] == [];
            assert Inserted(calls[1..]) == if a.insertOk then [entry] else [];
            assert FetchCount(calls[1..]) == 0 && CommitCount(calls[1..]) == 0;
            Effect(calls, if a.insertOk then [entry] else [], false)
    }

    /** The event branch from pass `i` on: passes are repeated while their
        commit fails; `attempts` holds the environment's answers for each pass,
        so at most |attempts| passes are run. */
    function EventLoop(d: Disposition, attempts: seq<Attempt>, i: nat, objects: map<string, Bytes>): (r: Run)
      requires i <= |attempts|
      ensures r.outcome.Committed? ==> i < r.outcome.passes <= |attempts|
      decreases |attempts| - i
    {
      if i == |attempts| then Run([], [], StillRetrying)
      else if d.SelfWrite? then Run([], [], SelfNotification)
      else
        var e := Process(d, attempts[i], objects);
        if e.panicked then Run(e.calls, e.added, Panicked)
        else if attempts[i].commitOk then Run(e.calls + [Commit(true)], e.added, Committed(i + 1))
        else
          var rest := EventLoop(d, attempts, i + 1, objects);
          Run(e.calls + [Commit(false)] + rest.calls, e.added + rest.added, rest.outcome)
    }

    /** One pass of the body of the inner loop, up to the commit: decode,
        filter, fetch, hash and insert. `selfWrite` is the `break` on the index
        key; `panicked` is a failed `unwrap` on the fetched document. */
    method RunPass(msg: Message, a: Attempt) returns (selfWrite: bool, panicked: bool)
      modifies this
      ensures selfWrite <==> Classify(msg).SelfWrite?
      ensures var e := Process(Classify(msg), a, storage.objects);
        && trace == old(trace) + e.calls && index == old(index) + e.added && panicked == e.panicked
      ensures nextSync == old(nextSync)
    {
      selfWrite, panicked := false, false;
      if msg.payload.Some? {
        match decode(msg.payload.value)
        case Some(event) =>
          if event.eventName == PUT_EVENT {
            if storage.IsIndex(event.key) {
              selfWrite := true;
              return;
            }
            match storage.ExtractKey(event.key)
            case Some(key) =>
              var fetched := storage.Get(key, a.storeReachable);
              trace := trace + [Fetch(key, fetched.Success?)];
              if fetched.Success? {
                var data := fetched.value;
                match purlOf(data)
                case None =>
                  panicked := true;
                case Some(purl) =>
                  var entry := Entry(purl, LowerHex(sha256(data)), key);
                  trace := trace + [Insert(entry, a.insertOk)];
                  if a.insertOk {
                    index := index + [entry];
                  }
              }
            case None =>
          }
        case None =>
      }
    }

    /** The `Ok(event) => loop { ... }` arm: each pass runs the whole body and
        then commits; a failed commit starts the next pass. */
    method HandleEvent(msg: Message, attempts: seq<Attempt>) returns (out: EventOutcome)
      requires attempts != []
      modifies this
      ensures var r := EventLoop(Classify(msg), attempts, 0, storage.objects);
        && out == r.outcome && trace == old(trace) + r.calls && index == old(index) + r.added
      ensures nextSync == old(nextSync)
    {
      ghost var d := Classify(msg);
      ghost var objects := storage.objects;
      ghost var whole := EventLoop(d, attempts, 0, objects);
      var i := 0;
      while i < |attempts|
        invariant 0 <= i <= |attempts|
        invariant nextSync == old(nextSync)
        invariant trace + EventLoop(d, attempts, i, objects).calls == old(trace) + whole.calls
        invariant index + EventLoop(d, attempts, i, objects).added == old(index) + whole.added
        invariant whole.outcome == EventLoop(d, attempts, i, objects).outcome
        decreases |attempts| - i
      {
        var a := attempts[i];
        ghost var e := Process(d, a, objects);
        ghost var next := EventLoop(d, attempts, i + 1, objects);
        ghost var trace0, index0 := trace, index;
        var selfWrite, panicked := RunPass(msg, a);
        if selfWrite {
          assert trace0 + [] == trace0 && index0 + [] == index0;
          out := SelfNotification;
          return;
        }
        if panicked {
          out := Panicked;
          return;
        }
        trace := trace + [Commit(a.commitOk)];
        if a.commitOk {
          out := Committed(i + 1);
          return;
        }
        Regroup(trace0, e.calls + [Commit(false)], next.calls);
        Regroup(trace0, e.calls, [Commit(false)]);
        Regroup(index0, e.added, next.added);
        i := i + 1;
      }
      assert trace + [] == trace && index + [] == index;
      out := StillRetrying;
    }

    /** Every entry a pass tries to insert is built from the document the
        notification names: its purl, the 64-character hash text of its bytes,
        and the stripped key. Conversely, a pass that fetches a document whose
        purl can be read does insert that entry. */
    lemma PassInsertsDocumentEntry(d: Disposition, a: Attempt, objects: map<string, Bytes>)
      ensures var e := Process(d, a, objects);
        forall c :: c in e.calls && c.Insert? ==>
          && d.Document? && DocumentPath(d.key) in objects
          && EntryFor(objects[DocumentPath(d.key)], d.key) == Some(c.entry)
          && c.entry.key == d.key && |c.entry.hash| == 64
      ensures var e := Process(d, a, objects);
        d.Document? && a.storeReachable && DocumentPath(d.key) in objects
          && EntryFor(objects[DocumentPath(d.key)], d.key).Some? ==>
          && Insert(EntryFor(objects[DocumentPath(d.key)], d.key).value, a.insertOk) in e.calls
          && !e.panicked
    {
    }

    /** Over all passes, every attempted insert is of that same entry. */
    lemma {:induction false} InsertsAreTheDocumentEntry(d: Disposition, attempts: seq<Attempt>, i: nat, objects: map<string, Bytes>)
      requires i <= |attempts|
      ensures var r := EventLoop(d, attempts, i, objects);
        forall c :: c in r.calls && c.Insert? ==>
          && d.Document? && DocumentPath(d.key) in objects
          && EntryFor(objects[DocumentPath(d.key)], d.key) == Some(c.entry)
          && c.entry.key == d.key && |c.entry.hash| == 64
      decreases |attempts| - i
    {
      if i < |attempts| && !d.SelfWrite? {
        PassInsertsDocumentEntry(d, attempts[i], objects);
        InsertsAreTheDocumentEntry(d, attempts, i + 1, objects);
      }
    }

    /** The index gains exactly the entries of the inserts that succeeded, in order. */
    lemma {:induction false} IndexGrowsByInserts(d: Disposition, attempts: seq<Attempt>, i: nat, objects: map<string, Bytes>)
      requires i <= |attempts|
      ensures var r := EventLoop(d, attempts, i, objects);
        r.added == Inserted(r.calls)
      decreases |attempts| - i
    {
      if i < |attempts| && !d.SelfWrite? {
        var e := Process(d, attempts[i], objects);
        var rest := EventLoop(d, attempts, i + 1, objects);
        IndexGrowsByInserts(d, attempts, i + 1, objects);
        CountsDistribute(e.calls, [Commit(attempts[i].commitOk)]);
        CountsDistribute(e.calls + [Commit(attempts[i].commitOk)], rest.calls);
      }
    }

    /** The effect of one pass followed by its commit, as counted. */
    lemma PassCounts(d: Disposition, a: Attempt, objects: map<string, Bytes>, rest: seq<Call>)
      ensures var e := Process(d, a, objects);
        var calls := e.calls + [Commit(a.commitOk)] + rest;
        && CommitCount(calls) == 1 + CommitCount(rest)
        && FetchCount(calls) == FetchCount(e.calls) + FetchCount(rest)
        && FetchCount(e.calls) == (if d.Document? then 1 else 0)
    {
      var e := Process(d, a, objects);
      CountsDistribute(e.calls, [Commit(a.commitOk)]);
      CountsDistribute(e.calls + [Commit(a.commitOk)], rest);
      assert FetchCount([Commit(a.commitOk)]) == 0;
      assert CommitCount([Commit(a.commitOk)]) == 1;
      if d.Document? {
        assert e.calls[0].Fetch?;
        assert FetchCount(e.calls) == 1 + FetchCount(e.calls[1..]);
      }
    }

    /** In a branch that commits or is still retrying, every pass attempts
        exactly one commit. (A panicking pass stops before its commit.) */
    lemma {:induction false} OneCommitPerPass(d: Disposition, attempts: seq<Attempt>, i: nat, objects: map<string, Bytes>)
      requires i <= |attempts|
      ensures var r := EventLoop(d, attempts, i, objects);
        && (r.outcome.Committed? ==> CommitCount(r.calls) == r.outcome.passes - i)
        && (r.outcome.StillRetrying? ==> CommitCount(r.calls) == |attempts| - i)
      decreases |attempts| - i
    {
      if i < |attempts| && !d.SelfWrite? {
        var e := Process(d, attempts[i], objects);
        var rest := EventLoop(d, attempts, i + 1, objects);
        if !e.panicked {
          OneCommitPerPass(d, attempts, i + 1, objects);
          PassCounts(d, attempts[i], objects, if attempts[i].commitOk then [] else rest.calls);
          assert e.calls + [Commit(true)] == e.calls + [Commit(true)] + [];
        }
      }
    }

    /** Each pass over a document fetches it once, so a failed commit repeats
        the fetch; nothing but a document is fetched or indexed. */
    lemma {:induction false} OneFetchPerPass(d: Disposition, attempts: seq<Attempt>, i: nat, objects: map<string, Bytes>)
      requires i <= |attempts|
      ensures var r := EventLoop(d, attempts, i, objects);
        && (r.outcome.Panicked? ==> d.Document? && FetchCount(r.calls) == CommitCount(r.calls) + 1)
        && (d.Document? && !r.outcome.Panicked? ==> FetchCount(r.calls) == CommitCount(r.calls))
        && (!d.Document? ==> FetchCount(r.calls) == 0 && r.added == [])
      decreases |attempts| - i
    {
      if i < |attempts| && !d.SelfWrite? {
        var e := Process(d, attempts[i], objects);
        var rest := EventLoop(d, attempts, i + 1, objects);
        if e.panicked {
          assert e.calls == [Fetch(d.key, true)];
        } else {
          OneFetchPerPass(d, attempts, i + 1, objects);
          PassCounts(d, attempts[i], objects, if attempts[i].commitOk then [] else rest.calls);
          assert e.calls + [Commit(true)] == e.calls + [Commit(true)] + [];
        }
      }
    }

    /** The branch ends on the first successful commit and only there: every
        earlier pass's commit failed. */
    lemma {:induction false} EndsOnFirstSuccessfulCommit(d: Disposition, attempts: seq<Attempt>, i: nat, objects: map<string, Bytes>)
      requires i <= |attempts|
      ensures var r := EventLoop(d, attempts, i, objects);
        r.outcome.Committed? ==>
          && attempts[r.outcome.passes - 1].commitOk
          && forall j :: i <= j < r.outcome.passes - 1 ==> !attempts[j].commitOk
      decreases |attempts| - i
    {
      if i < |attempts| && !d.SelfWrite? && !attempts[i].commitOk {
        EndsOnFirstSuccessfulCommit(d, attempts, i + 1, objects);
      }
    }

    /** A committed branch's last call is the successful commit. */
    lemma {:induction false} CommitIsTheLastCall(d: Disposition, attempts: seq<Attempt>, i: nat, objects: map<string, Bytes>)
      requires i <= |attempts|
      ensures var r := EventLoop(d, attempts, i, objects);
        r.outcome.Committed? ==> r.calls != [] && r.calls[|r.calls| - 1] == Commit(true)
      decreases |attempts| - i
    {
      if i < |attempts| && !d.SelfWrite? && !attempts[i].commitOk {
        var e := Process(d, attempts[i], objects);
        var rest := EventLoop(d, attempts, i + 1, objects);
        CommitIsTheLastCall(d, attempts, i + 1, objects);
        if !e.panicked && rest.outcome.Committed? {
          var calls := e.calls + [Commit(false)] + rest.calls;
          assert calls[|calls| - 1] == rest.calls[|rest.calls| - 1];
        }
      }
    }

    /** While commits fail the branch goes on: it is still retrying only if
        every commit failed. It ends without a commit only on the index-key
        `break`, or on the panic of a stored document whose purl cannot be read. */
    lemma {:induction false} RetriesWhileCommitFails(d: Disposition, attempts: seq<Attempt>, i: nat, objects: map<string, Bytes>)
      requires i <= |attempts|
      ensures var r := EventLoop(d, attempts, i, objects);
        && (r.outcome.StillRetrying? ==> forall j :: i <= j < |attempts| ==> !attempts[j].commitOk)
        && (r.outcome == SelfNotification <==> d.SelfWrite? && i < |attempts|)
        && (r.outcome.Panicked? ==>
              && d.Document? && DocumentPath(d.key) in objects
              && purlOf(objects[DocumentPath(d.key)]).None?)
      decreases |attempts| - i
    {
      if i < |attempts| && !d.SelfWrite? {
        RetriesWhileCommitFails(d, attempts, i + 1, objects);
      }
    }

    /** A message that is not a document notification is only committed:
        no fetch, no insert, and a commit on every pass. */
    lemma {:induction false} FilteredMessagesAreOnlyCommitted(d: Disposition, attempts: seq<Attempt>, i: nat, objects: map<string, Bytes>)
      requires i <= |attempts|
      requires !d.Document? && !d.SelfWrite?
      ensures var r := EventLoop(d, attempts, i, objects);
        && (forall c :: c in r.calls ==> c.Commit?)
        && r.added == []
        && |r.calls| == (if r.outcome.Committed? then r.outcome.passes - i else |attempts| - i)
        && (i < |attempts| ==> r.calls != [])
        && !r.outcome.Panicked?
      decreases |attempts| - i
    {
      if i < |attempts| {
        FilteredMessagesAreOnlyCommitted(d, attempts, i + 1, objects);
      }
    }

    /** The index-key notification is left by `break`: nothing is fetched,
        inserted or committed. */
    lemma SelfWriteIsNeverCommitted(attempts: seq<Attempt>, objects: map<string, Bytes>)
      requires attempts != []
      ensures EventLoop(SelfWrite, attempts, 0, objects) == Run([], [], SelfNotification)
    {
    }

    /** A message is routed to a document exactly when it decodes to a PUT
        whose key is the document prefix followed by that document key. */
    lemma ClassifyDocumentIff(msg: Message, key: string)
      requires Valid()
      ensures Classify(msg) == Document(key) <==>
        && msg.payload.Some? && decode(msg.payload.value).Some?
        && decode(msg.payload.value).value.eventName == PUT_EVENT
        && decode(msg.payload.value).value.key == storage.bucketName + DocumentPath(key)
    {
      if msg.payload.Some? && decode(msg.payload.value).Some? {
        var event := decode(msg.payload.value).value;
        storage.NotificationNamesObject(event.key, key);
        if storage.IsIndex(event.key) {
          storage.IndexKeyIsNotADocument(event.key);
        }
      }
    }

    /** A message is treated as the service's own snapshot write exactly when
        it decodes to a PUT of the snapshot key. */
    lemma ClassifySelfWriteIff(msg: Message)
      requires Valid()
      ensures Classify(msg) == SelfWrite <==>
        && msg.payload.Some? && decode(msg.payload.value).Some?
        && decode(msg.payload.value).value.eventName == PUT_EVENT
        && decode(msg.payload.value).value.key == storage.bucketName + INDEX_PATH
    {
    }

    /** A notification of the snapshot key never causes a fetch or an insert,
        whatever its event name. */
    lemma IndexKeyIsNeverFetched(msg: Message, attempts: seq<Attempt>, objects: map<string, Bytes>)
      requires Valid()
      requires msg.payload.Some? && decode(msg.payload.value).Some?
      requires storage.IsIndex(decode(msg.payload.value).value.key)
      ensures var r := EventLoop(Classify(msg), attempts, 0, objects);
        FetchCount(r.calls) == 0 && r.added == []
    {
      OneFetchPerPass(Classify(msg), attempts, 0, objects);
    }

    /** A PUT of a stored document with a readable purl, when the store, the
        index and the bus all answer, is fetched, inserted and committed once. */
    lemma DocumentIsIndexedOnce(key: string, attempts: seq<Attempt>, objects: map<string, Bytes>)
      requires attempts != [] && attempts[0] == Attempt(true, true, true)
      requires DocumentPath(key) in objects && purlOf(objects[DocumentPath(key)]).Some?
      ensures var data := objects[DocumentPath(key)];
        var entry := Entry(purlOf(data).value, LowerHex(sha256(data)), key);
        EventLoop(Document(key), attempts, 0, objects)
          == Run([Fetch(key, true), Insert(entry, true), Commit(true)], [entry], Committed(1))
    {
    }

    /** Each pass whose fetch returns the document inserts it exactly once,
        unless its purl cannot be read, which panics that pass. */
    lemma {:induction false} OneInsertPerFetchedDocument(d: Disposition, attempts: seq<Attempt>, i: nat, objects: map<string, Bytes>)
      requires i <= |attempts|
      ensures var r := EventLoop(d, attempts, i, objects);
        && (!r.outcome.Panicked? ==> InsertCount(r.calls) == FetchedCount(r.calls))
        && (r.outcome.Panicked? ==> InsertCount(r.calls) + 1 == FetchedCount(r.calls))
      decreases |attempts| - i
    {
      if i < |attempts| && !d.SelfWrite? {
        var e := Process(d, attempts[i], objects);
        var rest := EventLoop(d, attempts, i + 1, objects);
        OneInsertPerFetchedDocument(d, attempts, i + 1, objects);
        var tail := if e.panicked || attempts[i].commitOk then [] else rest.calls;
        var commit := [Commit(attempts[i].commitOk)];
        InsertAndFetchedCountAppend(e.calls, commit);
        InsertAndFetchedCountAppend(e.calls + commit, tail);
        assert InsertCount(commit) == 0 && FetchedCount(commit) == 0;
        if e.panicked {
          assert e.calls == [Fetch(d.key, true)];
        } else if d.Document? && ObjectAt(objects, DocumentPath(d.key), attempts[i].storeReachable).Success? {
          assert e.calls[1..][1..] == [];
          assert InsertCount(e.calls) == 1 && FetchedCount(e.calls) == 1;
        }
        assert e.calls + commit == e.calls + commit + [];
      }
    }

    /** A failed commit repeats the insert: a stored document whose first
        commit fails is fetched and inserted again before the second commit,
        so `insert` is called twice with the same entry. */
    lemma RetryInsertsAgain(key: string, objects: map<string, Bytes>)
      requires DocumentPath(key) in objects && purlOf(objects[DocumentPath(key)]).Some?
      ensures var data := objects[DocumentPath(key)];
        var entry := Entry(purlOf(data).value, LowerHex(sha256(data)), key);
        var r := EventLoop(Document(key), [Attempt(true, true, false), Attempt(true, true, true)], 0, objects);
        && r.calls == [Fetch(key, true), Insert(entry, true), Commit(false), Fetch(key, true), Insert(entry, true), Commit(true)]
        && r.added == [entry, entry]
        && r.outcome == Committed(2)
    {
      var attempts := [Attempt(true, true, false), Attempt(true, true, true)];
      var data := objects[DocumentPath(key)];
      var entry := Entry(purlOf(data).value, LowerHex(sha256(data)), key);
      var second := EventLoop(Document(key), attempts, 1, objects);
      assert second == Run([Fetch(key, true), Insert(entry, true), Commit(true)], [entry], Committed(2));
    }

    /** The timer arm: snapshot the index, write it to the snapshot slot, and
        reschedule one interval from now whatever happened. */
    method Sync(now: int, snapshotOk: bool, storeReachable: bool) returns (persisted: bool)
      requires nextSync <= now
      modifies this, storage
      ensures nextSync == now + syncInterval && old(nextSync) <= nextSync
      ensures index == old(index)
      ensures persisted <==> snapshotOk && storeReachable
      ensures trace == old(trace) + if snapshotOk then [Snapshot(true), PutIndex(serialize(index), storeReachable)]
                                    else [Snapshot(false)]
      ensures storage.objects == if persisted then old(storage.objects)[INDEX_PATH := serialize(index)]
                                 else old(storage.objects)
    {
      trace := trace + [Snapshot(snapshotOk)];
      persisted := false;
      if snapshotOk {
        var data := serialize(index);
        var written := storage.PutIndex(data, storeReachable);
        trace := trace + [PutIndex(data, written.Success?)];
        persisted := written.Success?;
      }
      nextSync := now + syncInterval;
    }

    /** One iteration of the outer loop of `run`. A `Handled(Panicked)` outcome
        stands for the panic that unwinds `run`: no further step belongs to that
        run, although nothing here stops a caller from stepping again. */
    method Step(wake: Wake) returns (out: StepOutcome)
      requires wake.TimerFired? ==> nextSync <= wake.now
      requires wake.Delivered? ==> wake.attempts != []
      modifies this, storage
      ensures wake.PollFailed? ==>
        && out == PollError
        && nextSync == old(nextSync) && index == old(index) && trace == old(trace)
        && storage.objects == old(storage.objects)
      ensures wake.Delivered? ==>
        var r := EventLoop(Classify(wake.message), wake.attempts, 0, old(storage.objects));
        && out == Handled(r.outcome) && nextSync == old(nextSync)
        && trace == old(trace) + r.calls && index == old(index) + r.added
        && storage.objects == old(storage.objects)
      ensures wake.TimerFired? ==>
        && out.Synced?
        && nextSync == wake.now + syncInterval && old(nextSync) <= nextSync && index == old(index)
        && (out.persisted <==> wake.snapshotOk && wake.storeReachable)
        && trace == old(trace) + (if wake.snapshotOk then [Snapshot(true), PutIndex(serialize(index), wake.storeReachable)]
                                  else [Snapshot(false)])
        && storage.objects == if out.persisted then old(storage.objects)[INDEX_PATH := serialize(index)]
                              else old(storage.objects)
    {
      match wake
      case PollFailed =>
        out := PollError;
      case Delivered(msg, attempts) =>
        var o := HandleEvent(msg, attempts);
        out := Handled(o);
      case TimerFired(now, snapshotOk, storeReachable) =>
        var persisted := Sync(now, snapshotOk, storeReachable);
        out := Synced(persisted);
    }
  }
}
