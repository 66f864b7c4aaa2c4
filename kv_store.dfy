/** The key-value service: the in-memory store, the four request handlers and
    the write-through to data.json. Each handler reads the store, or changes
    it and rewrites the file, under one process-wide lock, so each is one
    atomic step here. */
module KvStore {
  import opened Persistence

  /** The detail of the not-found answer of GET and DELETE. */
  const KeyNotFound: string := "Key not found"

  datatype Request =
    | ListAll
    | Get(key: string)
    | Put(key: string, value: string)
    | Delete(key: string)

  /** What a handler answers. WriteFailed is the exception save_to_disk
      raises when the file cannot be written. */
  datatype Reply =
    | Entries(entries: Mapping)
    | Value(value: string)
    | Status(status: string)
    | NotFound(detail: string)
    | WriteFailed

  datatype State = State(store: Mapping, disk: Disk)

  datatype Served = Served(state: State, reply: Reply)

  /** The file holds exactly what save_to_disk writes for the store. */
  ghost predicate Synced(c: Codec, s: State)
  {
    s.disk == Saved(c, s.store)
  }

  /** A restart (empty store, then the start-up block) gives back the store. */
  predicate Recoverable(c: Codec, s: State)
  {
    Loaded(c, map[], s.disk) == s.store
  }

  /** GET /{key} on a store. */
  function Lookup(store: Mapping, key: string): (r: Reply)
    ensures r.Value? <==> key in store
    ensures key in store ==> r.value == store[key]
    ensures key !in store ==> r == NotFound(KeyNotFound)
  {
    if key in store then Value(store[key]) else NotFound(KeyNotFound)
  }

  /** True when a request changes the store and so rewrites data.json. */
  predicate Writes(store: Mapping, req: Request)
  {
    req.Put? || (req.Delete? && req.key in store)
  }

  /** Memory first, then the file: the new store stays in memory whether or
      not the write succeeds. */
  function Commit(c: Codec, store: Mapping, disk: Disk, writeOk: bool, status: string): Served
  {
    if writeOk then Served(State(store, Saved(c, store)), Status(status))
    else Served(State(store, disk), WriteFailed)
  }

  /** One request served under the lock, given whether the disk write (if any)
      succeeds. */
  function Serve(c: Codec, s: State, req: Request, writeOk: bool): (o: Served)
    // reads leave memory and disk alone
    ensures req.ListAll? || req.Get? ==> o.state == s
    // the memory effect does not depend on the disk write
    ensures req.Put? ==> o.state.store == s.store[req.key := req.value]
    ensures req.Delete? ==> o.state.store == s.store - {req.key}
    // the file is rewritten with the whole new store, or left exactly as it was
    ensures Writes(s.store, req) && writeOk ==> Synced(c, o.state)
    ensures !(Writes(s.store, req) && writeOk) ==> o.state.disk == s.disk
    ensures o.reply == WriteFailed <==> Writes(s.store, req) && !writeOk
    // the answers on the other paths
    ensures req.ListAll? ==> o.reply == Entries(s.store)
    ensures req.Get? ==> o.reply == Lookup(s.store, req.key)
    ensures req.Delete? && req.key !in s.store ==> o.reply == NotFound(KeyNotFound)
    ensures Writes(s.store, req) && writeOk ==> o.reply == Status(if req.Put? then "OK" else "Deleted")
  {
    match req
    case ListAll => Served(s, Entries(s.store))
    case Get(k) => Served(s, Lookup(s.store, k))
    case Put(k, v) => Commit(c, s.store[k := v], s.disk, writeOk, "OK")
    case Delete(k) =>
      if k !in s.store then Served(s, NotFound(KeyNotFound))
      else Commit(c, s.store - {k}, s.disk, writeOk, "Deleted")
  }

  /** PUT twice on one key: GET answers the second value, whatever became of
      the two disk writes. */
  lemma OverwriteWins(c: Codec, s: State, k: string, v1: string, v2: string, ok1: bool, ok2: bool)
    ensures var s1 := Serve(c, s, Put(k, v1), ok1).state;
            var s2 := Serve(c, s1, Put(k, v2), ok2).state;
            Serve(c, s2, Get(k), true).reply == Value(v2)
  {
  }

  /** After DELETE, GET on that key answers not found. */
  lemma DeleteThenGet(c: Codec, s: State, k: string, ok: bool)
    ensures Serve(c, Serve(c, s, Delete(k), ok).state, Get(k), true).reply == NotFound(KeyNotFound)
  {
  }

  /** DELETE undoes a PUT of a key that was absent. */
  lemma DeleteUndoesPut(c: Codec, s: State, k: string, v: string, ok1: bool, ok2: bool)
    requires k !in s.store
    ensures Serve(c, Serve(c, s, Put(k, v), ok1).state, Delete(k), ok2).state.store == s.store
  {
  }

  /** A successful write re-establishes the file after an earlier failed one. */
  lemma FailedWriteHealed(c: Codec, s: State, first: Request, second: Request)
    requires Writes(s.store, first)
    requires Writes(Serve(c, s, first, false).state.store, second)
    ensures Serve(c, s, first, false).state.disk == s.disk
    ensures Synced(c, Serve(c, Serve(c, s, first, false).state, second, true).state)
  {
  }

  /** The stale window: when a write fails, memory holds the new store but a
      restart brings back the store as it was before the request. */
  lemma FailedWriteLostOnRestart(c: Codec, s: State, req: Request)
    requires RoundTrips(c)
    requires Synced(c, s)
    requires Writes(s.store, req)
    ensures Recoverable(c, s)
    ensures Loaded(c, map[], Serve(c, s, req, false).state.disk) == s.store
  {
    ReloadSavedStore(c, s.store);
  }

  /** The store and its snapshot file, as main.py holds them in the module-level
      dict `store` and the file data.json. */
  class KeyValueStore {
    const codec: Codec
    var store: Mapping
    var disk: Disk

    /** Process start: the imported store is empty, then the start-up block
        runs over the file. */
    constructor Start(c: Codec, d: Disk)
      ensures codec == c && disk == d
      ensures store == Loaded(c, map[], d)
      ensures Recoverable(c, State(store, disk))
      // running the start-up block a second time changes nothing
      ensures Loaded(c, store, disk) == store
    {
      codec := c;
      store := map[];
      disk := d;
      new;
      LoadSnapshot();
      LoadTwice(c, map[], d);
    }

    /** The start-up block: if the file exists and is not empty, parse it and
        merge it into the store; a parse error leaves the store alone. */
    method LoadSnapshot()
      modifies this`store
      ensures store == Loaded(codec, old(store), disk)
      ensures disk.NoFile? || |disk.text| == 0 || codec.decode(disk.text).None? ==> store == old(store)
    {
      if disk.File? && |disk.text| > 0 {
        var parsed := codec.decode(disk.text);
        if parsed.Some? {
          store := Merge(store, parsed.value);
        }
      }
    }

    /** Overwrite data.json with the whole store; `writeOk` says whether the
        file system accepts the write. */
    method SaveToDisk(writeOk: bool) returns (ok: bool)
      modifies this`disk
      ensures ok == writeOk
      ensures ok ==> disk == Saved(codec, store)
      ensures !ok ==> disk == old(disk)
    {
      ok := writeOk;
      if ok {
        disk := File(codec.encode(store));
      }
    }

    /** GET /all */
    method GetAll() returns (all: Mapping)
      ensures all == store
      ensures Served(State(store, disk), Entries(all)) == Serve(codec, State(store, disk), ListAll, true)
    {
      all := store;
    }

    /** GET /{key} */
    method GetValue(key: string) returns (r: Reply)
      ensures key in store <==> r.Value?
      ensures key in store ==> r == Value(store[key])
      ensures key !in store ==> r == NotFound(KeyNotFound)
      ensures Served(State(store, disk), r) == Serve(codec, State(store, disk), Get(key), true)
    {
      if key !in store {
        return NotFound(KeyNotFound);
      }
      r := Value(store[key]);
    }

    /** POST /{key}: insert or overwrite, then rewrite the file. */
    method PutValue(key: string, value: string, writeOk: bool) returns (r: Reply)
      modifies this`store, this`disk
      ensures store == old(store)[key := value]
      ensures writeOk ==> disk == Saved(codec, store) && r == Status("OK")
      ensures !writeOk ==> disk == old(disk) && r == WriteFailed
      ensures Served(State(store, disk), r) == Serve(codec, old(State(store, disk)), Put(key, value), writeOk)
    {
      store := store[key := value];
      var ok := SaveToDisk(writeOk);
      r := if ok then Status("OK") else WriteFailed;
    }

    /** DELETE /{key}: not found leaves everything alone; otherwise remove the
        key, then rewrite the file. */
    method DeleteValue(key: string, writeOk: bool) returns (r: Reply)
      modifies this`store, this`disk
      ensures key !in old(store) ==> r == NotFound(KeyNotFound) && store == old(store) && disk == old(disk)
      ensures key in old(store) ==> store == old(store) - {key}
      ensures key in old(store) && writeOk ==> disk == Saved(codec, store) && r == Status("Deleted")
      ensures key in old(store) && !writeOk ==> disk == old(disk) && r == WriteFailed
      ensures Served(State(store, disk), r) == Serve(codec, old(State(store, disk)), Delete(key), writeOk)
    {
      if key !in store {
        return NotFound(KeyNotFound);
      }
      store := store - {key};
      var ok := SaveToDisk(writeOk);
      r := if ok then Status("Deleted") else WriteFailed;
    }
  }
}
