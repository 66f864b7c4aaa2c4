/** The snapshot file data.json and what the service makes of it at start-up.
    The JSON text format itself is left abstract: a Codec pairs the encoder
    used by save_to_disk with the parser used by the start-up block. */
module Persistence {

  /** The store's contents: string keys to string values. */
  type Mapping = map<string, string>

  datatype Option<T> = None | Some(value: T)

  /** What the file system holds under data.json. */
  datatype Disk = NoFile | File(text: string)

  /** JSON serialisation of a whole store and parsing back; `decode` answers
      None where the JSON parser raises a decoding error. */
  datatype Codec = Codec(encode: Mapping -> string, decode: string -> Option<Mapping>)

  /** The assumption made of the JSON library: parsing what was written gives
      back the same mapping, and the text of an object is never empty. */
  ghost predicate RoundTrips(c: Codec)
  {
    forall m: Mapping :: |c.encode(m)| > 0 && c.decode(c.encode(m)) == Some(m)
  }

  /** What save_to_disk leaves on disk: the whole store, overwriting the file. */
  function Saved(c: Codec, store: Mapping): (d: Disk)
    ensures d.File?
    ensures RoundTrips(c) ==> Snapshot(c, d) == Some(store)
  {
    File(c.encode(store))
  }

  /** The entries the start-up block would read from the file: nothing when the
      file is absent, empty, or does not parse. */
  function Snapshot(c: Codec, disk: Disk): (r: Option<Mapping>)
    ensures r.Some? <==> disk.File? && |disk.text| > 0 && c.decode(disk.text).Some?
    ensures r.Some? ==> r == c.decode(disk.text)
  {
    match disk
    case NoFile => None
    case File(text) => if |text| > 0 then c.decode(text) else None
  }

  /** dict.update: every parsed entry is taken, entries the file does not
      mention are kept. */
  function Merge(store: Mapping, parsed: Mapping): (r: Mapping)
    ensures r.Keys == store.Keys + parsed.Keys
    ensures forall k :: k in parsed ==> r[k] == parsed[k]
    ensures forall k :: k in store && k !in parsed ==> r[k] == store[k]
  {
    store + parsed
  }

  /** The store after the start-up block has run over `disk`. */
  function Loaded(c: Codec, store: Mapping, disk: Disk): (r: Mapping)
    ensures store.Keys <= r.Keys
    ensures Snapshot(c, disk).None? ==> r == store
    ensures Snapshot(c, disk).Some? ==> r == Merge(store, Snapshot(c, disk).value)
  {
    match Snapshot(c, disk)
    case None => store
    case Some(parsed) => Merge(store, parsed)
  }

  /** The start-up block is idempotent: merging the same file twice gives
      what merging it once gives. */
  lemma LoadTwice(c: Codec, store: Mapping, disk: Disk)
    ensures Loaded(c, Loaded(c, store, disk), disk) == Loaded(c, store, disk)
  {
  }

  /** Loading, into the empty store a process starts with, a file that
      save_to_disk wrote reproduces the store that was saved. */
  lemma ReloadSavedStore(c: Codec, store: Mapping)
    requires RoundTrips(c)
    ensures Loaded(c, map[], Saved(c, store)) == store
  {
  }
}
