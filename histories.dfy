/** Sequences of requests served one after another, in the order their
    handlers took the lock, and what any such history leaves behind. */
module Histories {
  import opened Persistence
  import opened KvStore

  /** One handler invocation and whether its disk write (if any) succeeds. */
  datatype Call = Call(req: Request, writeOk: bool)

  datatype Trace = Trace(final: State, replies: seq<Reply>)

  /** Serve the calls in order, collecting one reply per call. */
  function Run(c: Codec, s: State, calls: seq<Call>): (t: Trace)
    ensures |t.replies| == |calls|
    decreases |calls|
  {
    if calls == [] then Trace(s, [])
    else
      var o := Serve(c, s, calls[0].req, calls[0].writeOk);
      var rest := Run(c, o.state, calls[1..]);
      Trace(rest.final, [o.reply] + rest.replies)
  }

  /** Each reply is what its request answers on the state the earlier
      requests of the history left behind. */
  lemma {:induction false} ReplyInOrder(c: Codec, s: State, calls: seq<Call>, i: nat)
    requires i < |calls|
    ensures Run(c, s, calls).replies[i]
            == Serve(c, Run(c, s, calls[..i]).final, calls[i].req, calls[i].writeOk).reply
    decreases |calls|
  {
    if i > 0 {
      var o := Serve(c, s, calls[0].req, calls[0].writeOk);
      ReplyInOrder(c, o.state, calls[1..], i - 1);
      assert calls[..i][0] == calls[0];
      assert calls[..i][1..] == calls[1..][..i - 1];
    }
  }

  /** True when a request may change the entry for `k`. */
  predicate Touches(req: Request, k: string)
  {
    (req.Put? || req.Delete?) && req.key == k
  }

  /** A key no call puts or deletes keeps its entry, or its absence. */
  lemma {:induction false} UntouchedKeyKept(c: Codec, s: State, calls: seq<Call>, k: string)
    requires forall i :: 0 <= i < |calls| ==> !Touches(calls[i].req, k)
    ensures Lookup(Run(c, s, calls).final.store, k) == Lookup(s.store, k)
    decreases |calls|
  {
    if calls != [] {
      var o := Serve(c, s, calls[0].req, calls[0].writeOk);
      assert !Touches(calls[0].req, k);
      assert Lookup(o.state.store, k) == Lookup(s.store, k);
      UntouchedKeyKept(c, o.state, calls[1..], k);
    }
  }

  /** Last write wins: when the last call touching `k` puts `v`, GET answers
      `v`, whether or not any disk write failed. */
  lemma {:induction false} LastPutWins(c: Codec, s: State, calls: seq<Call>, i: nat, k: string, v: string)
    requires i < |calls| && calls[i].req == Put(k, v)
    requires forall j :: i < j < |calls| ==> !Touches(calls[j].req, k)
    ensures Lookup(Run(c, s, calls).final.store, k) == Value(v)
    decreases |calls|
  {
    var o := Serve(c, s, calls[0].req, calls[0].writeOk);
    if i == 0 {
      UntouchedKeyKept(c, o.state, calls[1..], k);
    } else {
      LastPutWins(c, o.state, calls[1..], i - 1, k, v);
    }
  }

  /** When the last call touching `k` deletes it, GET answers not found. */
  lemma {:induction false} LastDeleteRemoves(c: Codec, s: State, calls: seq<Call>, i: nat, k: string)
    requires i < |calls| && calls[i].req == Delete(k)
    requires forall j :: i < j < |calls| ==> !Touches(calls[j].req, k)
    ensures Lookup(Run(c, s, calls).final.store, k) == NotFound(KeyNotFound)
    decreases |calls|
  {
    var o := Serve(c, s, calls[0].req, calls[0].writeOk);
    if i == 0 {
      UntouchedKeyKept(c, o.state, calls[1..], k);
    } else {
      LastDeleteRemoves(c, o.state, calls[1..], i - 1, k);
    }
  }

  /** `i` is the last call of the history that puts or deletes `k`. */
  ghost predicate LastTouch(calls: seq<Call>, k: string, i: int)
  {
    && 0 <= i < |calls| && Touches(calls[i].req, k)
    && forall j :: i < j < |calls| ==> !Touches(calls[j].req, k)
  }

  /** Any call that touches `k` is followed, at or after it, by a last one. */
  lemma {:induction false} LastTouchExists(calls: seq<Call>, k: string, j: nat)
    requires j < |calls| && Touches(calls[j].req, k)
    ensures exists i :: j <= i && LastTouch(calls, k, i)
    decreases |calls| - j
  {
    if forall m :: j < m < |calls| ==> !Touches(calls[m].req, k) {
      assert LastTouch(calls, k, j);
    } else {
      var m :| j < m < |calls| && Touches(calls[m].req, k);
      LastTouchExists(calls, k, m);
    }
  }

  /** What GET of `k` should answer after a history, defined from the history
      alone: the value of the last PUT on `k` unless a DELETE came after it,
      and the initial answer when nothing touched `k`. */
  ghost function Expected(init: Mapping, calls: seq<Call>, k: string): Reply
  {
    if exists i :: LastTouch(calls, k, i) then
      var i :| LastTouch(calls, k, i);
      if calls[i].req.Put? then Value(calls[i].req.value) else NotFound(KeyNotFound)
    else Lookup(init, k)
  }

  /** The whole listing after any history: every key answers as `Expected`
      says, whatever the disk did, so GET /all returns the keys whose last PUT
      was not followed by a DELETE, each with that PUT's value, plus the keys
      of the initial store that no call touched. */
  lemma ListingAfterHistory(c: Codec, s: State, calls: seq<Call>)
    ensures forall k :: Lookup(Run(c, s, calls).final.store, k) == Expected(s.store, calls, k)
  {
    forall k ensures Lookup(Run(c, s, calls).final.store, k) == Expected(s.store, calls, k) {
      if exists j :: 0 <= j < |calls| && Touches(calls[j].req, k) {
        var j :| 0 <= j < |calls| && Touches(calls[j].req, k);
        LastTouchExists(calls, k, j);
        var i :| j <= i && LastTouch(calls, k, i);
        assert 0 <= i < |calls| && Touches(calls[i].req, k);
        if calls[i].req.Put? {
          LastPutWins(c, s, calls, i, k, calls[i].req.value);
        } else {
          LastDeleteRemoves(c, s, calls, i, k);
        }
      } else {
        UntouchedKeyKept(c, s, calls, k);
      }
    }
  }

  /** From a fresh process with no file, a key is listed after a history
      exactly when its last PUT was not followed by a DELETE. */
  lemma FreshStartListing(c: Codec, calls: seq<Call>, k: string)
    ensures k in Run(c, State(map[], NoFile), calls).final.store
            <==> exists i :: LastTouch(calls, k, i) && calls[i].req.Put?
  {
    ListingAfterHistory(c, State(map[], NoFile), calls);
    assert Lookup(Run(c, State(map[], NoFile), calls).final.store, k) == Expected(map[], calls, k);
  }

  /** With every write succeeding, the file keeps mirroring the whole store. */
  lemma {:induction false} RunKeepsSynced(c: Codec, s: State, calls: seq<Call>)
    requires Synced(c, s)
    requires forall i :: 0 <= i < |calls| ==> calls[i].writeOk
    ensures Synced(c, Run(c, s, calls).final)
    decreases |calls|
  {
    if calls != [] {
      assert calls[0].writeOk;
      RunKeepsSynced(c, Serve(c, s, calls[0].req, true).state, calls[1..]);
    }
  }

  /** With every write succeeding, a restart at any point gives back the
      store, starting from any state a restart gives back (a fresh start). */
  lemma {:induction false} RunKeepsRecoverable(c: Codec, s: State, calls: seq<Call>)
    requires RoundTrips(c)
    requires Recoverable(c, s)
    requires forall i :: 0 <= i < |calls| ==> calls[i].writeOk
    ensures Recoverable(c, Run(c, s, calls).final)
    decreases |calls|
  {
    if calls != [] {
      var o := Serve(c, s, calls[0].req, true);
      assert calls[0].writeOk;
      if Writes(s.store, calls[0].req) {
        ReloadSavedStore(c, o.state.store);
      }
      RunKeepsRecoverable(c, o.state, calls[1..]);
    }
  }

  /** PUT of each value in `vs` on one key, in the order given. */
  function PutsOn(k: string, vs: seq<string>): seq<Call>
  {
    seq(|vs|, i requires 0 <= i < |vs| => Call(Put(k, vs[i]), true))
  }

  /** Every PUT of a healthy-disk history answers "OK". */
  lemma {:induction false} PutsAllSucceed(c: Codec, s: State, k: string, vs: seq<string>)
    ensures forall i :: 0 <= i < |vs| ==> Run(c, s, PutsOn(k, vs)).replies[i] == Status("OK")
    decreases |vs|
  {
    if vs != [] {
      var o := Serve(c, s, Put(k, vs[0]), true);
      assert PutsOn(k, vs)[1..] == PutsOn(k, vs[1..]);
      PutsAllSucceed(c, o.state, k, vs[1..]);
    }
  }

  /** Many PUTs on one key in whatever order they took the lock: all answer
      "OK", GET then answers one of the submitted values (the last served),
      and the file parses to exactly the store in memory. */
  lemma ContendedPuts(c: Codec, s: State, k: string, vs: seq<string>)
    requires RoundTrips(c)
    requires |vs| > 0
    ensures var t := Run(c, s, PutsOn(k, vs));
            && (forall i :: 0 <= i < |vs| ==> t.replies[i] == Status("OK"))
            && k in t.final.store && t.final.store[k] == vs[|vs| - 1] && t.final.store[k] in vs
            && Snapshot(c, t.final.disk) == Some(t.final.store)
  {
    var calls := PutsOn(k, vs);
    var t := Run(c, s, calls);
    PutsAllSucceed(c, s, k, vs);
    LastPutWins(c, s, calls, |vs| - 1, k, vs[|vs| - 1]);
    assert calls[|vs| - 1] == Call(Put(k, vs[|vs| - 1]), true);
    var o := Serve(c, s, calls[0].req, true);
    RunKeepsSynced(c, o.state, calls[1..]);
  }
}
