/** The keyed document table and its batched put operation.

    The table is a map from partition key to item. A batch of puts is an
    upsert: each put overwrites whatever the table held under the put's key.
    The service may leave some puts of a batch unapplied and report them back
    instead of failing, or it may refuse the call altogether; which of these
    happens is outside the program and is passed in as a `Fate`.
 */
module KeyedStore {
  import opened Items

  type Table = map<string, Item>

  /** Every key maps to an item whose own `id` is that key. */
  ghost predicate WellKeyed(t: Table) {
    forall k :: k in t ==> t[k].Id() == k
  }

  /** `t1` and `t2` hold the same thing (or both nothing) under key `k`. */
  ghost predicate SameAt(t1: Table, t2: Table, k: string) {
    (k in t1 <==> k in t2) && (k in t1 ==> t1[k] == t2[k])
  }

  /** `t1` and `t2` agree on every key outside `keys`. */
  ghost predicate AgreeOutside(t1: Table, t2: Table, keys: set<string>) {
    forall k :: k !in keys ==> SameAt(t1, t2, k)
  }

  /** The keys a sequence of puts writes to. */
  function IdsOf(puts: seq<Store>): set<string> {
    set s | s in puts :: s.id
  }

  /** No two puts of the batch address the same key. */
  predicate DistinctIds(puts: seq<Store>) {
    forall i, j :: 0 <= i < j < |puts| ==> puts[i].id != puts[j].id
  }

  /** The put at index `i` is the last one addressing its key. */
  predicate LastWithId(puts: seq<Store>, i: int)
    requires 0 <= i < |puts|
  {
    forall j :: i < j < |puts| ==> puts[j].id != puts[i].id
  }

  lemma IdsOfCons(puts: seq<Store>)
    requires puts != []
    ensures IdsOf(puts) == {puts[0].id} + IdsOf(puts[1..])
  {
    assert puts == [puts[0]] + puts[1..];
    forall k | k in IdsOf(puts)
      ensures k in {puts[0].id} + IdsOf(puts[1..])
    {
      var s :| s in puts && s.id == k;
      if s != puts[0] {
        assert s in puts[1..];
      }
    }
  }

  /** A put that is last for its key has no later put with that key. */
  lemma LastNotRepeated(puts: seq<Store>)
    requires puts != [] && LastWithId(puts, 0)
    ensures puts[0].id !in IdsOf(puts[1..])
  {
    forall s | s in puts[1..] ensures s.id != puts[0].id {
      var j :| 0 <= j < |puts[1..]| && puts[1..][j] == s;
      assert puts[j + 1] == s;
    }
  }

  /** Applies the puts in order, each one overwriting its key: the table
      gains exactly the batch's keys, keeps everything else, and holds the
      last put of each key. */
  function Upsert(t: Table, puts: seq<Store>): (r: Table)
    ensures r.Keys == t.Keys + IdsOf(puts)
    ensures forall k :: k !in IdsOf(puts) ==> SameAt(t, r, k)
    ensures forall i :: 0 <= i < |puts| && LastWithId(puts, i) ==> r[puts[i].id] == StoreItem(puts[i])
    decreases |puts|
  {
    if puts == [] then t
    else
      IdsOfCons(puts);
      var t' := t[puts[0].id := StoreItem(puts[0])];
      var r := Upsert(t', puts[1..]);
      assert LastWithId(puts, 0) ==> puts[0].id !in IdsOf(puts[1..]) by {
        if LastWithId(puts, 0) { LastNotRepeated(puts); }
      }
      assert forall i :: 1 <= i < |puts| && LastWithId(puts, i) ==> LastWithId(puts[1..], i - 1);
      r
  }

  /** Upserting keeps every key pointing at an item with that id. */
  lemma {:induction false} UpsertWellKeyed(t: Table, puts: seq<Store>)
    requires WellKeyed(t)
    ensures WellKeyed(Upsert(t, puts))
    decreases |puts|
  {
    if puts != [] {
      UpsertWellKeyed(t[puts[0].id := StoreItem(puts[0])], puts[1..]);
    }
  }

  /** Upserting reads nothing of the table under the keys it writes: two
      tables that agree elsewhere end up equal. */
  lemma {:induction false} UpsertOverwrites(t1: Table, t2: Table, puts: seq<Store>)
    requires AgreeOutside(t1, t2, IdsOf(puts))
    ensures Upsert(t1, puts) == Upsert(t2, puts)
    decreases |puts|
  {
    if puts == [] {
      assert t1.Keys == t2.Keys by {
        forall k ensures k in t1 <==> k in t2 {
          assert SameAt(t1, t2, k);
        }
      }
      forall k | k in t1 ensures t1[k] == t2[k] {
        assert SameAt(t1, t2, k);
      }
    } else {
      IdsOfCons(puts);
      var p := puts[0];
      var u1 := t1[p.id := StoreItem(p)];
      var u2 := t2[p.id := StoreItem(p)];
      forall k | k !in IdsOf(puts[1..]) ensures SameAt(u1, u2, k) {
        if k != p.id {
          assert SameAt(t1, t2, k);
        }
      }
      UpsertOverwrites(u1, u2, puts[1..]);
    }
  }

  /** Upserting a batch whose keys are covered by a later batch leaves no
      trace once the later batch has been upserted. */
  lemma UpsertAbsorbs(t: Table, earlier: seq<Store>, later: seq<Store>)
    requires IdsOf(earlier) <= IdsOf(later)
    ensures Upsert(Upsert(t, earlier), later) == Upsert(t, later)
  {
    UpsertOverwrites(Upsert(t, earlier), t, later);
  }

  /** Upserting the same batch twice is the same as upserting it once. */
  lemma UpsertIdempotent(t: Table, puts: seq<Store>)
    ensures Upsert(Upsert(t, puts), puts) == Upsert(t, puts)
  {
    UpsertAbsorbs(t, puts, puts);
  }

  /** The puts the service applied: those whose key it did not skip, in order. */
  function Processed(puts: seq<Store>, skipped: set<string>): (r: seq<Store>)
    ensures forall s :: s in r <==> s in puts && s.id !in skipped
    decreases |puts|
  {
    if puts == [] then []
    else
      var rest := Processed(puts[1..], skipped);
      assert puts == [puts[0]] + puts[1..];
      if puts[0].id in skipped then rest else [puts[0]] + rest
  }

  /** The applied puts write exactly the keys that were not skipped. */
  lemma ProcessedIds(puts: seq<Store>, skipped: set<string>)
    ensures IdsOf(Processed(puts, skipped)) == IdsOf(puts) - skipped
  {
    var r := Processed(puts, skipped);
    forall k | k in IdsOf(puts) - skipped ensures k in IdsOf(r) {
      var s :| s in puts && s.id == k;
      assert s in r;
    }
  }

  /** When nothing is skipped, every put is applied, in order. */
  lemma {:induction false} ProcessedAll(puts: seq<Store>, skipped: set<string>)
    requires IdsOf(puts) !! skipped
    ensures Processed(puts, skipped) == puts
    decreases |puts|
  {
    if puts != [] {
      IdsOfCons(puts);
      ProcessedAll(puts[1..], skipped);
    }
  }

  /** Dropping puts keeps the remaining keys distinct. */
  lemma {:induction false} ProcessedDistinct(puts: seq<Store>, skipped: set<string>)
    requires DistinctIds(puts)
    ensures DistinctIds(Processed(puts, skipped))
    decreases |puts|
  {
    if puts != [] {
      var rest := Processed(puts[1..], skipped);
      ProcessedDistinct(puts[1..], skipped);
      if puts[0].id !in skipped {
        assert Processed(puts, skipped) == [puts[0]] + rest;
        forall s | s in rest ensures s.id != puts[0].id {
          assert s in puts[1..];
          var j :| 0 <= j < |puts[1..]| && puts[1..][j] == s;
          assert puts[j + 1] == s;
        }
      }
    }
  }

  /** The puts the service reports back as unprocessed, in order. */
  function Leftover(puts: seq<Store>, skipped: set<string>): (r: seq<Store>)
    ensures forall s :: s in r <==> s in puts && s.id in skipped
    ensures r == [] <==> IdsOf(puts) !! skipped
    decreases |puts|
  {
    if puts == [] then []
    else
      IdsOfCons(puts);
      var rest := Leftover(puts[1..], skipped);
      if puts[0].id in skipped then [puts[0]] + rest else rest
  }

  /** What the service does with one batch request. */
  datatype Fate =
    | Processes(skipped: set<string>)   // applies every put whose key is not skipped
    | Refuses(detail: string)           // the call fails; nothing is applied

  /** What the caller gets back from one batch request. */
  datatype BatchOutput =
    | Written(table: Table, unprocessed: seq<Store>)
    | Rejected(detail: string)

  /** One batched put against the table. The service refuses a batch that
      addresses one key twice, so the puts are required to be distinct. */
  function BatchWrite(t: Table, puts: seq<Store>, fate: Fate): (r: BatchOutput)
    requires DistinctIds(puts)
    ensures r.Rejected? <==> fate.Refuses?
    ensures r.Rejected? ==> r.detail == fate.detail
    ensures r.Written? ==>
      && (forall k :: k !in IdsOf(puts) ==> SameAt(t, r.table, k))
      && (forall s :: s in puts && s.id !in fate.skipped ==> s.id in r.table && r.table[s.id] == StoreItem(s))
      && (forall s :: s in puts && s.id in fate.skipped ==> SameAt(t, r.table, s.id))
      && (forall s :: s in r.unprocessed <==> s in puts && s.id in fate.skipped)
      && (WellKeyed(t) ==> WellKeyed(r.table))
  {
    match fate
    case Refuses(detail) => Rejected(detail)
    case Processes(skipped) =>
      var applied := Processed(puts, skipped);
      ProcessedDistinct(puts, skipped);
      ProcessedIds(puts, skipped);
      var r := Upsert(t, applied);
      assert WellKeyed(t) ==> WellKeyed(r) by {
        if WellKeyed(t) { UpsertWellKeyed(t, applied); }
      }
      assert forall s :: s in puts && s.id !in skipped ==> r[s.id] == StoreItem(s) by {
        forall s | s in puts && s.id !in skipped ensures r[s.id] == StoreItem(s) {
          var i :| 0 <= i < |applied| && applied[i] == s;
          assert LastWithId(applied, i);
        }
      }
      Written(r, Leftover(puts, skipped))
  }
}
