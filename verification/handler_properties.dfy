/** Properties of the lifecycle handler across its branches and across
    repeated invocations. */
module HandlerProperties {
  import opened Items
  import opened KeyedStore
  import opened PopulateTable

  /** The event names a table. */
  predicate Named(e: Event) {
    TableNameOf(e.resourceProperties) != ""
  }

  /** The service applies every seed put. */
  predicate Clean(fate: Fate) {
    fate.Processes? && fate.skipped !! SeedIds
  }

  /** Without a table name the handler fails before dispatching, whatever
      the request kind: no write, table unchanged. */
  lemma MissingTableNameFails(e: Event, t: Table, fate: Fate)
    requires !Named(e)
    ensures Handler(e, t, fate).response.status == Failed
    ensures Handler(e, t, fate).requests == []
    ensures Handler(e, t, fate).table == t
  {
  }

  /** Delete with a table name succeeds with an empty reason and writes nothing. */
  lemma DeleteSucceeds(e: Event, t: Table, fate: Fate)
    requires Named(e) && e.requestType == "Delete"
    ensures Handler(e, t, fate).response.status == Success
    ensures Handler(e, t, fate).response.reason == ""
    ensures Handler(e, t, fate).requests == []
    ensures Handler(e, t, fate).table == t
  {
    assert e.Kind() == Delete;
    assert Run(e, t, fate) == Attempt(t, [], Completed);
  }

  /** An unrecognised request kind fails and writes nothing. */
  lemma UnknownRequestTypeFails(e: Event, t: Table, fate: Fate)
    requires e.requestType !in {"Create", "Update", "Delete"}
    ensures Handler(e, t, fate).response.status == Failed
    ensures Handler(e, t, fate).requests == []
    ensures Handler(e, t, fate).table == t
  {
    assert e.Kind() == Other(e.requestType);
    assert Run(e, t, fate).outcome.Raised?;
  }

  /** Create or Update with a table name and a fully applied batch succeeds
      with an empty reason, and the table then holds the three store records
      besides what it held before; on an empty table, exactly those. */
  lemma SeedingSucceeds(e: Event, t: Table, fate: Fate)
    requires Named(e) && e.requestType in {"Create", "Update"}
    requires Clean(fate)
    ensures var r := Handler(e, t, fate);
      && r.response.status == Success
      && r.response.reason == ""
      && r.requests == [BatchRequest(TableNameOf(e.resourceProperties), Seeds)]
      && r.table.Keys == t.Keys + SeedIds
      && r.table["59b8a675-9bb7-46c7-955d-2566edfba8ea"] ==
           StoreItem(Store("59b8a675-9bb7-46c7-955d-2566edfba8ea", "NEW", "Newcastle", "Stores"))
      && r.table["4e02e8f2-c0fe-493e-b259-1047254ad969"] ==
           StoreItem(Store("4e02e8f2-c0fe-493e-b259-1047254ad969", "LON", "London", "Stores"))
      && r.table["f5de2a0a-5a1d-4842-b38d-34e0fe420d33"] ==
           StoreItem(Store("f5de2a0a-5a1d-4842-b38d-34e0fe420d33", "MAN", "Manchester", "Stores"))
  {
    var name := TableNameOf(e.resourceProperties);
    assert e.Kind() in {Create, Update};
    var a := SeedData(t, name, fate);
    assert Run(e, t, fate) == a;
    CleanSeedData(t, name, fate);
    assert Handler(e, t, fate) == Invocation(Envelope(e, Completed), a.table, a.requests);
    SeedsStored(a.table);
  }

  /** A fully applied seed batch completes and stores every seed. */
  lemma CleanSeedData(t: Table, name: string, fate: Fate)
    requires Clean(fate)
    ensures var a := SeedData(t, name, fate);
      && a.outcome == Completed
      && a.table.Keys == t.Keys + SeedIds
      && forall s :: s in Seeds ==> s.id in a.table && a.table[s.id] == StoreItem(s)
  {
    assert SeedIds - fate.skipped == SeedIds;
    SeedsWellFormed();
  }

  /** A table holding every seed holds the three literal store records. */
  lemma SeedsStored(tab: Table)
    requires forall s :: s in Seeds ==> s.id in tab && tab[s.id] == StoreItem(s)
    ensures tab["59b8a675-9bb7-46c7-955d-2566edfba8ea"] ==
      StoreItem(Store("59b8a675-9bb7-46c7-955d-2566edfba8ea", "NEW", "Newcastle", "Stores"))
    ensures tab["4e02e8f2-c0fe-493e-b259-1047254ad969"] ==
      StoreItem(Store("4e02e8f2-c0fe-493e-b259-1047254ad969", "LON", "London", "Stores"))
    ensures tab["f5de2a0a-5a1d-4842-b38d-34e0fe420d33"] ==
      StoreItem(Store("f5de2a0a-5a1d-4842-b38d-34e0fe420d33", "MAN", "Manchester", "Stores"))
  {
    assert Seeds[0] in Seeds && Seeds[1] in Seeds && Seeds[2] in Seeds;
  }

  /** The handler succeeds exactly when a table name is given and either the
      request is Delete, or it is Create or Update and the batch is fully
      applied. */
  lemma SuccessExactly(e: Event, t: Table, fate: Fate)
    ensures Handler(e, t, fate).response.status == Success <==>
      Named(e) &&
      (e.requestType == "Delete" || (e.requestType in {"Create", "Update"} && Clean(fate)))
  {
  }

  /** If the service leaves any seed put unprocessed, the handler fails
      rather than reporting partial success. The puts it did apply are in
      the table; the keys it skipped are untouched. */
  lemma PartialWriteFails(e: Event, t: Table, skipped: set<string>)
    requires Named(e) && e.requestType in {"Create", "Update"}
    requires !(skipped !! SeedIds)
    ensures var r := Handler(e, t, Processes(skipped));
      && r.response.status == Failed
      && r.response.reason == "{}"
      && (forall s :: s in Seeds && s.id !in skipped ==> s.id in r.table && r.table[s.id] == StoreItem(s))
      && (forall s :: s in Seeds && s.id in skipped ==> SameAt(t, r.table, s.id))
  {
  }

  /** If the store client rejects the batch, the handler fails with the
      rejection as its reason and the table is unchanged. */
  lemma RejectedWriteFails(e: Event, t: Table, detail: string)
    requires Named(e) && e.requestType in {"Create", "Update"}
    ensures var r := Handler(e, t, Refuses(detail));
      && r.response.status == Failed
      && r.response.reason == detail
      && r.table == t
  {
  }

  /** Repeating an invocation, with the service behaving as it did the first
      time, changes nothing: same answer, same requests, same table. */
  lemma {:induction false} HandlerIdempotent(e: Event, t: Table, fate: Fate)
    ensures var first := Handler(e, t, fate);
      Handler(e, first.table, fate) == first
  {
    var first := Handler(e, t, fate);
    var name := TableNameOf(e.resourceProperties);
    if Named(e) && e.Kind() in {Create, Update} && fate.Processes? {
      SeedsWellFormed();
      var applied := Processed(Seeds, fate.skipped);
      assert Run(e, t, fate) == SeedData(t, name, fate);
      assert Run(e, first.table, fate) == SeedData(first.table, name, fate);
      assert first.table == Upsert(t, applied);
      assert SeedData(first.table, name, fate).table == Upsert(first.table, applied);
      UpsertIdempotent(t, applied);
      assert Run(e, first.table, fate) == Run(e, t, fate);
    } else {
      assert Run(e, t, fate).table == t;
      assert Run(e, first.table, fate) == Run(e, t, fate);
    }
  }

  /** A Create or Update whose batch is fully applied leaves the same table
      whatever invocation ran before it, failed or not: a retry after a
      partial failure lands where a clean first run would have. */
  lemma {:induction false} CleanSeedingForgetsHistory(
    earlier: Event, t: Table, earlierFate: Fate, e: Event, fate: Fate)
    requires Named(e) && e.requestType in {"Create", "Update"}
    requires Clean(fate)
    ensures Handler(e, Handler(earlier, t, earlierFate).table, fate).table == Handler(e, t, fate).table
  {
    var before := Handler(earlier, t, earlierFate).table;
    var name := TableNameOf(e.resourceProperties);
    assert Run(e, before, fate) == SeedData(before, name, fate);
    assert Run(e, t, fate) == SeedData(t, name, fate);
    SeedsWellFormed();
    ProcessedAll(Seeds, fate.skipped);
    assert SeedData(before, name, fate).table == Upsert(before, Seeds);
    assert SeedData(t, name, fate).table == Upsert(t, Seeds);
    UpsertOverwrites(t, before, Seeds);
  }

  /** Create and Update take the same branch apart from their name. */
  lemma CreateAndUpdateAgree(e: Event, t: Table, fate: Fate)
    requires e.requestType == "Create"
    ensures Handler(e.(requestType := "Update"), t, fate) == Handler(e, t, fate)
  {
  }

  /** The answer never depends on the physical id the engine sent. */
  lemma PhysicalIdIgnored(e: Event, t: Table, fate: Fate, p: Option<string>)
    ensures Handler(e.(physicalResourceId := p), t, fate) == Handler(e, t, fate)
  {
    var e' := e.(physicalResourceId := p);
    assert e'.Kind() == e.Kind();
    assert Run(e', t, fate) == Run(e, t, fate);
  }

  /** The handler's own errors all serialise alike, so the reason of a
      missing table name, an unknown request kind and unprocessed puts is
      the same text and names none of them. */
  lemma FailureReasonsCoincide(
    e1: Event, e2: Event, e3: Event, t: Table, skipped: set<string>, fate: Fate)
    requires !Named(e1)
    requires Named(e2) && e2.requestType in {"Create", "Update"} && !(skipped !! SeedIds)
    requires Named(e3) && e3.requestType !in {"Create", "Update", "Delete"}
    ensures Handler(e1, t, fate).response.reason == Handler(e2, t, Processes(skipped)).response.reason
    ensures Handler(e3, t, fate).response.reason == Handler(e2, t, Processes(skipped)).response.reason
  {
  }
}
