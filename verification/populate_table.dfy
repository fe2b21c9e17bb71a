/** The custom-resource lifecycle handler that seeds the orders table.

    The stack registers the handler with a custom-resource provider, which
    calls it with a Create, Update or Delete event. Create and Update upsert a fixed set of three store records with
    one batched write; Delete does nothing. Every failure is caught and
    reported as a FAILED envelope, so the handler always answers.
 */
module PopulateTable {
  import opened Items
  import opened KeyedStore

  /** The physical id reported for the custom resource, on every answer. */
  const PhysicalResourceId: string := "OrdersConfigData"

  /** The reference records written on Create and Update. */
  const Seeds: seq<Store> := [
    Store("59b8a675-9bb7-46c7-955d-2566edfba8ea", "NEW", "Newcastle", "Stores"),
    Store("4e02e8f2-c0fe-493e-b259-1047254ad969", "LON", "London", "Stores"),
    Store("f5de2a0a-5a1d-4842-b38d-34e0fe420d33", "MAN", "Manchester", "Stores")
  ]

  /** The keys of the seed records. */
  const SeedIds: set<string> := {
    "59b8a675-9bb7-46c7-955d-2566edfba8ea",
    "4e02e8f2-c0fe-493e-b259-1047254ad969",
    "f5de2a0a-5a1d-4842-b38d-34e0fe420d33"
  }

  /** The seed set is three store records with distinct keys and distinct
      store codes, all of type "Stores", and its keys are `SeedIds`. */
  lemma SeedsWellFormed()
    ensures |Seeds| == 3
    ensures DistinctIds(Seeds)
    ensures forall i, j :: 0 <= i < j < |Seeds| ==> Seeds[i].storeCode != Seeds[j].storeCode
    ensures forall s :: s in Seeds ==> s.itemType == "Stores"
    ensures IdsOf(Seeds) == SeedIds
  {
    assert Seeds[0].id in IdsOf(Seeds);
    assert Seeds[1].id in IdsOf(Seeds);
    assert Seeds[2].id in IdsOf(Seeds);
  }

  /** The request kinds the handler distinguishes. */
  datatype RequestType = Create | Update | Delete | Other(name: string)

  datatype Option<T> = None | Some(value: T)

  /** The lifecycle event. `requestType` is the raw string the engine sends;
      `physicalResourceId` is absent on Create. */
  datatype Event = Event(
    requestType: string,
    resourceProperties: map<string, string>,
    logicalResourceId: string,
    physicalResourceId: Option<string>,
    requestId: string,
    stackId: string)
  {
    /** The branch of the handler's switch this request type selects. */
    function Kind(): (k: RequestType)
      ensures k.Other? <==> requestType !in {"Create", "Update", "Delete"}
      ensures k.Other? ==> k.name == requestType
      ensures requestType == "Create" ==> k == Create
      ensures requestType == "Update" ==> k == Update
      ensures requestType == "Delete" ==> k == Delete
    {
      if requestType == "Create" then Create
      else if requestType == "Update" then Update
      else if requestType == "Delete" then Delete
      else Other(requestType)
    }
  }

  /** The `tableName` resource property, or "" when it is absent. Both are
      falsy in the source and rejected alike. */
  function TableNameOf(props: map<string, string>): (name: string)
    ensures name != "" <==> "tableName" in props && props["tableName"] != ""
    ensures name != "" ==> name == props["tableName"]
  {
    if "tableName" in props then props["tableName"] else ""
  }

  /** `SUCCESS` or `FAILED` on the wire. */
  datatype Status = Success | Failed

  /** The envelope returned to the provisioning engine. */
  datatype Response = Response(
    status: Status,
    reason: string,
    logicalResourceId: string,
    physicalResourceId: string,
    requestId: string,
    stackId: string)

  /** The errors the handler raises and then catches. */
  datatype Fault =
    | MissingTableName
    | UnknownRequestType   // its message names the invocation, not the request type
    | UnprocessedItems(items: seq<Store>)
    | StoreFault(detail: string)   // a rejection from the store client, serialised as-is

  /** The failure reason is the error serialised as JSON. The handler's own
      errors are plain `Error` objects, whose message is not an enumerable
      property, so they all serialise to an empty object. */
  function Serialized(f: Fault): (text: string)
    ensures !f.StoreFault? ==> text == "{}"
    ensures f.StoreFault? ==> text == f.detail
  {
    match f
    case StoreFault(detail) => detail
    case _ => "{}"
  }

  datatype Outcome = Completed | Raised(fault: Fault)

  /** The effect of the body of the handler's try block: the table after it,
      the batch requests it issued, and how it ended. */
  datatype Attempt = Attempt(table: Table, requests: seq<BatchRequest>, outcome: Outcome)

  /** A batched put request, addressed by table name. */
  datatype BatchRequest = BatchRequest(tableName: string, puts: seq<Store>)

  /** Writes the seed set with one batched put and raises if the service
      reports any of it unprocessed. */
  function SeedData(t: Table, tableName: string, fate: Fate): (r: Attempt)
    ensures r.requests == [BatchRequest(tableName, Seeds)]
    ensures r.outcome.Completed? <==> fate.Processes? && fate.skipped !! SeedIds
    ensures fate.Refuses? ==> r.table == t && r.outcome == Raised(StoreFault(fate.detail))
    ensures fate.Processes? && !(fate.skipped !! SeedIds) ==>
      r.outcome == Raised(UnprocessedItems(Leftover(Seeds, fate.skipped)))
    ensures forall k :: k !in SeedIds ==> SameAt(t, r.table, k)
    ensures fate.Processes? ==> forall s :: s in Seeds && s.id !in fate.skipped ==>
      s.id in r.table && r.table[s.id] == StoreItem(s)
    ensures fate.Processes? ==> forall s :: s in Seeds && s.id in fate.skipped ==> SameAt(t, r.table, s.id)
    ensures fate.Processes? ==> r.table.Keys == t.Keys + (SeedIds - fate.skipped)
    ensures WellKeyed(t) ==> WellKeyed(r.table)
  {
    SeedsWellFormed();
    var request := BatchRequest(tableName, Seeds);
    match BatchWrite(t, Seeds, fate)
    case Rejected(detail) => Attempt(t, [request], Raised(StoreFault(detail)))
    case Written(t', unprocessed) =>
      assert unprocessed == Leftover(Seeds, fate.skipped);
      ProcessedIds(Seeds, fate.skipped);
      if |unprocessed| > 0 then Attempt(t', [request], Raised(UnprocessedItems(unprocessed)))
      else Attempt(t', [request], Completed)
  }

  /** The body of the try block: validate, then dispatch on the request kind. */
  function Run(e: Event, t: Table, fate: Fate): (r: Attempt)
    ensures TableNameOf(e.resourceProperties) == "" ==> r.outcome == Raised(MissingTableName)
    ensures r.requests != [] <==>
      TableNameOf(e.resourceProperties) != "" && e.Kind() in {Create, Update}
    ensures r.requests == [] ==> r.table == t
    ensures r.outcome.Completed? <==>
      TableNameOf(e.resourceProperties) != "" &&
      (e.Kind() == Delete ||
       (e.Kind() in {Create, Update} && fate.Processes? && fate.skipped !! SeedIds))
    ensures TableNameOf(e.resourceProperties) != "" && e.Kind().Other? ==>
      r.outcome == Raised(UnknownRequestType)
  {
    var tableName := TableNameOf(e.resourceProperties);
    if tableName == "" then Attempt(t, [], Raised(MissingTableName))
    else
      match e.Kind()
      case Create => SeedData(t, tableName, fate)
      case Update => SeedData(t, tableName, fate)
      case Delete => Attempt(t, [], Completed)
      case Other(_) => Attempt(t, [], Raised(UnknownRequestType))
  }

  /** Builds the answer for an event from how the try block ended. */
  function Envelope(e: Event, o: Outcome): (r: Response)
    ensures r.physicalResourceId == PhysicalResourceId
    ensures r.logicalResourceId == e.logicalResourceId
    ensures r.requestId == e.requestId && r.stackId == e.stackId
    ensures r.status == Success <==> o.Completed?
    ensures o.Completed? ==> r.reason == ""
    ensures o.Raised? ==> r.reason == Serialized(o.fault)
  {
    Response(
      if o.Completed? then Success else Failed,
      if o.Completed? then "" else Serialized(o.fault),
      e.logicalResourceId,
      PhysicalResourceId,
      e.requestId,
      e.stackId)
  }

  /** One invocation: the answer, the table afterwards, and the batch
      requests sent to the table. */
  datatype Invocation = Invocation(response: Response, table: Table, requests: seq<BatchRequest>)

  /** The handler. It has no precondition and always returns an envelope:
      no failure escapes to the caller. Whatever the path, the envelope
      carries the constant physical id and echoes the event's identifiers;
      at most one batch request is issued, to the named table with the seed
      set; only seed keys change; and a success carries an empty reason. */
  function Handler(e: Event, t: Table, fate: Fate): (r: Invocation)
    ensures r.response.physicalResourceId == PhysicalResourceId
    ensures r.response.logicalResourceId == e.logicalResourceId
    ensures r.response.requestId == e.requestId
    ensures r.response.stackId == e.stackId
    ensures r.response.status == Success ==> r.response.reason == ""
    ensures r.requests == [] || r.requests == [BatchRequest(TableNameOf(e.resourceProperties), Seeds)]
    ensures r.requests == [] ==> r.table == t
    ensures forall k :: k !in SeedIds ==> SameAt(t, r.table, k)
    ensures WellKeyed(t) ==> WellKeyed(r.table)
  {
    var a := Run(e, t, fate);
    Invocation(Envelope(e, a.outcome), a.table, a.requests)
  }
}
