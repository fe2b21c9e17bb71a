# Orders-table seeding custom resource, modelled in Dafny

The serverless orders API deploys a custom resource whose lifecycle handler
seeds reference data into the orders table. The stack registers the handler as
the event handler of a custom-resource provider, and the provider calls it
with a Create, Update or Delete event. The handler checks that the
`tableName` resource property is present. On Create and Update it upserts
three fixed store records (Newcastle, London, Manchester) with one batched
put. On Delete it does nothing. Every error it meets, including a batch that
comes back with unprocessed items, is caught and answered with a FAILED
envelope. Every envelope carries the constant physical id `OrdersConfigData`.

The model is pure and has four modules:

- `items.dfy` (`Items`): the `Store` and `Order` record shapes and the
  `Item` union the shared table holds. The `type` field is spelled
  `itemType` because `type` is a Dafny keyword.
- `keyed_store.dfy` (`KeyedStore`): the table as `map<string, Item>`
  keyed by `id`, plus the batched put. `Upsert` applies puts in order. The
  service's freedom is an explicit `Fate` parameter: it either applies every
  put except those whose keys it skips and reports the skipped ones back
  (`Processes`), or it rejects the call (`Refuses`).
- `populate_table.dfy` (`PopulateTable`): the constants, the seed set,
  `SeedData` and `Handler`. The source throws and catches exceptions. The
  model threads an explicit `Outcome` instead and turns it into the envelope
  in `Envelope`. `Handler(event, table, fate)` returns the response, the
  table afterwards and the batch requests it issued. The request list makes
  "no write happened" observable.
- `handler_properties.dfy` (`HandlerProperties`): per-branch behaviour,
  the exact success condition, idempotence and retry convergence.

The failure `Reason` is `JSON.stringify(error)`. The handler's own errors
are plain `Error` objects. Their message is not an enumerable property, so
all of them serialise to `{}`. A rejection from the store client is kept as
an opaque detail string. The errors thrown at populate-table-cr.ts:57-59, :79
and :117 carry messages, and the first one lists the unprocessed items.
`JSON.stringify(error)` at :127 drops the non-enumerable `message`, so the
reason is `{}` for all three (`FailureReasonsCoincide`).

## Model

| member | source | states |
|---|---|---|
| KeyedStore.Upsert | serverless-pro/lib/app/stateless/src/handlers/populate-table-cr/populate-table-cr.ts:52-54 | batch upsert: the table gains exactly the batch's keys, every other key is unchanged, and each key holds the last put addressed to it |
| KeyedStore.UpsertWellKeyed | serverless-pro/lib/app/stateless/src/handlers/populate-table-cr/populate-table-cr.ts:52-54 | after an upsert, every key still maps to an item whose own id is that key |
| KeyedStore.UpsertOverwrites | serverless-pro/lib/app/stateless/src/handlers/populate-table-cr/populate-table-cr.ts:52-54 | an upsert's result does not depend on what the table held under the batch's keys |
| KeyedStore.UpsertAbsorbs | serverless-pro/lib/app/stateless/src/handlers/populate-table-cr/populate-table-cr.ts:52-54 | an earlier upsert whose keys a later batch covers leaves no trace after the later batch |
| KeyedStore.UpsertIdempotent | serverless-pro/lib/app/stateless/src/handlers/populate-table-cr/populate-table-cr.ts:52-54 | upserting the same batch twice gives the same table as upserting it once |
| KeyedStore.Processed | serverless-pro/lib/app/stateless/src/handlers/populate-table-cr/populate-table-cr.ts:53-54 | the applied puts are exactly the batch's puts whose keys the service did not skip |
| KeyedStore.ProcessedIds | serverless-pro/lib/app/stateless/src/handlers/populate-table-cr/populate-table-cr.ts:53-54 | the applied puts write exactly the batch's keys minus the skipped ones |
| KeyedStore.ProcessedAll | serverless-pro/lib/app/stateless/src/handlers/populate-table-cr/populate-table-cr.ts:53-54 | when no key of the batch is skipped, the whole batch is applied in order |
| KeyedStore.ProcessedDistinct | serverless-pro/lib/app/stateless/src/handlers/populate-table-cr/populate-table-cr.ts:53-54 | dropping skipped puts keeps the remaining keys distinct |
| KeyedStore.Leftover | serverless-pro/lib/app/stateless/src/handlers/populate-table-cr/populate-table-cr.ts:53-56 | the reported unprocessed items are exactly the puts with skipped keys, and the report is empty iff no key of the batch was skipped |
| KeyedStore.BatchWrite | serverless-pro/lib/app/stateless/src/handlers/populate-table-cr/populate-table-cr.ts:53-54 | the batch write either rejects and reports the rejection, or applies the non-skipped puts, leaves skipped and unrelated keys as they were, and reports exactly the skipped puts |
| PopulateTable.SeedsWellFormed | serverless-pro/lib/app/stateless/src/handlers/populate-table-cr/populate-table-cr.ts:17-47 | the seed set is three store records with distinct ids and store codes, all of type "Stores", keyed by the three fixed ids |
| PopulateTable.SeedData | serverless-pro/lib/app/stateless/src/handlers/populate-table-cr/populate-table-cr.ts:14-61 | one batch request with the seed set goes to the named table; it completes iff the service applies every seed; a rejection leaves the table unchanged; a non-empty unprocessed set raises an error carrying those items; the table gains exactly the applied seed ids; only seed keys change |
| PopulateTable.Event.Kind | serverless-pro/lib/app/stateless/src/handlers/populate-table-cr/populate-table-cr.ts:81-117 | "Create", "Update" and "Delete" select their own branches, and every other string selects the default branch |
| PopulateTable.TableNameOf | serverless-pro/lib/app/stateless/src/handlers/populate-table-cr/populate-table-cr.ts:76-79 | the table name counts as supplied exactly when the `tableName` property is present and non-empty (the falsy test), and is then that property |
| PopulateTable.Serialized | serverless-pro/lib/app/stateless/src/handlers/populate-table-cr/populate-table-cr.ts:127 | the failure reason of the handler's own `Error`s is `{}`, because their message is not enumerable; a store rejection keeps its own serialised text |
| PopulateTable.Run | serverless-pro/lib/app/stateless/src/handlers/populate-table-cr/populate-table-cr.ts:76-118 | the try body: a missing table name raises before dispatch; a batch request is sent iff a table name is given and the request is Create or Update; without a request the table is unchanged; it completes iff a table name is given and the request is Delete, or is Create or Update with every seed applied; with a table name, an unknown type raises the unknown-request-type error |
| PopulateTable.Envelope | serverless-pro/lib/app/stateless/src/handlers/populate-table-cr/populate-table-cr.ts:85-114 | the envelope carries the constant physical id and echoes LogicalResourceId, RequestId and StackId; SUCCESS iff the try body completed; the reason is "" on success and the serialised error on failure (as at :125-132) |
| PopulateTable.Handler | serverless-pro/lib/app/stateless/src/handlers/populate-table-cr/populate-table-cr.ts:63-134 | total (no precondition, always returns an envelope); every envelope has physical id "OrdersConfigData" and echoes LogicalResourceId, RequestId and StackId; success carries an empty reason; at most one batch request, addressed to the event's tableName with the seed set; without a request the table is unchanged; keys outside the seed ids never change |
| HandlerProperties.MissingTableNameFails | serverless-pro/lib/app/stateless/src/handlers/populate-table-cr/populate-table-cr.ts:76-79 | an absent or empty tableName gives FAILED with no write and the table unchanged, whatever the request type |
| HandlerProperties.DeleteSucceeds | serverless-pro/lib/app/stateless/src/handlers/populate-table-cr/populate-table-cr.ts:105-115 | Delete with a tableName gives SUCCESS with an empty reason, no write and the table unchanged |
| HandlerProperties.UnknownRequestTypeFails | serverless-pro/lib/app/stateless/src/handlers/populate-table-cr/populate-table-cr.ts:116-117 | an unrecognised request type gives FAILED with no write and the table unchanged |
| HandlerProperties.SeedingSucceeds | serverless-pro/lib/app/stateless/src/handlers/populate-table-cr/populate-table-cr.ts:82-104 | Create or Update with a tableName and a fully applied batch gives SUCCESS with an empty reason, the table's keys become its old keys plus the three seed ids (exactly the seeds on an empty table), and it maps each seed id to NEW/Newcastle, LON/London and MAN/Manchester, all of type "Stores" |
| HandlerProperties.SuccessExactly | serverless-pro/lib/app/stateless/src/handlers/populate-table-cr/populate-table-cr.ts:76-133 | the status is SUCCESS iff a tableName is given and the request is Delete, or it is Create or Update and no seed was left unprocessed |
| HandlerProperties.PartialWriteFails | serverless-pro/lib/app/stateless/src/handlers/populate-table-cr/populate-table-cr.ts:56-60 | any unprocessed seed gives FAILED, not partial success; applied seeds are already in the table and skipped keys are untouched |
| HandlerProperties.RejectedWriteFails | serverless-pro/lib/app/stateless/src/handlers/populate-table-cr/populate-table-cr.ts:123-132 | a rejected batch gives FAILED with the rejection as reason and the table unchanged |
| HandlerProperties.HandlerIdempotent | serverless-pro/lib/app/stateless/src/handlers/populate-table-cr/populate-table-cr.ts:81-104 | repeating an invocation with the same service behaviour returns the same envelope and requests and leaves the same table |
| HandlerProperties.CleanSeedingForgetsHistory | serverless-pro/lib/app/stateless/src/handlers/populate-table-cr/populate-table-cr.ts:94-95 | after any earlier invocation, failed or not, a fully applied Create or Update leaves the same table as it would have left on its own |
| HandlerProperties.CreateAndUpdateAgree | serverless-pro/lib/app/stateless/src/handlers/populate-table-cr/populate-table-cr.ts:82-104 | Create and Update behave identically |
| HandlerProperties.PhysicalIdIgnored | serverless-pro/lib/app/stateless/src/handlers/populate-table-cr/populate-table-cr.ts:12 | the answer never depends on the physical id the engine sent |
| HandlerProperties.FailureReasonsCoincide | serverless-pro/lib/app/stateless/src/handlers/populate-table-cr/populate-table-cr.ts:127 | a missing tableName, an unknown request type and unprocessed items all give the same reason text, so the reason does not tell them apart |

## Left out

- The AWS SDK `DocumentClient` and the network (serverless-pro/lib/app/stateless/src/handlers/populate-table-cr/populate-table-cr.ts:11, 53-54) are not modelled. The batch write is the abstract `KeyedStore.BatchWrite`, and its behaviour is the `Fate` parameter.
- KeyedStore.BatchWrite: a rejection leaves the table unchanged. A client-side failure after the service has already applied some puts (a timeout on the reply, say) is not modelled.
- KeyedStore.BatchWrite: it requires distinct keys because the service refuses a batch that addresses one key twice. The only caller passes the three distinct seeds.
- The table name only addresses the table. The model has one table and does not model a name that matches no table; such a call would be a rejection (`Refuses`).
- The batch reply is assumed to always carry an `UnprocessedItems` object. If the field were missing, `Object.entries` would throw and the handler would answer FAILED. The model does not include that case.
- The provider framework between the engine and this handler is not part of this model. The model's answer is the value the handler returns. Whether a returned FAILED envelope reaches the engine as a failure depends on that framework, which is not modelled.
- The Lambda execution time limit is not modelled. The stack sets no timeout for this function, so the runtime default applies (stateless-stack.ts:107-121). The runtime can stop an invocation before it answers, for example during SDK retries against a throttled table. `Handler` always returns an envelope only in the sense that the code has no path that escapes the catch.
- The message of the unknown-request-type error is not modelled. It names the invocation's correlation id, not the request type, and the reason drops it anyway.
- The correlation id (`uuid`) and the `console.log` lines (serverless-pro/lib/app/stateless/src/handlers/populate-table-cr/populate-table-cr.ts:67-74, 120, 124) only serve observability. They do not affect control flow.
- The exact error text of a store rejection is kept as an opaque string.
- `Order.quantity` is a JavaScript number. It is modelled as an integer because the handler never reads it.
- The CDK stack wiring, the pipeline configuration and stages, and the type declarations are declarative and have no runtime behaviour. Only the `Store` and `Order` shapes are reused.
