# dino-park-evo group updater, modelled in Dafny

This project models the core of a small service that takes requests to change a user's group
memberships and pushes them into an identity-profile store. It has two parts.

- **Group merge** (`src/groups.rs`, module `Groups`). `update_groups` builds a fresh, minimal
  profile from a fetched one. The user id and the active flag are carried over. The `mozilliansorg`
  access attribute starts as the input's copy. Its values become the requested groups, each mapped
  to no value. `created` follows a stated policy, `last_modified` and `verified` are always set,
  and the publisher is stamped as `Mozilliansorg`. The attribute is then signed, and a signer
  failure aborts the call. `UpdateGroups` is the method, written field by field like the
  service. `UpdatedGroups` is the value it computes, and the lemmas are about that value.
- **Update pipeline** (`src/updater.rs`, module `Updater`). Producer handles push messages into a
  bounded channel of capacity 100 with `try_send`, never blocking and dropping what does not fit.
  A single worker drains the channel in order. An `Update` message is one request (fetch,
  merge-and-sign, publish), a `Bulk` message is its requests in order, and `Stop` ends the loop.
  The channel, the handles and the worker are classes. The store client is `Store.FakeStore`,
  a fake that answers from a fixed configuration and records every call it receives.
  Three functions state what the methods do to that record: `UpdateLog` for one request,
  `BatchLog` for a bulk message and `Drain` for the worker loop. The lemmas about these
  functions give the ordering, stop, counting and failure-isolation properties.

Files: `outcomes.dfy` (Option, Result, the error kinds), `schema.dfy` (the profile schema subset
the service touches), `groups.dfy`, `store.dfy`, `updater.dfy`.

Where the service's own documentation and its code disagree, the model follows the code,
except for the one defect recorded under Findings:

- `created` is not write-once. It is overwritten whenever the copied attribute has no values,
  even if it was already set (`Groups.CreatedOverwrittenWithoutValues`). It stays fixed
  whenever values are present and `created` is non-empty (`Groups.UpdateGroupsCreatedPolicy`),
  in particular after a successful update with a non-empty clock reading
  (`Groups.CreatedKeptOnLaterUpdate`).
- As written, the handles drop a message refused by a full or closed channel without any
  warning. `Updater.InternalUpdaterClient.UpdateAsWritten` models that code. The handles
  `Updater.InternalUpdaterClient.Update` and `Updater.InternalUpdaterClient.Stop` use the
  corrected condition `Updater.Warns` instead and warn on every drop (see Findings).
- `update` always reports success, so the early stop in `update_batch` never fires. The model
  keeps that branch and proves it unreachable (`Updater.UpdateBatch`).

## Model

| member | source | states |
|---|---|---|
| `Groups.UpdateGroups` | src/groups.rs:10-65 | The method's result is exactly `UpdatedGroups` of the same inputs: a default profile holding the input's user id, its active flag and the merged, signed attribute. It is an error exactly when signing the merged attribute fails. |
| `Groups.UpdateGroupsCarriesIdentity` | src/groups.rs:15-19 | On success, `userId` and `active` are the input's. Every other top-level field and every other access attribute is the schema default. |
| `Groups.UpdateGroupsStartsFromInputAttribute` | src/groups.rs:25 | The attribute starts from the input's copy. Its classification, the publisher's algorithm and type, and the additional signatures are the input's. |
| `Groups.GroupCount` | src/groups.rs:21-24 | Duplicates collapse. The group map has one entry per distinct name, never more than were requested, and exactly as many when the names are distinct. |
| `Groups.GroupValuesIgnoreOrder` | src/groups.rs:21-24 | Two group lists naming the same groups give the same map, so input order is irrelevant. |
| `Groups.DuplicatesCollapse` | src/groups.rs:21-24 | `["a", "b", "a"]` gives exactly the entries `"a"` and `"b"`, each without a value. |
| `Groups.UpdateGroupsSetsValues` | src/groups.rs:44 | On success, `values` is present, its keys are exactly the requested group names, and each maps to no value. |
| `Groups.EmptyGroupsYieldEmptyValues` | src/groups.rs:80-111 | An empty group list gives present but empty values, not absent ones. |
| `Groups.UpdateGroupsCreatedPolicy` | src/groups.rs:26-43 | `created` becomes `now` when the input attribute has no values or an empty `created`. Otherwise it is the input's. |
| `Groups.CreatedOverwrittenWithoutValues` | src/groups.rs:26-43 | With no values present, a non-empty `created` is overwritten by a different clock reading. |
| `Groups.CreatedKeptOnLaterUpdate` | src/groups.rs:26-43 | After one successful update with a non-empty clock reading, any later successful update of its result keeps that `created`. |
| `Groups.UpdateGroupsStampsMetadata` | src/groups.rs:45-60 | On success, `last_modified` is `now`, `verified` is true and the publisher is `Mozilliansorg`. Whenever `created` is (re)set it equals `last_modified`. |
| `Groups.UpdateGroupsSignerOutcome` | src/groups.rs:62-64 | The call fails exactly when the signer fails, and then the error is the signing error. On success the attribute is the one handed to the signer, carrying the signer's signature. |
| `Groups.UpdateGroupsIgnoresGroupOrder` | src/groups.rs:21-24 | Two group lists naming the same groups give the same update. |
| `Updater.ProcessUpdate` | src/updater.rs:113-146 | The calls one request makes on the store are exactly `UpdateLog`. The request always reports that it was processed. |
| `Updater.UpdateLog` | src/updater.rs:124-138 | A request fetches its own user id exactly once. It publishes at most once and only appends to the record. |
| `Updater.UpdateFlow` | src/updater.rs:124-145 | A request fetches its own user id. A failed fetch publishes nothing, and a failed merge-and-sign publishes nothing. Otherwise exactly the merged profile is published under the request's user id. |
| `Updater.UpdateBatch` | src/updater.rs:148-169 | The store calls are exactly `BatchLog`, so each request runs once, in vector order. The batch always reports success and counts every request. The early stop is never taken. |
| `Updater.BatchLogSplit` | src/updater.rs:155-164 | Running two request lists back to back is the same as running their concatenation. |
| `Updater.BatchFetchesInOrder` | src/updater.rs:155-156 | A bulk message fetches each request's user id exactly once, in order. |
| `Updater.HandleFetchesInOrder` | src/updater.rs:83-86 | Handling an `Update` or `Bulk` message fetches the user ids of the requests it carries, in order. `Stop` fetches nothing. |
| `Updater.InternalUpdater.Run` | src/updater.rs:76-100 | The store calls, the counter and the stop flag after a drain are exactly those of `Drain` on the queued messages. Afterwards nothing is queued. |
| `Updater.DrainCounts` | src/updater.rs:91-98 | The counter grows by exactly one per message before the first `Stop`, and a bulk message counts once. The drain stops exactly when a `Stop` is queued. |
| `Updater.DrainIgnoresAfterStop` | src/updater.rs:86-98 | Nothing queued after a `Stop` is handled. |
| `Updater.DrainInOrder` | src/updater.rs:79-88 | Messages are handled first in, first out. Draining a Stop-free prefix and then the rest is the same as draining the whole queue. |
| `Updater.DrainFetchesInOrder` | src/updater.rs:79-88 | A drain fetches the user id of every request before the first `Stop` exactly once, in queue order, whether earlier requests failed or not. |
| `Updater.UpdateKeepsConsistent` | src/updater.rs:124-145 | One request only appends to the store's record. Anything it publishes carries a verified attribute published as `Mozilliansorg` with values present, for a user it fetched. |
| `Updater.BatchKeepsConsistent` | src/updater.rs:155-164 | The same holds for a bulk message. |
| `Updater.DrainKeepsConsistent` | src/updater.rs:79-98 | The same holds for a whole drain. |
| `Updater.ThreeUpdatesInOrder` | src/updater.rs:79-95 | Three queued single updates are fetched in queue order and counted three times. |
| `Updater.UpdateAfterStopIgnored` | src/updater.rs:82-97 | With `Update(u1)`, `Stop`, `Update(u2)` queued, only `u1` is fetched, one message is counted and the drain stops. |
| `Updater.Admit` | src/updater.rs:68 | A message is admitted exactly when the channel is open and holds fewer messages than its capacity. |
| `Updater.Channel.TrySend` | src/updater.rs:46 | Never blocks. An admitted message is appended at the tail, and otherwise the buffer is unchanged. The buffer never exceeds its capacity. |
| `Updater.Channel.Recv` | src/updater.rs:79-81 | Takes the oldest message, or reports that nothing is queued. |
| `Updater.Channel.Close` | src/updater.rs:96-97 | Once the loop has stopped, queued messages are discarded and later sends are refused. |
| `Updater.InternalUpdaterClient.Update` | src/updater.rs:45-49 | Appends the message when `Admit` admits it and otherwise drops it, leaving the queue unchanged. With the corrected condition `Warns` (not the code as written) it warns exactly when the message is dropped. |
| `Updater.InternalUpdaterClient.UpdateAsWritten` | src/updater.rs:45-49 | The handle as written: the same append-or-drop rule, but it never warns, so a dropped message leaves no trace. |
| `Updater.InternalUpdaterClient.Stop` | src/updater.rs:50-57 | Offers exactly `Stop` through the same channel, under the same drop rule and the same corrected warning. |
| `Updater.InternalUpdater.constructor` | src/updater.rs:67-74 | A fresh channel of capacity 100, empty and open. The counter is at zero. |
| `Updater.InternalUpdater.Client` | src/updater.rs:106-110 | Every handle feeds the updater's one channel. |
| `Updater.DroppedSilentlyAsWritten` | src/updater.rs:46-48 | As written, a message refused by a full or closed channel is dropped without a warning. |
| `Updater.WarnsExactlyWhenDropped` | src/updater.rs:46-48 | With the corrected condition, a warning is given exactly when the message is dropped. |

## Left out

- Network and asynchrony. The `cis_client` calls are the recording fake `Store.FakeStore`. The
  tokio channel, runtime and future combinators are sequential code, and the read/write lock
  around the sender is left out.
- The secret store. `get_secret_store` is not a separate call: the fake's configuration holds
  the signer.
- Signing. The signer is an arbitrary function that either fails or yields a signature value.
  On success only the publisher's signature value changes. The cryptography is not modelled.
- The clock. `now` is a string parameter. `Updater.InternalUpdater.Run` passes one reading to
  every request of one drain, whereas the service reads the clock once per request. RFC 3339
  formatting is not modelled.
- The fake store: a publish does not change the profiles it serves.
- The schema. Only a representative subset of the profile's fields is kept. The rest of the
  schema behaves like `primaryEmail`, `firstName` and `lastName`, which the merge resets to the
  default.
- Updater.InternalUpdater.Run: it returns when nothing is queued, which stands for the worker
  waiting for the next message. The stream ending because every sender was dropped is not
  modelled, because senders are not counted. Receive errors are not modelled either. The loop's
  `Err(())` result on `Stop` is the `stopped` field.
- Lock poisoning: without panics it never happens, so the handles always take the lock.
- Logging, except the warning on a dropped message and the bulk count. No other log line has
  an effect.
- The HTTP layer (`src/update_app.rs`) and process bootstrap (`src/main.rs`). They only wrap
  request bodies in `Update`/`Bulk` messages and start the worker.

## Findings

| source | as written | input that shows it | evidently intended | confidence | as-written member | corrected member |
|---|---|---|---|---|---|---|
| src/updater.rs:46-48 | `if let Err(e)` matches only the error of taking the lock. The `try_send` error inside the `Ok` is discarded, so a refused message vanishes without a trace (the same holds for `stop` at lines 51-55). | A channel already holding 100 messages, or one whose receiver has stopped, and any message. | Warn whenever the message was not queued. | High; not executed. | `Updater.WarnsAsWritten`, `Updater.DroppedSilentlyAsWritten`, `Updater.InternalUpdaterClient.UpdateAsWritten` | `Updater.Warns`, `Updater.WarnsExactlyWhenDropped` (used by `Updater.InternalUpdaterClient.Update` and `Updater.InternalUpdaterClient.Stop`) |
