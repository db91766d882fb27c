# OCPP remote start/stop decisions of SteVe's REST controller

This project models the decision logic of `OcppOperationsRestController`, SteVe's REST
controller for sending OCPP 1.6 remote start and remote stop commands (sections 5.11
and 5.12 of OCPP 1.6) to one charge box. It then proves properties of that model.

- `ocpp_types.dfy` (module `OcppTypes`) holds the shared values. These are the failure
  outcomes, which the controller throws as exceptions. They are also the start and stop
  request parameters, a charge point's `RequestResult`, and the finished communication
  task (`TaskState`). `WaitIsOver` is the exit condition of the controller's polling loop.
- `tag_groups.dfy` (module `TagGroups`) resolves an OCPP tag's group (`getTokenList`).
  The group is the tag plus the listed tags whose parent is that tag, one level only.
  Each member is paired with its note. A member without an overview record fails the
  whole resolution. `ChildrenOf` is the stream filter and `GroupTags` adds the prepend
  step. `GetTokenList` is the imperative loop that builds the `[tag, note]` list.
- `remote_operations.dfy` (module `RemoteOperations`) covers the two endpoints.
  `RemoteStartTransaction` builds the single-target request and classifies the charge
  box's answer with `ClassifyResponse`. `RemoteStopTransaction` first rejects a charge
  box with no active transaction. It then resolves the caller's group, selects the last
  active transaction and authorizes the caller against that transaction's tag. If the
  caller is authorized, it dispatches the stop and hands every active id to the stop
  service.

The repositories are given as data, not as calls:
- the tag repository is a `TagRepository`. It holds the list of tag ids, a parent map
  (no key means a null parent) and the overview records, each with its nullable note;
- the transaction repository is the charge box's active-id sequence plus a map from
  transaction id to the tag it was started with;
- the dispatched task is a `TaskState` input in the state the polling loop leaves it;
- what the controller sends is part of the output: the request it dispatches and the
  ids it passes to `TransactionStopService.stop`.

An authorized stop hands every active id of the charge box to the stop service, not only
the selected one. It does so whatever the charge box answered: the stop answer read at
line 168 of the controller is only logged, never inspected. The stop model therefore takes the finished task
as a parameter, and no part of its outcome depends on it.

## Model

| member | source | states |
|---|---|---|
| `TagGroups.GetTokenList` | src/main/java/de/rwth/idsg/steve/web/api/OcppOperationsRestController.java:182-209 | Fails with `MissingRecord` exactly when some tag of the group has no overview record, and then returns no partial list. Otherwise it returns one `[tag, note]` entry per group tag, in group order. Each note is the record's note, or `""` when that note is null. |
| `TagGroups.ChildrenOfCount` | src/main/java/de/rwth/idsg/steve/web/api/OcppOperationsRestController.java:183-186 | The filter keeps every tag whose parent is the queried tag, as many times as the list holds it, and drops every other tag. |
| `TagGroups.ChildrenOfMembership` | src/main/java/de/rwth/idsg/steve/web/api/OcppOperationsRestController.java:183-186 | A tag passes the filter if and only if it is listed and its parent is exactly the queried tag. |
| `TagGroups.ChildrenOfIsSubsequence` | src/main/java/de/rwth/idsg/steve/web/api/OcppOperationsRestController.java:183-186 | The filtered children are a subsequence of the tag list, so the filter neither reorders nor sorts them. |
| `TagGroups.GroupHeadIsQueried` | src/main/java/de/rwth/idsg/steve/web/api/OcppOperationsRestController.java:187-189 | Unless the queried tag is listed as its own child, it is at index 0 of the group. |
| `TagGroups.GroupIsSelfAndDirectChildren` | src/main/java/de/rwth/idsg/steve/web/api/OcppOperationsRestController.java:183-189 | A tag is in the group if and only if it is the queried tag or a listed tag whose parent is the queried tag. In particular the queried tag is always in the group. |
| `TagGroups.GrandchildNotInGroup` | src/main/java/de/rwth/idsg/steve/web/api/OcppOperationsRestController.java:184-186 | A child of a child of the queried tag is not in the group: resolution goes one level deep. |
| `TagGroups.GroupIsDuplicateFree` | src/main/java/de/rwth/idsg/steve/web/api/OcppOperationsRestController.java:183-189 | If the tag list has no duplicates, the group has none either and holds the queried tag exactly once. |
| `TagGroups.GroupPreservesListOrder` | src/main/java/de/rwth/idsg/steve/web/api/OcppOperationsRestController.java:183-189 | The group is a subsequence of the queried tag followed by the tag list: the prepended tag comes first and the children keep the list's order. |
| `RemoteOperations.ClassifyResponse` | src/main/java/de/rwth/idsg/steve/web/api/OcppOperationsRestController.java:113-123 | The answer is split four ways, each condition an if-and-only-if. A missing result entry gives `NoResult`. A null response gives `NullResponse`. A response other than `"Accepted"` gives `NotAccepted`. `"Accepted"` is the only success. |
| `RemoteOperations.RemoteStartTransaction` | src/main/java/de/rwth/idsg/steve/web/api/OcppOperationsRestController.java:89-123 | The dispatched request carries the caller's tag and connector 0. It targets exactly one charge point, the given charge box over JSON. The start succeeds if and only if that charge box's recorded response is non-null and equals `"Accepted"`. It fails with `NullResponse` if and only if the response is null, with `NotAccepted` if and only if the response is non-null and not `"Accepted"`, and with `NoResult` if and only if the result map has no entry for the charge box. |
| `RemoteOperations.RemoteStopTransaction` | src/main/java/de/rwth/idsg/steve/web/api/OcppOperationsRestController.java:138-179 | Fails with `NoTransactions` if and only if there is no active transaction. Otherwise a failed group resolution gives `MissingRecord`, and a last active id without details gives `UnknownTransaction`. The stop succeeds if and only if the last active transaction's tag is the caller's own tag or a listed direct child of it. Otherwise it fails with `NotAssociated`. A successful stop dispatches a stop of exactly that last transaction to the one charge box over JSON. It finalizes all active ids, and its result does not depend on the task's answer. |
| `RemoteOperations.SiblingNotAuthorized` | src/main/java/de/rwth/idsg/steve/web/api/OcppOperationsRestController.java:144-146 | Two distinct children of the same parent cannot stop each other's transactions, since neither is in the other's group. |

## Left out

- The polling loops that sleep 500 ms while the task is unfinished or its result map
  holds more than one entry (lines 104-111 and 159-166), and their swallowed interrupts.
  These are timing and concurrency. The model starts from the finished task. `WaitIsOver` states the loop's exit condition, and the
  start operation requires it.
- `ChargePointService16_Client`, `TaskStore`, `TransactionRepository`,
  `OcppTagRepository` and `TransactionStopService` are not part of this model. Their
  answers are inputs and their effects are outputs. The task id and the `taskStore.get`
  lookup are folded into the given `TaskState`.
- `RemoteOperations.RemoteStopTransaction`: `getDetails` for an id with no transaction is
  modelled as the failure `UnknownTransaction`. Its real behaviour lives in the
  repository, which is not part of this model.
- `RemoteOperations.RemoteStartTransaction`: a missing result entry is modelled as the
  failure `NoResult`. In the code it is a null-pointer exception at line 115.
- `TagGroups.GetTokenList`: the overview lookup and the record lookup are merged into one
  map from tag to nullable note. A record that an overview points at but that is missing
  is not modelled.
- Spring and Swagger annotations, HTTP status mapping, the error response body and the
  logging calls. These are web plumbing.
- The OCPP wire encoding of the remote start and stop messages, and the transport choice
  beyond the fixed JSON selector.
