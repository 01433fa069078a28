# multivarka: a verified model of the query-builder core

multivarka is a fluent query builder for a MongoDB store. `server` and `collection` open a store and pick a collection. `where`, `not`, `equal`, `lessThan`, `greatThan`, `include` and `set` describe a query. Each chained method does not act at once: it pushes a deferred task onto one module-level `tasks` list. A terminal method (`find`, `remove`, `update`, `insert`) pushes its own task and runs the whole list with `async.waterfall`. Each task is handed the `params` record built by the one before it. The task checks with `validParams` that the keys its stage needs are present, then updates the record in place or reports the error `'Недостаточно параметров'` ("not enough parameters"). A terminal task calls the store and never calls its continuation. `reset` empties the list.

The model is one Dafny module per part of the program:

- `Wrappers`: `Option` and `Result`.
- `Documents`: JavaScript values and filter documents.
  - `CompareRequest` is `compareRequest`.
  - `IncludeRequest` states what the two `include` loops build.
  - `BuildInclude` holds those loops.
- `Context`: the `params` record.
  - `Params` is its value, and `ParamsObject` is the mutable object with the seven keys as fields.
  - `RequiredArgs` is the `requiredArgs` table.
  - `ValidParams` states `validParams`, and `CheckParams` is its early-return loop.
- `Steps`: what one task does.
  - A `Step` names the builder method that pushed the task and carries its arguments.
  - `Start` handles the first task, which the waterfall calls with the continuation alone.
  - `Apply` handles a later task, which gets the record and the continuation.
  - A task replies by continuing with a record, reporting an error, calling the store (`Stored`), or throwing (`Thrown`). It throws when the waterfall's calling convention puts a non-function where its continuation should be.
- `StepLaws`: properties of a single step.
- `StepBodies`: the task bodies as imperative code on a `ParamsObject`. Each is proved equal to `Apply`.
- `Pipeline`: the waterfall.
  - `Run` is the short-circuiting fold that specifies it, and `Waterfall` is the loop.
  - Lemmas cover short circuit, terminal lists, stale tasks and connection hygiene.
- `Builder`: the exported object as the class `Multivarka`. Its field `tasks` is the shared list; the chained methods append to it and `Reset` empties it.
- `Scenarios`: complete chains run end to end on symbolic connections.

The driver's `MongoClient.connect` is the `connect` parameter, a function from a connection string to a connection or an error. It is the only input the model does not compute itself. A store call is recorded as a `StoreCall`, together with the connection that is closed once the store replies.

## Model

| member | source | states |
|---|---|---|
| Documents.CompareRequest | multivarka.js:6-14 | the result is a document whose only key is the field; a name the table inherits from `Object.prototype` (`toString`, `constructor`, `__proto__`, ...) maps the field to that inherited value, and any other name outside `!=`, `==`, `>`, `<` maps it to `undefined` |
| Documents.FragmentShape | multivarka.js:7-13 | `==` maps the field to the raw value, `!=` to `{$ne: v}`, `>` to `{$gt: v}`, `<` to `{$lt: v}` |
| Documents.NotEqualEach | multivarka.js:178-180 | the negated loop's list has one entry per candidate, entry i being `{$ne: includeArr[i]}` |
| Documents.EqualEach | multivarka.js:186-188 | the positive loop's list has one entry per candidate, entry i being `{[where]: includeArr[i]}` |
| Documents.NegatedIncludeShape | multivarka.js:176-183 | negated membership is a document whose only key is the field, mapped to a list of exactly one `{$ne: x}` per candidate in input order |
| Documents.PositiveIncludeShape | multivarka.js:186-189 | positive membership is a document whose only key is `$or`, mapped to a list of exactly one `{[where]: x}` per candidate in input order |
| Documents.EmptyInclude | multivarka.js:176-189 | an empty candidate list gives `{[where]: []}` when negated and `{$or: []}` otherwise |
| Documents.BuildInclude | multivarka.js:176-189 | the two push loops build exactly the membership filter `IncludeRequest` describes |
| Context.RequiredByStage | multivarka.js:17-30 | `collection` needs `db`; `where` and `insert` need `db` and `collection`; `not` needs `db`, `collection`, `where`, `isNot`; in each case as an if-and-only-if on presence |
| Context.RequiredByFilterStage | multivarka.js:21-27 | `equal`, `lessThan`, `greatThan`, `include` and `set` pass exactly when `db`, `collection`, `where` and `isNot` are present |
| Context.RequiredByTerminalStage | multivarka.js:25-28 | `find` and `remove` pass exactly when the field is chosen and `findArgs` is present; `update` passes exactly when the field is chosen and `setArgs` and `optionArgs` are present, with no need for `findArgs` |
| Context.KeysPresence | multivarka.js:32 | each key name is among the record's keys exactly when that key is present |
| Context.StageNeeds | multivarka.js:31-38 | validation holds exactly when every key in the stage's required list is among the record's keys |
| Context.EveryStageNeedsDb | multivarka.js:17-30 | every stage in the table requires `db`, so a record without it fails every stage |
| Context.UnknownStagePasses | multivarka.js:31-33 | a stage missing from the table requires nothing, since `for...in` over `undefined` runs no iteration |
| Context.ParamsObject.Bare | multivarka.js:66 | an object with no own keys |
| Context.ParamsObject.Connect | multivarka.js:52 | the literal `{db}` |
| Context.ParamsObject.Select | multivarka.js:70 | the literal `{db, collection}` |
| Context.CheckParams | multivarka.js:31-38 | the loop with its early `return false` answers exactly `ValidParams` for the object's current contents |
| StepLaws.StepValidation | multivarka.js:64-289 | for every stage but `server`, the step reports the message exactly when validation fails; otherwise a terminal step calls the store and any other step continues |
| StepLaws.NegationFlipsComparisons | multivarka.js:117-161 | with `isNot` true, `equal`, `lessThan` and `greatThan` store `{f: {$ne: v}}`, `{f: {$gt: v}}` and `{f: {$lt: v}}`; with it false they store `{f: v}`, `{f: {$lt: v}}` and `{f: {$gt: v}}`; nothing else in the record changes |
| StepLaws.IncludeStoresMembership | multivarka.js:171-191 | `include` stores the membership filter for the current field and flag as `findArgs` and changes nothing else |
| StepLaws.WhereFrame | multivarka.js:83-88 | `where(f)` sets `where` to `f` and `isNot` to false and keeps the other five keys |
| StepLaws.NotFrame | multivarka.js:98-102 | `not` sets `isNot` to true and nothing else |
| StepLaws.CollectionRebuilds | multivarka.js:66-71 | `collection(name)` continues with a record whose keys are exactly `db` and `collection`, holding the same connection and that connection's handle on `name` |
| StepLaws.SetFrame | multivarka.js:243-249 | `set(field, value)` stores `{$set: {field: value}}` and `{multi: true}` and keeps `findArgs`, `where`, `isNot`, `db` and `collection` |
| StepLaws.NeedsWhere | multivarka.js:20-28 | without a prior `where`, `not`, the comparison and membership steps, `set`, `find`, `remove` and `update` all report the message |
| StepLaws.FalseFlagPasses | multivarka.js:84-86 | `isNot` set to false by `where` counts as present, so a following `equal` passes validation |
| StepLaws.UpdateWithoutFilter | multivarka.js:259-263 | `update` with no comparison passes validation and hands the store `undefined` as the filter |
| StepLaws.NotIsIdempotent | multivarka.js:101 | a second `not` gives the same result as the first |
| StepLaws.WhereClearsNot | multivarka.js:86-87 | `where` after `not` gives the same result as `where` without it: the flag does not survive a new field |
| StepLaws.LastFilterWins | multivarka.js:112-193 | two filter steps in a row give what the second alone gives: filters replace each other and do not compose |
| StepLaws.KeysOnlyGrow | multivarka.js:81-252 | every continuing step other than `collection` keeps all keys it was given |
| StepLaws.ConnectionKept | multivarka.js:69-70 | a continuing step keeps `db` and keeps the collection handle on that connection; a store call goes through the record's collection and closes the record's connection |
| StepLaws.FirstTaskMustBeServer | multivarka.js:65-67 | any task other than `server` placed first sees a record without keys, fails validation, and throws when it reports the failure |
| StepBodies.StartTask | multivarka.js:49-54 | the first task's body gives exactly `Start`; when it continues, the object it passes on holds the record `Start` passes |
| StepBodies.Invoke | multivarka.js:65-289 | a later task's body gives exactly `Apply` on the object's contents before the call; when it continues, the object passed on holds the new record; every step but `collection` passes on the same object, updated in place; `collection` leaves the object it was given untouched; when a step stops, the object is unchanged |
| StepBodies.CollectionTask | multivarka.js:65-72 | the `collection` body gives exactly `Apply` for `collection`; when it continues it passes on a new object holding the new record, and it never changes the object it was given |
| StepBodies.WhereTask | multivarka.js:82-89 | the `where` body gives exactly `Apply` for `where`: it passes on the same object it was given, which then holds the new record, and leaves it unchanged when validation fails |
| StepBodies.NotTask | multivarka.js:97-103 | the `not` body gives exactly `Apply` for `not`: it passes on the same object it was given, which then holds the new record, and leaves it unchanged when validation fails |
| StepBodies.EqualTask | multivarka.js:113-123 | the `equal` body gives exactly `Apply` for `equal`: it passes on the same object it was given, which then holds the new record, and leaves it unchanged when validation fails |
| StepBodies.LessThanTask | multivarka.js:133-143 | the `lessThan` body gives exactly `Apply` for `lessThan`: it passes on the same object it was given, which then holds the new record, and leaves it unchanged when validation fails |
| StepBodies.GreatThanTask | multivarka.js:153-163 | the `greatThan` body gives exactly `Apply` for `greatThan`: it passes on the same object it was given, which then holds the new record, and leaves it unchanged when validation fails |
| StepBodies.IncludeTask | multivarka.js:172-191 | the `include` body gives exactly `Apply` for `include`: it passes on the same object it was given, which then holds the new record, and leaves it unchanged when validation fails |
| StepBodies.SetTask | multivarka.js:242-250 | the `set` body gives exactly `Apply` for `set`: it passes on the same object it was given, which then holds the new record, and leaves it unchanged when validation fails |
| StepBodies.FindTask | multivarka.js:200-208 | the `find` body gives exactly `Apply` for `find` and never continues; the object is unchanged |
| StepBodies.RemoveTask | multivarka.js:220-228 | the `remove` body gives exactly `Apply` for `remove` and never continues; the object is unchanged |
| StepBodies.UpdateTask | multivarka.js:259-268 | the `update` body gives exactly `Apply` for `update` and never continues; the object is unchanged |
| StepBodies.InsertTask | multivarka.js:281-289 | the `insert` body gives exactly `Apply` for `insert` and never continues; the object is unchanged |
| StepBodies.Rebuild | multivarka.js:70 | a new object holding exactly `{db, collection}` |
| Pipeline.Waterfall | multivarka.js:209-211 | the loop over the tasks ends exactly as the fold `Run` does |
| Pipeline.ContinueStep | multivarka.js:209 | a task that continues hands its record to the next queued task |
| Pipeline.ContinueAppend | multivarka.js:209 | running more tasks after a list is running the list, then continuing from its last record; a failure, store call or throw is never undone, and a completed run always has a last record |
| Pipeline.ShortCircuit | multivarka.js:200-211 | once a run has failed, called the store or thrown, tasks queued after it change nothing |
| Pipeline.RunThreads | multivarka.js:209 | a run that completes hands its last record to the tasks queued after it |
| Pipeline.EndsAtTerminal | multivarka.js:200-208 | a task list ending in a terminal task never completes |
| Pipeline.TerminalRunIsFinal | multivarka.js:199-211 | every list a terminal method runs fails, calls the store or throws |
| Pipeline.StaleTasksMaskNewChain | multivarka.js:200-211 | a second chain queued behind a terminal task without a reset never runs: the longer list ends as the first did |
| Pipeline.FailedStepStops | multivarka.js:201-211 | a validation failure at any position after the first ends the whole run with the message, so no later task, store call or close happens |
| Pipeline.ContinueCoherent | multivarka.js:204-206 | as long as records keep the collection handle with their connection, a store call goes through that connection and closes it |
| Pipeline.IssuedClosesOpenedConnection | multivarka.js:50-53 | a run reaches the store only if it starts with a `server` that connected, and it closes that connection and uses one of its collections |
| Pipeline.LateServerThrows | multivarka.js:48-55 | a `server` anywhere but first throws when its turn comes |
| Builder.Multivarka.constructor | multivarka.js:4 | the module starts with an empty task list |
| Builder.Multivarka.Server | multivarka.js:48-57 | appends exactly one `server` task and returns the builder |
| Builder.Multivarka.Collection | multivarka.js:64-74 | appends exactly one `collection` task and returns the builder |
| Builder.Multivarka.Where | multivarka.js:81-91 | appends exactly one `where` task and returns the builder |
| Builder.Multivarka.Not | multivarka.js:96-105 | appends exactly one `not` task and returns the builder |
| Builder.Multivarka.Equal | multivarka.js:112-125 | appends exactly one `equal` task and returns the builder |
| Builder.Multivarka.LessThan | multivarka.js:132-145 | appends exactly one `lessThan` task and returns the builder |
| Builder.Multivarka.GreatThan | multivarka.js:152-165 | appends exactly one `greatThan` task and returns the builder |
| Builder.Multivarka.Include | multivarka.js:171-193 | appends exactly one `include` task and returns the builder |
| Builder.Multivarka.Set | multivarka.js:241-252 | appends exactly one `set` task and returns the builder |
| Builder.Multivarka.Find | multivarka.js:199-213 | appends exactly one `find` task, runs the whole list, and ends as `Run` does on it |
| Builder.Multivarka.Remove | multivarka.js:219-233 | appends exactly one `remove` task, runs the whole list, and ends as `Run` does on it |
| Builder.Multivarka.Update | multivarka.js:258-273 | appends exactly one `update` task, runs the whole list, and ends as `Run` does on it |
| Builder.Multivarka.Insert | multivarka.js:280-294 | appends exactly one `insert` task for the document, runs the whole list, and ends as `Run` does on it |
| Builder.Multivarka.Reset | multivarka.js:295-297 | the task list is empty afterwards |
| Builder.FindYoungUsers | multivarka.js:48-211 | a chain of builder calls appends its five tasks in order and runs them |
| Builder.ResetIsolatesRuns | multivarka.js:295-297 | with a reset before each, the same chain run twice ends the same way, as the chain alone does |
| Builder.StaleChainRepeatsFirstRun | multivarka.js:200-211 | without a reset, the second chain's `insert` ends exactly as the first `find` did |
| Scenarios.FindLessThan | multivarka.js:141 | `where("age").lessThan(30).find` calls `find` with `{age: {$lt: 30}}` on the chosen collection and closes the connection |
| Scenarios.FindNotLessThan | multivarka.js:138 | with `not` before `lessThan(30)`, `find` receives `{age: {$gt: 30}}` |
| Scenarios.FindInclude | multivarka.js:186-189 | `include(["admin", "owner"])` makes `find` receive `{$or: [{role: "admin"}, {role: "owner"}]}` |
| Scenarios.FindNotInclude | multivarka.js:177-183 | with `not`, `include(["admin"])` makes `find` receive `{role: [{$ne: "admin"}]}` |
| Scenarios.UpdateEqual | multivarka.js:246-248 | `equal(7).set("active", false).update` calls `update` with `{id: 7}`, `{$set: {active: false}}` and `{multi: true}` |
| Scenarios.InsertWithoutFilter | multivarka.js:285 | `insert` right after `collection` reaches the store with the document |
| Scenarios.EqualBeforeWhere | multivarka.js:114-116 | `equal` without a prior `where` ends the run with the message |
| Scenarios.ConnectionRefused | multivarka.js:50-53 | a refused connection ends the run with the driver's error, whatever follows |

## Left out

- The MongoDB driver is not modelled. `MongoClient.connect` is the `connect` parameter. `db.collection(name)` is the value `Coll(db, name)`. The store calls are recorded as `StoreCall` values and are not executed, so no query semantics are modelled.
- The user callback, and the `db.close()` that follows the store's reply, are out of the model; `Issued` records which connection the close applies to.
- The final callback's `console.log` is diagnostic output and is left out.
- `async.waterfall`'s asynchronous scheduling is left out. It is modelled as a synchronous fold, including its calling convention: the first task receives only the continuation, and every later task receives the previous record and the continuation.
- JavaScript key order and computed property names are abstracted. A record is a datatype with optional fields, and `Object.keys` is a set of key names.
- `for...in` over the candidate array is modelled as a loop over the indices of a sequence; holes and extra properties of sparse arrays are not modelled.
- Numbers are unbounded integers. The builder only passes them through and never computes with them.
- An unknown operator or stage cannot be reached from the builder. For `compareRequest`, a name inherited from `Object.prototype` is the value `Inherited(name)`, which stands for the built-in without modelling it. For `validParams`, any stage missing from the table requires nothing. That includes inherited names, whose values (a built-in function or `Object.prototype`) have no enumerable keys for `for...in`.
- The value a connection error carries is a string, and a driver that neither connects nor errors is not modelled.
- In the code, `update` does not require `findArgs`, and it passes `undefined` through as the filter (`StepLaws.UpdateWithoutFilter`).
- In the code, several filter steps do not combine: each replaces `findArgs` (`StepLaws.LastFilterWins`).
- In the code, a failed validation does not close the connection, and it does not call the user callback; only the final callback sees the message.
- In the code, a first task other than `server`, or a `server` task later in the list, throws because it calls a non-function as its continuation. The model records this as `Crashed`.
