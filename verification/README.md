# Verification of the settlement core

A Dafny model of the parts of this repository that decide what is stored and who is paid, with
proofs of what they promise. Everything is checked by the Dafny verifier with

    dafny verify dfyconfig.toml

## What is modelled

**The generated create builders** (`CreateModel`, `BulkSave`, `BulkBuilder`, `BulkSafety`,
`BulkFreshness`, `BulkScript`, `BulkAtomic`, `BulkFaults`, `BulkDescent`, `BulkTrace`, `SaveContents`, `SingleSave`, `SingleBuilder`). A bulk save is a chain of
hook-wrapped closures that fill shared arrays and in which only the last one writes. A hook is an
arbitrary terminating policy: before each of its actions it sees its argument, the last answer of
`next` and the whole world, including the history of everything that happened so far. The world is
a store of mutation objects, the builders' pointers into it, the table and that history.
`BulkScript` runs saves whose hooks follow a script, to show that the conditions on hooks are exact.
`BulkSave` and `SingleSave` say what a save means, `BulkBuilder` and `SingleBuilder` are the objects
that do it in place and are proved equal to it, and the other files prove the theorems.

**Eager loading and queries** (`EagerJoin`, `EdgeLoad`, `ApiKeyQuery`, `QueryRuns`). The loaders build id lists and
maps in loops and assign edges in place; the joins are compared with one lookup per node. `sqlAll`,
`First`, `Only`, `OnlyID`, `IDs` and `Exist` run on an object that keeps its limit, selection and child
queries from run to run.

**The row codec** (`NonceCodec`): defaults, check and createSpec out, scanValues and assignValues in.

**Token rate selection** (`RateScan`), **the payout webhook** (`PayoutWebhook`) and **split-order
status** (`OrderStatus`).

**The ledger** (`Ledger`, `Movements`, `MovementEffects`, `LedgerLocks`, `LedgerWaits`, `LedgerSafety`): the int64 guard against the exact
trigger, idempotency keys, all the named movements, and movements as database transactions that
interleave step by step: lock the spending account, read its committed balance, pass the guard,
insert the entries one at a time, commit under the trigger or fail.

## Where the code and its descriptions differ

- A bulk save checks the mutation a builder had and only then adopts the one it was given, so a hook
  that swaps mutations gets an unchecked row stored. A single save copies first and refuses it.
- A hook that edits the mutation of an earlier builder comes too late: that builder's row is built.
- A hook that swallows an error makes a bulk save succeed with mutations marked done and no row. A hook
  that skips next and succeeds, invents an error or calls next again breaks all-or-nothing too.
- A builder keeps the limit that `First` or `Only` set, and the id column that `IDs` selected. A slice
  of ids has room for one column, so `IDs`, `OnlyID`, `FirstID` and `Exist` fail after any selection,
  and after each other.
- The unexpected-key errors of the eager loads cannot occur: the query was narrowed to the ids.
- A matching rate bucket is overwritten by a later bucket that does not match but has a larger maximum.
- The payout webhook is described as idempotent. That holds for the stored order; a replayed success
  launches another settlement, and a late failure overwrites a success.
- The fallback path of the order status does not sort its receipts, so it can report an older hash.
- The ledger's guard sums in int64 and can wrap to zero; the trigger is exact, as its comment says.
- `Amount.Add` misses one overflow: the least int64 added to itself.
- `funds.go` says that one lock per movement, taken first, makes deadlock impossible by construction.
  With that lock alone it is so. But `ledger_entries` has a foreign key to `ledger_accounts`, and
  PostgreSQL holds a `FOR KEY SHARE` lock on a referenced row, which conflicts with `FOR UPDATE`
  (section 13.3.2, Row-Level Locks, of the PostgreSQL documentation). With it, movements can wait for
  each other exactly when they form a ring, as locking and releasing one agent's float do. PostgreSQL
  then aborts one of them; that is the failure step of the model, and no balance is harmed.
- `funds.go` says that every spending movement locks what it spends. A tap reversal and a returned
  withdrawal take no lock and check neither balance nor amount: a reversal can take a merchant below
  zero, and a negative one of either the user.
- `settlement.go` says that only `Settled` discharges `payable`. `Returned` and `MerchantPayoutReturned`
  take from it too, and `Settled` and `Returned` without a look at its balance.

## Model

| member | source | states |
|---|---|---|
| BulkBuilder.APIKeyCreateBulk.Save | apps/api/ent/apikey_create.go:416-469 | In place over the specs and nodes arrays and the builders’ mutation pointers, `Save` ends in exactly the result and world of the bulk semantics the theorems below are about; a builder error is returned with nothing touched |
| BulkBuilder.APIKeyCreateBulk.Closure | apps/api/ent/apikey_create.go:427-461 | One mutator body over the arrays agrees with the semantics: type assertion, check, adopt, fill slot i, go on, mark done |
| BulkBuilder.APIKeyCreateBulk.Descend | apps/api/ent/apikey_create.go:439-452 | Either the next mutator runs, or the one batch write is issued and its error translated |
| BulkBuilder.APIKeyCreateBulk.Mutate | apps/api/ent/apikey_create.go:462-466 | The wrapped chain of builder i, entered below its first k hooks, agrees with the semantics and terminates on builders left, then hooks left, then hook actions left |
| BulkSafety.EveryWriteIsComplete | apps/api/ent/apikey_create.go:424-452 | Whatever the hooks do (skip or repeat next, swap or edit any mutation, swallow or invent errors), every batch that reaches the database has one filled slot per builder |
| BulkSafety.MutateSound | apps/api/ent/apikey_create.go:427-466 | The invariant behind it: a mutator of builder i that starts with slots 0..i filled only ever causes complete writes, and without swaps only rows that passed the check |
| BulkSafety.UnswappedRowsAreValid | apps/api/ent/apikey_create.go:144-154 | If no hook passes on another mutation, every row inserted satisfies the required-field check and the validator, however much was edited in between |
| BulkSafety.SwappedRowValidIff | apps/api/ent/apikey_create.go:432-437 | `check` looks at the old mutation and the new one is adopted after it: for every builder, and whatever later hooks do, each write that follows carries for it a valid row if and only if the given mutation would have passed the check itself |
| BulkSafety.ClosureExtends | apps/api/ent/apikey_create.go:437-446 | Every write caused by a builder’s mutator carries the slots of the builders before it unchanged, followed by its own |
| BulkSafety.AlwaysValidIff | apps/api/ent/apikey_create.go:427-452 | All saves store only valid rows, whatever else their hooks do, if and only if hooks may pass on nothing but their builder’s own mutation |
| BulkSafety.SwapStoresUncheckedRow | apps/api/ent/apikey_create.go:432-437 | A concrete hook that makes a bulk save store a row without its required secret and report success |
| BulkFreshness.EveryWriteIsCurrent | apps/api/ent/apikey_create.go:437-446 | If hooks pass on their builder’s mutations and edit none of an earlier builder, row j of every write is the spec of builder j’s current mutation as it reads when the write is issued |
| BulkFreshness.AlwaysCurrentIff | apps/api/ent/apikey_create.go:427-446 | For any number of builders and any relation saying which builders’ mutations a hook may edit: every write of every such save is current if and only if no builder may edit an earlier builder’s mutation |
| BulkFreshness.LateEditIsLost | apps/api/ent/apikey_create.go:437-446 | For any n and any j < i < n, a save of n builders in which the hook of builder i edits the mutation of builder j and the write still carries the old row |
| BulkScript.ScriptedSave | apps/api/ent/apikey_create.go:416-469 | For any script of edits and passed-on mutations under which every check passes: the batch that is written, the references and mutations at that moment, and the rows stored |
| BulkAtomic.AllOrNothing | apps/api/ent/apikey_create.go:424-468 | With hooks that call next at most once, fail if they did not, and else fail exactly when it did (they may refuse, wrap the error or answer another value): success means exactly one accepted write, all rows inserted, node i describing row i and exactly the builders’ mutations newly done; failure means no row, no done flag and at most one refused write |
| BulkFaults.AlwaysAtomicIff | apps/api/ent/apikey_create.go:424-468 | For any number of builders, and for what each one’s hooks may do beyond that (succeed without next, swallow its failure, fail after its success, call it again): all such saves are all or nothing if and only if no builder’s hooks may do any of the four |
| BulkFaults.FaultBreaksTheLaw | apps/api/ent/apikey_create.go:450-466 | For any n, any builder and any of the four faults: a save of n good mutations in which one hook commits it and which stores rows without success, succeeds without rows, or stores them twice |
| BulkFaults.TurnStores | apps/api/ent/apikey_create.go:427-468 | How many rows such a save stores and whether it answers success, from any builder’s turn on |
| BulkAtomic.AfterNext | apps/api/ent/apikey_create.go:462-466 | After next has answered, such a hook leaves rows, slots, done flags and writes alone and succeeds iff next did |
| BulkAtomic.EmptySave | apps/api/ent/apikey_create.go:463-468 | A bulk save of no builders succeeds without a write |
| BulkAtomic.SwallowedErrorBreaksTheLaw | apps/api/ent/apikey_create.go:450-459 | One hook that swallows a refused write makes the save succeed with a mutation done and no row stored |
| BulkDescent.FirstRefusalDecides | apps/api/ent/apikey_create.go:427-468 | With hooks that edit, swap and refuse, call next at most once and hand its errors back: the error is that of the first builder refused at its turn, in the state its predecessors left, and nothing is written; otherwise one write carries what they filled and the database decides |
| BulkDescent.WayInTurn | apps/api/ent/apikey_create.go:427-446 | Turns come builder by builder; all but the last are admitted, and the way down ends with the refusal of the last, with the error of a hook that did not call next, or after all builders |
| BulkDescent.WayDecides | apps/api/ent/apikey_create.go:439-466 | From any hook of any builder the end of the way down decides answer, rows and writes |
| BulkTrace.ObservedSave | apps/api/ent/apikey_create.go:427-468 | With observing hooks: the error is that of the first builder failing its check, and the history is the entries, then the single write of all specs in order (none on a failed check), then the mirrored exits |
| BulkTrace.ObserverRun | apps/api/ent/apikey_create.go:462-466 | From any hook of any builder the history grows by a properly nested bracket around the core |
| BulkTrace.MirrorReverses | apps/api/ent/apikey_create.go:462-466 | The exits are the entries in exact reverse |
| BulkTrace.OpeningMembers | apps/api/ent/apikey_create.go:462-466 | Exactly the hooks of the builders up to the first failing one are entered |
| BulkTrace.OpeningInOrder | apps/api/ent/apikey_create.go:462-466 | Hooks are entered builder by builder, outermost first |
| SaveContents.ObservedSaveTells | apps/api/ent/apikey_create.go:135-258 | What a caller gets from a bulk save with observing hooks, in terms of what was set before it: the error names the first mutation without a good secret and nothing is saved; otherwise the database gets one row per builder, in order, with the set or else the new id, secret, profiles, payment orders and conflict options, and if it takes them the nodes say the same and each mutation is done under its id |
| SaveContents.ObservedSingleTells | apps/api/ent/apikey_create.go:108-177 | The same for a single save |
| SaveContents.DefaultsPrepare | apps/api/ent/apikey_create.go:136-141 | Defaults give each mutation without an id the new id of its own builder, and change nothing else |
| SaveContents.ObserversMark | apps/api/ent/apikey_create.go:456-459 | From any hook of any builder: a success saves exactly the mutations from that builder on, each under its own id; a failure leaves all as they were |
| SingleBuilder.APIKeyCreate.Save | apps/api/ent/apikey_create.go:108-111 | The single builder object ends in the result and world of the single-save semantics |
| SingleBuilder.APIKeyCreate.SqlSave | apps/api/ent/apikey_create.go:156-177 | Check, createSpec, insert, then id and done on the builder’s mutation, as the semantics says |
| SingleBuilder.APIKeyCreate.Mutate | apps/api/ent/ent.go:553-569 | Hooks wrapped around a mutator that first copies the arriving mutation over the builder’s own |
| SingleBuilder.APIKeyCreate.OnConflict | apps/api/ent/apikey_create.go:262-267 | Replaces the conflict options and nothing else |
| SingleSave.BulkOfOneRefinesSave | apps/api/ent/ent.go:545-577 | For every hook that does not swap mutations, a bulk save of one builder and a single save give the same mutations, table, history and errors; the only extra single-save error is a hook that answers with no node |
| SingleSave.AlwaysRefinesIff | apps/api/ent/ent.go:559-565 | All bulk saves of one builder refine the single saves, whatever else their hooks do, if and only if hooks may pass on nothing but the builder’s own mutation; agreeing on rows and errors alone needs the same condition |
| SingleSave.SingleRowsAreValid | apps/api/ent/ent.go:559-565 | A single save checks what it copied: whatever its hooks do, swaps included, every row it stores is valid |
| SingleSave.BulkOfOneReturnsTheNode | apps/api/ent/apikey_create.go:108-177 | With hooks that hand back the answer of next the node returned is the same too |
| SingleSave.MutateAgrees | apps/api/ent/ent.go:559-576 | The two hook chains agree step for step from any hook on |
| SingleSave.SingleSaveRefusesTheSwap | apps/api/ent/ent.go:559-565 | The swap that a bulk save lets through is refused by a single save |
| EagerJoin.InFirstOccurrenceOrder | apps/api/ent/apikey_query.go:501-513 | The id list is in order of first occurrence: an id stands before another iff its first node does |
| EagerJoin.JoinIsLookup | apps/api/ent/apikey_query.go:501-532 | Under a fresh unlimited child query every node gets exactly what its own lookup by key would find; nil and dangling keys get nothing; no stray neighbour is reported |
| EagerJoin.LookupIsUnique | apps/api/ent/apikey_query.go:501-532 | The reference lookup determines its answer when keys are primary |
| EagerJoin.JoinIsLookupIff | apps/api/ent/apikey_query.go:339-346 | For any child query, used before or not and limited or not: the join agrees with the lookups of all nodes if and only if earlier runs keep no wanted row out and the limit, which counts over all nodes, cuts none off |
| EagerJoin.NeverStray | apps/api/ent/apikey_query.go:522-530 | Because the query was narrowed to the ids, the unexpected-key branch is never reached, whatever the query was narrowed to before |
| EagerJoin.RerunsOnlyNarrow | apps/api/ent/apikey_query.go:513-516 | After any runs of the same builder a row is fetched iff it passes the caller’s predicate and its key was in the id list of every run that had one |
| EagerJoin.LoadedInRunIff | apps/api/ent/apikey_query.go:513-530 | An edge is loaded in a run iff a row with its key passes the caller’s predicate and the key was asked for in every earlier run that asked for anything |
| EagerJoin.AfterRunsKeepsConfig | apps/api/ent/apikey_query.go:513-516 | Runs add id lists and change nothing else of the child query |
| EagerJoin.RepeatedRunFetchesTheSame | apps/api/ent/apikey_query.go:479-497 | Running again over the same nodes and tables fetches the same neighbours |
| EagerJoin.BucketsPartition | apps/api/ent/apikey_query.go:565-595 | With distinct node ids and no stray neighbour, the lengths of the lists sum to the number of neighbours |
| EagerJoin.BucketIsLookup | apps/api/ent/apikey_query.go:565-595 | With a fresh unlimited child query each node’s list is, in the same order, what a lookup by its id would return |
| EagerJoin.BucketsAreLookupsIff | apps/api/ent/apikey_query.go:361-368 | For any child query and distinct ids: every list is its lookup, in order, if and only if earlier runs keep no wanted row out and the limit cuts none off |
| EagerJoin.BucketEmptyIff | apps/api/ent/apikey_query.go:565-595 | A node’s list is empty iff no neighbour has its id as key |
| EdgeLoad.GroupByKey | apps/api/ent/apikey_query.go:502-512 | The loop yields the distinct non-nil keys in first-occurrence order and, under each, exactly the nodes that hold it |
| EdgeLoad.HandOut | apps/api/ent/apikey_query.go:521-530 | Fails iff some neighbour’s key is unknown; otherwise each node holds the last neighbour with its key, or what it held before |
| EdgeLoad.LoadToOne | apps/api/ent/apikey_query.go:501-532 | The whole to-one load in place: with no key the query is untouched; otherwise it gains one id list and the nodes hold the join |
| EdgeLoad.Distribute | apps/api/ent/fiatcurrency_query.go:514-526 | Fails iff some neighbour has a nil or unknown key; otherwise the lists share out the neighbours in order |
| EdgeLoad.LoadToMany | apps/api/ent/apikey_query.go:565-595 | The whole to-many load in place, including that it always narrows the query and asks for foreign keys |
| EdgeLoad.LastAtOnly | apps/api/ent/apikey_query.go:566-574 | Nodes with distinct ids each keep their own list |
| EdgeLoad.SharedIsBucketIff | apps/api/ent/apikey_query.go:566-574 | If a node occurs twice, a copy has the full list iff it is the last copy or the list is empty |
| EdgeLoad.ToOneEdge.OrErr | apps/api/ent/apikey.go:47-65 | A loaded neighbour is what the accessor answers; otherwise it fails, with not-loaded iff the edge was not requested |
| EdgeLoad.ToManyEdge.OrErr | apps/api/ent/apikey.go:69-74 | Not-loaded iff the edge was not requested; otherwise exactly the loaded list |
| ApiKeyQuery.APIKeyQuery.ReadColumns | apps/api/ent/apikey_query.go:444-461 | For every selection: the id first, then the selected columns in order or else the secret, then both foreign keys if and only if a to-one edge or the keys are requested |
| ApiKeyQuery.RowsFilter | apps/api/ent/apikey_query.go:606-644 | Rows pass the predicate one by one, in table order |
| ApiKeyQuery.RowsPage | apps/api/ent/apikey_query.go:606-644 | Offset and limit cut the page out of the whole result: what comes after the offset, up to the limit |
| ApiKeyQuery.APIKeyQuery.SqlAll | apps/api/ent/apikey_query.go:444-499 | Fails iff the key table is down or a requested edge with something to load is; otherwise one node per row in order with the selected fields and every requested edge joined. Failed or not, the child queries are those that `PlanAfter` gives: narrowed up to and including the load that failed |
| ApiKeyQuery.APIKeyQuery.LoadEdges | apps/api/ent/apikey_query.go:479-497 | The three loads in order; fails iff a requested table with something to load is down |
| ApiKeyQuery.All | apps/api/ent/apikey_query.go:237-244 | For every returned node: an unrequested edge answers not-loaded; a requested to-one edge answers not-found iff the row’s key is nil or no fetched row has it, else that row; a requested to-many edge answers its list |
| ApiKeyQuery.EdgeTells | apps/api/ent/apikey.go:47-65 | The same of one to-one slot that holds what was joined for its key |
| ApiKeyQuery.FreshTells | apps/api/ent/apikey.go:47-65 | For a child query without a limit that was not used before: not-found iff the key is nil or no row of the table with that key passes the caller’s predicate |
| ApiKeyQuery.LoadedIsLookup | apps/api/ent/apikey_query.go:479-497 | Edge by edge, for any child queries: all returned nodes hold what separate lookups would give if and only if earlier runs keep no wanted row out and a limit cuts none off |
| QueryRuns.ProfilesLoadedIff | apps/api/ent/apikey_query.go:479-490 | After any runs, failed ones included, a profile edge is loaded iff its neighbour exists and passes the caller’s predicate and its key was asked for in every earlier run that came to this load with any key |
| QueryRuns.OrdersLoadedIff | apps/api/ent/apikey_query.go:491-497 | After any runs, failed ones included, a node’s list is its full lookup if the node was in every earlier run that came to this load with any node, and empty otherwise |
| QueryRuns.SenderPlans | apps/api/ent/apikey_query.go:479-484 | The to-one child query after any runs has one id list for every run that came to its load with a key |
| QueryRuns.ProviderPlans | apps/api/ent/apikey_query.go:479-490 | The second load likewise; runs whose first load failed did not come to it |
| QueryRuns.OrderPlans | apps/api/ent/apikey_query.go:479-497 | The to-many child query likewise; runs in which either to-one load failed did not come to it |
| QueryRuns.RunAll | apps/api/ent/apikey_query.go:444-499 | Any number of runs of one builder, each over its own snapshot: which fail, the edges each of the others returned, unchanged by the later runs, and the child queries that are left, as the lemmas above have them |
| QueryRuns.RunTwice | apps/api/ent/apikey_query.go:444-499 | A second run over unchanged tables and limits succeeds iff the first did, and every node has the same three edges |
| QueryRuns.ExistTwice | apps/api/ent/apikey_query.go:256-305 | A second id question on one builder fails, since the id column of the first is still selected |
| ApiKeyQuery.APIKeyQuery.AllUpTo | apps/api/ent/apikey_query.go:133-146 | A limited query answers the first rows of the whole result, with their edges; the limit stays on the builder |
| ApiKeyQuery.APIKeyQuery.First | apps/api/ent/apikey_query.go:138-147 | Returns the first row of the unlimited result, with its edges loaded, iff there is one and its edges load; not-found iff the unlimited result is empty; an earlier limit is overwritten and the new one stays |
| ApiKeyQuery.APIKeyQuery.Only | apps/api/ent/apikey_query.go:184-197 | From at most two fetched rows: the row with its edges iff the unlimited result is exactly one row and they load, not-found iff empty, not-singular iff at least two (given the edges load) |
| ApiKeyQuery.APIKeyQuery.OnlyID | apps/api/ent/apikey_query.go:211-225 | If nothing was selected before: x iff the unlimited result is exactly [x], not-found iff empty, not-singular iff at least two rows; after any selection it fails for too many columns |
| ApiKeyQuery.APIKeyQuery.FirstID | apps/api/ent/apikey_query.go:160-170 | If nothing was selected before: the first id of the unlimited result, or not-found iff it is empty; after any selection it fails |
| ApiKeyQuery.APIKeyQuery.Exist | apps/api/ent/apikey_query.go:295-305 | If nothing was selected before: true iff the unlimited result is not empty; after any selection it fails |
| ApiKeyQuery.APIKeyQuery.IDs | apps/api/ent/apikey_query.go:256-265 | The ids of the result in order iff nothing was selected before; the id column stays selected on the builder |
| ApiKeyQuery.APIKeyQuery.Select | apps/api/ent/apikey_query.go:405-411 | Appends to the selection |
| ApiKeyQuery.APIKeyQuery.Limit | apps/api/ent/apikey_query.go:45-49 | Overwrites the limit |
| NonceCodec.CardServerNonceCreate.Defaults | apps/api/ent/cardservernonce_create.go:193-210 | Fills exactly the unset fields that have defaults |
| NonceCodec.CardServerNonceCreate.CreateSpec | apps/api/ent/cardservernonce_create.go:287-368 | Field by field, the spec ends up with exactly the set fields, edges as foreign-key columns, and the node with the same values |
| NonceCodec.CheckAfterDefaults | apps/api/ent/cardservernonce_create.go:213-262 | After defaults the check passes if and only if the nonce, tier, amount, expiry, card and sender are set and valid and the currency, if set, fits |
| NonceCodec.CheckReports | apps/api/ent/cardservernonce_create.go:213-262 | Which of nonce, tier, amount, currency, expiry, card and sender profile is reported, and whether as missing or as invalid: the first in this order |
| NonceCodec.SentColumns | apps/api/ent/cardservernonce_create.go:287-384 | Every set field is sent as it was set in its own column, and no other column is sent |
| NonceCodec.ScanValues | apps/api/ent/cardservernonce.go:83-104 | Each column gets a destination for which, whatever the driver scans into it, assignValues finds the type it asserts |
| NonceCodec.CardServerNonce.AssignValues | apps/api/ent/cardservernonce.go:108-195 | In place, stopping at the first value of the wrong type |
| NonceCodec.ReadBackSelected | apps/api/ent/cardservernonce.go:83-195 | For any columns in any order and with repeats, reading a stored row never meets a wrong type and yields createSpec’s node cut down to those columns |
| NonceCodec.RoundTrip | apps/api/ent/cardservernonce.go:83-195 | Read in full, a stored row is the node that createSpec returned |
| NonceCodec.CheckedRowReadsBack | apps/api/ent/cardservernonce_create.go:193-285 | A nonce that passes the check reads back with every field as it was set: id, times and currency or their defaults, both keys, expiry, the required texts and the two optional times |
| NonceCodec.RowDeterminesNode | apps/api/ent/cardservernonce.go:108-195 | Nodes differ only if their rows do |
| RateScan.GetTokenRate | apps/api/controllers/reference.go:160-199 | The nested loops with their breaks compute the last-writer specification |
| RateScan.FirstMatchIsFirst | apps/api/controllers/reference.go:176-191 | A bucket’s match is its first provider of the token whose amount is in range |
| RateScan.FirstTokenIsFirst | apps/api/controllers/reference.go:176-196 | A bucket’s top offer is its first provider of the token |
| RateScan.SpillsOverMeansWrites | apps/api/controllers/reference.go:168-199 | A bucket writes iff it has a match, or its first offer is out of range and its maximum exceeds zero and every earlier spill |
| RateScan.MatchSurvivesIff | apps/api/controllers/reference.go:168-199 | A match is not sticky: the last fitting bucket decides the answer if and only if no later bucket spills over |
| RateScan.SurvivingMatchFits | apps/api/controllers/reference.go:185-191 | Then the answer is its match and is in range |
| RateScan.HighestIsGreatest | apps/api/controllers/reference.go:168-196 | The running maximum is the greatest of zero and the maxima of the buckets that spilled |
| RateScan.HighestNeverDecreases | apps/api/controllers/reference.go:192-196 | The running maximum never decreases |
| RateScan.NoMatchPicksGreatest | apps/api/controllers/reference.go:168-199 | Without a match the answer is the first offer of the earliest bucket with the greatest positive maximum |
| RateScan.NoMatchElseMarket | apps/api/controllers/reference.go:125 | With neither a match nor a positive spill it is the market rate, and there is no third case |
| RateScan.RateTells | apps/api/controllers/reference.go:125-200 | From the buckets alone: with min and max, token amount times rate, and maxima written out, the last bucket that fits or misses above zero and above every earlier miss gives the rate of its first provider that fits, or else of its first offer; without one it is the market rate |
| RateScan.LaterBucketOverwritesMatch | apps/api/controllers/reference.go:168-199 | A concrete scan whose answer is out of range although an earlier bucket fitted |
| PayoutWebhook.PayoutStore.BaaSWebhook | apps/api/controllers/baas_webhook.go:79-92 | One callback changes orders and launches as one step of the state machine; every callback is acknowledged |
| PayoutWebhook.PayoutStore.ApplyFiatPayoutWebhook | apps/api/controllers/baas_webhook.go:99-152 | Parse, classify, guarded update, launch: the same step |
| PayoutWebhook.PayoutStore.Drain | apps/api/controllers/baas_webhook.go:79-152 | A whole stream of callbacks is a run of the machine |
| PayoutWebhook.CallbackUpdatesItsOrder | apps/api/controllers/baas_webhook.go:99-134 | A callback with the stored reference of its order, route and id text, stores a success without session or error if its status is one of the five success words, a failure without session if one of the seven failure words; other orders, and all orders otherwise or if the database refuses, stay as they were |
| PayoutWebhook.CallbackTells | apps/api/controllers/baas_webhook.go:99-152 | For any callback and any stored order, with the words listed, in any case and any white space around: exactly one new settlement on a success, none on a failure, and nothing for the order if the text is neither, the reference does not name it and match the stored one, or the database refuses |
| PayoutWebhook.UnreachedIsIgnored | apps/api/controllers/baas_webhook.go:79-138 | A callback that names no stored order by its stored reference changes nothing at all |
| PayoutWebhook.MatchTells | apps/api/controllers/baas_webhook.go:99-134 | Which callbacks of a stream the theorems on streams count as the successes and failures of an order |
| PayoutWebhook.WordsDecide | apps/api/controllers/baas_webhook.go:109-118 | Trimming and lower-casing a raw status recognises exactly the listed words, two letters outside ASCII included |
| PayoutWebhook.ReferenceNamesItsOrder | apps/api/controllers/baas_webhook.go:99-107 | The reference built from a route and the text of an order’s id leads back to that order |
| PayoutWebhook.ForeignReferenceIsIgnored | apps/api/controllers/baas_webhook.go:120-138 | A callback whose reference an order has not stored neither changes nor launches that order |
| PayoutWebhook.StatusIsLastMatch | apps/api/controllers/baas_webhook.go:120-137 | After any stream an order’s status is that of its last terminal callback carrying its id and stored reference, else unchanged; a match clears the session and a success the error |
| PayoutWebhook.OnlyOwnEventsMatter | apps/api/controllers/baas_webhook.go:120-139 | Deleting every non-matching callback from a stream changes neither an order nor its launches |
| PayoutWebhook.LaunchesMatchSuccesses | apps/api/controllers/baas_webhook.go:143-151 | Settlements launched for an order are one for one its matching success callbacks, each from a stored success without session or error |
| PayoutWebhook.DifferentOrdersCommute | apps/api/controllers/baas_webhook.go:120-139 | Callbacks of different orders commute on the stored orders |
| PayoutWebhook.LaunchesCommute | apps/api/controllers/baas_webhook.go:143-151 | and on every order’s launches |
| PayoutWebhook.RepeatChangesNothing | apps/api/controllers/baas_webhook.go:94-98 | A repeated callback leaves the stored orders as they were |
| PayoutWebhook.RunKeepsKeys | apps/api/controllers/baas_webhook.go:120-126 | No run adds, removes or re-references an order |
| PayoutWebhook.SuccessSticksIff | apps/api/controllers/baas_webhook.go:120-137 | A successful order stays successful if and only if its last matching callback is a success |
| PayoutWebhook.ReplayLaunchesAgainAndFailureWins | apps/api/controllers/baas_webhook.go:143-151 | A concrete stream in which a replay launches a second settlement and a late failure overwrites the success |
| OrderStatus.GetLockPaymentOrderStatus | apps/api/controllers/order_status.go:84-182 | The loops compute the specified response: sums over the settlements in order and receipts sorted stably, latest first |
| OrderStatus.ResponseSums | apps/api/controllers/order_status.go:114-115 | Amount and percent settled are those of a single order, and every further order adds its own |
| OrderStatus.ResponseLists | apps/api/controllers/order_status.go:107-126 | One settlement per split order, in order, with its id, amount, rate and percent; the status of the first, a cancelled one as processing |
| OrderStatus.ResponseReceipts | apps/api/controllers/order_status.go:90-170 | The receipts show the created, settled and refunded transactions of all orders as pending, settled and refunded, in a stable order by time, and the hash is that of the first |
| OrderStatus.ReceiptsShow | apps/api/controllers/order_status.go:91-105 | Receipts show these transactions one for one, in scan order |
| OrderStatus.AppendReceipts | apps/api/controllers/order_status.go:91-105 | Only created, settled and refunded transactions become receipts, in scan order |
| OrderStatus.ScannedMembers | apps/api/controllers/order_status.go:90-105 | A receipt is listed iff some split order has the transaction it reports |
| OrderStatus.SortIsStable | apps/api/controllers/order_status.go:118-121 | The sorted receipts are a permutation in non-increasing time with ties in scan order |
| OrderStatus.StableSortIsUnique | apps/api/controllers/order_status.go:118-121 | There is only one such list, so the library’s algorithm does not matter |
| OrderStatus.FirstIsLatest | apps/api/controllers/order_status.go:118-121 | The first sorted receipt is the latest, and the earliest scanned of those on a tie |
| OrderStatus.ReportedHashIsLatest | apps/api/controllers/order_status.go:167-182 | If any split order has a created, settled or refunded transaction, the reported hash is that of the latest one, earliest scanned on a tie; otherwise it is empty |
| OrderStatus.LatestExists | apps/api/controllers/order_status.go:118-121 | There is always such a latest receipt |
| OrderStatus.PaymentOrderReceipts | apps/api/controllers/order_status.go:256-278 | The fallback path lists receipts as scanned |
| OrderStatus.FallbackLeadsWithLatestIff | apps/api/controllers/order_status.go:256-278 | The fallback reports the latest receipt if and only if the first scanned is not earlier than any other |
| OrderStatus.FallbackReportsOlderHash | apps/api/controllers/order_status.go:256-278 | A concrete order for which it reports the older hash |
| Ledger.Check | apps/api/internal/ledger/ledger.go:121-148 | Two loops over an int64 tally decide exactly the guard condition, and name the first improper entry, or a currency that does not sum to zero |
| Ledger.GuardMatchesTriggerIff | apps/api/internal/platform/migrate/sql/0001_ledger.sql:160-185 | The guard accepts whatever the trigger accepts, and accepts what the trigger refuses iff both sums are multiples of 2^64 and one reaches it |
| Ledger.FourCreditsPassTheGuard | apps/api/internal/ledger/ledger.go:126-146 | A concrete set of four credits that the guard lets through and only the trigger stops |
| Ledger.LedgerDb.Post | apps/api/internal/ledger/ledger.go:94-170 | Guard, insert with the unique key and the currency foreign key, commit with the trigger’s verdict; a failure leaves no trace |
| Ledger.PostedIff | apps/api/internal/ledger/ledger.go:94-170 | A posting is taken if and only if it has at least two proper entries on accounts of their currency, sums to zero exactly in both currencies, has a new id, and its key is empty or held by no transaction |
| Ledger.PostAdds | apps/api/internal/ledger/ledger.go:150-170 | What is taken adds its transaction with its key and its entries in order, and what is not leaves no trace |
| Ledger.DuplicateIff | apps/api/internal/ledger/ledger.go:173-183 | An acceptable posting under a held key is a duplicate, and a duplicate’s key is held; what the other errors mean |
| Ledger.EveryRunBalances | apps/api/internal/ledger/audit.go:72-88 | After any run of postings every transaction and every currency sums to zero, every entry is in its account’s currency, and no key is held twice: the audit’s conditions |
| Ledger.PostKeepsSound | apps/api/internal/platform/migrate/sql/0001_ledger.sql:151-185 | One posting keeps that invariant |
| Ledger.KeyCommitsOnce | apps/api/internal/ledger/ledger.go:72-81 | Over any run a non-empty key commits at most once, and is used afterwards iff it was before or committed |
| Ledger.KeyCommitsIff | apps/api/internal/ledger/ledger.go:72-81 | It commits if and only if the key was free and some posting under it was otherwise acceptable at its turn |
| Ledger.PostUsesKey | apps/api/internal/ledger/ledger.go:150-183 | Presenting a used key changes nothing |
| MovementEffects.PlanTells | apps/api/internal/ledger/movements/tap.go:33-147 | For each of the 22 requests and every account: what an accepted one moves, with payer, payee, fee and position accounts and amounts written out, and which account it locks for how much |
| MovementEffects.EntriesInOrder | apps/api/internal/ledger/movements/deposit.go:47-55 | A movement of one amount has two entries, and only value from outside is credited before it is debited |
| MovementEffects.DirectRefusals | apps/api/internal/ledger/movements/settlement.go:29-34 | When a movement of one amount is refused and why: amount, reference, reason, currency |
| MovementEffects.TapRefusals | apps/api/internal/ledger/movements/tap.go:40-55 | When a tap is refused and why |
| MovementEffects.WithdrawRefusals | apps/api/internal/ledger/movements/deposit.go:120-140 | When a withdrawal is refused and why; its fee may be negative |
| MovementEffects.ReversalRefusals | apps/api/internal/ledger/movements/tap.go:105-125 | When a reversal is refused and why; its amounts may be anything whose difference does not overflow |
| MovementEffects.ConvertRefusals | apps/api/internal/ledger/movements/fx.go:110-135 | When a conversion is refused and why |
| Movements.AddIsExactIff | apps/api/internal/money/amount.go:58-68 | Add is exact whenever the sum fits and reports overflow otherwise, except that the least int64 added to itself gives zero |
| Movements.SubIsExactIff | apps/api/internal/money/amount.go:71 | Sub is exact iff the difference fits and the subtrahend is not the least int64 (or both are) |
| Movements.PlannedIsAcceptedIff | apps/api/internal/ledger/movements/tap.go:33-147 | Every movement that plans and can be funded is accepted by the guard and the trigger, if and only if the fees of withdrawals and reversals and the amounts of reversals and returns, which nothing checks, are sane |
| Movements.CarryPostsIff | apps/api/internal/ledger/movements/settlement.go:60-89 | Two legs of one amount are proper and balance iff the amount is not zero and not the least int64 |
| Movements.ConvertPosts | apps/api/internal/ledger/movements/fx.go:50-108 | A conversion balances in each of its two currencies on its own |
| Movements.WithdrawPostsIff | apps/api/internal/ledger/movements/deposit.go:120-170 | A withdrawal balances iff its fee is not negative |
| Movements.ReversalPostsIff | apps/api/internal/ledger/movements/tap.go:105-147 | A reversal is proper and balances iff its fee is not negative, neither amount nor net is zero, and the net is not the least int64 |
| Movements.PlannedUncoveredIff | apps/api/internal/ledger/movements/funds.go:41-73 | For every request and every account: the movement is accepted and takes more than it locked the account for if and only if it is one of those listed by `TakesUnchecked` |
| Movements.OnlyTakenBack | apps/api/internal/ledger/movements/settlement.go:60-89 | Among the accounts of users, agents and merchants and the treasury those are reversals that debit merchant or cardholder, and returns of a negative amount |
| Movements.EntriesPassIff | apps/api/internal/ledger/ledger.go:121-148 | The guard on legs that the interleaving model uses is the ledger’s own guard on their entries |
| Movements.ReversalUndoesTap | apps/api/internal/ledger/movements/tap.go:99-147 | A tap and its reversal cancel on every account, fee included |
| Movements.UndoCancels | apps/api/internal/ledger/movements/settlement.go:188-285 | Whatever undoes an accepted movement (a reversed deposit, a released or returned float, a returned payout, a refunded on-chain or wallet settlement) is accepted too and cancels it on every account |
| Movements.PostedNets | apps/api/internal/platform/migrate/sql/0001_ledger.sql:151-185 | Books made of accepted postings balance in both currencies |
| Movements.PostedIsReached | apps/api/internal/ledger/ledger.go:94-170 | and are reached by a run of postings on an empty ledger that has their accounts |
| LedgerLocks.NeverOverdrawn | apps/api/internal/ledger/movements/funds.go:74-105 | For all interleavings and failures: an account that every accepted movement covers stays at or above zero, and whoever was told it has funds still finds them there |
| LedgerLocks.CanOverdrawIff | apps/api/internal/ledger/movements/funds.go:41-56 | For any set of movements: some schedule overdraws an account, from books of accepted postings in which it was not overdrawn, if and only if one of them passes both guard and trigger and does not cover it |
| LedgerLocks.RunConsistent | apps/api/internal/ledger/movements/funds.go:57-60 | At most one movement holds an account, and only funded movements that pass the guard write |
| LedgerLocks.RunKeepsPosted | apps/api/internal/platform/migrate/sql/0001_ledger.sql:151-185 | However movements interleave and fail, what is committed is made of whole accepted movements and balances in both currencies |
| LedgerLocks.RunAddsUp | apps/api/internal/ledger/movements/funds.go:21-27 | However movements interleave and fail: every account holds its opening balance and what the committed movements did to it, each once, and those are all accepted ones |
| LedgerLocks.LockWaitsIff | apps/api/internal/ledger/movements/funds.go:79-85 | A lock waits exactly while another unfinished movement spends from the account or, with share locks, has an entry on it |
| LedgerLocks.InsertWaitsIff | apps/api/internal/platform/migrate/sql/0001_ledger.sql:141-146 | An insert waits exactly while, with share locks, another unfinished movement spends from its account |
| LedgerWaits.CanHangIff | apps/api/internal/ledger/movements/funds.go:57-73 | From books of accepted postings, movements can come to wait for each other if and only if entries share-lock their accounts and some movements that pass the guard form a ring: each spends from an account of its own and writes to another’s |
| LedgerWaits.RingHangs | apps/api/internal/platform/migrate/sql/0001_ledger.sql:141-146 | Every ring has books of accepted postings, in which only accounts that no movement spends from are in debt, and a schedule without failures that end with every member writing and nothing left to do |
| LedgerWaits.HungIsRing | apps/api/internal/ledger/movements/funds.go:62-69 | Every hung state is such a ring, and without share locks there is none, which is the claim of the design |
| LedgerWaits.StepUsesWork | apps/api/internal/ledger/movements/funds.go:28-39 | Every enabled step uses up work, so no schedule goes on for ever |
| LedgerSafety.OverdrawnIff | apps/api/internal/ledger/movements/funds.go:41-56 | Any requests in any interleaving, any account: it can go below zero if and only if one of the requests is accepted and takes from it without having locked it |
| LedgerSafety.FundsOverdrawnIff | apps/api/internal/ledger/movements/funds.go:41-56 | An available balance, an agent’s float or escrow, what a merchant is owed or the treasury can go below zero if and only if one of the requests is an accepted reversal or return that debits it |
| LedgerSafety.FundsNeverOverdrawn | apps/api/internal/ledger/movements/funds.go:41-56 | Without such a request it never does, for every schedule and whatever the books were |
| LedgerSafety.ReversalOverdrawsIff | apps/api/internal/ledger/movements/tap.go:105-147 | An accepted reversal can overdraw the merchant if and only if the amount exceeds the fee, and the cardholder if and only if the amount is negative |
| LedgerSafety.ReturnOverdrawsIff | apps/api/internal/ledger/movements/settlement.go:60-89 | An accepted return can overdraw `payable` if and only if its amount is positive, and the user if and only if it is negative |
| LedgerSafety.ExactlyWhatFits | apps/api/internal/ledger/movements/movements_test.go:400-457 | However many movements race to spend one amount from one balance, exactly as many commit as the balance holds |
| LedgerSafety.TapsFitExactly | apps/api/internal/ledger/movements/tap.go:67-87 | The same for taps at any merchants and fees |
| LedgerSafety.ClimbingMakesNoRing | apps/api/internal/ledger/movements/funds.go:71-73 | Movements that all write upwards in some ranking of accounts form no ring |
| LedgerSafety.ForwardNeverHangs | apps/api/internal/ledger/movements/funds.go:62-69 | All requests but conversions, released and returned floats and returned merchant payouts never hang together, with or without share locks |
| LedgerSafety.RequestsHang | apps/api/internal/ledger/movements/funds.go:57-73 | Requests that form a ring hang from books of accepted postings in which only the outside world is in debt, by a schedule in which nothing fails |
| LedgerSafety.LockAndReleaseCanHang | apps/api/internal/ledger/movements/cash.go:24-100 | Locking and releasing one agent’s float at once can hang with share locks, and cannot without |

## Left out

- AlwaysValidIff: speaks of relations under which each hook may at least pass on its builder's own mutation.
- ExactlyWhatFits: supposes that nothing credits the account meanwhile and that no step fails for another reason.
- A builder listed twice in one bulk save, nil hooks, hooks that keep `next` beyond the save, side effects of wrapping, and context values.
- What conflict options mean in SQL; they are opaque and reach the write unchanged.
- `InstitutionCreateBulk.Save`: the same template, plus reading an id that the database assigned into the node after the write.
- `FiatCurrencyQuery.sqlAll`: its three to-many loads are the template modelled by `LoadToMany`; only the loads are covered.
- Interceptors, traversals, ordering, `Unique`, `Clone` and grouping.
- How a selected scan into anything but ids matches columns; that ids take exactly one is what the scanning library does, and the library is not part of this model.
- Limits of zero or below, which `sqlgraph` interprets; sqlgraph is not part of this model.
- A selection on a child query that leaves out the joined column.
- Time zones and the precision a database keeps of a time; times are integers and come back as sent.
- Real-valued decimals stand for the decimal library; its rounding is not reached by sums and comparisons.
- Parsing of UUIDs, bucket keys and provider strings, the Redis lists themselves, HTTP, signatures and JSON.
- Raw payout statuses that are not valid UTF-8.
- The merchant name, reference, expiry, rate and subunit fields of an order status, and the status of the fallback response.
- What a launched settlement does, and the live feed; only the launch is recorded.
- Accounts of the kinds obligation and loss reserve, which no movement touches.
- First use of a ledger account, which inserts its row and so locks it; accounts exist in the model.
- Two concurrent movements under one idempotency key, of which the database makes the second wait; keys are covered in sequence by `KeyCommitsOnce`.
- Balances beyond int64, which the scan of a sum would refuse.
- The text of idempotency keys and error messages; the wording of an entry's reason, beyond that there is one.
- Update and delete builders, the other entities, and the front-ends.
