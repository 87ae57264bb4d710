# Proposal-Dapp front-end: proposal list and button logic

This project models the state core of a browser front-end for a single
on-chain voting contract. The front-end keeps an in-memory list of
proposal records and changes it in two ways:

- a bulk bootstrap (`fetchProposals`): read `proposalCount()`, ask a
  multicall aggregator for `proposals(id)` for every id `1 .. count-1` in one
  strict batch, decode the answers and replace the list;
- three event listeners (`ProposalCreated`, `Voted`, `ProposalExecuted`),
  each handing a pure `prev => next` updater to the state setter. A ref
  flag (`hasVotingListener`) guards against registering them twice; a
  second flag is written alongside it.

Each proposal card picks its button's handler and label from the record,
the clock and two busy flags. Its vote and execute handlers check the
wallet (and, for voting, the executed flag) before sending anything.

Modules, one per concern:

- `Results` (results.dfy): `Option` and `Result`.
- `Records` (records.dfy): the `Record` type and predicates over lists of records:
  unique ids, increasing ids, and `Grows` (no record lost, no vote count lowered,
  no executed flag cleared).
- `Updaters` (updaters.dfy): the Created, Voted and Executed updaters.
- `Reconciler` (reconciler.dfy): a delivered event stream replayed through the updaters.
- `Bootstrap` (bootstrap.dfy): `fetchProposals`. The chain's counter reply, the
  aggregator and the ABI decoder are parameters.
- `Listeners` (listeners.dfy): the subscription effect, its cleanup and the guard flags.
- `ProposalView` (proposal_view.dfy): `isExpired`, `canExecute`, the button, and the two handlers.

Behaviour of the code that is easy to get wrong, which the model follows:

- Created does not deduplicate. A Created event for an id already in the list
  adds a second record with that id, so ids are not unique in general.
  `CreatedNoDedup` and `CreatedKeepsUniqueIff` state this.
- A proposal is expired only strictly after its deadline (`deadline * 1000 < now`
  in milliseconds). At the deadline itself it is still open.
- A Voted or Executed event for an id absent from the list changes nothing. It is
  not queued and no warning is logged.
- There is no stale-response guard. A bulk load that succeeds replaces the list
  whatever events were applied while it was in flight.
- There are two flags. Only `hasVotingListener` is read. `hasExecuteListener` is
  written alongside it and never consulted.
- A counter whose id array would be longer than 2^32 - 1 makes `Array.from` throw a
  `RangeError`. The catch then keeps the previous list (`Bootstrap.OversizedCounterKeepsList`).

## Model

| member | source | states |
|---|---|---|
| Updaters.ApplyCreated | src/App.jsx:34-45 | Created appends exactly one record at the end: length grows by one, every earlier record is unchanged, and the new record carries the event's id, description, amount, deadline and threshold with vote count 0 and not executed |
| Updaters.PatchWhere | src/App.jsx:59-66 | the shared `map` with a numeric id test: length is kept, every record whose id equals the event id is transformed and every other record is kept as it was |
| Updaters.ApplyVoted | src/App.jsx:58-67 | Voted keeps length and order; each record with the event's id gets exactly one more vote and nothing else changes in it; all other records are unchanged |
| Updaters.ApplyExecuted | src/App.jsx:76-83 | Executed keeps length and order; each record with the event's id is marked executed and nothing else changes in it; all other records are unchanged |
| Updaters.VotedAbsentIsIdentity | src/App.jsx:59-66 | a Voted event for an id no record carries returns a list equal to the input |
| Updaters.ExecutedAbsentIsIdentity | src/App.jsx:77-81 | an Executed event for an id no record carries returns a list equal to the input |
| Updaters.ExecutedIdempotent | src/App.jsx:76-83 | applying Executed twice for the same id equals applying it once |
| Updaters.PatchKeepsIds | src/App.jsx:58-83 | Voted and Executed leave the list's ids, position by position, as they were |
| Updaters.CreatedGrows | src/App.jsx:34-45 | Created lowers no vote count and clears no executed flag, and the one record it adds starts unexecuted |
| Updaters.VotedGrows | src/App.jsx:58-67 | Voted adds no record, lowers no vote count and clears no executed flag |
| Updaters.ExecutedGrows | src/App.jsx:76-83 | Executed adds no record, lowers no vote count and clears no executed flag |
| Updaters.CreatedNoDedup | src/App.jsx:34-45 | Created raises the number of records carrying the event's id by exactly one, so an id already present ends up held twice |
| Updaters.CreatedKeepsUniqueIff | src/App.jsx:34-45 | on a list with unique ids, the list after Created has unique ids if and only if the event's id was not in it |
| Reconciler.ReplayGrows | src/App.jsx:24-86 | for any stream of events applied in order, every record keeps its position, id and immutable fields, and no vote count decreases or executed flag reverts |
| Reconciler.ReplayTally | src/App.jsx:24-86 | for any stream, the list gains one record per Created event, and each record already in it ends with its vote count raised by exactly the number of Voted events for its id, executed iff it was already or some Executed event names it, and nothing else changed; votes are not deduplicated by voter |
| Reconciler.ExampleRun | src/App.jsx:24-86 | records 1 and 2, then Voted(1), Executed(2), Created(3), gives record 1 one more vote, record 2 executed, and a new record 3 with no votes and not executed |
| Bootstrap.ProposalIds | src/App.jsx:130-133 | the bootstrap ids for counter N are i+1 at position i, N-1 of them, and none when N <= 1 (the array length clamps at 0) |
| Bootstrap.ProposalIdsIncreasing | src/App.jsx:126-133 | the bootstrap ids strictly increase and are exactly the ids in 1 .. N-1 |
| Bootstrap.Calls | src/App.jsx:135-138 | one aggregated call per id, in id order, all targeting the proposal contract |
| Bootstrap.DecodeAll | src/App.jsx:145-147 | decoding succeeds iff every response payload decodes, and then yields one struct per response in order; the per-entry success flag is not consulted |
| Bootstrap.ToRecords | src/App.jsx:149-157 | one record per decoded struct: record i has id i+1, and minVotesToPass, voteCount and votingDeadline become minRequiredVote, votecount and deadline, the other fields copied |
| Bootstrap.ToRecordsIds | src/App.jsx:149-157 | the records built from n structs carry ids 1 .. n in order, so their ids are increasing and unique |
| Bootstrap.Load | src/App.jsx:114-157 | no contract, a failed counter read, or an id array longer than 2^32 - 1 is an error; otherwise the load succeeds iff the batch answers and every payload decodes, and then record i is built from response i with id i+1 |
| Bootstrap.FetchProposals | src/App.jsx:114-161 | the list is replaced by the loaded records only when every step succeeded; on any failure, including no contract, the previous list is returned unchanged |
| Bootstrap.BootstrapHoldsRequestedIds | src/App.jsx:126-158 | when the aggregator answers every requested call, a successful bootstrap holds exactly the ids 1 .. N-1 in order with no duplicates |
| Bootstrap.OversizedCounterKeepsList | src/App.jsx:130-161 | a counter above 2^32 makes the id array throw, and the previous list is kept |
| Bootstrap.EmptyCounterGivesEmptyList | src/App.jsx:126-158 | when the aggregator answers the empty batch (which is still sent), a counter of 0 or 1 empties the list without an error, whatever it held |
| Listeners.RunEffect | src/App.jsx:90-99 | the effect subscribes (one more handler per event, both flags up, a cleanup returned) iff the contract is present and the voting flag is down; otherwise nothing changes |
| Listeners.Cleanup | src/App.jsx:100-106 | the cleanup removes one handler for each of the three events and lowers both flags |
| Listeners.StepKeepsConsistent | src/App.jsx:90-106 | from a state where all three handlers are registered once with flags up, or none with flags down, an effect run or a cleanup keeps that shape, and a cleanup leaves nothing registered |
| Listeners.RunKeepsSingle | src/App.jsx:90-108 | under any order of effect runs and cleanups, each event has at most one handler and all three have the same number, one exactly when the voting flag is up |
| Listeners.DoubleEffectRegistersOnce | src/App.jsx:91-97 | running the effect twice without a cleanup registers each handler once, and the second run returns no cleanup |
| ProposalView.VotedKeepsExecutable | src/components/Proposal.jsx:76 | a Voted event never turns canExecute off for any record, and turns it on for an unexecuted matching record that this vote brings to its threshold |
| ProposalView.ExecutedDisablesForGood | src/components/Proposal.jsx:76 | after an Executed event, canExecute is false for every matching record whatever events follow |
| ProposalView.ExpiryIsStrictAndMonotone | src/components/Proposal.jsx:75 | expired iff now (ms) is strictly after deadline * 1000; not expired at exactly the deadline, expired one millisecond later, and it stays expired |
| ProposalView.RenderButton | src/components/Proposal.jsx:109-127 | expired: no handler and "Expired"; otherwise if canExecute: execute, "Executing..." iff executing else "Execute"; otherwise vote, "Voting..." iff loading else "Vote" |
| ProposalView.LabelMatchesAction | src/components/Proposal.jsx:110-127 | the label determines the handler, and "Executing..." appears only on an execute button while executing, so the `loading && canExecute` arm is unreachable |
| ProposalView.ExpiredIgnoresEverythingElse | src/components/Proposal.jsx:110-118 | once expired, the button is the same whatever the votes, executed flag and busy flags |
| ProposalView.HandleUserVoting | src/components/Proposal.jsx:22-35 | no wallet address gives the connect-wallet error; with an address, an executed proposal gives the already-executed error; a vote transaction is sent iff connected and not executed |
| ProposalView.HandleExecute | src/components/Proposal.jsx:52-60 | no wallet address gives the connect-wallet error; an execute transaction for the proposal is sent iff connected |
| ProposalView.ExecuteIgnoresExecuted | src/components/Proposal.jsx:52-60 | the execute handler's outcome does not depend on the executed flag |
| ProposalView.ClickSafety | src/components/Proposal.jsx:22-112 | through the button an executed proposal never reaches a transaction, an expired one has nothing to click, and an execute transaction is reached only when canExecute and connected |

## Left out

- Contract calls, `tryAggregate` and ABI encoding/decoding are foreign library and network I/O. The counter reply, the aggregator and the decoder are parameters of `Bootstrap.Load`. An encoded `proposals(id)` call is represented by its id.
- The component that turns list records into card props is not part of this model. `ProposalView.PropsOf` assumes it passes each field through, with the record's id as `proposalId`.
- Number conversions: ids, vote counts, thresholds and deadlines are unbounded naturals. The source compares ids with `Number(...)` and adds a vote with `Number(votecount) + 1`, which lose precision above 2^53. The model treats them as exact.
- Updaters.ApplyCreated: the source stores the id and threshold as strings (`toString()`) and everything else as received. The model keeps numbers, because every later use goes through `Number(...)` (src/App.jsx:60, 78; src/components/Proposal.jsx:76, 92) or is handed to an ethers contract call (src/components/Proposal.jsx:35, 60), which encodes a decimal string as the same uint256.
- ProposalView.ExpiryIsStrictAndMonotone: `Date` values outside the representable range (beyond 8.64e15 ms) become invalid and compare false. With a non-negative deadline and a real clock this gives the same answer, so it is not modelled.
- React: hook scheduling, re-renders, `useCallback` identity and the timing of effect cleanups. Instead, `Listeners.RunKeepsSingle` quantifies over every order of effect runs and cleanups.
- The asynchronous part of the handlers: `setLoading`/`setExecuting`, `tx.wait()`, the receipt status check, success and failure toasts. The model stops at the transaction a handler would submit.
- Logging, `formatEther`, `toLocaleString`, the card's text and CSS classes.
- Features the code does not have: dedup of Created events, a stale-response guard for the bulk load, per-voter vote dedup, and queueing of events for ids not yet present.
