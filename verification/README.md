# Verified kernels of the LANAgent server

LANAgent is a personal agent server. Most of it is plumbing around services it does not own; a few small stateful
kernels decide things on their own, under concurrency, restarts and clock readings. This project models those kernels
in Dafny 4.11 and proves what they promise. `dafny verify dfyconfig.toml` checks everything.

Each kernel follows one pattern: a state, one function per stretch of code between two awaits, lemmas over every run or
every interleaving of those stretches, and a class or method in the source's own imperative form whose `ensures` ties
it to those functions.

| file | kernel |
|---|---|
| `PluginLocks.dfy` | the promise mutex of the plugin chain processor |
| `ChainExecutor.dfy` | bounded chains of steps, their registry, shared data and the choice of the latest result |
| `TrellisTarget.dfy` | the one-step lookback that fills in a Trellis step's card and document |
| `SwrCache.dfy` | stale-while-revalidate with one shared fetch per key |
| `Turns.dfy`, `ConversationMemory.dfy` | the conversation buffer, the transcript, clearing a chat and the restart |
| `ProviderFallback.dfy` | quota cooldowns, the spending lock and the ordered fallback between AI providers |
| `EnsBatch.dfy` | the worker pool of batch ENS lookups |
| `Allocation.dfy`, `Watchlist.dfy`, `Portfolio.dfy` | the token traders' shared wallet, their watchlists and the stablecoin rows |
| `Clarifications.dfy` | tasks parked until the user answers a question |
| `Siwe.dfy` | parsing Sign-In with Ethereum messages (EIP-4361) against the template they are printed from |
| `AgentHistory.dfy` | the bounded history of agent states and transitions |
| `Staking.dfy` | the staking reward projection |
| `Prelude.dfy` | shared vocabulary |

## Where the code and its promises differ

The models follow the code. These are the places where a promise does not hold as stated, each with the lemma that
shows it on an input and, where there is a wider family, the one with the exact condition.

- Plugin lock: a release clears the flag before the woken request sets it again, so a request in between gets the lock
  too (`PluginLocks.BargingBreaksExclusion`; exactly when a woken request still waits to run, `BargingExactly`, and over
  whole runs `OrderNeedsWokenFirst`).
- Latest step: an extracted field whose name starts with "step" can be read in place of the latest step's result, because
  it sorts after that step's key (`ChainExecutor.ExtractedKeyChosen`) or because the step extracted it under that very
  key (`OwnKeyOverwritten`); exactly in these two cases, `LatestStepChosen`.
- Trellis: `??` lets an empty-string card through, which hides the card the step's result reported
  (`TrellisTarget.EmptyCardHidesReport`; exactly the plans in `ReportedCardKeptExactly`).
- Conversations: a clear drops keys by prefix, so that it reaches a user whose id extends the first one's with a `#`
  (`ConversationMemory.ClearDropsNamesake`, `ClearDropsExactly`), and a restart then differs from the live buffer
  (exactly then, `RestartRestoresExactly`). If an id even spells out another user's topic, a clear is not final
  (`SharedKeyBreaksClear`; exactly then, `ClearIsFinalExactly`). A message in the very millisecond of a clear is live
  but not restored (`SameMillisecondAsClear`). A clear that was not saved is forgotten (`UnsavedClearForgotten`), and so
  are all of them when a restart cannot read them (`BlindRestartBreaksClear`, for every user).
- `getRecentTurns` with a limit of 0 returns every buffered turn, because `slice(-0)` is `slice(0)`: it is a clause of
  `ConversationMemory.MemoryManager.GetRecentTurns`.
- Provider lock: the gate compares the active provider's display name with the registry name asked for. All shipped
  names differ in this, so an unforced switch to the provider that is already active is blocked, contrary to the
  comment (`ProviderFallback.SameProviderSwitchBlocked`; exactly when the names differ, `SwitchUnderLock`). The reverse,
  a switch that passes, needs a provider registered under the active one's display name (`DisplayNameOpensLock`); with
  the shipped names it cannot happen (`ShippedLockHolds`).
- Cooldowns: the log says that a quota failure puts its provider aside for 30 minutes. One that comes in when an earlier
  window has run out during the call opens no new one (`ProviderFallback.LapsedWindowHidesFailure`; the provider is
  skipped after its failure exactly when the call began outside a window or ended inside it, `FailureIsSkippedExactly`).
- Cache: an error is replaced by whatever the store holds. Its age is bounded by the store's own 300 s, not by
  ttl + swrTtl (`SwrCache.OldValueReplacesError`; within the bound exactly when it was servable,
  `FallbackIsRecentExactly`). No route asks for settings as short as in that run: all leave ttl and swrTtl at their
  defaults, which reach past those 300 s and keep the bound (`StoreLifeKeepsBound`). For the same reason the stale window
  goes unused on every route (`DefaultsAreNeverStale`).
  When the stored data is undefined the whole envelope is returned (`EnvelopeReplacesError`; exactly then,
  `FailedFetchAnswersExactly`).
- Allocation: the guard counts a requested 0 as 0, the sums count it as 20 (`Allocation.ZeroShareOvercommits`; exactly
  when 20 more would not fit, `AcceptedWithinExactly`). A removal does not publish the new split
  (`RemovalLeavesStaleSplit`; exactly for known tokens, `PublishedStaysCurrentExactly`).
- Watchlist: with a shared list, adding a new token answers `alreadyPresent` (`Watchlist.SharedListAnswersPresent`;
  exactly when lists are shared or match, `HitsExactly`). A removal without a network can take the protected system
  token along (`UnnamedRemovalTakesSystemToken`; exactly when another entry comes first under its address,
  `ShieldHoldsExactly`).
- Sign-In with Ethereum: an empty value is read as the next line (`Siwe.EmptyNonceLost`; the nonce survives exactly when
  it is plain, `NonceSurvivesExactly`).

The registry of this distribution cannot create token traders, so configuring a new token throws after the guard. Both
this and a registry that can are covered by `canCreate` in `Allocation.Configure`.

## Model

| member | source | states |
|---|---|---|
| PluginLocks.NobodyStranded | src/core/pluginChainProcessor.js:323-345 | In every interleaving of requests, releases and wake-ups, for every plugin, each request asked for is granted, woken or queued, exactly once, and a non-empty queue has a holder or an already woken request ahead of it. |
| PluginLocks.RequestedIsAsked | src/core/pluginChainProcessor.js:323-333 | The record of requests for a plugin is the sequence of its requests as the events alone list them: none is lost, none is moved. |
| PluginLocks.PluginsAreIndependent | src/core/pluginChainProcessor.js:323-345 | Over any run a plugin's lock goes through the plugin's own events as if there were no other plugins. |
| PluginLocks.HoldsUntilRelease | src/core/pluginChainProcessor.js:335-344 | In every interleaving each request is granted at most once, and the holders are exactly those granted that have not released. |
| PluginLocks.AttendedStep | src/core/pluginChainProcessor.js:328-344 | One event keeps the invariant behind that: a set flag has a holder, and every request is granted, woken or queued, exactly once. |
| PluginLocks.WorkShrinks | src/core/pluginChainProcessor.js:338-344 | Each release or wake-up strictly reduces the work left for the requests already made. |
| PluginLocks.EveryRequestIsServed | src/core/pluginChainProcessor.js:323-345 | Once requests stop, releases and wake-ups end within a bound, and when none is left every request that the events asked for was granted exactly once. |
| PluginLocks.MutualExclusion | src/core/pluginChainProcessor.js:323-345 | In every run where a woken request runs before a new one for the same plugin, there is at most one holder, and locks are granted in the order in which the events asked for them. |
| PluginLocks.OrderNeedsWokenFirst | src/core/pluginChainProcessor.js:323-345 | A run grants every lock in request order at every point iff woken requests run first throughout. |
| PluginLocks.BargingBreaksExclusion | src/core/pluginChainProcessor.js:330-343 | Without that scheduling hypothesis it fails: a five-event trace with two holders and the grants out of order. |
| PluginLocks.BargingExactly | src/core/pluginChainProcessor.js:328-343 | A new request can lead to two holders at the next wake-up iff a woken request was still waiting to run. |
| PluginLocks.LockTable.Acquire | src/core/pluginChainProcessor.js:323-335 | The stretch up to the await takes a free lock or queues the request, and touches no other plugin. |
| PluginLocks.LockTable.Resume | src/core/pluginChainProcessor.js:332-335 | A woken request sets the flag again when it runs, and not before. |
| PluginLocks.LockTable.Release | src/core/pluginChainProcessor.js:338-344 | Release clears the flag and wakes the head of the queue only. |
| ChainExecutor.ExecuteSteps | src/core/pluginChainProcessor.js:385-455 | Results are steps 1..k without a gap; the loop ends early only at a step that threw, or failed while required; success iff every step succeeded; shared data is what the passing steps contributed, in order. |
| ChainExecutor.RunSteps | src/core/pluginChainProcessor.js:389-455 | The loop refines the recursive run of a chain over its outcomes. |
| ChainExecutor.TakeOutcome | src/core/pluginChainProcessor.js:407-454 | What one awaited outcome adds to results, shared data and success, including the throwing case. |
| ChainExecutor.ChainsInEveryInterleaving | src/core/pluginChainProcessor.js:351-383 | In every interleaving of starts, step ends and finishes: at most three chains registered, each removed exactly once, and every removed chain reported exactly what its outcomes were and shared exactly what its own passing steps contributed. |
| ChainExecutor.ChainsAreIndependent | src/core/pluginChainProcessor.js:385-455 | A running chain has seen its own outcomes in order and nothing of any other chain. |
| ChainExecutor.GoneForGood | src/core/pluginChainProcessor.js:472-476 | A chain that was removed is never registered again. |
| ChainExecutor.StartsExactly | src/core/pluginChainProcessor.js:361-383 | In every interleaving a request is accepted iff its plan has one to five steps and fewer than three chains are running, and is then registered as asked for with nothing done yet; otherwise nothing changes and the first reason that applies is given. |
| ChainExecutor.StringOrderIsNumeric | src/core/pluginChainProcessor.js:516-519 | Sorting "stepN" keys as strings agrees with numeric order for all N up to a limit iff the limit is at most 9. |
| ChainExecutor.SharedStepKeys | src/core/pluginChainProcessor.js:421-426 | Which "step…" keys shared data holds: the own key of each passing step, or one that a step's extracted data brought along. |
| ChainExecutor.OwnKeyKeepsResult | src/core/pluginChainProcessor.js:420-425 | The key of a passing step holds that step's result iff neither it nor a later passing step extracts a field of that name. |
| ChainExecutor.LatestStepChosen | src/core/pluginChainProcessor.js:514-523 | What the e-mail step reads is the result of the numerically latest passing step iff no extracted key starting with "step" sorts after that step's own, and the step does not extract a field of that very name. |
| ChainExecutor.LatestKeyChosen | src/core/pluginChainProcessor.js:516-522 | Which key the e-mail step looks at: the latest passing step's iff no extracted one sorts after it. |
| ChainExecutor.OriginsTell | src/core/pluginChainProcessor.js:420-425 | Every entry of the shared data is a step's result under its own key or a field extracted from one, and holds that value. |
| ChainExecutor.ExtractedKeyChosen | src/core/pluginChainProcessor.js:514-523 | A plan whose first step extracts a field named "stepTitle": the e-mail step reads that field instead of the step. |
| ChainExecutor.OwnKeyOverwritten | src/core/pluginChainProcessor.js:420-425 | A plan whose first step extracts a field named "step1": the right key is chosen and the field is read under it. |
| ChainExecutor.ChainRegistry.StartChain | src/core/pluginChainProcessor.js:361-383 | Refuses empty, over-long and over-limit requests in that order, else registers the chain. |
| ChainExecutor.ChainRegistry.FinishChain | src/core/pluginChainProcessor.js:463-476 | Removes exactly this chain and returns its report. |
| TrellisTarget.InheritTrellisTarget | src/core/pluginChainProcessor.js:776-793 | The in-place loop fills step i from the nearest earlier Trellis step and changes nothing else in the plan. |
| TrellisTarget.FindReport | src/core/pluginChainProcessor.js:785-785 | Searching the results by step number finds the result of that step. |
| TrellisTarget.FillAgreesWithScan | src/core/pluginChainProcessor.js:397-397 | Filling the first n steps one at a time agrees, at each of them, with a scan over the whole plan. |
| TrellisTarget.LookbackIsScan | src/core/pluginChainProcessor.js:776-793 | For every plan and all results, each Trellis step ends with the last card named so far, else the first card reported so far; every other step is untouched. |
| TrellisTarget.NamedTargetIsTaken | src/core/pluginChainProcessor.js:788-790 | A Trellis step acts on the card, and on the document, that the last Trellis step to name one named, itself included. |
| TrellisTarget.ReportedTargetIsTaken | src/core/pluginChainProcessor.js:785-788 | Where no Trellis step names a card, every later one acts on the first card that a result was about: the id of its card object, or its card if that is an integer. |
| TrellisTarget.ReportedWithoutEmptyCards | src/core/pluginChainProcessor.js:785-787 | Without empty-string cards, "first reported" means the first non-blank card any Trellis result reported. |
| TrellisTarget.ReportedCardKeptExactly | src/core/pluginChainProcessor.js:785-789 | Among plans that name no card, that reading holds for all results iff no Trellis step names the empty string. |
| TrellisTarget.EmptyCardHidesReport | src/core/pluginChainProcessor.js:785-789 | A concrete plan in which an empty-string card hides a reported one. |
| SwrCache.OneFetchPerKey | src/api/contracts.js:57-88 | In every interleaving, at most one fetch runs per key, and inFlight holds a key exactly while one does. |
| SwrCache.AnswersAreRecent | src/api/contracts.js:47-97 | Every value given out was fetched during the call, or less than ttl + swrTtl before it without revalidate, or is the old-style entry the store held for the key from the start, or replaces the error of a fetch that failed during the call and was itself brought back earlier or is that old-style entry; a whole envelope is given only in place of such an error, when its fetch had brought back undefined. |
| SwrCache.CallBeginsExactly | src/api/contracts.js:47-88 | In every interleaving, an unforced call that finds an old-style entry or an envelope within its windows is given exactly what that holds, at once; any other call waits for the one running fetch of its key. |
| SwrCache.FetchedValueIsServed | src/api/contracts.js:53-87 | Once a fetch has brought back a value and until the entry is dropped or replaced, every unforced call is given that value at once: without any fetch within the lifetime asked for, with a fetch under way in the stale window; after that it waits. |
| SwrCache.DroppedIsFetchedAgain | src/api/contracts.js:50-87 | Once the store has dropped a key's entry, and no other one, a call for the key waits for a fetch. |
| SwrCache.FailedFetchAnswersExactly | src/api/contracts.js:89-96 | What a call whose fetch failed is answered with, exactly by what the store holds: the error, the data of an envelope, an old-style entry, or the envelope itself when its data is undefined. |
| SwrCache.FallbackIsRecentExactly | src/api/contracts.js:89-96 | In every interleaving, the data or envelope that replaces an error is within ttl + swrTtl of its own fetch iff the caller could have been served it stale. |
| SwrCache.StoreLifeKeepsBound | src/api/contracts.js:13-13 | Since the store drops entries after 300 s, the age bound holds for all settings with ttl + swrTtl above that, such as the defaults. |
| SwrCache.DefaultsAreNeverStale | src/api/contracts.js:13-70 | With lifetimes of at least the store's 300 s, as on every route, no run gives a stale answer except in the very millisecond in which both lifetimes end. |
| SwrCache.OldValueReplacesError | src/api/contracts.js:89-96 | A run, for ttl 60 and swrTtl 30, in which a value 200 s old replaces an error. |
| SwrCache.EnvelopeReplacesError | src/api/contracts.js:93-94 | A run in which the store's envelope itself is returned. |
| SwrCache.FetchStartsExactly | src/api/contracts.js:53-88 | A call starts a fetch iff none is in flight for the key and it is forced or finds neither a fresh nor an old-style entry; it starts one, with the lifetimes it asks for. |
| SwrCache.EndsLikeRun | src/api/contracts.js:76-88 | However a run goes on, a call waiting on a fetch is answered with what that fetch ended with. |
| SwrCache.JoinersShareTheValue | src/api/contracts.js:76-88 | Two calls waiting on one fetch that succeeds are both given its value. |
| SwrCache.SoundRun | src/api/contracts.js:47-97 | The invariants behind these claims hold in every interleaving of calls, completions, failures, deliveries, time and evictions. |
| SwrCache.ContractCache.GetCachedData | src/api/contracts.js:47-88 | The stretch up to the first await takes the same branch as the protocol. |
| SwrCache.ContractCache.FetchSucceeds | src/api/contracts.js:78-86 | A completed fetch stores its envelope, then frees its key. |
| SwrCache.ContractCache.FetchFails | src/api/contracts.js:78-86 | A failed fetch stores nothing and frees its key. |
| SwrCache.ContractCache.CallContinues | src/api/contracts.js:88-96 | A waiting call returns the fetched value, or on failure whatever the store has, or throws. |
| Turns.WindowIncrement | src/core/memoryManager.js:462-465 | Trimming what an earlier, already trimmed window kept, plus new turns, gives the window of the whole history. |
| Turns.WindowMeans | src/core/memoryManager.js:462-465 | The window is the end of the history: at most ten turns, all younger than 30 minutes, and what comes before them is the eleventh or too old. |
| ConversationMemory.BufferIsWindow | src/core/memoryManager.js:312-319 | For any sequence of exchanges, context turns and clears, each buffer is the last 10 of the turns younger than 30 minutes of its full history since its last clear, as of its last write. |
| ConversationMemory.BuffersTellWhatWasSaid | src/core/memoryManager.js:449-482 | After any run of exchanges, context turns, clears and restarts, each buffered turn is something the events said in that conversation, under its role, at its time, cut to its first 1000 characters, and each transcript row likewise with the first 8000. |
| ConversationMemory.SaidIsKept | src/core/memoryManager.js:458-479 | In any state, what an exchange says is at the end of its conversation, in order, and makes the new rows of the transcript; a context turn is the last turn and writes no row; no other conversation changes. |
| ConversationMemory.RestartRestoresLiveBuffer | src/core/memoryManager.js:375-396 | With at most 500 rows in the window and no context turns, for every user and thread: what was said in the window after the user's last clear is restored as it was live; and if that clear was saved, nothing else is, and the two buffers are equal iff no live turn bears the clear's very millisecond. For users none of whose clears reaches another one, and restarts that can read the saved clears. |
| ConversationMemory.RestartRestoresExactly | src/core/memoryManager.js:375-396 | For any set of users: every such restart, in every run, rebuilds every conversation iff no id among them extends another one with a "#". |
| ConversationMemory.RestartGives | src/core/memoryManager.js:375-396 | What a restart gives, in any state and whether or not the saved clears could be read: the last 10 of the transcript's turns in the window after the user's saved clear. |
| ConversationMemory.RestartReadsNewest | src/core/memoryManager.js:382-391 | However many rows there are, a restart reads the newest 500 of the last 30 minutes and gives each conversation the last 10 turns they hold of it after its user's clear. |
| ConversationMemory.UnsavedClearForgotten | src/core/memoryManager.js:330-333 | A clear that could not be saved is forgotten by the next restart. |
| ConversationMemory.SameMillisecondAsClear | src/core/memoryManager.js:387-387 | The exception: a turn said in the millisecond of the clear is live but not restored. |
| ConversationMemory.ClearIsFinal | src/core/memoryManager.js:325-335 | Whatever happens before and after a persisted clear, restarts that can read it included, no earlier turn is ever again in the user's buffers or offered as recent context, for users no two of whom share a conversation key. |
| ConversationMemory.ClearIsFinalExactly | src/core/memoryManager.js:325-335 | For any set of users: all their saved clears are final in every run whose restarts read them iff no id among them spells out a topic of another. |
| ConversationMemory.ContextRowsExactly | src/core/memoryManager.js:363-363 | The rows offered as recent context are the user's of the last six hours, said after the last clear. |
| ConversationMemory.BlindRestartBreaksClear | src/core/memoryManager.js:379-381 | For every user: a restart that cannot read the saved clears brings an old turn back. |
| ConversationMemory.ClearDropsNamesake | src/core/memoryManager.js:327-327 | A run in which one user's clear drops the conversation of another whose id begins with the first one's and a "#". |
| ConversationMemory.SharedKeyBreaksClear | src/core/memoryManager.js:8-11 | A user whose id spells out a topic of another: this one's old turn is back in that topic after the other one's clear and a restart. |
| ConversationMemory.ClearDropsExactly | src/core/memoryManager.js:327-327 | Whose conversations a clear drops, for all ids. |
| ConversationMemory.KeyNamesUser | src/core/memoryManager.js:8-11 | Among users no id of whom spells out a topic of another, a conversation key belongs to one user. |
| ConversationMemory.MirroredRun | src/core/memoryManager.js:449-482 | Buffer and transcript agree on every conversation beyond the window's start and the last clear, at every point of a run. |
| ConversationMemory.MemoryManager.FilterRecent | src/core/memoryManager.js:464-464 | The filter loop keeps exactly the turns inside the window, in order. |
| ConversationMemory.MemoryManager.BufferExchange | src/core/memoryManager.js:452-465 | Pushing, expiring and slicing equal the reference update of that one conversation. |
| ConversationMemory.MemoryManager.StoreConversation | src/core/memoryManager.js:449-482 | One exchange updates the buffer and the transcript, an empty side leaving nothing. |
| ConversationMemory.MemoryManager.AddContextTurn | src/core/memoryManager.js:312-319 | Expires, then pushes, then keeps the last ten; the transcript is not written. |
| ConversationMemory.MemoryManager.DropConversations | src/core/memoryManager.js:327-327 | The deletion loop leaves exactly the conversations whose key is not the user's. |
| ConversationMemory.MemoryManager.ClearConversation | src/core/memoryManager.js:325-335 | Drops the live conversations and records the time, in the database only when it is reachable. |
| ConversationMemory.MemoryManager.RestoreConversationBuffer | src/core/memoryManager.js:375-396 | Reads the saved clears, or goes on without them, and replays the newest 500 rows of the window. |
| ConversationMemory.MemoryManager.ReplayRows | src/core/memoryManager.js:385-391 | The replay loop rebuilds the buffer row by row, skipping what is not after its user's clear. |
| ConversationMemory.MemoryManager.GetRecentTurns | src/core/memoryManager.js:340-343 | The last `limit` turns as of the last write, and all of them for a limit of 0. |
| ProviderFallback.FallbackFacts | src/core/providerManager.js:762-777 | The fallback loop calls each eligible provider once in order until one succeeds; failing, it has called every provider that was not cooling. |
| ProviderFallback.UnlockedRequest | src/core/providerManager.js:513-549 | With the lock open at the fallback, at least one provider is called and none twice; the first success is returned; the selection stays; a failing request has called every other provider not cooling once the all-cooling reset has run. |
| ProviderFallback.RequestInOrder | src/core/providerManager.js:513-549 | With the lock open at the fallback, a request calls the active provider first, unless that is cooling, another one is not and the lock was open at the skip too, and then the others in registry order. |
| ProviderFallback.AuxAsksCheapModelFirst | src/core/providerManager.js:602-619 | An auxiliary request asks the cheap model first when one is set, the caller brings no model and the provider is not cooling; its failure opens no window and leaves the whole request to be made. Otherwise it is the whole request. |
| ProviderFallback.LockedRequest | src/core/providerManager.js:513-549 | Under the lock a request is one call, to the active provider even if it is cooling, and a failure is final. |
| ProviderFallback.SilentRequestExactly | src/core/providerManager.js:525-527 | With the lock read twice, a request makes no call at all iff the active provider is cooling, an alternative exists, and the lock is open at the skip and held at the fallback. |
| ProviderFallback.HeldAtFallback | src/core/providerManager.js:746-753 | With the lock held at the fallback, at most one call is made, and to the active provider. |
| ProviderFallback.LockedAuxRequest | src/core/providerManager.js:602-619 | Under the lock an auxiliary request makes one or two calls, all to the active provider, and returns the first success. |
| ProviderFallback.LockedRun | src/core/providerManager.js:398-427 | However long the lock is held, no unforced event moves the selection and no generation call goes to another provider: for all such runs iff the active provider does not display another one's registry name. |
| ProviderFallback.SwitchUnderLock | src/core/providerManager.js:401-419 | An unforced switch under the lock is performed iff the name asked for is registered and is the active provider's display name; one to the active provider itself is performed iff it is displayed under its registry name, and blocked otherwise. Forced or without the lock, every registered name is switched to and every other one is unknown. |
| ProviderFallback.SameProviderSwitchBlocked | src/core/providerManager.js:402-411 | With the shipped names, switching to the active provider is blocked under the lock, contrary to the comment. |
| ProviderFallback.ShippedLockHolds | src/core/providerManager.js:199-299 | With the shipped names no unforced switch gets through the lock, whatever name it asks for. |
| ProviderFallback.DisplayNameOpensLock | src/core/providerManager.js:407-427 | A provider registered under the active one's display name would be switched to; no shipped one is registered so. |
| ProviderFallback.LockedCapability | src/core/providerManager.js:133-146 | A locked provider on the candidate list is the only one called, and is called; one absent from it leaves the list and the outcome as without the lock. |
| ProviderFallback.AskGivesFirstAnswer | src/core/providerManager.js:634-646 | Embedding and speech providers are asked in list order, the first non-empty answer is the reply, and a failure means all registered ones were asked. |
| ProviderFallback.AskInListOrder | src/core/providerManager.js:634-646 | The calls go down the list of registered candidates, none left out and none asked out of turn. |
| ProviderFallback.OpenCapability | src/core/providerManager.js:133-146 | Without the lock the whole candidate list is asked in that way. |
| ProviderFallback.SkipsEndInTime | src/core/providerManager.js:63-84 | In every run, a provider being skipped was put aside by one quota failure of its own; whatever follows short of a reset, it is skipped until 30 minutes after that failure, no later failure moves that, and a later window was opened by a failure after the first had ended. |
| ProviderFallback.WindowStands | src/core/providerManager.js:74-84 | An open window stands until its end over every run without an all-cooling reset. |
| ProviderFallback.ActiveWindowStandsExactly | src/core/providerManager.js:757-775 | The active provider's open window comes through a fallback iff that does not begin with a reset. |
| ProviderFallback.SkipsAreRecent | src/core/providerManager.js:63-84 | In every run, resets included, a provider being skipped failed for its quota less than 30 minutes ago. |
| ProviderFallback.QuotaFailuresAreRemembered | src/core/providerManager.js:74-84 | Over every run without a reset, every quota failure of a generation call leaves its provider skipped until 30 minutes after it, or after an earlier one whose window was open when the call began. |
| ProviderFallback.FailureIsSkippedExactly | src/core/providerManager.js:74-84 | A quota failure leaves its provider skipped iff the call began outside a window of the provider or ended inside it. |
| ProviderFallback.LapsedWindowHidesFailure | src/core/providerManager.js:78-79 | A request that begins a second before the window ends and fails for its quota after it: the provider is not skipped. |
| ProviderFallback.CoolingIsSkipped | src/core/providerManager.js:525-527 | An unlocked request leaves a cooling active provider alone while another one can be called, and calls another one. |
| ProviderFallback.FailedProviderIsLeftAlone | src/core/providerManager.js:525-547 | Once the active provider has failed for its quota, with no window open, no unlocked request of the next 30 minutes that has another one to turn to calls it, whatever happened in between short of a reset. |
| ProviderFallback.ClockAddsUp | src/core/providerManager.js:63-72 | The time that passes over a run is what its calls took and what went by between its requests. |
| ProviderFallback.ProviderManager.IsCoolingDown | src/core/providerManager.js:63-72 | Answers whether the window is open and forgets one that has closed. |
| ProviderFallback.ProviderManager.MarkQuotaExhausted | src/core/providerManager.js:78-79 | Opens a 30-minute window unless one is recorded already. |
| ProviderFallback.ProviderManager.HasUsableAlternative | src/core/providerManager.js:153-156 | The search stops at the first other provider that is not cooling. |
| ProviderFallback.ProviderManager.EveryoneIsCoolingDown | src/core/providerManager.js:757-757 | The all-cooling test stops at the first provider that is not. |
| ProviderFallback.ProviderManager.TryFallbackProviders | src/core/providerManager.js:746-778 | Blocked and counted under the lock; otherwise the reset, then the fallback loop. |
| ProviderFallback.ProviderManager.GetCurrentProvider | src/core/providerManager.js:448-459 | Selects the first registered provider when none is active. |
| ProviderFallback.ProviderManager.GenerateResponse | src/core/providerManager.js:513-549 | Refines the request specification, with the lock read separately at the skip and at the fallback. |
| ProviderFallback.ProviderManager.GenerateAuxResponse | src/core/providerManager.js:602-619 | Refines the auxiliary specification: a cheap model first, then the whole request. |
| ProviderFallback.ProviderManager.AskInTurn | src/core/providerManager.js:634-646 | The loop over candidates refines the specification of asking in turn. |
| ProviderFallback.ProviderManager.ServeCapability | src/core/providerManager.js:719-735 | Narrows the candidates by the lock, then asks in turn; without a selection the locked name is "unknown". |
| ProviderFallback.ProviderManager.SwitchProvider | src/core/providerManager.js:398-427 | Blocked, refused for an unknown name, or performed, and the selection changes in the last case only; the first selection is never blocked. |
| EnsBatch.Partition | src/api/ens.js:48-65 | The input loop separates refused inputs, in order, from the distinct normalized names. |
| EnsBatch.SpellingsAreOneName | src/api/ens.js:25-31 | A label of at least three characters is looked up as such however it is written: in any case, with or without ".eth", with white space around it; a shorter one is refused. |
| EnsBatch.AcceptedNames | src/api/ens.js:20-31 | An accepted name has three characters or more and no capital; what is no string, and what is too short, is refused with its own message. |
| EnsBatch.TwoSpellingsOneLookup | src/api/ens.js:50-57 | Two spellings of one label make one lookup. |
| EnsBatch.RefusalsInOrder | src/api/ens.js:58-64 | The refused inputs are listed with their messages, input by input. |
| EnsBatch.NamesAreDistinct | src/api/ens.js:50-57 | The list holds each accepted name once and nothing else. |
| EnsBatch.OrderIsByFirstOccurrence | src/api/ens.js:52-57 | First occurrences decide the order of the names. |
| EnsBatch.PoolIsConfluent | src/api/ens.js:67-107 | For every interleaving of the workers, and of cache entries running out, that reaches the join: each name was claimed by exactly one of at most four workers and has the result it would have on its own, from the cache as it began without the entries that ran out before their turn. |
| EnsBatch.ScheduleIsInvisible | src/api/ens.js:67-107 | While no entry runs out, any two schedules give every name the same result. |
| EnsBatch.AnswersAreCached | src/api/ens.js:80-101 | After the join, a name whose entry did not run out is in the cache with the data it was resolved with, and one that failed is not. |
| EnsBatch.PoolAlwaysJoins | src/api/ens.js:70-107 | The workers take at most 4 steps a name and one each, and where no step is possible all are done. |
| EnsBatch.Batch.ClaimNext | src/api/ens.js:71-73 | Test and increment of the shared index are one step. |
| EnsBatch.Batch.LookUp | src/api/ens.js:80-83 | A cached name is resolved at once, otherwise the lookup starts. |
| EnsBatch.Batch.DropEntry | src/api/ens.js:8-8 | An entry may run out at any moment. |
| EnsBatch.Batch.Continue | src/api/ens.js:84-101 | A returned lookup is cached and resolved, a failed one only resolved. |
| EnsBatch.Batch.Collect | src/api/ens.js:109-113 | After any schedule the array returned is the refused inputs in order, then one answer for each distinct name in first-occurrence order. |
| EnsBatch.Listed | src/api/ens.js:109-111 | The last loop lists the results in the order of the names. |
| Allocation.SharesStayWithinWallet | src/api/crypto.js:1708-1740 | Any interleaving of configure and remove requests with positive shares keeps the traders distinct, their sum at or below 100, and the published pair at 100 with both parts non-negative. |
| Allocation.InstallReplaces | src/services/crypto/strategies/StrategyRegistry.js:129-151 | Reconfiguring replaces the token's own share and leaves every other trader alone. |
| Allocation.UninstallDrops | src/services/crypto/strategies/StrategyRegistry.js:169-178 | Removal takes exactly this trader out; the rest still sums to the others' share. |
| Allocation.OutcomesExactly | src/api/crypto.js:1648-1740 | Which of its four outcomes a request has, with the share asked for, kept, or 20; and what each leaves: the trader with that share and everybody else as before, or nothing new; the split published, or not. |
| Allocation.SharesAddUp | src/api/crypto.js:1710-1737 | The sums count each trader for its share, 20 if that is missing or zero, and the guard leaves the token's own out. |
| Allocation.OmittedShareIsKept | src/api/crypto.js:1649-1651 | A request that names no share keeps the trader's, changes nothing in the book and is never refused. |
| Allocation.AcceptedWithinExactly | src/api/crypto.js:1714-1736 | For all shares, zero and negative included, an accepted request ends within 100 iff its share is not zero or the others leave room for 20. |
| Allocation.ZeroShareOvercommits | src/api/crypto.js:1714-1740 | A requested zero is admitted as 0 and counted as 20: the published pair becomes -10 and 110. |
| Allocation.RemovalWithinExactly | src/api/crypto.js:2150-2181 | A removal keeps every book within 100 that holds this share iff the share is not negative. |
| Allocation.RemovedShareDecides | src/api/crypto.js:2150-2181 | For one book: the removal keeps it within 100 iff the trader is unknown or its share is at least the sum minus 100. |
| Allocation.NegativeShareBreaksRemoval | src/api/crypto.js:2150-2181 | A concrete book at 100 whose removal of a negative share leaves 150. |
| Allocation.RefusalNamesTheLimit | src/api/crypto.js:1716-1722 | For positive shares, the maximum a refusal names is exactly the most that would have been accepted. |
| Allocation.PublishedStaysCurrentExactly | src/api/crypto.js:1732-1740 | After a removal the published pair is still that of the traders iff the token was unknown. |
| Allocation.RemovalLeavesStaleSplit | src/api/crypto.js:2150-2181 | A removal after which the published split still gives the traders 100 % while they hold 60 %. |
| Allocation.TraderRegistry.SumOthers | src/api/crypto.js:1710-1715 | The guard's loop sums every other trader's share, a missing one as 20. |
| Allocation.TraderRegistry.SumAll | src/api/crypto.js:1733-1737 | The publishing loop sums every trader's share. |
| Allocation.TraderRegistry.ConfigureTrader | src/api/crypto.js:1648-1740 | The request refines its specification, with the refused, uncreated and unpublished outcomes. |
| Allocation.TraderRegistry.RemoveTrader | src/services/crypto/strategies/StrategyRegistry.js:169-178 | Removes the trader and answers whether there was one. |
| Watchlist.AddToWatchlists | src/api/crypto.js:1801-1822 | Whichever lists are shared, every configured strategy keeps its array and ends with its own contents plus the entry if it was missing; `alreadyPresent` is also given when two strategies share a list. |
| Watchlist.HitsExactly | src/api/crypto.js:1816-1822 | `alreadyPresent` iff some strategy's list had a match or two strategies hold the same list. |
| Watchlist.SharedListAnswersPresent | src/api/crypto.js:1815-1820 | Base strategy and trader share a list without the token: the answer is `alreadyPresent`. |
| Watchlist.AddLeavesExactlyOne | src/api/crypto.js:1820-1821 | Adding leaves exactly one entry for the token if it was listed at most once, and changes no other entry. |
| Watchlist.RequestMatchesExactly | src/api/crypto.js:1805-1806 | A request is about an entry iff the addresses differ at most in case and the entry is on the network named, one without a network counting as on bsc. |
| Watchlist.CaseMakesNoDifference | src/api/crypto.js:1805-1865 | In whatever case its address is typed, a listed token is not listed again, and a removal takes it unless it is blocked. |
| Watchlist.RemoveFromWatchlists | src/api/crypto.js:1848-1868 | Every list loses the token unless its first match is shielded, no array is written to, and the request is refused iff something was shielded and nothing taken. |
| Watchlist.RemovalIsCompleteExactly | src/api/crypto.js:1856-1864 | A match is left after a removal iff the first match was a shielded system token. |
| Watchlist.AddThenRemoveRestoresExactly | src/api/crypto.js:1805-1865 | Adding a token and removing it, with or without its network, restores the list's contents and order iff the removal found nothing before or a shield made both requests idle. |
| Watchlist.AddThenRemoveEverywhereExactly | src/api/crypto.js:1805-1865 | The add route followed by the remove route, over all strategies: every one lists what it listed, with an empty list where it had none, iff each list was untouched by the pair. |
| Watchlist.RunStaysUnique | src/api/crypto.js:1816-1865 | Over any run of requests no token gets listed twice. |
| Watchlist.RunKeepsShielded | src/api/crypto.js:1856-1861 | Over any run whose removals name a network, a shielded system token stays listed. |
| Watchlist.ShieldedExactly | src/api/crypto.js:1856-1861 | An entry is shielded iff it is flagged, is the allowlisted address in whatever case, and counts as on bsc: by its own network, else by the one the request names, else by default. |
| Watchlist.SystemTokenExactly | src/services/crypto/systemTokens.js:45-46 | The allowlist holds one token, on bsc, under its address in any case. |
| Watchlist.ShieldHoldsExactly | src/api/crypto.js:1845-1863 | In a list without duplicates, a shielded token outlasts every run of requests, with or without networks, iff it is the first entry under its address. |
| Watchlist.UnnamedRemovalTakesSystemToken | src/api/crypto.js:1846-1863 | Without a network, the allowlisted token is removed when a namesake on another network comes first. |
| Watchlist.Strategy.EnsureListed | src/api/crypto.js:1817-1821 | One turn of the add loop: a missing list is created, a present one is pushed to in place. |
| Watchlist.Strategy.DropMatches | src/api/crypto.js:1855-1864 | One turn of the remove loop: a new list replaces the reference and the old array is left as it was. |
| Portfolio.OneRowPerNetwork | src/api/crypto.js:211-298 | For any positions and traders, a network shows exactly one stablecoin row, holding its positive position plus its traders' positive reserves with the value rounded from that balance, or none when nothing is held. |
| Portfolio.NothingLost | src/api/crypto.js:268-298 | Over all networks the row balances sum to the positive positions plus the positive reserves; all other rows stay, in order. |
| Portfolio.StableRowsTell | src/api/crypto.js:211-298 | The row of a network shows the amount held, at par, in USDC on ethereum and USDT elsewhere, with its value rounded to the nearest cent. |
| Portfolio.TokenRowsTell | src/api/crypto.js:239-266 | The other rows are the native coins and then one for each trader that holds its token: balance, price, network or bsc, and the value to the nearest cent. |
| Portfolio.ReserveIsFiled | src/api/crypto.js:277-280 | A positive reserve belongs to the token's network, else to the trader's, else to bsc. |
| Portfolio.TraderOrderIsIrrelevant | src/api/crypto.js:236-299 | Any two listings of the same traders, in whatever order, give every network the same row. |
| Portfolio.Table.AddPositions | src/api/crypto.js:211-227 | The positions loop pushes one row per positive position. |
| Portfolio.Table.CreditReserve | src/api/crypto.js:278-298 | The reserve goes into the first stablecoin row of its network in place, or becomes a new row. |
| Portfolio.Table.AddTraders | src/api/crypto.js:236-299 | The traders loop pushes the token row, then credits the reserve. |
| Clarifications.TakeFollowsHistory | src/core/clarifications.js:18-34 | After any run, a take gives the task of the last question parked for the user iff none was taken since and its time has not run out. Users without an id share one name, "default"; all others are kept apart. |
| Clarifications.SweepIsInvisible | src/core/clarifications.js:22-23 | The sweep inside park changes no take at that time or later. |
| Clarifications.ParkLeavesLive | src/core/clarifications.js:18-25 | Right after a park, all other entries were live when it began. |
| Clarifications.EachTaskResumesAtMostOnce | src/core/clarifications.js:28-34 | Over any run each parked task resumes at most once. |
| Clarifications.TakeUsesUpItsTicket | src/core/clarifications.js:28-34 | After any run, a task that is handed out is one that the same user parked, and its ticket is used up; a take that hands out nothing uses up none. |
| Clarifications.ClarificationStore.Sweep | src/core/clarifications.js:23-23 | The loop drops exactly the expired entries. |
| Clarifications.ClarificationStore.ParkTask | src/core/clarifications.js:18-25 | Sweep, then set, with the expiry read from a second, later clock reading. |
| Clarifications.ClarificationStore.TakeTask | src/core/clarifications.js:28-34 | The entry is deleted whether or not it is still live. |
| Siwe.RoundTrip | src/api/signatures.js:50-75 | Parsing a printed message gives back exactly its fields and leaves the absent ones undefined, expiration and start of validity included, for every address, URI, chain id, nonce and time that is non-empty, on one line and trimmed, statements no line of which starts with a field tag, and any version, request id and resources on one line each. |
| Siwe.OptionalFieldsReadBack | src/services/crypto/signatureService.js:217-242 | The template prints the expiration, the start of validity, the request id and the resources only when given; the first two are read back, each under its own name. |
| Siwe.WalletMessageRoundTrips | src/api/crypto.js:733-742 | The wallet page's own message is such a message. |
| Siwe.NonceSurvivesExactly | src/api/signatures.js:58-61 | In an otherwise printable message the nonce comes back unchanged iff it is non-empty, on one line and trimmed. |
| Siwe.FoundIsPlain | src/api/signatures.js:58-61 | Whatever the text, a field that is found is empty, or on one line and trimmed. |
| Siwe.EmptyValueTakesNextLine | src/api/signatures.js:59-59 | An empty value is read as the line after it, trimmed, since the white space pattern crosses line breaks. |
| Siwe.EmptyNonceLost | src/api/signatures.js:58-61 | A message printed with an empty nonce gives its whole time line as the nonce. |
| Siwe.HeaderReadsBack | src/api/signatures.js:52-56 | Domain and address are read off the first two lines. |
| Siwe.LineEndsAtLineFeed | src/api/signatures.js:52-55 | The first two lines end at line feeds and at no other line terminator. |
| Siwe.DomainGivenExactly | src/api/signatures.js:53-54 | A domain is given iff the first line is the header of some name, and then that name, trimmed. |
| Siwe.AddressGivenExactly | src/api/signatures.js:55-56 | An address is given iff the second line, trimmed, is 0x and forty hexadecimal digits. |
| Siwe.NumberIsRead | src/api/signatures.js:62-68 | The chain id is the signed number its text begins with; a text that begins with none gives undefined. |
| Siwe.PaddingIsDropped | src/api/signatures.js:58-61 | Blanks and tabs around a value are not part of it. |
| Siwe.BlankAtTheEnd | src/api/signatures.js:59-60 | At the very end of the text, blanks after a tag are read as an empty value, and a bare tag as no field. |
| AgentHistory.SnapshotsAreTheNewest | src/core/agentAccessor.js:106-123 | Over every run the snapshots stay within the cap and are a newest-first-closed part of all timestamps taken: all that have not expired, or else at least 999 of them. |
| AgentHistory.SnapshotIsStored | src/core/agentAccessor.js:106-123 | A snapshot is there once taken, and one fewer is kept iff it is retaken within its millisecond at the cap. |
| AgentHistory.LogTellsTheLife | src/core/agentAccessor.js:41-54 | Over every run the kept log is the tail of a full log of lives, each initialized, reconfigured any number of times and destroyed; its last event tells whether an agent is set. |
| AgentHistory.EveryChangeIsLogged | src/core/agentAccessor.js:41-54 | Over every run the full log has exactly one event for each change of agent that the calls make. |
| AgentHistory.ChangeIsLogged | src/core/agentAccessor.js:41-54 | A change logs one event, with the time: initialized iff there was no agent, destroyed iff there is none now, else reconfigured; setting the same agent logs none. |
| AgentHistory.NewestFirstSorted | src/core/agentAccessor.js:157-161 | Sorting the keys lists them strictly newest first and loses none. |
| AgentHistory.AscendingIsSorted | src/core/agentAccessor.js:171-173 | With a clock that never goes back, sorting the events by time returns the log as it is. |
| AgentHistory.AgentAccessor.SetGlobalAgent | src/core/agentAccessor.js:41-54 | Which event each change of agent logs, and that none is logged when nothing changes. |
| AgentHistory.AgentAccessor.HandleStateTransition | src/core/agentAccessor.js:131-146 | Appends and keeps the last 1000. |
| AgentHistory.AgentAccessor.FindOldest | src/core/agentAccessor.js:109-118 | The loop finds the first of the smallest timestamps. |
| AgentHistory.AgentAccessor.GetAgentState | src/core/agentAccessor.js:94-123 | A set agent is snapshotted, evicting the oldest at the cap. |
| AgentHistory.AgentAccessor.GetAgentStateHistory | src/core/agentAccessor.js:153-165 | The newest `limit` snapshots, strictly newest first; whatever is newer than one of them is among them. |
| AgentHistory.AgentAccessor.GetStateTransitionEvents | src/core/agentAccessor.js:171-173 | Returns the kept log in order. |
| Staking.RewardsWithinEmission | src/api/staking.js:286-292 | Projected rewards lie between 0 and rate times the time that counts, which is at most the time left. |
| Staking.RewardsGrowWithStake | src/api/staking.js:290-292 | A greater stake never projects less. |
| Staking.RewardsGrowWithDuration | src/api/staking.js:286-287 | A longer duration never projects less. |
| Staking.DurationMattersExactly | src/api/staking.js:286-287 | Two durations project the same iff nothing is staked, they are equal, or both reach the end of the period. |
| Staking.SplittingNeverLoses | src/api/staking.js:290-292 | Splitting a stake never projects less in total. |
| Staking.AprMeaning | src/api/staking.js:295-298 | The rate shown is a year of emission by the projected share per token staked, which is what one weighted token of the whole pool earns; it is given iff the stake is positive. |
| Staking.AprFalls | src/api/staking.js:295-298 | A greater stake shows a strictly smaller rate. |
| Staking.EmissionIsShared | src/api/staking.js:286-292 | The rewards projected for the stakers of a pool, each for itself, add up to exactly what the contract emits in the time that counts, when the reported total is weighted like the stakes. |
| Staking.ProjectionMeans | src/api/staking.js:270-302 | Rewards are to the emission up to the end of the period as the stake's weight is to the whole pool's, with the multiplier of the first tier of that id, one if it has none; the total is the stake and its rewards. |
| Staking.ProjectedExactly | src/api/staking.js:249-284 | A number is given iff the contract is available and emitting in its period, the tier exists and the weighted pool is not empty; otherwise the first reason that applies is. |

## Left out

Simplifications that bound what a claim says:

- PluginLocks.MutualExclusion: assumes woken requests run before new ones; what happens otherwise is in the two barging lemmas.
- PluginLocks.EveryRequestIsServed: that a holder does release is the caller's business; plugin code that never returns is not modelled.
- ChainExecutor.ChainRegistry.StartChain: takes the chain id as fresh; the code draws it from the clock and a random suffix.
- ChainExecutor.ExecuteSteps: a step's 60-second timeout is one way to throw; the timed-out step's own lock goes on in `PluginLocks` independently of its chain, and its late result is dropped.
- ChainExecutor.LatestStepChosen: the content built from the chosen result, and the other e-mail fields, are not modelled.
- TrellisTarget.InheritTrellisTarget: a missing step object is not modelled, a missing `params` is; in `LookbackIsScan` a step's result is known before the next step is filled.
- SwrCache.AnswersAreRecent: time is one integer clock in milliseconds; the store's own expiry is an eviction that may happen at any moment, and that it happens by 300 s is a hypothesis of `StoreLifeKeepsBound` only. A background refresh that fails with nobody waiting rejects unobserved.
- ConversationMemory.BufferIsWindow: the buffer is trimmed on write only, so the claim is as of the last write; restarts are covered by `RestartRestoresLiveBuffer`.
- ConversationMemory.RestartRestoresLiveBuffer: transcript writes succeed and are stamped with the time of their call; after a clear that was not saved only what followed it is claimed, and `RestartGives` says what a restart brings back.
- ConversationMemory.ClearIsFinal: users with keys of their own and restarts that can read the saved clears, as `ClearIsFinalExactly` and `BlindRestartBreaksClear` show to be needed; conversion of ids with String() is not modelled.
- ProviderFallback.UnlockedRequest: one request at a time; requests racing on cooldowns are not modelled. `retryOperation` is one oracle call that answers, fails, or fails for quota.
- ProviderFallback.SkipsEndInTime: speaks of runs without a reset after the window opened; `ActiveWindowStandsExactly` shows that a reset ends it.
- ProviderFallback.LockedRun: display names do not change during a run.
- ProviderFallback.ProviderManager.SwitchProvider: activation hooks, model lists and saving the choice are left out.
- ProviderFallback.ProviderManager.MarkQuotaExhausted: `lastQuota` and its alert are left out.
- EnsBatch.PoolIsConfluent: the lookup service answers each name consistently within a batch; batches running side by side on one cache are not modelled.
- EnsBatch.Partition: trimming and lower-casing cover ASCII, as in `Watchlist.RequestMatchesExactly`.
- Allocation.TraderRegistry.ConfigureTrader: shares are real numbers; other settings of a trader, and strings sent as shares, are left out. Publication takes effect with the request.
- Watchlist.AddToWatchlists: metadata lookup and persistence are left out; addresses are compared in ASCII lower case.
- Portfolio.OneRowPerNetwork: amounts are reals, so floating-point error is not modelled; an exception halfway through the traders loop, which the source swallows, is not either.
- Portfolio.Table.AddTraders: a token's price is an input; the display name, price change and volatility columns are left out.
- Siwe.RoundTrip: the template is that of `createSIWEMessage` with its parameters given and the nonce, times and request id not empty; numbers past 2^53 are exact here.
- ProviderFallback.QuotaFailuresAreRemembered: speaks of runs without a reset after the failure, like `SkipsEndInTime`.
- AgentHistory.SnapshotsAreTheNewest: the snapshots' contents are left out; the store's own expiry drops, at any moment, snapshots past any age, and an expired one is gone at once.
- Staking.RewardsWithinEmission: over the reals, without `toFixed`.
- Staking.EmissionIsShared: takes the contract's total to be weighted by tier and to leave the staker out; whether the contract reports it so is not part of this model.
- Staking.ProjectedExactly: for stakes and pools that are not negative and positive multipliers.

Parts of the repository not modelled:

- HTTP routing, authentication, rate limiting, compression and logging: plumbing without state worth proving.
- MongoDB, LanceDB, node-cache internals, chain RPC and the swap service: maps, oracles or arbitrary steps here.
- Prompts, intent tables, command parsing and parameter extraction: their behaviour rests on model output or regular expressions tuned by hand.
- Streaming responses, transcription preferences, image analysis and provider metrics: the same fallback again, or no decision of their own.
- Avatars, music, faucets, hardware and contract deployment scripts: wrappers around input and output.
- Pagination, bulk summaries and single-branch validation: easy members only.
