# Verified models of the Cinnabar client's protocol cores

This project models the parts of the client where state is shared, retried or budgeted, and proves
what those parts promise. It follows the program's own structure:

* **The shared credential cache** (`core/authcache`). Several processes share a Microsoft sign-in file
  and a derived bundle of device, SISU, XSTS and service tokens, each file under its own lease.
  `AuthTypes`, `BundleMerge` and `AccountSpec` give the values, the merge and every locked section as
  functions, and `AccountSections` says what each section leaves in the fields; the class in `Account`
  updates the account's fields in place and is proved equal to those functions. `ServiceGenerations` covers
  one account over any history of events. `EvictionProtocol` and `EvictionProof` cover any number of
  accounts sharing one bundle file, with `ForgottenRejection` and `CarelessRefusals` for what happens when
  an account forgets a rejection. `SignInCache` and `SignInProtocol` cover the sign-in file, its leases,
  publication and removal, `SignInProgress` that no process gets stuck over them, and `SignOut` the removal
  itself. `LockOrder` covers the account's gates and mutexes, the sign-in source's gate, the locks of SISU's
  sessions and both file leases; `Flights` and `FlightsProgress` cover single flights and shutdown.
* **The Cinnabar API client** (`core/cinnabarapi`). `RetryPolicy` (limits and 64-bit duration
  arithmetic), `LookupBudget` (token bucket and batches), `Replies` (request and reply correlation),
  `LiveSession` (visibility and loadout announcements over reconnects) and `Emotes` (leased playback).
* **Three cores of the Rust app**. `OrderedInput` (the per-frame edge cursor), `FarTerrain` with
  `FarTerrainRuns` and `FarTerrainTurns` (the budgeted drain of retiring sessions), and `BiomeBlend` with
  `BiomeSamples` (the weighted biome blend and the blocks it samples).

A function that computes a section or a step is never its own specification: for each there is a lemma that
says what it does in terms of its inputs (`...Exactly`, `...ExactlyWhen`), a theorem about every run, or both.

Each protocol is a step system: a datatype of states, a datatype of actions, an `Enabled` predicate and
a `Next` function. A theorem about runs quantifies over every sequence of states and actions.

## Where the source does less than one might hope

Some properties hold only under a condition. The condition is proved, and so is a case that needs it.

* *Evicted XSTS tokens.* An account remembers one refused token per relying party, so refusing a second
  one forgets the first, which may then come back. `EvictionProof.EvictedNeverReturns` assumes careful
  refusals: either the forgotten token is evicted and is the one `synced` names, so that the account's next
  adoption of a bundle ends every copy of it, or its copies are such as any token in use has. For a token
  whose eviction is published this condition is exact: careful steps alone can bring it back if and only if
  the account has a copy in SISU, in a pending snapshot or in an unexpired result on its way that the next
  adoption does not end (`CarelessRefusals.EvictedTokenReturnsExactlyWhen`; an account behind the file merges
  only copies that have not expired, and expired copies of such an account are outside the equivalence). For a
  token not evicted yet, of which there is no copy but which the next reload would restore, careful steps can
  bring it back if and only if its removal is queued (`CarelessRefusals.QueuedTokenReturnsExactlyWhen`). For
  copies of a token whose eviction is not published the condition is only shown to be enough.
  `ForgottenRejection` follows the shortest ways back and exhibits a complete run. Service tokens need no
  such condition.
* *Lock order.* Adopting a bundle locks a SISU session under the account gate, against the order. It is a
  session made under that gate, which nobody else can know yet; `LockOrder` carries this as the one
  exception, proves it is never contended, and shows that the order fails without it.
* *Names of the synced bundle.* `persisted` and `synced` stop describing the same bundle exactly when an
  unusable bundle was found, its replacement was not written, and the names differ
  (`AccountSpec.CommitKeepsSyncedNames`).
* *A published token can be displaced.* A longer-lived local token wins the merge and is evicted only
  afterwards, so a refused local token can take a published one with it
  (`ForgottenRejection.RefusedLocalTokenDisplacesPublished`).
* *Rotation chains.* With saves succeeding, the rotations of a sign-in form one linear chain. In general the
  chain is linear until a step rotates the file's token while its successor was not saved, and by then some
  earlier step did fail to save it (`SignInProtocol.LinearExactlyWhen`, `SignInProtocol.ForkFollowsFailedSave`).
  One failed save is enough (`SignInProtocol.FailedSaveForks`).
* *Retry-After.* A delay of 2^64 seconds or more does not parse and counts as no delay at all
  (`RetryPolicy.DeltaSecondsReadBack`).
* *Lookup identifiers.* They wrap after 2^32. Starting a lookup whose identifier one that has not returned
  still has strands one of the two, and nothing else does (`Replies.StartStrandsExactlyWhenShared`). The first
  2^32 lookups of a session never do (`Replies.FewLookupsAreRuns`).
* *Loadout revisions.* Once the counter reaches 2^53 - 1, which a server's welcome can bring about, no
  loadout is queued again (`LiveSession.SpentCounterQueuesNothing`).
* *Watch lists.* Three seconds separate the moments two lists are queued, not the moments they are
  written; a writer held up by any delay of up to three seconds can send them that much closer
  (`Emotes.SpacingIsAttained`).
* *Frame identity.* The input cursor restarts when the session, position authority or dimension changes
  within one frame, and edges already dispatched go out again (`OrderedInput.ReplaysExactlyWhen`).

## Model

| member | source | states |
|---|---|---|
| `BundleMerge.MergeNeverLosesLifetime` | core/authcache/bundle.go:290-327 | a merge never drops a published credential and never replaces one by a shorter-lived one |
| `BundleMerge.MergeTakesLongerLived` | core/authcache/bundle.go:290-313 | the device, title and user tokens of a merge are the local ones if and only if those have not expired and end after the published ones, or there are none published |
| `BundleMerge.MergeTakesUnsynced` | core/authcache/bundle.go:295-325 | the service token and every XSTS token of a merge, in terms of expiry and names: unexpired, outliving the other and not the synced one, the mirror after the snapshot |
| `BundleMerge.MergeTakesLocalExactlyWhen` | core/authcache/bundle.go:295-325 | a local token reaches the merged bundle if and only if it is valid, not the synced one and outlives the published one (a service token also only in the same environment) |
| `BundleMerge.MergedXstsAt` | core/authcache/bundle.go:316-325 | per relying party, the result of merging the snapshot first and the gate's mirror second |
| `BundleMerge.MergeIgnoresIterationOrder` | core/authcache/bundle.go:317-325 | any order of walking the token map gives the same merged map |
| `BundleMerge.MergeXstsLoop` | core/authcache/bundle.go:317-325 | the loop over a map in unspecified order computes that merged map |
| `AccountSpec.AdoptedSlots` | core/authcache/bundle.go:111-132 | after adopting a bundle neither slot holds a remembered rejection, mirror and session agree, and the generation moves exactly when the service token changes |
| `AccountSpec.CommitWritesNoRejection` | core/authcache/bundle.go:198-219 | no written bundle holds a remembered rejection, however old its snapshot |
| `AccountSpec.CommitKeepsSyncedNames` | core/authcache/bundle.go:205-219 | when exactly `persisted` and `synced` still describe one bundle after a publication |
| `AccountSpec.CommitWrites` | core/authcache/bundle.go:329-374 | what a publication writes, part by part, and exactly when it writes nothing |
| `AccountSpec.PublishedIsRestored` | core/authcache/bundle.go:376-427 | an account of the same sign-in that reads what another published holds each of the writer's credentials in its own place: device, key, environment, title, user, every XSTS token not refused, and the service token while valid |
| `AccountSections.ReloadedExactlyWhen` | core/authcache/bundle.go:95-132 | exactly which bundle is adopted, and every field of the account afterwards; otherwise nothing changes |
| `AccountSections.CaughtUpExactlyWhen` | core/authcache/bundle.go:202-217 | the same for a publication, whose snapshot is merged as well |
| `AccountSections.XstsInstalledExactlyWhen` | core/authcache/derived.go:303-321 | exactly which XSTS results are installed, for every relying party |
| `AccountSections.XstsRefused` | core/authcache/derived.go:353-360 | what a refusal remembers and what the mirror keeps, for every relying party |
| `AccountSections.ServiceRefusedExactly` | core/authcache/derived.go:517-524 | every field after a service token was refused |
| `AccountSections.DiscoveredExactly` | core/authcache/derived.go:604-616 | every field after a discovery, which costs the service token exactly if the environment is another |
| `AccountSections.BindingAppliedExactly` | core/authcache/derived.go:747-809 | what another sign-in leaves of an account, and that a rotation leaves everything |
| `Account.Account.constructor` | core/authcache/derived.go:142-152 | before anything is loaded, a new account holds no credential, rejection or synced name |
| `Account.Account.MergeLocalLocked` | core/authcache/bundle.go:290-327 | the merge as the account computes it from its own fields |
| `Account.Account.Restore` | core/authcache/bundle.go:376-427 | a bundle with missing or conflicting parts changes nothing; otherwise the whole restored state |
| `Account.Account.EvictRejectedLocked` | core/authcache/bundle.go:122-127 | the loop leaves session and mirror without any remembered rejection and otherwise as they were |
| `Account.Account.AdoptLocked` | core/authcache/bundle.go:109-132 | the whole state after adopting, which holds no remembered rejection |
| `Account.Account.ReloadLocked` | core/authcache/bundle.go:95-107 | an unseen bundle of this account is merged and adopted; anything else changes nothing |
| `Account.Account.PersistLocked` | core/authcache/bundle.go:329-374 | what is written, if anything, and that `persisted` and `synced` follow it |
| `Account.Account.PublishLocked` | core/authcache/bundle.go:198-219 | a replaced session asks for a retry and changes nothing; otherwise the committed state, with no rejection in the account or the written bundle |
| `Account.Account.InstallXstsLocked` | core/authcache/derived.go:303-321 | a result installs only on the session it was requested on, and only if it is not the refused token |
| `Account.Account.RejectXstsLocked` | core/authcache/derived.go:353-360 | the rejection is remembered and the mirror no longer holds it |
| `Account.Account.FinishExchangeLocked` | core/authcache/derived.go:466-484 | install, give way to a fresher token, or retry; the token returned is the one held and not the refused one |
| `Account.Account.InstallServiceRefreshLocked` | core/authcache/refresh.go:130-157 | a background refresh installs under the same fences |
| `Account.Account.RejectServiceLocked` | core/authcache/derived.go:517-524 | the refused service token is dropped and fenced off |
| `Account.Account.DiscoverLocked` | core/authcache/derived.go:604-616 | a changed environment drops and fences the service token |
| `Account.Account.ResetLocked` | core/authcache/derived.go:789-809 | everything derived is forgotten, both counters move, the rejections go with the account |
| `Account.Account.ApplyBindingLocked` | core/authcache/derived.go:747-779 | a changed sign-in resets the account unless the caller adopts the rotation |
| `ServiceGenerations.GenerationCountsSupersessions` | core/authcache/derived.go:437-527 | over any history, the generation is unchanged if and only if nothing superseded the credential in between |
| `ServiceGenerations.EqualGenerationsHoldOneCredential` | core/authcache/derived.go:469-482 | two states with equal generations hold the same service credential |
| `ServiceGenerations.InstallsOverNothing` | core/authcache/refresh.go:79-157 | an exchange or refresh that installs finds, at every point since it read its seed, that very credential and no superseding event |
| `ServiceGenerations.InstalledExactlyWhen` | core/authcache/derived.go:469-482 | over every history, exactly which exchange and refresh results are installed, and the account afterwards |
| `ServiceGenerations.InstalledUnderItsEnvironment` | core/authcache/refresh.go:139-157 | a result is installed only under the environment it was derived for, which has been the account's only one since, and is the one it publishes |
| `ServiceGenerations.RejectionsStayOut` | core/authcache/derived.go:291-372 | through any history neither slot holds a remembered rejection |
| `EvictionProof.AdoptedToken` | core/authcache/bundle.go:205-216 | a token a merge yields is refused, or the file's own and not evicted, or a local one that was never published |
| `EvictionProof.StepKeeps` | core/authcache/bundle.go:96-219 | every step of every account, refusals being careful, keeps the cross-process invariant |
| `EvictionProof.RunKeepsInvariant` | core/authcache/bundle.go:96-219 | so does every run whose refusals are careful |
| `EvictionProof.EvictionsOnlyGrow` | core/authcache/bundle.go:329-374 | what has been evicted stays evicted |
| `EvictionProof.PublishingEvicts` | core/authcache/derived.go:340-372 | publishing after rejecting a token the account had held counts as evicting it |
| `EvictionProof.EvictedNeverReturns` | core/authcache/derived.go:338-372 | in every run whose refusals are careful, no later bundle written by any account contains an evicted XSTS or service token |
| `ForgottenRejection.ForgottenTokenReturnsExactlyWhen` | core/authcache/derived.go:353-371 | after a second refusal an account in step with the file writes the first token back if and only if its snapshot still holds it |
| `ForgottenRejection.CarelessRefusalUndoesEviction` | core/authcache/derived.go:353-371 | in any reachable state, the very next publication after one careless refusal returns an evicted token, with no other account and no new device token involved |
| `ForgottenRejection.LateResultReturnsExactlyWhen` | core/authcache/derived.go:303-321 | a late result puts the forgotten token in the mirror; a reload puts it into SISU, and the next publication into the file, if and only if the merge takes it, whatever the file holds for that party |
| `CarelessRefusals.EvictedTokenReturnsExactlyWhen` | core/authcache/derived.go:340-372 | for an evicted token, careful steps after refusing another one can end with it in the file if and only if the account had a copy in SISU, in a snapshot or in an unexpired result and `synced` did not name it, in step with the file or behind it with unexpired copies |
| `CarelessRefusals.QueuedTokenReturnsExactlyWhen` | core/authcache/derived.go:353-371 | for a token not evicted yet, without a copy but restored by the next reload, the same if and only if its removal from SISU is still queued |
| `CarelessRefusals.CarefulRefusalNeverReturns` | core/authcache/derived.go:340-372 | after a careful refusal no careful continuation returns any evicted token |
| `CarelessRefusals.MirrorTakesOver` | core/authcache/bundle.go:290-327 | a token only the mirror holds comes back with the next bundle that has none for its relying party |
| `ForgottenRejection.RefusedLocalTokenDisplacesPublished` | core/authcache/bundle.go:206-217 | when exactly a refused snapshot token removes a published one from the file |
| `ForgottenRejection.EvictionCanBeUndone` | core/authcache/derived.go:340-372 | a run of eleven steps of one account in which an evicted token returns |
| `SignInCache.TokenIsOnDisk` | core/authcache/cache.go:131-193 | a token is returned only while it is the one on disk under the source's generation; once changed, never again |
| `SignInCache.GrantedExactlyWhen` | core/authcache/cache.go:146-193 | a call is granted if and only if the file is the source's own, a source stands or can be built, the provider does not refuse, and the answer can be refreshed and is on disk or saved; after another process's rotation it is the file's token |
| `SignInCache.UngrantedKeeps` | core/authcache/cache.go:146-177 | what a call that is not granted changes in memory |
| `SignInCache.OpenedExactlyWhen` | core/authcache/cache.go:78-113 | opening is granted if and only if the file's token can be reused or a requested one saved, and under which generation |
| `SignInCache.RotatedExactlyWhen` | core/authcache/cache.go:162-176 | exactly when a call uses up a refresh token |
| `SignInCache.OpenRotatesExactlyWhen` | core/authcache/cache.go:78-92 | exactly when opening does |
| `SignInCache.PersistingSource.PersistToken` | core/authcache/cache.go:180-193 | what is saved and when the file is left alone |
| `SignInCache.PersistingSource.GetTokenLocked` | core/authcache/cache.go:131-177 | the reload, the refresh and the save under one lease, with the granted token on disk |
| `SignInProtocol.StepKeeps` | core/authcache/cache.go:131-177 | every step keeps phases, leases and files consistent |
| `SignInProtocol.RetiredNeverReturns` | core/authcache/cache.go:43-124 | a generation that left the sign-in file never reappears there |
| `SignInProtocol.LeavingRetires` | core/authcache/remove.go:17-38 | a generation that is gone from the file stays gone, whatever removed it |
| `SignInProtocol.WritesAreSignedIn` | core/authcache/bundle.go:221-239 | every bundle is written while the sign-in file holds the writer's own generation |
| `SignInProtocol.SignOutIsFinal` | core/authcache/remove.go:12-38 | with both files gone, only a sign-in made afterwards brings either back |
| `SignInProtocol.RotationsFormOneChain` | core/authcache/cache.go:131-193 | with saves succeeding, the rotations of all processes form one linear chain per sign-in |
| `SignInProtocol.LinearExactlyWhen` | core/authcache/cache.go:131-193 | in every run the chain is linear if and only if no step rotated the file's token while the last successor was missing from the file |
| `SignInProtocol.ForkFollowsFailedSave` | core/authcache/cache.go:180-193 | the first fork rotates a token that an earlier step had rotated away without saving its successor |
| `SignInProtocol.FailedSaveForks` | core/authcache/cache.go:180-193 | a complete run of two processes in which one failed save forks that chain |
| `SignInProgress.EveryLeaseIsNeeded` | core/authcache/cache.go:131-177 | in every reachable state a lease is held only by a process in a phase that needs it |
| `SignInProgress.BothLeasesComeBack` | core/authcache/cache.go:147-153 | from every reachable state the holders' own steps free both leases and leave both files as they are |
| `SignInProgress.SigningOutSucceeds` | core/authcache/remove.go:12-38 | from every reachable state a process can sign out, after which both files are gone |
| `SignInProgress.SigningInSucceeds` | core/authcache/cache.go:95-113 | from every reachable state with a file that can be read a process can sign in anew and publish its bundle |
| `SignInProgress.RefreshingSucceeds` | core/authcache/cache.go:131-177 | a process whose sign-in is still the file's can rotate the token there, whatever others have done to it |
| `SignOut.Directory.Remove` | core/authcache/remove.go:17-38 | lease order, both removals attempted, every failure reported, and no failure only if both files are gone |
| `SignOut.Directory.RemoveEach` | core/authcache/remove.go:32-36 | the loop goes on past a file it cannot remove |
| `LockOrder.EveryOperationIsOrdered` | core/authcache/bundle.go:162-239 | every operation takes its locks in rank order, save the lock of a session it made under the gate it holds, awaits results holding nothing, and releases all |
| `LockOrder.AdoptionNeedsException` | core/authcache/bundle.go:122-127 | locking a session others know at that point would break the order |
| `LockOrder.OwnSessionIsUncontended` | core/authcache/bundle.go:211-213 | nobody else holds, or can name, the lock of a session made under a gate still held |
| `LockOrder.OperationsAwaitLower` | core/authcache/flight.go:31-126 | everything an operation awaits (a flight, a derivation, a publication, the last operation) ranks below the operation itself |
| `LockOrder.NoDeadlock` | core/authcache/derived.go:747-787 | no reachable state, with waits timing out and being given up, has a cycle of operations each waiting for a lock of the next or for the flight, publication or end of operation the next one brings about |
| `LockOrder.Progress` | core/authcache/derived.go:689-709 | while any operation is unfinished one of them can take its next step with no lock and no result of another unfinished operation missing, and without anyone giving up or timing out |
| `Flights.FlightBoard.BeginOperation` | core/authcache/flight.go:92-100 | nothing begins once closing or closed |
| `FlightsProgress.OperationsBeginExactlyWhen` | core/authcache/flight.go:92-100 | in every run an operation begins if and only if nobody has begun to drain or cancel the account |
| `Flights.FlightBoard.EndOperation` | core/authcache/flight.go:102-109 | the last operation to end wakes the drains, once |
| `Flights.FlightBoard.JoinFlight` | core/authcache/flight.go:31-58 | a registered flight is joined, otherwise one is registered if work may begin |
| `FlightsProgress.FlightsStartExactlyWhen` | core/authcache/flight.go:31-58 | in every run a caller joins the registered flight, and starts one if and only if there is none and the account is not ending |
| `Flights.FlightBoard.DeregisterFlight` | core/authcache/flight.go:84-86 | the key is free for the next flight |
| `Flights.FlightBoard.BeginDrain` | core/authcache/flight.go:113-126 | closing starts, and the drain waits exactly if something runs |
| `FlightsProgress.DrainsWaitExactlyWhen` | core/authcache/flight.go:113-126 | a drain waits if and only if something is running |
| `Flights.OneFlightPerKey` | core/authcache/flight.go:31-89 | at most one flight per key is registered, and it is the one the map names |
| `Flights.ClosedOnceWithResult` | core/authcache/flight.go:61-89 | a flight is closed at most once, with its result already set |
| `FlightsProgress.CallersGetTheirResult` | core/authcache/flight.go:61-89 | in every run what a flight's callers find is what its own derivation computed, or its own deadline's error |
| `FlightsProgress.FlightsEnd` | core/authcache/flight.go:61-89 | from every reachable state a flight ends in at most four steps, its callers released and its key free |
| `Flights.DrainsAreWoken` | core/authcache/flight.go:92-126 | the counter equals begun minus ended, and a waiting drain always has something to wait for |
| `Flights.DrainIsFinal` | core/authcache/derived.go:562-570 | after a drain returns nothing runs and nothing ever starts |
| `FlightsProgress.DrainsReturn` | core/authcache/flight.go:102-126 | from every reachable state every drain that has begun can return, once what is running has ended |
| `RetryPolicy.NormalizedIsUsable` | core/cinnabarapi/policy.go:42-60 | whatever a server advertises, the normalised limits are positive and cannot overflow |
| `RetryPolicy.NormalizedExactly` | core/cinnabarapi/policy.go:42-60 | each limit is the server's own if it makes sense and otherwise the default |
| `RetryPolicy.ReadTimeout` | core/cinnabarapi/client.go:466-470 | three ping intervals never overflow |
| `RetryPolicy.WaitsInNanoseconds` | core/cinnabarapi/client.go:466-470 | the read timeout and the reconnect cap in nanoseconds |
| `RetryPolicy.Backoff` | core/cinnabarapi/client.go:604-614 | the jittered backoff lies between half the ceiling and the ceiling, at most the cap, within 64 bits |
| `RetryPolicy.EveryBackoffIsDrawn` | core/cinnabarapi/client.go:604-614 | every delay in the upper half of the ceiling can be drawn |
| `RetryPolicy.CeilingExactly` | core/cinnabarapi/client.go:604-614 | the ceiling after any number of failures is a second doubled for each but the first, within the cap |
| `RetryPolicy.CeilingGrows` | core/cinnabarapi/client.go:604-614 | the ceiling doubles with each failure until it reaches the cap and stays there |
| `RetryPolicy.DeltaSecondsReadBack` | core/cinnabarapi/policy.go:90-101 | a printed number of seconds is read back, capped, with or without its prefix; from 2^64 on it is not read |
| `RetryPolicy.PaddedSecondsReadBack` | core/cinnabarapi/policy.go:90-95 | and with any white space around it |
| `RetryPolicy.DateReadBack` | core/cinnabarapi/policy.go:96-99 | a date ahead is waited for up to the bound, a past date or anything else not at all |
| `RetryPolicy.RetryDelay` | core/cinnabarapi/policy.go:103-122 | the final delay keeps the server's minimum and stays within max(cap, minimum) plus the spread |
| `RetryPolicy.RetryDelayExactly` | core/cinnabarapi/policy.go:103-122 | for every draw, the delay that results |
| `RetryPolicy.NextDelayBounds` | core/cinnabarapi/client.go:317-325 | the same for the whole computation, from advertised limits to the delay waited |
| `LookupBudget.WindowIsBounded` | core/cinnabarapi/policy.go:124-147 | over any window of calls with changing limits, the identifiers granted are at most the largest capacity plus the fastest refill times the elapsed time |
| `LookupBudget.CallConserves` | core/cinnabarapi/policy.go:131-147 | what a call grants and leaves is what it found |
| `LookupBudget.GrantedExactlyWhen` | core/cinnabarapi/policy.go:131-147 | in every run a call is granted if and only if what was left and the refill since, up to the capacity, cover it; a refusal costs nothing |
| `LookupBudget.FullBucketsGrant` | core/cinnabarapi/policy.go:131-147 | a lookup within the capacity is granted as soon as the refill covers what is missing, at the latest when an empty bucket would be full |
| `LookupBudget.NothingLeaks` | core/cinnabarapi/policy.go:131-147 | while the bucket has room, what a window refills was granted in it or is still there |
| `LookupBudget.Budget.TakeLocked` | core/cinnabarapi/policy.go:131-147 | the bucket after a call, and that it grants exactly when the refilled bucket covers the count |
| `LookupBudget.SendBatches` | core/cinnabarapi/client.go:211-223 | batches stay within the limit, concatenate to the request, and the answer concatenates theirs |
| `LookupBudget.AnswersAreJoined` | core/cinnabarapi/client.go:211-223 | each answer's matches stand behind those of the answers before it |
| `LookupBudget.Lookup` | core/cinnabarapi/client.go:190-224 | one charge for the whole lookup, each error case, and the batches sent |
| `LookupBudget.UuidsAreGroups` | core/cinnabarapi/messages.go:43-136 | an identifier is valid if and only if it is five groups of lower-case hexadecimal digits of the right lengths |
| `LookupBudget.RequestsAreValidExactlyWhen` | core/cinnabarapi/messages.go:139-154 | a request is valid if and only if it has one to 128 identifiers, each of them valid |
| `Replies.PendingTable.RegisterLocked` | core/cinnabarapi/client.go:237-247 | a lookup registers under the next identifier, unless the session is gone |
| `Replies.PendingTable.ClaimLocked` | core/cinnabarapi/client.go:557-569 | a reply claims and removes the channel under its identifier, if any |
| `Replies.PendingTable.EndSession` | core/cinnabarapi/client.go:381-389 | every channel still registered is sent to once per registration |
| `Replies.AtMostOneOwnReply` | core/cinnabarapi/client.go:237-280 | while no lookup starts under an identifier still in use, a lookup gets at most one reply, the one for its own identifier |
| `Replies.SendsNeverBlock` | core/cinnabarapi/client.go:557-569 | the reader and the teardown always find the one-reply channel empty |
| `Replies.TeardownReleasesEveryone` | core/cinnabarapi/client.go:381-389 | when a session has ended every lookup still waiting has a reply |
| `Replies.FewLookupsAreRuns` | core/cinnabarapi/client.go:243-246 | every session with at most 2^32 lookups is such a run: no lookup starts under an identifier still in use |
| `Replies.WrappedIdDisplaces` | core/cinnabarapi/client.go:243-246 | a registration takes over another lookup's channel if and only if the session lives and the identifier is pending |
| `Replies.StartStrandsExactlyWhenShared` | core/cinnabarapi/client.go:243-252 | starting a lookup strands one, at once or when an earlier one returns, if and only if one that has not returned has its identifier |
| `LiveSession.Client.Configure` | core/cinnabarapi/client.go:162-188 | the first configuration wakes the run loop, a new identity ends the session, anything else leaves a token |
| `LiveSession.ConfiguredExactly` | core/cinnabarapi/client.go:162-188 | what a configuration changes and what it leaves |
| `LiveSession.Client.EstablishLocked` | core/cinnabarapi/client.go:357-371 | a session opened under an older visibility starts with a token |
| `LiveSession.EstablishedExactly` | core/cinnabarapi/client.go:357-371 | what a session starts with |
| `LiveSession.WelcomedExactly` | core/cinnabarapi/client.go:443-446 | a welcome moves the revision counter up to what the server saw, never down and never past the bound |
| `LiveSession.Client.QueueLoadoutLocked` | core/cinnabarapi/loadouts.go:31-53 | what is queued, with which revision, and when nothing is |
| `LiveSession.QueuedExactlyWhen` | core/cinnabarapi/loadouts.go:31-53 | a selection is queued if and only if it is news to the session and the counter is not spent |
| `LiveSession.QueuedRevision` | core/cinnabarapi/loadouts.go:40-47 | a queued revision is the least above the counter that is not behind the clock, within the bound |
| `LiveSession.DroppedExactlyWhen` | core/cinnabarapi/loadouts.go:40-43 | a new selection is dropped if and only if the revision counter is spent |
| `LiveSession.NoLostUpdate` | core/cinnabarapi/client.go:503-545 | while a session is wanted, any difference between server and configuration, and any unwritten loadout, has a token or a writer on its way |
| `LiveSession.QuietSessionIsUpToDate` | core/cinnabarapi/client.go:503-545 | with no token left and an idle writer, the server holds the configured identity, visibility and newest loadout |
| `LiveSession.SessionCatchesUp` | core/cinnabarapi/client.go:503-545 | from every reachable state of a wanted session, at most twelve steps of the writer bring the server up to date |
| `LiveSession.ClientRecovers` | core/cinnabarapi/client.go:292-371 | from every reachable state of a configured client its run loop reaches a session that is up to date |
| `LiveSession.WritesReachTheServer` | core/cinnabarapi/client.go:521-545 | what the server knows after each write, and that a visibility makes it forget the loadout |
| `LiveSession.EveryAnnouncementIsNews` | core/cinnabarapi/client.go:521-530 | the server is never told the visibility it already holds |
| `LiveSession.RevisionsNeverRepeat` | core/cinnabarapi/loadouts.go:41-47 | queued revisions strictly increase over reconnects and welcomes, at most 2^53 - 1, and only queued ones are written |
| `LiveSession.SpentCounterQueuesNothing` | core/cinnabarapi/client.go:443-446 | from the bound on, no run queues a loadout again |
| `Emotes.Exchange.SyncPlayersLocked` | core/cinnabarapi/emotes.go:51-87 | the session after one exchange and exactly the emotes and loadouts it reports |
| `Emotes.QueuedExactlyWhen` | core/cinnabarapi/emotes.go:60-72 | a state is queued if and only if half a second has passed and it is news, its lists are due, or five seconds have passed |
| `Emotes.Exchange.CollectEmotes` | core/cinnabarapi/emotes.go:73-84 | the walk forgets exactly what ran out or is unwatched and reports the rest, aged |
| `Emotes.Exchange.CollectLoadouts` | core/cinnabarapi/loadouts.go:72-83 | the walk forgets exactly the unwatched loadouts and reports the others |
| `Emotes.Exchange.ReceiveEmoteLocked` | core/cinnabarapi/emotes.go:109-130 | which messages are kept, which stop playback and which are ignored |
| `Emotes.EmoteKeptExactlyWhen` | core/cinnabarapi/emotes.go:109-130 | for every player, what an emote message leaves remembered |
| `Emotes.Exchange.ReceiveLoadoutLocked` | core/cinnabarapi/loadouts.go:85-118 | the same for loadouts, with stale revisions ignored |
| `Emotes.LoadoutKeptExactlyWhen` | core/cinnabarapi/loadouts.go:85-118 | for every player, what a loadout message leaves remembered |
| `Emotes.Exchange.EmotePayloadLocked` | core/cinnabarapi/emotes.go:132-152 | when the snapshot carries the watch lists |
| `Emotes.ListsSentExactlyWhen` | core/cinnabarapi/emotes.go:132-152 | lists are sent if and only if none were or others were at least three seconds ago |
| `Emotes.ReportsAreLeases` | core/cinnabarapi/emotes.go:73-84 | every reported emote is watched, has time left, and splits the lease of a message heard for that player |
| `Emotes.ReportsFollowTheClock` | core/cinnabarapi/emotes.go:73-84 | in every run a report counts the whole milliseconds since its message arrived, and there is none once they use the lease up |
| `Emotes.ReportsAreComplete` | core/cinnabarapi/emotes.go:73-84 | everything remembered, watched and not run out is reported and remembered on |
| `Emotes.HeardIsReported` | core/cinnabarapi/emotes.go:73-130 | in every run what a watched player plays is reported by the next exchange that watches that player in time |
| `Emotes.MapsStayBounded` | core/cinnabarapi/emotes.go:123-127 | both maps stay within 128 players in every run |
| `Emotes.RevisionNeverFalls` | core/cinnabarapi/loadouts.go:105-107 | while a loadout is remembered its revision never falls |
| `Emotes.ListsAreSpaced` | core/cinnabarapi/emotes.go:142-149 | lists are queued at least 3 s apart, and written that far apart less the first one's delay |
| `Emotes.WatchesReachTheServer` | core/cinnabarapi/emotes.go:60-72 | once both spacings have passed, one exchange and one write bring the server's lists up to date |
| `Emotes.SpacingIsAttained` | core/cinnabarapi/emotes.go:142-149 | for every delay up to 3 s there is a run in which two lists are written closer by that delay |
| `Emotes.ListsCanBeWrittenClose` | core/cinnabarapi/emotes.go:142-149 | its instance: a run in which two lists are written a millisecond apart |
| `OrderedInput.Interactions.Drain` | app/src/ordered_interactions.rs:167-315 | the cursor and quarantine after a drain and exactly the edges it dispatches |
| `OrderedInput.Interactions.Admit` | app/src/ordered_interactions.rs:265-297 | the loop stops at the first edge that has to wait |
| `OrderedInput.DrainedExactly` | app/src/ordered_interactions.rs:188-305 | what one drain dispatches and leaves, in terms of the frame's fields and the first edge that has to wait |
| `OrderedInput.FrameDispatchesPrefix` | app/src/ordered_interactions.rs:196-305 | however many drains run in a frame, they dispatch a prefix of its edges, in order, each once |
| `OrderedInput.NothingAfterExpiry` | app/src/ordered_interactions.rs:298-305 | after the drain past movement, or a suspended one, the frame dispatches nothing more |
| `OrderedInput.DispatchNeedsAuthority` | app/src/ordered_interactions.rs:259-264 | edges leave only active, unreleased, unquarantined drains of their own frame |
| `OrderedInput.StopsOnlyAtBlocked` | app/src/ordered_interactions.rs:266-297 | a drain that may dispatch leaves an edge only if that edge is blocked |
| `OrderedInput.HeldFollowsDispatch` | app/src/ordered_interactions.rs:111-124 | until a frame expires, what reads as held is what its dispatched edges left held |
| `OrderedInput.HeldExactly` | app/src/ordered_interactions.rs:111-124 | what reads as held at the cursor, and that nothing does while input is lost |
| `OrderedInput.QuarantineEndsExactlyWhen` | crates/gameplay/src/ordered_interactions.rs:65-75 | quarantine ends exactly at a complete neutral sample or when ordered input goes away |
| `OrderedInput.QuarantineHolds` | app/src/ordered_interactions.rs:237-249 | from lost input to the next neutral sample nothing is dispatched |
| `OrderedInput.ReplaysExactlyWhen` | crates/gameplay/src/ordered_interactions.rs:56-63 | a second drain of one frame sends its first edge again if and only if the place changed and the drain may dispatch it |
| `FarTerrain.SummaryBudget.Take` | crates/far-terrain/src/budget.rs:35-44 | a column is charged or refused, with one oversized first column allowed |
| `FarTerrain.Sessions.Drain` | crates/chunk-pipeline/src/stream/far_summaries.rs:133-157 | the loop takes exactly what the budget admits from the front of an inbox |
| `FarTerrain.Sessions.TakeTurn` | app/src/far_terrain.rs:266-302 | what one session collects, writes and keeps in its turn |
| `FarTerrain.Sessions.DrainRetiringRound` | app/src/far_terrain.rs:256-304 | the index walk with removals visits every session once and computes the round |
| `FarTerrain.Sessions.DrainRetiringWith` | app/src/far_terrain.rs:230-254 | rounds run until time is up or nothing is in flight |
| `FarTerrainRuns.TurnConserves` | app/src/far_terrain.rs:266-302 | a turn moves summaries from inbox to columns to store without losing or reordering any |
| `FarTerrainTurns.DeliveredExactlyWhen` | crates/chunk-pipeline/src/stream/far_summaries.rs:133-157 | the summaries delivered are exactly the finished ones of the session's own dimension, each once and in order |
| `FarTerrainTurns.AdmittedExactly` | crates/far-terrain/src/budget.rs:20-44 | a budget admits columns up to the first that does not fit and is charged for exactly those |
| `FarTerrainTurns.TurnExactly` | app/src/far_terrain.rs:266-302 | what a session takes, delivers, writes and is charged in one turn, and exactly when it leaves |
| `FarTerrainRuns.RoundConserves` | app/src/far_terrain.rs:256-304 | a round conserves what each namespace has and is owed |
| `FarTerrainTurns.RoundJoins` | app/src/far_terrain.rs:256-304 | a round is its turns one after another, store and shared budget going from each to the next |
| `FarTerrainTurns.DrainExactly` | app/src/far_terrain.rs:230-254 | when a drain goes on for another round, and under which budget each round is |
| `FarTerrainTurns.ArrivesExactly` | app/src/far_terrain.rs:230-254 | a report goes to the back of its session's inbox and ends one piece of work in flight |
| `FarTerrainRuns.NothingLostOrMoved` | app/src/far_terrain.rs:186-304 | in every run, each session's written, collected and waiting summaries are exactly what it produced for its dimension, in order |
| `FarTerrainRuns.GoneMeansWritten` | app/src/far_terrain.rs:294-299 | once a session is gone, all it reported has been written |
| `FarTerrainRuns.BudgetBoundsBytes` | crates/far-terrain/src/budget.rs:20-44 | a budget admits no more columns than it has, and no more bytes unless the first is alone too large |
| `FarTerrainRuns.WaitingTurnsProgress` | app/src/far_terrain.rs:269-273 | while waiting, every session with something ready delivers some of it |
| `FarTerrainRuns.ExitLeavesNothing` | app/src/far_terrain.rs:306-320 | however the drain at exit ends, no session is left, and each namespace holds what it held, what was there and what reported meanwhile, in order |
| `BiomeBlend.AxisSums` | app/src/shader_pack_inputs.rs:359-369 | the weights along an axis are nonnegative and sum to 16 |
| `BiomeBlend.CellsWeigh4096` | app/src/shader_pack_inputs.rs:371-378 | the cells around any position weigh 4096 together |
| `BiomeSamples.SamplesCountByDistance` | app/src/shader_pack_inputs.rs:359-369 | every sampled block starts a quart and counts by the kernel at the distance of the quart's centre |
| `BiomeSamples.EveryQuartThatCounts` | app/src/shader_pack_inputs.rs:359-388 | every quart that counts is sampled, once |
| `BiomeSamples.CellsAreBlocks` | app/src/shader_pack_inputs.rs:371-392 | each of the 216 cells is a block with the product of its three weights and the world's biome there |
| `BiomeSamples.EveryBlockThatCounts` | app/src/shader_pack_inputs.rs:371-392 | every block that contributes is one of the cells |
| `BiomeBlend.GroupingConserves` | app/src/shader_pack_inputs.rs:393-396 | grouping names each biome once with the weight of its cells and loses none |
| `BiomeBlend.AddTo` | app/src/shader_pack_inputs.rs:393-396 | the search adds to the biome's total or appends a new one |
| `BiomeBlend.Gather` | app/src/shader_pack_inputs.rs:370-399 | the nested loops compute that grouping over all 216 cells |
| `BiomeBlend.KeepsOwnWeights` | app/src/shader_pack_inputs.rs:400-401 | what is kept are distinct biomes with their own weight, heaviest first |
| `BiomeBlend.DropsTheLightest` | app/src/shader_pack_inputs.rs:400-401 | a biome that is present and not kept weighs no more than any that is |
| `BiomeBlend.SlotsSumToOne` | app/src/shader_pack_inputs.rs:402-407 | the slots sum to exactly one, or are all zero when no cell is available |
| `BiomeBlend.SlotsAreShares` | app/src/shader_pack_inputs.rs:402-407 | a slot is its biome's share of what was kept; slots are distinct and in nonincreasing order |
| `BiomeBlend.SkyBiomes` | app/src/shader_pack_inputs.rs:350-408 | the whole computation, and all-zero slots for a position that is not finite |

## Left out

- EvictionProof.EvictedNeverReturns: assumes careful refusals, which `CarelessRefusals` shows necessary for a published eviction and for a queued removal; one OAuth binding, one client binding and one proof key, because the source promises no more; deleting only the derived file is outside it, and only an account that has held a token can evict it.
- SignInProtocol.RotationsFormOneChain: assumes that every save succeeds and every rotation can be refreshed again, because a failed save can fork the chain; `LinearExactlyWhen` has the exact condition without that assumption.
- Replies.TeardownReleasesEveryone: assumes, as the other runs of `Replies`, that no lookup starts under an identifier still in use, which `FewLookupsAreRuns` proves of the first 2^32 lookups of a session.
- LiveSession.NoLostUpdate: for sessions whose context is not cancelled, because a new identity replaces the session instead of leaving a token.
- Emotes.ListsAreSpaced: bounds the writes only less the first one's delay, because the source spaces queue times.
- OrderedInput.FrameDispatchesPrefix: for drains of one frame under one scope, because a scope change restarts the cursor.
- FarTerrainRuns.ExitLeavesNothing: for a budget that covers what is there and what reports meanwhile; the one the exit uses is the largest machine integer.
- Assumptions of the cache models: credentials, sign-in generations and discovered environments are fresh when created; a bundle's fingerprint stands for the bundle; a save replaces the file atomically; a token is identified by its text; SISU's tokens are one map with its own lock; identity comparisons compare values or serial numbers.
- HTTP, Xbox, PlayFab and websocket transport, cryptography, JSON and file permissions: a derivation is some fresh token or an error.
- Foreign writers of the cache files, such as older versions or a user's editor, beyond a first file without a generation.
- `LockOrder`: that requests to the services end; locks inside the device and service libraries and the lease of the device profile; an OAuth source without a cache file, which skips the source gate and the OAuth lease.
- `KeepFresh`'s loop over its retry delay, `deriveXSTS`'s three attempts and the diagnostics: each attempt is modelled, the count is not.
- Saturation of Go's clock and duration subtraction; the float bucket and the biome weights are reals.
- Emotes: identifiers are numbers, with a flag for their form on messages and player states; the equipped slots of a state are queued in `LiveSession`; ownership lists are not modelled.
- `LiveSession`: the session's own context and its reconnect context are one, cancelled by either.
- `OrderedInput`: what cancelled owners do, the maintenance barrier, geometry capture and the dispatched actions' own effects; what the world answers for an edge is an input of the drain.
- `FarTerrain`: source preparation, admission permits and the rule that decides which result is stale; a stale result is an event that delivers nothing. Near masks and publication of tiles.
- `DayClock::at`, `eye_brightness`, `fraction` and the field mappings of the app: they would only add easy members.
- `core/authflow`, `core/catalog`, `core/launcher`, `core/control`, scheduling, rendering, mod hosts, packaging and tools.
