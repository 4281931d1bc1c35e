# Secrets broker and forward daemons: verified model

The repository runs two daemons. `secretsd` is a broker that releases secrets to
processes after a hardware-token touch: requests queue, one decrypt runs at a
time, the plaintext becomes a grant scoped to a session or a terminal, and LOCK
revokes everything. `forward` serves browser grants, callback ports and bridge
ports for VMs, and revokes browser grants when the broker's authority (its
instance and lock epoch) moves.

This project models the state both keep and proves what they promise over every
run. Each component is a set of functions on values, and where the code is an
object that changes, also a class whose methods are proved to do what those
functions say. Code that holds a mutex across several actions, or releases it
between them, is a state machine whose steps are the actions between lock
operations, so that every interleaving is a run. Clocks, process and terminal
liveness, socket results, random draws and decrypt outcomes are step parameters.

| file | models |
|---|---|
| Base, Keyed, Runs, Text, Scopes | shared vocabulary: iterator idioms, lists read as maps, runs, text, scopes |
| Requests, RequestQueue, QueueAnswers | the approval queue, and what each of its operations answers |
| SecretGrants, SessionRegistry, Receipts, Hex | the broker's tables, and hex |
| Broker, BrokerQueue, BrokerSafety, BrokerRuns | worker, clients and control verbs over one state mutex |
| BrokerSessions, SessionWitness | what a session's end does to a decrypt or a caller of it |
| BrokerCauses, BrokerRequests | what makes each of the broker's tables and requests change |
| Authority, AuthorityRuns, AuthorityCauses | the subscriber hub and the forwards that follow it |
| BrowserGrants, BrowserGrantRuns, BrowserGrantCauses | the browser-grant registry and its three mutexes |
| Leases, LeaseRuns, LeaseCauses | callback port leases |
| Armed, ArmedCauses | bridge ports: leases and holders |
| RelayTokens, RecentOpens | the laptop's token mirror and its loop guard |
| Containment | the parent walk and anchors |
| Wire, WireVerbs, Utf8, SecretNames | frames, authority events, file names, decrypted assignments |

Check it with `dafny verify dfyconfig.toml`.

Besides what each state machine keeps (its `Runs` module), its `Causes` module says
exactly what makes each piece of its state change: a fact holds after a step if and
only if the step is one of those named, with the stored values and the times named.

In seven places the code gives slightly less than one would expect, and the
model follows the code. A decrypt asks at its finish only whether its token has
some live registration, so one whose session was unregistered and whose token
was registered again meanwhile installs its grant for the new registration. A
caller resolved before such a change may likewise collect after it what was
decrypted for the new registration. A forward that has subscribed and not yet
been attached can hold a past epoch's grants though no publication is owed.
`remaining_secs` still answers for an unswept grant at exactly its lifetime,
where `lookup` does not. An anchor twelve hops up does not contain the caller it
was derived for. A callback port can be served for two VMs if an IPv6 bind fails
for a reason other than "address in use" while an older listener still has that
address open. An `arm` call begun before a hold may write its lease after it.
Each has a concrete witness and the exact condition under which the guarantee
holds.

## Model

| member | source | states |
|---|---|---|
| `Requests.EnqueueKeepsInv` | crates/secrets/src/requests/queue.rs:47-99 | A new request joins the same ask's active one or is added only below its limit, so one active request per (scope, key), one active capability per scope, and the secret bound all survive |
| `Requests.ApplyKeepsInv` | crates/secrets/src/requests/queue.rs:47-171 | Every queue operation, with any arguments, keeps the queue invariant and lets requests move only forward: an ended request is never active again and never becomes Granted |
| `Requests.ReachableQueue` | crates/secrets/src/requests/queue.rs:47-117 | In every reachable queue a scope has at most max_pending_per_scope + 1 active requests, one per ask, one capability |
| `Requests.EndedStaysEnded` | crates/secrets/src/requests/expiry.rs:9-67 | Over any operations a request that ended stays ended, and an id that left never returns |
| `Requests.BoundIsTight` | crates/secrets/src/requests/queue.rs:47-99 | The per-scope bound is reached |
| `QueueAnswers.NextReadyIff` | crates/secrets/src/requests/queue.rs:102-117 | The next request is the least pending id, exactly when nothing is in flight and the last finish is a cooldown ago or more, in the future, or never |
| `QueueAnswers.EnqueueAnswers` | crates/secrets/src/requests/queue.rs:47-99 | An ask joins the one active request for the same secret, else is refused at its scope's limit (one, among capabilities), else is added pending |
| `QueueAnswers.RequestAfter` | crates/secrets/src/requests/queue.rs:120-171 | Which state and generation each operation leaves each request in, and that pruning forgets exactly those ended and not made within twice the lifetime |
| `QueueAnswers.FlightAfter` | crates/secrets/src/requests/expiry.rs:9-67 | What is in flight, and when the cooldown last started, after each operation |
| `QueueAnswers.CompleteGrantsIff` | crates/secrets/src/requests/queue.rs:120-155 | Over every run, completing grants exactly when the generation presented is the one the request's own decrypt started under and nothing has ended that decrypt since |
| `RequestQueue.FirstIsLeast` | crates/secrets/src/requests/queue.rs:102-117 | Scanning a list of increasing ids finds the oldest request that qualifies |
| `RequestQueue.Queue.Enqueue` | crates/secrets/src/requests/queue.rs:47-99 | The list-backed queue does exactly what the map model's enqueue does and keeps ids increasing along the list |
| `RequestQueue.Queue.NextReady` | crates/secrets/src/requests/queue.rs:102-117 | Nothing while one is in flight or cooling down, else the least pending id |
| `RequestQueue.Queue.MarkDecrypting` | crates/secrets/src/requests/queue.rs:120-139 | Starts only a pending request, with none in flight and the cooldown over, under a fresh generation |
| `RequestQueue.Queue.Complete` | crates/secrets/src/requests/queue.rs:142-155 | Grants exactly when the request still decrypts under that generation |
| `RequestQueue.Queue.Finish` | crates/secrets/src/requests/queue.rs:158-163 | Clears the flight of that id and starts the cooldown |
| `RequestQueue.Queue.Fail` | crates/secrets/src/requests/queue.rs:166-171 | Fails the request and finishes it |
| `RequestQueue.Queue.Timeout` | crates/secrets/src/requests/expiry.rs:9-25 | Ends an active request as timed out, invalidating its decrypt's generation and starting the cooldown; refuses an ended one |
| `RequestQueue.Queue.Deny` | crates/secrets/src/requests/expiry.rs:28-44 | Ends an active request as denied, with the same effects, and refuses an ended one |
| `RequestQueue.Queue.SweepTimeouts` | crates/secrets/src/requests/expiry.rs:47-67 | Ends exactly the overdue active requests and answers with their ids |
| `RequestQueue.Queue.StateOf` | crates/secrets/src/requests/expiry.rs:70-75 | Answers what the map holds for an id |
| `RequestQueue.Queue.Describe` | crates/secrets/src/requests/expiry.rs:78-89 | Answers the scope, key and ttl the map holds for an id |
| `RequestQueue.Queue.IsIdle` | crates/secrets/src/requests/expiry.rs:92-99 | True exactly when no request is pending or decrypting |
| `RequestQueue.Queue.Prune` | crates/secrets/src/requests/expiry.rs:102-112 | Forgets exactly the ended requests past retention |
| `SecretGrants.GrantTable.LookupGrant` | crates/secrets/src/grants/table.rs:34-54 | The scanned list answers as the map from (scope, key) to the live grant |
| `SecretGrants.GrantTable.Remaining` | crates/secrets/src/grants/table.rs:58-64 | Whole seconds left, absent past the lifetime |
| `SecretGrants.GrantTable.Insert` | crates/secrets/src/grants/table.rs:71-90 | Replaces the key's entry, so keys stay distinct |
| `SecretGrants.GrantTable.Revoke` | crates/secrets/src/grants/table.rs:93-96 | Removes exactly that key |
| `SecretGrants.GrantTable.RevokeScope` | crates/secrets/src/grants/table.rs:99-101 | Removes exactly that scope's grants |
| `SecretGrants.GrantTable.RevokeTokens` | crates/secrets/src/grants/table.rs:104-109 | Removes exactly the grants of those sessions |
| `SecretGrants.GrantTable.RevokeExpired` | crates/secrets/src/grants/table.rs:113-118 | Keeps exactly the live grants and counts the others |
| `SecretGrants.GrantTable.RevokeAll` | crates/secrets/src/grants/table.rs:121-123 | Empties the table |
| `SecretGrants.GrantTable.RevokeMissingTtys` | crates/secrets/src/grants/table.rs:126-131 | Removes exactly the grants of terminals that are gone |
| `SecretGrants.GrantTable.IsEmpty` | crates/secrets/src/grants/table.rs:134-136 | True exactly when the map is empty |
| `SecretGrants.SweepsAreUnobservable` | crates/secrets/src/grants/table.rs:34-118 | Lazy expiry refines eager expiry: sweeps at earlier-or-equal times anywhere in a run change no lookup |
| `SecretGrants.RemainingAgreesWithLookup` | crates/secrets/src/grants/table.rs:58-64 | remaining_secs agrees with lookup if and only if the grant is not exactly at its lifetime |
| `SecretGrants.RemainingSeesTheSweep` | crates/secrets/src/grants/table.rs:58-64 | At exactly its lifetime an unswept grant still reports remaining seconds while lookup refuses it |
| `SecretGrants.RemainingIs` | crates/secrets/src/grants/table.rs:58-64 | The seconds reported are exactly the whole seconds left |
| `SecretGrants.LookupAnswersIff` | crates/secrets/src/grants/table.rs:34-131 | Over every run a lookup answers a grant if and only if it was inserted for that scope and key, nothing since has replaced, revoked or swept it, and its lifetime is not over |
| `SessionRegistry.RunKeeps` | crates/secrets/src/grants/registry.rs:57-93 | Registrations stay one-to-one between tokens and sessions over every run |
| `SessionRegistry.RootIsPinned` | crates/secrets/src/grants/registry.rs:57-93 | A token's root and session never change while it stays registered |
| `SessionRegistry.AgentTtyIsForever` | crates/secrets/src/grants/registry.rs:101-146 | A terminal seen with a verified session never again yields a terminal scope |
| `SessionRegistry.ResolveIgnoresOrder` | crates/secrets/src/grants/registry.rs:96-146 | Resolution does not depend on list order |
| `SessionRegistry.ResolveAnswers` | crates/secrets/src/grants/registry.rs:106-146 | Exactly which callers get a session's scope, which a terminal's, and which error each other one gets |
| `SessionRegistry.AgentTtyIff` | crates/secrets/src/grants/registry.rs:101-146 | A terminal is known as an agent's if and only if it was, or a verified session has been resolved on it since |
| `SessionRegistry.RegisterAnswers` | crates/secrets/src/grants/registry.rs:57-81 | A registration is refused exactly for a token of another session, changes nothing for its own, and otherwise displaces exactly its session's others |
| `SessionRegistry.UnregisterAnswers` | crates/secrets/src/grants/registry.rs:84-93 | Unregistering takes exactly that session's registrations and answers their tokens |
| `SessionRegistry.Registry.RegisterSession` | crates/secrets/src/grants/registry.rs:57-81 | The list does what the map model's registration does, with its refusals and displaced tokens |
| `SessionRegistry.Registry.UnregisterSession` | crates/secrets/src/grants/registry.rs:84-93 | Removes the session and answers its tokens |
| `SessionRegistry.Registry.ResolveScope` | crates/secrets/src/grants/registry.rs:106-146 | The scope or error for a caller, learning agent terminals |
| `Hex.Encode` | crates/hygiene/src/hex.rs:17-26 | The digit loop prints the two lowercase digits of every byte |
| `Hex.DecodeExact` | crates/hygiene/src/hex.rs:39-51 | Reads exactly the strings of twice the expected length in hex digits of either case |
| `Hex.DecodeInvertsEncode` | crates/hygiene/src/hex.rs:17-51 | Decoding an encoding returns the bytes |
| `Hex.EncodeInvertsDecode` | crates/hygiene/src/hex.rs:17-51 | Encoding what was decoded returns the text in lowercase |
| `Receipts.OutstandingBounded` | crates/secrets/src/receipts.rs:51-81 | At most 32 receipts are outstanding in every run |
| `Receipts.EveryReceiptAccounted` | crates/secrets/src/receipts.rs:51-126 | An outstanding receipt has one mint behind it with no clear and no redemption since |
| `Receipts.RedemptionIsBacked` | crates/secrets/src/receipts.rs:84-126 | A redemption follows a mint of that id for that capability, within its lifetime, with no clear or redemption between |
| `Receipts.RedeemedAtMostMinted` | crates/secrets/src/receipts.rs:51-112 | No id is redeemed more often than minted |
| `Receipts.RedeemTakesOnlyItsOwn` | crates/secrets/src/receipts.rs:84-112 | A redeem is answered exactly when it names a live receipt of its own capability; any other, a wrong capability included, leaves every live receipt, and one that is answered takes only its own |
| `Receipts.MintAnswers` | crates/secrets/src/receipts.rs:51-81 | A mint is refused exactly at 32 live receipts or when every draw names one, else adds the first other draw, and loses no live receipt |
| `Receipts.MaskedMove` | crates/secrets/src/receipts.rs:84-112 | The branchless mask selects the candidate or the old position |
| `Receipts.ReceiptTable.MaskedScan` | crates/secrets/src/receipts.rs:84-112 | The full masked scan selects the entry a plain search finds, or reports none |
| `Receipts.ReceiptTable.MintReceipt` | crates/secrets/src/receipts.rs:51-81 | Sweeps, refuses at capacity, redraws until the id is unused, and adds it |
| `Receipts.ReceiptTable.RedeemReceipt` | crates/secrets/src/receipts.rs:84-112 | Consumes exactly the live receipt of that id and capability |
| `Receipts.ReceiptTable.SweepExpired` | crates/secrets/src/receipts.rs:115-118 | Keeps exactly the receipts within their lifetime |
| `Receipts.ReceiptTable.Clear` | crates/secrets/src/receipts.rs:124-126 | Empties the table |
| `Broker.EffectiveTtl` | crates/secrets/src/server/worker.rs:29-37 | A fresh grant's lifetime is at most the larger of max_grant and max_requested_grant (GrantStoredIff says which) |
| `BrokerSafety.InstallsIff` | crates/secrets/src/server/worker.rs:116-148 | A returned decrypt installs its grant if and only if its request still decrypts, no lock intervened, its terminal or root process is there, and its session, if it has one, is registered |
| `BrokerSafety.LockInv` | crates/secrets/src/server/dispatch/control.rs:78-101 | LOCK keeps the broker invariant in the new epoch, so no grant, receipt or in-flight decrypt of an earlier epoch can be used after it |
| `BrokerSafety.EnterInv` | crates/secrets/src/server/approval.rs:71-135 | Entering a request, with its lookup, revocation of a changed file's grant and enqueue, keeps the broker invariant |
| `BrokerSafety.MintInv` | crates/secrets/src/server/dispatch/capability.rs:45-79 | Minting after an authorization keeps every receipt paid for by its own touch in its own epoch |
| `BrokerCauses.ApprovedIff` | crates/secrets/src/server/approval.rs:71-150 | A client becomes approved exactly when its entry finds a live grant of its own with the file unchanged and it asks for no authorization, or when its poll finds its request granted |
| `BrokerCauses.ChangedFileIsNotServed` | crates/secrets/src/server/approval.rs:80-107 | After an entry that finds the file changed, or asks for an authorization, no live grant of its scope and key is stored and the client waits or was refused |
| `BrokerCauses.AnsweredWasApproved` | crates/secrets/src/server/approval.rs:71-248 | Every answered client goes back to such an entry, or to a poll of its own granted request, and was approved ever since |
| `BrokerCauses.GrantStoredIff` | crates/secrets/src/server/worker.rs:110-163 | A grant is stored exactly by the finish of a decrypt still wanted in its epoch for a scope still there, with its value and the lifetime asked within the right ceiling; it goes exactly by LOCK, expiry, its terminal's or session's end, or an entry that finds its file changed or authorizes |
| `BrokerCauses.ReleasedIff` | crates/secrets/src/server/approval.rs:206-222 | A value goes out exactly when an approved GET collects while its grant is live, and it is that grant's value |
| `BrokerCauses.MintedIff` | crates/secrets/src/server/dispatch/capability.rs:45-79 | A receipt is minted exactly when a touched authorization of this epoch finds fewer than 32 live receipts and an unused draw |
| `BrokerCauses.MayMintIff` | crates/secrets/src/server/dispatch/capability.rs:45-100 | A touched authorization may mint if and only if nobody has locked since it connected |
| `BrokerCauses.RedeemedIff` | crates/secrets/src/server/dispatch/capability.rs:102-141 | A receipt is redeemed exactly when it is presented, live, for its own capability, and then it is gone |
| `BrokerCauses.StandingIff` | crates/secrets/src/server/dispatch/capability.rs:102-141 | A capability grant comes exactly from a redeemed receipt and lasts max_grant from then; LOCK leaves no grant, receipt or capability grant |
| `BrokerCauses.ClientWasStarted` | crates/secrets/src/server/dispatch/capability.rs:82-100 | Every client asks for what it connected with, in the epoch it connected in |
| `BrokerCauses.ScopeGivenIff` | crates/secrets/src/server/approval.rs:47-65 | A caller gets a session's scope exactly with its token from inside its process tree, a terminal's exactly without a token on one not known as an agent's, and is else sent away |
| `BrokerCauses.TerminalKnownIff` | crates/secrets/src/grants/registry.rs:106-146 | A terminal becomes known as an agent's exactly when a verified session asks from it |
| `BrokerCauses.NeverStuck` | crates/secrets/src/server/worker.rs:43-163 | A control verb is always served, and the worker and every client always have a next section to run |
| `BrokerRequests.PickStartsTheOldest` | crates/secrets/src/server/worker.rs:52-92 | A pick starts the oldest pending request that is not overdue, exactly when the cooldown since the last end, a timeout just now included, is over |
| `BrokerRequests.RequestMovesIff` | crates/secrets/src/server/worker.rs:52-163 | Over runs a request times out, is denied, granted, failed or started by exactly the steps that should, and is forgotten exactly by a pick long enough after it ended |
| `BrokerRequests.OrphanGetsNothing` | crates/secrets/src/server/worker.rs:116-148 | A finish whose terminal, root process or session is gone stores nothing and grants no request |
| `BrokerRequests.EntryQueuesIff` | crates/secrets/src/server/approval.rs:108-135 | An entry not served leaves the client waiting, until its deadline, for the active request that asks the same or for a new one, or refuses it at the limit or for want of a file |
| `BrokerRequests.PollSendsAwayIff` | crates/secrets/src/server/approval.rs:136-180 | A waiting client is sent away exactly when its request is gone, ended ungranted, or still open past its deadline |
| `BrokerRequests.ProcessOnRecordIff` | crates/secrets/src/server/worker.rs:93-116 | The running decrypt process is on record exactly from its spawn, if its request still decrypts, until something stops or ends it |
| `BrokerRuns.StepKeepsInv` | crates/secrets/src/server/worker.rs:43-163 | Every critical section of worker, clients and control verbs keeps the broker invariant |
| `BrokerRuns.EveryReleaseHasProvenance` | crates/secrets/src/server/approval.rs:71-248 | In every run, all bytes GET returned came from a decrypt for exactly that scope and key in the epoch of the release, from a grant younger than its effective lifetime; capability keys are never released |
| `BrokerRuns.ReleaseIsCurrent` | crates/secrets/src/server/approval.rs:185-248 | What a GET releases is its own client's key under its own scope, from a decrypt of the lock epoch in force at that moment |
| `BrokerRuns.OneTouchOneDecrypt` | crates/secrets/src/server/worker.rs:52-163 | At most one request decrypts, it is the in-flight one and the worker's, no request is decrypted twice, and each decrypt, the one under way included, starts a cooldown after every earlier one really ended, more than 15 s under the validated cached policy |
| `BrokerRuns.StaleDecryptInstallsNothing` | crates/secrets/src/server/worker.rs:116-156 | A decrypt overtaken at any moment by deny, timeout, sweep or lock leaves the grant table unchanged when it finishes |
| `BrokerSessions.LostSessionInstallsNothing` | crates/secrets/src/server/worker.rs:118-136 | A decrypt whose session was unregistered or displaced at any state before its finish installs nothing unless the token is registered again before the finish |
| `BrokerSessions.JobWasResolved` | crates/secrets/src/server/approval.rs:47-69 | Every decrypt under way goes back to the enqueue of its request and to the resolve of a caller inside the tree of the registration its token then had |
| `BrokerSessions.SameRegistrationIff` | crates/secrets/src/grants/registry.rs:57-93 | A token has the same registration at two states if and only if no unregister and no displacing register of it lies between |
| `BrokerSessions.InstalledUnderTheSameRegistrationIff` | crates/secrets/src/server/worker.rs:118-148 | The registration that receives a session's grant is the one its caller was resolved under if and only if no unregister or displacing register of the token fell between resolve and finish |
| `BrokerSessions.GrantKeepsItsRegistration` | crates/secrets/src/server/dispatch/control.rs:9-54 | A stored session grant has one registration for as long as it stays: ending that revokes it |
| `BrokerSessions.ReleasedUnderTheSameRegistrationIff` | crates/secrets/src/server/approval.rs:47-95 | A GET's value goes to a caller resolved under the registration its grant has if and only if no unregister or displacing register of the token fell between resolve and collection |
| `SessionWitness.CollectedFromTheNextSession` | crates/secrets/src/server/approval.rs:71-95 | A run from the start in which a caller resolved for one process collects, after its session was unregistered and the token registered by another, the value decrypted for that other |
| `SessionWitness.GrantOutlivesItsSession` | crates/secrets/src/server/worker.rs:118-148 | A run from the start in which a session is unregistered and its token registered by another process during the decrypt, and the grant is installed for the new registration |
| `BrokerRuns.EndedRequestStaysEnded` | crates/secrets/src/requests/queue.rs:120-171 | Over whole broker runs an ended request is never active and never newly Granted |
| `BrokerRuns.EveryReceiptWasPaidFor` | crates/secrets/src/server/dispatch/capability.rs:45-118 | Each receipt has its own successful touch in its own epoch, and per id, capability and epoch the redeemed and outstanding receipts never exceed the minted, so each redemption has a mint of its own |
| `BrokerRuns.GrantsAreCurrent` | crates/secrets/src/server/dispatch/control.rs:9-54 | Every stored grant belongs to the current epoch and a registered session |
| `AuthorityRuns.StepKeepsInv` | crates/secrets/src/server/subscribers.rs:22-85 | Every interleaved action of attach, publish, LOCK, restart and the forwards keeps the hub and forward invariants |
| `AuthorityRuns.EventsNeverGoBack` | crates/secrets/src/server/subscribers.rs:22-85 | The authorities sent on any one stream never go back |
| `AuthorityRuns.NoMissedLock` | crates/secrets/src/server/subscribers.rs:22-85 | With the mutex free and no publication owed, every subscriber in the table was last sent the current authority; at most eight, one per peer |
| `AuthorityRuns.DrainedForward` | crates/forward/src/browser/subscription.rs:164-215 | With the mutex free and no publication owed, a forward that has read all of its stream observes the current authority and holds only its grants, or its stream is closed, or nothing has yet been sent on it |
| `AuthorityRuns.UnsentForwardIsCurrentIff` | crates/forward/src/browser/subscription.rs:164-215 | A forward on whose stream nothing has been read observes the current authority if and only if no LOCK or restart fell since its HELLO |
| `AuthorityRuns.UnattachedForwardLags` | crates/forward/src/browser/subscription.rs:164-215 | A run in which a forward whose stream is not yet attached holds a past epoch's grant though nothing is owed |
| `AuthorityRuns.ClosedIsFinal` | crates/secrets/src/server/subscribers.rs:40-85 | A stream dropped from the table is closed and is never written again |
| `AuthorityRuns.DroppedForwardLetsGo` | crates/forward/src/browser/subscription.rs:91-215 | A forward that has read a closed stream to its end is still there, has failed, or has since held no authority and no grants |
| `AuthorityRuns.BrokenForwardHoldsNothing` | crates/forward/src/browser/subscription.rs:91-156 | After handling a lost subscription, or in an outage, a forward has no authority and no grants |
| `AuthorityRuns.GraceIsBounded` | crates/forward/src/browser/subscription.rs:46-156 | Grants survive a handled failure only in an unbroken streak of connect failures begun less than 30 s before |
| `AuthorityRuns.GrantsMatchObserved` | crates/forward/src/browser/grant.rs:83-112 | A forward's grants were all inserted under the authority it observes |
| `AuthorityCauses.GrantLeavesIff` | crates/forward/src/browser/grant.rs:96-112 | A grant leaves a forward if and only if it is ended, the forward gives its authority up, or it observes an authority other than the one observed before |
| `AuthorityCauses.ReobservingKeepsGrants` | crates/forward/src/browser/grant.rs:96-105 | Observing the same authority again changes no grant |
| `AuthorityCauses.GrantEntersIff` | crates/forward/src/browser/grant.rs:83-94 | A grant enters a forward if and only if it is inserted under the authority then observed |
| `AuthorityCauses.ObservedAfter` | crates/forward/src/browser/subscription.rs:46-156 | What a forward observes after each step, and since when it has been cut off: it gives up on a lost or refused subscription, or 30 seconds into an outage |
| `AuthorityCauses.OutageNotedIff` | crates/forward/src/browser/subscription.rs:46-156 | An outage is noted exactly while a forward that cannot connect has given its authority up for it |
| `AuthorityCauses.StreamChangesIff` | crates/secrets/src/server/subscribers.rs:22-85 | A stream is sent a line exactly as the next entry of a publication or the peer attached, and shut exactly when that fails, its peer died or came back, eight others leave no room, or the broker goes |
| `AuthorityCauses.LineWasRead` | crates/secrets/src/server/subscribers.rs:22-85 | Every line written was the broker's authority when it was read, under the mutex held since |
| `AuthorityCauses.TableChangesIff` | crates/secrets/src/server/subscribers.rs:22-85 | A peer is in the table exactly from its delivered attachment until its line fails, it dies or it comes back |
| `AuthorityCauses.OwedAfter` | crates/secrets/src/server/subscribers.rs:22-85 | A LOCK is owed a publication exactly until one made for it reads the authority |
| `AuthorityCauses.NeverStuck` | crates/secrets/src/server/subscribers.rs:22-85 | The hub always finishes what it holds its mutex for, and every forward always goes on |
| `BrowserGrantRuns.StepKeepsInv` | crates/forward/src/browser/grant.rs:71-139 | Every action of insert, observe, invalidate, expire, live, register_pipe and guard drop, interleaved at their locks, keeps the registry invariant |
| `BrowserGrantRuns.LiveGrantsMatchAuthority` | crates/forward/src/browser/grant.rs:83-112 | With the authority lock free every live grant was inserted under the observed authority, and none when it is unset |
| `BrowserGrantRuns.PipesServeLiveGrants` | crates/forward/src/browser/grant/pipes.rs:29-62 | With the pipes lock free every row of the pipe table belongs to a live grant |
| `BrowserGrantRuns.EndedGrantSeversItsPipes` | crates/forward/src/browser/grant/lifetime.rs:22-75 | Every pipe of an ended grant has finished, been shut down, or is being shut down |
| `BrowserGrantRuns.QuietRegistryIsClean` | crates/forward/src/browser/grant/lifetime.rs:22-81 | With no call under way, an ended grant has no open pipe and its control channel is closed |
| `BrowserGrantRuns.NeverDeadlocks` | crates/forward/src/browser/grant/lifetime.rs:22-37 | While any call is under way some thread can act |
| `BrowserGrantCauses.AuthorityAfter` | crates/forward/src/browser/grant.rs:96-112 | What is observed is what the last observation or invalidation named |
| `BrowserGrantCauses.GrantStoredIff` | crates/forward/src/browser/grant.rs:71-94 | A grant is stored exactly by a checked insertion, as asked, until a revocation or its own end takes it |
| `BrowserGrantCauses.InsertCheckedIff` | crates/forward/src/browser/grant.rs:83-94 | An insertion proceeds if and only if the authority it names is the one observed and a control channel is kept |
| `BrowserGrantCauses.EndingIff` | crates/forward/src/browser/grant.rs:96-139 | A thread sets out to end a grant exactly when it observes another authority or none, is told to, or finds the deadline reached, and goes on until it has taken it |
| `BrowserGrantCauses.TakenWasDue` | crates/forward/src/browser/grant/lifetime.rs:22-75 | Every grant taken was due at an earlier step of its taker |
| `BrowserGrantCauses.OnlyEndedAreShut` | crates/forward/src/browser/grant/lifetime.rs:22-75 | Only an ended grant's pipes are shut and control channels closed |
| `BrowserGrantCauses.PipeListedIff` | crates/forward/src/browser/grant/pipes.rs:29-62 | A pipe is listed under its grant exactly from a registration that found the grant live until either ends |
| `LeaseRuns.StepKeepsInv` | crates/forward/src/callback.rs:97-165 | Every action of serve_on, accept loops and reaper keeps the lease invariant, given exclusive binds |
| `LeaseRuns.RowCountsListeners` | crates/forward/src/callback/lease.rs:63-103 | A lease's count equals its serve's unreleased listeners and is never zero, so the decrement never underflows |
| `LeaseRuns.RowOutlivesListeners` | crates/forward/src/callback/lease.rs:63-103 | A lease is removed or replaced only once all its listeners have been dropped |
| `LeaseRuns.RowIsItsOwners` | crates/forward/src/callback/lease.rs:45-61 | A lease keeps its owner, never ends sooner, and is renewed only by its owner's calls |
| `LeaseRuns.AcceptingServesTheOwner` | crates/forward/src/callback/listener.rs:19-89 | Every accepting listener relays to the owner in its port's current lease |
| `LeaseRuns.OneVmPerPort` | crates/forward/src/callback.rs:97-165 | Two listeners accepting on one port belong to one serve and one VM |
| `LeaseRuns.GoingOnWithoutV6SafeIff` | crates/forward/src/callback.rs:126-150 | Serving on IPv4 alone keeps the guarantee if and only if no listener has the port's IPv6 side open |
| `LeaseRuns.TwoVmsOnOnePort` | crates/forward/src/callback.rs:126-150 | A run in which an IPv6 bind fails for want of resources and two VMs' listeners accept on one port |
| `LeaseCauses.FlagRaisedIff` | crates/forward/src/callback/lease.rs:63-112 | A stop flag is raised exactly by a reap at or past the stored deadline, a failed accept of its own, its replacement, or its last release |
| `LeaseCauses.ExpiredCanExit` | crates/forward/src/callback/lease.rs:105-112 | From a reap at or past a lease's deadline on, each of its accept loops can exit |
| `LeaseCauses.LiveLeaseGoesOn` | crates/forward/src/callback/lease.rs:105-112 | With none of those, a flag stays down |
| `LeaseCauses.RowChangesIff` | crates/forward/src/callback/lease.rs:45-103 | A lease is written exactly by its serve's insertion for as long as asked, extended exactly by its own VM's calls while live, and goes with its last listener |
| `LeaseCauses.RefreshAnswers` | crates/forward/src/callback/lease.rs:45-61 | A call finds no lease of its port, one being released, or a live one, and goes on accordingly, changed in nothing else |
| `LeaseCauses.CallMovesIff` | crates/forward/src/callback.rs:97-165 | A call waits for a lease being released, gives way to a live one, or binds, inserts and spawns, exactly as it should |
| `LeaseCauses.AcceptingWasSpawned` | crates/forward/src/callback/listener.rs:19-89 | A loop that accepts was spawned by its serve and only its own exit ends it |
| `LeaseCauses.NeverStuck` | crates/forward/src/callback.rs:97-165 | A call goes on whatever the kernel answers, except while the lease it waits for is there |
| `Armed.SweepsAreUnobservable` | crates/forward/src/bridge/armed.rs:91-107 | Expiry sweeps at earlier-or-equal times anywhere in a run change no is_armed answer |
| `Armed.ArmedUntil` | crates/forward/src/bridge/armed.rs:86-97 | Arming reaches exactly as far as asked, shortens nothing and touches no other port |
| `Armed.StepKeepsInv` | crates/forward/src/bridge/armed.rs:68-174 | Every action of arm, hold, connect and release, interleaved at the holders lock, keeps the route and policy invariants |
| `Armed.OneRoutePerPort` | crates/forward/src/bridge/armed.rs:68-135 | With the holders lock free no port is both held and lease-armed |
| `Armed.OnlySafePorts` | crates/forward/src/bridge/port_policy.rs:4-35 | No armed or held port is privileged, a forward service, or a listed development port |
| `Armed.DeadlinesOnlyGrow` | crates/forward/src/bridge/armed.rs:86-97 | A lease's deadline never decreases while it stays |
| `Armed.HeldPortNeedsANewLease` | crates/forward/src/bridge/armed.rs:68-135 | A port once held is armed later only by a lease written later, when no one held it, for a call begun later or under way at the hold |
| `Armed.OnlyNewLeasesIff` | crates/forward/src/bridge/armed.rs:68-98 | From any state with the mutex free, however the run goes on, every lease written for a port was asked for after that state if and only if no thread is then inside an arm call for it |
| `Armed.CallSpansAHold` | crates/forward/src/bridge/armed.rs:68-135 | A run in which a lease asked for before a hold is written after it |
| `ArmedCauses.LeasedIff` | crates/forward/src/bridge/armed.rs:86-135 | A port is leased exactly from a commit, to the later deadline, until a hold replaces the lease or a connection finds it expired |
| `ArmedCauses.HeldIff` | crates/forward/src/bridge/armed.rs:112-174 | A port is held exactly from an acknowledged hold of a free port until a call that found that very holder gone |
| `ArmedCauses.ArmCallEndsIff` | crates/forward/src/bridge/armed.rs:68-98 | An arm call ends exactly when it writes its lease or finds the holder alive |
| `ArmedCauses.ArmLocksIff` | crates/forward/src/bridge/armed.rs:86-98 | It may write exactly once it finds the port held by no one under the mutex |
| `ArmedCauses.HoldCallEndsIff` | crates/forward/src/bridge/armed.rs:112-138 | A hold call ends exactly when it holds the port, its own peer is gone, or the holder is alive |
| `ArmedCauses.ArmPeeksAtTheHolder` | crates/forward/src/bridge/armed.rs:75-85 | An arm call peeks at whoever holds the port and releases only a holder found gone |
| `ArmedCauses.HoldPeeksAtTheHolder` | crates/forward/src/bridge/armed.rs:116-138 | So does a hold call |
| `ArmedCauses.BeginsIff` | crates/forward/src/bridge/port_policy.rs:4-35 | A call goes ahead exactly for a callback port that is no service's and none of the nine denied |
| `ArmedCauses.ConnectionRoutedIff` | crates/forward/src/bridge/armed.rs:142-163 | A connection is dialled through the port's holder exactly when there is one, else it asks for a lease |
| `ArmedCauses.DialReleasesIff` | crates/forward/src/bridge/armed.rs:142-163 | A dialled connection releases its holder exactly when that is gone |
| `ArmedCauses.NeverStuck` | crates/forward/src/bridge/armed.rs:68-174 | A call can act unless it wants the mutex another holds, which then can |
| `RelayTokens.MirrorDeadline` | crates/forward/src/browser/feed.rs:98-105 | A delivery lasts exactly the smaller of its ttl and five minutes |
| `RelayTokens.EvictsOnlyWhenFull` | crates/forward/src/browser/feed.rs:113-123 | A live entry is evicted if and only if sixty-four others are live and it is the oldest |
| `RelayTokens.EntriesAreLatest` | crates/forward/src/browser/feed.rs:98-135 | In every run tokens are distinct, at most 64, each with its latest delivery's deadline |
| `RelayTokens.AcceptedWasDelivered` | crates/forward/src/browser/feed.rs:98-131 | An accepted token was delivered less than its ttl and five minutes ago |
| `RelayTokens.EvictsIffCrowded` | crates/forward/src/browser/feed.rs:113-123 | A delivery evicts a live entry if and only if 63 other tokens were delivered since it and no sweep or delivery found them expired |
| `RelayTokens.AcceptsIff` | crates/forward/src/browser/feed.rs:98-131 | Whatever times the operations read before the lock, a token is accepted if and only if its latest delivery is live, no operation since found it expired, and no delivery since found 63 younger others |
| `RelayTokens.SnapshotLive` | crates/forward/src/browser/grant.rs:143-161 | The snapshot lists exactly the unexpired grants with their whole seconds left, at least one |
| `RelayTokens.AnnouncedIs` | crates/forward/src/browser/grant.rs:143-161 | The seconds announced are exactly the whole seconds left, and one for less |
| `RelayTokens.MirrorOutlivesByDelay` | crates/forward/src/browser/push.rs:236-242 | The mirror outlives the grant by at most the delivery delay plus one second |
| `RelayTokens.AcceptedGrantIsRecent` | crates/forward/src/browser/push.rs:236-242 | A token accepted after delivery from a snapshot belonged to a grant that ended at most that delay and a second ago |
| `RelayTokens.Mirror.Insert` | crates/forward/src/browser/feed.rs:98-123 | The list does one delivery, and the token is accepted at once unless its ttl is zero |
| `RelayTokens.Mirror.AcceptsAt` | crates/forward/src/browser/feed.rs:125-131 | The full scan answers whether a live entry has the token, and drops expired ones |
| `RelayTokens.Mirror.ReapExpired` | crates/forward/src/browser/feed.rs:137-142 | Keeps exactly the live entries |
| `RelayTokens.Mirror.NextDeadline` | crates/forward/src/browser/feed.rs:144-151 | The earliest deadline, if any |
| `RecentOpens.EntriesAreTail` | crates/forward/src/ratelimit.rs:34-55 | On a monotone clock the entries are exactly the recent ones of the last 64 permitted opens |
| `RecentOpens.DropsIff` | crates/forward/src/ratelimit.rs:34-55 | An open is dropped if and only if three tracked opens have its URL and its origin; other origins never count |
| `RecentOpens.DroppedIff` | crates/forward/src/ratelimit.rs:34-55 | A call is dropped if and only if three opens permitted less than two seconds before, and among the last 64, had its URL and its origin |
| `RecentOpens.AtMostThreePerWindow` | crates/forward/src/ratelimit.rs:34-55 | Any opens permitted within two seconds, at most 65 of them, include no (url, origin) more than three times |
| `RecentOpens.Recent.Record` | crates/forward/src/ratelimit.rs:34-55 | The deque does one step of the modelled guard |
| `RecentOpens.Recent.Count` | crates/forward/src/ratelimit.rs:37-42 | Counts the entries of that URL and origin |
| `Containment.CappedIff` | crates/containment/src/lib.rs:42-62 | The capped walk is true exactly when a match is reached within that many visits |
| `Containment.CycleNeverMatches` | crates/containment/src/lib.rs:42-62 | A walk that meets a process again never matches, at any cap |
| `Containment.Walk` | crates/containment/src/lib.rs:42-62 | The loop with its visited list answers what the cap alone answers |
| `Containment.ContainsWith` | crates/containment/src/anchored.rs:60-79 | Containment is the walk under the anchored visit rule |
| `Containment.ContainsIff` | crates/containment/src/anchored.rs:60-79 | An anchor contains exactly the processes that have it, still started when it was, among themselves and their eleven nearest ancestors |
| `Containment.AnchorFor` | crates/containment/src/anchored.rs:102-132 | The anchor is the nearest verified session within twelve, else the immediate parent; none exactly for an orphan |
| `Containment.AnchorContainsParent` | crates/containment/src/anchored.rs:60-132 | A derived anchor contains the caller's parent |
| `Containment.AnchorContainsCallerIff` | crates/containment/src/anchored.rs:60-132 | It contains the caller if and only if it is at most eleven hops up or is the caller |
| `Containment.TwelfthHopIsMissed` | crates/containment/src/anchored.rs:60-132 | A process table in which an anchor twelve hops up does not contain its caller |
| `Wire.ParseRequest` | crates/secrets/src/proto/request.rs:152-235 | The field loop and the operation match compute the modelled parse |
| `Wire.FieldsRoundTrip` | crates/secrets/src/proto/request.rs:152-170 | Any distinctly named tab-free fields are read back as printed |
| `Utf8.Utf8Iff` | crates/secrets/src/proto/request.rs:152-160 | The text test accepts exactly the encodings of sequences of Unicode scalar values |
| `WireVerbs.AssembleIff` | crates/secrets/src/proto/request.rs:171-235 | Each of the eleven verbs is read exactly when its fields say it; any other verb is unknown and anything else bad |
| `WireVerbs.RequestRoundTrip` | crates/secrets/src/proto/request.rs:152-235 | Every request, printed with tab-free values, is read back as it was |
| `WireVerbs.ParsedIff` | crates/secrets/src/proto/request.rs:152-235 | A line is read as a request if and only if it is non-empty, at most 4096 bytes of UTF-8, and the verb with tab-free, distinctly named fields that say it |
| `Wire.BuildScopedFrame` | crates/secrets/src/client/human.rs:99-119 | The appended buffer is the printed frame |
| `Wire.ScopedRoundTripIff` | crates/secrets/src/client/human.rs:99-119 | parse_request recovers every field of a scoped frame if and only if it fits 4096 bytes, token and tty hold no tab, and the ttl is not zero |
| `Wire.ReadFrame` | crates/secrets/src/server.rs:212-240 | However the socket chops the bytes up, the frame is what precedes the first line break, with it, within 4097 bytes |
| `Wire.SentIsReceivedIff` | crates/secrets/src/server.rs:256-267 | Through printer, reader and parser every field arrives if and only if the frame fits, token and tty hold neither tab nor line break, and the ttl is not zero |
| `Wire.EventRoundTrip` | crates/proto/src/lib.rs:25-67 | An authority event is read back exactly when its instance is non-empty visible text, and refused otherwise |
| `Wire.EventFitsIff` | crates/forward/src/browser/subscription.rs:11 | With a 32-character instance an event fits 64 bytes if and only if its epoch is below 10^15 |
| `Wire.ReaderRecoversIff` | crates/forward/src/browser/subscription.rs:174-208 | The 64-byte reader recovers such an event if and only if its epoch is below 10^15, and refuses it otherwise |
| `SecretNames.NamesRoundTrip` | crates/secrets/src/secret.rs:44-88 | A key's committed and local file names are classified back to it |
| `SecretNames.FilesRoundTrip` | crates/secrets/src/secret.rs:71-88 | A file classified as a key is that key's own file name |
| `SecretNames.ClassifiedIff` | crates/secrets/src/secret.rs:71-88 | A file is a key's if and only if it has that key's name for it, and is passed over if and only if it is no .env |
| `SecretNames.ParseSingleAssignment` | crates/secrets/src/secret.rs:125-153 | The line loop accepts exactly one significant line, an assignment of the expected name without NUL |
| `SecretNames.AssignsIff` | crates/secrets/src/secret.rs:125-153 | A decrypted file assigns a value if and only if one line alone is neither empty nor a comment, and it is the name, an equals sign and the value without NUL |
| `SecretNames.PrepareAssignment` | crates/secrets/src/client/edit/new.rs:108-133 | The writer drops one trailing line break, refuses what it must, appends the assignment and reads it back |
| `SecretNames.PipedRoundTripIff` | crates/secrets/src/client/edit/new.rs:108-133 | A piped value is written if and only if it is non-empty without line break, carriage return or NUL, and then reads back |
| `SecretNames.AssignmentRoundTripIff` | crates/secrets/src/secret.rs:125-153 | A written value is read back if and only if it holds no line break or NUL and does not end in a carriage return |

## Left out

- Receipts.MaskedMove: the mask is eight bits wide instead of the machine word; positions in a full table (at most 32) fit it.
- AuthorityRuns.NoMissedLock: a broker instance stands for the instance name together with its socket's identity, and lock epochs are unbounded where the source saturates a 64-bit counter.
- LeaseRuns.StepKeepsInv: assumes the kernel refuses a second bind of an open address, and that an IPv6 bind fails with another error only when none of our listeners has that address open.
- Text is one character per byte, and the client's own strings are taken to be UTF-8, as their type says.
- Request generations, request ids, lock epochs and registry ids are unbounded; the source's 64-bit saturation and wrap-around are not modelled.
- The hub, the browser-grant registry, the callback leases and the bridge ports are state machines over values, not classes: their methods interleave, so in-place update and aliasing are captured by the steps.
- The `failures` list that carries decrypt error codes to waiters, and the wording of errors and log lines.
- The session label and the parsing of process arguments: a process carries the session its arguments name.
- Separate feed state per VM address, the feed's timer thread, and the push loop's attach and renew timing.
- `parse_ttl` and the HELLO handshake beyond the identity it returns.
- Sockets, descriptor passing, process spawning, `/proc` and timer calls, other than as step outcomes.
- Zeroization, constant-time comparison, memory locking and core-dump hardening.
- Connection lanes, accept permits and channel capacities.
- The preview server, URL policy, opener, notifications, `doctor`, configuration loading, command line and secret editing.
- The TypeScript plugins.
