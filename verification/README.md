# Fabric simulator: a verified model

The repository simulates a permissioned blockchain with anonymous credentials. `simulator/` runs users,
peers and a revocation authority as goroutines over channels and weighted semaphores, with a simulated
network underneath; `distributed/` is the same protocol over remote calls; `revocation/` has a load
generator for the revocation service; `tools/network-analyzer` charts the network log. This project states
what those programs promise and proves it for any number of users, peers, endorsements and transactions,
every interleaving and every input.

`dafny verify dfyconfig.toml` checks everything.

## How the model is built

**The transaction protocol** (`Protocol.dfy`) is a transition system. A process is the main goroutine, one
submitTransaction call, a peer's select loop, the authority's loop, or one endorse, order, validate or grant
goroutine; a step takes one process from one synchronisation point to its next, and a rendezvous moves both
ends. A done channel is the log of what was sent with the number received, and has its real capacity: a
send needs room. Whether an identity check hits the peer's cache is left open. A run is any sequence of
enabled steps. The proof that a run conserves what it owes is one lemma about weights (`Accounts.dfy`,
`Conservation.dfy`), used for event counts, for permits and for the number of steps. `Routing.dfy` says where
transactions go and in which order things are listed. `Traffic.dfy` gives every transfer of a step its two ends,
`Deliveries.dfy` counts them from sender to receiver, and `Duration.dfy` sends the traffic of a whole simulation over
the network of `Bandwidth.dfy`; `NetworkLog.dfy` reads the times in its log. `Caching.dfy` adds the caches to the protocol: a check is a scan and, after a miss, a load and a
store of the list as separate steps, which makes a hit or a miss a consequence; `Crowds.dfy` and `LostAppends.dfy`
say when that makes a difference.

| in the model | in the source |
|---|---|
| `Protocol.MainStep` | `simulator/simulator.go:38-91`, `simulator/network.go:227-234` |
| `Protocol.UserStep` | `simulator/user.go:23-126`, `simulator/proposal.go:21-65`, `simulator/network.go:236-247` |
| `Protocol.LoopStep` | `simulator/peer.go:69-96` |
| `Protocol.EndorserStep`, `OrdererStep`, `ValidatorStep` | `simulator/peer.go:98-188` |
| `Protocol.AuthorityStep`, `GranterStep`, `Tick` | `simulator/revocation.go:47-85` |
| `Bandwidth.Next` | `simulator/bandwidth.go:27-95` |
| `Traffic.StepTraffic` | `simulator/peer.go:72-86`, `simulator/peer.go:185`, `simulator/revocation.go:51`, `simulator/revocation.go:80` |
| `DistributedHandle.MoveUser`, `Next` | `distributed/user.go:138-198`, `distributed/revocation.go:32-79` |
| `DistributedLedger.Next` | `distributed/peer.go:54-75`, `distributed/peer.go:129-131`, `distributed/peer.go:157-175` |
| `DistributedRevocation.Act` | `distributed/peer.go:78-138` |
| `IdentityCache.Step`, `Caching.Next` | `simulator/peer.go:190-207` |
| `RevocationClient.Next` | `revocation/client.go:23-80` |

Code that changes things in place and in one goroutine is imperative here too: the endorser array, the lock
table, the counters, the identity cache, the placement of users, the audit, the validation of a distributed
peer, the handle update, the timing statistics and the slice sweep are methods and classes.

**Cryptography is symbolic.** In the simulator everybody is honest, and honest signatures, credential proofs,
audit proofs and encryptions are assumed to pass their checks. A non-revocation proof verifies for an epoch
exactly if its handle was signed for that epoch. Hashes, verdicts, encryptions and key derivations are
arbitrary functions, and a theorem that needs more of them says so in a `requires`.

## What the proofs show about the code

- **A tick can panic the simulator.** A user reads the epoch, the authority signs with the epoch it has when
  it grants (`simulator/user.go:66-69`, `simulator/revocation.go:76`). If the clock ticks in between, every
  validator rejects the proof. A simulation completes if and only if no transaction has a tick in that window
  (`Theorems.CompletesIff`); with revocation every simulation with a transaction has a run that finishes and a
  run that panics after a single tick (`Scenarios.SomeRunFinishes`, `Scenarios.SomeRunPanics`).
- **Every transaction refreshes its handle.** The loop copies the user (`simulator/simulator.go:56`), so the
  stored epoch stays 0 while the network starts at 1. That is why the exact accounts have one grant per
  transaction.
- **A distributed transaction claims the previous epoch.** `tx.Epoch` is set before the update
  (`distributed/user.go:144`, `:149`): a user's first transaction claims -1 and never matches its proof, a later
  one matches if and only if the clock has not ticked between the readings of the epoch for the transaction
  before and for this one (`DistributedHandle.ClaimMatchesIff`). A failed check ends the peer's process, so with
  revocation every peer is down for good once it has looked at some user's first transaction, however its calls
  interleave (`DistributedRevocation.FirstTransactionStopsPeer`).
- **An audit can lose transactions, and an append can bring audited ones back.** The append of a distributed
  peer is a read and a write under a lock that the audit does not take (`distributed/peer.go:129-131`, `:58-70`).
  A write between scan and clearing is cleared unaudited; a clearing between read and write is undone
  (`DistributedLedger.AuditCanLose`, `AppendCanBringBack`, and the exact conditions in `NothingLostIff`).
- **The cache key ignores most of the check.** It is four bytes of the hash of the proof; pseudonym and
  indices are not in it (`CacheKeys.HitIff`). The cached peer is as strict as an always-verifying one if and only if the verdict
  depends on the key alone (`IdentityCache.CacheRefinesIff`).
- **A lost append costs a verification.** Two endorse goroutines of a peer may append to its cache at a time; what one
  loads before the other stores takes the other's key away, and the second check of a transaction then misses, too.
  Every finished simulation of N transactions verifies exactly N(1 + P + min(E, P)) credential proofs if and only if
  peers grant one endorsement permit, or no peer has two endorsements that can be under way together: of one
  transaction, or of different users (`LostAppends.ExactIff`). In the other case some simulation verifies more
  (`LostAppends.CrowdVerifiesMore`), and none more than N(1 + P + 2E) (`Caching.CachedBounds`).
- **Organisations are stored in order of arrival**, so a user's credentials may come from another organisation
  than the one it counts itself to (`Setup.IssuerMatchesIff`, `Setup.IssuersCanSwap`); the chain still verifies.
- **The chart counts twice on boundaries.** Slices are closed at both ends, so an endpoint on an interior
  boundary belongs to two slices (`SweepMeaning.CounterClosedForm`, `CounterReturnsToZeroIff`), and a
  transfer that starts on one is listed twice until it ends (`ActiveIsInFlight`, `ListedTwice`), and can leave
  its counter above zero for good (`CounterStaysUp`).
- **The printed minimum is capped** at 3600000 seconds (`Statistics.StartingValuesIff`).
- **All revocation traffic is user 0's.** A request never gets its `userID` (`simulator/user.go:119-122`), so all
  2(U + N) revocation transfers are logged for `user-0` and take turns on its lock
  (`Duration.UserZeroCarriesRevocation`).

## Model

| member | source | states |
|---|---|---|
| Endorsers.PeerByBytes | helpers/helpers.go:25-38 | reducing modulo the peer count after every byte gives the same peer as reducing the whole big-endian number |
| Endorsers.DigitsAreBytes | helpers/helpers.go:25-38 | the bytes of a hash are the digits of its number to the base 256, the first the most significant |
| Endorsers.FillEndorsers | simulator/user.go:35-42 | the loop fills the array with the window (first + i) mod P |
| Endorsers.WindowHits | simulator/user.go:40-42 | how often the window hits each peer: floor(E/P), plus one for the E mod P peers from the first on |
| Endorsers.WindowIsBalanced | distributed/user.go:104-106 | every peer is asked floor(E/P) or ceil(E/P) times |
| Endorsers.WindowDistinctIff | simulator/user.go:40-42 | no peer is asked twice if and only if E <= P |
| Preservation.StepKeepsInv | simulator/peer.go:69-188 | every step of every process keeps the protocol invariant |
| Conservation.StepBalance | simulator/peer.go:69-188 | every step that does not panic records, takes or returns exactly what it stops owing: events, permits, steps |
| Progress.SomeProcessMoves | simulator/peer.go:69-188 | in a state that satisfies the invariant and conserves permits, and is not finished, some process other than the clock can move |
| Runs.DeadlockFreedom | simulator/peer.go:69-188 | in every reachable state that is neither finished nor panicked some process other than the clock can move: no cycle of waits |
| Runs.Termination | simulator/simulator.go:41-72 | no run makes more than U·T·(10E + 11P + 6, plus 7 with revocation) + setup steps, however often the clock ticks |
| Theorems.ExactLength | simulator/simulator.go:41-97 | every run that ends without a panic has exactly that many steps |
| Theorems.CommitSafety | simulator/user.go:101-112 | a recorded transaction has one endorsement from each entry of its window and was validated exactly once by every peer |
| Theorems.LedgerIsComplete | simulator/network.go:236-247 | no transaction is recorded twice, and once the users have joined all are recorded |
| Routing.BusyByHash | simulator/user.go:35-49 | in every reachable state a loop that is busy with a transaction is that of the peer which the written-out hash picks: of the message for an endorsement, slot by slot, and of the message with "-order" for an order |
| Routing.OrderMoment | simulator/user.go:98-101 | a transaction whose order is sent was handed, at some step of its own, to the idle loop of exactly that peer |
| Routing.ValidationFollowsOrder | simulator/peer.go:144-155 | no peer validates before the transaction is fully endorsed, has been handed for ordering to the peer that the hash picks, and was sent on to that peer |
| Routing.EndorsersInOrder | simulator/user.go:50-59 | a recorded transaction lists its endorsers in the order in which they answered, each as its slot of the window has it |
| Routing.LedgerIsInOrder | simulator/network.go:236-247 | the ledger lists the transactions in the order of the steps that recorded them |
| Routing.StartsWithStoredHandle | simulator/simulator.go:43-56 | with revocation, from its start until its own handle arrives a transaction works with the handle that its own user got at the launch |
| Routing.ReadingAsksIff | simulator/user.go:65-71 | a transaction asks for a handle if and only if the epoch it reads is not the one it has; otherwise it goes on with the handle it has, and nothing else happens |
| Routing.SendsFit | simulator/user.go:73-79 | a goroutine sends on a done channel only if the channel has room, in any state |
| Routing.EpochIs | simulator/revocation.go:58-62 | the epoch is 1 plus the ticks with revocation, and stays 1 without |
| Routing.NoTickWhileBusy | simulator/revocation.go:47-66 | the epoch does not change while the authority has a request in hand |
| Routing.ValidatorPanicsIff | simulator/peer.go:107-134 | a validator panics at the endorsements if and only if there are too few, at the handle if and only if it was signed for another epoch than is claimed, and nowhere else |
| Theorems.OnlyStaleHandlesPanic | simulator/peer.go:107-134 | with honest signatures, proofs and encryptions assumed to pass, the only panic a run can meet is a handle signed for another epoch; too few endorsements is unreachable |
| Theorems.RunningAccounts | simulator/counter.go:36-45 | in every reachable state, recorded plus still owed events make up the closed-form budget |
| Theorems.FinalAccounts | simulator/counter.go:36-45 | every finished run has recorded the same number of each operation and transfer, N(4+2E+P) hashes and so on; only proof verifications vary, by the cache hits |
| Theorems.NetworkConservation | simulator/bandwidth.go:27-95 | a finished run has recorded 3·Orgs + 3·U + N(2E+P) transfers, plus 2(U+N) with revocation |
| Theorems.PermitConservation | simulator/peer.go:69-100 | free permits plus goroutines holding one equal the configured limit, for every peer and for the authority |
| Theorems.ShutdownNeverBlocks | simulator/network.go:227-234 | once the users have joined, nothing is in flight and every exit signal can be delivered at once |
| Theorems.EpochSandwich | simulator/user.go:65-85 | user epoch <= signed epoch <= network epoch once the handle has arrived, the old handle before that; the network epoch is 1 plus the ticks |
| Theorems.HandleLeadsByTicks | simulator/revocation.go:71-85 | a handle is ahead of the claimed epoch by the number of ticks between the read and the signing |
| Theorems.WindowExists | simulator/user.go:65-71 | every refreshed transaction has a step that read its epoch and a step that signed its handle |
| Theorems.CompletesIff | simulator/simulator.go:72-97 | a run that can go no further has finished if and only if no transaction had a tick between read and signing |
| Scenarios.SomeRunFinishes | simulator/simulator.go:41-97 | every configuration has a run, without ticks, that finishes |
| Scenarios.SomeRunPanics | simulator/revocation.go:71-85 | with revocation, for every transaction there is a run with a single tick, at a step at which the transaction has read its epoch and its grant has started and is not signed, and the run ends with a stale handle |
| Traffic.TrafficIsRecorded | simulator/bandwidth.go:74-95 | in every reachable state the packets sent so far are, kind by kind, as many as the transfers recorded |
| Deliveries.PacketsSent | simulator/peer.go:72-86 | in every reachable state each packet, with its sender, receiver and kind, was sent as often as the goroutines are past its transfer; senders and receivers are given by the transaction's number and the hashes of its message |
| Deliveries.FinishedTraffic | simulator/peer.go:72-86 | a finished simulation has sent, from each sender to each receiver: one proposal from the user to each entry of a transaction's window and one endorsement back, the transaction once to its orderer and once from there to every other peer, nonce, request and credentials between each member and its issuer, the revocation transfers, and nothing else |
| Deliveries.TrafficIsOrderless | simulator/bandwidth.go:74-95 | two interleavings of one simulation send the same packets |
| Traffic.RevocationIsUserZeros | simulator/user.go:119-122 | as the number of a request is left at its default and the authority answers to that number, every revocation packet of a run has user 0 at one end |
| Duration.SimulationLasts | simulator/bandwidth.go:46-70 | whatever the interleaving and the schedule, a finished simulation has taken at least the sum over all kinds of their closed-form number times floor(1000·size/bandwidth) on the global lock |
| Duration.SimulationEndsBy | simulator/bandwidth.go:53-70 | without oversleeping, the global lock has been given back for good no later than its last request plus that sum, reckoned with the greatest sizes |
| Duration.UserZeroCarriesRevocation | simulator/revocation.go:51-80 | all 2(U+N) revocation transfers are on the lock of user 0, which takes at least the sum of their waits |
| Duration.WaitedInNumbers | simulator/revocation.go:93-112 | m requests of 799 and m handles of 323 bytes take m(floor(799000/bandwidth) + floor(323000/bandwidth)) milliseconds of that lock |
| Duration.LogIsComplete | simulator/bandwidth.go:72-95 | whatever the interleaving and the schedule, the log of a finished simulation holds every packet of its run exactly once, under the ids 1 to 3·Orgs + 3·U + N(2E+P), plus 2(U+N) with revocation |
| Duration.EveryRunCanBeCarriedOut | simulator/bandwidth.go:27-95 | every finished run has a network schedule that carries and logs exactly its traffic |
| Bandwidth.HoldsAreDisjoint | simulator/bandwidth.go:53-60 | two holds of one lock never overlap, in any schedule |
| Bandwidth.LowerBound | simulator/bandwidth.go:46-70 | in any schedule a lock's last release is no earlier than the sum of its waits |
| Bandwidth.RunTakesItsDemand | simulator/bandwidth.go:46-70 | when all transfers are logged, at least the sum of floor(1000·size/bandwidth) has passed, on the global lock and on each endpoint's |
| Bandwidth.UpperBound | simulator/bandwidth.go:53-70 | without oversleeping, a lock is released last no later than its last request plus the sum of its waits |
| Bandwidth.BoundsMeet | simulator/bandwidth.go:53-70 | when all requests come at once, that last release is exactly the sum of the waits |
| Bandwidth.LogIsFaithful | simulator/bandwidth.go:72-95 | log ids are 1, 2, 3 and so on, one per transfer, with the start of that transfer, and no entry is shorter than either of its waits |
| NetworkLog.WaitIs | simulator/bandwidth.go:42-44 | the wait w is the number with w·bandwidth <= 1000·size < (w+1)·bandwidth |
| NetworkLog.BegunAt | simulator/bandwidth.go:46-51 | a transfer keeps its packet and its size, and its start is the time that has passed before it was begun |
| NetworkLog.HoldIsTimed | simulator/bandwidth.go:53-60 | a holder has its lock from the moment of the step that took it to the moment of the step that gave it back |
| NetworkLog.RecordedAt | simulator/bandwidth.go:68-95 | recording a transfer leaves an entry with the next id, the start of the transfer, and the moment of the recording as its end |
| NetworkLog.EntryMoment | simulator/bandwidth.go:68-95 | every entry was left so, by a step at which the three holders of its transfer were back |
| NetworkLog.EntryLasts | simulator/bandwidth.go:68-95 | no entry ends after the present, and each lasts as long as its size needs on either bandwidth |
| NetworkLog.EndsWhenBack | simulator/bandwidth.go:66-70 | if no time passes between the last holder's return and the recording, the end of an entry is exactly the latest of the three returns |
| Bandwidth.NeverStuck | simulator/bandwidth.go:53-70 | while a transfer is not logged, a holder or the log can move, or somebody sleeps |
| Recorders.LockTable.GetLock | simulator/bandwidth.go:29-40 | an existing name keeps its lock, a new one gets a fresh one; names and locks stay one-to-one |
| Recorders.LockTable.LocksFor | simulator/bandwidth.go:46-47 | the two ends share a lock if and only if they have the same name, and neither has the global one |
| Recorders.CryptoCounter.RecordCryptoEvent | simulator/counter.go:36-45 | the counters remain the histogram of all recorded events |
| Recorders.CountAllIsHistogram | simulator/counter.go:36-45 | counting event by event gives the histogram of the trace |
| Recorders.OrderIsIrrelevant | simulator/counter.go:36-45 | two interleavings of the same events leave the same counters |
| IdentityCache.Cache.ValidateIdentity | simulator/peer.go:190-207 | one check: hit, verified and appended, or failed with the cache unchanged |
| CacheKeys.TwoChecks | simulator/peer.go:192-206 | two checks that verify cost one verification if the hashes of their proofs agree in the first four bytes, and two otherwise, whatever pseudonyms and indices |
| CacheKeys.HitIff | simulator/peer.go:192-206 | from an empty cache a check hits if and only if an earlier one that verifies agrees with it in those four bytes; otherwise it is verified and its four bytes are appended, or the peer panics |
| CacheKeys.InTurnIsCheckAll | simulator/peer.go:190-207 | concurrent checks that take turns leave the cache of the sequential peer |
| IdentityCache.CacheRefinesIff | simulator/peer.go:190-207 | over all sequences of checks the cached peer accepts exactly what an always-verifying peer accepts, if and only if the verdict depends only on the key |
| IdentityCache.CollisionPasses | simulator/peer.go:192-199 | otherwise a failing check passes right after the one it collides with |
| IdentityCache.CacheGrows | simulator/peer.go:206 | the cache only grows, by exactly the missing keys, without repeating one |
| IdentityCache.OneVerificationPerKey | distributed/peer.go:223-239 | one full verification and one entry per distinct key not cached before |
| IdentityCache.ConcurrentSoundness | simulator/peer.go:190-207 | in every interleaving of concurrent checks, lost appends included, a cached key comes from a check that verified, and a failing check is never accepted on its own verification |
| IdentityCache.AppendCanBeLost | simulator/peer.go:206 | two concurrent checks that both verify can leave a single key |
| Verifications.VerificationBounds | simulator/peer.go:190-207 | whenever a hit needs an earlier verification for the same cache, and keys are distinct, a finished run makes at least N(1+P+min(E,P)) full verifications, one for each cache a transaction gets to, and no more than N(1+P+2E) |
| Caching.TraceIsEarned | simulator/peer.go:190-207 | with scan, load and store as separate steps, the hits that the caches give are always such hits |
| Caching.CachedBounds | simulator/peer.go:190-207 | so both bounds hold with the caches carried along, whatever appends are lost |
| Caching.SoloIsExact | simulator/peer.go:157-171 | the lower bound is met exactly, as each second check hits, if no two endorse goroutines of one peer were ever inside a check together |
| Crowds.AloneIsExact | simulator/peer.go:72-78 | that is so in every finished simulation with one endorsement permit per peer, and in every one without two endorsements of one peer, of one transaction or of different users |
| CachedRuns.SomeIsExact | simulator/peer.go:190-207 | every configuration has a finished simulation that meets the lower bound |
| LostAppends.HeldProgress | simulator/peer.go:72-78 | with two permits, one endorse goroutine can be held before its first check until a second one of the same peer is there, without stopping the others |
| LostAppends.CrowdVerifiesMore | simulator/peer.go:206 | with two permits and two such endorsements, an append is lost in some finished simulation, and it makes more verifications than the lower bound |
| LostAppends.ExactIff | simulator/peer.go:157-207 | every finished simulation makes exactly N(1+P+min(E,P)) full verifications if and only if peers grant one endorsement permit, or no two endorsements of one peer are of one transaction or of different users |
| DistributedHandle.Client.UpdateNRH | distributed/user.go:174-198 | the update returns if and only if no new handle is needed or no tick falls between its two calls; then the stored handle is signed for the stored epoch |
| DistributedHandle.HandleMatchesEpoch | distributed/user.go:174-198 | in every interleaving a user past its update holds a handle for exactly its epoch, which the authority has reached |
| DistributedHandle.UpdateSucceedsIff | distributed/revocation.go:67-79 | whatever other users do meanwhile, a refresh succeeds if and only if no tick falls between the two calls |
| DistributedHandle.ClaimsPreviousEpoch | distributed/user.go:140-153 | a transaction claims the epoch that the previous one of its user proved, -1 for the first |
| DistributedHandle.ClaimMatchesIff | distributed/user.go:140-153 | a first transaction claims -1 and never the epoch it proves; a later one is behind by the ticks between the two readings of the epoch, and matches if and only if there was none |
| DistributedHandle.ReadsInOrder | distributed/user.go:176-180 | the readings for successive transactions of a user are different steps, in order |
| DistributedRevocation.HandleCheckIff | distributed/peer.go:115-122 | the handle check fails for every first transaction, and for a later one if and only if the clock ticked between the two readings |
| DistributedRevocation.LaterIsAcceptedIff | distributed/peer.go:78-138 | with revocation, a peer accepts of the later ones exactly those that pass the other checks and had no tick |
| DistributedRevocation.PassedIff | distributed/peer.go:78-138 | a call has passed if and only if the peer was up and found its transaction acceptable at some step, and the peer is down if and only if it found one unacceptable |
| DistributedRevocation.RecordedIff | distributed/peer.go:129-131 | a transaction is recorded, and once only, if and only if its append came after such a step and found the peer up |
| DistributedRevocation.FirstTransactionStopsPeer | distributed/peer.go:115-122 | calls run concurrently, each with its checks and its append as two steps: in every interleaving a peer that looks at a first transaction is down from that step on, never records it, and records nothing after that step |
| DistributedPeer.RPCPeer.Validate | distributed/peer.go:78-138 | the ledger gains the transaction if and only if every check passes, the handle being one signed for exactly the claimed epoch, and a forged proof never; the verdict is exactly the first check that fails; the cache changes as one check |
| DistributedPeer.RPCPeer.Audit | distributed/peer.go:54-75 | the ledger is cleared if and only if every encryption in it opens to the author's key |
| DistributedLedger.LedgerConservation | distributed/peer.go:58-70 | for every peer in every reachable state, ledger, audited, lost and pending transactions are together the ordered and the returned ones |
| DistributedLedger.NothingLostIff | distributed/peer.go:129-131 | on a peer at rest nothing was lost if and only if no append wrote between a scan and its clearing, and nothing came back if and only if no clearing of a list with entries fell between an append's read and its write |
| DistributedLedger.DisjointIsHarmless | distributed/peer.go:129-131 | neither happens if no append and audit intersect |
| DistributedLedger.LedgerExactIff | distributed/peer.go:141-178 | with no order in flight, ledger and audited transactions are exactly the ordered ones if and only if what was lost is what came back; when that is so follows from NothingLostIff and DisjointIsHarmless |
| DistributedLedger.LedgersAgree | distributed/peer.go:141-178 | with no order in flight and no intersection, each ledger holds what was ordered and not audited, and two are equal as multisets if and only if the same was audited on both |
| DistributedLedger.AuditCanLose | distributed/peer.go:58-70 | a run after which an ordered and appended transaction is gone unaudited |
| DistributedLedger.AppendCanBringBack | distributed/peer.go:129-131 | a run after which an audited and cleared transaction is in the ledger again |
| DistributedLedger.LedgerSinceAudit | distributed/peer.go:129-131 | from an empty ledger with nothing pending, a peer holds or awaits exactly what was submitted since |
| DistributedLedger.AgreementSinceAudit | distributed/distributed.go:61-78 | after an audit round without orders in flight, and with nothing on its way, all ledgers hold exactly what was submitted since the round |
| DistributedLedger.OrderCanDiffer | distributed/peer.go:157-175 | two peers can hold the same two orders in opposite order |
| Setup.GenerateOrganizations | simulator/network.go:64-133 | organisations end up in order of arrival; the recorded events are those of one credential each |
| Setup.SpawnUsers | simulator/network.go:142-207 | the nested loops create the user of every id exactly once |
| Setup.PlaceUsers | simulator/network.go:212-214 | storing by id undoes any order of arrival |
| Setup.GenerateUsers | simulator/network.go:135-217 | users[i].id == i for all i, whatever the order of arrival |
| Setup.NumberingIsBijective | simulator/network.go:196 | org * Users + user numbers organisation and position one-to-one |
| Setup.ChainsVerify | simulator/network.go:92-108 | in any order of arrival a user's chain goes from the root over its issuer to the user, and verifies |
| Setup.IssuerMatchesIff | simulator/network.go:153-199 | every user's issuer is its own organisation if and only if organisations arrived in numeric order |
| Setup.IssuersCanSwap | simulator/network.go:128-130 | two organisations that arrive in opposite order issue for each other's user |
| Setup.MakeNetwork | simulator/network.go:30-62 | the whole setup puts every user at its own id, with its own secret key and the public key derived from it, and records exactly the events with which the protocol starts |
| Setup.RunAudit | simulator/simulator.go:75-89 | the audit passes if and only if every encryption opens to the key of the user stored under the author id |
| Setup.AuditSucceeds | simulator/simulator.go:79-85 | given that decryption undoes encryption, it passes for everything the users submit |
| Setup.AuditPassesIff | simulator/simulator.go:79-85 | a transaction passes if and only if its encryption is of the key derived from the secret key of the user it names |
| Statistics.TimingBasics | simulator/simulator.go:112-140 | least below the cap, greatest above zero, truncated average, and the element of rank n/2 of the sorted copy, which no other sorting changes |
| Statistics.PrintStats | simulator/simulator.go:95-158 | what is printed, each for end minus start of its own two stamps: for any intervals, least from the cap, greatest from 0, cut average and middle of the sorted copy, all cut to milliseconds; so the median has rank n/2; within the cap minimum and maximum are the least and the greatest value, the average is the mean, and average and median lie between them; average, maximum and (within the cap) minimum of the total are at least those of its parts, the two added up for average and minimum |
| Statistics.SortedCopyIsUnique | simulator/simulator.go:136-138 | any sorting gives the same list |
| Statistics.StartingValuesIff | simulator/simulator.go:117-131 | the minimum is the least value if and only if one is within the cap, the maximum the greatest if and only if one is not negative |
| Statistics.InOrder | simulator/simulator.go:134-140 | min <= avg <= max and min <= median <= max within the cap |
| Statistics.MedianRank | simulator/simulator.go:140 | at most n/2 values are below the median and more than n/2 are not above it |
| Statistics.TotalDominates | simulator/user.go:27-110 | avg(total) >= avg(endorsements) + avg(validations), and likewise min unless every transaction exceeded the cap |
| Sweep.CountSlice | tools/network-analyzer/Program.cs:135-139 | every category's counter moves by the slice's starts minus ends, and its new value is appended |
| SweepMeaning.OrderIsStable | tools/network-analyzer/Program.cs:110-123 | the points are sorted by time, and those of one moment stay in the order of the log |
| Sweep.UpdateActive | tools/network-analyzer/Program.cs:141-145 | all starts are added first, then every ended id is removed |
| Sweep.CursorStops | tools/network-analyzer/Program.cs:131 | the cursor passes the end after ceil((max - min) / slice) slices |
| Sweep.SeriesGrow | tools/network-analyzer/Program.cs:135-162 | each slice adds one entry to every series and changes none |
| Sweep.NetworkUsageStackedBarChart | tools/network-analyzer/Program.cs:88-166 | all series have that length and hold the left edges, the sweep's counters, and the ideal and real latencies in milliseconds (what that is in the fields of the log: the ChartMeaning rows), for every log and slice with which the loop ends; an empty log, and a division by a local bandwidth of zero, are errors |
| SweepMeaning.CounterClosedForm | tools/network-analyzer/Program.cs:131-139 | a counter is the number in flight at the right edge, plus the starts minus the ends on earlier right edges |
| SweepMeaning.CounterReturnsToZeroIff | tools/network-analyzer/Program.cs:131-139 | after the last slice it is zero if and only if as many starts as ends fell on interior boundaries |
| SweepMeaning.ActiveIsInFlight | tools/network-analyzer/Program.cs:141-145 | the active list holds exactly the transfers with start <= r < end, twice those that started on an earlier right edge |
| SweepMeaning.ActiveEndsEmpty | tools/network-analyzer/Program.cs:141-145 | after the last slice the active list is empty |
| SweepMeaning.ListedTwice | tools/network-analyzer/Program.cs:133-145 | a log, for every slice width, in which a transfer in flight is listed twice |
| SweepMeaning.CounterStaysUp | tools/network-analyzer/Program.cs:133-139 | the same log leaves its counter at one after the last slice |
| ChartMeaning.ChartIsRegular | tools/network-analyzer/Program.cs:131-162 | all series of the chart have one entry per slice, and the edges are slice milliseconds of 10000 ticks apart |
| ChartMeaning.ChartSpans | tools/network-analyzer/Program.cs:131 | the first edge is the earliest start, and the last slice is the first to reach the latest end |
| ChartMeaning.BarsShown | tools/network-analyzer/Program.cs:135-139 | on the chart, a bar is the number in flight at the slice's right edge, plus the starts and minus the ends on earlier edges between two slices |
| ChartMeaning.RealLatencyShown | tools/network-analyzer/Program.cs:147-160 | on the chart and in the fields of the log: the real latency of a slice is the rounded mean of end minus start over the transfers in flight at its right edge, counted twice if they started on an earlier edge, divided by 10000 |
| ChartMeaning.IdealLatencyShown | tools/network-analyzer/Program.cs:147-160 | the ideal latency is the same mean of 1000·10000·size/bandwidth, cut to ticks, at the bandwidth of the first entry |
| ChartMeaning.DividesIff | tools/network-analyzer/Program.cs:147-151 | the builder divides by zero if and only if that bandwidth is zero and some transfer is in flight at some right edge |
| SweepMeaning.RoundedIsNearest | tools/network-analyzer/Program.cs:153-154 | rounding is to the nearest tick, and to the even one from halfway |
| RevocationClient.BoundedRequests | revocation/client.go:43-55 | permits are conserved, so no more requests than allowed are open |
| RevocationClient.SendNeverBlocks | revocation/client.go:41-69 | the reply channel always has room, although nobody receives before the join |
| RevocationClient.JoinCollectsEverything | revocation/client.go:75-98 | at the join all permits are back and the channel holds exactly one reply per index, each to its own request |
| RevocationClient.JoinsIff | revocation/client.go:48-75 | a run that can go no further has joined if and only if there are permits or no requests |
| RevocationClient.ClientTerminates | revocation/client.go:39-75 | no run has more than five steps per request and the join |

## Left out

- The transaction protocol is modelled on values: a step returns a new state instead of changing peers, users and channels in place, because its proofs are about all interleavings; aliasing between goroutines is not captured.
- Groth and Schnorr signatures, pseudonyms, proofs, SHA-3 and the encodings are symbolic; dac-lib and amcl are not part of this model.
- Colliding keys inside the protocol: `Caching` takes the number of a transaction for its key; collisions are the subject of `IdentityCache`.
- Verifications.VerificationBounds: N(1+P+2E) is an upper bound only; the greatest number of verifications that some simulation makes is not determined.
- Go's own detection of concurrent writes to a map, which may end a program whose goroutines append to the caches of one peer at the same moment.
- Two Go appends that share a backing array: an append is a read and a later write of the whole list.
- The encoding of a claimed epoch of -1 as a big integer: it is taken to differ from every epoch from 1 on.
- Time inside the protocol: a transfer there is one step; how long it takes is the subject of `Bandwidth`.
- Floating point: waits are floor(1000·size/bandwidth) on whole numbers, and sleeps drawn from distributions are arbitrary delays.
- The moment between reading the end of a transfer and writing its line: they are one step of `Bandwidth`, so lines come in the order of their ends, which a wait for the log lock could change.
- Overflow of 64-bit durations, epochs, ids and tick counts.
- Theorems.OnlyStaleHandlesPanic: signature, credential, audit-proof and audit checks of honest users cannot fail in the model, because the cryptography behind them is not part of it.
- Floating point in the chart: ideal latencies are cut to whole ticks from exact quotients, and averages are exact before rounding.
- Statistics.PrintStats: does not model the list of operations per transaction, a floating-point quotient for display.
- The size of a transaction, which reads its first endorsement and so fails without endorsements: the model has E >= 1, P >= 1 and limits >= 1.
- More than one audit at a time on one distributed peer: the auditor waits for each before it ends.
- Remote calls, HTTP, JSON, logging, command-line flags, plots and hard-coded chart data.
- `distributed/root.go` and `distributed/organization.go`, thin wrappers over credential delegation.
- The verification goroutines of the revocation client: they only check each reply with the key of its index.
