# A verified model of the dsh-helm control plane

The model covers the parts of dsh-helm whose guarantees span many calls or many processes:

* **Two control planes that fail over** (`packages/hub/src/ha.ts`). `HubState.dfy` holds the value of one plane and
  what each handler makes of it; `HubHa.dfy` is the class with the source's fields, every method proved to compute
  those functions. `HaRuns.dfy` joins two planes into a step system: ticks, lease renewals, declared states that arrive
  late, repeatedly, out of order or never, pipes that come and go, and restarts from the kv table, with unrelated
  clocks. A peer RPC is one atomic step with three outcomes: delivered, request lost, reply lost.
  `HaSafety.dfy` (one writer, fencing terms, what a lease says), `HaFencing.dfy` (exactly when terms fall),
  `HaHolders.dfy` (one holder per term), `HaLeases.dfy` and `HaResumption.dfy` (exactly when a lease is resumed),
  `HaElections.dfy` (what a lease rests on), `HaPhases.dfy` (what pipes, time and acks give and cost), `HaHearing.dfy`
  (what declared states, answers, silence and restarts do) and `HaRecovery.dfy` (isolation, full sync, recovery) hold the
  theorems;
  `HaExchanges.dfy` holds the single exchanges that runs are built from, `Election.dfy` and `Registry.dfy` the pure
  election and the registry merge.
* **The response guard** (`packages/hub/src/mcp/guard.ts`): `Json.dfy` (values, the printer behind `JSON.stringify`,
  byte sizes, paths), `JsonReader.dfy` (a reader, and the round trip with the printer), `Utf8.dfy`, `GuardFields.dfy`,
  `GuardTree.dfy`, `Guard.dfy`, `GuardResponse.dfy`, `GuardRounds.dfy` (what one round does), `GuardLimits.dfy` and
  `GuardJson.dfy`.
* **Device pairing** (`pairing.ts`, `enrollment.ts`): `PairingCode.dfy`, `RateLimit.dfy`, `Pairing.dfy` (what a call
  does, and whole runs) and `PairingService.dfy` (the stateful classes).
* **The JSON-RPC peer** (`jsonrpc.ts`): `Rpc.dfy` (two peers and a channel that reorders, loses and duplicates) and
  `RpcPeer.dfy` (the class).
* **Presence and routing** (`presence.ts`, `router.ts`), **the HA front proxy** (`ha-proxy.ts`) and **the table of
  live connections** (`connection.ts`, `handshake.ts`): `Presence.dfy`, `Router.dfy`, `HaProxy.dfy`,
  `Connections.dfy` (every history of handshakes, closes and releases) and `HubConnection.dfy` (the classes).
  `StableSort.dfy` is the stable descending sort several of them use, `Arithmetic.dfy` a few facts about products.

Where the source changes state, the model is a class or a loop proved against a function; the theorems are about that
function. Times are integers, clocks and random values are parameters, and nothing relates the clocks of two processes.

## Where the code and its documentation differ

The model follows the code. Each of these is a lemma with a concrete input or run, beside the condition under which
the documented promise does hold.

* Fencing terms can fall: accepting an election never compares terms. For any two stores and priorities they never
  fall in any run exactly when no plane boots more than one term ahead of a peer that can run an election it accepts
  (`HaFencing.FencingHoldsExactlyForSmallSkew`), as two empty stores do not (`HaSafety.EmptyStoresAreAllowed`). From
  any start the smaller of the two terms never falls (`HaFencing.LeastTermNeverFalls`), and no term is ever leased to
  both planes (`HaHolders.OneHolderPerTerm`).
* "No lease is ever resumed without a new term" (ha.ts:801-804): for any two stores, terms and priorities it holds of a
  plane's leases in all runs exactly when that plane elects itself both against its peer's priority and against the
  default priority 0 it assumes before it has heard the peer (`HaResumption.LeasesAreFreshExactly`). Winning the
  election by the smallest priority is not enough: with empty stores and priorities 1 and 2, the plane with
  priority 1 takes the lease of term 2 twice (`HaResumption.ALeaseCanBeResumedWithoutANewTerm`).
* "The slack guarantees the limit" (guard.ts:37, 125) holds after a cut of one string only; a response that ends less than
  four bytes below the limit falls back (`GuardLimits.FallbackExactly`, `GuardLimits.OneCutIsEnough`), also when nothing
  was shrunk: for every size over the limit there is such a text (`GuardLimits.AFittingResponseCanFallBack`).
* A fallback response carries the size of the text that was rejected, not its own: the number is corrected after
  printing (`GuardResponse.FallbackOverstatesItsSize`).
* "5 tries / 10s" (pairing.ts:19-22, 99): the windows are fixed, not sliding. Nine tries fit into ten seconds, and no
  more ever do (`RateLimit.IntervalBudget`, `RateLimit.BoundaryBurst`); at most max tries per interval hold in all runs
  exactly when max is at most one or a window is a single instant (`RateLimit.AtMostMaxExactly`).
* `presence_ambiguous` of a call without a pick says whether any lease is live exactly when none is, or the leases that
  outlast both clock readings of the call still collide (`Router.FlagIsExact`, `Router.FlagCanMissAnAmbiguity`).
* Operations with side effects are documented to be rejected when their target is unclear (router.ts:15-18). They are,
  exactly unless the call names no target, nothing owns its session or workspace, presence is missing or ambiguous, and
  the default node is healthy: then the operation is forwarded there unconfirmed
  (`Router.FailsClosedUnlessTheDefaultTakesIt`, `Router.ADestructiveOperationGoesToTheDefault`).
* Switching back to the primary proxy backend is documented to take consecutive successful probes of it; the code counts
  healthy ticks of the secondary, so the rule holds in all runs exactly when it asks for at most one probe
  (`HaProxy.DocumentedOnlyForOneProbe`).
* A closing connection never drops a newer one of the same node (connection.ts:95-98, `Connections.ClosingKeepsOthers`),
  but a release does: it leaves the others alone exactly when no open connection has authenticated for its id since
  (`Connections.ReleaseKeepsOthersExactly`, `Connections.ALateReleaseDropsTheNewer`).
* The token checked is that of the id in the auth message, the id admitted, of a node or of a peer plane, is that of the
  hello: the admitted id's own token was shown exactly when the two ids share a token
  (`Connections.OwnTokenShownExactly`). From any state any token admits under any other id not meant for enrollment
  (`Connections.AdmittedWithoutItsOwnToken`), a node's also as a peer plane (`Connections.APeerPlaneByANodesToken`).
* A closed connection leaves the table exactly when its id is not empty (`Connections.CloseUnroutesExactly`); a hello may
  carry the empty id beside a token of another (`Connections.AnUnnamedConnectionStays`).

## Model

| member | source | states |
|---|---|---|
| `Election.ElectLeader` | packages/hub/src/ha.ts:81-86 | the elected candidate is one of the candidates and none comes before it by priority and id |
| `Election.ElectionIgnoresOrder` | packages/hub/src/ha.ts:77-86 | two planes that see the same candidates, in any order or multiplicity, elect the same one |
| `Election.TheSmallestPriorityWins` | packages/hub/src/ha.ts:77-86 | whoever has the smallest priority, and among those the id that sorts first, is elected |
| `HubHa.HubHa.constructor` | packages/hub/src/ha.ts:352-382 | a plane boots read-only from the kv table, without lease or election |
| `HubHa.HubHa.OnPeerDisconnected` | packages/hub/src/ha.ts:561-588 | losing the last pipe drops lease and write access, and nothing else |
| `HubHa.HubHa.HandleElectRequest` | packages/hub/src/ha.ts:642-681 | the whole new state and answer of cp.elect: elected oneself, accepting, or refusing |
| `HubHa.HubHa.HandleLeaseRenewRequest` | packages/hub/src/ha.ts:683-697 | a lease is acked exactly at the plane's own term under a foreign leader |
| `HubHa.HubHa.OnPeerState` | packages/hub/src/ha.ts:701-769 | the whole new state after a declared peer state: align, split brain, or steady |
| `HubHa.HubHa.Tick` | packages/hub/src/ha.ts:774-821 | the whole new state of both planes after a tick, for every outcome of its RPCs |
| `HubHa.HubHa.StartElection` | packages/hub/src/ha.ts:836-878 | the whole new state of both planes after a proposal, for every outcome of its RPCs |
| `HubHa.HubHa.TakeLease` | packages/hub/src/ha.ts:908-926 | the lease is taken only on the peer's ack, whatever is lost |
| `HubHa.HubHa.RenewLease` | packages/hub/src/ha.ts:886-901 | a renewal moves only the ack time, and refreshes the follower |
| `HubHa.HubHa.SendFullSync` | packages/hub/src/ha.ts:1091-1113 | both planes after a full sync round trip, for every outcome |
| `HaRuns.OnlyAnElectedProposerIsAccepted` | packages/hub/src/ha.ts:642-681 | an election is accepted only by a plane one of whose views elects the proposer; a refusal changes nothing |
| `HaPhases.LosingThePeer` | packages/hub/src/ha.ts:561-588 | a pipe that closes costs phase, lease and, with a live epoch, one failover exactly when it was the last of a connected peer |
| `HaPhases.AWriterHasAPipe` | packages/hub/src/ha.ts:561-588 | from any start, over every run, a plane that may write has a pipe to its peer |
| `HaPhases.ALeaseLastsItsTtl` | packages/hub/src/ha.ts:776-783 | a tick keeps a lease if and only if its last ack is at most the ttl old, and then changes nothing |
| `HaPhases.AFollowerWaitsTheTtl` | packages/hub/src/ha.ts:784-791 | a tick keeps a follower following if and only if its leader was heard at most the ttl ago |
| `HaPhases.TakingTheLease` | packages/hub/src/ha.ts:908-926 | a lease is gained exactly by an ack that comes back, and the peer follows as soon as the request arrives |
| `HaPhases.RenewingTheLease` | packages/hub/src/ha.ts:886-901 | an acked renewal moves the ack time to now, and the follower is refreshed as soon as the request arrives |
| `HaPhases.RenewalsKeepTheFollower` | packages/hub/src/ha.ts:683-697 | a follower reached by a renewal keeps following exactly for the ttl |
| `HaPhases.AckedLeadersKeepTheirLease` | packages/hub/src/ha.ts:774-901 | over every run, a leader whose ticks come at most the ttl after its latest acked renewal keeps lease, term and epoch, unless a pipe, a delivery, a restart or the peer's ticks come between |
| `HaHearing.HearingIsRecorded` | packages/hub/src/ha.ts:701-769 | a declared state is remembered in full and counts as a sign of life |
| `HaHearing.HearingAHigherTerm` | packages/hub/src/ha.ts:701-769 | a higher term is taken over and persisted; the plane leads if it is named, follows a leased sender at its epoch, and is read-only otherwise |
| `HaHearing.HearingAnotherLeader` | packages/hub/src/ha.ts:701-769 | two leaders at one term: the term moves on, persisted, and the plane is read-only |
| `HaHearing.HearingNothingNew` | packages/hub/src/ha.ts:701-769 | otherwise nothing moves but the leader's activity, and a plane whose leader holds the lease becomes its follower |
| `HaHearing.SyncingALeaderMakesAFollower` | packages/hub/src/ha.ts:1091-1113 | a full sync from a leased leader that is ahead, or named, leaves it leased and its peer following at its epoch |
| `HaHearing.WinningAProposal` | packages/hub/src/ha.ts:836-878 | the winner of a proposal stands one above both known terms in its own name, persisted, without a lease |
| `HaHearing.LosingAProposal` | packages/hub/src/ha.ts:836-878 | the loser takes over the higher term and the peer's leadership, following a leased peer and read-only otherwise |
| `HaHearing.AcceptingAProposal` | packages/hub/src/ha.ts:642-681 | the peer that accepts stands at the proposed term under the proposer, persisted, and waits without a lease |
| `HaHearing.SilenceStopsEverything` | packages/hub/src/ha.ts:600-608 | towards a peer without a pipe, or silent for three heartbeats, a plane asks, tries and gains nothing |
| `HaHearing.AudibleForThreeHeartbeats` | packages/hub/src/ha.ts:600-608 | a new pipe or a declared state makes the peer count for exactly three heartbeats |
| `HaHearing.RestartingKeepsTheFencing` | packages/hub/src/ha.ts:352-382 | a restart brings back persisted term, leader and leader's term, and no lease, election or peer |
| `HaRuns.NextKeeps` | packages/hub/src/ha.ts:642-926 | every step keeps the invariant over terms, elections, leases and declarations, and lowers no term |
| `HaSafety.SingleWriter` | packages/hub/src/ha.ts:642-926 | over every run, from any two planes that are not both leased, the two are never both leased |
| `HaSafety.FencingTermsNeverFall` | packages/hub/src/ha.ts:730-758 | from a start within that skew no term ever falls, restarts included |
| `HaFencing.FencingHoldsExactlyForSmallSkew` | packages/hub/src/ha.ts:642-681 | for any two stores and priorities, terms never fall in any run if and only if no plane boots more than one term ahead of a peer that can run an election it accepts |
| `HaFencing.ATermFalls` | packages/hub/src/ha.ts:642-681 | the run, for every such start, in which a plane accepts a lower term |
| `HaFencing.LeastTermNeverFalls` | packages/hub/src/ha.ts:642-681 | from any start the smaller of the two terms never falls in any run, restarts included |
| `HaSafety.LeaseMatchesElection` | packages/hub/src/ha.ts:908-926 | from any start, over every run, a leased plane leads and has lease epoch = term = elected term >= 1 |
| `HaHolders.OneHolderPerTerm` | packages/hub/src/ha.ts:836-926 | from any stores, terms and priorities, over every run: lease terms never fall, a term is leased to one plane only, and a lease in the holder's own name is at a fresh term |
| `HaResumption.LeadsInItsOwnNameExactly` | packages/hub/src/ha.ts:810-821 | from any start, a plane never leads in its peer's name in any run if and only if it elects itself in every view it can have |
| `HaResumption.LeasesAreFreshExactly` | packages/hub/src/ha.ts:801-807 | from any start, every lease of a plane in every run is at a term above all earlier leases if and only if the plane elects itself in every view it can have |
| `HaResumption.ALeaseIsResumed` | packages/hub/src/ha.ts:801-819 | the run, for every other plane, in which it is granted one term twice, the second time in its peer's name |
| `HaElections.ElectedTermWasConfirmed` | packages/hub/src/ha.ts:848-860 | an elected term was proposed, accepted and won, or confirmed by the peer, at one step of the run, after the last restart |
| `HaElections.LeaseRestsOnAnElectionSinceBoot` | packages/hub/src/ha.ts:792-808 | from any start, a leased plane won, or had confirmed, an election at exactly its term since it booted |
| `HaResumption.ALeaseCanBeResumedWithoutANewTerm` | packages/hub/src/ha.ts:801-819 | an eight-step run from empty stores and priorities 1 and 2, its ticks at least a second apart, in which the plane with priority 1 takes the lease of term 2 twice |
| `HaRecovery.FullSyncConverges` | packages/hub/src/ha.ts:699-769 | a full sync ends in agreement if and only if not only the sender is undecided; the term grows by at most one, and exactly on a split brain; no lease is gained |
| `HaRecovery.ReachablePlanesAgreeAfterASync` | packages/hub/src/ha.ts:699-769 | in every reachable state a full sync ends in agreement; the term grows by at most one, and exactly on a split brain; no lease is gained |
| `HaRecovery.FullSyncIsARun` | packages/hub/src/ha.ts:1091-1113 | a full sync, whichever plane sends it and whatever is lost, is a run of the step system |
| `HaRecovery.OneTickRecovers` | packages/hub/src/ha.ts:810-926 | one uninterrupted tick restores write access if and only if both views elect the plane, with terms and lease epochs equal and above the old term |
| `HaRecovery.NoSelfPromotion` | packages/hub/src/ha.ts:774-831 | cut off from its peer, a plane whose term is the persisted one never changes it and never gains a lease, over any run |
| `HaRecovery.WriteAccessRunsOut` | packages/hub/src/ha.ts:776-783 | cut off and ticking at most d apart, a plane writes only while its last ack is at most ttl + d old |
| `Registry.NodeOverlay.Merge` | packages/hub/src/ha.ts:135-182 | the overlay and the two counts after merging one snapshot in order |
| `Registry.MergeKeepsNewest` | packages/hub/src/ha.ts:130-134 | after a merge every reported node shows a report that no other report is newer than |
| `Registry.MergesConverge` | packages/hub/src/ha.ts:130-182 | any order, grouping and repetition of the same reports gives the same nodes and metadata |
| `Registry.RemergingASnapshot` | packages/hub/src/ha.ts:135-182 | merging a snapshot with unique ids again changes and counts nothing, whichever peer sends it |
| `Registry.RemergingADuplicateChanges` | packages/hub/src/ha.ts:173-177 | with a repeated id it can: the stale mention flips connected back on |
| `Registry.ReachedThrough` | packages/hub/src/ha.ts:135-182 | after merging a snapshot with unique ids every named node is reached through the peer the merge rules name, with the connection they say |
| `Registry.AddedIsGrowth` | packages/hub/src/ha.ts:135-182 | the added count is what the overlay grew by, for every snapshot |
| `Registry.UpdatedIsNews` | packages/hub/src/ha.ts:135-182 | the updated count is the number of reports that are later or newly connected, where ids are unique |
| `Utf8.ByteSlice` | packages/hub/src/mcp/guard.ts:249-257 | the slice is the specified one for every text and budget |
| `Utf8.SlicedMeaning` | packages/hub/src/mcp/guard.ts:248-257 | a slice keeps its byte budget, wastes at most two bytes, and is a prefix plus at most one replacement character |
| `Utf8.BytesAreCounted` | packages/hub/src/mcp/guard.ts:52-53 | the byte count of a text is the length of its UTF-8 encoding, whose characters decode to themselves |
| `StableSort.SortedDescSorts` | packages/hub/src/mcp/guard.ts:151-151 | the sort returns a permutation, largest key first |
| `StableSort.SortedDescIsStable` | packages/hub/src/mcp/guard.ts:151-151 | elements with equal keys keep their order |
| `Json.PrintedSize` | packages/hub/src/mcp/guard.ts:93-93 | the UTF-8 length of the printed text, escapes and indentation included, is the size computed from the tree |
| `Json.SetAtChangesOneNode` | packages/hub/src/mcp/guard.ts:199-206 | writing at a path changes that node and no node that is not above or below it |
| `Json.SetAtSize` | packages/hub/src/mcp/guard.ts:199-206 | writing at a path changes the printed size by exactly that node's change |
| `Json.DecimalNames` | packages/hub/src/mcp/guard.ts:228-228 | the decimal notation of a number reads, digit by digit, as that number, without leading zeros |
| `JsonReader.PrintedTextParses` | packages/hub/src/mcp/guard.ts:58-61 | parsing what was printed gives back exactly the value, with and without white space |
| `JsonReader.ParsedIsPrintable` | packages/hub/src/mcp/guard.ts:58-61 | a value that was read prints to a text that reads back as the same value |
| `JsonReader.EscapesReadBack` | packages/hub/src/mcp/guard.ts:58-61 | every character reads back from its escape, also from the escapes of its two surrogates |
| `GuardFields.StringsFound` | packages/hub/src/mcp/guard.ts:159-175 | every collected string sits at its path, and no path enters the metadata |
| `GuardFields.EveryStringIsCollected` | packages/hub/src/mcp/guard.ts:159-175 | no string outside the metadata is missed |
| `GuardFields.StringsCarryTheirKeys` | packages/hub/src/mcp/guard.ts:147-175 | every collected string carries the key it is stored under, none in an array |
| `GuardFields.EveryArrayIsCollected` | packages/hub/src/mcp/guard.ts:184-196 | no array outside the metadata is missed |
| `GuardFields.PickMeaning` | packages/hub/src/mcp/guard.ts:147-156 | the pick is the largest content-like string if it is at least half the largest, else the largest |
| `GuardFields.WidestMeaning` | packages/hub/src/mcp/guard.ts:100-101 | the widest array is one of the arrays and none prints longer |
| `Guard.LargestKeyBySize` | packages/hub/src/mcp/guard.ts:209-221 | the scan finds the specified member |
| `Guard.BiggestMeaning` | packages/hub/src/mcp/guard.ts:208-221 | no member besides the metadata is larger, the first wins ties, none only when all are metadata |
| `GuardTree.PruneNode` | packages/hub/src/mcp/guard.ts:95-123 | prunings compose: pruning one node of a pruned tree prunes the original further |
| `GuardTree.CutAgain` | packages/hub/src/mcp/guard.ts:104-107 | cutting a cut string again is one cut of the original string |
| `Guard.DecisionsAreSensible` | packages/hub/src/mcp/guard.ts:98-121 | every round rewrites one reachable node outside the metadata into a shorter pruning, removes one other member, or gives up |
| `Guard.RoundsShrink` | packages/hub/src/mcp/guard.ts:95-123 | every round that does not give up makes the serialized text strictly shorter |
| `Guard.ShrunkIsGuarded` | packages/hub/src/mcp/guard.ts:95-123 | after any number of rounds the root holds the metadata once and otherwise only pruned members of the input |
| `GuardRounds.TheStringTakesTheExcess` | packages/hub/src/mcp/guard.ts:104-107 | a string of 64 bytes or more that covers a quarter of the excess is cut first: by the excess and 64 bytes, and at most two more; all else stays |
| `GuardRounds.TheArrayKeepsItsShare` | packages/hub/src/mcp/guard.ts:108-111 | otherwise the widest array keeps its share of the budget; all else stays |
| `GuardRounds.TheStringIsGivenUp` | packages/hub/src/mcp/guard.ts:112-115 | otherwise the largest string longer than the suffix becomes the suffix; all else stays |
| `GuardRounds.TheLargestMemberGoes` | packages/hub/src/mcp/guard.ts:116-121 | otherwise the first of the largest members besides the metadata is removed |
| `GuardRounds.GivesUpExactly` | packages/hub/src/mcp/guard.ts:98-121 | a round gives up if and only if no array can lose an item and no string can be cut, nor a member removed |
| `GuardRounds.WhatCarriesTheMetadata` | packages/hub/src/mcp/guard.ts:82-92 | an object carries the metadata itself, an array under data, anything else under value |
| `GuardRounds.AFittingResponseIsWhole` | packages/hub/src/mcp/guard.ts:95-98 | a structured response that fitted from the start is the input with the metadata, nothing lost |
| `GuardResponse.ThreeRoundsSuffice` | packages/hub/src/mcp/guard.ts:125-130 | writing the size of a text into it settles within three rounds, also across a power of ten |
| `GuardResponse.BackfillReturnedSize` | packages/hub/src/mcp/guard.ts:125-130 | the number read back from the text's returned_size is the byte length of that text, and original_size reads as given |
| `GuardResponse.ShrinkRound` | packages/hub/src/mcp/guard.ts:95-123 | one pass of the loop body does what the specified round does, branch by branch |
| `GuardResponse.SmartTruncateJson` | packages/hub/src/mcp/guard.ts:81-139 | the returned text is the printed final tree with its size, or the fallback exactly when that size is over the limit |
| `GuardResponse.StructuredResponseIsPruned` | packages/hub/src/mcp/guard.ts:81-139 | the final tree holds the metadata and otherwise only pruned members of the input |
| `GuardResponse.TruncatePlainText` | packages/hub/src/mcp/guard.ts:227-242 | the cut text with a marker whose two numbers, read by value, are the text's size and its own, within two bytes of the limit and never over it |
| `Guard.Kept` | packages/hub/src/mcp/guard.ts:108-111 | the widest array keeps the largest prefix within its share of the budget, at least one item and never all |
| `GuardLimits.FallbackExactly` | packages/hub/src/mcp/guard.ts:125-137 | the response falls back if and only if the rounds end less than four bytes below the limit |
| `GuardLimits.FittingFallsBackExactly` | packages/hub/src/mcp/guard.ts:93-137 | a response that fits from the start falls back if and only if it leaves less than four bytes below the limit |
| `GuardLimits.AFittingResponseCanFallBack` | packages/hub/src/mcp/guard.ts:93-137 | for every size over the limit and every tool name that leaves room, a text of that size that parses, whose response fits exactly, and that falls back untouched |
| `GuardLimits.OneRoundFits` | packages/hub/src/mcp/guard.ts:104-107 | when one string covers the excess, one round ends at least 50 bytes below the limit, whatever its characters and escapes |
| `GuardLimits.OneCutIsEnough` | packages/hub/src/mcp/guard.ts:72-79 | such a response is cut once and never falls back |
| `GuardResponse.FallbackSize` | packages/hub/src/mcp/guard.ts:131-137 | the fallback is small unless the tool's name is long |
| `GuardResponse.FallbackOverstatesItsSize` | packages/hub/src/mcp/guard.ts:131-137 | the size inside a fallback is larger than the fallback itself |
| `GuardResponse.ApplyGuard` | packages/hub/src/mcp/guard.ts:47-66 | small texts pass unchanged; every other response is structured, fallback or cut text, and at most 50000 bytes |
| `GuardJson.StructuredResponseParses` | packages/hub/src/mcp/guard.ts:8-11 | for every text that parses, a structured response parses to an object whose original_size, returned_size and tool read as the text's size, its own size and the tool, and otherwise only prunings of the input |
| `GuardJson.FallbackResponseParses` | packages/hub/src/mcp/guard.ts:131-137 | a fallback response parses to exactly the error report, its numbers read by value |
| `GuardJson.GuardJsonText` | packages/hub/src/mcp/guard.ts:47-66 | whatever JSON text goes into the guard, JSON text comes out |
| `PairingCode.SpellLowDigits` | packages/hub/src/pairing.ts:73-82 | the base-36 loop, digit in front by digit in front, spells the lowest digits |
| `PairingCode.CodeMeaning` | packages/hub/src/pairing.ts:72-83 | every generated code matches the demanded pattern and spells n modulo 36^20 |
| `PairingCode.PatternMeans` | packages/protocol/src/constants.ts:68-68 | the pattern, character by character |
| `PairingCode.CodesCollide` | packages/hub/src/pairing.ts:72-83 | two random numbers give the same code if and only if they agree modulo 36^20 |
| `PairingCode.AtMostTwoNumbersPerCode` | packages/hub/src/pairing.ts:72-83 | no three of the 2^104 random numbers share a code |
| `RateLimit.EvictionIsInvisible` | packages/hub/src/pairing.ts:220-235 | evicting expired windows never changes an answer compared with a limiter that keeps all |
| `RateLimit.EvictionBoundsTheTable` | packages/hub/src/pairing.ts:220-235 | a table above its size holds nothing expired |
| `RateLimit.IntervalBudget` | packages/hub/src/pairing.ts:220-235 | any interval of windowMs lets at most 2 * max - 1 tries of a peer through |
| `RateLimit.BoundaryBurst` | packages/hub/src/pairing.ts:220-235 | a monotone run that reaches this bound, for every limit whose window is longer than one instant |
| `RateLimit.AtMostMaxExactly` | packages/hub/src/pairing.ts:220-235 | at most max tries per interval of windowMs hold in all runs if and only if max is 0 or 1, or a window is a single instant |
| `Pairing.RunIsSound` | packages/hub/src/pairing.ts:156-218 | under every policy and over every run a row is locked exactly when its failures reached the maximum, and redeemed only before expiry |
| `Pairing.FailuresAreCounted` | packages/hub/src/pairing.ts:165-218 | a row's failure count is the number of refused tries at it in the run, up to the number that locks it, and it is locked exactly from then on |
| `Pairing.RowsAge` | packages/store/src/enrollment.ts:44-75 | over any stretch of a run a row goes only pending, consumed, locked, and who consumed it is written once |
| `Pairing.RedeemedAtMostOnce` | packages/hub/src/pairing.ts:16-22 | over every run a code hash is redeemed at most as often as issued, at most once |
| `Pairing.RedeemedInTime` | packages/hub/src/pairing.ts:179-190 | a redeemed code was issued earlier in the run and has not expired |
| `Pairing.TokensAreHandedOut` | packages/store/src/enrollment.ts:92-98 | the token table holds for each node what its last successful try handed out, and nothing else |
| `Pairing.CreateMeaning` | packages/hub/src/pairing.ts:119-135 | a code is issued under a free hash, or all attempts collided and nothing changed |
| `Pairing.GrantedExactly` | packages/hub/src/pairing.ts:156-191 | over every history a try is granted if and only if the limiter allows it, code and node id are in order, and the code was issued, runs still, was never redeemed and is not locked |
| `Pairing.GrantedMeans` | packages/hub/src/pairing.ts:184-190 | a granted try gets the fresh token, filed under its node, and the row names node and time |
| `Pairing.RefusedExactly` | packages/hub/src/pairing.ts:165-218 | the reason of every other refusal, by the history alone: locked, not found, already used, expired |
| `Pairing.EveryTryIsCounted` | packages/hub/src/pairing.ts:156-160 | every try since the last restart counts towards its peer's window |
| `Pairing.TriesPerInterval` | packages/hub/src/pairing.ts:156-160 | a peer's evaluated tries obey the interval bound, and a try is refused for its rate exactly when the unbounded limiter would refuse it |
| `PairingService.PairingService.ConsumePairingCode` | packages/hub/src/pairing.ts:156-191 | the whole new state and the answer of a consume call |
| `PairingService.PairingService.CreatePairingCode` | packages/hub/src/pairing.ts:119-135 | the whole new state and the code after at most three attempts |
| `PairingService.PairingService.AllowRate` | packages/hub/src/pairing.ts:220-235 | the windows and the answer, eviction loop included |
| `PairingService.EnrollmentCodeStore.ConsumeIfPending` | packages/store/src/enrollment.ts:49-54 | true exactly for the call that flips the row from pending |
| `PairingService.EnrollmentCodeStore.RecordFailure` | packages/store/src/enrollment.ts:57-61 | one failure more, and the count returned |
| `Rpc.RunKeepsInv` | packages/protocol/src/jsonrpc.ts:58-146 | every run of two peers over a channel that reorders, loses and duplicates keeps ids, timers, promises and frames consistent |
| `Rpc.SettledAtMostOnce` | packages/protocol/src/jsonrpc.ts:58-110 | every request is settled at most once, and is pending until it is |
| `Rpc.PendingIsBelowNextId` | packages/protocol/src/jsonrpc.ts:58-70 | pending ids were handed out by this peer |
| `Rpc.ResolvesWithItsOwnResult` | packages/protocol/src/jsonrpc.ts:99-146 | a request resolves only with what the other side computed for its own method and params |
| `Rpc.RoundTrip` | packages/protocol/src/jsonrpc.ts:58-146 | a request delivered, handled and answered resolves with the handler's value or rejects with the error it threw, and no other promise moves |
| `Rpc.AnUnknownMethodRejects` | packages/protocol/src/jsonrpc.ts:113-122 | a method nobody registered rejects the caller with that method's name, and starts nothing |
| `Rpc.ATimeoutRejects` | packages/protocol/src/jsonrpc.ts:62-65 | a timer rejects its own request with a timeout, and no other |
| `Rpc.ClosingRejects` | packages/protocol/src/jsonrpc.ts:79-85 | closing rejects exactly what is pending and clears every timer |
| `Rpc.IgnoredMessages` | packages/protocol/src/jsonrpc.ts:92-111 | other versions, notifications and responses nobody waits for change nothing |
| `RpcPeer.RpcPeer.Request` | packages/protocol/src/jsonrpc.ts:58-70 | a fresh id, timer, pending entry and frame |
| `RpcPeer.RpcPeer.Dispatch` | packages/protocol/src/jsonrpc.ts:92-138 | the whole new state after any raw message |
| `RpcPeer.RpcPeer.Close` | packages/protocol/src/jsonrpc.ts:79-85 | the loop rejects every pending promise once, clears every timer and empties the table |
| `RpcPeer.RpcPeer.OnTimeout` | packages/protocol/src/jsonrpc.ts:62-65 | a timer forgets its id and rejects its promise |
| `Presence.PresenceRegistry.RecordClaim` | packages/store/src/presence.ts:54-72 | the stored lease and the table after an upsert, one row per node |
| `Presence.LeasesAreShort` | packages/store/src/presence.ts:54-58 | a lease runs forwards, for at most the ttl or six manual ttls |
| `Presence.ClaimsAreKept` | packages/store/src/presence.ts:54-72 | a stored lease has the claim's node, source, confidence, pin and time |
| `Presence.RequestedDurationsAreKept` | packages/store/src/presence.ts:54-58 | a lease lasts as long as asked for, up to the ceiling of its source; a missing wish gets the default |
| `Presence.PresenceRegistry.ActiveNode` | packages/store/src/presence.ts:108-132 | the swept table and the pick |
| `Presence.NoPickMeans` | packages/store/src/presence.ts:101-132 | nothing is picked if and only if nothing is live, or nothing is pinned and the freshest confident leases collide |
| `Presence.PickIsUnambiguous` | packages/store/src/presence.ts:116-131 | no other confident lease lies within the window of an unpinned pick |
| `Presence.PinsWin` | packages/store/src/presence.ts:111-115 | a pinned lease wins outright, the most confident one |
| `Presence.PickMeans` | packages/store/src/presence.ts:108-132 | the pick is live: the most confident pin, or without pins a lease no rival is fresher than |
| `Presence.ThePickIsConfident` | packages/store/src/presence.ts:116-121 | where some lease is confident the unpinned pick is |
| `Presence.FlaggedIsCollision` | packages/hub/src/router.ts:217-226 | the router's own test holds if and only if confident leases collide |
| `Router.Router.Resolve` | packages/hub/src/router.ts:67-194 | target, action, confirmation, candidates and presence evidence, by precedence and in the order the clock is read |
| `Router.TheNamedTargetWins` | packages/hub/src/router.ts:73-103 | a named target is taken or rejected, whatever owners, presence and default say |
| `Router.TheSessionOwnerIsNext` | packages/hub/src/router.ts:105-116 | without a target an owned session goes to its owner, whatever workspace, presence and default are |
| `Router.TheWorkspaceOwnerIsNext` | packages/hub/src/router.ts:118-126 | without those an owned workspace goes to its owner |
| `Router.PresenceIsNext` | packages/hub/src/router.ts:128-134 | without those the operation goes to a live lease's node, the most confident pin or one no rival is fresher than |
| `Router.TheHealthyDefaultIsLast` | packages/hub/src/router.ts:138-185 | with nobody present the default takes it if online and heard within the lease, and otherwise it is rejected, for confirmation unless it only reads |
| `Router.TheEvidenceIsWhatIsLive` | packages/hub/src/router.ts:128-136 | the evidence holds exactly the leases that outlast both clock readings |
| `Router.FlagIsExact` | packages/hub/src/router.ts:131-139 | without a pick the flag says whether any lease is live if and only if none is, or the leases that outlast both clock readings collide |
| `Router.FlagMeans` | packages/hub/src/router.ts:138-139 | the flag holds if and only if the leases that survive the second reading collide |
| `Router.FlagCanMissAnAmbiguity` | packages/hub/src/router.ts:138-139 | two leases for which an ambiguous call is flagged unambiguous |
| `Router.FailsClosedUnlessTheDefaultTakesIt` | packages/hub/src/router.ts:67-194 | an operation with side effects and an unclear target is rejected for confirmation if and only if not: no target, no owner, presence missing or ambiguous, and a healthy default node |
| `Router.ADestructiveOperationGoesToTheDefault` | packages/hub/src/router.ts:141-147 | a destructive request, two colliding leases, and a default node that gets it unconfirmed |
| `HaProxy.HaProxyController.ProbeTick` | packages/cli/src/ha-proxy.ts:119-162 | the whole new state after a tick, health flags included, for every pair of probe results |
| `HaProxy.CountersCountRows` | packages/cli/src/ha-proxy.ts:119-162 | the three counters are the failures in a row, the healthy ticks in a row and the number of switches of the run |
| `HaProxy.FailsOverExactly` | packages/cli/src/ha-proxy.ts:124-136 | it fails over if and only if the primary failed threshold times in a row and the secondary is up |
| `HaProxy.SwitchesBackExactly` | packages/cli/src/ha-proxy.ts:137-150 | it switches back if and only if the primary answers and the secondary is down or was healthy threshold times in a row |
| `HaProxy.FlappingIsBounded` | packages/cli/src/ha-proxy.ts:119-162 | after n ticks there were at most (n + 1) / (threshold + 1) + n / (threshold + 1) switches |
| `HaProxy.FlappingReachesTheBound` | packages/cli/src/ha-proxy.ts:119-162 | for every n a run of n ticks with exactly that many switches |
| `HaProxy.OneGoodProbeSwitchesBack` | packages/cli/src/ha-proxy.ts:137-143 | after a long outage one good probe of the primary switches back |
| `HaProxy.DocumentedOnlyForOneProbe` | packages/cli/src/ha-proxy.ts:44-46 | the documented rule for switching back holds in all runs if and only if it asks for at most one probe |
| `HubConnection.HubConnection.Close` | packages/hub/src/connection.ts:90-105 | the whole new state after a close: this connection's entry goes, never a newer one's |
| `HubConnection.HubConnection.Inbound` | packages/protocol/src/handshake.ts:62-107 | the whole new state after any handshake message, branch by branch |
| `Connections.WhatAHelloBrings` | packages/protocol/src/handshake.ts:65-88 | another version closes, an enrolling hello is welcomed unrouted, any other is challenged |
| `Connections.WhatAnAuthBrings` | packages/protocol/src/handshake.ts:90-113 | a missing hello or nonce, a fourth try or a wrong code closes; the right code admits under the id of the hello |
| `Connections.NothingAfterTheHandshake` | packages/protocol/src/handshake.ts:62-63 | a finished or closed handshake ignores every message |
| `HubConnection.HubConnection.Authenticate` | packages/hub/src/connection.ts:107-131 | the whole new state after a welcome: enrolling devices and peer control planes never enter the table |
| `HubConnection.ControlPlane.HandleRelease` | packages/hub/src/control-plane.ts:196-201 | a release takes whatever is filed under the id out of the routing table, and no other entry |
| `Connections.RoutedConnections` | packages/hub/src/connection.ts:90-131 | over every history each entry is a proved connection that speaks for that id and no other; a closed one only under the empty id |
| `HubConnection.HubConnection.Release` | packages/hub/src/control-plane.ts:196-201 | the whole new state after node.release, which only an open, proved connection can call |
| `Connections.TableIsTheLatestOpen` | packages/hub/src/connection.ts:90-131 | over every history the table holds exactly the last connection to authenticate for each id since its last release, while it is open |
| `Connections.ClosingKeepsOthers` | packages/hub/src/connection.ts:94-102 | over every history a close never takes out the entry of another connection |
| `Connections.CloseUnroutesExactly` | packages/hub/src/connection.ts:90-105 | closing takes a routed connection out of the table if and only if its id is not empty, and takes out no other |
| `Connections.AnUnnamedConnectionStays` | packages/hub/src/connection.ts:94-102 | a run, with a token stored under a real node id only, that leaves a closed connection under the empty id |
| `Connections.ReleaseKeepsOthersExactly` | packages/hub/src/control-plane.ts:196-201 | a release leaves the other connections' entries alone if and only if no other open connection has authenticated for its id since |
| `Connections.ALateReleaseDropsTheNewer` | packages/hub/src/control-plane.ts:196-201 | a run in which a node reconnects and its old connection's release removes the new entry |
| `Connections.OwnTokenShownExactly` | packages/protocol/src/handshake.ts:90-113 | the token of the admitted id, a node's or a peer plane's, was shown if and only if that id and the id in the auth message share a token |
| `Connections.AdmittedWithoutItsOwnToken` | packages/protocol/src/handshake.ts:90-113 | from any state the token of one id admits a connection under every other id with another token, or none |
| `Connections.APeerPlaneByANodesToken` | packages/hub/src/connection.ts:51-52 | a run in which a node's token admits a connection as a peer plane that has no token |

## Left out

Of the two control planes:

- Interleavings inside one peer RPC: `takeLease` does not re-check its state when the ack arrives (ha.ts:914-918), so
  local steps between request and reply are not modelled.
- More than two planes, and the standalone mode of a plane without peers.
- Failed kv writes (`persistState` swallows them), the registry carried inside a declared state, `registryDiff`,
  `mcpCallLeader`, `forwardWrite`, dialing, timers and metrics.
- Registry metadata is one value per report rather than its separate fields.

Of the guard:

- The JSON tree is rewritten as a value along paths of child positions; aliasing and update in place are not modelled.
- GuardFields.Strings: returns the fields found below a node, where the source pushes them into one shared list.
- A number keeps the text it was read with; JavaScript would print it anew. Keys that look like array indices keep their
  place, where JavaScript would move them to the front.
- JsonReader.Parse: does not read the escape of a single surrogate, which no character here stands for; the guard's own
  parser is a parameter of `ApplyGuard`.
- GuardJson.GuardJsonText: says nothing of texts with such an escape.
- A character is a code point; lone surrogates do not occur. The share of a cut array is the exact quotient, not
  the floating-point product.
- Json.Find: finds keys by their position, so inherited property names such as `__proto__` play no role.

Of the rest:

- SHA-256 is any function; random numbers, clock readings and the minted token are parameters. SQLite tables are maps,
  or sequences in insertion order, with atomic statements.
- The argument checks of `PairingService.consume`, `listCodes`, `pairingCodeStatus` and all log lines.
- Running a notification handler, and the error codes of JSON-RPC failures; a handler may answer anything or never.
- RpcPeer.RpcPeer.Close: rejects in no particular order.
- The lists of healthy nodes and the reasons in a routing decision, and the audit entry.
- HaProxy: forwarding of requests, probe transport and overlapping ticks.
- A message authentication code is its token and whether it covers this handshake's nonces; what the HMAC itself
  computes, and the answers the handshake sends, are not modelled.
- HubConnection.ControlPlane.HandleRelease: leaves out that the node is also marked offline in the node registry.
- HubConnection.HubConnection.Release: leaves out the same.
- What the HA layer does with an admitted peer plane, beyond the two planes of `HaRuns.dfy`.
- HubConnection.HubConnection.Close: leaves out the RPC peer's own close and the callback; every connection keeps its place
  in the order of acceptance, which only the model sees.
- Dashboard, doctor, installation, presence probes, node agents, summaries, metrics and schema migration: easy or
  outside the program's logic.
