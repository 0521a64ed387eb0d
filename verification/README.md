# Peer discovery: a verified model

This project models the peer-discovery engine of the repository (package `discovery`, a Kademlia-style
protocol derived from devp2p discovery v5) together with two stateful components of package `netutil`,
and proves what the engine keeps over every run. `dafny verify dfyconfig.toml` checks all of it.

## What is modelled

- **The event loop and the node state machine.** Seven states, packet and timer events, queries with one
  request under way per node and a line of waiting ones, reply channels, interning of node objects, and
  the routing table. `Protocol.dfy` gives every handler as a function on a value `Net`; `Network.dfy` is
  the imperative form, with node objects changed in place, and every method there is proved to change the
  network by the function of the same name. Each arm of the `select` statement is one atomic step.
- **The lookup** (`Lookup.dfy`), one call with an arbitrary stream of replies and timeouts; any number of
  lookups sharing bounded channels with the loop (`LookupSystem.dfy`); and one call, move by move, among all
  the others (`Interleaving.dfy`).
- **The routing table and the XOR metric** (`Slices.dfy`, `Words.dfy`, `Distance.dfy`, `NodesByDistance.dfy`,
  `Table.dfy`, `TableEffects.dfy`, `RoutingTable.dfy`, `RefreshTarget.dfy`).
- **Packets** (`Packets.dfy`, `Rlp.dfy`): framing, hashes, chunking of neighbour answers, and a size bound
  over RLP (Ethereum Yellow Paper, Appendix B).
- **`IPTracker`** and **`DistinctNetSet`** (`IPTracker.dfy`, `Addresses.dfy`, `DistinctNetSet.dfy`).

`Invariants.dfy` states what every step keeps; `Preservation.dfy`, `Steps.dfy` and `Runs.dfy` carry it
through every building block, handler, step and run. `Monotone.dfy` says what never goes back. `Neighbours.dfy`,
`Lifecycle.dfy` and `Effects.dfy` say what each step achieves: which nodes of an answer are taken, what state every node
is in afterwards, and what is stored, sent and answered.
`Theorems.dfy`, `Waiting.dfy`, `Stuck.dfy` and `TwoPeers.dfy` state the results about runs without the invariant;
`Wire.dfy` connects the hashes of `TwoPeers.dfy` with the frames of `Packets.dfy`. The methods of `Network.dfy` all have one
shape, the new network is the function of the same name applied to the old one, and end in `Network.Network.Loop`,
which ties the imperative loop to the runs that the theorems are about.

## Main results

1. Every node held in remoteverifywait, known, contested or unresponsive has delivered a pong echoing the
   hash of a ping that was sent to it earlier (`Theorems.VerifiedNodesAnswered`); between two honest peers
   the other side really handled that ping and answered it, whatever the network loses, repeats or
   reorders (`TwoPeers.HandshakesAreReal`).
2. The event loop never blocks on a reply: no channel of capacity alpha ever holds more than alpha values,
   even when timeouts reset a lookup's count and swap its channel (`LookupSystem.LoopNeverBlocks`).
3. Each submitted query is in exactly one place, answered, under way, or once in line
   (`Theorems.QueriesConserved`); timers agree with states (`Theorems.TimersAgree`). An unanswered query at
   another node has a timer of that node to move it on, except while the node is idle with a line
   (`Waiting.WaitsForTimerOrIdle`), and `Waiting.BecomesIdleIff` says exactly which steps lead there.
4. Table entries, and therefore neighbour answers, are never us and are verified or configured nodes
   (`Theorems.TableProvenance`, `Theorems.NeighboursProvenance`); and every other node that becomes known and every
   seed does get into the table, in the first slot or as the newest replacement of a full bucket
   (`Effects.KnownJoins`, `Effects.EverySeedJoins`).
5. A lookup stops for every stream of replies and timeouts, and the stream prescribes its whole history: in
   each round it asks exactly the nearest nodes heard of that were not asked yet, it takes every reaction up to
   the first round that leaves nobody to wait for, or to the first new node that is the target if it is to stop
   there, and it returns the nearest of all nodes named so far (`Lookup.Perform`). Interleaved in any way with
   the loop and other lookups it is never held up (`Interleaving.NeverHeldUp`), does just that for the replies
   the loop really sends, and returns distinct nodes (`Interleaving.LookupAmongOthers`).
6. After every step each node is in exactly the state that its own event, being met, or being in the way of a
   newcomer leads to (`Lifecycle.StateChangesExactly`).
7. An answer to a query is handed to its lookup node for node: those with a port above 1024 and an address that is
   known, may be changed or is acceptable, and nil for the others (`Effects.NeighboursAnswer`). A queryable node that
   asks for neighbours is sent the nodes in the slots of bucket 0, in their order (`Effects.FindnodeAnswered`).
8. `closest` is the head of a stable sort by XOR distance, through binary search and overlapping copies;
   `logdist` is the bit length of the XOR distance, with all 256 table entries right.
9. Garbage collection in `IPTracker` cannot be noticed from its predictions; `DistinctNetSet` is a bounded
   multiset of exact bit prefixes.

## Assumptions

- The hash of a ping is not empty (`Invariants.Hashing`): `sendPing` returns a nil hash only when the ping
  cannot be encoded or signed, which `Packets.SendPacket` makes precise; see also `Wire.PingsHaveHashes`.
- In `TwoPeers.dfy`: packets that name a peer as their signer were sent by that peer, and no received packet has
  the hash of a different packet that a node signs and sends. The hash of a packet that a node sends is a
  function of its ID and the content, as it is with deterministic signatures. `Wire.AcceptedIsCollisionless`
  derives the assumption on hashes from a collision-free Keccak. All other results hold for arbitrary received
  packets.
- In `Packets.dfy`: signatures are 65 bytes and recover to the signer's key, and RLP bodies decode to what
  was encoded. Keccak, signing, key recovery and the relay and completeness checks are parameters.

## Where the code surprises

- `NewNode` never sets a node's hash, and seeds are re-interned without theirs. Every node therefore lands
  in bucket 0, and the nodes found closest do not depend on the target (`Theorems.ClosestIgnoresTarget`).
  The table proofs keep hashes arbitrary; `logdist` ranges over 0..256 and the table has 16 buckets, so
  they ask for the index to be in range, which zero hashes provide.
- The replacement queue is not de-duplicated, so `deleteReplace` can give a node a second slot. Slots stay
  distinct exactly when the promoted node has none yet (`Table.DeleteReplaceDistinctIff`), and the failing
  case is reachable (`Table.QueuedTwiceGetsTwoSlots`). The same condition decides whether slots stay ordered by
  their last touch (`Table.SlotsAreMostRecentFirst`) and whether `add` challenges the node untouched for longest
  (`Table.ChallengesLeastRecent`); `Table.WrongChallenge` gives a run in which it challenges the node touched last.
- A neighbours timeout does not start the next waiting query (`Theorems.TimeoutLeavesLine`). This is the one
  step that leaves queries in line at a node that could be asked and is not (`Waiting.BecomesIdleIff`), and a
  query can stay there with no timer to help it: every run that holds a node queryable can go on to such a state
  (`Stuck.QueryableCanLeaveBehind`), and for every other node there is one from the start
  (`Stuck.LeftBehindIsReachable`).
- A node that becomes contested gets a pong timer exactly when no older ping to it is outstanding
  (`Waiting.ContestedTimerIff`). An unresponsive node that pings us keeps its old ping
  (`Theorems.PingAfterUnresponsive`), and so every run that holds a node known can go on until the node is
  contested with no timer (`Stuck.KnownCanGetStuck`, `Stuck.StuckIsReachable`).
- `SameNet` and the map key of `DistinctNetSet` disagree for prefixes a whole byte longer than the address
  (`DistinctNetSet.KeyMeetsSameNet`).
- An empty prediction means "none" only as long as no host names the empty endpoint: `IPTracker.IsPrediction`
  covers both cases, and `IPTracker.EmptyMeansNone` gives the usual reading.

## Model

| member | source | states |
|---|---|---|
| `Distance.DistCmp` | discovery/node.go:86-97 | the byte loop returns the sign of comparing the two XOR distances to the target as big-endian integers |
| `Distance.DistIdentity` | discovery/node.go:86-97 | distances from one target are equal only for equal hashes |
| `Distance.DistSymmetric` | discovery/node.go:86-97 | distance is symmetric |
| `Distance.TriangleInequality` | discovery/node.go:86-97 | distance satisfies the triangle inequality |
| `Distance.LzCountCorrect` | discovery/table.go:195-228 | every one of the 256 table entries is 8 minus the bit length of its index |
| `Distance.LogDistance` | discovery/table.go:230-242 | the loop returns exactly the bit length of the XOR distance |
| `Distance.ValueOfXor` | discovery/table.go:230-242 | XOR of byte strings is XOR of the integers they write |
| `Distance.LogDistUltrametric` | discovery/table.go:230-242 | logdist(a,c) is at most the larger of logdist(a,b) and logdist(b,c) |
| `Distance.BucketOrderIsDistanceOrder` | discovery/table.go:230-242 | a smaller logdist means strictly nearer under distcmp, and nearer never means a larger logdist |
| `NodesByDistance.NodeList.Search` | discovery/net.go:757-759 | binary search finds the first entry farther away than the node |
| `NodesByDistance.NodeList.Push` | discovery/net.go:756-772 | append, overlapping copy and store amount to a stable bounded insertion by distance |
| `NodesByDistance.PushIsInsert` | discovery/net.go:760-771 | the slice left by the shift is the insertion, cut off at the limit |
| `NodesByDistance.StableSortCorrect` | discovery/net.go:750-772 | the reference order is sorted, a permutation, and keeps equally near nodes in order |
| `NodesByDistance.NearestCorrect` | discovery/table.go:83-94 | the k nearest: sorted, min(k, total) many, a sub-multiset, and nothing left out is nearer than anything kept |
| `NodesByDistance.TruncateThenInsert` | discovery/net.go:756-772 | dropping the far end before an insertion does not change the k nearest |
| `NodesByDistance.NearestStep` | discovery/net.go:756-772 | push on the k nearest so far yields the k nearest of all nodes pushed |
| `RoutingTable.Bucket.AddFront` | discovery/table.go:143-147 | the in-place shift puts the node in front and keeps the rest |
| `RoutingTable.Bucket.Bump` | discovery/table.go:149-159 | a node with a slot moves to the front, the others keep their order; found exactly when present |
| `RoutingTable.Bucket.QueueReplacement` | discovery/table.go:134-138 | the replacement queue keeps its newest sixteen |
| `RoutingTable.Bucket.Place` | discovery/table.go:123-140 | bump, else insert in front, else queue and name the last entry |
| `RoutingTable.Bucket.AppendIfNew` | discovery/table.go:103-114 | appended exactly when absent and there is room |
| `RoutingTable.Bucket.DeleteFirst` | discovery/table.go:164-170 | the first slot with the ID is cut out |
| `RoutingTable.Bucket.DeleteAll` | discovery/table.go:175-183 | every slot with the ID is cut out, and counted |
| `RoutingTable.Table.constructor` | discovery/table.go:23-30 | empty separate buckets around our own node |
| `RoutingTable.Table.Add` | discovery/table.go:118-141 | changes the table as the value-level add does, returns the entry to revalidate, and keeps count equal to the number of entries |
| `RoutingTable.Table.Stuff` | discovery/table.go:96-116 | changes the table as the value-level stuff does and keeps the count right |
| `RoutingTable.Table.Delete` | discovery/table.go:161-171 | changes the table as the value-level delete does and keeps the count right |
| `RoutingTable.Table.DeleteReplace` | discovery/table.go:173-193 | changes the table as the value-level deleteReplace does and keeps the count right |
| `RoutingTable.Table.Closest` | discovery/table.go:83-94 | the nresults nearest of all entries, bucket by bucket, earlier entries first among equally near ones |
| `RoutingTable.TotalUpdate` | discovery/table.go:12-12 | replacing one bucket changes the number of entries by the difference |
| `RoutingTable.TotalIsLength` | discovery/table.go:83-94 | the count is the length of the concatenated entries |
| `Table.AddKeepsOk` | discovery/table.go:118-141 | add keeps sixteen slots and sixteen replacements per bucket, never self, every node in the bucket of its distance |
| `Table.StuffKeepsOk` | discovery/table.go:96-116 | so does stuff |
| `Table.DeleteKeepsOk` | discovery/table.go:161-171 | so does delete |
| `Table.DeleteReplaceKeepsOk` | discovery/table.go:173-193 | so does deleteReplace |
| `Table.AddStores` | discovery/table.go:118-141 | add stores no node but its argument |
| `Table.DeleteStores` | discovery/table.go:161-193 | neither deletion stores anything new |
| `Table.ClosestStored` | discovery/table.go:83-94 | closest returns only stored nodes |
| `Table.AddKeepsDistinct` | discovery/table.go:118-159 | add keeps the IDs of a bucket distinct |
| `Table.StuffAndDeleteKeepDistinct` | discovery/table.go:96-171 | so do stuff and delete |
| `Table.DeleteReplaceDistinctIff` | discovery/table.go:173-193 | deleteReplace keeps them distinct if and only if the node it promotes has no slot yet |
| `TableEffects.AddEffect` | discovery/table.go:118-159 | add changes no bucket but the node's own, where the node is moved to the front slot, or put there, or is the newest of at most sixteen replacements of a bucket full of others, whose last entry is then handed back |
| `TableEffects.StuffEffect` | discovery/table.go:96-116 | one more node is appended to its bucket, and nothing else changes, exactly if it is not us, has no slot and there is room |
| `TableEffects.DeleteEffect` | discovery/table.go:161-171 | delete cuts the first slot with the ID out of the node's bucket and changes nothing else |
| `TableEffects.DeleteReplaceEffect` | discovery/table.go:173-193 | deleteReplace keeps exactly the slots with another ID, in their order, and moves the newest replacement, and only that, into the front slot if there is room and one is queued; other buckets stay |
| `Table.QueuedTwiceGetsTwoSlots` | discovery/table.go:134-193 | from every full bucket three operations and a deleteReplace give one node two slots |
| `Table.SlotsAreMostRecentFirst` | discovery/table.go:118-193 | throughout a run of add, delete and deleteReplace the slots are ordered by last touch, newest first, if and only if no deleteReplace promotes a node that has a slot |
| `Table.ChallengesLeastRecent` | discovery/table.go:118-193 | add hands back the entry untouched for longest, after every prefix of a run and all it can go on to without deleteReplace, if and only if no deleteReplace of the run promotes a node that has a slot |
| `Table.WrongChallenge` | discovery/table.go:118-193 | a run from the empty bucket after which add hands back another entry than the one untouched for longest |
| `Table.TwoSlotsFail` | discovery/table.go:118-159 | from any bucket with a doubled node, touches alone lead to a wrong challenge |
| `RefreshTarget.EntryAt` | discovery/table.go:44-51 | position of an entry in the concatenated buckets |
| `RefreshTarget.DoublingTest` | discovery/table.go:53-56 | in 64-bit arithmetic the test holds exactly for 0 < dist < 2^63 |
| `RefreshTarget.CountEntries` | discovery/table.go:33-39 | the number of entries in all buckets |
| `RefreshTarget.WalkBuckets` | discovery/table.go:42-51 | the subtracting walk selects exactly the entry at the drawn position, none past the end |
| `RefreshTarget.TargetDistance` | discovery/table.go:57-62 | the prefix written into the target is at exactly the drawn XOR distance from ours |
| `RefreshTarget.ChooseStep` | discovery/table.go:53-57 | the random word modulo a usable distance, modulo the full range otherwise |
| `RefreshTarget.ChooseTarget` | discovery/table.go:32-63 | a usable drawn distance yields a target strictly nearer to us, for every draw |
| `Network.Network.TimedEvent` | discovery/net.go:730-738 | arms the timer of an event and a node |
| `Network.Network.AbortTimedEvent` | discovery/net.go:505-511 | disarms it |
| `Network.Network.Ping` | discovery/net.go:513-519 | no ping while one is outstanding or to our own ID; else the hash is remembered and the pong timer armed |
| `Network.Network.HandlePing` | discovery/net.go:521-529 | takes over the TCP port and answers with the packet's hash |
| `Network.Network.HandleKnownPong` | discovery/net.go:532-545 | disarms the pong timer and forgets the ping |
| `Network.Network.CheckPacket` | discovery/net.go:833-853 | a pong must echo the remembered hash, nil counting as empty |
| `Network.Network.Start` | discovery/net.go:712-728 | answered locally, sent if the node is free and queryable, else not started and an unknown node verified |
| `Network.Network.AnswerLocally` | discovery/net.go:713-716 | the answer is the closest nodes of the table |
| `Network.Network.SendQuery` | discovery/net.go:718-722 | target sent, timer armed, query under way |
| `Network.Network.DeferQuery` | discovery/net.go:698-700 | last in line |
| `Network.Network.StartNextQuery` | discovery/net.go:702-710 | the first in line leaves the line exactly when it starts |
| `Network.Network.EnterUnknown` | discovery/net.go:95-108 | deleted from the table, every waiting query and the one under way answered with nil, history cleared |
| `Network.Network.AbortQueries` | discovery/net.go:99-106 | one nil reply for each query of the node, in order |
| `Network.Network.InsertKnown` | discovery/net.go:184-190 | inserted into the table; a known node in the way becomes contested |
| `Network.Network.EnterKnown` | discovery/net.go:181-191 | failures reset, next query started, then inserted |
| `Network.Network.Enter` | discovery/net.go:92-246 | the enter function of each state; the recursion through transition ends by a rank on states |
| `Network.Network.Transition` | discovery/net.go:740-748 | enters a state only when it is a new one |
| `Network.Network.InternNode` | discovery/net.go:463-474 | one object per ID, with the sender's address |
| `Network.Network.InternFromDB` | discovery/net.go:476-484 | an existing object is left alone |
| `Network.Network.InternNeighbour` | discovery/net.go:798-830 | refuses self, low ports, unacceptable newcomers and new addresses of known nodes |
| `Network.Network.MeetNeighbour` | discovery/net.go:781-791 | interned and, if unknown, verified |
| `Network.Network.MeetNeighbours` | discovery/net.go:779-791 | the nodes of a packet in order, nil where refused |
| `Network.Network.HandleNeighbours` | discovery/net.go:774-796 | error without a query, else timer off, nodes met, query finished |
| `Network.Network.FinishQuery` | discovery/net.go:792-794 | answer delivered, query cleared, next one started |
| `Network.Network.AnswerFindnode` | discovery/net.go:549-573 | sends the nodes closest to the target |
| `Network.Network.QueryTimedOut` | discovery/net.go:557-562 | nil reply and one more failure |
| `Network.Network.HandleQueryPacket` | discovery/net.go:547-577 | the packet events of queryable states |
| `Network.Network.HandleQueryTimeout` | discovery/net.go:557-566 | contested and an error once a known node has more than five failures |
| `Network.Network.HandleQueryEvent` | discovery/net.go:547-577 | packet or timeout, anything else an error |
| `Network.Network.HandleUnknown` | discovery/net.go:109-118 | only a ping counts: answered and pinged back |
| `Network.Network.HandleVerifyInit` | discovery/net.go:126-139 | ping, pong and pong timeout each lead to their state |
| `Network.Network.HandleVerifyWait` | discovery/net.go:144-157 | a pong makes the node known |
| `Network.Network.HandleRemoteVerifyWait` | discovery/net.go:165-175 | a ping timeout makes the node known |
| `Network.Network.HandleKnown` | discovery/net.go:192-203 | pings and pongs keep the node known, the rest are query events |
| `Network.Network.HandleContested` | discovery/net.go:212-227 | a pong saves the node, a pong timeout replaces it in the table |
| `Network.Network.HandleUnresponsive` | discovery/net.go:233-244 | a ping or pong makes the node known again |
| `Network.Network.HandleInState` | discovery/net.go:92-246 | dispatch on the state |
| `Network.Network.Handle` | discovery/net.go:486-503 | check, dispatch, transition, also when the handler returned an error |
| `Network.Network.ReadPacket` | discovery/net.go:361-375 | the packet arm of the loop is the receive step |
| `Network.Network.TimerExpired` | discovery/net.go:378-393 | a stale timer changes nothing, another is the timer step |
| `Network.Network.QueryRequested` | discovery/net.go:396-400 | the query arm: started or deferred |
| `Network.Network.Refresh` | discovery/net.go:612-631 | seeds interned, verified if unknown, and inserted |
| `Network.Network.Dispatch` | discovery/net.go:353-442 | one round of the select loop is one step |
| `Network.Network.Loop` | discovery/net.go:346-461 | the loop on every legal sequence of inputs ends in the state of that run, and keeps the invariant |
| `Invariants.LocalUpdate` | discovery/net.go:740-748 | a change of one node that keeps its queries keeps the invariant of all nodes |
| `Invariants.InitInv` | discovery/net.go:330-344 | the invariant holds at the start |
| `Preservation.PingAndWait` | discovery/net.go:121-125 | stepping into a state that waits for a pong keeps the invariant |
| `Preservation.TabAddInv` | discovery/net.go:186-186 | inserting a verified or configured node keeps it |
| `Preservation.TabDeleteInv` | discovery/net.go:96-219 | deletions keep it |
| `Preservation.AnswerInv` | discovery/net.go:98-106 | answering one open query and dropping it from its node keeps it |
| `Preservation.StartNextInv` | discovery/net.go:702-728 | moving the first waiting query under way keeps it, and changes no state |
| `Preservation.SubmitInv` | discovery/net.go:396-400 | a new query, started, answered or deferred, keeps it |
| `Steps.BecomeKnown` | discovery/net.go:181-191 | entering known, with its re-entrant transition of another node, keeps it |
| `Steps.BecomeUnknown` | discovery/net.go:95-108 | entering unknown after a pong timeout keeps it, one reply per query |
| `Steps.MeetNeighboursInv` | discovery/net.go:779-791 | meeting the nodes of a packet keeps it, and disturbs no query and no node that has left unknown |
| `Steps.HandleNeighboursInv` | discovery/net.go:774-796 | the whole neighbours packet keeps it |
| `Runs.HandlePingPacket` | discovery/net.go:486-529 | ping packets keep it in every state |
| `Runs.HandlePongPacket` | discovery/net.go:486-545 | pong packets keep it in every state, with the proof of liveness they carry |
| `Runs.HandleQueryPacket` | discovery/net.go:547-577 | findnode and neighbours packets keep it |
| `Runs.PongTimedOut` | discovery/net.go:134-220 | pong timeouts keep it |
| `Runs.PingTimedOut` | discovery/net.go:170-171 | ping timeouts keep it |
| `Runs.NeighboursTimedOut` | discovery/net.go:557-566 | neighbours timeouts keep it |
| `Runs.RefreshInv` | discovery/net.go:612-631 | refreshing keeps it |
| `Runs.StepInv` | discovery/net.go:353-442 | every arm of the loop keeps the invariant |
| `Runs.RunInv` | discovery/net.go:346-461 | the invariant holds after every run |
| `Monotone.StepLater` | discovery/net.go:353-442 | every step only adds to channels, history and answers, unverifies nobody, and hears only the packet it received |
| `Theorems.VerifiedNodesAnswered` | discovery/net.go:513-545 | in every run a verified node other than us has answered an earlier ping of ours with its non-empty hash |
| `Theorems.TimersAgree` | discovery/net.go:121-176 | between steps timers are armed exactly as states and pending queries require |
| `Theorems.QueriesConserved` | discovery/net.go:698-796 | every submitted query is in exactly one place: answered, under way, or once in its node's line |
| `Theorems.RepliesAreSound` | discovery/net.go:774-796 | replies name interned nodes other than us; one value per answered query and channel |
| `Theorems.TableProvenance` | discovery/net.go:181-220 | stored nodes are interned, not us, verified or configured, and in the right bucket |
| `Theorems.NeighboursProvenance` | discovery/net.go:547-573 | every neighbours answer names only nodes that, before it was sent, were configured or had proved themselves |
| `Theorems.VerifiedForGood` | discovery/net.go:178-246 | once known, contested or unresponsive, always one of these |
| `Neighbours.MeetEffect` | discovery/net.go:780-829 | node for node of a packet: named in the answer exactly if it is not us, has a port above 1024, and has an object whose address it repeats or may change, or is or was acceptable; taken ones are not unknown any more, known ones are untouched, the others are as before |
| `Neighbours.AddressTaken` | discovery/net.go:798-829 | a taken node that is named once has the address named, in short form if it is new, or its own if they are equal, and if new is pinged there |
| `Neighbours.TakenArePinged` | discovery/net.go:787-789 | every new node that is taken is sent a ping |
| `Lifecycle.StateChangesExactly` | discovery/net.go:92-246 | in every run and for every step and node, the state afterwards: the next one by its own packet or timer, verifyinit if unknown and met, contested if known and the last node of a full bucket that a newcomer joins, else as before |
| `Lifecycle.KnownEffect` | discovery/net.go:181-191 | entering known resets failures, starts the next waiting query, inserts the node, and changes nobody else but the known node in the way, which becomes contested |
| `Lifecycle.AnswerEffect` | discovery/net.go:774-796 | an awaited neighbours packet meets its nodes, gives the answer to the one lookup, and moves the next waiting query up |
| `Effects.KnownJoins` | discovery/net.go:181-191 | in every run, a step that makes another node known puts it into bucket 0, in front or as newest replacement; in the second case the last node is contested afterwards if it was known; failures are zero and the first waiting query is under way |
| `Effects.JoinedPlace` | discovery/table.go:118-141 | joining means the first slot, or the last replacement of a bucket of sixteen others that keeps its slots |
| `Effects.ContestedIsPinged` | discovery/net.go:188-209 | in every run, a step that takes a known node with no ping outstanding to contested sends it a ping at its address |
| `Effects.TableStays` | discovery/net.go:92-246 | no step changes the table unless it makes another node known, is a pong timeout, or a refresh |
| `Effects.ContestedTimesOut` | discovery/net.go:218-220 | a contested node that misses its pong is unresponsive and out of the table, the newest replacement in front if there is room, and nothing else changes |
| `Effects.VerificationTimesOut` | discovery/net.go:95-108 | a node that misses its first pong is unknown with its record wiped, one slot freed, and each query that waited for it answered with nil |
| `Effects.NeighboursAnswer` | discovery/net.go:774-829 | in every run an awaited neighbours packet gives its lookup one value, with the ID of each node heeded and nil for each other one, gives no other lookup anything, and starts the next waiting query |
| `Effects.NeighbourMet` | discovery/net.go:780-829 | every other heeded node then has an object and is not unknown, having been pinged if it was; all others are as before |
| `Effects.NeighbourAddress` | discovery/net.go:798-829 | the address that a heeded node named once then has, and that its first ping goes there |
| `Effects.FindnodeAnswered` | discovery/net.go:547-573 | either request of a queryable node adds exactly one effect, an answer with the IDs in the slots of bucket 0 in order; that of any other node adds none; only the sender's address may change |
| `Effects.PingAnswered` | discovery/net.go:463-529 | every ping is answered with a pong that carries its hash to where it came from, and the node has that address and the ping's TCP port |
| `Effects.FirstPingReturned` | discovery/net.go:110-116 | the first ping of an unknown node is also answered with a ping, whose hash is remembered and timed |
| `Effects.WireForm` | discovery/udp.go:94-100 | the endpoint on the wire is the same address, IPv4 in 4 bytes, with the ports given |
| `Effects.EverySeedJoins` | discovery/net.go:612-631 | after its turn in a refresh every other seed has an object with its address, is not unknown, has been pinged if it was, and is in the table |
| `Effects.LocalQueryAnswered` | discovery/net.go:712-717 | a query to ourselves is answered at once, with exactly the nodes in the slots of bucket 0 in order |
| `Effects.RemoteQueryTaken` | discovery/net.go:698-728 | a query to another node is sent and under way if the node is free and queryable, else last in its line, and an unknown node is pinged |
| `Theorems.PendingAndFailures` | discovery/net.go:557-567 | queries are under way only with queryable nodes that were sent them; a known node has at most five failures |
| `Theorems.TimeoutLeavesLine` | discovery/net.go:557-567 | a neighbours timeout answers one query with nil, counts a failure, and leaves the line and the table as they were |
| `Waiting.ContestedTimerIff` | discovery/net.go:178-228 | in every run, a step that takes a known node to contested leaves its pong timer armed if and only if no older ping to it was outstanding |
| `Waiting.OnlyTimeoutsIdle` | discovery/net.go:353-442 | no step but its own neighbours timeout leaves a node queryable, free and with a line that was not so before |
| `Waiting.BecomesIdleIff` | discovery/net.go:557-567 | in every run a step makes a node idle with a line if and only if it is the node's neighbours timeout and others wait in line |
| `Waiting.WaitsForTimerOrIdle` | discovery/net.go:557-728 | an unanswered query at another node has an armed timer of that node, unless the node is idle with a line |
| `Theorems.PingAfterUnresponsive` | discovery/net.go:230-244 | an unresponsive node that pings us becomes known with its old ping outstanding |
| `Stuck.KnownCanGetStuck` | discovery/net.go:178-246 | every legal run that holds a node known extends to a legal run that ends with it contested and no pong timer armed |
| `Stuck.StuckIsReachable` | discovery/net.go:92-246 | for every other node there is such a run from the start |
| `Stuck.QueryableCanLeaveBehind` | discovery/net.go:557-796 | every legal run that holds a node queryable extends to one that ends with a query in line, the node idle, and none of its timers armed |
| `Stuck.LeftBehindIsReachable` | discovery/net.go:92-796 | for every other node there is such a run from the start |
| `Theorems.ClosestIgnoresTarget` | discovery/node.go:28-38 | with hashes never set all nodes share bucket 0 and closest ignores its target |
| `LookupSystem.BufferWithinOwed` | discovery/net.go:642-696 | a channel holds at most what it owes, and less while a query on it is open |
| `LookupSystem.AskKeeps` | discovery/net.go:655-662 | handing over a query keeps the books of all lookups |
| `LookupSystem.TakeReplyKeeps` | discovery/net.go:668-678 | so does taking a reply |
| `LookupSystem.ChannelActionsKeep` | discovery/net.go:679-683 | so does a timeout that resets the count and swaps the channel |
| `LookupSystem.AfterInv` | discovery/net.go:642-696 | the books are right after every interleaving |
| `LookupSystem.LoopNeverBlocks` | discovery/net.go:642-796 | no channel ever holds more than alpha values, every open query has room for its reply, and pending counts stay in 0..alpha |
| `LookupSystem.ChannelsGrowWithinSteps` | discovery/net.go:792-792 | a step only adds to channels, so the bound holds at every moment of it |
| `Lookup.Lookup.AskClosest` | discovery/net.go:654-661 | asks exactly the nearest entries not asked yet, in order, until alpha queries are pending |
| `Lookup.Lookup.Ask` | discovery/net.go:656-660 | one query and one more pending, unless the node was asked before |
| `Lookup.Lookup.Meet` | discovery/net.go:669-675 | a node with a new ID is pushed, others are skipped; a match exactly if it is new, the target, and to be stopped at |
| `Lookup.Lookup.MeetAll` | discovery/net.go:668-677 | the nodes of a reply in order, up to the first match if it is to stop at one |
| `Lookup.Lookup.React` | discovery/net.go:667-683 | a reply takes one off the pending count, a timeout clears it; the first match ends the lookup with the nodes up to it, if it is to stop at one |
| `Lookup.Lookup.Round` | discovery/net.go:652-683 | one round: ask, stop if nobody is left to answer, else take one reply or timeout; no match is passed by if it is to stop at one |
| `Lookup.Lookup.Run` | discovery/net.go:642-686 | terminates for every stream of reactions, with the history that the stream prescribes, in the first round without pending queries, or at the first new node that is the target if it is to stop there; the result is the nearest of self and all nodes named, all of them asked unless a match ended it |
| `Lookup.Perform` | discovery/net.go:642-686 | the same for callers: every reaction taken once and in order, the nearest unasked nodes asked in each round, no query pending at the end unless a match ended it, the first match ends it if it is to, at most sixteen results sorted by distance, all of them asked unless a match ended it, distinct results if no reply taken names us |
| `Lookup.HistoryTurns` | discovery/net.go:667-683 | the prescribed history takes each reaction once and in order |
| `Lookup.AddFreshCorrect` | discovery/net.go:669-672 | of a reply each new ID is kept once, nothing is invented or forgotten |
| `Lookup.PendingBounds` | discovery/net.go:655-664 | the pending count stays in 0..alpha |
| `Lookup.AskedOnce` | discovery/net.go:657-660 | no ID is asked twice |
| `Lookup.MovesAreActions` | discovery/net.go:642-696 | each move of a disciplined lookup is an action that the shared system can take, given an interned node to ask or a reply to take, and the system then mirrors the longer history |
| `Lookup.OwnMove` | discovery/net.go:642-696 | a lookup that asks only us and nodes named by its replies can always take its next move: those nodes are interned |
| `Lookup.OtherAction` | discovery/net.go:642-696 | no action of the loop or of other lookups disturbs that |
| `Interleaving.NeverHeldUp` | discovery/net.go:652-696 | whenever the lookup has a query to hand over, or a reply or timeout to take, it can, whatever the loop and other lookups have done |
| `Interleaving.GoneInv` | discovery/net.go:642-696 | in every interleaving the lookup is between what the contract prescribes before and after the asking of its round, the books of the system are right, and no reply taken names us |
| `Interleaving.TakesWhatComes` | discovery/net.go:667-683 | every reply at hand and every timeout is taken by some run with the same past: naming the reactions in advance leaves none out |
| `Interleaving.SameRound` | discovery/net.go:663-683 | a lookup that has ended has taken as many reactions as any outcome that the contract allows |
| `Interleaving.LookupAmongOthers` | discovery/net.go:642-696 | at its end, in every interleaving, the lookup has made exactly the moves of that outcome, the loop has been asked exactly its queries, and the nodes returned have different IDs |
| `Lookup.NearestDistinct` | discovery/net.go:756-772 | choosing from distinct nodes gives distinct nodes |
| `TwoPeers.WitnessedAfterStep` | discovery/net.go:833-845 | a pong accepted from the peer was sent by the peer |
| `TwoPeers.PingsIdentifiedAfterStep` | discovery/net.go:521-529 | the hash noted with a handled ping identifies the ping |
| `TwoPeers.PlayInv` | discovery/net.go:486-545 | both peers keep their invariants and the witness relation in every exchange |
| `Wire.AcceptedIsCollisionless` | discovery/udp.go:211-268 | with a collision-free hash function no accepted packet has the hash of another packet that a node signs and sends |
| `Wire.PingsHaveHashes` | discovery/udp.go:107-115 | pings that can be encoded and signed have non-empty hashes |
| `TwoPeers.VerifiedMeansHandshake` | discovery/net.go:513-545 | the echoed hash identifies the very ping that was sent |
| `TwoPeers.HandshakesAreReal` | discovery/net.go:513-545 | whenever one honest peer holds the other as verified, the other handled its ping and answered it with that ping's hash |
| `Packets.EncodePacket` | discovery/udp.go:211-229 | head space, type and body, then signature and prefix filled in: the frame and its hash, or the error |
| `Packets.DecodePacket` | discovery/udp.go:231-268 | the frame in the buffer, or the first thing wrong with it: size, prefix, signature, type, body |
| `Packets.RoundTrip` | discovery/udp.go:211-268 | what one end encodes the other decodes, with the same sender, body and hash |
| `Packets.AcceptedFrames` | discovery/udp.go:231-268 | exactly which buffers are accepted, and as what |
| `Packets.HashDeterminesPacket` | discovery/udp.go:247-249 | without collisions the hash of an accepted packet determines the packet |
| `Packets.SignerRecovered` | discovery/udp.go:270-284 | the recovered ID is the signer's |
| `Packets.SendPacket` | discovery/udp.go:144-156 | a hash is returned exactly when the packet could be encoded and signed |
| `Packets.SendNeighbours` | discovery/udp.go:117-127 | packets concatenate to the results, each holds 1..max nodes, and only the last may be short |
| `Packets.ChunkingUnique` | discovery/udp.go:117-127 | there is only one such chunking |
| `Packets.MaxNeighbors` | discovery/udp.go:195-209 | the loop stops at 12, the last size below 1280 bytes |
| `Packets.TwelveIsTheLimit` | discovery/udp.go:195-209 | all packets of n nodes fit if and only if n is at most 12, for every n |
| `Packets.ChunksFit` | discovery/udp.go:117-209 | every packet that sendNeighbours emits is below 1280 bytes |
| `Rlp.BigEndianSize` | discovery/udp.go:200-200 | minimal big-endian numbers have k bytes or fewer exactly below 256^k |
| `Rlp.MaxNodeSize` | discovery/udp.go:197-197 | the largest node takes 91 bytes |
| `Rlp.NeighborsSize` | discovery/udp.go:195-209 | no list of n nodes is longer than one of n largest nodes with the latest expiration, for every n that RLP can write |
| `IPTracker.IPTracker.constructor` | netutil/iptrack.go:50-59 | an empty log |
| `IPTracker.IPTracker.AddStatement` | netutil/iptrack.go:94-100 | logged and stored, with a collection when one is due; everything kept is newer than two windows |
| `IPTracker.IPTracker.AddContact` | netutil/iptrack.go:104-110 | logged and stored, with a collection when one is due; everything kept is newer than two windows |
| `IPTracker.IPTracker.GcStatements` | netutil/iptrack.go:112-120 | exactly the statements older than the window go |
| `IPTracker.IPTracker.GcContact` | netutil/iptrack.go:122-130 | exactly the contacts older than the window go |
| `IPTracker.IPTracker.PredictFullConeNAT` | netutil/iptrack.go:64-74 | answers as from the full log: some host spoke within the window without an earlier live contact |
| `IPTracker.IPTracker.FindUncontacted` | netutil/iptrack.go:68-73 | the walk over the map, in any order |
| `IPTracker.IPTracker.MostNamed` | netutil/iptrack.go:81-90 | the running maximum ends at an endpoint of maximal count that reaches the minimum, in any map order |
| `IPTracker.IPTracker.PredictEndpoint` | netutil/iptrack.go:77-91 | a prediction from the full log: maximal live votes, at least the minimum, or empty when none qualifies |
| `IPTracker.EmptyMeansNone` | netutil/iptrack.go:77-91 | without empty endpoints the empty answer means exactly that none qualifies |
| `IPTracker.IPTracker.CollectedStatements` | netutil/iptrack.go:112-120 | after a collection the map is the live part of the log |
| `DistinctNetSet.MaskIsOnes` | netutil/net.go:211-211 | the mask is k ones and then zeros |
| `DistinctNetSet.MaskedEqual` | netutil/net.go:212-212 | equal masked bytes mean equal top k bits |
| `DistinctNetSet.SameNetBytesIsSameBits` | netutil/net.go:209-216 | the byte comparison and the mask together compare exactly the first bits |
| `DistinctNetSet.KeyIsExact` | netutil/net.go:197-296 | for prefixes within the address: equal keys, SameNet, and equal family and leading bits are the same |
| `DistinctNetSet.KeyMeetsSameNet` | netutil/net.go:197-296 | for all prefixes: key equality and SameNet agree if and only if the prefix has no whole byte too many or the addresses differ |
| `DistinctNetSet.NetSet.Key` | netutil/net.go:272-296 | the key built in the buffer is family, prefix bytes and masked byte |
| `DistinctNetSet.NetSet.Add` | netutil/net.go:230-238 | added, and true, exactly below the limit |
| `DistinctNetSet.NetSet.Remove` | netutil/net.go:241-250 | one copy fewer, if there is one |
| `DistinctNetSet.NetSet.Contains` | netutil/net.go:253-257 | whether the subnet is tracked |
| `DistinctNetSet.NetSet.Len` | netutil/net.go:260-266 | the size of the multiset, summed in any order |
| `DistinctNetSet.AddAllCounts` | netutil/net.go:230-238 | after adding a list each subnet's count is min(limit, occurrences) |
| `DistinctNetSet.RemoveAllCounts` | netutil/net.go:241-250 | removing a list takes each subnet down by its occurrences, to zero at most |
| `DistinctNetSet.AddThenRemoveAll` | netutil/net.go:220-250 | removing any permutation of an added list leaves the set empty |
| `DistinctNetSet.CountsSameNet` | netutil/net.go:197-296 | a subnet is counted once per added address of the same network, up to the limit |
| `Addresses.SameIPIsCanon` | discovery/net.go:818-818 | two addresses are equal exactly when their shortest forms are |

## Left out

- Sockets, goroutines, real time and the read loop: packets arrive, timers fire and queries are submitted in
  any order; a timer can fire exactly while it is armed.
- Cryptography and RLP decoding are parameters; curve checks, relay checks (`CheckRelayIP`) and
  `validateComplete` are one accept-or-reject parameter.
- Integers are unbounded, except in the 32- and 64-bit arithmetic of the refresh target; ports, clock values
  and durations stay within their Go types in practice.
- Shutdown, `tableOpReq`, the gating of refreshes by `refreshDone`, logging and printing.
- `Node` pointers are IDs in the value-level model, and node fields read by the lookup goroutine (ID and hash)
  are immutable; `Network.Network.Valid` says that each ID has one object.
- Table slots hold an ID and a hash, which never change; that a slot points to the interned object follows
  from the one-object-per-ID rule and is not a separate field.
- `nodeAddedHook` is never set in the repository.
- `server.go`, `dial.go`, `main/`, enode URL parsing, netlists, TOML and the address lists behind `IsLAN` and
  `IsSpecialNetwork`: stubs, programs, library calls or tables.
- Network.Network.AnswerFindnode: records one neighbours answer per request; its division into packets is
  `Packets.SendNeighbours`.
- Lookup.Lookup.Run: replies come from an arbitrary stream instead of the channel; `Interleaving.dfy` makes the
  stream the one that the system of `LookupSystem.dfy` delivers. A reply with a match takes one off the pending
  count there, which nobody reads any more.
- LookupSystem.LoopNeverBlocks: a lookup is its channel, its pending count and the set of nodes it asked.
- TwoPeers.HandshakesAreReal: safety only; that an exchange completes depends on the network.
- Theorems.QueriesConserved: says where a query is, not that it is answered in the end, which the code does not
  ensure (`Stuck.LeftBehindIsReachable`).
- Theorems.TimersAgree: a contested node need not have a timer (`Waiting.ContestedTimerIff`).
- RefreshTarget.ChooseTarget: random words are parameters; uniformity is not modelled.
- Packets.ChunksFit: addresses of at most 16 bytes and ports of 16 bits, as the field types and `net.IP` allow.
- DistinctNetSet.NetSet.Key: the buffer is created with the set instead of on first use, and addresses have at
  most 16 bytes.
- DistinctNetSet.KeyIsExact: for addresses of 4 or 16 bytes; `SameNet` on other lengths can index out of range.
