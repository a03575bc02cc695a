# Random linear network coding, verified

A Dafny model of block propagation by random linear network coding: the elimination and
coding core, the two integrity schemes, the wire and block formats, the discrete-event
simulator, and the node actor. Everything is proved for all fields, all groups, all chunk
counts `N` and dimensions `m`, all graphs and all runs.

## How it is organised

| files | what they model |
|---|---|
| `Algebra`, `Span`, `Distinct` | fields and vector spaces by their laws, linear combinations (also multi-scalar multiplication), spans and independence |
| `Linalg`, `Echelon`, `Rank`, `IncrementalEchelon` | elimination in arrival order, the transformation matrix, rank, inversion; the class `IncrementalEchelon` |
| `Coding`, `Integrity`, `Bfkw`, `Pedersen` | coded chunks, the class `BlockDecoder`, receive and forward, and the two proof schemes |
| `Network`, `EndToEnd` | any number of nodes exchanging packets of one block in any way, and the block each rebuilds |
| `Strategy`, `Topology`, `Engine`, `Flooding`, `Traffic`, `Simulation`, `CodedSimulation` | the simulator: random meshes, the event loop and its runs, what packets and bytes are counted for, baseline and coded strategies |
| `ActorModel`, `ActorProofs`, `ActorSoundness`, `ActorProgress`, `ActorOrder`, `Actor` | the node actor: specification, invariants over all runs, how far a run gets, in which order it takes messages in, and the class `NodeActor` |
| `Wire`, `Block`, `BfkwNode` | byte formats and the class `BfkwProtocol` |
| `Chain`, `ChainProgress`, `ChainNetwork` | a chain of blocks through one BFKW node, and through any network of them: what is decoded, and how much |
| `Tower`, `Instances` | models of the assumed laws, one by one and all together over a field of `2^256` elements, so they are consistent |

Code that updates its fields in place is a class or a method with loops whose contract
equates the new state with a specification function; the lemmas are about those functions.
Fields, groups, pairings, library codecs, strategies and protocols are records of functions
with a predicate for their laws, so each theorem holds for every instance. Random draws
(coefficients, shuffles, mixing) and ties in the event heap are arbitrary inputs, so
theorems hold for every outcome.

Pivots are kept in order of arrival and never sorted, as the code does; `docs/book.md`
sections A.4 to A.6 describe a staircase variant.

## Findings

Promises that hold only under a condition; each is proved exact.

- **Announced lengths.** Announcements are not signed: `crates/node/src/bfkw.rs` lines 138
  to 157 accept any eight bytes as the block's length, and `crates/node/src/actor.rs` lines
  422 to 424 ignore every later announcement. A completed block decodes if and only if the
  first accepted length lies between that of its encoding and `31·N·m`; otherwise `decode`
  panics (`Chain.SoundDecodes`, `Chain.ChainDecoded`). That is the first announcement received
  for the block with at least eight bytes, whether it came in time or waited in the buffer
  (`ActorOrder.RunServes`), so a node halts if and only if a block is delivered whose first such
  announcement is out of range (`ChainProgress.HaltsExactly`). A node whose first message
  announces such a length for block 0 never decodes anything (`Chain.BadLengthStops`). A wrong
  block is never decoded, whatever is announced.
- **Block size.** A block round-trips if and only if its transactions are at most 16 MiB
  (`Block.ChunkRoundTrip`).
- **BFKW packets** survive the wire if and only if the signature is not the group identity,
  because their proof reader does not go through `read_group` (`Wire.BfkwPacketRoundTrip`).
- **Pedersen packets** survive it if and only if they carry at most 1024 commitments and a
  signature its own reader accepts (`Wire.PedersenPacketRoundTrip`).
- **`UntilDecode`.** The simulator forwards on the packet that completes a node
  (`crates/sim/src/engine.rs` line 167), the actor does not (`crates/node/src/actor.rs` line
  434); both are modelled as coded, so batches are `1 + useful` there and `N − 1` here.

`Chain` and `ChainNetwork` take unforgeability as their premise: data that verifies for
block `k` is a combination of block `k`'s chunks. Other data may be anything, and so may
announcements. What proposers and forwarding nodes send is shown to meet the premise.

## Model

| member | source | states |
|---|---|---|
| `Network.Agreement` | crates/primitives/types/src/coding.rs:156-235 | in every reachable world of any network, every packet ever sent verifies, proofs match stored chunks one to one, and for a node with `n` chunks a list of chunks solves what it stored if and only if it is the proposer's list |
| `Network.ReachableHonest` | crates/strategy/core/src/helpers.rs:23-71 | after any sequence of proposals, deliveries (any order, repeated, lost) and re-encodings with any coefficients, every stored and in-flight chunk satisfies `w = Σ b_i·v_i` and is genuine under the scheme |
| `Network.ReceiveHonest` | crates/strategy/core/src/helpers.rs:23-42 | an honest packet is never rejected, and receiving it keeps the store honest |
| `Network.RecodeHonest` | crates/strategy/core/src/helpers.rs:51-71 | whatever the mixing coefficients, an honest store forwards an honest packet |
| `Network.StoreKeepsInbox` | crates/strategy/core/src/helpers.rs:23-42 | a node holds exactly those deliveries that were outside the span of the earlier ones when they came |
| `Network.CompleteIffSpans` | crates/primitives/types/src/coding.rs:156-178 | a node can decode if and only if the coefficient vectors delivered to it span the whole space |
| `Network.CanComplete` | crates/primitives/types/src/coding.rs:156-178 | no reachable world is a dead end: whatever has happened, further proposals and deliveries complete any node |
| `Network.ProgressFromSpan` | crates/primitives/types/src/coding.rs:156-178 | two nodes whose deliveries span the same space have equal rank, whatever the order and multiplicity of arrival |
| `EndToEnd.BlockDelivered` | crates/primitives/types/src/block.rs:168-252 | in every reachable world, a complete node rebuilds exactly the proposed block from whatever its decoder returns |
| `EndToEnd.BfkwDelivers` | crates/strategy/bfkw/src/bfkw.rs:141-306 | the same for BFKW with the configured chunk dimension, for every block within the size limit |
| `EndToEnd.PedersenDelivers` | crates/strategy/pedersen/src/pedersen.rs:178-257 | the same for Pedersen commitments |
| `ChainNetwork.NetworkDecodesChain` | crates/node/src/actor.rs:316-530 | in every reachable network of BFKW actors and a proposer, whatever is lost, repeated, reordered, delayed or injected short of forged data, each node's `i`-th decoding is of block `i` and gives exactly the chain's block, unless the one announcement that opened the block there carried a length out of range: then, and only then, the node has halted |
| `ChainNetwork.OrderlyNetworkAgrees` | crates/node/src/actor.rs:316-530 | when nobody announces a useless length no node ever halts, and every block any node decodes is the proposer's |
| `ChainNetwork.NetworkProgress` | crates/node/src/actor.rs:316-530 | in every history each node decodes exactly the blocks before the first one that was not both delivered to it and served by the first announcement it received of it, and halts exactly if that one was delivered, so never when lengths are in range; delivered means an announcement of at least eight bytes and data that parses, verifies and brings vectors spanning the whole space, served means that the first such announcement carries a length in range |
| `ChainNetwork.NodeIsRun` | crates/node/src/actor.rs:233-308 | a node of the network is exactly what a run on the messages delivered to it makes of it |
| `ChainNetwork.NodeNext` | crates/node/src/actor.rs:316-530 | a delivery routes the message at its node and touches no other; anything else a party does puts its message on the wire, from which nothing is ever taken |
| `ChainProgress.ChainComplete` | crates/node/src/actor.rs:316-530 | a node fed announcements in range and unforged data, in any order and with any repetition, decodes exactly the blocks before the first one not delivered to it, each to the chain's block, and never halts |
| `ChainProgress.OrderIrrelevant` | crates/node/src/actor.rs:316-530 | the number of blocks decoded depends only on which messages were received: not on their order or repetition, and more messages never lower it |
| `ChainProgress.HaltsExactly` | crates/node/src/actor.rs:316-530 | what was received decides a run with any announcements and any unforged data: a node decodes exactly the blocks before the first one that was not both delivered and served by the first announcement received of at least eight bytes, buffered ones included; it halts if and only if that one was delivered |
| `ChainProgress.OpenedServes` | crates/node/src/actor.rs:316-530 | the announcement that decided a decode call is the first one received of its block that is at least eight bytes long |
| `ActorOrder.RunServes` | crates/node/src/actor.rs:316-530 | for any conforming protocol, over any run: whatever opened a block is the first announcement received that opens it, and what was fed for it is a prefix of the data received for it in the order received, all of it while the block is decoded and the shortest prefix that completes it once it is over |
| `ActorOrder.RunInTurn` | crates/node/src/actor.rs:316-530 | over any run of any protocol, the messages of one block on one channel that were consumed, then those buffered, then those a panic left queued, are those received, in the order received |
| `ActorOrder.DrainInTurn` | crates/node/src/actor.rs:347-529 | the work loop keeps that order although it refills its own queue |
| `ChainProgress.BfkwDecodedExactly` | crates/node/src/actor.rs:316-530 | the same count for any messages at all, forged ones included; a node halts only on a block that was delivered |
| `ChainProgress.BfkwKeeps` | crates/node/src/bfkw.rs:136-196 | the BFKW state holds what is news among the vectors its payloads brought, and is complete exactly when they span, whatever their order or repetition |
| `ActorProgress.DecodedExactly` | crates/node/src/actor.rs:316-530 | for any conforming protocol: a run that does not halt decodes every block its messages supply up to the first one they do not; a run that halts stops on a supplied block |
| `ActorProgress.ProgressMonotone` | crates/node/src/actor.rs:316-530 | of two runs that do not halt, the one that received every message the other did has decoded at least as much |
| `ActorProgress.NodeDecoded` | crates/node/src/actor.rs:316-530 | a running actor has fed its protocol all data received for its block, and awaits an announcement only if none that opens the block was received |
| `ChainNetwork.ReachableOk` | crates/node/src/actor.rs:316-530 | in every reachable network all nodes keep the actor's invariants and the soundness of their states, and nothing on the wire is forged |
| `ChainNetwork.HistoryExists` | crates/node/src/actor.rs:316-530 | every sequence of steps has a history, so the statements about histories are about all of them |
| `ChainNetwork.ForwardUnforged` | crates/node/src/bfkw.rs:178-182 | whenever a run re-encodes, the state it does so from holds a chunk, and the bytes sent are unforged |
| `ChainNetwork.ProposedUnforged` | crates/node/src/bfkw.rs:78-134 | the bytes `propose` sends for a block are combinations of its chunks |
| `ChainNetwork.AnnouncementOrderly` | crates/node/src/bfkw.rs:127-133 | the length `propose` announces is in range |
| `Chain.ChainDecoded` | crates/node/src/actor.rs:316-530 | a BFKW node fed any announcements and any unforged data, in any order: the `i`-th decode call is for block `i`, which exactly one announcement opened; it yields exactly the chain's block if and only if that announcement's length is in range, and panics otherwise, which is the only way the node halts |
| `Chain.SoundDecodes` | crates/node/src/bfkw.rs:184-189 | a complete state on the way to block `k` decodes to block `k` if the accepted length is between that of the encoding and all the bytes the chunks hold, and panics otherwise |
| `Chain.BadLengthStops` | crates/node/src/bfkw.rs:138-157 | a node whose first message announces block 0 with a length out of range never decodes anything, whatever announcements and data follow |
| `Chain.OrderlyNeverHalts` | crates/node/src/actor.rs:470-474 | with lengths in range a node never halts |
| `Chain.BfkwUpholds` | crates/node/src/bfkw.rs:136-172 | announcements and unforged data keep a state on the way to its block, and only the opening announcement sets its length |
| `EchelonTracker.IncrementalEchelon.AddRow` | crates/primitives/math/src/echelon.rs:50-97 | returns true if and only if the row is outside the span of the accepted rows; on false nothing changes, on true the row joins them; the new form is the one `OffersRepresent` speaks of |
| `Echelon.InsertDecides` | crates/primitives/math/src/echelon.rs:63-80 | reduction in arrival order finds a row dependent exactly when it is a combination of the accepted rows |
| `Echelon.InsertRepresents` | crates/primitives/math/src/echelon.rs:63-96 | insertion keeps the arrival-order invariant: unit pivots, zeros in later rows at earlier pivots, `transform·accepted == echelon`, same span, independence |
| `Echelon.ReducedZeroIffInSpan` | crates/primitives/math/src/echelon.rs:63-78 | the reduced row vanishes if and only if the row lies in the span of the stored rows |
| `Echelon.RowsSpanInputs` | crates/primitives/math/src/echelon.rs:82-96 | stored rows and accepted inputs span the same space |
| `EchelonTracker.ReduceArrival` | crates/primitives/math/src/echelon.rs:55-78 | the in-place reduction of row and transformation row is the specified one |
| `EchelonTracker.FindPivot` | crates/primitives/math/src/echelon.rs:80-84 | finds the first non-zero column |
| `EchelonTracker.IncrementalEchelon.Rank` | crates/primitives/math/src/echelon.rs:100-102 | the rank is the number of accepted rows and never exceeds `n` |
| `EchelonTracker.IncrementalEchelon.IsFull` | crates/primitives/math/src/echelon.rs:105-107 | full exactly when `n` rows were accepted |
| `EchelonTracker.IncrementalEchelon.Inverse` | crates/primitives/math/src/echelon.rs:116-154 | `inverse·B == I` and `B·inverse == I`, `B` being the accepted rows in acceptance order, for every arrival order of pivots |
| `EchelonTracker.BackSubstitute` | crates/primitives/math/src/echelon.rs:124-141 | clears every entry outside the pivots, last arrival first, while each row keeps standing for its combination of inputs |
| `EchelonTracker.PlaceByPivot` | crates/primitives/math/src/echelon.rs:143-153 | permuting the transformation rows by pivot gives the two-sided inverse |
| `EchelonTracker.IncrementalEchelon.Reset` | crates/primitives/math/src/echelon.rs:157-162 | back to the empty form |
| `EchelonTracker.IncrementalEchelon.constructor` | crates/primitives/math/src/echelon.rs:35-44 | starts valid, with nothing accepted |
| `Rank.RankDependsOnSpan` | crates/primitives/math/src/echelon.rs:50-107 | two insertion sequences spanning the same space accept equally many rows, at most `n` |
| `Rank.RankIgnoresOrder` | crates/primitives/math/src/echelon.rs:50-107 | any permutation of the same rows gives the same rank |
| `Rank.RankFromSpan` | crates/primitives/math/src/echelon.rs:82-107 | echelon forms of inputs with the same span have the same set of pivots |
| `Rank.PivotInSpan` | crates/primitives/math/src/echelon.rs:82-96 | a vector of the span starts at one of the pivots: the exchange argument |
| `Rank.FullRankReduces` | crates/primitives/math/src/echelon.rs:50-80 | at full rank every row reduces to zero |
| `Rank.SpanningIsFull` | crates/primitives/math/src/echelon.rs:104-107 | rows that span every unit vector have full rank |
| `Rank.OffersRepresent` | crates/primitives/math/src/echelon.rs:50-97 | the form that a whole sequence of insertions builds is the echelon form of exactly those rows that were outside the span of the earlier ones |
| `Rank.LeftInverseIsInverse` | crates/primitives/math/src/echelon.rs:109-116 | for independent rows a left inverse is also a right inverse |
| `Algebra.LinOfLin` | crates/primitives/math/src/linalg.rs:20-36 | combining combinations is one combination with the mixed coefficients: the identity behind re-encoding, decoding and proof mixing |
| `Linalg.LinearCombination` | crates/primitives/math/src/linalg.rs:20-36 | the nested accumulation computes `Σ c_i·v_i` |
| `Linalg.Reencode` | crates/primitives/math/src/linalg.rs:68-76 | data and coefficients are combined with the same alphas |
| `Coding.BlockDecoder.Add` | crates/primitives/types/src/coding.rs:156-166 | keeps the chunk, in order, if and only if its coefficients are independent of those collected, also at full rank; the tracker then holds the form of one more offer |
| `Coding.BlockDecoder.Decode` | crates/primitives/types/src/coding.rs:189-204 | the result explains every collected chunk (`B·V == W`) and is the only one that does |
| `Coding.BlockDecoder.ReencodeWith` | crates/primitives/types/src/coding.rs:217-235 | one combination of data and coefficients with the same alphas |
| `Coding.BlockDecoder.Rank` | crates/primitives/types/src/coding.rs:169-171 | the rank is the number of chunks held and never exceeds `n` |
| `Coding.BlockDecoder.IsComplete` | crates/primitives/types/src/coding.rs:175-177 | complete exactly with `n` chunks |
| `Coding.BlockDecoder.Reset` | crates/primitives/types/src/coding.rs:261-264 | back to the empty decoder |
| `Coding.SolutionUnique` | crates/primitives/types/src/coding.rs:189-204 | a complete store has at most one solution |
| `Coding.MixExplained` | crates/primitives/types/src/coding.rs:217-235 | re-encoding explained chunks, with any coefficients, gives an explained chunk of the same shape |
| `Coding.MixNotNew` | crates/primitives/types/src/coding.rs:156-166 | a node rejects anything it could itself re-encode |
| `Coding.InverseSolves` | crates/primitives/types/src/coding.rs:189-204 | applying the inverse to the payloads solves the system |
| `Integrity.CodedReceive` | crates/strategy/core/src/helpers.rs:23-42 | rejected with the scheme's error if and only if verification fails, redundant if it passes and the coefficients are spanned, useful otherwise; chunk and proof are appended together when useful and nothing changes otherwise |
| `Integrity.CodedForward` | crates/strategy/core/src/helpers.rs:51-71 | one packet per peer, each mixing data, coefficients and proofs with the same draw |
| `Bfkw.Pairing.CheckIff` | crates/strategy/bfkw/src/pairing.rs:33-65 | for a well-formed key the pairing equation holds if and only if `σ == sk·P` |
| `Bfkw.VerifyIff` | crates/strategy/bfkw/src/bfkw.rs:141-163 | a chunk of any shape verifies if and only if its shape fits the hash points and `σ == sk·MSM(H, [w ‖ b])` |
| `Bfkw.DigestParts` | crates/strategy/bfkw/src/bfkw.rs:141-163 | the first `m` hash points go with the data and the others with the coefficients; an original chunk adds the hash point of its index |
| `Bfkw.SignCodedSigned` | crates/strategy/bfkw/src/bfkw.rs:237-306 | signing every chunk and combining with `b` gives `sk·MSM(H, [Σ b_i·v_i ‖ b])` |
| `Bfkw.MixVerifies` | crates/strategy/bfkw/src/bfkw.rs:141-174 | if every stored chunk verifies, so does every re-encoding with proofs combined by the same alphas |
| `Bfkw.OneBadSpoils` | crates/strategy/bfkw/src/bfkw.rs:141-174 | with one chunk of non-zero coefficient in doubt and the others verifying, the mix verifies if and only if that chunk does |
| `Bfkw.BfkwMixSafe` | crates/strategy/bfkw/src/bfkw.rs:141-174 | packets signed under the proposer's key verify and are closed under mixing |
| `CodedSimulation.BfkwIsSetting` | crates/strategy/bfkw/src/bfkw.rs:141-306 | BFKW meets everything the network theorems ask of a scheme |
| `Pedersen.MixMatches` | crates/strategy/pedersen/src/commitment.rs:57-81 | `MSM(G, w) == MSM(C, b)` survives every re-encoding |
| `Pedersen.EncodedMatches` | crates/strategy/pedersen/src/commitment.rs:57-81 | every chunk encoded from the committed block satisfies the equation |
| `Pedersen.VerifyIff` | crates/strategy/pedersen/src/pedersen.rs:178-198 | over the commitments of a block, `InvalidSignature` is answered if and only if the signature does not verify, and a chunk passes if and only if the signature verifies, its shape fits and `MSM(G, w) == MSM(G, Σ b_i·v_i)`; it is a mismatch otherwise |
| `Pedersen.OneBadSpoils` | crates/strategy/pedersen/src/pedersen.rs:178-206 | with one chunk of non-zero coefficient in doubt and the others verifying under the same proof, the mix verifies if and only if that chunk does |
| `Pedersen.MixVerifies` | crates/strategy/pedersen/src/pedersen.rs:178-206 | with one signed commitment vector in every stored proof, the cloned first proof verifies every re-encoding |
| `Pedersen.PedersenMixSafe` | crates/strategy/pedersen/src/pedersen.rs:178-257 | packets of one signed block verify and are closed under mixing |
| `CodedSimulation.PedersenIsSetting` | crates/strategy/pedersen/src/pedersen.rs:178-257 | Pedersen meets everything the network theorems ask of a scheme |
| `Topology.RandomMesh` | crates/sim/src/topology.rs:32-68 | for every outcome of the shuffles each node has exactly `degree` distinct peers other than itself and every node is reachable from node 0; its peers are the next node on the shuffled path, then the first of its shuffled candidates, and the slice is in bounds |
| `Topology.LayPath` | crates/sim/src/topology.rs:41-49 | phase 1 lays a Hamiltonian path: each node's one peer is the node after it, the last has none |
| `Topology.CandidatesSuffice` | crates/sim/src/topology.rs:53-65 | there are exactly `n - 1 - |peers|` candidates, enough for the remaining slots |
| `Topology.FilledOk` | crates/sim/src/topology.rs:57-65 | extending by a prefix of any shuffle of the candidates keeps peers distinct and off the node itself |
| `Topology.AllReached` | crates/sim/src/topology.rs:41-49 | a graph containing the path reaches every node |
| `Simulation.RunReports` | crates/sim/src/engine.rs:114-252 | every run, whatever the mesh, the draws and the order of simultaneous events: at most `degree·(1 + N·(n−1))` events are popped, in order of time; at no point has a node decoded before its hop distance times what the fastest packet takes, nor one that cannot be reached; once the queue is empty bytes are conserved, packet counts are exact per forwarding condition, `useful + redundant` is the number of events that found their node undecoded and `useful` the number of those it found useful, every packet sent was popped, and nodes are marked decoded exactly at full rank |
| `Simulation.RunCounts` | crates/sim/src/engine.rs:133-160 | at any point of any run, `useful` counts the events whose node had not decoded and found the packet useful, and `useful + redundant` those whose node had not decoded: a packet for a decoded node counts as neither |
| `Simulation.RunCarries` | crates/sim/src/engine.rs:172-192 | with packets of one size, at any point of any run each node has uploaded `degree` packets per batch it sent and downloaded one per batch of every node it is a peer of |
| `Simulation.EagerEnds` | crates/sim/src/engine.rs:114-252 | under full-block forwarding no packet is ever redundant in the simulator's sense |
| `Simulation.RunFinishes` | crates/sim/src/engine.rs:133-203 | every run can be taken to its end |
| `Simulation.RunHolds` | crates/sim/src/engine.rs:133-203 | every state of every run keeps the invariants and each popped event uses up room, which is why the loop terminates |
| `Simulation.Run` | crates/sim/src/engine.rs:78-209 | lays out a random mesh, on which every node is reachable, performs one of the runs `RunReports` is about and reports its last state |
| `Simulation.Propagate` | crates/sim/src/engine.rs:114-209 | the loop performs one of the runs `RunReports` is about and reports its last state |
| `Simulation.Process` | crates/sim/src/engine.rs:133-203 | one iteration in place is the specified one, whose counters `Traffic.DeliverCounts` and whose effect `Engine.DeliverProcessed` fix |
| `Traffic.DeliverCounts` | crates/sim/src/engine.rs:133-160 | an event adds to `useful` if its node had not decoded and finds the packet useful, to `redundant` if its node had not decoded and does not, and to neither if it had |
| `Traffic.DeliverCarries` | crates/sim/src/engine.rs:172-192 | an iteration keeps every node's upload at `degree` packets per batch it sent and its download at one per batch of each node it is a peer of |
| `Simulation.SendBatch` | crates/sim/src/engine.rs:117-130 | a batch in place is the specified one |
| `Simulation.BaselineRun` | crates/strategy/baseline/src/lib.rs:31-84 | on every mesh all nodes end with the proposer's bytes, decoded at `distance · delay`; no packet counts as redundant; each node uploads `degree` copies and downloads one per node it is a peer of; and the bytes sent are exactly `degree` times the useful bytes |
| `Simulation.RedundancyIsDegree` | crates/sim/src/engine.rs:205-214 | under `AfterDecode` with packets of one size, bytes sent are `degree` times size times decoded nodes |
| `Simulation.EveryoneDecodes` | crates/sim/src/engine.rs:133-203 | with one-packet strategies every reachable node decodes |
| `Simulation.FinalReport` | crates/sim/src/engine.rs:205-252 | what an exhausted queue says: bytes sent equal bytes received, `total == degree·(1 + useful)` under `UntilDecode`, `useful <= N·(n−1)` |
| `Engine.DeliverKeeps` | crates/sim/src/engine.rs:133-203 | every iteration keeps shapes, accounting, batches of `degree` and the clock: popped times never decrease |
| `Engine.DeliverProgress` | crates/sim/src/engine.rs:133-203 | queue length plus `degree` times the missing rank strictly drops and stays non-negative, under all three forwarding conditions |
| `Engine.DeliverProcessed` | crates/sim/src/engine.rs:141-203 | only a useful packet raises rank, completes a node or is forwarded, and a forwarded batch is the `degree` packets that the strategy makes of the new state and the draw |
| `Engine.UsefulBounded` | crates/sim/src/engine.rs:145-149 | useful packets never exceed `N·(n−1)` |
| `Engine.SendAllBytes` | crates/sim/src/engine.rs:172-192 | a batch adds the same bytes to uploads and downloads |
| `Engine.SendAllQueue` | crates/sim/src/engine.rs:172-192 | a batch adds exactly its own arrivals and touches no node state |
| `Flooding.DeliverPaced` | crates/sim/src/engine.rs:133-203 | for every strategy, every decode time and queued arrival leaves time for a walk from node 0 at what the fastest packet takes per hop |
| `Flooding.NotBefore` | crates/sim/src/engine.rs:133-203 | so no node decodes before its hop distance times that |
| `Flooding.DeliverFloods` | crates/sim/src/engine.rs:133-203 | with full-block forwarding every peer of a decoded node has decoded or is due one delay later |
| `Flooding.DecodedAtDistance` | crates/sim/src/engine.rs:133-203 | when the queue is empty, a node at hop distance `h` has decoded at `h · delay` |
| `Flooding.BaselineLawful` | crates/strategy/baseline/src/lib.rs:31-84 | the baseline strategy meets the engine's expectations with rank bound one |
| `CodedSimulation.CodedRun` | crates/strategy/bfkw/src/strategy.rs:65-163 | every run of a coded strategy: at most `degree·(1 + n·(nodes−1))` events, in order of time; no node decodes before its hop distance times what the fastest honest packet takes; at its end bytes are conserved, `total == degree·(1 + useful)`, `redundant` is the number of packets that found their coefficients spanned at an undecoded node, a node is marked decoded exactly when it holds `n` chunks with a proof each, and then the proposer's chunks are the one solution of what it holds |
| `CodedSimulation.CodedRedundant` | crates/strategy/bfkw/src/strategy.rs:65-163 | redundant packets of a finished coded run are exactly those whose coefficients an undecoded node already spanned |
| `CodedSimulation.CodedRunExists` | crates/strategy/bfkw/src/strategy.rs:65-163 | such runs exist for every mesh, every draw and every proposer state |
| `CodedSimulation.BfkwRun` | crates/strategy/bfkw/src/strategy.rs:65-163 | that, for BFKW, with bytes sent equal to the packet size times `degree·(1 + useful)`, each node's bytes following from the ranks of the nodes, and no node decoded before hop distance times the delay of a packet |
| `CodedSimulation.PedersenRun` | crates/strategy/pedersen/src/strategy.rs:74-162 | the same for Pedersen commitments |
| `CodedSimulation.CodedLawful` | crates/strategy/bfkw/src/strategy.rs:117-153 | the coded strategies meet what the engine expects: rank bounded by `n`, up by one exactly on useful packets, decoding exactly at `n`, one honest packet per peer |
| `ActorProofs.RunConserves` | crates/node/src/actor.rs:316-530 | over any messages and any protocol, the messages received, all of them unless it halts, are exactly those logged, those buffered and, after a panic, those left in the work queue; nothing is buffered that the current state could have taken |
| `ActorProofs.RunKeeps` | crates/node/src/actor.rs:233-530 | over any run, up to a panic in `decode` if there is one: blocks decoded are 0, 1, 2, …, each once, each opened by exactly one announcement, each from exactly `N` useful packets and with its quota of re-encoded batches (`N−1` under `UntilDecode`, one otherwise); the `i`-th decode call is for block `i` and all but the last succeeded; no call hands data to an unarmed or full protocol, re-encodes at rank zero or decodes below full rank |
| `ActorProofs.DrainKeeps` | crates/node/src/actor.rs:347-529 | the work loop keeps all of that across block transitions |
| `ActorProofs.DrainConserves` | crates/node/src/actor.rs:347-529 | the work loop loses and duplicates nothing |
| `ActorProofs.RouteConserves` | crates/node/src/actor.rs:316-530 | routing one message adds exactly that message to what is logged, buffered or left by a panic |
| `ActorProofs.HandleTidy` | crates/node/src/actor.rs:347-420 | key `n` is absent while decoding `n`, holds only data while awaiting `n`, and no key is below `n`: so the data-only filter discards no announcement |
| `ActorProofs.DecideJudged` | crates/node/src/actor.rs:347-520 | how one message moves phase, rank, the forwarded flag, the batch quota and the calls together, under all three forwarding conditions, when decoding succeeds and when it panics |
| `ActorProofs.CallsKept` | crates/node/src/actor.rs:425-511 | one message adds only calls the protocol can answer, and decode calls in order of blocks |
| `ActorModel.HandleShrinks` | crates/node/src/actor.rs:347-529 | messages in work plus buffer never grow, and when they do not drop nothing was refilled: why the self-refilling loop terminates |
| `ActorSoundness.RunSound` | crates/node/src/actor.rs:316-530 | any per-block soundness that honest messages preserve holds of every state in which a run takes in data, re-encodes or decodes, for the one announcement that opened the block |
| `ActorSoundness.RouteSound` | crates/node/src/actor.rs:316-530 | and one received message carries it through buffering, draining and resets |
| `Actor.NodeActor.Turn` | crates/node/src/actor.rs:347-529 | one turn of the loop in place is the specified one, queue and log included |
| `Actor.NodeActor.TakeData` | crates/node/src/actor.rs:425-528 | data of the block being decoded is ingested, and useful data acted on |
| `Actor.NodeActor.Proceed` | crates/node/src/actor.rs:428-511 | useful data: the forwarding decision, then on completion `decode`, whose panic halts the actor, and the move to the next block |
| `Actor.NodeActor.NextBlock` | crates/node/src/actor.rs:485-508 | reset, and refill from the next block's buffer, announcements first |
| `Actor.NodeActor.TakeAnnouncement` | crates/node/src/actor.rs:357-420 | an accepted announcement starts decoding and queues the buffered data |
| `Actor.NodeActor.Route` | crates/node/src/actor.rs:316-530 | routing in place is the specified one, and terminates |
| `Actor.NodeActor.RunReceiver` | crates/node/src/actor.rs:233-308 | the actor ends in the state reached by the messages received; it stops only with enough blocks, a closed channel or a panic, and it received no message when it had enough blocks or had halted |
| `Actor.QueueNext` | crates/node/src/actor.rs:490-507 | queues announcements first, then data, each in order |
| `Actor.QueueData` | crates/node/src/actor.rs:391-402 | queues the buffered data in order |
| `BfkwNode.BfkwConforms` | crates/node/src/bfkw.rs:136-196 | the BFKW protocol discharges what the actor relies on: proofs one per chunk, rank up by one exactly on useful data, complete exactly at `n`, reset to rank zero |
| `BfkwNode.ProposedAbsorbed` | crates/node/src/bfkw.rs:78-172 | a proposer's packet is read back, verifies and is kept exactly when its coefficients are news; it is refused, and then nothing changes, only when the key takes its digest to the group identity |
| `BfkwNode.DataJudgedBySignature` | crates/node/src/bfkw.rs:154-172 | any bytes on the data channel: refused before an announcement and when they do not parse; a parsed packet is rejected if and only if `σ != sk·MSM(H, [w ‖ b])`, and otherwise redundant exactly when its coefficients are spanned; only a useful one changes the state, by its chunk and its signature |
| `BfkwNode.BfkwProtocol.Ingest` | crates/node/src/bfkw.rs:136-172 | ingesting in place is the specified one, error by error, which `BfkwNode.DataJudgedBySignature` decides |
| `BfkwNode.BfkwProtocol.TakePacket` | crates/node/src/bfkw.rs:161-170 | a parsed packet goes through verification into decoder and proofs together |
| `BfkwNode.BfkwProtocol.Recode` | crates/node/src/bfkw.rs:178-182 | one serialized re-encoding per target |
| `BfkwNode.BfkwProtocol.Decode` | crates/node/src/bfkw.rs:184-189 | rebuilds the block, or panics, from the only chunks that explain the store |
| `BfkwNode.BfkwProtocol.Reset` | crates/node/src/bfkw.rs:191-196 | back to the fresh state |
| `BfkwNode.BfkwProtocol.Propose` | crates/node/src/bfkw.rs:78-134 | announces the length, signs one coded chunk per target, and leaves the proposer with every original chunk, its signature and the context of the signer's own key |
| `BfkwNode.BfkwProtocol.IsComplete` | crates/node/src/bfkw.rs:174-176 | complete exactly with `n` chunks |
| `BfkwNode.BfkwProtocol.constructor` | crates/node/src/bfkw.rs:51-61 | starts fresh |
| `BfkwNode.OriginalKept` | crates/node/src/bfkw.rs:110-121 | no original chunk is refused by the proposer's own decoder |
| `BfkwNode.LoadOriginals` | crates/node/src/bfkw.rs:110-124 | the proposer's decoder and proofs end with all originals |
| `BfkwNode.ProposerSigned` | crates/node/src/bfkw.rs:110-124 | everything the proposer holds carries its signature, and the block's chunks are the one solution of what it holds |
| `Wire.PacketRoundTrip` | crates/strategy/core/src/proof.rs:172-206 | data and coefficients always come back, zero scalars included, so a packet comes back with whatever its proof is read as |
| `Wire.BfkwPacketRoundTrip` | crates/strategy/bfkw/src/bfkw.rs:62-79 | BFKW packets have the announced size and come back if and only if the signature is not the identity; otherwise the reader fails |
| `Wire.PedersenPacketRoundTrip` | crates/strategy/pedersen/src/pedersen.rs:84-116 | Pedersen packets have the announced size and come back if and only if they carry at most 1024 commitments and a signature its own reader accepts |
| `Wire.PacketSize` | crates/strategy/core/src/proof.rs:209-213 | `serialize().len() == wire_size()` |
| `Wire.PacketLayout` | crates/strategy/core/src/proof.rs:172-184 | data scalars come first, then coefficients, then the proof, each part `size` bytes per scalar |
| `Wire.WriteAllAt` | crates/strategy/core/src/proof.rs:172-184 | element `i` of a run is at byte `size·i` |
| `Wire.TooShort` | crates/strategy/core/src/proof.rs:193-206 | bytes shorter than the scalars of a packet do not parse |
| `Wire.BigEndian` | crates/node/src/bfkw.rs:127-145 | byte `i` of `k` is digit `k−1−i` in base 256 |
| `Wire.BEInverse` | crates/node/src/bfkw.rs:127-145 | every string of `k` bytes is the encoding of exactly the number it reads as |
| `Wire.FieldRoundTrip` | crates/primitives/types/src/util.rs:124-136 | `read_field` gives back every scalar, zero included |
| `Wire.GroupRoundTrip` | crates/primitives/types/src/util.rs:148-163 | `read_group` gives back every group element, the identity included |
| `Wire.RawRoundTrip` | crates/strategy/bfkw/src/bfkw.rs:71-74 | the library reader gives back everything but the neutral element |
| `Wire.SerializePacket` | crates/strategy/core/src/proof.rs:172-184 | the appending loops write data, coefficients and proof in order |
| `Wire.DeserializePacket` | crates/strategy/core/src/proof.rs:193-206 | the reading loops parse exactly that format, with the source's errors |
| `Block.BlockCodecRoundTrip` | crates/primitives/types/src/block.rs:63-121 | a block is read back, whatever follows it, if and only if its transactions are at most 16 MiB |
| `Block.ChunkRoundTrip` | crates/primitives/types/src/block.rs:168-252 | whenever a block fits its chunks, `from_chunks(as_chunks(b)) == b` if and only if its transactions are at most 16 MiB |
| `Block.LengthDecides` | crates/primitives/types/src/block.rs:234-252 | the chunks of a block give it back under every length from that of its encoding up to all the bytes they hold, and panic under every other |
| `Block.CutBlock` | crates/primitives/types/src/block.rs:90-121 | no proper prefix of a block's encoding reads as a block |
| `Block.BlockLayout` | crates/primitives/types/src/block.rs:63-73 | the fields of an encoded block are at bytes 0, 32, 40, 48, 56 and 64, and the prefixed transactions from byte 96 on |
| `Block.ChunkLayout` | crates/primitives/types/src/block.rs:168-187 | `as_chunks` succeeds if and only if the encoding is at most `31·n·m` bytes; element `j` of chunk `i` packs bytes `31·(i·m + j)` up to the next, or is zero beyond the encoding |
| `Block.ChunksHoldBlock` | crates/primitives/types/src/block.rs:168-187 | the chunks hold the encoded block as a prefix and the length is that of the encoding |
| `Block.ComputedCapacity` | crates/node/src/config.rs:157-159 | the computed chunk dimension always meets the capacity assertion of `as_chunks` |
| `Block.ComputedLeast` | crates/node/src/config.rs:157-159 | it is the least dimension whose chunks hold the block size plus 100 header bytes |
| `Block.PackRoundTrip` | crates/primitives/types/src/util.rs:53-85 | a packed window is written as a zero byte, the window and zero padding, and unpacking gives the window and the padding |
| `Block.WindowsRoundTrip` | crates/primitives/types/src/util.rs:93-111 | bytes to elements and back keeps the data as a prefix, in `⌈len/31⌉` elements |
| `Block.FieldElementsToBytes` | crates/primitives/types/src/util.rs:105-111 | the appending loop concatenates the unpacked elements |
| `Block.SplitExact` | crates/primitives/types/src/block.rs:178-186 | `n·m` elements split into `n` chunks of `m` that flatten back |

## Left out

- The curve, its pairing, hash-to-group, keccak and signature algorithms: they enter through
  their laws (`IsField`, `IsSpace`, `IsPairing`, `Correct`, `IsCodec`, `Packs`, `IsPrefix`).
  `Instances.LawsHoldTogether` gives parameters and a chain of blocks that meet all of them at
  once; that the real curve meets them is not proved.
- Unforgeability: computational, and not decided by the code; it is a premise of `Chain` and `ChainNetwork`.
- Quality of randomness (chance of independence, uniform shuffles).
- Floating point: transmission delay is any function from packet size to a natural number;
  percentiles, means and ratios are not modelled, their integer numerators and denominators
  are. The largest upload and the last decoding time can be read off the modelled vectors.
- 64-bit overflow of byte counters and block numbers, other than the block codec's own u64
  fields: counters are unbounded naturals.
- The actor's sends, peer selection, announcement re-broadcast, metrics and timers; a
  re-encoding is recorded as a call. The proposer loop, the select over two channels
  and the filter on messages shorter than 8 bytes: a run is any sequence of parsed messages.
- The block the actor decodes is discarded by the code; the model records the decode call
  and the state it was made in. Other panics of the actor's task are not modelled.
- The `ignored` counter of the simulation and the actor's `log`, `calls` and `left` exist only
  in the model. The announcement call on the protocol is in the log, not among the calls.
- `Bfkw.VerifyIff` and the rest of `Bfkw` treat a chunk whose length does not match the hash
  points as failing verification; the library's behaviour on mismatched lengths is not part of this model.
- Pedersen's `combine` panics on an empty store; the scheme record returns a fixed proof there,
  and no theorem uses it.
- The Pedersen node protocol: the actor theorems hold for every conforming protocol, but only
  BFKW's conformance is proved. Its `ingest` ignores the block number and its signature covers
  the commitments alone, so the premise of `Chain` would have to add that data is delivered
  under the number of the block it was made for.
- The simulator's Pedersen proposer holds one proof at full rank; its state is arbitrary in
  `CodedSimulation.PedersenRun`, where proofs match chunks one to one for receivers.
- `Wire.PacketSize`: uses `wire_size`. The separate size estimates `packet_size` and
  `packet_wire_size` for Pedersen omit the 4-byte count and are not modelled.
- `Topology.RandomMesh`: requires `degree > 0` when there is more than one node, since
  topology.rs line 53 underflows otherwise. A partial shuffle is any permutation, of which the
  library's gives only some; which meshes it can give is not claimed.
- Deserialization leaves bytes after the proof unread, as the code does; rejecting them is not claimed.
- The heap of the event queue is a multiset of events of which any earliest one is popped; the
  order among simultaneous events is left open.
- Deployment, configuration files, command line and table printing are not modelled.
