# Distributed protocols over homomorphic encryption: a verified model

This project models the protocols that the repository builds on top of a homomorphic-encryption library and a
messaging framework, and proves what they come to in every interleaving:

- the joint public, multiplication and summation keys of n parties on a path, in three versions (broadcast,
  hop-by-hop relay, clients that poll a server's tables);
- the threshold demo with parties that drop out: share exchange, partial decryption, recovery of the dropped
  parties' partial decryptions, fusion - peer to peer and client/server;
- the statistics program: nodes on a path that add their data to an encrypted vector, and the controller;
- the message queues both run on;
- brokers that fetch ciphertexts recursively, re-encrypt them to themselves, cache and route them;
- the sequential parts: hexadecimal codec, routing-table text, virtual registers, masked equality test,
  multi-hop parameter search.

## How it is put together

| file | what it holds |
|---|---|
| Rings, KeyAlgebra | commutative rings; keys, ciphertexts and library operations as symbolic values; the centralised derivation |
| Network | parties that run code (send, receive, post, poll, compute) over first-in first-out pipes and a table, one statement at a time, in any order |
| Phases, Patterns | plans: what each party is meant to send and receive, with ranks; each communication pattern of the programs is proved to fit its plan |
| JointKeys, JointRuns, KeyTheorems | the three key generations in the three versions, and their theorems |
| Hubs, Registers, Statistics | one party beside a path; virtual registers in an encrypted vector; the whole statistics program |
| Dropouts, DropoutRuns, Starvation, Barriers | the whole peer-to-peer program with dropouts, its theorem, exactly when its guard is too weak, and what its synchronization ensures |
| Suspicions, FalseSuspicions, MixedRecoveries | the same program with survivors that each go by their own timeouts: exactly when all get through, what they end with when they agree, and what when their lists name different parties |
| Numbers, Shamir, ShamirDemo | primes, polynomial secret sharing, and the whole program with shares dealt and recovered that way |
| MessageQueues | the queues of a node and how messages are taken from them |
| Recovery, ServerAborts | collecting and selecting shares (loops); the client/server abort loop as a state machine |
| ServerRuns, ClientRuns, TwoClients | the client's program up to its partial decryption; whole clients interleaved, abort loops included; the one share that two clients have |
| Brokers, RoutingText | the brokers and key servers; splitting strings and the routing table as a text file |
| Codec, MaskedEquality | hexadecimal conversion and the masked equality test |
| HopParams, HopNumbers | the parameter search, and what it comes to in numbers |

A party's program is a sequence of statements, written down as the source's statements in the source's order
(for instance `JointRuns.MultGen` for the multiplication key with broadcast, `Dropouts.RecoverOne` for one round of
the recovery, `DropoutRuns.Program` for the whole client). A receive takes the front of the sender's pipe; if that
message is of another kind than the receiver expects, the party has gone wrong, because an untyped receive would
misread it and a typed one would discard it. Runs are sequences of party numbers, so a statement about all such
sequences is one about all interleavings. The proof gives every statement a rank such that receives rank above the
sends they wait for; the party whose next statement ranks lowest can always take it.

The library is symbolic: a public key is its secret, an evaluation key the pair (secret it is under, payload),
`KeySwitchGen(s, s)` is (s, s), adding is componentwise, `MultiMultEvalKey(s, (S, S))` is (S, s * S); partial
decryptions are c0 + s * c1 (leading) and s * c1 (main), fusion is their sum. The ring is any commutative one.

## What the proofs found

- The guard before the recovery (more than zero and at least `threshold` dropouts raise an error) lets pass n / 2
  dropouts of an even number of parties, one more than the recovery can bear, and dropouts that include node 1, who
  should do the recovering: somebody then waits for ever. `Starvation.GuardDecides` says exactly when;
  `ShamirDemo.GuardFails` gives one of two parties, and the first of three.
- When each survivor goes by its own timeouts, all survivors get through if and only if each of them counts as many
  recoveries as node 1 makes with it (none if node 1 suspects it, or it node 1), and node 1 has enough parties left for
  those it makes (`Suspicions.SuspicionsDecide`; three failing inputs in `FalseSuspicions.ListsFail`). Who is wrongly
  but unanimously listed does no harm (`FalseSuspicions.AgreedEveryRun`). Lists of the same length that name different
  parties go unnoticed: node 1 recovers from shares of different secrets, all finish without an error, and node 1 has a
  wrong plaintext (`MixedRecoveries.SilentlyWrong`).
- The statistics program's controller is fixed to three nodes: with two it waits for a node that does not exist, with
  more for keys that another node sends (`Statistics.StatisticsEveryRun`, `Statistics.WrongCount`).
- In the client/server version a client that suspects another one gets on if and only if client 1 has recovered that
  one, or still has it ahead, not posted (`ServerAborts.AwaitingFreedIff`, with a run that strands a client in
  `ServerAborts.SlowClientStrandsAnother`). With two clients the server hands out one share where two are needed; what
  comes out is right if and only if the polynomials dealt are constant modulo their primes
  (`TwoClients.RecoversIffFlat`), and otherwise client 1 silently ends with a wrong plaintext
  (`TwoClients.WrongPlaintext`).
- A typed receive on a queue without a message of that type empties the queue and still reports success
  (`MessageQueues.AcknowledgedWithoutMatch`). In the peer-to-peer program this never happens.
- `getSerialMsgWait` ignores its type argument (`node.h:408`); every receive is right only because of its position
  in the sender's queue, which is what the run theorems prove.
- A broker that is not on the access map caches ciphertexts under its upstream broker's key (`Brokers.OwnKeyIff`), and
  its consumers get garbage (`Brokers.OneNameDecides`, in two worlds that differ in one name).
- A broker other than the producer's own keeps what it first fetched for good: a later upload never reaches it or
  anybody below it (`Brokers.CachedForGood`), while the producer's own broker always has the last upload
  (`Brokers.LastUploadAtSource`).
- An odd-length hexadecimal string loses its first digit; letters come back in lower case (`Codec.HexRoundTrip`).
- The register file has room for four nodes whatever the path's length; the source's `write` reports a fifth node and
  then writes out of bounds all the same (`Registers.PathGathers`, `Registers.WriteRegister`).
- The parameter selector chooses the largest digit size that bears all hops below the required minimum, not the
  minimum itself, and rejects the ring size if that one does not bear the minimum, although a smaller digit size would
  (`HopParams.ChosenButRejected`); and the plain scheme looks for a modulus only below 60 bits, so a ring whose
  security allows 60 bits or more makes it quit (`HopNumbers.HaltsIff`).
- A line of the routing table is read back as it was written if and only if its names are free of white space, of
  the delimiter that follows them and of those before it (`RoutingText.ReadBackIff`).
- The statistics program's controller names its messages otherwise than the nodes do; since receives are untyped, this
  does no harm, and the model uses the nodes' names.
- The relayed summation key is returned, not stored, at the last node
  (`src/network_measure_examples/src/path_measure_crypto_functions.cpp:234-236`); the model's field stands for what
  the function returns, which is what the caller uses.

## Model

| member | source | states |
|---|---|---|
| KeyAlgebra.JointPubIs | src/threshold_fhe_aborts/threshold_fhe_aborts.cpp:120-124 | the joint public key of i parties is under the sum of their secrets |
| KeyAlgebra.ForwardKeyIs | src/threshold_fhe_aborts/threshold_fhe_aborts.cpp:153-166 | the evaluation keys of the first i parties add up to one that encrypts s_1 + ... + s_i under itself |
| KeyAlgebra.BackwardKeyIs | src/threshold_fhe_aborts/threshold_fhe_aborts.cpp:169-182 | the products of parties i..n add up to (s_i + ... + s_n) * S under S |
| KeyAlgebra.FinalMultKeyIs | src/threshold_fhe_aborts/threshold_fhe_aborts.cpp:181-184 | the final multiplication key encrypts S * S under S |
| KeyAlgebra.JointSumKeyIs | src/threshold_fhe_aborts/threshold_fhe_aborts.cpp:195-212 | the joint summation keys encrypt, for every rotation index, the rotated joint secret under the joint secret |
| KeyAlgebra.ThreePartyProgram | src/threshold_fhe_aborts/threshold_fhe_aborts.cpp:153-182 | the three-party program, which adds in another order, gives the general derivation's multiplication key |
| KeyAlgebra.FusionIs | src/threshold_fhe_aborts/threshold_fhe_aborts.cpp:294-312 | one leading and n - 1 main partial decryptions fuse to c0 + S * c1 |
| Network.EveryRun | src/peer_to_peer_framework/include/node.h:356-428 | for any programs that fit a ranked plan, every interleaving: every receive finds its kind in front, nobody is stuck before all are finished, the number of steps is fixed, and the end state is the plan's |
| KeyTheorems.MultGenEveryRun | src/threshnet_aborts_p2p_demo/src/crypto_functions.cpp:84-235 | in every reachable state of the multiplication key generation the forward message of party i carries s_1 + ... + s_i and the backward one (s_i + ... + s_n) * S; every run ends, and all hold S * S under S |
| JointRuns.PubGenPhase | src/threshnet_aborts_p2p_demo/src/crypto_functions.cpp:33-73 | the public key generation takes every party to its own and the final joint public key |
| JointRuns.MultGenPhase | src/threshnet_aborts_p2p_demo/src/crypto_functions.cpp:75-236 | the multiplication key generation takes every party to the forward, whole, backward and final key |
| JointRuns.SumGenPhase | src/threshnet_aborts_p2p_demo/src/crypto_functions.cpp:239-293 | the summation key generation takes every party to its own, its joint and the final key |
| JointRuns.PubRelayPhase | src/network_measure_examples/src/path_measure_crypto_functions.cpp:58-106 | the relayed public key generation ends in the same states as the broadcast one |
| JointRuns.MultRelayPhase | src/network_measure_examples/src/path_measure_crypto_functions.cpp:108-197 | the relayed multiplication key generation ends in the same states as the broadcast one |
| JointRuns.SumRelayPhase | src/network_measure_examples/src/path_measure_crypto_functions.cpp:200-259 | the relayed summation key generation ends in the same states as the broadcast one |
| KeyTheorems.KeyRelayEveryRun | src/network_measure_examples/src/path_measure_crypto_functions.cpp:58-259 | every interleaving of the three relayed key generations in a row ends with every party holding the public, multiplication and summation keys of the joint secret |
| JointRuns.PubPollPhase | src/threshnet_aborts_grpc_demo/targets/thresh_client.cpp:115-171 | the polled public key generation ends in the same states as the broadcast one |
| JointRuns.MultPollPhase | src/threshnet_aborts_grpc_demo/targets/thresh_client.cpp:214-373 | the polled multiplication key generation ends in the same states as the broadcast one |
| JointRuns.SumPollPhase | src/threshnet_aborts_grpc_demo/targets/thresh_client.cpp:383-496 | the polled summation key generation ends in the same states as the broadcast one |
| KeyTheorems.KeyPollEveryRun | src/threshnet_aborts_grpc_demo/targets/thresh_client.cpp:115-496 | in whatever order clients poll and post, every table entry is the centralised key, no client waits for ever, and all end with the keys their operation needs |
| DropoutRuns.ShareExchangeEveryRun | src/threshnet_aborts_p2p_demo/targets/thresh_aborts_client.cpp:233-243 | the pairwise exchange of shares, each node sending to and then blocking on its peers in increasing order, never deadlocks and ends with node i's share for p at index i of p's map |
| Dropouts.FreshShares | src/threshnet_aborts_p2p_demo/targets/thresh_aborts_client.cpp:417-421 | the reused map of recovery shares holds exactly the true shares of the party being recovered, none of an earlier one |
| Dropouts.OnePass | src/threshnet_aborts_p2p_demo/src/crypto_functions.cpp:297-309 | with enough parties left the collection loop makes exactly one pass over the peers |
| Dropouts.AllPhase | src/threshnet_aborts_p2p_demo/targets/thresh_aborts_client.cpp:415-432 | recovering the dropped parties one after another fills the slot of each, at every survivor, with the partial decryption under that party's own secret |
| DropoutRuns.DropoutsEveryRun | src/threshnet_aborts_p2p_demo/targets/thresh_aborts_client.cpp:120-441 | every interleaving of the whole program with more than half of all parties left, node 1 among them: kinds always match, no deadlock, every survivor has every party's partial decryption (one leading) and the plaintext of the result under the joint secret, whoever dropped out |
| DropoutRuns.AdditionEveryRun | src/threshnet_aborts_p2p_demo/targets/thresh_aborts_client.cpp:333-335 | with addition every survivor ends with the sum of all inputs, dropped parties' inputs included |
| Starvation.NeverThrough | src/peer_to_peer_framework/include/node.h:371-402 | a party whose program receives from another more often than that one sends to it finishes in no interleaving |
| Starvation.CollectMakesPasses | src/threshnet_aborts_p2p_demo/src/crypto_functions.cpp:297-309 | the recovery's statements wait for each peer as many times as the loop makes passes |
| Starvation.TooFewStarve | src/threshnet_aborts_p2p_demo/src/crypto_functions.cpp:295-309 | when the guard passes but node 1 and its peers are fewer than `threshold`, node 1 gets through in no interleaving |
| Starvation.LeaderlessStarve | src/threshnet_aborts_p2p_demo/targets/thresh_aborts_client.cpp:415-432 | when node 1 is among the dropouts the guard lets pass, no survivor gets through in any interleaving |
| Starvation.RunsHalt | src/peer_to_peer_framework/include/node.h:371-402 | every run of any programs can be continued until nobody can go on |
| Starvation.GuardDecides | src/threshnet_aborts_p2p_demo/targets/thresh_aborts_client.cpp:410-441 | for every set of dropouts: a run that can go no further has left all survivors with the plaintext under the joint secret if and only if nobody dropped out, or the guard passes, node 1 is left and it is not n / 2 of an even n; and when the guard passes and that is not so, some survivor never gets through |
| Starvation.RefusedEveryRun | src/threshnet_aborts_p2p_demo/targets/thresh_aborts_client.cpp:410-413 | with n / 2 + 1 dropouts or more no interleaving goes wrong or gets stuck, nothing is recovered, and the survivors end without a plaintext, with just the partial decryptions they were sent |
| Barriers.PastMeansSent | src/peer_to_peer_framework/include/node.h:356-402 | for any programs, in every reachable state: a party past the first part of its program has been sent at least as many messages by each other one as it receives from it there, since messages are neither lost nor made up |
| Barriers.NobodyGoesAhead | src/threshnet_aborts_p2p_demo/targets/thresh_aborts_client.cpp:120-170 | in every reachable state a party past its synchronization has been sent a message by everybody else, and one that has the context finds node 1 past its own: nobody starts on the keys before everybody is there |
| Suspicions.SuspicionsDecide | src/threshnet_aborts_p2p_demo/targets/thresh_aborts_client.cpp:378-432 | with each survivor going by its own timeouts: a run that can go no further has let all survivors through if and only if every survivor counts as many recoveries as node 1 makes with it, none if it suspects node 1, and node 1 has enough parties left; then every interleaving goes well |
| FalseSuspicions.AgreedEveryRun | src/threshnet_aborts_p2p_demo/targets/thresh_aborts_client.cpp:378-441 | parties that are alive but listed by all others: every interleaving goes well, and everybody else, and who is listed but lists nobody, ends with every party's partial decryption and the joint plaintext |
| FalseSuspicions.ListsFail | src/threshnet_aborts_p2p_demo/targets/thresh_aborts_client.cpp:378-432 | three inputs, one for each part of the condition, for which no interleaving lets all parties through though nobody drops out: node 2 alone suspects node 3; nodes 1 and 2 of four suspect the other two; node 2 suspects node 1 |
| FalseSuspicions.WronglyListed | src/threshnet_aborts_p2p_demo/targets/thresh_aborts_client.cpp:378-441 | three parties of which nodes 1 and 3 list node 2, with polynomial shares: every interleaving goes well and all three end with the joint plaintext |
| MixedRecoveries.MixedEveryRun | src/threshnet_aborts_p2p_demo/targets/thresh_aborts_client.cpp:410-441 | whenever node 1 recovers anybody and the lists are consistent, whomever they name: every interleaving goes well, and each party that node 1 does not list ends with the partial decryptions it was sent, at its r-th entry the one under what recovery makes of the shares of everybody's r-th entries, and their fusion |
| MixedRecoveries.SilentlyWrong | src/threshnet_aborts_p2p_demo/targets/thresh_aborts_client.cpp:410-441 | four parties with polynomial shares, none of which drops out; nodes 1 and 3 list node 4, node 2 lists node 3: every interleaving goes well, and node 1 ends with another plaintext than the joint secret gives |
| Recovery.CollectShares | src/threshnet_aborts_p2p_demo/src/crypto_functions.cpp:295-309 | the collection loop never ends if and only if some peer sends fewer shares than the passes it makes or, without peers, more than one share is wanted; otherwise each peer's last share is kept |
| Recovery.OnePassSuffices | src/threshnet_aborts_p2p_demo/src/crypto_functions.cpp:297-308 | one pass suffices if and only if the parties alive reach the threshold |
| Recovery.SelectShares | src/threshnet_aborts_grpc_demo/include/thresh_server_secret_shares_to_client_request.h:48-56 | the server's loop hands out the dropped client's shares, or empty ones where they are missing, at exactly the first `threshold` other ids |
| Recovery.SelectionSize | src/threshnet_aborts_grpc_demo/include/thresh_server_secret_shares_to_client_request.h:50-56 | it hands out min(threshold, n - 1) distinct ids, never the dropped one, a full threshold if and only if n is at least 3 |
| Recovery.ChosenAreFirst | src/threshnet_aborts_grpc_demo/include/thresh_server_secret_shares_to_client_request.h:50-56 | the ids chosen are exactly those with fewer than `threshold` ids other than the dropped one before them |
| Shamir.SharesDetermine | src/threshnet_aborts_p2p_demo/targets/thresh_aborts_client.cpp:225 | polynomials of at most t coefficients that agree at t distinct points modulo a prime have the same secret |
| Shamir.FewerDoNotDetermine | src/threshnet_aborts_p2p_demo/targets/thresh_aborts_client.cpp:222-225 | with fewer than t shares there is a second polynomial through them with another secret |
| Shamir.AnySharesRecover | src/threshnet_aborts_p2p_demo/src/crypto_functions.cpp:313 | Lagrange's sum at zero over any set of at least t true shares, computed modulo the prime, is the dealer's secret |
| ShamirDemo.ShamirEveryRun | src/threshnet_aborts_p2p_demo/targets/thresh_aborts_client.cpp:222-441 | with ring elements given by their residues modulo primes and each residue shared by a polynomial and recovered by Lagrange's sum, the whole program meets DropoutsEveryRun and GuardDecides with nothing assumed of the shares |
| ShamirDemo.AssumptionsCanBeMet | src/threshnet_aborts_p2p_demo/targets/thresh_aborts_client.cpp:222-225 | two to four parties, whoever of them drops out, meet all that the theorems about the whole program assume |
| ShamirDemo.GuardFails | src/threshnet_aborts_p2p_demo/targets/thresh_aborts_client.cpp:410-413 | one of two parties dropping out, or the first of three, passes the guard, and in no interleaving do all survivors get through |
| ServerAborts.EveryClientAgrees | src/threshnet_aborts_grpc_demo/targets/thresh_client.cpp:621-707 | whatever mixture of posted and recovered partial decryptions the timeouts lead to, every client that finishes has each party's own in its slot, client 1's leading share in slot 1, and the same plaintext, if client 1 suspects nobody or the selected shares are worth the secrets |
| ServerAborts.SelectionIsEnough | src/threshnet_aborts_grpc_demo/include/thresh_server_secret_shares_to_client_request.h:48-56 | from three clients on the selected shares are worth the secrets, if enough true shares are |
| ServerAborts.AwaitingFreedIff | src/threshnet_aborts_grpc_demo/targets/thresh_client.cpp:636-678 | in every reachable state, a client that awaits the recovery of i can get on if and only if client 1 has recovered i, or i is not client 1, has not posted, and client 1 has not passed its slot |
| ServerAborts.SuspectedBeforePosting | src/threshnet_aborts_grpc_demo/targets/thresh_client.cpp:631-665 | in every run, whoever begins to await the recovery of i does so while i has not posted, as another client than 1 and i; and what client 1 recovers it recovers first while its owner has not posted |
| ServerAborts.AllPostedAllDone | src/threshnet_aborts_grpc_demo/targets/thresh_client.cpp:621-707 | once all clients have posted and nobody awaits a recovery, nobody ever does, whatever the timeouts, and a continuation after which no step is possible has taken every client to its end |
| ServerAborts.SlowClientStrandsAnother | src/threshnet_aborts_grpc_demo/targets/thresh_client.cpp:629-679 | a run of three clients in which a slow client posts after all and another one gets on in no continuation |
| ServerRuns.ClientsEveryRun | src/threshnet_aborts_grpc_demo/targets/thresh_client.cpp:115-586 | the whole client program up to the partial decryption, in whatever order clients poll and post: every table entry is its owner's, nobody waits for ever, and every client that has not dropped out has the ciphertext evaluated from all parties' under the joint keys |
| ServerRuns.SharesPosted | src/threshnet_aborts_grpc_demo/targets/thresh_client.cpp:182-205 | in whatever order clients post and poll, once a client has evaluated every client's shares are in the server's table, and what the server selects from an entry there is what the abort loop recovers from |
| ServerRuns.SameRecovery | src/threshnet_aborts_grpc_demo/include/thresh_server_secret_shares_to_client_request.h:48-56 | over residues modulo primes the shares the server selects and those the peer-to-peer survivors collect give the same secret, the dropped party's |
| ClientRuns.ServerEveryRun | src/threshnet_aborts_grpc_demo/targets/thresh_client.cpp:115-716 | from the keys to the plaintext, each client entering its abort loop while others may be anywhere in the program before: nothing blocks up to the loops, and whatever the timeouts make clients suspect, every client that finishes has every party's partial decryption and the plaintext, under the joint secret, of what all ciphertexts evaluate to |
| ClientRuns.ShamirServerEveryRun | src/threshnet_aborts_grpc_demo/targets/thresh_client.cpp:115-716 | the same with shares dealt and recovered by polynomials and nothing assumed of them, from three clients on, and with two unless client 1 recovers client 2 from polynomials that are not constant |
| ClientRuns.WhereItEnds | src/threshnet_aborts_grpc_demo/targets/thresh_client.cpp:621-707 | when no client can move any more, each that has not dropped out is done, or is not client 1 and awaits a recovery that client 1 has not made |
| TwoClients.RecoversIffFlat | src/threshnet_aborts_grpc_demo/include/thresh_server_secret_shares_to_client_request.h:48-56 | with two clients the one share selected gives the secret if and only if every polynomial client 2 dealt has a linear coefficient that is 0 modulo its prime |
| TwoClients.WrongPlaintext | src/threshnet_aborts_grpc_demo/targets/thresh_client.cpp:636-707 | a run of two clients in which client 1 suspects client 2 and ends with another plaintext than the joint secret gives |
| MessageQueues.MessageQueue.Push | src/peer_to_peer_framework/include/node_utils.h:151-158 | appends |
| MessageQueues.MessageQueue.Pop | src/peer_to_peer_framework/include/node_utils.h:112-123 | takes the front, or returns an empty message |
| MessageQueues.MessageQueue.PopWithType | src/peer_to_peer_framework/include/node_utils.h:125-139 | takes the first message of the type and drops all before it, or empties the queue |
| MessageQueues.Node.Receive | src/peer_to_peer_framework/include/node_request.h:56-67 | a request's message goes to the end of the sender's queue, no other queue changes, and it is acknowledged |
| MessageQueues.Node.GetMsg | src/peer_to_peer_framework/include/node.h:356-369 | the message taken and the queue left, for typed and untyped receives |
| MessageQueues.Node.GetMsgWait | src/peer_to_peer_framework/include/node.h:371-402 | polling with a timeout does what the waiting function says, whatever arrives between polls |
| MessageQueues.TypedKeepsOthers | src/peer_to_peer_framework/include/node_utils.h:125-139 | a typed receive loses no other message if and only if its match is in front, and then equals an untyped one |
| MessageQueues.TakenIs | src/peer_to_peer_framework/include/node.h:356-369 | a receive returns the message in front, or the first of the type, with every field but the acknowledgement as it was delivered, and leaves what stood behind it |
| MessageQueues.InOrder | src/peer_to_peer_framework/include/node.h:356-369 | however deliveries and untyped receives alternate, the k-th message received is the k-th delivered, content and all, and the rest is still there in order |
| MessageQueues.NothingIffAllReceived | src/peer_to_peer_framework/include/node.h:356-369 | a receive comes back without a message if and only if all that was delivered has been received |
| MessageQueues.WaitReturns | src/peer_to_peer_framework/include/node.h:371-402 | a wait returns the message already there, or the first to arrive within timeout / sleep + 2 intervals, content and all, and leaves what came behind it |
| MessageQueues.AcknowledgedWithoutMatch | src/peer_to_peer_framework/include/node.h:360-367 | a typed receive is acknowledged on any nonempty queue, but returns a real message if and only if the type occurs |
| MessageQueues.DropoutDetected | src/peer_to_peer_framework/include/node.h:383-395 | a peer is taken for dropped out if and only if nothing is queued and nothing arrives in timeout / sleep + 2 intervals |
| Brokers.KeyServer.ReEncryptionKeyToServer | src/pre_grpc_demo/include/ks_reencryption_key_to_ks.h:63-86 | the answer of the key server above, for a receiver whose key was sent to it |
| Brokers.KeyServer.ReEncryptionKeyToBroker | src/pre_grpc_demo/include/ks_reencryption_key_to_broker.h:59-115 | the answer of a broker's key server, from a local private key or across zones |
| Brokers.RekeyAnswers | src/pre_grpc_demo/include/ks_reencryption_key_to_broker.h:59-115 | exactly when a broker is answered a key, the null key, nothing, or an error, by private keys held, receivers registered and access maps |
| Brokers.BrokerTree.CipherTextFromProducer | src/pre_grpc_demo/include/broker_cipher_text_from_producer.h:47-111 | an upload is re-encrypted to the broker and cached, or refused |
| Brokers.BrokerTree.ObtainFor | src/pre_grpc_demo/include/broker_reencrypted_cipher_text_to_broker.h:92-177 | the cache, routing and recursive upstream decision, with re-encryption and caching |
| Brokers.BrokerTree.ReEncryptedCipherTextToBroker | src/pre_grpc_demo/include/broker_reencrypted_cipher_text_to_broker.h:53-196 | the request handler of a downstream broker's fetch |
| Brokers.BrokerTree.CipherTextToConsumer | src/pre_grpc_demo/include/broker_cipher_text_to_consumer.h:52-254 | the request handler of a consumer's fetch |
| Brokers.EveryRunKeeps | src/pre_grpc_demo/include/broker_reencrypted_cipher_text_to_broker.h:92-192 | in every reachable state each cached ciphertext is under its broker's key and carries one of the producer's uploads, and every routed channel's producer is cached |
| Brokers.NewerUpstream | src/pre_grpc_demo/include/broker_cipher_text_from_producer.h:110 | a producer cached at a broker is cached at every broker up to the one it is attached to, in versions that never get older on the way up |
| Brokers.UploadsCounted | src/pre_grpc_demo/include/broker_cipher_text_from_producer.h:60-110 | after any operations the number of uploads accepted from a producer is the number it made, if its keys are registered and its broker is on the access map, and else none |
| Brokers.LastUploadAtSource | src/pre_grpc_demo/include/broker_cipher_text_from_producer.h:110 | a consumer at the producer's own broker is given the last upload, after any operations |
| Brokers.CachedForGood | src/pre_grpc_demo/include/broker_reencrypted_cipher_text_to_broker.h:92-177 | what any other broker has cached of a producer no operations change |
| Brokers.ObtainedIff | src/pre_grpc_demo/include/broker_reencrypted_cipher_text_to_broker.h:92-177 | in every reachable state a broker obtains a producer's ciphertext if and only if the producer has uploaded and every hop from the broker up to the producer's broker can re-encrypt, whatever is cached or routed |
| Brokers.DeliveredIff | src/pre_grpc_demo/include/broker_cipher_text_to_consumer.h:84-254 | after any uploads and fetches from the start a consumer is given a ciphertext if and only if the channel names it, the keys are known, the producer has uploaded, and every hop up to the producer's broker can re-encrypt |
| Brokers.ServedIff | src/pre_grpc_demo/include/broker_cipher_text_to_consumer.h:84-188 | the conditions on keys in DeliveredIff in terms of what the key servers hold |
| Brokers.NothingForConsumerIff | src/pre_grpc_demo/include/broker_cipher_text_to_consumer.h:114-254 | after any operations a consumer is told that there is no ciphertext, rather than an error, if and only if the channel names it, its key can be asked for, and neither the broker nor any above it has the producer cached or fails to ask for its key |
| Brokers.FetchRecords | src/pre_grpc_demo/include/broker_reencrypted_cipher_text_to_broker.h:178-192 | a fetch adds one line to the broker's table - channel, upstream broker or producer, destination, and the source flag at the top - if and only if it finds the ciphertext |
| Brokers.ConsumeRecords | src/pre_grpc_demo/include/broker_cipher_text_to_consumer.h:190-254 | a consumer that is given a ciphertext is recorded so, and then routed; one that is told there is none is not |
| Brokers.ConsumeLeaves | src/pre_grpc_demo/include/broker_cipher_text_to_consumer.h:114-254 | after any operations, whatever a consumer is told, the brokers that hold the ciphertext afterwards are those that did before and those its fetch visits that can obtain it, each new copy being of what is cached one broker up; a channel that does not name it or a key that cannot be asked for changes nothing |
| Brokers.ConsumeWrites | src/pre_grpc_demo/include/broker_cipher_text_to_consumer.h:190-254 | after any operations, whatever a consumer is told, which brokers write which line into their tables |
| Brokers.Delivers | src/pre_grpc_demo/include/broker_cipher_text_to_consumer.h:114-254 | d brokers below the producer's it is one of the producer's uploads after exactly d + 2 re-encryptions, under the consumer's own key, if the consumer is granted one, and else under the broker's after d + 1 |
| Brokers.CachesDoNotShow | src/pre_grpc_demo/include/broker_cipher_text_to_consumer.h:114-188 | with a single upload a consumer's answer equals that of the recursion without caches |
| Brokers.OwnKeyIff | src/pre_grpc_demo/include/broker_reencrypted_cipher_text_to_broker.h:147-166 | after a fetch from the upstream broker the entry cached is under the broker's own key if and only if its name is on the access map of the zone that holds the upstream broker's private key; otherwise it is the upstream broker's entry |
| Brokers.OneNameDecides | src/pre_grpc_demo/include/ks_reencryption_key_to_broker.h:101-115 | in a reachable world of two brokers the consumer gets the upload under its own key or garbage, according to one name on the access map |
| Brokers.TableSaysTheSame | src/pre_grpc_demo/src/utils.cpp:171-225 | after any uploads and fetches with names the line format can carry, the list of routes the other theorems use and the parsed text of the table find the same channels for every destination |
| RoutingText.SplitString | src/pre_grpc_demo/src/utils.cpp:156-169 | the loop yields the pieces of the recursive definition |
| RoutingText.SplitRejoins | src/pre_grpc_demo/src/utils.cpp:156-169 | the pieces rejoin to the input and none holds the delimiter |
| RoutingText.UpdateRoutingTable | src/pre_grpc_demo/src/utils.cpp:206-225 | a reader finds what it found before and, after it, the new route, if and only if the route's names are clean; another line can follow |
| RoutingText.ReadBackIff | src/pre_grpc_demo/src/utils.cpp:184-197 | a line added to any finished file is read back as its route, and the rest as before, if and only if each name is free of white space, of the delimiter that follows it and of those before it |
| RoutingText.ParseRoutingTable | src/pre_grpc_demo/src/utils.cpp:171-204 | keeps, among the words' routes for the destination, the last per channel |
| RoutingText.KeptIsLast | src/pre_grpc_demo/src/utils.cpp:198-200 | what is kept for a channel is an entry after which none for that channel and destination follows |
| RoutingText.KeptIff | src/pre_grpc_demo/src/utils.cpp:198-200 | something is kept for a channel if and only if there is an entry for it and this destination |
| RoutingText.TwoLines | src/pre_grpc_demo/src/utils.cpp:206-225 | two lines as they stand in the file |
| RoutingText.ParsesWhatWasWritten | src/pre_grpc_demo/src/utils.cpp:171-225 | parsing a table built by any updates with clean names gives exactly the last route written per channel |
| Codec.DigitsByPosition | src/pre_grpc_demo/src/utils.cpp:276-331 | a character is read if and only if it stands in "0123456789abcdef" or "0123456789ABCDEF", as its position there, and a number is written as the character at its position in the first |
| Codec.HexToBits | src/pre_grpc_demo/src/utils.cpp:256-294 | the loops give the bits of the bytes, last byte first, which denote the number the digits denote, without the first digit of an odd number of them |
| Codec.BitsToHex | src/pre_grpc_demo/src/utils.cpp:303-342 | the loops give two lower-case digits per byte, last byte first, which denote the number the bits denote |
| Codec.HexRoundTrip | src/pre_grpc_demo/src/utils.cpp:256-342 | a hex string comes back as its lower-case even-length part, and unchanged if and only if it is even and lower case |
| Codec.BitRoundTrip | src/pre_grpc_demo/src/utils.cpp:256-342 | a bit vector whose length is a multiple of eight comes back unchanged |
| Codec.NumberKept | src/pre_grpc_demo/src/utils.cpp:251-254 | both conversions keep the number denoted, bit i weighing 2^i and a digit being worth its position in the rows of digits |
| Codec.Example | src/pre_grpc_demo/src/utils.cpp:256-342 | the sixteen bits of "1F0a", and "1f0a" printed from them |
| Registers.InitializeMap | src/network_measure_examples/include/register_functions.h:46-82 | the fixed layout, refused if it does not fit half the ring size |
| Registers.WriteRegister | src/network_measure_examples/include/register_functions.h:119-144 | adds the value at its place and nowhere else; succeeds if and only if the place exists |
| Registers.UnpackPT | src/network_measure_examples/include/register_functions.h:197-222 | every register's stretch |
| Registers.PlaceHoldsSum | src/network_measure_examples/include/register_functions.h:119-144 | after any list of writes each place holds the sum of the writes to it |
| Registers.OutsideUntouched | src/network_measure_examples/include/register_functions.h:119-144 | what lies in no register is untouched |
| Registers.AccumulateNode | src/network_measure_examples/targets/network_statistics.cpp:193-200 | a node's loop does its four writes, and fits if and only if it is among the first four nodes |
| Registers.PathGathers | src/network_measure_examples/targets/network_statistics.cpp:193-200 | the writes of nodes 1 to n in a row leave each node's data at its own index and the node count in the counter; all are in range if and only if there are at most four nodes |
| Statistics.StatisticsEveryRun | src/network_measure_examples/targets/controller_statistics.cpp:76-155 | n nodes and the controller, which is fixed to three: with three every interleaving goes well, all hold the joint keys and the controller decrypts a vector with each node's data at its index and the count; with any other number it gets through in no interleaving; so a run that can go no further has served the controller if and only if n is three |
| Statistics.ToldEveryRun | src/network_measure_examples/targets/network_statistics.cpp:134-229 | the variant in which the controller is told n: every interleaving - keys relayed, zero vector sent meanwhile, ciphertext down and up the path, partial decryptions collected - goes well, and the controller's vector is right if and only if n is at most four |
| Statistics.WrongCount | src/network_measure_examples/targets/controller_statistics.cpp:77-83 | two nodes and four: inputs that meet the theorem's hypotheses for which the controller never gets through |
| Statistics.MeanIs | src/network_measure_examples/targets/controller_statistics.cpp:130-155 | a register's total divided by the counter is the mean of the nodes' data |
| Statistics.AssumptionsCanBeMet | src/network_measure_examples/targets/controller_statistics.cpp:88-100 | any number of nodes from two on, with an explicit encoding, meets what the theorem about the run assumes |
| MaskedEquality.ModulusIsPrime | src/network_measure_examples/targets/network_measure.cpp:234 | 65537 is prime |
| MaskedEquality.Mask | src/network_measure_examples/targets/network_measure.cpp:266-268 | the masked values: congruent to the products, smaller than the modulus, with the products' signs |
| MaskedEquality.BothTheSame | src/network_measure_examples/targets/network_measure.cpp:303-311 | both nodes decrypt the same masked difference |
| MaskedEquality.DecryptedIs | src/network_measure_examples/targets/network_measure.cpp:303-311 | what either node decrypts is the difference of the measurements times both masks, modulo the modulus |
| MaskedEquality.ZeroIff | src/network_measure_examples/targets/network_measure.cpp:303-311 | a place is zero if and only if the measurements agree modulo the modulus or a mask is zero |
| MaskedEquality.Compare | src/network_measure_examples/targets/network_measure.cpp:262-364 | either node reports "the same" if and only if the measurements agree wherever both masks are nonzero, and names the places where they do not |
| HopParams.BoundGrows | scripts/multihop_params_helper.py:29-147 | the noise bound of each of the four schemes grows with the number of hops |
| HopParams.FindD | scripts/multihop_params_helper.py:40-55 | the first number of hops a modulus does not bear, after which it bears none |
| HopParams.FindQk | scripts/multihop_params_helper.py:26-37 | the smallest modulus from the lower limit on that bears the hops, or the program quits |
| HopNumbers.FixedNoiseNumbers | scripts/multihop_params_helper.py:56-85 | fixed noise, p = 2, ring 1024: 30 bits bear 42 hops and no more, which take 30 bits |
| HopNumbers.FloodingNumbers | scripts/multihop_params_helper.py:87-126 | flooding noise, p = 2, digits of 3 bits, one query, ring 1024: 85 bits bear two hops and no more, which take 85 bits |
| HopNumbers.HybridNumbers | scripts/multihop_params_helper.py:128-166 | hybrid flooding noise, p = 2, one query, ring 1024: 107 bits bear three hops and no more, which take 107 bits |
| HopParams.ChooseR | scripts/multihop_params.py:103-143 | the largest candidate digit size that bears all hops below the minimum is chosen, or there is none |
| HopParams.TryRingsize | scripts/multihop_params.py:89-176 | a ring size is accepted if and only if its modulus is below the search limit and the digit size chosen bears the minimum itself; the program quits if and only if no modulus in range does; what is reported is the modulus security allows and the largest number of hops borne |
| HopNumbers.AcceptedBeyondSixty | scripts/multihop_params.py:119-200 | flooding noise, two hops, 109 bits allowed in a ring of 4096: accepted, with two hops reported |
| HopNumbers.CandidatesAre | scripts/multihop_params.py:103-105 | the digit sizes tried are the divisors of the modulus size up to a third of it, rounded up, or just 1 |
| HopNumbers.HaltsIff | scripts/multihop_params.py:151-164 | with a digit size chosen the program quits if and only if no modulus from the one allowed on, below 60 bits in the plain scheme and below 476 in the others, bears the minimum; so the plain scheme quits whenever 60 bits are allowed |
| HopNumbers.SearchLimit | scripts/multihop_params.py:151-164 | fifteen hops of hybrid flooding noise at p = 64 take 475 bits, which the search still finds; at p = 128 they take more and the program quits |
| HopNumbers.HopsLimit | scripts/multihop_params.py:181-190 | fixed noise, 109 bits allowed in a ring of 4096: 2^60 - 1 hops are reported |
| HopParams.FirstRingsize | scripts/multihop_params.py:79-87 | the smallest standard ring size that holds the payload, or the largest one |
| HopParams.ParameterSelector | scripts/multihop_params.py:82-189 | the first ring size, from the least that holds the payload on, that is accepted, unless the program quits at an earlier one; exhausted exactly if none is accepted and none makes it quit, with the digit size last chosen |
| HopParams.ChosenButRejected | scripts/multihop_params.py:119-176 | nine hops, 27 bits in a ring of 1024: digit size 9 is chosen and the ring size rejected, while digit size 3 would bear nine hops |

## Left out

- DropoutRuns.DropoutsEveryRun: all survivors agree on who dropped out, and a party drops out only where the source's switch makes it, before its partial decryption; survivors that disagree are in `Suspicions.SuspicionsDecide` and `FalseSuspicions.AgreedEveryRun`, and timeouts as such in `MessageQueues.DropoutDetected`.
- DropoutRuns.DropoutsEveryRun: homomorphic evaluation and encryption are parameters (only addition is spelled out, in `DropoutRuns.AdditionEveryRun`), because they are the library's.
- ClientRuns.ServerEveryRun: a loop's timeouts are a free choice at each round, and a client that drops out does so before it posts its partial decryption, as the source's switch makes it.
- Statistics.StatisticsEveryRun: floating-point values are reals and decryption is exact; a node's input has three values.
- MessageQueues.Node.GetMsgWait: the arrivals between polls are a finite list; when it runs out the method says that it is still polling.
- Brokers.BrokerTree.CipherTextToConsumer: a channel name without "-" reads past the end in the source and counts as an error here; an error raised by a handler ends that request, not the server.
- Brokers.BrokerTree.ObtainFor: a public key that neither the broker's key server nor the one above knows counts as not known; without a key server above, the source would fail to connect instead.
- Brokers.KeyServer.ReEncryptionKeyToBroker: each name has one key pair for good; key servers above the next one are not asked, as in the source.
- Brokers.TableSaysTheSame: a name with white space or a delimiter in it is not found again in the text; the brokers here go by the list of routes and find it.
- RoutingText.ParseRoutingTable: a word without its delimiters reads past the end in the source and yields empty fields here.
- Registers.WriteRegister: out of range the source writes out of bounds; here that is only reported.
- HopParams.ParameterSelector: the console input, and the two schemes with real exponents, logarithms and pi; the ring size the payload needs is an input.
- The library itself: noise, lattices, serialization, real key generation; the security of anything.
- Channels, certificates, completion queues, the connect-retry loop of `sendMsg` and the look-up of the network map: peers are connected and a send is delivered.
- `mul` and `owrite` of the registers, whose effect beyond the written register depends on the library's padding.
- The server's other put and get handlers, which are instances of the table in `Network`.
- Register and queue contents are sequences, not arrays or standard containers; locks are not modelled, each queue operation being one step.
