# Verified models of the Bingle core

Dafny models of the parts of `bingle_core` that carry its guarantees, with proofs of those guarantees.
`dafny verify dfyconfig.toml` checks everything.

## What is modelled

**The lease-based Lamport mutex.** `LamportNode` holds one node's state as a value and each of its
transitions; `LamportMutex` is the object that the handlers and the `acquire` thread update in place, each
method tied to its transition. `MutexSystem` puts any number of nodes together: every node's `acquire` thread
is a program counter, requests and releases travel in order between two nodes (one thread sends both), while
grants and membership gossip, which are sent after the lock is dropped, arrive in any order. Steps are taken
by whichever node is able to, at any clock reading. `MutexInvariant` and `MutexSafety` prove the safety
theorems over every run; `MutexNoRetry` discharges the assumption on grants for runs without repeated
broadcasts by counting, for each pair of nodes, the one token a round puts into circulation. `MutexInOrder`
singles out the runs in which all messages between two nodes, grants included, arrive in order, `MutexHistory`
builds such runs passage by passage, and `MutexCounterexample` uses them to show that with repeated broadcasts
any two of any number of nodes can be inside at once. `MutexOrder` and `MutexMembership` hold what is true of
timestamps, leases and gossip.

The comment at `bingle_core/src/distributed_mutex/mod.rs:74-80` says that all-node acks yield mutual
exclusion directly. The code needs more: a reply does not say which round it answers, so the second reply to
a repeated request can be counted in the next round. The safety theorems name every assumption they use:

- every node knows exactly the nodes there are, and no send fails (`FullyKnown`, `Delivered`);
- nobody grants or enters on the lapse of a lease it gave to another node (`LeasesHold`);
- a grant that arrives while a request is pending finds its voter's vote recorded for that very request
  (`GrantsBacked`, shown to be exact by `BackedExactly`), or, instead, no request is broadcast twice in its
  round (`SentOnce`).

**The expiring advert database.** `AdvertDb` is the backend object with its time to live, sweep, relay
snapshot, eviction and dump; `AdvertLog` proves it against the log of its operations. Where the interface
comment says that endpoints are absent when none is known, the code answers an empty list when there are no
relays; the model follows the code.

**The two-way handle cache.** `HandleCache` is the object with its two maps and the proof against its inserts.

**Registration and recovery groups.** `RegistrationGroup` holds the checks, each proved to pass exactly one
template, and the two signing methods; `Ledger` says what the signed transactions do to every account of every
ledger. The comment in `register_args` relies on a length check for handles over 65535 bytes that does not
exist; the model follows the code and states when the argument is well formed.

**Codecs and ranking.** `DtlsHello` and `DtlsRecords` cover the record layer of section 4.1 of RFC 6347, the
handshake header of section 4.2.2 of RFC 6347 and the hello extensions of section 7.4.1.4 of RFC 5246;
`SealedEnvelope` the envelope over HPKE (section 6.1 of RFC 9180); `SidewinderEndpoint` the endpoint record;
`HandleRanking` the handle search. In summary mode the handshake type of an empty handshake record is read
from the record that follows it; `ModesAgree` states so.

Base64, msgpack, JSON, UTF-8, hashing, signatures, HPKE, the character tables and number parsing are
function parameters; where a theorem needs them to be inverse or correct, it says so in its `requires`. Clocks
are arguments. `Wrappers`, `Bytes`, `Order` and `Sorting` are shared helpers.

## Model

| member | source | states |
|---|---|---|
| `MutexSafety.MutualExclusion` | bingle_core/src/distributed_mutex/mod.rs:319-695 | In every run of any number of nodes with a full, fixed membership, no failed send, no action on the lapse of a lease given to another node, and grants counted only while the voter's vote is recorded for the very request they are counted for: at every point at most one node is in its critical section |
| `MutexNoRetry.MutualExclusionSentOnce` | bingle_core/src/distributed_mutex/mod.rs:499-695 | The same with no assumption on grants at all, for runs in which no request is broadcast twice in its round |
| `MutexNoRetry.SentOnceIsOrderly` | bingle_core/src/distributed_mutex/mod.rs:215-238 | A run that broadcasts each request once meets every assumption of the safety theorem: each grant it counts is backed |
| `MutexSafety.BackedExactly` | bingle_core/src/distributed_mutex/mod.rs:419-445 | The assumption on grants is exact: in every state such a run reaches, a step that meets the other assumptions keeps every counted vote recorded for its request if and only if it meets this one |
| `MutexCounterexample.ExclusionExactly` | bingle_core/src/distributed_mutex/mod.rs:626-633 | Where requests may be repeated, for every set of nodes: exclusion holds in every run without failed sends and lapsed leases if and only if there is at most one node, and likewise for the runs in which all messages between two nodes arrive in order |
| `MutexCounterexample.RetriesBreakExclusion` | bingle_core/src/distributed_mutex/mod.rs:74-80 | For any two nodes of any set of nodes there is a run, no send failing, no lease lapsing and every message in order, that ends with both inside, because a reply carries no timestamp |
| `MutexSafety.ExclusiveVote` | bingle_core/src/distributed_mutex/mod.rs:338-396 | In every such run, a vote that is counted, in flight for the current round, or not yet given back by a handled release is recorded as the voter's holder, and for the very request if it is counted or in flight; a node inside holds its own vote |
| `MutexSafety.RequestNotLost` | bingle_core/src/distributed_mutex/mod.rs:338-473 | In every such run, a request a voter has handled stays with it until its release is handled: the voter has the requester as holder, or still defers that very request; and while the requester waits, it has the ack, or the grant is under way, or the request is deferred |
| `MutexSafety.KeepStep` | bingle_core/src/distributed_mutex/mod.rs:319-695 | Every step of the system keeps the invariant those theorems rest on |
| `MutexOrder.TicketsUnique` | bingle_core/src/distributed_mutex/mod.rs:505-511 | In every run, whatever fails, no two requests carry the same (timestamp, id), and a node's own timestamps strictly increase |
| `MutexOrder.RequestAfterHandled` | bingle_core/src/distributed_mutex/mod.rs:326-328 | In every run a node's request is later than every request it handled before |
| `MutexOrder.ExactlyOneYields` | bingle_core/src/distributed_mutex/mod.rs:358-371 | Of two nodes that both ask, with no critical section or lease in the way, exactly one grants the other |
| `MutexOrder.RetriesKeepLease` | bingle_core/src/distributed_mutex/mod.rs:343-395 | Through any interleaving of repeats of the granted request and requests, replies and attempts to enter by others before the deadline, the recorded lease stays the same, nobody else is granted and the node does not enter |
| `MutexOrder.GrantStartsLease` | bingle_core/src/distributed_mutex/mod.rs:373-395 | From a first grant of a request the deadline stays the time of the grant plus the lease, through any such interleaving |
| `MutexMembership.GossipTerminates` | bingle_core/src/distributed_mutex/mod.rs:294-316 | In every run without a failed send the announcements of any set of nodes together number at most the ids those nodes missed at the start |
| `MutexMembership.GossipBounded` | bingle_core/src/distributed_mutex/mod.rs:133-159 | A node never hears of anyone nobody knew at the start, forgets nobody, and announces at most once per id it did not know |
| `MutexMembership.AckCountMeansAll` | bingle_core/src/distributed_mutex/mod.rs:536-537 | In every run without a failed send acks are members, so the count test passes exactly when every member has agreed |
| `MutexMembership.SelfIsMember` | bingle_core/src/distributed_mutex/mod.rs:126-147 | In every run, whatever fails, a node is a member of its own set |
| `MutexMembership.PruneMiscountsWhen` | bingle_core/src/distributed_mutex/mod.rs:244-272 | Pruning keeps the acks of the pruned; in every state, and after any earlier prune, the count then passes without some member's ack exactly when someone lacks and the acks of nodes no longer members are at least as many as those who lack |
| `MutexMembership.PruneMiscounts` | bingle_core/src/distributed_mutex/mod.rs:244-272 | A state of three nodes in which it does |
| `LamportMutex.Mutex.constructor` | bingle_core/src/distributed_mutex/mod.rs:172-213 | A new node knows itself and whom it was told of, at clock zero, with nothing granted |
| `LamportMutex.Mutex.UpdateMembership` | bingle_core/src/distributed_mutex/mod.rs:133-159 | The membership grows by the sender and whom it knows; reports whether anyone was new |
| `LamportMutex.Mutex.Decide` | bingle_core/src/distributed_mutex/mod.rs:338-396 | Grants exactly when not inside, not bound by another's lease and not itself asking with an earlier request; otherwise defers; a repeated grant keeps its deadline |
| `LamportMutex.Mutex.HandleRequest` | bingle_core/src/distributed_mutex/mod.rs:319-417 | The whole new state, whether a reply is sent and whether gossip follows |
| `LamportMutex.Mutex.HandleReply` | bingle_core/src/distributed_mutex/mod.rs:419-445 | The whole new state: the ack counts only while a request is pending and the reply is not a membership announcement |
| `LamportMutex.Mutex.HandleRelease` | bingle_core/src/distributed_mutex/mod.rs:447-495 | The whole new state: the hold of the releasing node ends and the earliest deferred request, if any, is granted |
| `LamportMutex.Mutex.BeginAcquire` | bingle_core/src/distributed_mutex/mod.rs:505-519 | A fresh timestamp and the own ack alone |
| `LamportMutex.Mutex.TryEnter` | bingle_core/src/distributed_mutex/mod.rs:534-577 | Enters exactly when the acks reach the member count and no unexpired lease of another node binds the own vote |
| `LamportMutex.Mutex.FinishAcquire` | bingle_core/src/distributed_mutex/mod.rs:647-676 | Leaves the critical section and passes the vote to the earliest deferred request, or frees it |
| `LamportMutex.Mutex.PruneUnreachable` | bingle_core/src/distributed_mutex/mod.rs:244-272 | Removes the unreachable from members, deferred requests and hold; acks stay |
| `LamportMutex.Mutex.BroadcastRequest` | bingle_core/src/distributed_mutex/mod.rs:215-238 | Tries every other member exactly once and prunes exactly those it did not reach |
| `LamportNode.First` | bingle_core/src/distributed_mutex/mod.rs:461-473 | The deferred request taken next is the least by (timestamp, id) |
| `AdvertLog.RefinesTimedMap` | bingle_core/src/ddb/mod.rs:226-264 | After any upserts, deletes and sweeps under a nondecreasing clock, a lookup answers the last write of the id that no delete followed, unless it has expired |
| `AdvertLog.SweepingIsInvisible` | bingle_core/src/ddb/mod.rs:357-369 | At any time the live records are those of a database with the same history that never swept |
| `AdvertLog.SweepsDoNotShow` | bingle_core/src/ddb/mod.rs:266-351 | So any dump and any relay snapshot come out equal with and without the sweeps |
| `AdvertLog.OwnIdShowsSweeps` | bingle_core/src/ddb/mod.rs:222-236 | The fixed own id is needed: for every expired non-relay record, becoming the owner of its id after a sweep tells the two databases apart |
| `AdvertLog.SnapshotUnique` | bingle_core/src/ddb/mod.rs:266-286 | The relay snapshot is determined by the live records |
| `AdvertDb.ListsUnique` | bingle_core/src/ddb/mod.rs:302-351 | The dump in id order is determined by the live records |
| `AdvertLog.DumpReplicates` | bingle_core/src/ddb/mod.rs:288-351 | Replaying a dump into an empty database gives the same live records at that instant exactly when the peer's time to live does not expire one of them at once |
| `AdvertLog.CountReachedAtLast` | bingle_core/src/ddb/mod.rs:288-355 | After the first k dumped records the peer counts those of them its time to live does not expire at once, which is k exactly when it expires none of them; so the announced number is reached at the last record and not before exactly then |
| `AdvertDb.EffectiveTtl` | bingle_core/src/ddb/mod.rs:117-123 | 600 seconds when unset, absent exactly when zero was asked for, and otherwise what was asked for |
| `AdvertDb.RelaysToEvict` | bingle_core/src/ddb/mod.rs:50-61 | Exactly the relays other than the node itself with a definite refusal, each once |
| `AdvertDb.Backend.constructor` | bingle_core/src/ddb/mod.rs:203-209 | A new database is empty, with the given time to live and no own id |
| `AdvertDb.Backend.SetOwnId` | bingle_core/src/ddb/mod.rs:222-224 | Only the own id changes |
| `AdvertDb.Backend.Upsert` | bingle_core/src/ddb/mod.rs:248-252 | The record is stored under its id with the time it came |
| `AdvertDb.Backend.Delete` | bingle_core/src/ddb/mod.rs:254-256 | Only that id goes |
| `AdvertDb.Backend.Find` | bingle_core/src/ddb/mod.rs:258-264 | The live record of the id |
| `AdvertDb.Backend.LiveRecords` | bingle_core/src/ddb/mod.rs:238-244 | Every live record exactly once |
| `AdvertDb.Backend.Len` | bingle_core/src/ddb/mod.rs:353-355 | The number of live records |
| `AdvertDb.Backend.MakeEpochInfo` | bingle_core/src/ddb/mod.rs:266-286 | Exactly the live relays in strictly increasing id order; endpoints aligned by position, present exactly when every relay has one |
| `AdvertDb.Backend.HandleInit` | bingle_core/src/ddb/mod.rs:288-351 | Each live record once in strictly increasing id order, and their number announced |
| `AdvertDb.Backend.PlanEviction` | bingle_core/src/ddb/mod.rs:74-82 | The first lock section: exactly the relays then in the database, other than the node itself, with a definite refusal, each once |
| `AdvertDb.Backend.RemoveAll` | bingle_core/src/ddb/mod.rs:86-94 | The second lock section, on whatever the database has become meanwhile: exactly the planned ids go and every other record stays as it is |
| `AdvertDb.Backend.EvictDisallowedRelays` | bingle_core/src/ddb/mod.rs:69-100 | Removes exactly the relays, other than the node itself, with a definite refusal, and leaves every other record as it was |
| `AdvertDb.Backend.SweepExpired` | bingle_core/src/ddb/mod.rs:357-369 | Removes exactly the expired records and reports each of their ids once |
| `HandleCache.RefinesLog` | bingle_core/src/api/bingle_api_impl.rs:112-147 | After any operations under a fixed expiry and a nondecreasing clock, handle h yields user u exactly when the last insert of h paired it with u, no later insert gave u another handle, and its age is below the expiry |
| `HandleCache.DirectionsAgree` | bingle_core/src/api/bingle_api_impl.rs:132-164 | After any operations the two maps are inverse to each other with equal timestamps, and h yields u exactly when u yields h |
| `HandleCache.HandleCacheBi.Insert` | bingle_core/src/api/bingle_api_impl.rs:112-130 | Every pair that mentions the handle or the user goes and the new pair comes; the maps stay inverse |
| `HandleCache.HandleCacheBi.GetIdByHandle` | bingle_core/src/api/bingle_api_impl.rs:132-147 | The unexpired user of the handle; an expired pair goes from both maps |
| `HandleCache.HandleCacheBi.GetHandleById` | bingle_core/src/api/bingle_api_impl.rs:149-164 | The unexpired handle of the user; an expired pair goes from both maps |
| `RegistrationGroup.SignRegistrationGroup` | bingle_core/src/blockchain/registration_group.rs:170-196 | Succeeds exactly when the declarative template holds of the whole group, and then returns the four signed transactions in index order |
| `RegistrationGroup.SignRecoveryGroup` | bingle_core/src/blockchain/registration_group.rs:202-263 | Succeeds exactly when the recovery template holds, and then returns the seven signed transactions in index order, the first three under the old key |
| `RegistrationGroup.DecodeGroup` | bingle_core/src/blockchain/registration_group.rs:327-353 | Succeeds exactly when every transaction decodes and all carry one and the same group id, and returns their bytes |
| `RegistrationGroup.CheckBasics` | bingle_core/src/blockchain/registration_group.rs:364-395 | Passes exactly the transactions of the sender within the fee limit that neither rekey nor carry a note or a lease |
| `RegistrationGroup.CheckAssetTransfer` | bingle_core/src/blockchain/registration_group.rs:407-455 | Passes exactly the transfers that equal the template in every field but fee, validity, network, group, note, lease and rekey |
| `RegistrationGroup.CheckAssetOptIn` | bingle_core/src/blockchain/registration_group.rs:397-405 | Passes exactly the transfers of nothing to the sender itself |
| `RegistrationGroup.CheckPaymentClose` | bingle_core/src/blockchain/registration_group.rs:458-493 | Passes exactly the account closes that equal the template in every field but those |
| `RegistrationGroup.CheckAppCall` | bingle_core/src/blockchain/registration_group.rs:497-570 | Passes exactly the application calls that equal the template in every field but those |
| `RegistrationGroup.OnlyFields` | bingle_core/src/blockchain/registration_group.rs:573-583 | Passes exactly when none of the listed fields is present |
| `RegistrationGroup.Sign` | bingle_core/src/blockchain/registration_group.rs:618-633 | The output is the base64 of the signed form of the very bytes given |
| `RegistrationGroup.SignedKeepsBytes` | bingle_core/src/blockchain/registration_group.rs:615-633 | The decoded output ends with the original transaction bytes, unchanged, and holds the signature over them |
| `RegistrationGroup.ArgumentWellFormedWhen` | bingle_core/src/blockchain/registration_group.rs:284-292 | The handle argument is a well-formed length-prefixed string exactly when the handle has at most 65535 bytes |
| `Ledger.RecoveryConservation` | bingle_core/src/blockchain/registration_group.rs:202-263 | For every accepted recovery group and every ledger it runs on, for every account: the old account's Bingle$ all go to the funder, its remaining Algo all to the new account, exactly 1 Bingle$ goes from the funder by way of the new account to the application, the client's fees are at most 7 maximum fees, and no account but the funder's is rekeyed |
| `Ledger.RegistrationCost` | bingle_core/src/blockchain/registration_group.rs:170-196 | For every accepted registration group and every run of it on a ledger, whatever transactions others sign and add: the client's Bingle$ at the end plus 1 plus what is clawed back equals its Bingle$ at the start plus what it receives, so it is at most 1 down exactly when no more is clawed back than received; its Algo goes for its own fees only, at most 4 maximum fees, and its account stays its own |
| `Ledger.ClawbackBreaksBound` | bingle_core/src/blockchain/registration_group.rs:327-353 | Transactions the client does not sign are not checked: for every n there is an accepted group, signed as the ledger demands, that takes n Bingle$ from the client beyond the 1 it pays |
| `Ledger.RunBalance` | bingle_core/src/blockchain/registration_group.rs:14-22 | Over any run of any transactions, for every account: what it has at the end and what went out equal what it had at the start and what came in, Bingle$ and Algo |
| `Ledger.RegistrationStepEffect` | bingle_core/src/blockchain/registration_group.rs:364-455 | Each client transaction of a registration costs its fee, the one at position 4 moves exactly 1 Bingle$ to the application, and no account changes otherwise |
| `Ledger.RunConserves` | bingle_core/src/blockchain/registration_group.rs:14-22 | Over any run of any transactions all Algo stays in accounts or is paid as fees, and all Bingle$ stays in accounts |
| `DtlsRecords.DatagramRoundTrip` | bingle_core/src/dtls/dtls_debug.rs:167-267 | Every datagram the full decoder accepts is re-encoded to the same bytes |
| `DtlsRecords.RecordsRoundTrip` | bingle_core/src/dtls/dtls_debug.rs:448-486 | Records encode exactly when every payload is base64 of the announced length and every sequence number fits 48 bits, and then decode back to themselves, the parts derived from the payload worked out afresh |
| `DtlsRecords.OwnRoundTrip` | bingle_core/src/dtls/dtls_debug.rs:448-486 | Records as the decoder leaves them decode back to exactly themselves |
| `DtlsRecords.ModesAgree` | bingle_core/src/dtls/dtls_debug.rs:268-318 | Full and summary mode accept the same datagrams, fail with the same error, and see the same records at the same boundaries; the handshake type shown for an empty record is the first byte of the record after it |
| `DtlsRecords.Decode` | bingle_core/src/dtls/dtls_debug.rs:167-267 | The loop yields the records of the datagram, or the error of the first record that is cut short |
| `DtlsRecords.Encode` | bingle_core/src/dtls/dtls_debug.rs:448-486 | The loop yields the joined bytes, or the error of the first record that cannot be encoded |
| `DtlsRecords.Summarise` | bingle_core/src/dtls/dtls_debug.rs:268-318 | The loop yields one entry per record, or the same error |
| `DtlsRecords.ReadHandshake` | bingle_core/src/dtls/dtls_debug.rs:195-242 | The handshake header fields and, for the first fragment of a hello, its extensions |
| `DtlsRecords.WholeMessage` | bingle_core/src/dtls/dtls_debug.rs:195-242 | A handshake message in one piece reads back with its header fields and its body's extensions |
| `DtlsRecords.ClientHelloMessage` | bingle_core/src/dtls/dtls_debug.rs:195-242 | A complete ClientHello message reads back with exactly its extension ids |
| `DtlsRecords.ServerHelloMessage` | bingle_core/src/dtls/dtls_debug.rs:195-242 | A complete ServerHello message reads back with exactly its extension ids |
| `DtlsHello.ParseClientHello` | bingle_core/src/dtls/dtls_debug.rs:325-384 | The cursor walk finds the extensions of the field-by-field description |
| `DtlsHello.ParseServerHello` | bingle_core/src/dtls/dtls_debug.rs:386-425 | The cursor walk finds the extensions of the field-by-field description |
| `DtlsHello.ParseExtensions` | bingle_core/src/dtls/dtls_debug.rs:427-443 | The loop lists the ids of the extension list, or fails where one is cut short |
| `DtlsHello.ClientHelloRoundTrip` | bingle_core/src/dtls/dtls_debug.rs:325-384 | Of every well-formed ClientHello exactly its extension ids are found, in order |
| `DtlsHello.ServerHelloRoundTrip` | bingle_core/src/dtls/dtls_debug.rs:386-425 | Of every well-formed ServerHello exactly its extension ids are found, in order |
| `DtlsHello.ExtensionsAccepted` | bingle_core/src/dtls/dtls_debug.rs:427-443 | A list is accepted exactly when it is whole extensions followed by fewer than four stray bytes |
| `SealedEnvelope.UnsealUndoesSeal` | bingle_core/src/crypto/sealed_envelope.rs:335-400 | Given correct HPKE and signatures, the recipient opens whatever was sealed for it and reads the sender, time, id and text that went in |
| `SealedEnvelope.UnsealExactly` | bingle_core/src/crypto/sealed_envelope.rs:383-400 | Opening succeeds exactly on envelopes of version 1 and suite 1 whose ciphertext opens to a payload signed by its sender over sender, this recipient, time and text, and answers that payload's fields |
| `SealedEnvelope.SignedMessageInjective` | bingle_core/src/crypto/sealed_envelope.rs:81-93 | No two different sets of sender, recipient, time and text are signed as the same bytes |
| `SealedEnvelope.InnerExactly` | bingle_core/src/crypto/sealed_envelope.rs:136-181 | Parsing an inner payload accepts exactly what printing produces and undoes it |
| `SealedEnvelope.EnvelopeExactly` | bingle_core/src/crypto/sealed_envelope.rs:270-300 | Parsing an envelope accepts exactly what printing produces and undoes it |
| `SealedEnvelope.EnvelopeAccepted` | bingle_core/src/crypto/sealed_envelope.rs:285-300 | Exactly the byte sequences of at least a header are envelopes |
| `SidewinderEndpoint.Decode` | bingle_core/src/blockchain/sidewinder_endpoint.rs:109-135 | Accepts exactly the encodings of records with an endpoint and no IPv6 flow information or scope, and answers the record encoded |
| `SidewinderEndpoint.Encode` | bingle_core/src/blockchain/sidewinder_endpoint.rs:86-105 | The flags and blocks of the record, at most 25 bytes |
| `SidewinderEndpoint.EncodingInjective` | bingle_core/src/blockchain/sidewinder_endpoint.rs:86-105 | Different records have different encodings, flow information and scope aside |
| `SidewinderEndpoint.RoundTrip` | bingle_core/src/blockchain/sidewinder_endpoint.rs:86-135 | A record reads back as itself exactly when it has an endpoint and its IPv6 address carries no flow information and no scope; otherwise those two are lost |
| `SidewinderEndpoint.New` | bingle_core/src/blockchain/sidewinder_endpoint.rs:52-54 | Nothing exactly when both endpoints are absent |
| `SidewinderEndpoint.FromSockets` | bingle_core/src/blockchain/sidewinder_endpoint.rs:59-69 | Only an address of the matching family is published |
| `HandleRanking.LookupLeadsSearch` | bingle_core/src/blockchain/algo_bingle.rs:1448-1531 | For a handle with non-empty normal form, the account the exact lookup finds is the first search result for every positive limit, marked exact, with its handle as registered |
| `HandleRanking.NoLookupNoneExact` | bingle_core/src/blockchain/algo_bingle.rs:1448-1475 | When the exact lookup finds nothing, no search result is marked exact |
| `HandleRanking.LookupIsOldest` | bingle_core/src/blockchain/algo_bingle.rs:1492-1531 | The lookup answers an account whose handle matches and which is the oldest such, ties to the smaller address, and nothing only when none matches |
| `HandleRanking.SearchIgnoresOrder` | bingle_core/src/blockchain/algo_bingle.rs:1448-1475 | For accounts with distinct addresses the search answers the same for every scan order |
| `HandleRanking.LookupIgnoresOrder` | bingle_core/src/blockchain/algo_bingle.rs:1517-1531 | The exact lookup answers the same for every scan order |
| `HandleRanking.SmallerLimitIsPrefix` | bingle_core/src/blockchain/algo_bingle.rs:1470-1474 | A smaller limit gives a prefix of the answer for a larger one |
| `HandleRanking.EmptyPrefixFindsNothing` | bingle_core/src/blockchain/algo_bingle.rs:1548-1551 | A prefix with empty normal form is never found |
| `HandleRanking.ExtractHandleMatch` | bingle_core/src/blockchain/algo_bingle.rs:1492-1514 | Appends the account, with its handle time, exactly when its normal form equals the wanted one |
| `HandleRanking.HandlePrefixMatch` | bingle_core/src/blockchain/algo_bingle.rs:1543-1563 | Appends the account exactly when a non-empty normal form begins its own |
| `HandleRanking.ScanExact` | bingle_core/src/blockchain/algo_bingle.rs:1492-1514 | The scan collects the exact matches in scan order |
| `HandleRanking.ScanPrefix` | bingle_core/src/blockchain/algo_bingle.rs:1433-1438 | The scan collects the prefix matches in scan order |

## Left out

- Threads, condition variables, sleeping and backoff in `acquire`: steps of a program counter at arbitrary clock readings instead.
- Failures of replies, releases and gossip: only a failed request send is a step, because only it changes the membership.
- Mutual exclusion across lease expiry, partition or pruning, which the code gives up.
- Freedom from deadlock: without lease expiry the protocol does not have it, since a release hands the vote to a deferred request even while the node itself waits.
- AdvertDb.Backend.EvictDisallowedRelays: the two lock sections one after the other; each is also a method of its own, for a database that changes in between. A poisoned lock is not modelled.
- `LocalDistributedMutex`, which wraps a library lock.
- The width of timestamps: 64-bit wrap-around of the Lamport clock is not modelled; the clock is an unbounded integer.
- The closure run inside the critical section.
- Ledger.RegistrationCost: effects of inner transactions a called application may issue are not part of the ledger; neither are minimum balances and opt-ins, which only forbid runs.
- Ledger.RecoveryConservation: speaks of the first eight transactions, as what the service appends after them is not the client's; inner transactions of the application a recovery calls are not part of the ledger either.
- The texts of the errors, the human-readable names of content types, handshake types and extensions, and the layout of the JSON and of the summary line.
- SealedEnvelope.UnsealUndoesSeal: secrecy and unforgeability are not stated; only that correct primitives compose.
- Base64 around the endpoint record, and `socket_addrs`.
- Algorand node and indexer access, the rest of `AlgoBingle` and of the API implementation, PKI, the engine, the CLI, the web server and the language bridges.
- Advert text formats and funding estimates: easy arithmetic or library parsing.
