# A verified model of ibc-rs

This project models the protocol core of ibc-rs, an implementation of the Inter-Blockchain Communication
protocol, and proves what the protocol promises about it. Every `.dfy` file is one module.
`dafny verify dfyconfig.toml` checks them all.

## What is modelled

**Token transfer over unreliable relaying (ICS-20 on ICS-04).** `Denoms` holds the trace algebra, `Transfer` the
bank of one chain with its escrow, burn, mint and unescrow steps, `TokenNetwork` the network of banks and
transfers as an abstract step system. `Packets` is the concrete system: chains with sequence counters,
commitments, receipts, acknowledgements and block times, and the handlers for send, receive, acknowledge and
timeout. Anyone may deliver any message to any chain, in any order and any number of times, with proofs against
any past state. `Settlement` proves that the concrete system refines the abstract one and counts payouts, so that
exactly-once settlement is a theorem, and with it the two-way peg, conservation and funding over all runs.
`Admission` proves exactly when each handler accepts, in the packet's own limits, and over runs what must have happened
for a packet to be committed, received or settled. `Journeys` proves that the handlers also let a transfer through, and
that nothing stays unsettled for good. `TransferHost` has the host object that updates its fields in place and a network
of such objects, of which the same results hold. `Sums` has the finite sums. The
invariants `WorldInv` and `Inv` hold in every state that is reached with timeouts dated right (`StartInv`, `RunKeeps`),
so what is stated of the states that satisfy them holds of all of those.

**Timeouts and light clients together.** A timeout compares the packet with the height and time under which the
sender's client has filed the proven state. `Timeouts` proves exactly when that is safe, on
the worlds that `Holdings` provides for any denomination. `EndToEnd` composes the packet handlers with
the light clients that check their proofs, and proves the results above for all runs without late headers, and a
concrete run with one in which they fail.

**Connection handshake (ICS-03).** `Handshake` runs the four handlers on any number of chains. Chains see each
other only through proofs of past stores. `Versions` is version negotiation, `VersionAgreement` what it comes to over
whole runs of the handshake, and `ConnectionHost` the host object and a network of them.

**Tendermint light client (ICS-07 under ICS-02).** `TendermintClient` holds client and consensus states, the
neighbour searches, the misbehaviour checks and the update. `ClientRuns` has runs of create, update, misbehaviour
and upgrade messages, freezing, and the connection delay. `ClientSafety` proves exactly when each of these messages is
accepted, and over runs where every stored state, every freeze and every change of the followed chain comes from.
`ClientHost` is the store updated in place.

**Chained Merkle proofs (ICS-23).** `Merkle` has the two verification loops, what their acceptance means, and that good
proofs are accepted. `StoreProofs` joins them with the paths and the commitments: an accepted proof gives exactly the
entry of the packet store that the handlers read, and every entry can be proven.

**Texts and small machinery.** `Text` and `Paths` print and parse numbers, identifiers and store paths, `DenomText`
denominations; what is parsed is said exactly.
`HostWindow` is the sliding block window of the mock host. `Commitments` is the packet commitment pre-image.

## Where the code and its promises differ

- `update_state` files a header under the larger of its own height and the latest height
  (`client_state.rs:136-141`, `488-521`). A late header therefore overwrites the latest state. The model does what
  the code does. `UpdateKeepsTimeExactly`, `StoredUnderOwnHeightExactly` and `FilingExactly` give the exact conditions
  under which time and filing stay in order, and `LateHeaderBreaksTime` is a run in which they do not.
- As a consequence a packet can time out by a height that is not that of the proven state (`timeout.rs:199-220`), and
  then exactly-once settlement fails: `LateHeaderPaysTwice`. `TimeoutsSafeExactly` is the exact condition on a timeout,
  and `OnTimeRunsAreSafe` has all results for runs in which no late header is installed. What is stated in `Settlement`
  of runs with timeouts dated right (`AllTruthful`) asks that condition of the accepted timeouts that settle a packet,
  and of no other message.
- A late header is stamped under its own height, while its state goes under the latest (`client_state.rs:503-520`,
  `update_client.rs:95-104`). So the latest state is replaced and its delay does not start again:
  `ReplacedExactly` says when, and `LateHeaderSkipsDelay` is a run, for any delay.
- A state filed wrong can also turn the followed chain's own headers against the client: `LateHeaderFreezesHonestClient`
  is a run of one honest chain's headers that ends frozen. `ClashFreezesExactly` is the exact condition on one header, and
  `HonestClientIsNeverFrozen` has all runs without late headers.
- `validate_basic` compares the trusted next validators with the header's own next validators (`header.rs:105-138`). So a
  client that is not upgraded never follows a change of validators: `ValidatorsNeverChange`.
- The comment on `pick_version` speaks of descending order. The code sorts ascending and takes the lowest
  identifier, and so does the model.
- `parse_client_paths` indexes a second component that need not be there. `OutOfBoundsExactly` says when.
- `verify_upgrade_client` indexes an upgrade path after removing its last key, so a path of one key panics. The model
  treats that message as having no effect.
- `validate` in `recv_packet.rs` looks the receipt up under the sender's port and channel. Execution looks it up
  under the receiver's, which decides the outcome, and this is the lookup modelled.

## Assumptions

- Commitments, roots and hashes do not collide. A commitment is modelled by what it commits to;
  `CommitmentBinds` justifies this for packets, given a hash that does not collide.
- Each channel end has its own escrow account, distinct from every user account. Signers name user accounts.
- At the start users hold only untraced tokens and escrow accounts are empty.
- A channel end has one counterpart and stays open: the ICS-20 module refuses to start closing a channel.
- The root of a block is that of a tree that holds the chain's store; `StoreProofs` proves what accepted proofs under it
  say. That the block with that root has the height or the time under which a client has filed it is not assumed.
- Headers that pass verification, and the first states of clients in use, are blocks of the followed chain. `EndToEnd` asks
  this of what is installed, through the root that proofs are checked against.
- Single-level ICS-23 checks are sound for the specifications of the client. Where good proofs are said to be accepted,
  they are complete too, for trees with entries: an absence proof needs a neighbour, so no key of an empty tree has one.
- A header's signatures, trust threshold and expiry are one verdict carried by the header.
- A client follows one chain for good, and `validate_self_client` accepts exactly the clients that follow this chain.

## Model

| member | source | states |
|---|---|---|
| `Denoms.RemoveUndoesAdd` | crates/ibc/src/applications/transfer/denom.rs:102-116 | Popping a trace prefix undoes pushing it, and pushing undoes popping a prefix that was there. |
| `Denoms.CrossChannel` | crates/ibc/src/applications/transfer/denom.rs:240-263 | Carrying a reduced token over a channel keeps it reduced and keeps its origin; the opposite transfer restores it and takes the other of the two branches. |
| `Denoms.ThereAndBack` | crates/ibc/src/applications/transfer/relay/on_recv_packet.rs:32-75 | For a journey of any length over any network, carrying a reduced denomination out and back in reverse gives the denomination that left, and every homeward hop takes the opposite branch of its outward hop. |
| `Transfer.RefundReversesSend` | crates/ibc/src/applications/transfer/relay.rs:14-40 | A refund moves every balance of every account by exactly the opposite of what its send moved it by, whatever happened to the ledger between the two. |
| `Transfer.SendCounts` | crates/ibc/src/applications/transfer/relay/send_transfer.rs:121-130 | What a send takes out of any total over accounts and denominations: the sender loses the amount; only an escrowed amount stays on the chain, in the escrow of that channel end. |
| `Transfer.ReceiveCounts` | crates/ibc/src/applications/transfer/relay/on_recv_packet.rs:32-107 | What a receipt adds to any total: the receiver gains the amount in the denomination that arrives; a home-coming token is taken out of the escrow of that channel end, any other is new supply. |
| `Transfer.RefundCounts` | crates/ibc/src/applications/transfer/relay.rs:25-39 | What a refund adds to any total: the mirror image of the send. |
| `TokenNetwork.ActKeepsBacked` | crates/ibc/src/applications/transfer/relay/send_transfer.rs:121-130 | Every send, delivery, refusal and refund keeps, for every channel end and every denomination, the escrow equal to the vouchers on the other side plus the owed transfers in both directions; and the escrow of what came in through that very end empty. |
| `TokenNetwork.ActKeepsRouted` | crates/ibc/src/applications/transfer/relay/on_recv_packet.rs:32-75 | Every step keeps every trace of a held or owed coin a path of open channels from the holding chain that never steps out along a channel and straight back. |
| `TokenNetwork.ActKeepsInv` | crates/ibc/src/applications/transfer/relay.rs:14-40 | Backing and reduced traces together are an inductive invariant of the token network. |
| `TokenNetwork.PayoutsAreFunded` | crates/ibc/src/applications/transfer/relay.rs:14-40 | In every invariant state a pending transfer can be paid to a willing receiver and an owed transfer can be refunded to a willing sender: neither ever fails for lack of coins. |
| `TokenNetwork.ActConservesWealth` | crates/ibc/src/applications/transfer/relay/on_recv_packet.rs:16-110 | No step changes the total of a base token, summed over all users of all chains, under all traces that lead to it, and all owed transfers. |
| `TokenNetwork.ActKeepsNativeSupply` | crates/ibc/src/applications/transfer/relay/send_transfer.rs:88-171 | No step changes the supply of an untraced token on any chain, escrow included. |
| `Packets.RecvKeepsPacket` | crates/ibc/src/core/ics04_channel/handler/recv_packet.rs:149-264 | Receiving a packet before its timeout keeps the link between sender and receiver: a packet received after some block had not timed out at that block. |
| `Packets.TimeoutKeepsPacket` | crates/ibc/src/core/ics04_channel/handler/timeout.rs:148-272 | A packet that had expired unreceived at some block of the receiver has not been received since and can never be received. |
| `Packets.NewIsUnreceived` | crates/ibc/src/core/ics04_channel/handler/send_packet.rs:97-134 | A packet with a fresh sequence number has no receipt on the other side. |
| `Packets.ProvenIsSent` | crates/ibc/src/core/ics04_channel/handler/recv_packet.rs:149-264 | A packet that matches a proven commitment of the sender is the very packet that was sent. |
| `Packets.RepeatChangesNothing` | crates/ibc/src/core/ics04_channel/handler/acknowledgement.rs:39-119 | An acknowledgement or a timeout of a packet whose commitment is gone changes nothing anywhere. |
| `Packets.DispatchKeepsInv` | crates/ibc/src/core/ics04_channel/handler/recv_packet.rs:37-147 | Whatever message is delivered to whatever chain, commitments name packets really sent, receipts and acknowledgements are never taken back, and each packet keeps its place in the life cycle; the one condition is on an accepted timeout that settles its packet, whose packet must have expired at the proven block itself (`TimeoutsSafeExactly`). |
| `Admission.SendAcceptedExactly` | crates/ibc/src/core/ics04_channel/handler/send_packet.rs:33-95 | A packet is sent if and only if the height and the time that the client has seen are at most its limits, its number is the channel's next, and its sender is served and has the amount. |
| `Admission.ReceiveAcceptedExactly` | crates/ibc/src/core/ics04_channel/handler/recv_packet.rs:149-264 | A packet is received if and only if the chain's height and time are at most its limits, its commitment (data and both limits) is proven, and it has no acknowledgement; a new one gets a receipt, and a success as acknowledgement exactly when its receiver could be paid. |
| `Admission.TimeoutAcceptedExactly` | crates/ibc/src/core/ics04_channel/handler/timeout.rs:148-272 | The timeout of a packet with a commitment is accepted if and only if the packet is the committed one, the filed height or the filed time is past its limit, no receipt is proven, and its sender can be refunded; the commitment is then gone. |
| `Admission.AcknowledgementAcceptedExactly` | crates/ibc/src/core/ics04_channel/handler/acknowledgement.rs:121-218 | The acknowledgement of a packet with a commitment is accepted if and only if the packet is the committed one, that very acknowledgement is proven, and after an error the sender can be refunded; the commitment is then gone. |
| `Admission.OneWayOut` | crates/ibc/src/core/ics04_channel/packet.rs:199-206 | At every moment a committed and unreceived packet has exactly one way out: it can be received, or timed out by one who sees the destination as it is. |
| `Admission.CommittedHasCause` | crates/ibc/src/core/ics04_channel/handler/send_packet.rs:33-134 | In every run of any messages, a commitment that appears is that of a packet sent within the limits that the client saw, under the channel's next number, by a sender who could pay. |
| `Admission.ReceivedHasCause` | crates/ibc/src/core/ics04_channel/handler/recv_packet.rs:149-264 | In every run, a receipt that appears is that of a packet proven committed and delivered within its limits of height and time. |
| `Admission.SettledHasCause` | crates/ibc/src/core/ics04_channel/handler/timeout.rs:148-272 | In every run, a commitment that goes was settled by a proven acknowledgement of that packet, or by a proof of its absence filed past one of its limits. |
| `Admission.BlockBeginsExactly` | crates/ibc/src/mock/context.rs:637-658 | A block begins if and only if it is above the last one and not earlier; coins and packet store stay, and the store as it was is what the block commits to, with the block's own time. |
| `Admission.PastNeverChanges` | crates/ibc/src/mock/context.rs:624-634 | In every run of any messages, what a past block committed to stays as it was, so a proof against it says the same for good. |
| `Basics.BelowIsNumeric` | crates/ibc/src/core/ics02_client/height.rs:101-115 | The order of heights is that of single numbers with the revision in front, for any bound on the height inside a revision. |
| `Settlement.Refines` | crates/ibc/src/applications/transfer/context.rs:267-296 | Every packet message delivered to the real handlers is one step of the token network, or no step: the abstraction of the new world is the network step applied to the abstraction of the old. A timeout that settles its packet must be dated right; rejected and repeated ones may carry anything. |
| `Settlement.RunKeeps` | crates/ibc/src/core/ics04_channel/handler/timeout.rs:57-146 | Both invariants hold in every state of every run of arbitrary messages in which the timeouts that settle are dated right. |
| `Settlement.EveryRunIsBacked` | crates/ibc/src/applications/transfer/relay/send_transfer.rs:121-130 | From every start, under any messages in any order and any number of times, the timeouts that settle being dated right, every channel end is backed in every denomination and every trace is reduced. |
| `Settlement.EveryRunConserves` | crates/ibc/src/applications/transfer/relay/on_recv_packet.rs:16-110 | No such run changes the network-wide total of any base token, nor any chain's supply of its own tokens. |
| `Settlement.PaysExactly` | crates/ibc/src/core/ics04_channel/handler/acknowledgement.rs:121-218 | A message pays a packet out, to its receiver or back to its sender, exactly when it turns the packet from unpaid to paid; a paid packet stays paid. |
| `Settlement.OnlyPayoutsMoveCoins` | crates/ibc/src/applications/transfer/context.rs:320-351 | No accepted message other than a transfer and a counted payout moves any coin on any chain. |
| `Settlement.SettledOnce` | crates/ibc/src/core/ics04_channel/handler/acknowledgement.rs:39-218 | In every run, a packet is paid out exactly once if it is unpaid before and paid after, and never otherwise: at most one payout in all, whatever is delivered and however often. |
| `Timeouts.TimeoutsSafeExactly` | crates/ibc/src/core/ics04_channel/handler/timeout.rs:199-220 | For every packet and every proven block, filed under whatever height and time: accepted timeouts that settle the packet are safe in all worlds that satisfy the invariants (the packet was unpaid, and both invariants, the peg included, hold after) if and only if the packet, expired by what is filed, has expired at the block itself. |
| `Timeouts.MisdatedTimeoutPaysTwice` | crates/ibc/src/core/ics04_channel/handler/timeout.rs:199-220 | When it has not, then from any state that satisfies the invariants, on any channel, there is a run in which the packet is paid out twice: the receiver has the amount, and the sender has it back. |
| `EndToEnd.VerifiedIsTruthful` | crates/ibc/src/core/ics04_channel/handler/timeout.rs:199-262 | A timeout whose proof is checked against the root that a client has on file, and whose expiry is judged by the height and time it is filed under, is dated right when the states of the client are under the heights and times of the blocks they show. |
| `EndToEnd.Projects` | crates/ibc/src/core/handler.rs:34-37 | A run of packet and client messages together is a run of the packet handlers on the messages whose proofs verify. |
| `EndToEnd.OnTimeIsTruthful` | crates/ibc/src/core/ics04_channel/handler/timeout.rs:199-262 | Over every such run in which no late header and no foreign first state is installed in a client in use, all timeouts that reach the handlers and settle are dated right. |
| `EndToEnd.OnTimeRunsAreSafe` | crates/ibc/src/core/ics04_channel/handler/timeout.rs:148-272 | In every run of packet handlers and light clients together in which no late header and no foreign first state is installed in a client in use, whatever is rejected or freezes a client: every channel end is backed, every trace reduced, every base token conserved, and every packet paid out at most once. |
| `EndToEnd.LateHeaderPaysTwice` | crates/ibc/src/clients/ics07_tendermint/client_state.rs:488-521 | A concrete run of both together, from a start, with one late header: the packet is paid out twice. |
| `EndToEnd.FrozenClientStopsPackets` | crates/ibc/src/core/ics04_channel/handler/timeout.rs:199-205 | Once the client of a channel end is frozen, then after any events whatever no receipt, acknowledgement or timeout sent to that end changes anything. |
| `Settlement.RefundsSucceed` | crates/ibc/src/applications/transfer/context.rs:386-415 | A proven timeout or error acknowledgement of a packet that still has its commitment is always accepted when the host serves the sender's account. |
| `Settlement.ReceivesSucceed` | crates/ibc/src/applications/transfer/context.rs:267-296 | A packet accepted for a receiver whom the host serves is always paid out, the coins being those of a successful receipt, and acknowledged as a success. |
| `Journeys.HonestTransferArrives` | crates/ibc/src/core/ics04_channel/handler/recv_packet.rs:37-147 | From any state that satisfies the invariants, with active and current clients and the connection delay passed, a transfer that its sender can pay for, relayed in time to a receiver whom the host serves, is accepted at every step, also on a channel of a chain with itself: the receiver gains the amount in the right denomination, the sender loses it, and the packet ends settled and delivered. |
| `Journeys.ExpiredTransferReturns` | crates/ibc/src/core/ics04_channel/handler/timeout.rs:57-146 | From any such state, with an active and current client and the connection delay passed, a transfer that is not relayed before it times out is refunded: every balance of every account on the sender's chain is what it was before the send, and the commitment is gone. |
| `Journeys.EveryPacketCanBeSettled` | crates/ibc/src/core/ics04_channel/handler/acknowledgement.rs:39-119 | From any such state, every packet that still has its commitment can be settled by messages dated right: by its acknowledgement, by its receipt and acknowledgement, or by its timeout. It is then paid out, and its commitment is gone. |
| `TransferHost.Host.MoveCoins` | crates/ibc/src/applications/transfer/context.rs:81-86 | Succeeds exactly when both accounts are served and the balance suffices; then the two balances change by the amount, every other balance and every supply stay, and no other slot appears; else nothing changes. |
| `TransferHost.Host.Mint` | crates/ibc/src/applications/transfer/context.rs:88-93 | Succeeds exactly when the account is served; then its balance and the supply of the denomination rise by the amount and nothing else changes. |
| `TransferHost.Host.Burn` | crates/ibc/src/applications/transfer/context.rs:95-100 | Succeeds exactly when the account is served and the balance suffices; then the balance and the supply of the denomination fall by the amount and nothing else changes. |
| `TransferHost.Host.TakeFromSender` | crates/ibc/src/applications/transfer/relay/send_transfer.rs:121-130 | The escrow-or-burn step, on the host's own fields, does what the ledger model says, and a refused one changes nothing. |
| `TransferHost.Host.PayReceiver` | crates/ibc/src/applications/transfer/relay/on_recv_packet.rs:16-110 | The unescrow-or-mint step, which edits the coin's trace in place, does what the ledger model says, and a failed one changes nothing. |
| `TransferHost.Host.RefundSender` | crates/ibc/src/applications/transfer/relay.rs:14-40 | The refund step, on the host's own fields, does what the ledger model says. |
| `TransferHost.Host.Send` | crates/ibc/src/core/ics04_channel/handler/send_packet.rs:33-134 | The step-by-step send (coins, sequence counter, commitment) reaches exactly the state of the packet model, or rejects and changes nothing. |
| `TransferHost.Host.Recv` | crates/ibc/src/core/ics04_channel/handler/recv_packet.rs:37-264 | The step-by-step receipt (receipt, payout, acknowledgement) reaches exactly the state of the packet model, or rejects and changes nothing. |
| `TransferHost.Host.Acknowledge` | crates/ibc/src/core/ics04_channel/handler/acknowledgement.rs:39-218 | The step-by-step acknowledgement (refund on error, commitment removed) reaches exactly the state of the packet model. |
| `TransferHost.Host.Timeout` | crates/ibc/src/core/ics04_channel/handler/timeout.rs:57-272 | The step-by-step timeout (refund, commitment removed) reaches exactly the state of the packet model, or rejects and changes nothing. |
| `TransferHost.Network.Deliver` | crates/ibc/src/core/handler.rs:34-37 | Handing a message to its host object, with proofs read from the other objects, takes the network of objects to exactly the world that the model dispatches to; it succeeds exactly when the model accepts. |
| `TransferHost.Network.DeliverAll` | crates/ibc/src/core/handler.rs:34-37 | After any messages the objects are as the model says; from a start, with timeouts dated right, their channel ends are backed, tokens conserved, and each packet paid out at most once. |
| `Versions.PickVersion` | crates/ibc/src/core/ics03_connection/version.rs:130-154 | The loop that collects common versions, then sorts and takes the first, computes the specified pick. |
| `Versions.Find` | crates/ibc/src/core/ics03_connection/version.rs:156-171 | The lookup returns the first version of that identifier, and fails exactly when there is none. |
| `Versions.Shared` | crates/ibc/src/core/ics03_connection/version.rs:173-188 | The intersection holds exactly the features of both sides. |
| `Versions.SharedKeepsOrder` | crates/ibc/src/core/ics03_connection/version.rs:173-188 | The intersection keeps the own features in order and number: it splits over concatenation, and keeps a single feature exactly when it is common. |
| `Versions.PrecedesExactly` | crates/ibc/src/core/ics03_connection/version.rs:152-153 | Identifiers are ordered by the first place where they differ: the one that ends there, or has the smaller character, comes first. |
| `Versions.PickIsBest` | crates/ibc/src/core/ics03_connection/version.rs:130-188 | A version is picked exactly when some own version shares a feature with the other side's first version of the same identifier; the pick is an own version narrowed to the common features, no compatible one has a lower identifier, and it always passes the other side's support check. |
| `Versions.PickIsFirst` | crates/ibc/src/core/ics03_connection/version.rs:130-154 | Among own versions that are compatible and of the lowest identifier, the first in the list is picked. |
| `Handshake.ProofIsSound` | crates/ibc/src/core/ics03_connection/handler/conn_open_ack.rs:71-93 | What an accepted proof about a past store still says about the far chain now. |
| `Handshake.DispatchKeepsInv` | crates/ibc/src/core/ics03_connection/handler/conn_open_try.rs:32-200 | Every handshake message, to any chain, by any relayer, keeps the invariant that ties every end to the end it answers. |
| `Handshake.RunIsLater` | crates/ibc/src/core/ics03_connection/connection.rs:272-313 | In every run identifiers are never reused, states only move forward, an Open end never changes, and clients, prefixes and delays never change. |
| `Handshake.Agreement` | crates/ibc/src/core/ics03_connection/handler/conn_open_confirm.rs:28-131 | In every reachable world an Open end and the end it names mirror each other in clients, identifiers, prefixes, delay and their single version; the named end is TryOpen or Open, and Open if the first end answered an Init. |
| `Handshake.OneOpensPerInit` | crates/ibc/src/core/ics03_connection/handler/conn_open_try.rs:136-200 | However often OpenTry is delivered for one Init end, at most one of the ends so created, on whatever chain, ever opens. |
| `Handshake.OneVersion` | crates/ibc/src/core/ics03_connection/handler/conn_open_ack.rs:139-171 | Every end past Init holds exactly one version. |
| `Handshake.HonestRelayOpens` | crates/ibc/src/core/ics03_connection/handler/conn_open_init.rs:14-81 | From any world, two chains (or one with itself) that follow each other with active and current clients, where the second has a version compatible with what the first offers, be it a named version that it supports or all of its versions: when Init, Try, Ack and Confirm are relayed, a new connection opens on both sides, with the version that the second picks and the delay that was asked for. |
| `VersionAgreement.SupportedIsCovered` | crates/ibc/src/core/ics03_connection/version.rs:36-66 | A version passes the support check only if it has features and a listed version has its identifier and all of them; if no identifier is listed twice, also conversely. |
| `VersionAgreement.InitOffersExactly` | crates/ibc/src/core/ics03_connection/handler/conn_open_init.rs:14-81 | An Init is accepted if and only if it names no version or a supported one; the new end then offers exactly the named version, or else all supported ones, each feature being the chain's own under that identifier. |
| `VersionAgreement.RunKeepsVersions` | crates/ibc/src/core/ics03_connection/handler/conn_open_try.rs:136-200 | In every run every end has only versions that its own chain supports, and past Init exactly one, with features. |
| `VersionAgreement.RunNarrows` | crates/ibc/src/core/ics03_connection/handler/conn_open_ack.rs:139-171 | In every run every later version of an end has the identifier of an earlier one and only features of that. |
| `VersionAgreement.OpenVersionIsCommon` | crates/ibc/src/core/ics03_connection/handler/conn_open_confirm.rs:28-131 | In every run the version of every Open end has features, and its identifier and features are supported by both chains. |
| `VersionAgreement.NamedVersionIsAgreed` | crates/ibc/src/core/ics03_connection/handler/conn_open_init.rs:35-40 | If an Init named a version, then whatever messages follow, once that end is open both ends have one and the same version, of the named identifier and with only named features. |
| `ConnectionHost.Host.ConnOpenInit` | crates/ibc/src/core/ics03_connection/handler/conn_open_init.rs:14-81 | The handler on the host's own fields reaches exactly the state of the handshake model, or rejects and changes nothing. |
| `ConnectionHost.Host.ConnOpenTry` | crates/ibc/src/core/ics03_connection/handler/conn_open_try.rs:32-200 | The same for OpenTry. |
| `ConnectionHost.Host.ConnOpenAck` | crates/ibc/src/core/ics03_connection/handler/conn_open_ack.rs:29-197 | The same for OpenAck. |
| `ConnectionHost.Host.ConnOpenConfirm` | crates/ibc/src/core/ics03_connection/handler/conn_open_confirm.rs:28-165 | The same for OpenConfirm. |
| `ConnectionHost.Network.Deliver` | crates/ibc/src/core/handler.rs:34-37 | Handing a message to its host object takes the network of objects to exactly the world that the model dispatches to. |
| `ConnectionHost.Network.DeliverAll` | crates/ibc/src/core/handler.rs:34-37 | After any messages to the objects, from a start, every open connection of every object agrees with the one it names. |
| `TendermintClient.NextConsensusState` | crates/ibc/src/mock/context/clients.rs:35-67 | Scanning the sorted heights finds the state at the least stored height above the given one, or none exactly when there is none. |
| `TendermintClient.PrevConsensusState` | crates/ibc/src/mock/context/clients.rs:69-101 | Scanning downwards finds the state at the greatest stored height below the given one, or none exactly when there is none. |
| `TendermintClient.CheckForMisbehaviour` | crates/ibc/src/clients/ics07_tendermint/client_state/update_client.rs:94-167 | The branching check computes the misbehaviour predicate. |
| `TendermintClient.NeighbourCheckIsExact` | crates/ibc/src/clients/ics07_tendermint/client_state/update_client.rs:94-167 | Looking at two neighbours is enough: a header passes exactly when storing it at its own height would contradict nothing stored and keep time strictly increasing over the whole store. |
| `TendermintClient.EvidenceIsExact` | crates/ibc/src/clients/ics07_tendermint/client_state/misbehaviour.rs:114-136 | Two headers are evidence exactly when no chain with strictly increasing time contains both. |
| `TendermintClient.UpdateKeepsTimeExactly` | crates/ibc/src/clients/ics07_tendermint/client_state.rs:488-521 | A passing header keeps stored time strictly increasing if and only if its height is stored, or above the latest height, or no stored height lies strictly between the two. |
| `TendermintClient.StoredUnderOwnHeightExactly` | crates/ibc/src/clients/ics07_tendermint/client_state.rs:136-141 | After a passing update the state at the header's own height is the header's if and only if that height was stored before or is a new highest one. |
| `ClientRuns.LateHeaderBreaksTime` | crates/ibc/src/clients/ics07_tendermint/client_state.rs:488-521 | On any host in order: create a client at block 5, update it to 8, to 10 and then to 7, all with verified headers of one chain with increasing time. It is not frozen, holds block 7's state under height 10, and its time is out of order. |
| `ClientRuns.FilingExactly` | crates/ibc/src/clients/ics07_tendermint/client_state.rs:136-141 | A header of the followed chain leaves every state under the height and time of the block that proofs against its root are about if and only if its height is stored or is above the latest. |
| `ClientRuns.OnTimeRunsFileRight` | crates/ibc/src/clients/ics07_tendermint/client_state.rs:488-521 | In every run in which no late header and no foreign first state is installed, upgrades, rejected messages and freezes included, every state of the client is under the height and time of the block it shows. |
| `ClientRuns.RunsFileRightExactly` | crates/ibc/src/clients/ics07_tendermint/client_state.rs:488-521 | When the installed headers and first states are blocks of the followed chain: after any run every state is under its own block's height if and only if it was before and no installed header came late. A state filed wrong once stays so. |
| `ClientRuns.ValidatorsNeverChange` | crates/ibc/src/clients/ics07_tendermint/header.rs:105-138 | Over every run, a client that is not upgraded never stores a state with other next validators than those it has. |
| `ClientRuns.DispatchKeepsHost` | crates/ibc/src/core/ics02_client/handler/update_client.rs:16-126 | Every client message keeps every stored client valid with its latest height the highest stored, never lowers a height, never changes a client-chosen parameter, and never touches a frozen client. |
| `ClientRuns.RunKeepsHost` | crates/ibc/src/core/ics02_client/handler/upgrade_client.rs:16-96 | The same over every run of creates, updates, misbehaviour reports and upgrades. |
| `ClientRuns.TimeStepExactly` | crates/ibc/src/clients/ics07_tendermint/client_state/update_client.rs:94-167 | One message keeps stored time strictly increasing in every client if and only if an installed header meets the condition of `UpdateKeepsTimeExactly` and an upgraded state is later than the latest one; rejected messages and freezes never matter. |
| `ClientRuns.ForwardRunsKeepTimes` | crates/ibc/src/clients/ics07_tendermint/client_state.rs:488-521 | In every run of such messages the stored time of every client strictly increases with height. |
| `ClientRuns.FreezesExactly` | crates/ibc/src/core/ics02_client/handler/update_client.rs:45-126 | A verified header freezes an active client if and only if storing it at its own height would contradict a stored state or break the strict order of time anywhere in the store. |
| `ClientRuns.DelayStepExactly` | crates/ibc/src/core/ics03_connection/delay.rs:5-48 | After any message a passed delay is still passed if and only if the message was not a new update for that client and height, or there is nothing to wait for. |
| `ClientRuns.DelayStaysPassed` | crates/ibc/src/core/ics03_connection/delay.rs:5-48 | A passed delay stays passed over every run that does not update that client at that height again. |
| `ClientRuns.ReplacedExactly` | crates/ibc/src/clients/ics07_tendermint/client_state.rs:503-520 | A message changes the state stored at a height if and only if it installs a late header with another state and that height is the latest. |
| `ClientRuns.ReplacedStateKeepsItsDelay` | crates/ibc/src/clients/ics07_tendermint/client_state.rs:503-520 | Whenever a state is replaced whose delay has passed, the header is from below its height, and the delay counts as passed still. |
| `ClientRuns.LateHeaderSkipsDelay` | crates/ibc/src/core/ics02_client/handler/update_client.rs:95-104 | A run for every delay: create at block 5, update to 10, wait until the delay has passed, update to 7. The state at height 10 is then block 7's, and its delay counts as passed at once. |
| `ClientSafety.UpdateAcceptedExactly` | crates/ibc/src/clients/ics07_tendermint/client_state/update_client.rs:17-92 | An update is accepted if and only if the client is active and the header is signed, of the client's revision, above its trusted height in the same revision, with matching validator hashes, and its trusted height is stored with its trusted and its own next validators. |
| `ClientSafety.HonestReportChangesNothing` | crates/ibc/src/clients/ics07_tendermint/client_state/misbehaviour.rs:114-136 | A report of two headers that one chain with strictly increasing time has changes nothing. |
| `ClientSafety.ReportAcceptedExactly` | crates/ibc/src/clients/ics07_tendermint/client_state/misbehaviour.rs:21-112 | A report is accepted if and only if the client is active, both headers are signed and anchored in stored states within the trusting period, they are of one chain and revision with the higher one first, and no chain with strictly increasing time has both; the client is then frozen and nothing else changes. |
| `ClientSafety.UpgradeAcceptedExactly` | crates/ibc/src/clients/ics07_tendermint/client_state.rs:312-378 | An upgrade is accepted if and only if it is proven, the client is active and its latest state within the trusting period, its upgrade path has two keys or more, and the upgraded state is not frozen, is higher, and is valid beside the client's own parameters. |
| `ClientSafety.UpgradeTakesOver` | crates/ibc/src/clients/ics07_tendermint/client_state.rs:538-595 | After an upgrade the chain name, revision, unbonding period, proof specifications, upgrade path and latest height are the upgraded client's, a state with the upgraded time and next validators is stored at that height under the stand-in root, and what the client chose itself stays. |
| `ClientSafety.CreateAcceptedExactly` | crates/ibc/src/core/ics02_client/handler/create_client.rs:17-103 | A client is created if and only if each of its parameters is in range, it is not frozen and its first state has a root; it takes the next identifier, with that state alone. |
| `ClientSafety.StampedExactly` | crates/ibc/src/core/ics02_client/handler/create_client.rs:86-87 | The time and height of processing are written for a client and height exactly when its first state is stored there or a header of that height passes the check, and are the host's own. |
| `ClientSafety.ClientsStaySane` | crates/ibc/src/clients/ics07_tendermint/client_state.rs:150-226 | In every run every client keeps each parameter in range, has a state at its latest height, and has none above it. |
| `ClientSafety.ChangeHasCause` | crates/ibc/src/core/ics02_client/handler/update_client.rs:16-126 | In every run, a client that is not what it was has accepted a signed header anchored in a stored state, a report of two trusted headers that no honest chain has, or a proven upgrade within the trusting period. |
| `ClientSafety.UnsignedChangesNothing` | crates/ibc/src/clients/ics07_tendermint/client_state/update_client.rs:85-88 | If no update for a client is signed, and every report and upgrade for it is rejected or lacks a signature or its proof, then no run changes anything of it. |
| `ClientSafety.StateHasSource` | crates/ibc/src/clients/ics07_tendermint/client_state.rs:488-521 | In every run, each stored state was there at the start, or is the first state of a client, or has an upgrade's time and next validators, or is that of a signed header of the client's revision above a trusted height that was stored with those next validators, under the header's own height or else the latest. |
| `ClientSafety.FollowedChainHasSource` | crates/ibc/src/clients/ics07_tendermint/client_state.rs:538-595 | In every run, the chain name, revision, unbonding period, proof specifications and upgrade path of a client are those at the start, those it was created with, or those of an accepted and proven upgrade. |
| `ClientSafety.NeverRedirected` | crates/ibc/src/clients/ics07_tendermint/client_state.rs:354-375 | Without an accepted upgrade that is proven and within the trusting period, no run changes them, whatever headers and reports are sent. |
| `ClientSafety.ClashFreezesExactly` | crates/ibc/src/clients/ics07_tendermint/client_state/update_client.rs:94-167 | While time is in order, a signed header freezes its client if and only if it contradicts a stored state, or is not later than a lower one, or not earlier than a higher one. |
| `ClientSafety.FreezeHasCause` | crates/ibc/src/clients/ics07_tendermint/client_state.rs:523-535 | In every run, a client that was frozen was sent a report of two trusted headers that no honest chain has, or a signed header that clashes with its states. |
| `ClientSafety.HonestClientSurvivesReports` | crates/ibc/src/clients/ics07_tendermint/client_state/misbehaviour.rs:114-136 | If all signed headers for a client are blocks of one honest chain, then in every run no report about it changes anything, and if it was frozen, it was by an update. |
| `ClientSafety.HonestClientIsNeverFrozen` | crates/ibc/src/core/ics02_client/handler/update_client.rs:45-126 | If moreover none of the headers comes late and the client is not upgraded, it is never frozen, and each of its states is that of the block at its height. |
| `ClientSafety.LateHeaderFreezesHonestClient` | crates/ibc/src/clients/ics07_tendermint/client_state.rs:503-520 | With one late header it can be: created at block 5 and updated to 10 and 7, a client is frozen by block 10's own header, all of one honest chain. |
| `ClientHost.Store.StoreClientState` | crates/ibc/src/mock/context/clients.rs:109-128 | Reading back gives the stored client state; every other client state and every consensus state of every client read as before. |
| `ClientHost.Store.StoreConsensusState` | crates/ibc/src/mock/context/clients.rs:130-152 | Reading back gives the stored consensus state at that client and height; everything else reads as before. |
| `ClientHost.Store.Create` | crates/ibc/src/core/ics02_client/handler/create_client.rs:17-103 | The handler on the store's own fields reaches exactly the state of the client model, or rejects and changes nothing. |
| `ClientHost.Store.UpdateState` | crates/ibc/src/clients/ics07_tendermint/client_state.rs:488-521 | Installing a header on the store's own fields: nothing at a stored height, else a state under the new latest height. |
| `ClientHost.Store.UpdateOrFreeze` | crates/ibc/src/core/ics02_client/handler/update_client.rs:16-126 | The update handler, including the freeze on misbehaviour and the time and height stamps, reaches exactly the state of the client model, or rejects and changes nothing. |
| `ClientHost.Store.Misbehaviour` | crates/ibc/src/clients/ics07_tendermint/client_state/misbehaviour.rs:21-136 | The same for a misbehaviour report. |
| `ClientHost.Store.Upgrade` | crates/ibc/src/clients/ics07_tendermint/client_state.rs:538-595 | The same for an upgrade, which keeps the client-chosen parameters. |
| `ClientHost.Store.Deliver` | crates/ibc/src/core/handler.rs:34-37 | Handling any client message takes the store to exactly the host that the model dispatches to. |
| `ClientHost.Store.DeliverAll` | crates/ibc/src/core/handler.rs:34-37 | After any messages the store is as the model says; if it was in order it still is, with every client valid, its latest height the highest stored, and a frozen client unchanged. |
| `Merkle.VerifyMembership` | crates/ibc/src/core/ics23_commitment/merkle.rs:57-120 | The loop over proof levels accepts exactly when the recursive climb from the leaf ends in the root. |
| `Merkle.VerifyNonMembership` | crates/ibc/src/core/ics23_commitment/merkle.rs:122-176 | The absence check, which re-enters the loop one level up, accepts exactly what its specification accepts. |
| `Merkle.MemberIsThere` | crates/ibc/src/core/ics23_commitment/merkle.rs:57-120 | Given single-level checks that are sound for the client's specifications, an accepted proof of any depth means that following the key path from the root yields the value. |
| `Merkle.AbsentIsNotThere` | crates/ibc/src/core/ics23_commitment/merkle.rs:122-176 | An accepted absence proof of any depth means that the path leads to a tree that lacks the last key. |
| `Merkle.NeverBoth` | crates/ibc/src/core/ics23_commitment/merkle.rs:122-176 | Presence and absence are never both accepted under one list of specifications for one root and path, whatever proofs are given. |
| `Merkle.MembersProvenExactly` | crates/ibc/src/core/ics23_commitment/merkle.rs:57-120 | Given single-level checks that are sound, and that have an existence proof for every entry: for any depth, a path has accepted membership proofs for a value if and only if it has as many keys as there are specifications, at least one, and leads from the root to the value, neither being empty. |
| `Merkle.AbsenceProvenExactly` | crates/ibc/src/core/ics23_commitment/merkle.rs:122-189 | Given also an absence proof, by a left neighbour, a right one or both, for every key that a tree with entries lacks: for any depth, a path to such a tree has accepted absence proofs if and only if the tree lacks the last key. |
| `Merkle.IdealChecksAreExact` | crates/ibc/src/core/ics23_commitment/merkle.rs:178-189 | Whatever the trees, there are single-level checks that are sound and complete for them, also with right neighbours alone. |
| `StoreProofs.EveryStoreHasATree` | crates/ibc/src/core/ics24_host/path.rs:409-428 | Every packet store, with any entries of the other parts of the chain, can be laid out in one tree under its printed paths. |
| `StoreProofs.ReadBack` | crates/ibc/src/core/ics24_host/path.rs:409-428 | Reading such a tree at a printed path gives the entry of that very path, and nothing if there is none. |
| `StoreProofs.CommitmentIsShown` | crates/ibc/src/core/ics04_channel/handler/recv_packet.rs:187-226 | An accepted membership proof of a packet's commitment, behind the prefix and under the root of a sender that holds its store in such a tree, means that the store has exactly the commitment that receiving the packet reads. |
| `StoreProofs.AckIsShown` | crates/ibc/src/core/ics04_channel/handler/acknowledgement.rs:184-215 | An accepted membership proof of an acknowledgement means that the receiver's store has exactly the acknowledgement that settling the packet reads. |
| `StoreProofs.AbsenceIsShown` | crates/ibc/src/core/ics04_channel/handler/timeout.rs:249-262 | An accepted absence proof at a receipt's path means that the receiver's store has no receipt of the packet, as timing it out reads. |
| `StoreProofs.CommitmentShownExactly` | crates/ibc/src/core/ics04_channel/handler/recv_packet.rs:187-226 | With checks that are sound and complete, a packet's commitment has accepted proofs under the sender's root if and only if its store has that commitment. |
| `StoreProofs.AckShownExactly` | crates/ibc/src/core/ics04_channel/handler/acknowledgement.rs:184-215 | The same for an acknowledgement in the receiver's store. |
| `StoreProofs.AbsenceShownExactly` | crates/ibc/src/core/ics04_channel/handler/timeout.rs:249-262 | The absence of a receipt has accepted proofs if and only if the receiver's store does not have it, wherever its path sorts, if the store has any entry. |
| `Paths.AtMostOneHits` | crates/ibc/src/core/ics24_host/path.rs:409-428 | At most one of the nine parsers reacts to any list of components. |
| `Paths.PartsParse` | crates/ibc/src/core/ics24_host/path.rs:430-545 | The right parser reads back the components of every valid path. |
| `Paths.ParseUndoesPrintPath` | crates/ibc/src/core/ics24_host/path.rs:409-428 | Every valid path of every kind parses back from its printed form to itself. |
| `Paths.KeysNeverCollide` | crates/ibc/src/core/ics24_host/path.rs:409-428 | Different valid paths never print to the same store key. |
| `Paths.OutOfBoundsExactly` | crates/ibc/src/core/ics24_host/path.rs:430-491 | Parsing reads past the end of its components on the string "clients" and on no other. |
| `Paths.ParsesExactly` | crates/ibc/src/core/ics24_host/path.rs:409-834 | Text parses to a path if and only if the path is valid and the text spells it: component by component as printed, but for the spelling of numbers. |
| `Text.ParseUndoesPrint` | crates/ibc/src/core/ics24_host/path.rs:430-491 | Every 64-bit number parses back from its decimal form. |
| `Text.ParsesNumberExactly` | crates/ibc/src/core/ics24_host/path.rs:465-480 | Text is read as a number if and only if it is that number in decimal, with zeros and one plus sign allowed in front, and the number fits 64 bits. |
| `Text.PrefixFitsExactly` | crates/ibc/src/core/ics24_host/identifier/validate.rs:57-80 | Checking a prefix with the least and the greatest number decides for all: it passes if and only if its length with every 64-bit number behind it is within the limits. |
| `Text.IdentifiersExactly` | crates/ibc/src/core/ics24_host/identifier/validate.rs:12-122 | ASCII text is a client, connection, port or channel identifier if and only if it has only letters, digits and the nine allowed signs, and its length is within the limits of that kind. |
| `Text.OwnIdentifiersAreValid` | crates/ibc/src/core/ics24_host/identifier.rs:203-208 | The client, connection and channel identifiers that a host numbers itself are valid for every counter. |
| `DenomText.ParseTrace` | crates/ibc/src/applications/transfer/denom.rs:124-154 | The loop over component pairs, last pair first, builds the trace that the recursive reading gives, and refuses exactly what that refuses. |
| `DenomText.ParseUndoesPrintDenom` | crates/ibc/src/applications/transfer/denom.rs:320-328 | Printing then parsing gives back every denomination with valid identifiers and a non-blank base without a slash, for traces of any length. |
| `DenomText.PrintUndoesParseDenom` | crates/ibc/src/applications/transfer/denom.rs:265-287 | Parsing then printing gives back every accepted text, character for character. |
| `DenomText.ParsedIsWellFormed` | crates/ibc/src/applications/transfer/denom.rs:265-287 | Whatever text is accepted, the denomination has valid identifiers and a non-blank base without a slash. |
| `DenomText.ParseUndoesPrintTrace` | crates/ibc/src/applications/transfer/denom.rs:156-183 | A trace alone comes back from its text, the empty trace included. |
| `DenomText.TraceParsesExactly` | crates/ibc/src/applications/transfer/denom.rs:156-183 | Text is read as a trace if and only if it is that trace printed, with valid identifiers, or is blank for the empty trace. |
| `DenomText.DenomParsesExactly` | crates/ibc/src/applications/transfer/denom.rs:265-287 | Text is read as a denomination if and only if it is that denomination printed, with valid identifiers and base. |
| `HostWindow.Host.constructor` | crates/ibc/src/mock/context.rs:275-328 | The first window holds the last min(window size, height) blocks up to the latest, in order and one block time apart. |
| `HostWindow.Host.AdvanceHostChainHeight` | crates/ibc/src/mock/context.rs:637-658 | Rotating in place, or pushing, leaves the window equal to the last min(window size, length) blocks of the full chain, which has grown by one block. |
| `HostWindow.Host.HostBlock` | crates/ibc/src/mock/context.rs:624-634 | A block is found exactly when its height lies in the window; it is the one block of the full chain with that height; and the index arithmetic never leaves its range. |
| `HostWindow.Host.WindowHeights` | crates/ibc/src/mock/context.rs:671-696 | In every valid state the window is within its size, its heights are consecutive, and it is no longer than the latest height. |
| `HostWindow.Host.Validate` | crates/ibc/src/mock/context.rs:671-696 | The host's own check accepts exactly the windows that are within size and have consecutive heights. |
| `HostWindow.Host.WithHeight` | crates/ibc/src/mock/context.rs:572-591 | Advancing block by block ends, at exactly the target height, with the old chain as a prefix of the new and the window still its last blocks. |
| `Commitments.ComputePacketCommitment` | crates/ibc/src/core/ics04_channel/commitment.rs:85-102 | The buffer appended to field by field is the specified pre-image. |
| `Commitments.PreImageIsInjective` | crates/ibc/src/core/ics04_channel/commitment.rs:85-102 | Equal pre-images come from equal timeout timestamps, equal timeout heights (no real height looks like "never") and equal data hashes. |
| `Commitments.CommitmentBinds` | crates/ibc/src/core/ics04_channel/commitment.rs:85-102 | With a hash that never collides, equal commitments come from equal data and equal timeouts. |

## Left out

- Channel handshake and closing, ordered channels, and `timeout_on_close`: transfer channels are unordered and stay open.
- The extra guards of packet messages (connection delay, module routing, signers, and outside `EndToEnd` a frozen client): they only reject more messages, so what is proved of all runs covers them; the results about messages being accepted are for when they pass. The delay is modelled on its own in `ClientRuns`.
- Protobuf, JSON, borsh and SCALE encodings, which `StoreProofs` takes to be injective, and so the rejection of data that does not decode; events and logs.
- The Tendermint verifier, validator-set hashing, SHA-256 and the ICS-23 primitives: other crates.
- The mock light client and the relayer utilities: they add no protocol content.
- Overflow of 64-bit counters, sequences, heights and balances: numbers are unbounded, except where text or bytes are read or written.
- `calculate_block_delay`: its floating-point division is replaced by a given number of blocks.
- Misbehaviour reports and updates are typed messages; the dispatch on encoded message types is not modelled.
- Identifier characters: every non-ASCII character is taken as alphanumeric, which admits more identifiers than the code does. The round trips therefore hold for the code's identifiers too.
- The text form of a prefix in `apply_prefix`: a prefix is one key, compared as a whole.
- HostWindow.Host.WithHeight: a smaller height or another revision, where the code panics, is a precondition.
- HostWindow.Host.constructor: the wall clock is a parameter, and it must leave room for the window's block times.
- HostWindow.Host.HostBlock: the revision of the requested height is ignored, as in the code.
- Journeys.HonestTransferArrives: states acceptance without the connection delay and the guards on clients, which are not part of the packet model.
- Journeys.ExpiredTransferReturns: the same.
- Journeys.EveryPacketCanBeSettled: the same.
- Handshake.HonestRelayOpens: the same, for the guards on clients.
