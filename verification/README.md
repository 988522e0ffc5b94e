# Token transfer, denominations, codec, key space and light clients of ibc-go

This project models the parts of ibc-go in which several pieces have to agree with each other, and
proves that they do.

**ICS-20 token transfer.** `Chains` gives the effect of every handler on one chain: the channel
layer's packet life cycle, the transfer application's escrow, burn, unescrow, mint and refund, and
the message server that ties them together. `Keepers` performs the same handlers step by step on a
mutable store with cached contexts and is proved to have these effects, leaf by leaf and as whole
transactions. `Network` joins any number
of chains by any number of channels and lets users, relayers, other modules and time take steps in
any order; relayers may repeat, reorder, delay and make up messages, and only proofs are honest.
`BalanceSheet`, `Packets`, `Safety` and `Runs` prove one inductive invariant, and `Guarantees`,
`Refunds`, `RoundTrips` and `Progress` state what follows: escrow backs vouchers and packets in
flight exactly, packets settle exactly once, refunds and receives never run short, refunds undo sends, and round
trips over any route restore every balance, and whatever can be settled is settled by the right
message. `Acceptance` says exactly when each handler accepts, skips or refuses. `Witness` shows that
the assumptions can be met.

**Denomination traces.** `Denoms` has the string operations, `HopStack` the stack of hops they
stand for and the proof that the strings implement it.

**Store codec.** `Wire` defines varints, fields and the skipping of unknown fields on byte
sequences, `UnknownFields` a grammar of the fields to skip; `Messages` has the loops that fill a
buffer backwards and decode it, for `DenomTrace` and `Height`, and the trace store on top.

**Key space.** `HostKeys` has every key family and both path parsers, `ClientIds` the client
identifiers and chain revisions, `Decimals` the numbers in them; `Formats` spells out the formats
that other programs rely on.

**Light clients.** `Clients` models the shared store of all clients at the level of its string keys,
`ClientKeepers` the handlers on it, `ClientEffects` exactly what each message asks for and stores,
`ClientGenesis`, `ClientExport`, `GenesisValidation` and `GenesisFaults` the genesis of the module, and `ClientRuns` the export of every store that messages can produce.

**Mempool check.** `Ante` has the redundancy loop.

## Reading the model

- A `char` stands for one byte of a Go string. Integers are unbounded; 64-bit wrap-around is written
  out where it matters (packet and client counters, varints, indices, chain revisions).
- SHA-256 is taken to be free of collisions: a digest determines what was hashed. Escrow addresses
  are hashes and are modelled as distinct from every user and module address.
- Packet data and bech32 addresses are modelled by what they decode to, next to bytes that do not
  decode.
- A receipt carries the height that wrote it and a channel end its full commitment history. The code
  does not read either; they say what a proof at some height can show.
- Light client proofs arrive as booleans; in `Network` they are honest: a membership proof shows what
  was once stored, an absence proof what a past block did not contain.
- What a light client implementation decides and writes into its own prefixed store arrives with the
  message and is otherwise unconstrained, and so does its verdict on a new client and its consensus
  state. A client is frozen if its state says so.
- Outside the protocol, users and modules pay and burn any coins but nobody spends from an escrow,
  and only native coins are minted. What escrows gain by payments or by the burning of vouchers they
  back is counted apart, so that the balance sheet stays an equality.
- Steps take effect as transactions: a failed message leaves no trace.

## Where the code does less than it seems

- `ParseDenomTrace` and `GetFullDenomPath` lose a single leading slash (`Denoms.LostSlash`). The
  balance sheet is stated for all other paths; validated denominations are among them.
- A genesis trace with an empty path is accepted, and coins named by its hash cannot be refunded
  (`Refunds.EmptyPathLosesRefund`).
- Hexadecimal hashes are accepted in any case, so a coin can be named other than canonically;
  `Refunds.Refundable` is the exact condition under which a refund pays the coin that was debited.
- Genesis validation skips its check on the largest client number when that number is zero, so the
  first creation can reuse an identifier (`GenesisValidation.AcceptedGenesisCanCollide`) and thereby
  replace a frozen client by one that is not frozen (`GenesisValidation.FrozenClientIsReplaced`).
  `Clients.FrozenStableExactly` has the exact condition, which also covers a counter that has wrapped
  and a client numbered ahead of the counter.
- `SetRevisionNumber` prints revisions from 2^63 on with a minus sign (`ClientIds.RevisionRoundTrip`).
- `ParseConnectionPath` accepts port paths (`HostKeys.ParsersRecoverIdentifiers`).
- A native coin called `ibc` is a valid packet denomination, but a transfer of it is refused
  (`RoundTrips.TransferAcceptedExactly`).

## Model

| member | source | states |
|---|---|---|
| `Guarantees.EscrowBacksVouchers` | modules/apps/transfer/keeper/relay.go:113-163 | In every state reachable from genesis, over any number of chains and channels and any order, repetition or forgery of relayed messages: the escrow of every channel end holds, for every path that is not a returning one, at least the voucher supply on the other chain plus the packets in flight both ways (unreceived, or refused and not yet refunded), and exactly that if and only if nothing else credited the escrow address and no other module burnt vouchers it backs |
| `Guarantees.EachPacketSettlesOnce` | modules/core/keeper/msg_server.go:493-532 | For every packet of every reachable state: times credited + times refunded + (1 if still waiting) is 1 if it was ever sent and 0 otherwise, so never both and never twice |
| `Guarantees.RefundsNeverFail` | modules/apps/transfer/keeper/relay.go:358-403 | In every reachable state a verified acknowledgement, timeout or timeout-on-close always completes: the unescrow or re-mint of a refund cannot fail |
| `Guarantees.ReceivesNeverRunShort` | modules/apps/transfer/keeper/relay.go:224-250 | In every reachable state a verified packet is never answered with an error acknowledgement for lack of escrowed funds |
| `Guarantees.VouchersResolve` | modules/apps/transfer/keeper/relay.go:407-423 | In every reachable state a voucher with positive supply resolves through the trace store to a path whose hash and whose bank denomination it is |
| `Guarantees.StoredTracesAreSound` | modules/apps/transfer/keeper/relay.go:276-288 | In every reachable state every stored trace sits under its own hash and has a non-empty path |
| `Guarantees.Run` | modules/core/keeper/msg_server.go:470-749 | Every sequence of steps from a state with the invariant ends in a state with the invariant |
| `Guarantees.GenesisHasInv` | modules/apps/transfer/types/trace.go:91-127 | A genesis whose traces pass validation and have a path, with fresh channels and no vouchers of these channels, satisfies the invariant |
| `Runs.StepKeepsInv` | modules/core/keeper/msg_server.go:470-749 | Each of the eleven kinds of steps (transfer, receive, acknowledge, timeout, timeout on close, payments, minting of native coins, burning of any coins, parameters, blocks, closing) keeps the invariant |
| `Runs.BurnKeepsInv` | modules/apps/transfer/keeper/relay.go:224-250 | Vouchers burnt by other modules keep the invariant, with the surplus booked for exactly the escrow and path that backed them |
| `Safety.SendKeepsInv` | modules/apps/transfer/keeper/relay.go:51-163 | A transfer keeps the whole network invariant |
| `Safety.RecvKeepsInv` | modules/apps/transfer/keeper/relay.go:189-310 | A receive, credited or refused, keeps the whole network invariant |
| `Safety.SettleKeepsInv` | modules/apps/transfer/keeper/relay.go:337-403 | Removing a commitment after an acknowledgement or a timeout, with the refund if due, keeps the whole network invariant |
| `BalanceSheet.CommitKeepsSheet` | modules/apps/transfer/keeper/relay.go:113-144 | Locking or burning coins while committing a packet keeps every channel's balance sheet, and so does the reverse |
| `BalanceSheet.DeliveryKeepsSheet` | modules/apps/transfer/keeper/relay.go:224-310 | Unescrowing or minting coins while acknowledging a packet keeps every channel's balance sheet |
| `Packets.TimeoutExcludesReceipt` | modules/core/04-channel/keeper/timeout.go:22-129 | An honest proof of absence at a height where the timeout had passed shows that the packet was not received and never will be |
| `Packets.ClosureExcludesReceipt` | modules/core/04-channel/keeper/timeout.go:171-274 | The same for a proof that the other end had closed |
| `Packets.AcceptedIsCommitted` | modules/core/04-channel/keeper/packet.go:143-290 | A packet that the receiving end accepts for the first time is still committed by the sender, so it was not refunded before |
| `Safety.RecvPacketReceives` | modules/core/keeper/msg_server.go:512-532 | Error-acknowledgement atomicity: with an error acknowledgement bank and trace store are exactly as before while receipt and acknowledgement are recorded; with a success acknowledgement exactly the packet's coins are paid and exactly its trace is added |
| `Safety.TransferSends` | modules/apps/transfer/keeper/relay.go:51-163 | An accepted transfer debits exactly the coin that its packet's path denotes and stores exactly one new commitment |
| `BalanceSheet.RefundUnlocks` | modules/apps/transfer/keeper/relay.go:358-403 | A refund changes the bank by the exact reverse of a send's debit |
| `Witness.GenesisExists` | modules/apps/transfer/keeper/relay.go:32-50 | The assumptions can be met: a concrete pair of chains is a genesis, and a concrete journey meets the round-trip theorem's premises |
| `Refunds.RefundUndoesSend` | modules/apps/transfer/keeper/relay.go:358-403 | For every chain and accepted transfer: timing out or error-acknowledging the packet restores every balance, every supply and the trace store if and only if the coin's name is the canonical one for its resolved path and a burnt voucher's sender can be paid |
| `Refunds.ReachableTransfersAreRefundable` | modules/apps/transfer/keeper/relay.go:91-144 | In reachable states every accepted transfer of a user meets that condition |
| `Refunds.EmptyPathLosesRefund` | modules/apps/transfer/types/trace.go:91-107 | A genesis trace with an empty path passes validation, and a coin named by its hash is escrowed by a transfer and cannot be refunded |
| `RoundTrips.RoundTripRestores` | modules/apps/transfer/keeper/relay.go:32-50 | From every reachable state with channels open, transfers enabled and the timeout ahead, for every held coin that can be sent and every route of any length through any chains, away from the source or back to it: sending the coin out along the route and back in reverse order always completes and returns every balance and every supply on every chain to its starting value |
| `RoundTrips.HeldPathReturns` | modules/apps/transfer/keeper/relay.go:224-288 | A held coin that goes through any channel end is not taken for a returning one on the way back, and never turns into the bare word `ibc` |
| `Guarantees.NeverMinted` | modules/apps/transfer/keeper/relay.go:224-288 | In every reachable state no voucher exists for a path that would have left through the end it came through, nor for the bare word `ibc` |
| `RoundTrips.TransferAcceptedExactly` | modules/apps/transfer/types/trace.go:167-188 | With everything else in order, a transfer of a held coin is accepted if and only if its path is not the bare word `ibc` |
| `RoundTrips.TransferableExactly` | modules/apps/transfer/types/trace.go:167-188 | Of the denominations valid in a packet, exactly the bare word `ibc` is refused in a transfer |
| `RoundTrips.TripSucceeds` | modules/apps/transfer/keeper/relay.go:51-310 | A transfer with enough coins, open channels and a timeout ahead always completes, moves exactly those coins and nothing else |
| `Acceptance.TransferAcceptedIff` | modules/apps/transfer/keeper/relay.go:51-163 | A transfer message is accepted if and only if it is well formed, sending is enabled, the sender is of this chain, the channel is open, its client is active, a timeout is set and lies ahead of the client's view, the coin resolves, and the sender holds the amount |
| `Acceptance.SentExactly` | modules/core/04-channel/keeper/packet.go:21-139 | The channel layer accepts a packet to send if and only if every one of its checks holds, heights compared by revision first |
| `Acceptance.ReceivableExactly` | modules/core/04-channel/keeper/packet.go:143-230 | The receiving end takes a packet if and only if the channel is open, the counterparty matches and neither timeout has been reached |
| `Acceptance.EarlierRevisionIsRefused` | modules/core/04-channel/keeper/packet.go:205-213 | A packet whose timeout height lies in an earlier revision is refused |
| `Acceptance.CreditedIff` | modules/apps/transfer/keeper/relay.go:189-310 | The receive callback acknowledges success if and only if the data is well formed, receiving is enabled, the receiver is of this chain and the coins can be paid: enough in escrow for a returning path, a receiver that is not blocked otherwise |
| `Acceptance.ReceiveIff` | modules/core/keeper/msg_server.go:473-548 | A receive message is executed if and only if the packet is receivable, proven and new, with a success acknowledgement if and only if it is payable; it is a no-op if and only if it is receivable, proven and known |
| `Acceptance.AcknowledgedExactly` | modules/core/04-channel/keeper/packet.go:303-353 | An acknowledgement is written if and only if the channel is open and none was written before |
| `Acceptance.AcknowledgeIff` | modules/core/04-channel/keeper/packet.go:361-481 | An acknowledgement is verified if and only if the open channel waits for this very packet and the proof holds, a no-op if and only if nothing is committed |
| `Acceptance.TimeoutIff` | modules/core/04-channel/keeper/timeout.go:22-129 | A timeout is verified if and only if the open channel waits for this very packet, absence is proven and one of the packet's timeouts had been reached; a no-op if and only if nothing is committed and a timeout had been reached |
| `Acceptance.TimeoutOnCloseIff` | modules/core/04-channel/keeper/timeout.go:171-274 | A timeout on close is verified if and only if the channel waits for this very packet and both proofs hold |
| `Acceptance.RefundIff` | modules/apps/transfer/keeper/relay.go:337-403 | A refund goes through if and only if the data names a sender of this chain and the coins can be given back; success acknowledgements change nothing |
| `Acceptance.AcknowledgementMsgIff` | modules/core/keeper/msg_server.go:690-749 | Exactly when an acknowledgement message is executed or skipped, and whether it refunds |
| `Acceptance.TimeoutMsgIff` | modules/core/keeper/msg_server.go:551-616 | Exactly when a timeout message is executed or skipped |
| `Acceptance.TimeoutOnCloseMsgIff` | modules/core/keeper/msg_server.go:619-687 | Exactly when a timeout-on-close message is executed or skipped |
| `Progress.TimedOutIsPaidBack` | modules/core/04-channel/keeper/timeout.go:22-129 | In every reachable state, a waiting packet whose timeout had been reached at a block without its receipt is paid back by a timeout with a proof at that block: the sender has the amount again, once, and it was not credited |
| `Progress.ClosedIsPaidBack` | modules/core/04-channel/keeper/timeout.go:171-274 | The same for a packet whose other end had closed, even if this end is closed |
| `Progress.RefusedIsPaidBack` | modules/core/04-channel/keeper/packet.go:361-481 | The same for a packet that the other end refused, by relaying the acknowledgement |
| `Progress.TimelyIsAnswered` | modules/core/04-channel/keeper/packet.go:143-353 | In every reachable state, a committed packet that arrives in time for the first time is answered, and credited once if and only if it is payable |
| `Progress.EscrowNeverDecides` | modules/apps/transfer/keeper/relay.go:224-250 | In every reachable state the escrow holds the coins of every packet that arrives to collect them, so a packet in time is credited if and only if receiving is enabled, its data is well formed, the receiver is of this chain, and a receiver of new vouchers is not blocked |
| `Keepers.Store.SendTransfer` | modules/apps/transfer/keeper/relay.go:51-163 | On the mutable store: success has the specified effect; a failure may leave coins moved, for the transaction to drop |
| `Keepers.Store.OnRecvPacket` | modules/apps/transfer/keeper/relay.go:189-310 | Same result as the specification; on an error the store may hold a new trace and minted coins |
| `Keepers.Store.RefundPacketToken` | modules/apps/transfer/keeper/relay.go:358-403 | Same result and new state as the specification |
| `Keepers.Store.OnRecvPacketCallback` | modules/apps/transfer/ibc_module.go:167-201 | Undecodable data and failed receives become error acknowledgements |
| `Keepers.Store.HandleRecvPacket` | modules/core/keeper/msg_server.go:473-548 | With its two cached contexts: the callback's changes survive exactly for a success acknowledgement; a no-op changes nothing |
| `Keepers.Store.HandleAcknowledgement` | modules/core/keeper/msg_server.go:690-749 | Commitment deleted and callback run together, or a no-op |
| `Keepers.Store.HandleTimeout` | modules/core/keeper/msg_server.go:551-616 | Callback run and commitment deleted together, or a no-op |
| `Keepers.Store.HandleTimeoutOnClose` | modules/core/keeper/msg_server.go:619-687 | Callback run and commitment deleted together, or a no-op |
| `Keepers.Store.Deliver` | modules/core/keeper/msg_server.go:470-749 | Every relayed message as a transaction has exactly the effect the run model gives it; a failed one leaves no trace |
| `Keepers.Store.DeliverTransfer` | modules/apps/transfer/keeper/relay.go:51-163 | The same for transfers |
| `HopStack.PrefixTestIsTopOfStack` | modules/apps/transfer/types/coin.go:12-36 | The string prefix test holds exactly when the given channel end is on top of the hop stack |
| `HopStack.ReceivePopsOrPushes` | modules/apps/transfer/keeper/relay.go:224-288 | Receiving pops exactly the sender's hop and otherwise pushes the receiver's |
| `HopStack.CoinIdentifiesHistory` | modules/apps/transfer/types/trace.go:44-71 | Equal bank denominations have equal hops and base: two channels never mint the same voucher |
| `HopStack.ValidatedDenomsAreStacks` | modules/apps/transfer/types/trace.go:148-161 | `ValidatePrefixedDenom` accepts exactly the strings that spell a stack of valid hops over a non-blank slash-free base |
| `HopStack.ValidatedDenomsRoundTrip` | modules/apps/transfer/types/trace.go:148-161 | Accepted denominations survive parse and print, and their bank denominations are injective |
| `Denoms.PrintInvertsParse` | modules/apps/transfer/types/trace.go:25-71 | Printing a parsed string gives it back if and only if it is not one leading slash followed by a slash-free rest |
| `Denoms.LostSlash` | modules/apps/transfer/types/trace.go:25-41 | What becomes of those strings: they pass for a native coin without the slash |
| `Denoms.ParseInvertsPrint` | modules/apps/transfer/types/trace.go:25-71 | Parsing a printed trace gives it back when the base has no slash |
| `Denoms.CheckTraceIdentifiers` | modules/apps/transfer/types/trace.go:73-88 | The loop accepts exactly non-empty, even lists of alternating valid port and channel identifiers |
| `Denoms.ValidateTraces` | modules/apps/transfer/types/trace.go:110-126 | The loop with its map of seen hashes accepts exactly lists of valid traces with distinct full paths |
| `Formats.TracesExactly` | modules/apps/transfer/types/trace.go:91-107 | A genesis trace is valid if and only if it is a native coin or a non-blank base under a path of valid hops |
| `Wire.VarintRoundTrip` | modules/apps/transfer/types/transfer.pb.go:255-265 | Every 64-bit number comes back from its base-128 bytes, whatever follows them, in at most ten bytes |
| `Wire.SovIsSize` | modules/apps/transfer/types/transfer.pb.go:298-300 | The bit-length formula gives exactly the number of bytes written |
| `Wire.FieldsAppend` | modules/apps/transfer/types/transfer.pb.go:304-417 | A message can be cut at every field boundary: the whole decodes exactly when the rest does, to the fields of both parts |
| `Wire.UnknownFieldTransparent` | modules/apps/transfer/types/transfer.pb.go:398-411 | A well-formed unknown field inserted between any two fields changes neither acceptance nor the fields |
| `UnknownFields.GrammaticalIsUnknown` | modules/apps/transfer/types/transfer.pb.go:508-585 | Every field of an independent grammar (varint, 64-bit, length-delimited, nested groups, 32-bit) with a number above two is an unknown field in that sense |
| `UnknownFields.SkipOver` | modules/apps/transfer/types/transfer.pb.go:508-585 | Skipping ends exactly at the end of such a field, whatever surrounds it and however deeply it is nested |
| `Wire.SkipLocal` | modules/apps/transfer/types/transfer.pb.go:508-585 | Where an unknown field ends does not depend on what follows it |
| `Messages.TraceRoundTrip` | modules/apps/transfer/types/transfer.pb.go:190-210 | Every `DenomTrace` comes back from its bytes |
| `Messages.HeightRoundTrip` | modules/core/02-client/types/client.pb.go:737-753 | Every `Height` of two 64-bit numbers comes back from its at most 22 bytes |
| `Formats.TraceBytes` | modules/apps/transfer/types/transfer.pb.go:190-210 | The wire bytes of short traces, tag by tag |
| `Formats.HeightBytes` | modules/core/02-client/types/client.pb.go:737-753 | The wire bytes of small heights, tag by tag |
| `Formats.ShortVarints` | modules/apps/transfer/types/transfer.pb.go:255-265 | Varints of one and two bytes, bit by bit |
| `Messages.UnknownFieldIgnored` | modules/core/02-client/types/client.pb.go:1647-1734 | Unknown fields are transparent for both messages, starting from any previous value |
| `Messages.EncodeVarint` | modules/apps/transfer/types/transfer.pb.go:255-265 | Writes exactly the varint, ending before the offset, and nothing else of the buffer |
| `Messages.DecodeVarint` | modules/apps/transfer/types/transfer.pb.go:310-323 | The loop reads exactly the varint modulo 2^64 within ten bytes, in bounds, and terminates |
| `Messages.SkipVarint` | modules/apps/transfer/types/transfer.pb.go:528-540 | The loop finds exactly the end of the varint |
| `Messages.SkipOnePayload` | modules/apps/transfer/types/transfer.pb.go:526-575 | The end of one payload by wire type, with 64-bit wrap-around refused |
| `Messages.SkipField` | modules/apps/transfer/types/transfer.pb.go:508-585 | The group-depth loop computes exactly the end of the field, on every byte sequence |
| `Messages.NextField` | modules/apps/transfer/types/transfer.pb.go:306-411 | One field at any position: exactly the specified parse, every read in bounds despite 64-bit wrap-around |
| `Messages.DenomTraceMessage.Size` | modules/apps/transfer/types/transfer.pb.go:266-281 | Exactly the length of the encoding |
| `Messages.DenomTraceMessage.MarshalToSizedBuffer` | modules/apps/transfer/types/transfer.pb.go:190-210 | Fills exactly the last `Size()` bytes with the encoding and leaves the rest of the buffer alone |
| `Messages.DenomTraceMessage.Marshal` | modules/apps/transfer/types/transfer.pb.go:175-183 | A fresh buffer holding exactly the encoding |
| `Messages.DenomTraceMessage.Unmarshal` | modules/apps/transfer/types/transfer.pb.go:304-417 | Terminates on every byte sequence and accepts exactly the well-formed ones; accepted or refused, exactly the fields read so far have been assigned |
| `Messages.HeightMessage.Size` | modules/core/02-client/types/client.pb.go:897-910 | Exactly the length of the encoding |
| `Messages.HeightMessage.MarshalToSizedBuffer` | modules/core/02-client/types/client.pb.go:737-753 | Fills exactly the last `Size()` bytes |
| `Messages.HeightMessage.Unmarshal` | modules/core/02-client/types/client.pb.go:1647-1734 | The same, including the number that a refused varint leaves half read in its field |
| `Messages.TraceStore.SetDenomTrace` | modules/apps/transfer/keeper/keeper.go:114-118 | Changes exactly the entry under the trace's hash, to bytes that decode to the trace |
| `Messages.TraceStore.GetDenomTrace` | modules/apps/transfer/keeper/keeper.go:96-105 | Finds exactly stored hashes and decodes them |
| `Messages.TraceStore.SetThenGet` | modules/apps/transfer/keeper/keeper.go:96-118 | A get after a set returns what was set, on every store |
| `Messages.TraceStore.AddDenomTrace` | modules/apps/transfer/keeper/relay.go:283-286 | A trace that is already there is left alone, a new one is found afterwards, nothing is lost |
| `HostKeys.KeysNeverCollide` | modules/core/24-host/keys.go:46-235 | Over all validated identifiers, sequences and heights, two keys of any families have the same path only if they are the same key |
| `HostKeys.ClientStoresAreIsolated` | modules/core/02-client/keeper/keeper.go:386-389 | No key of one client's prefixed store is reachable through another client's store, whatever the keys inside are |
| `HostKeys.ClientStoreHoldsOwnKeys` | modules/core/02-client/keeper/keeper.go:386-389 | Of all host keys a client's store contains exactly that client's own |
| `HostKeys.ParsersRecoverIdentifiers` | modules/core/24-host/parse.go:37-59 | On the key space the channel parser accepts exactly channel keys and returns their identifiers; the connection parser returns the connection, and also takes a port key for one |
| `HostKeys.PathSplits` | modules/core/24-host/keys.go:46-235 | Splitting a key at its slashes gives back its segments |
| `HostKeys.HeightTextParses` | modules/core/02-client/types/height.go:134-148 | Parsing a printed height gives it back exactly when both numbers fit 64 bits |
| `HostKeys.HeightTextInjective` | modules/core/02-client/types/height.go:97-99 | Different heights print differently |
| `ClientIds.ParseInvertsFormatIdentifier` | modules/core/02-client/types/keys.go:30-65 | Parsing inverts formatting exactly for well-formed client types and 64-bit numbers and fails on everything else formatting produces |
| `ClientIds.FormatIdentifierInjective` | modules/core/02-client/types/keys.go:30-32 | Distinct pairs of type and number have distinct identifiers |
| `ClientIds.ValidatedTypesGiveValidIds` | modules/core/02-client/types/client.go:88-111 | Checking the smallest and the largest number suffices: every identifier of a validated type is valid and parses |
| `ClientIds.RevisionRoundTrip` | modules/core/02-client/types/height.go:152-182 | Setting a revision number and parsing it back gives it if and only if it is below 2^63 |
| `Formats.IdentifiersExactly` | modules/core/24-host/validate.go:39-89 | Which characters and lengths the four kinds of identifiers have |
| `Formats.WhiteIsSkipped` | modules/core/24-host/validate.go:40-42 | Every white space character is recognised by its UTF-8 form in the test for blank texts |
| `Formats.SkippedIsWhite` | modules/core/24-host/validate.go:40-42 | Nothing else is |
| `Formats.SmallNumbers` | modules/core/02-client/types/keys.go:30-32 | Decimal numbers, heights and client identifiers at small inputs, spelt out |
| `Formats.ClientTypesExactly` | modules/core/02-client/types/client.go:88-111 | A client type is valid if and only if it has 7 to 43 identifier characters and no dash at its end |
| `Formats.RegularExpressions` | modules/core/02-client/types/keys.go:34-36 | Client identifiers and chain revisions are accepted if and only if they match the regular expressions |
| `Formats.NoRevisionIsZero` | modules/core/02-client/types/height.go:169-182 | A chain identifier without a revision counts as revision zero |
| `Formats.HeightParsesExactly` | modules/core/02-client/types/height.go:134-148 | A text parses as a height if and only if it is two 64-bit numbers around one dash |
| `Formats.ClientKeys` | modules/core/24-host/keys.go:48-114 | The client part of the path-space, spelt out |
| `Formats.PlainKeys` | modules/core/24-host/keys.go:117-235 | Connection and port paths, spelt out |
| `Formats.ChannelKeys` | modules/core/24-host/keys.go:130-176 | The channel part of the path-space, spelt out |
| `Formats.PacketKeys` | modules/core/24-host/keys.go:179-227 | The packet part of the path-space, spelt out |
| `Heights.OrderIsLexicographic` | modules/core/02-client/types/height.go:53-119 | The comparisons of heights are the lexicographic order, revision first, with the zero height as its least element |
| `Clients.FrozenStableExactly` | modules/core/02-client/keeper/client.go:17-241 | Before the counter wraps, a frozen client keeps its whole store over every run without a proposal about it if and only if no creation can generate its identifier again (number not passed by the counter, type that can be created, and on the allow-list where that may not change) |
| `Clients.FrozenClientsAreStable` | modules/core/02-client/keeper/client.go:58-241 | One direction, run by run: client state, all consensus states and all metadata of a frozen client stay |
| `Clients.RegenerableIsOverwritten` | modules/core/02-client/keeper/client.go:17-54 | The other direction: for every client of its type, a run of well-formed creations that puts that client in its place |
| `Clients.CreationReplaces` | modules/core/02-client/keeper/client.go:17-54 | Every well-formed creation of an allowed type is accepted and stores its client under the counter's identifier, whatever was there |
| `GenesisValidation.FrozenStableAfterGenesis` | modules/core/02-client/types/genesis.go:205-209 | For every accepted genesis, whether or not the allow-list may change: all frozen clients are stable if and only if the counter is positive or no frozen client that can be created carries the number zero |
| `GenesisValidation.FrozenClientIsReplaced` | modules/core/02-client/types/genesis.go:205-209 | After every accepted genesis with a zero counter and a frozen client numbered zero, every well-formed creation of that type is accepted and puts its client in the place of the frozen one |
| `GenesisValidation.FrozenZeroGenesis` | modules/core/02-client/types/genesis.go:205-209 | There is such a genesis for every valid client type |
| `Clients.StepKeepsFrozen` | modules/core/02-client/keeper/proposal.go:21-56 | One message changes a frozen client's store only if it is a proposal whose substitute is active and has a strictly greater height, or a creation that generates the very same identifier |
| `Clients.IdentifiersAreFresh` | modules/core/02-client/keeper/keeper.go:56-63 | Over every run that creates too few clients to wrap the counter, nothing is stored under the identifier the next creation generates |
| `Clients.StepKeepsBelow` | modules/core/02-client/keeper/keeper.go:56-63 | Every message keeps the counter above all numbers in the store |
| `ClientEffects.UpdateStores` | modules/core/02-client/keeper/client.go:58-151 | An update is accepted if and only if the client is stored, not frozen and not expired and its implementation approves; it stores the new client state, the new consensus state at the header's height if and only if the new client is not frozen, a header is present and the client is not the localhost, and under every other key what the implementation wrote |
| `ClientEffects.UpgradeStores` | modules/core/02-client/keeper/client.go:155-201 | The same for upgrades, with the consensus state at the upgraded client's height |
| `ClientEffects.MisbehaviourStores` | modules/core/02-client/keeper/client.go:205-241 | The same for misbehaviour, with the judged client and no consensus state |
| `ClientEffects.SubstituteStores` | modules/core/02-client/keeper/proposal.go:21-56 | A proposal is accepted if and only if neither client is the localhost, the subject is stored and not usable, the substitute is usable and strictly higher, and the implementation approves; it stores the judged client for the subject |
| `ClientEffects.CreateStores` | modules/core/02-client/keeper/client.go:17-54 | A creation is accepted if and only if its type is valid, allowed and not the localhost's, both states are present, valid and of one type, and the implementation initialises; what it stores under every key, and the counter |
| `GenesisValidation.ValidatedGenesisIsBelow` | modules/core/02-client/types/genesis.go:205-209 | For every accepted genesis, the counter is above all numbers in the store if and only if it is positive or no client carries the number zero |
| `GenesisValidation.AcceptedGenesisCanCollide` | modules/core/02-client/types/genesis.go:205-209 | For every valid client type some accepted genesis makes the first creation reuse a taken identifier |
| `GenesisValidation.ValidatedRunsStayFresh` | modules/core/02-client/types/genesis.go:109-212 | From every accepted genesis with a positive counter or no clients, identifiers stay fresh until the counter wraps |
| `GenesisValidation.Validate` | modules/core/02-client/types/genesis.go:109-212 | The loops with the running maximum and the map of clients accept exactly the valid genesis states |
| `GenesisValidation.CheckClients` | modules/core/02-client/types/genesis.go:119-157 | The client loop computes exactly the set of clients, their types, and whether some number is not below the counter |
| `GenesisFaults.AcceptedUnlessFaulty` | modules/core/02-client/types/genesis.go:109-212 | A genesis is accepted if and only if it has none of a list of faults: blank or missing types, invalid or misnumbered clients, consensus states of unknown clients, of another type, invalid or at height zero, metadata of unknown clients or empty, a localhost that is not allowed |
| `GenesisFaults.ImportedStatesMatch` | modules/core/02-client/types/genesis.go:160-184 | Every consensus state of the imported store is valid, at a height other than zero, and of the type of the client state stored under the same identifier |
| `GenesisFaults.ImportedClientsAreValid` | modules/core/02-client/types/genesis.go:119-157 | Every client state of the imported store is valid, of an allowed and valid type that its identifier spells |
| `GenesisValidation.UsedAreClients` | modules/core/02-client/genesis.go:14-52 | After import exactly the genesis clients have anything stored |
| `ClientExport.GenesisRoundTrip` | modules/core/02-client/genesis.go:14-70 | Importing an export restores the counter, the allow-list, every client state and every consensus state, whatever metadata comes along; with metadata clear of the keeper's keys nothing else appears under them |
| `ClientRuns.ChainsSurviveExport` | modules/core/02-client/genesis.go:14-70 | The same for every store that any run of messages produces from any accepted genesis, provided genesis metadata and light clients leave the keeper's own names alone: client states, consensus states, allow-list and counter come back, present or absent alike |
| `ClientRuns.RunsSurviveExport` | modules/core/02-client/genesis.go:14-70 | The same for runs from every readable store |
| `ClientRuns.GenesisIsTidy` | modules/core/02-client/genesis.go:14-52 | The import of an accepted genesis with polite metadata is a store that can be exported |
| `ClientRuns.StepKeepsTidy` | modules/core/02-client/keeper/keeper.go:123-144 | Every message keeps the store in the form that the iterating reads demand |
| `ClientExport.ImportAcceptsAllowedTypes` | modules/core/02-client/genesis.go:24-35 | The import goes through if and only if every stored client's type is on the allow-list |
| `ClientExport.GetAllConsensusStates` | modules/core/02-client/keeper/keeper.go:201-223 | The grouping loop emits every stored (client, height) exactly once, in one group per client, sorted, whatever order the iterator has |
| `ClientExport.GetAllGenesisClients` | modules/core/02-client/keeper/keeper.go:147-155 | Exactly the stored clients, once each, sorted |
| `ClientExport.ExportGenesis` | modules/core/02-client/genesis.go:56-70 | An export that lists exactly what is stored |
| `ClientExport.ImportGenesis` | modules/core/02-client/genesis.go:14-52 | The nested loops leave exactly the specified store, or panic on a type off the allow-list |
| `ClientExport.SetAllClientMetadata` | modules/core/02-client/keeper/keeper.go:189-198 | The loops write exactly the metadata |
| `ClientKeepers.Keeper.Deliver` | modules/core/02-client/keeper/client.go:17-241 | A message as a transaction has exactly the effect the run model gives it; a refused one leaves no trace |
| `Ante.AnteHandle` | modules/core/ante/ante.go:22-72 | Rejects exactly, in check mode and not simulating, the transactions of packet and update messages with at least one packet message and all of them redundant |
| `Ante.RejectedInvokesNothing` | modules/core/keeper/msg_server.go:497-510 | Executing a rejected transaction's packet messages from that state, whatever proofs they carry, invokes no application callback |
| `Ante.SkippedIsRedundant` | modules/core/keeper/msg_server.go:497-510 | Every message that the handlers would skip, of all four kinds, counts as redundant |
| `Ante.SkippedIsRejected` | modules/core/ante/ante.go:22-72 | A transaction of packet and update messages, with at least one packet message and every packet message one that the handlers would skip, is rejected |
| `Ante.RedundantExactly` | modules/core/ante/ante.go:30-52 | What counts as redundant, kind by kind |
| `Ante.UsefulIsLetThrough` | modules/core/ante/ante.go:22-72 | A transaction whose first packet message would invoke a callback is never rejected |

## Left out

- Capabilities, ports, connection state and delay periods: the handlers are modelled for channels whose module, capability and connection checks pass.
- Ordered channels: transfer channels are unordered; `NextSequenceRecv`, `NextSequenceAck` and closing on timeout of ordered channels are not modelled.
- Channel and connection handshakes: channels exist from the start of a run and may close.
- The SDK's character rules for denominations and the panics of coin constructors on denominations that break them, and the bounds of `sdk.Int`.
- Error texts, events, telemetry, gas, fees and logging.
- Messages.DenomTraceMessage.Unmarshal: does not say which error refuses malformed bytes.
- Messages.HeightMessage.Unmarshal: does not say which error refuses malformed bytes.
- The wire code of `Params` and of all other generated messages: the same pattern.
- Messages.DecodeVarint: the bitwise or of disjoint bits is written as a sum.
- Clients.StepKeepsFrozen: a proposal's identifiers are taken to pass the client identifier validator, because nothing is stored under others.
- ClientExport.GetAllGenesisClients: asks that what reads like a client or consensus state key is one, because the program panics otherwise.
- ClientExport.GetAllConsensusStates: asks the same, for the same reason.
- ClientExport.ExportGenesis: asks the same; metadata is whatever the light clients export, and the iterator's order is arbitrary.
- Light client implementations, header and misbehaviour verification, upgrade scheduling, `ValidateSelfClient` and `GetSelfConsensusState`.
- `ParseIdentifier` and `NewPathValidator` of the host module, and iteration and export of the transfer module's traces.
- Interchain accounts, queries, command line, simulation and module wiring.
