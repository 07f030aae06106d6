# Freight marketplace ledger — a Dafny model

This project models the core of a freight-logistics marketplace written in Go. The system keeps a hash-linked block chain and records every marketplace event on it: quotes, bids, bookings, proposals, votes and payments.

Around the chain sit several stateful services:

- a multi-token ledger with balances, escrow and allowances;
- a freight marketplace with participant, quote, bid and booking tables, and a quotation front-end in front of it;
- two governance services that vote proposals up or down;
- a dispute service;
- access control, multi-signature authorisation, a time-locked escrow and an upgradable proxy;
- a sidechain and a cross-chain bridge;
- a smart-contract facade with a benefit registry and guard wrappers;
- two pure string validators (transport modes and a mock zero-knowledge proof).

How the source maps onto Dafny:

- Each Go object whose methods change its fields is a Dafny `class`, with those fields, `modifies` clauses and a `Valid()` invariant.
- Each method's `ensures` states its error cases (the exact Go error strings, in the order the source checks them) and its entire new state. A method that appends a block to the chain states that block through `Blockchain.Appended`: its index, previous hash, time and data, and that it carries the first nonce, counting up from 0, whose hash starts with "000". Together with the chain invariant, this fixes the block completely.
- The pure parts are functions and lemmas: the transport-mode validator, the mock proof, the vote decision and the random fold.

Error results use `Result<T>` (`Ok(value)` / `Err(msg)`) and `Outcome` (`Pass` / `Fail(msg)`) from `wrappers.dfy`.

Modelling choices:

- **Time and ids.** The current time and fresh ids are passed in as parameters.
- **Amounts.** Amounts, rates and times are integers.
- **Missing keys.** A missing key in a Go map reads as zero through `Totals.Get`.
- **Nested maps.** The ledger's nested maps are flattened:
  - participant → token becomes a `Holding` key;
  - owner → spender → token becomes a `Grant` key.
- **The hash.** SHA-256 over the block record becomes a function value `digest` of the five hashed fields (index, timestamp, data, previous hash, nonce). Each chain holds it as a constant.
- **Mining termination.** Go's proof-of-work loop has no bound. The model proves it terminates under a stated hypothesis, `AlwaysSealable(digest)`: every candidate block has some nonce, at or above its own, whose digest starts with "000". This hypothesis is part of every chain's `Valid()`.
- **Duplicate definitions.** Where the Go files define something twice, the model takes the most complete version:
  - `smartcontract.go`:
    - `InitializeServices` at lines 89-96;
    - `TransportModeSpecificLogic` at 123-132;
    - `MintToken` at 175-194;
    - `TransferToken` at 205-234;
    - `RaiseDispute` and `ResolveDispute` at 336-351;
    - the struct at 12-37 with `NewSmartContract` at 166-173.
  - `token_payment.go`: the multi-token ledger at lines 20-252.
  - `governance.go`: the subscription-checking service at lines 12-121.
  - `marketplace.go`: `NewMarketplace` at lines 29-39.

## Model

| member | source | states |
|---|---|---|
| Blockchain.MineBlock | blockchain.go:84-100 | the mined block differs from its input only in nonce (never lower) and hash; its hash is the digest of its own fields and starts with "000"; no nonce between the starting one and the result meets the target |
| Blockchain.Genesis | blockchain.go:29-42 | the genesis block has index 0, data "Genesis Block", empty previous hash, nonce 0, and a hash equal to its own digest (it is not mined) |
| Blockchain.Blockchain.constructor | blockchain.go:29-42 | a new chain holds exactly the genesis block and satisfies the chain invariant |
| Blockchain.Blockchain.Zero | blockchain.go:30 | Go's zero-value chain `&Blockchain{}`: a chain with no blocks that still satisfies the chain invariant, from which `AddBlock` reports "blockchain has no genesis block" (blockchain.go:49-51) |
| Blockchain.Blockchain.AddBlock | blockchain.go:45-65 | on an empty chain: error "blockchain has no genesis block" and no change; otherwise exactly one block is appended (earlier blocks unchanged) with index tip+1, previous hash = tip hash, the given data and time, mined with the first nonce, counting up from 0, whose hash starts with "000" (the nonce is never negative); the chain invariant (genesis first, block i at index i, linkage, intact hashes, mined after genesis) is preserved |
| Blockchain.Blockchain.GetBlocks | blockchain.go:68-72 | returns the current sequence unchanged, and it is a valid chain |
| Blockchain.PrefixValid | blockchain.go:45-65 | every prefix of a valid chain is a valid chain |
| Blockchain.ExtendValid | blockchain.go:53-62 | a valid chain extended by a mined block linked to the tip with the next index is valid |
| Blockchain.TipDeterminesChain | blockchain.go:75-81 | under a collision-free digest, two valid chains with the same tip hash are equal |
| TokenPayment.Credit | token_payment.go:88-91 | raises exactly one key's balance (zero if absent) by the amount; every other key unchanged |
| TokenPayment.Debit | token_payment.go:151 | lowers exactly one key's balance by the amount; every other key unchanged |
| TokenPayment.Move | token_payment.go:143-152 | moves the amount from one holding to another; every other holding unchanged (net zero when both are the same) |
| TokenPayment.CreditTotal | token_payment.go:81-93 | minting raises the token's total supply by exactly the amount, and other tokens' totals not at all |
| TokenPayment.DebitTotal | token_payment.go:29-47 | debiting one holding lowers that token's total by exactly the amount |
| TokenPayment.MoveConserves | token_payment.go:136-154 | a move between two holdings of one token leaves every token's total unchanged |
| TokenPayment.ShiftConserves | token_payment.go:29-70 | moving an amount between the balance and escrow tables keeps the combined total of every token |
| TokenPayment.HoldingWithinTotal | token_payment.go:96-104 | with non-negative balances each balance lies between 0 and the token's total |
| TokenPayment.TokenLedger.constructor | token_payment.go:73-78 | a new ledger has no balances, escrow or allowances |
| TokenPayment.TokenLedger.LockTokensInEscrow | token_payment.go:29-47 | "amount must be positive" for amount ≤ 0, "insufficient balance to lock in escrow" when the balance is short, with no change; otherwise the amount moves from balance to escrow; balance+escrow per holding is always unchanged |
| TokenPayment.TokenLedger.ReleaseEscrowTokens | token_payment.go:50-64 | "amount must be positive" / "insufficient escrowed tokens to release" with no change; otherwise the amount moves from escrow back to balance; balance+escrow per holding is unchanged |
| TokenPayment.TokenLedger.RefundEscrowTokens | token_payment.go:67-70 | the same errors and the same effect as a release |
| TokenPayment.TokenLedger.MintTokens | token_payment.go:81-93 | "amount must be positive" with no change; otherwise only the participant's balance of the token and the token's minted supply rise by the amount; escrow and allowances unchanged |
| TokenPayment.TokenLedger.GetBalance | token_payment.go:96-104 | returns the stored balance or 0, never negative and never above the token's supply, and changes nothing |
| TokenPayment.TokenLedger.Approve | token_payment.go:107-122 | "amount cannot be negative" with no change; otherwise overwrites exactly that owner/spender/token allowance (0 allowed) |
| TokenPayment.TokenLedger.Allowance | token_payment.go:125-133 | returns the stored allowance or 0, never negative, and changes nothing |
| TokenPayment.TokenLedger.TransferTokens | token_payment.go:136-154 | "amount must be positive", then "insufficient balance", with no change; otherwise the amount moves from sender to receiver; the sum of the two balances is preserved |
| TokenPayment.TokenLedger.TransferFrom | token_payment.go:157-179 | errors in the order amount, balance, allowance ("allowance exceeded"), with no change; otherwise the amount moves from owner to receiver and the allowance drops by the amount |
| TokenPayment.TokenLedger.BatchTransferTokens | token_payment.go:182-204 | succeeds iff every listed amount is positive and covered by the sender's balance; otherwise no balance changes and it fails with "amount must be positive" only when some entry is not positive, or with "insufficient balance for token t" only for a listed t whose positive amount exceeds the sender's balance; on success each holding changes by exactly the listed amounts (all or nothing) |
| TokenPayment.TokenPaymentSystem.PayFreightBooking | token_payment.go:221-252 | "amount must be positive" or a failed transfer: error, no balance change and no block; otherwise the transfer is made and exactly one payment block is appended |
| SmartContract.PseudoRandom | smartcontract.go:315-321 | the result is the fold h := (31·h + code point) mod 1000000007 over the seed, lies in [0, 1000000007), and is 0 for the empty seed |
| SmartContract.FoldAppend | smartcontract.go:315-321 | folding a concatenation is folding the second part from the first part's hash |
| SmartContract.FoldInRange | smartcontract.go:317-319 | every fold started in range stays in [0, 1000000007) |
| SmartContract.GetRandomness | smartcontract.go:307-312 | never fails and returns the fold of the seed |
| SmartContract.IsValidQuoteRequest | smartcontract.go:442-449 | true iff origin and destination are non-empty and the rate is positive |
| SmartContract.CheckedTransfer | smartcontract.go:226-233 | a ledger error is passed through; a (false, no error) result becomes "token transfer failed"; success iff the transfer succeeded with no error |
| SmartContract.SmartContract.constructor | smartcontract.go:166-173 | a new contract has an empty ledger and no dispute service, validator, membership manager or benefit registry |
| SmartContract.SmartContract.InitializeServices | smartcontract.go:89-96 | installs an empty dispute service, the standard transport validator, the membership check and an empty registry |
| SmartContract.SmartContract.AddBenefit | smartcontract.go:47-61 | "benefit already exists" for any stored id (active or not) with no change; otherwise inserts the benefit as active; other services unchanged |
| SmartContract.SmartContract.RemoveBenefit | smartcontract.go:64-75 | "benefit registry not initialized" / "benefit not found" with no change; otherwise only that entry's active flag is cleared |
| SmartContract.SmartContract.ListBenefits | smartcontract.go:78-86 | returns exactly the active stored benefits, each once |
| SmartContract.SmartContract.MintToken | smartcontract.go:175-194 | the address check's error, then "amount must be greater than zero", with no change; otherwise the participant's balance rises by the amount |
| SmartContract.SmartContract.TransferToken | smartcontract.go:205-234 | both address checks, then "amount must be greater than zero", then the ledger's "insufficient balance", each with no change; otherwise the amount moves between the two holdings |
| SmartContract.SmartContract.CreateFreightQuote | smartcontract.go:428-440 | "invalid quote request parameters" before the marketplace is touched; otherwise the marketplace's checks and effects |
| SmartContract.SmartContract.CheckMembershipActive | smartcontract.go:108-114 | "membership manager not initialized" when absent; otherwise the manager's answer |
| SmartContract.SmartContract.RaiseDispute | smartcontract.go:336-342 | "dispute service not initialized" when absent; otherwise the dispute service's checks and effect |
| SmartContract.SmartContract.ResolveDispute | smartcontract.go:345-351 | "dispute service not initialized" when absent; otherwise the dispute service's checks and effect |
| SmartContract.SmartContract.TransportModeSpecificLogic | smartcontract.go:123-132 | "transportation validator not initialized" when absent; otherwise passes iff the lower-cased mode is one of the six allowed names, reporting the validator's error first |
| Governance.CountVotes | governance.go:86-94 | the counting loop returns exactly the number of approving and of rejecting voters |
| Governance.CountsPartition | governance.go:86-94 | approvals + rejections = number of votes |
| Governance.ApprovedIffMajority | governance.go:97-103 | the decision is Approved iff approvals are a strict majority, and Rejected otherwise (a tie rejects) |
| Governance.VoteKeepsSettled | governance.go:83-105 | a new vote keeps the status settled: Pending below the threshold, the majority decision at or above it, recomputed on every vote |
| Governance.SettledDecides | governance.go:97-103 | once the threshold is reached the status is decided: Approved iff approvals are a strict majority |
| Governance.Governance.constructor | governance.go:21-28 | a new service has no proposals |
| Governance.Governance.CreateProposal | governance.go:31-59 | a proposer without an active subscription is rejected with no change; otherwise a Pending proposal with no votes is stored and one block appended |
| Governance.Governance.VoteProposal | governance.go:62-121 | errors in the order subscription, "proposal not found", "participant already voted", with no change; otherwise exactly the one vote is added, the status follows the threshold-3 majority rule, other proposals are unchanged and one block is appended |
| EnhancedGovernance.EnhancedGovernance.constructor | blockchain_governance.go:19-25 | a new service has no proposals and the given quorum |
| EnhancedGovernance.EnhancedGovernance.CreateProposal | blockchain_governance.go:28-49 | stores a Pending proposal with no votes and appends one block |
| EnhancedGovernance.EnhancedGovernance.VoteProposal | blockchain_governance.go:52-104 | "proposal not found" / "participant already voted" with no change; otherwise one vote is added, the status follows the quorum majority rule, and one timestamped block is appended |
| Disputes.Opened | dispute_service.go:42-52 | a raised dispute is Open with no resolution and no resolution time |
| Disputes.Closed | dispute_service.go:68-73 | resolving sets status Resolved, the resolution and its time, and keeps every other field |
| Disputes.DisputeService.constructor | dispute_service.go:28-32 | a new service holds no disputes |
| Disputes.DisputeService.RaiseDispute | dispute_service.go:35-53 | "bookingID, raiserID, and reason are required" with nothing stored; otherwise the Open dispute is stored under its id |
| Disputes.DisputeService.ResolveDispute | dispute_service.go:56-74 | "dispute not found", then "dispute already resolved or closed", with no change; otherwise only that dispute is closed, and it is no longer Open, so a second resolve of the same id fails with "dispute already resolved or closed" |
| Disputes.DisputeService.GetDispute | dispute_service.go:77-86 | returns the stored, well-formed dispute or "dispute not found", and changes nothing |
| SecurityMeasures.RoleOf | security_measures.go:42-46 | the last role assigned, or "" for a user never assigned one |
| SecurityMeasures.UnassignedHoldsNoRole | security_measures.go:13-18 | a user never assigned a role holds none of the defined roles |
| SecurityMeasures.AccessControl.constructor | security_measures.go:28-32 | no roles are assigned |
| SecurityMeasures.AccessControl.AssignRole | security_measures.go:35-39 | overwrites the user's role; afterwards the user holds exactly that role |
| SecurityMeasures.AccessControl.CheckRole | security_measures.go:42-46 | true iff the user's last assigned role is the given one (or the user has none and the role is "") |
| SecurityMeasures.MultiSigAuthorization.constructor | security_measures.go:56-61 | no signers and the given threshold |
| SecurityMeasures.MultiSigAuthorization.Sign | security_measures.go:64-68 | adds the signer to the set; signing twice equals signing once |
| SecurityMeasures.MultiSigAuthorization.IsAuthorized | security_measures.go:71-75 | true iff the number of distinct signers reaches the threshold |
| SecurityMeasures.AuthorizationIsMonotone | security_measures.go:64-75 | once authorised, further signatures keep the authorisation |
| SecurityMeasures.Escrow.constructor | security_measures.go:88-96 | the lock ends lockDuration after creation and funds start unreleased |
| SecurityMeasures.Escrow.Release | security_measures.go:99-112 | "funds already released", then "lock time not reached", with no change; otherwise the funds are released; so at most one release succeeds |
| SecurityMeasures.ProxyContract.constructor | security_measures.go:132-137 | the given implementation and no compliance records |
| SecurityMeasures.ProxyContract.Upgrade | security_measures.go:140-150 | "not authorized to upgrade" keeps the old implementation; with enough signatures the implementation is replaced; records unchanged |
| SecurityMeasures.ProxyContract.AddComplianceRecord | security_measures.go:153-162 | overwrites the participant's record with the new one |
| SecurityMeasures.ProxyContract.GetComplianceRecord | security_measures.go:165-170 | found iff a record exists; then it is the last one added, otherwise the zero record |
| Marketplace.FindBid | marketplace.go:179-185 | the index of the first bid with the id, or -1 exactly when no bid has it |
| Marketplace.IndexOfBid | marketplace.go:179-185 | the search loop returns the first matching index, or -1 |
| Marketplace.MarkAccepted | marketplace.go:179-185 | only the first matching bid of that quote gains the accepted flag; every other bid and quote is unchanged |
| Marketplace.MarkAcceptedIdempotent | marketplace.go:179-185 | accepting the same bid twice equals accepting it once |
| Marketplace.BookingFor | marketplace.go:173-204 | "no bids for quote", then "bid not found", then "shipper not found"; otherwise a Confirmed booking with the matching bid's carrier |
| Marketplace.ShipperErrorKeepsAcceptance | marketplace.go:182-193 | when the shipper is missing, the matching bid has already been flagged accepted |
| Marketplace.Marketplace.constructor | marketplace.go:29-39 | all four tables start empty |
| Marketplace.Marketplace.RegisterParticipant | marketplace.go:66-79 | stores the participant with the given name and type under its id; other tables unchanged |
| Marketplace.Marketplace.CreateFreightQuote | marketplace.go:82-121 | "rate must be positive", then "validUntil must be in the future", with no change; otherwise the quote is stored and a block appended; a chain with no genesis block returns that error but the quote stays stored |
| Marketplace.Marketplace.PlaceBid | marketplace.go:124-166 | "quote not found", then "carrier not found", then "bid amount must be positive", with no change; otherwise the unaccepted bid is appended to the quote's list (earlier bids unchanged) and a block appended |
| Marketplace.Marketplace.ConfirmBooking | marketplace.go:169-220 | the matching bid is flagged accepted even when a later check fails; errors as in BookingFor with no booking or block; otherwise the booking is stored and a block appended |
| FreightQuotation.BookingForAfterMark | freight_quotation.go:72-83 | flagging the bid accepted first does not change the booking outcome |
| FreightQuotation.FreightQuotationSystem.constructor | freight_quotation.go:17-21 | wraps the given marketplace, and the wrapper's invariant holds whenever the marketplace's does |
| FreightQuotation.FreightQuotationSystem.CreateQuote | freight_quotation.go:24-37 | "rate must be positive", then "validUntil must be in the future", before the marketplace is touched; otherwise the marketplace's effect |
| FreightQuotation.FreightQuotationSystem.PlaceBid | freight_quotation.go:40-59 | "bid amount must be positive", then "quote not found", then "quote has expired" (now after validUntil), then the marketplace's checks; effects as in the marketplace |
| FreightQuotation.FreightQuotationSystem.AcceptBid | freight_quotation.go:62-85 | "no bids for quote" / "bid not found" with no change; otherwise the bid is flagged accepted (it stays flagged when confirmation fails) and the booking is confirmed |
| FreightQuotation.FreightQuotationSystem.ListBids | freight_quotation.go:88-97 | the quote's non-empty bid list, or "no bids for quote"; nothing changes |
| Scalability.Sidechain.constructor | scalability.go:17-22 | a new sidechain has no blocks |
| Scalability.Sidechain.AddBlock | scalability.go:25-44 | appends exactly one block (earlier blocks unchanged) at index = length, previous hash "" for the first block and the tip hash otherwise, mined with the first nonce, counting up from 0, whose hash starts with "000" (the nonce is never negative); block i stays at index i |
| Interoperability.CrossChainBridge.constructor | interoperability.go:18-23 | holds the two given chains |
| Interoperability.CrossChainBridge.TransferAsset | interoperability.go:26-38 | always succeeds; chain A gets the "Lock asset: " block and chain B the "Mint asset: " block, in that order even when both are the same chain |
| Interoperability.CrossChainBridge.VerifyTransfer | interoperability.go:41-44 | always reports a verified transfer |
| TransportationValidator.TrimSpace | transportation_validator.go:29 | the result is the input minus its leading and trailing white space (Go's unicode.IsSpace set) |
| TransportationValidator.ToLower | transportation_validator.go:29 | lower-cases character by character, preserving length |
| TransportationValidator.NewTransportationValidator | transportation_validator.go:14-25 | the allowed modes are air, sea, road, rail, pipeline and multimodal |
| TransportationValidator.ValidateMode | transportation_validator.go:28-34 | passes iff the trimmed, lower-cased mode is allowed; otherwise "invalid transport mode: " + that normalised mode |
| TransportationValidator.ApplyModeSpecificLogic | transportation_validator.go:37-55 | passes iff the lower-cased (untrimmed) mode is one of the six names; otherwise "unsupported transport mode: " + the original mode |
| TransportationValidator.NormalizeIdempotent | transportation_validator.go:29 | normalising twice equals normalising once |
| TransportationValidator.ValidateModeNormalized | transportation_validator.go:28-34 | validation is insensitive to case and surrounding white space |
| TransportationValidator.BothChecksPass | transportation_validator.go:28-55 | both checks pass iff the lower-cased mode is allowed |
| TransportationValidator.AirAccepted | transportation_validator.go:28-55 | "air" passes both checks |
| TransportationValidator.InvalidModeRejected | transportation_validator.go:30-32 | "invalid_mode" is rejected with its message |
| TransportationValidator.PaddedModeSplits | transportation_validator.go:28-55 | " Air " passes validation, while " air" fails the mode-specific check |
| Zkp.GenerateProof | zkp.go:18-26 | an empty secret is an error; otherwise the proof is "proof_of_" followed by the secret |
| Zkp.VerifyProof | zkp.go:29-39 | an empty proof is an error; otherwise true iff the proof is longer than the prefix and starts with it |
| Zkp.RoundTrip | zkp.go:18-39 | every proof generated from a non-empty secret verifies |
| Zkp.AcceptedIsGenerated | zkp.go:18-39 | every accepted proof was generated from exactly one non-empty secret |
| Zkp.BarePrefixRejected | zkp.go:35-38 | the bare prefix verifies as false, without an error |

## Left out

- Mutexes, the `ListenToEvent`/`EmitEvent` listeners and their goroutine dispatch (smartcontract.go:296-333): these are concurrency. Each operation is modelled as one sequential critical section.
- SHA-256, hex encoding and the block record encoding (blockchain.go:75-81): the digest is a function parameter.
- `Blockchain.MineBlock` terminates only under the `AlwaysSealable` hypothesis on the digest: every digest has at least 3 characters (so Go's `hash[:difficulty]` cannot panic), and every candidate block has a sealing nonce at or above its own. Hex-encoded SHA-256 always has 64 characters, but it is not known to meet the second half.
- `float64` arithmetic and `safeAddFloat64`'s overflow test: amounts are unbounded integers, so that test never fails and is not modelled.
- `time.Now`, `uuid.New`, `generateID` and `generateUUID`: times and ids are parameters. Colliding time-based ids are not modelled.
- `TokenPayment.TokenLedger.constructor` starts with an empty escrow table. The Go constructor never allocates that map (token_payment.go:73-78), so the first escrow lock would panic.
- The single-token `TokenLedger` and `TokenPaymentSystem` (token_payment.go:254-348), the plain `Governance` without subscriptions (governance.go:143-228), the two further `NewMarketplace` definitions and the other duplicate definitions in smartcontract.go are not modelled.
- `SmartContract.SmartContract.MintToken` takes a token id: the Go call uses a single-token signature that the multi-token ledger does not have.
- `SmartContract.SmartContract.TransferToken` uses the ledger's `TransferTokens`. `TransferTokensWithCheck` is not part of this model, so its (success, error) pair is taken to be (transfer passed, transfer error).
- `SmartContract.SmartContract.CreateFreightQuote` and `FreightQuotation.FreightQuotationSystem.CreateQuote` return the marketplace's result unchanged:
  - the Go lines (smartcontract.go:436, freight_quotation.go:35) assign the two-result call to one variable;
  - the second `rate <= 0` check in smartcontract.go:433-435 is unreachable and is omitted.
- The SmartContract wrappers for escrow (smartcontract.go:134-142, 245-247) and for `PlaceBid`, `ConfirmBooking`, `CreateProposal` and `VoteProposal` (smartcontract.go:452-505) are not modelled. They only delegate, behind a membership check, to operations modelled above.
- `SubscribeMembership`, `MembershipManager`, `SubscriptionService` and `validateAddress` are not part of this model. Each is an opaque predicate or check given to the class, and it does not change over time.
- `Blockchain.Blockchain.GetBlocks` returns the chain as a value. Go returns the internal slice (blockchain.go:71), so a caller that writes into it would change the stored blocks; the model does not capture that aliasing. The one caller (scalability.go:52) only reads its length.
- `FreightQuotation.FreightQuotationSystem.ListBids` returns the bid list as a value. Go returns the marketplace's own slice (freight_quotation.go:92-96), so flags that `AcceptBid` or `ConfirmBooking` set later show through it, and a caller's writes change the stored bids; the model does not capture that aliasing.
- `Governance.Governance.CreateProposal`: the model does not capture that the returned proposal shares its `Votes` map with the stored one.
- `Sidechain.SyncWithMainChain`, `golang_integration.go`, `oracle_integration.go`, `handlers.go`, `main.go` and the front-end: these are network, HTTP and print-only code.
- JSON encoding of block records uses a plain field list: no string escaping, floats appear as integers, and times (`time.Time`, which Go marshals as an RFC 3339 string) appear as their integer value. Logging is not modelled.
- `SmartContract.PseudoRandom` folds over the seed's code points, taking the seed to be valid UTF-8. Go's `range` over a string turns each invalid byte into U+FFFD, and a Dafny string cannot hold invalid UTF-8, so that case is not modelled.
- `TransportationValidator.ToLower` covers only the characters a mode name can turn into: ASCII letters, plus U+0130 and U+212A, which lower-case to ASCII. Other non-ASCII characters are left unchanged. This decides membership in the six ASCII names exactly, but the normalised mode quoted in the "invalid transport mode: " message can differ from Go's for upper-case non-ASCII letters.
