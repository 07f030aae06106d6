/** The contract facade of smartcontract.go: a benefit registry, a
    deterministic pseudo-random hash, input checks in front of the ledger and
    the marketplace, and guards against services that were never initialised.

    `validateAddress` and `MembershipManager.CheckActive` are not part of this
    model; they are oracles the contract is given. */
module SmartContract {
  import opened Wrappers
  import opened Totals
  import opened Models
  import TokenPayment
  import Disputes
  import TransportationValidator
  import Marketplace
  import Blockchain

  // ----- benefit registry -----

  /** `Benefit`. */
  datatype Benefit = Benefit(id: string, title: string, description: string, active: bool)

  /** The registry as Go reads it: a nil map has no entries. */
  function Entries(registry: Option<map<string, Benefit>>): (m: map<string, Benefit>)
    ensures registry.None? ==> m == map[]
    ensures registry.Some? ==> m == registry.value
  {
    if registry.None? then map[] else registry.value
  }

  /** Every benefit is filed under its own id. */
  ghost predicate Keyed(registry: Option<map<string, Benefit>>)
  {
    registry.Some? ==> forall id :: id in registry.value ==> registry.value[id].id == id
  }

  // ----- pseudo-random hash -----

  const Modulus := 1000000007

  /** The polynomial hash of `s` continued from the accumulator `h`: each
      character's code point is folded in as `h := (h * 31 + c) mod 1000000007`. */
  function Fold(h: int, s: string): int
    decreases |s|
  {
    if s == [] then h else Fold((h * 31 + s[0] as int) % Modulus, s[1..])
  }

  /** Folding in one more character is one more step of the recurrence. */
  lemma {:induction false} FoldSnoc(h: int, s: string, c: char)
    ensures Fold(h, s + [c]) == (Fold(h, s) * 31 + c as int) % Modulus
    decreases |s|
  {
    if s != [] {
      assert (s + [c])[1..] == s[1..] + [c];
      FoldSnoc((h * 31 + s[0] as int) % Modulus, s[1..], c);
    }
  }

  /** Hashing a concatenation is hashing the second part from the first part's hash. */
  lemma {:induction false} FoldAppend(h: int, s: string, t: string)
    ensures Fold(h, s + t) == Fold(Fold(h, s), t)
    decreases |s|
  {
    if s == [] {
      assert s + t == t;
    } else {
      assert (s + t)[0] == s[0] && (s + t)[1..] == s[1..] + t;
      FoldAppend((h * 31 + s[0] as int) % Modulus, s[1..], t);
    }
  }

  /** The hash stays below the modulus, and the empty seed hashes to its start. */
  lemma {:induction false} FoldInRange(h: int, s: string)
    requires 0 <= h < Modulus
    ensures 0 <= Fold(h, s) < Modulus
    decreases |s|
  {
    if s != [] {
      FoldInRange((h * 31 + s[0] as int) % Modulus, s[1..]);
    }
  }

  /** `pseudoRandom`: the hash of the seed's characters, in order. With 64-bit
      integers no step overflows, since `h * 31 + c` stays below 2^63. */
  method PseudoRandom(seed: string) returns (hash: int)
    ensures hash == Fold(0, seed)
    ensures 0 <= hash < Modulus
    ensures seed == "" ==> hash == 0
  {
    hash := 0;
    for i := 0 to |seed|
      invariant hash == Fold(0, seed[..i])
    {
      FoldSnoc(0, seed[..i], seed[i]);
      assert seed[..i + 1] == seed[..i] + [seed[i]];
      hash := (hash * 31 + seed[i] as int) % Modulus;
    }
    assert seed[..|seed|] == seed;
    FoldInRange(0, seed);
  }

  /** `GetRandomness`: the pseudo-random hash of the seed; it never fails. */
  method GetRandomness(seed: string) returns (r: Result<int>)
    ensures r.Ok? && r.value == Fold(0, seed) && 0 <= r.value < Modulus
  {
    var hash := PseudoRandom(seed);
    r := Ok(hash);
  }

  // ----- input checks -----

  /** `isValidQuoteRequest`. */
  function IsValidQuoteRequest(origin: string, destination: string, rate: int): (b: bool)
    ensures b <==> origin != "" && destination != "" && rate > 0
  {
    !(origin == "" || destination == "" || rate <= 0)
  }

  /** How `TransferToken` reads the `(success, err)` pair of the ledger's checked
      transfer: an error passes through, and a refusal without one becomes
      "token transfer failed". */
  function CheckedTransfer(success: bool, err: Outcome): (o: Outcome)
    ensures o == Pass <==> success && err == Pass
    ensures err.Fail? ==> o == err
    ensures err == Pass && !success ==> o == Fail("token transfer failed")
  {
    if err.Fail? then err else if !success then Fail("token transfer failed") else Pass
  }

  class SmartContract {
    const marketplace: Marketplace.Marketplace
    const tokenLedger: TokenPayment.TokenLedger
    /** `validateAddress`, which is not part of this model. */
    const validateAddress: string -> Outcome
    var disputeService: Disputes.DisputeService?
    var transportValidator: Option<TransportationValidator.TransportationValidator>
    /** `membershipManager.CheckActive`, or `None` for a nil manager. */
    var membershipManager: Option<string -> bool>
    var benefitRegistry: Option<map<string, Benefit>>

    ghost predicate Valid()
      reads this, tokenLedger, marketplace, marketplace.blockchain, disputeService
    {
      && tokenLedger.Valid()
      && marketplace.Valid()
      && (disputeService != null ==> disputeService.Valid())
      && (transportValidator.Some? ==> transportValidator.value == TransportationValidator.NewTransportationValidator())
      && Keyed(benefitRegistry)
    }

    /** `NewSmartContract`: a fresh ledger, every service nil. */
    constructor (marketplace: Marketplace.Marketplace, validateAddress: string -> Outcome)
      requires marketplace.Valid()
      ensures Valid() && fresh(tokenLedger)
      ensures this.marketplace == marketplace && this.validateAddress == validateAddress
      ensures tokenLedger.balances == map[] && tokenLedger.escrowed == map[] && tokenLedger.allowances == map[]
      ensures disputeService == null && transportValidator == None && membershipManager == None && benefitRegistry == None
    {
      this.marketplace := marketplace;
      this.validateAddress := validateAddress;
      tokenLedger := new TokenPayment.TokenLedger();
      disputeService := null;
      transportValidator := None;
      membershipManager := None;
      benefitRegistry := None;
    }

    /** `InitializeServices`, with the membership check of the new manager passed in.
        An existing benefit registry is replaced by an empty one. */
    method InitializeServices(checkActive: string -> bool)
      requires Valid()
      modifies this
      ensures Valid() && fresh(disputeService) && disputeService.disputes == map[]
      ensures transportValidator == Some(TransportationValidator.NewTransportationValidator())
      ensures membershipManager == Some(checkActive) && benefitRegistry == Some(map[])
    {
      disputeService := new Disputes.DisputeService();
      transportValidator := Some(TransportationValidator.NewTransportationValidator());
      membershipManager := Some(checkActive);
      benefitRegistry := Some(map[]);
    }

    /** `AddBenefit`: a nil registry is created first; an id already present,
        active or not, is refused. */
    method AddBenefit(id: string, title: string, description: string) returns (o: Outcome)
      requires Valid()
      modifies this
      ensures Valid()
      ensures o == if id in Entries(old(benefitRegistry)) then Fail("benefit already exists") else Pass
      ensures o == Pass ==> benefitRegistry == Some(Entries(old(benefitRegistry))[id := Benefit(id, title, description, true)])
      ensures o != Pass ==> benefitRegistry == old(benefitRegistry)
      ensures disputeService == old(disputeService) && transportValidator == old(transportValidator)
      ensures membershipManager == old(membershipManager)
    {
      if benefitRegistry.None? {
        benefitRegistry := Some(map[]);
      }
      if id in benefitRegistry.value {
        return Fail("benefit already exists");
      }
      benefitRegistry := Some(benefitRegistry.value[id := Benefit(id, title, description, true)]);
      o := Pass;
    }

    /** `RemoveBenefit`: deactivates the entry and keeps it. */
    method RemoveBenefit(id: string) returns (o: Outcome)
      requires Valid()
      modifies this
      ensures Valid()
      ensures o == if old(benefitRegistry).None? then Fail("benefit registry not initialized")
                   else if id !in old(benefitRegistry).value then Fail("benefit not found")
                   else Pass
      ensures o == Pass ==> benefitRegistry == Some(old(benefitRegistry).value[id := old(benefitRegistry).value[id].(active := false)])
      ensures o != Pass ==> benefitRegistry == old(benefitRegistry)
      ensures disputeService == old(disputeService) && transportValidator == old(transportValidator)
      ensures membershipManager == old(membershipManager)
    {
      if benefitRegistry.None? {
        return Fail("benefit registry not initialized");
      }
      if id !in benefitRegistry.value {
        return Fail("benefit not found");
      }
      var benefit := benefitRegistry.value[id];
      benefitRegistry := Some(benefitRegistry.value[id := benefit.(active := false)]);
      o := Pass;
    }

    /** `ListBenefits`: every active benefit exactly once, in no particular order. */
    method ListBenefits() returns (benefits: seq<Benefit>)
      requires Valid()
      ensures forall i :: 0 <= i < |benefits| ==>
                benefits[i].active && benefits[i].id in Entries(benefitRegistry)
                && Entries(benefitRegistry)[benefits[i].id] == benefits[i]
      ensures forall id :: id in Entries(benefitRegistry) && Entries(benefitRegistry)[id].active ==>
                Entries(benefitRegistry)[id] in benefits
      ensures forall i, j :: 0 <= i < j < |benefits| ==> benefits[i].id != benefits[j].id
    {
      var registry := Entries(benefitRegistry);
      benefits := [];
      var pending := registry.Keys;
      while pending != {}
        invariant pending <= registry.Keys
        invariant forall i :: 0 <= i < |benefits| ==>
                    && benefits[i].active && benefits[i].id in registry
                    && registry[benefits[i].id] == benefits[i] && benefits[i].id !in pending
        invariant forall id :: id in registry && id !in pending && registry[id].active ==> registry[id] in benefits
        invariant forall i, j :: 0 <= i < j < |benefits| ==> benefits[i].id != benefits[j].id
        decreases |pending|
      {
        var id :| id in pending;
        if registry[id].active {
          benefits := benefits + [registry[id]];
        }
        pending := pending - {id};
      }
    }

    /** `MintToken` for one token: the address and the amount are checked
        before the ledger mints. */
    method MintToken(participantID: string, token: string, amount: int) returns (o: Outcome)
      requires Valid()
      modifies tokenLedger
      ensures Valid()
      ensures o == if validateAddress(participantID).Fail? then validateAddress(participantID)
                   else if amount <= 0 then Fail("amount must be greater than zero")
                   else Pass
      ensures o == Pass ==> tokenLedger.balances == TokenPayment.Credit(old(tokenLedger.balances),
                                                                       TokenPayment.Holding(participantID, token), amount)
      ensures o != Pass ==> tokenLedger.balances == old(tokenLedger.balances)
      ensures tokenLedger.escrowed == old(tokenLedger.escrowed) && tokenLedger.allowances == old(tokenLedger.allowances)
    {
      var check := validateAddress(participantID);
      if check.Fail? {
        return check;
      }
      if amount <= 0 {
        return Fail("amount must be greater than zero");
      }
      o := tokenLedger.MintTokens(participantID, token, amount);
    }

    /** `TransferToken` for one token: both addresses and the amount are
        checked, then the ledger transfers and its answer is read by `CheckedTransfer`. */
    method TransferToken(fromID: string, toID: string, token: string, amount: int) returns (o: Outcome)
      requires Valid()
      modifies tokenLedger
      ensures Valid()
      ensures o == if validateAddress(fromID).Fail? then validateAddress(fromID)
                   else if validateAddress(toID).Fail? then validateAddress(toID)
                   else if amount <= 0 then Fail("amount must be greater than zero")
                   else if Get(old(tokenLedger.balances), TokenPayment.Holding(fromID, token)) < amount
                   then Fail("insufficient balance")
                   else Pass
      ensures o == Pass ==> tokenLedger.balances == TokenPayment.Move(old(tokenLedger.balances),
                                                                     TokenPayment.Holding(fromID, token),
                                                                     TokenPayment.Holding(toID, token), amount)
      ensures o != Pass ==> tokenLedger.balances == old(tokenLedger.balances)
      ensures tokenLedger.escrowed == old(tokenLedger.escrowed) && tokenLedger.allowances == old(tokenLedger.allowances)
    {
      var check := validateAddress(fromID);
      if check.Fail? {
        return check;
      }
      check := validateAddress(toID);
      if check.Fail? {
        return check;
      }
      if amount <= 0 {
        return Fail("amount must be greater than zero");
      }
      var err := tokenLedger.TransferTokens(fromID, toID, token, amount);
      o := CheckedTransfer(err == Pass, err);
    }

    /** `CreateFreightQuote`: the request is checked before the marketplace is
        asked, and the marketplace's answer is passed on. */
    method CreateFreightQuote(serviceCategory: ServiceCategory, cargoType: CargoType, packagingMode: PackagingMode,
                              origin: string, destination: string, transportationMode: TransportationMode,
                              rate: int, validUntil: int, id: string, now: int)
      returns (r: Result<FreightQuote>)
      requires Valid()
      modifies marketplace, marketplace.blockchain
      ensures Valid()
      ensures marketplace.participants == old(marketplace.participants)
      ensures marketplace.bids == old(marketplace.bids) && marketplace.bookings == old(marketplace.bookings)
      ensures !IsValidQuoteRequest(origin, destination, rate) ==> r == Err("invalid quote request parameters")
      ensures IsValidQuoteRequest(origin, destination, rate) && validUntil < now ==>
                r == Err("validUntil must be in the future")
      ensures !IsValidQuoteRequest(origin, destination, rate) || validUntil < now ==>
                && marketplace.quotes == old(marketplace.quotes)
                && marketplace.blockchain.blocks == old(marketplace.blockchain.blocks)
      ensures IsValidQuoteRequest(origin, destination, rate) && validUntil >= now ==>
                var q := FreightQuote(id, serviceCategory, cargoType, packagingMode, origin, destination,
                                      transportationMode, rate, validUntil);
                && marketplace.quotes == old(marketplace.quotes)[id := q]
                && Blockchain.Appended(marketplace.blockchain.digest, old(marketplace.blockchain.blocks), marketplace.blockchain.blocks, QuoteRecord(q), now)
                && r == (if old(marketplace.blockchain.blocks) == [] then Err(Marketplace.NoGenesis) else Ok(q))
    {
      if !IsValidQuoteRequest(origin, destination, rate) {
        return Err("invalid quote request parameters");
      }
      r := marketplace.CreateFreightQuote(serviceCategory, cargoType, packagingMode, origin, destination,
                                          transportationMode, rate, validUntil, id, now);
    }

    /** `CheckMembershipActive`. */
    method CheckMembershipActive(participantID: string) returns (active: bool, o: Outcome)
      ensures membershipManager.None? ==> !active && o == Fail("membership manager not initialized")
      ensures membershipManager.Some? ==> o == Pass && active == membershipManager.value(participantID)
    {
      if membershipManager.None? {
        return false, Fail("membership manager not initialized");
      }
      active, o := membershipManager.value(participantID), Pass;
    }

    /** `RaiseDispute`, with the dispute's id and the clock reading passed in. */
    method RaiseDispute(bookingID: string, raiserID: string, reason: string, id: string, now: int)
      returns (o: Outcome)
      requires Valid()
      modifies disputeService
      ensures Valid()
      ensures disputeService == null ==> o == Fail("dispute service not initialized")
      ensures disputeService != null ==>
                && o == (if bookingID == "" || raiserID == "" || reason == ""
                         then Fail("bookingID, raiserID, and reason are required") else Pass)
                && disputeService.disputes == (if o == Pass
                                               then old(disputeService.disputes)[id := Disputes.Opened(id, bookingID, raiserID, reason, now)]
                                               else old(disputeService.disputes))
    {
      if disputeService == null {
        return Fail("dispute service not initialized");
      }
      var r := disputeService.RaiseDispute(bookingID, raiserID, reason, id, now);
      o := if r.Ok? then Pass else Fail(r.msg);
    }

    /** `ResolveDispute` at time `now`; the resolver is not consulted. */
    method ResolveDispute(disputeID: string, resolverID: string, resolution: string, now: int) returns (o: Outcome)
      requires Valid()
      modifies disputeService
      ensures Valid()
      ensures disputeService == null ==> o == Fail("dispute service not initialized")
      ensures disputeService != null ==>
                var old_ := old(disputeService.disputes);
                && o == (if disputeID !in old_ then Fail("dispute not found")
                         else if old_[disputeID].status != Disputes.StatusOpen then Fail("dispute already resolved or closed")
                         else Pass)
                && disputeService.disputes == (if o == Pass
                                               then old_[disputeID := Disputes.Closed(old_[disputeID], resolution, now)]
                                               else old_)
    {
      if disputeService == null {
        return Fail("dispute service not initialized");
      }
      o := disputeService.ResolveDispute(disputeID, resolution, now);
    }

    /** `TransportModeSpecificLogic`: both checks of the validator, in order. */
    method TransportModeSpecificLogic(transportMode: string) returns (o: Outcome)
      requires Valid()
      ensures transportValidator.None? ==> o == Fail("transportation validator not initialized")
      ensures transportValidator.Some? ==> (o == Pass <==> TransportationValidator.ToLower(transportMode) in TransportationValidator.AllowedModes)
      ensures transportValidator.Some? && o != Pass ==>
                var m := TransportationValidator.Normalize(transportMode);
                o == if m !in TransportationValidator.AllowedModes then Fail("invalid transport mode: " + m)
                     else Fail("unsupported transport mode: " + transportMode)
    {
      if transportValidator.None? {
        return Fail("transportation validator not initialized");
      }
      TransportationValidator.BothChecksPass(transportMode);
      o := TransportationValidator.ValidateMode(transportValidator.value, transportMode);
      if o != Pass {
        return;
      }
      o := TransportationValidator.ApplyModeSpecificLogic(transportMode);
    }
  }
}
