/** `FreightQuotationSystem` (freight_quotation.go): business checks in front
    of the marketplace, which it reads and writes directly. */
module FreightQuotation {
  import opened Wrappers
  import opened Models
  import opened MP = Marketplace
  import Blockchain

  /** Flagging a bid accepted changes neither which bid matches nor what the
      booking would be. */
  lemma BookingForAfterMark(participants: map<string, Participant>, bids: map<string, seq<FreightBid>>,
                            quoteID: string, bidID: string, shipperID: string, id: string, now: int)
    ensures BookingFor(participants, MarkAccepted(bids, quoteID, bidID), quoteID, bidID, shipperID, id, now)
            == BookingFor(participants, bids, quoteID, bidID, shipperID, id, now)
  {
    if quoteID in bids {
      var before, after := bids[quoteID], MarkAccepted(bids, quoteID, bidID)[quoteID];
      assert forall j :: 0 <= j < |after| ==> after[j].id == before[j].id && after[j].carrierID == before[j].carrierID;
      FindBidUnique(after, bidID, FindBid(before, bidID));
    }
  }

  class FreightQuotationSystem {
    const marketplace: MP.Marketplace

    ghost predicate Valid()
      reads this, marketplace, marketplace.blockchain
    {
      marketplace.Valid()
    }

    /** `NewFreightQuotationSystem`. */
    constructor (marketplace: MP.Marketplace)
      requires marketplace.Valid()
      ensures Valid() && this.marketplace == marketplace
    {
      this.marketplace := marketplace;
    }

    /** `CreateQuote` at time `now`: checks the rate and the expiry, then creates
        the quote in the marketplace and passes its result on. */
    method CreateQuote(serviceCategory: ServiceCategory, cargoType: CargoType, packagingMode: PackagingMode,
                       origin: string, destination: string, transportationMode: TransportationMode,
                       rate: int, validUntil: int, id: string, now: int)
      returns (r: Result<FreightQuote>)
      requires Valid()
      modifies marketplace, marketplace.blockchain
      ensures Valid()
      ensures marketplace.participants == old(marketplace.participants)
      ensures marketplace.bids == old(marketplace.bids) && marketplace.bookings == old(marketplace.bookings)
      ensures rate <= 0 ==> r == Err("rate must be positive")
      ensures rate > 0 && validUntil < now ==> r == Err("validUntil must be in the future")
      ensures rate <= 0 || validUntil < now ==>
                marketplace.quotes == old(marketplace.quotes) && marketplace.blockchain.blocks == old(marketplace.blockchain.blocks)
      ensures rate > 0 && validUntil >= now ==>
                var q := FreightQuote(id, serviceCategory, cargoType, packagingMode, origin, destination,
                                      transportationMode, rate, validUntil);
                && marketplace.quotes == old(marketplace.quotes)[id := q]
                && Blockchain.Appended(marketplace.blockchain.digest, old(marketplace.blockchain.blocks), marketplace.blockchain.blocks, QuoteRecord(q), now)
                && r == (if old(marketplace.blockchain.blocks) == [] then Err(NoGenesis) else Ok(q))
    {
      if rate <= 0 {
        return Err("rate must be positive");
      }
      if validUntil < now {
        return Err("validUntil must be in the future");
      }
      r := marketplace.CreateFreightQuote(serviceCategory, cargoType, packagingMode, origin, destination,
                                          transportationMode, rate, validUntil, id, now);
    }

    /** `PlaceBid` at time `now`: the amount, then the quote, then its expiry are
        checked before the marketplace places the bid. */
    method PlaceBid(quoteID: string, carrierID: string, bidAmount: int, id: string, now: int)
      returns (r: Result<FreightBid>)
      requires Valid()
      modifies marketplace, marketplace.blockchain
      ensures Valid()
      ensures marketplace.participants == old(marketplace.participants) && marketplace.quotes == old(marketplace.quotes)
      ensures marketplace.bookings == old(marketplace.bookings)
      ensures bidAmount <= 0 ==> r == Err("bid amount must be positive")
      ensures bidAmount > 0 && quoteID !in marketplace.quotes ==> r == Err("quote not found")
      ensures bidAmount > 0 && quoteID in marketplace.quotes && now > marketplace.quotes[quoteID].validUntil ==>
                r == Err("quote has expired")
      ensures (&& bidAmount > 0 && quoteID in marketplace.quotes && now <= marketplace.quotes[quoteID].validUntil
               && carrierID !in marketplace.participants) ==> r == Err("carrier not found")
      ensures r.Err? && r.msg != NoGenesis ==>
                marketplace.bids == old(marketplace.bids)
                && marketplace.blockchain.blocks == old(marketplace.blockchain.blocks)
      ensures (&& bidAmount > 0 && quoteID in marketplace.quotes && now <= marketplace.quotes[quoteID].validUntil
               && carrierID in marketplace.participants) ==>
                var bid := FreightBid(id, quoteID, carrierID, bidAmount, now, false);
                var earlier := if quoteID in old(marketplace.bids) then old(marketplace.bids)[quoteID] else [];
                && marketplace.bids == old(marketplace.bids)[quoteID := earlier + [bid]]
                && Blockchain.Appended(marketplace.blockchain.digest, old(marketplace.blockchain.blocks), marketplace.blockchain.blocks, BidRecord(bid), now)
                && r == (if old(marketplace.blockchain.blocks) == [] then Err(NoGenesis) else Ok(bid))
    {
      if bidAmount <= 0 {
        return Err("bid amount must be positive");
      }
      if quoteID !in marketplace.quotes {
        return Err("quote not found");
      }
      if now > marketplace.quotes[quoteID].validUntil {
        return Err("quote has expired");
      }
      r := marketplace.PlaceBid(quoteID, carrierID, bidAmount, id, now);
    }

    /** `AcceptBid`: flags the matching bid accepted itself, then confirms the
        booking in the marketplace. The flag stays set when confirmation fails. */
    method AcceptBid(quoteID: string, bidID: string, shipperID: string, id: string, now: int)
      returns (r: Result<Booking>)
      requires Valid()
      modifies marketplace, marketplace.blockchain
      ensures Valid()
      ensures marketplace.participants == old(marketplace.participants) && marketplace.quotes == old(marketplace.quotes)
      ensures marketplace.bids == MarkAccepted(old(marketplace.bids), quoteID, bidID)
      ensures var b := BookingFor(old(marketplace.participants), old(marketplace.bids), quoteID, bidID, shipperID, id, now);
              && (b.Err? ==> r == b && marketplace.bookings == old(marketplace.bookings)
                             && marketplace.blockchain.blocks == old(marketplace.blockchain.blocks))
              && (b.Ok? ==>
                    && marketplace.bookings == old(marketplace.bookings)[id := b.value]
                    && Blockchain.Appended(marketplace.blockchain.digest, old(marketplace.blockchain.blocks), marketplace.blockchain.blocks,
                                           BookingRecord(b.value), now)
                    && r == (if old(marketplace.blockchain.blocks) == [] then Err(NoGenesis) else b))
    {
      if quoteID !in marketplace.bids {
        return Err("no bids for quote");
      }
      var list := marketplace.bids[quoteID];
      var i := IndexOfBid(list, bidID);
      if i < 0 {
        return Err("bid not found");
      }
      ghost var before := marketplace.bids;
      marketplace.bids := marketplace.bids[quoteID := list[i := list[i].(isAccepted := true)]];
      assert marketplace.bids == MarkAccepted(before, quoteID, bidID);
      MarkAcceptedIdempotent(before, quoteID, bidID);
      BookingForAfterMark(marketplace.participants, before, quoteID, bidID, shipperID, id, now);
      r := marketplace.ConfirmBooking(quoteID, bidID, shipperID, id, now);
    }

    /** `ListBids`: the quote's bids, never empty, or an error; nothing changes. */
    method ListBids(quoteID: string) returns (r: Result<seq<FreightBid>>)
      requires Valid()
      ensures quoteID in marketplace.bids ==> r == Ok(marketplace.bids[quoteID]) && |r.value| > 0
      ensures quoteID !in marketplace.bids ==> r == Err("no bids for quote")
    {
      if quoteID !in marketplace.bids {
        return Err("no bids for quote");
      }
      r := Ok(marketplace.bids[quoteID]);
    }
  }
}
