/** The quote, bid and booking tables of marketplace.go. Every successful
    change is also appended to the chain as a record; the table is written
    first, so it keeps the change when the append fails. */
module Marketplace {
  import opened Wrappers
  import opened Models
  import Blockchain

  /** The position of the first bid with id `bidID`, or -1. */
  function FindBid(bids: seq<FreightBid>, bidID: string): (i: int)
    ensures -1 <= i < |bids|
    ensures i >= 0 ==> bids[i].id == bidID && forall j :: 0 <= j < i ==> bids[j].id != bidID
    ensures i == -1 ==> forall j :: 0 <= j < |bids| ==> bids[j].id != bidID
  {
    if bids == [] then -1
    else if bids[0].id == bidID then 0
    else
      var k := FindBid(bids[1..], bidID);
      if k == -1 then -1 else k + 1
  }

  /** The search loop of `ConfirmBooking` and `AcceptBid`. */
  method IndexOfBid(bids: seq<FreightBid>, bidID: string) returns (i: int)
    ensures i == FindBid(bids, bidID)
  {
    i := 0;
    while i < |bids| && bids[i].id != bidID
      invariant 0 <= i <= |bids|
      invariant forall j :: 0 <= j < i ==> bids[j].id != bidID
    {
      i := i + 1;
    }
    if i == |bids| {
      i := -1;
    }
    FindBidUnique(bids, bidID, i);
  }

  /** The first matching position is determined by the ids alone. */
  lemma FindBidUnique(bids: seq<FreightBid>, bidID: string, i: int)
    requires -1 <= i < |bids|
    requires i >= 0 ==> bids[i].id == bidID && forall j :: 0 <= j < i ==> bids[j].id != bidID
    requires i == -1 ==> forall j :: 0 <= j < |bids| ==> bids[j].id != bidID
    ensures i == FindBid(bids, bidID)
  {
    var k := FindBid(bids, bidID);
    if i >= 0 && k >= 0 {
      assert !(i < k) && !(k < i);
    }
  }

  /** The bid table after the matching bid of `quoteID` is flagged accepted;
      unchanged when the quote has no bids or none matches. */
  function MarkAccepted(bids: map<string, seq<FreightBid>>, quoteID: string, bidID: string)
    : (r: map<string, seq<FreightBid>>)
    ensures r.Keys == bids.Keys
    ensures forall q :: q in bids && q != quoteID ==> r[q] == bids[q]
    ensures quoteID in bids ==>
              && |r[quoteID]| == |bids[quoteID]|
              && forall j :: 0 <= j < |bids[quoteID]| ==>
                   r[quoteID][j] == bids[quoteID][j].(isAccepted := bids[quoteID][j].isAccepted
                                                                 || j == FindBid(bids[quoteID], bidID))
  {
    if quoteID !in bids then bids
    else
      var i := FindBid(bids[quoteID], bidID);
      if i < 0 then bids
      else bids[quoteID := bids[quoteID][i := bids[quoteID][i].(isAccepted := true)]]
  }

  /** Flagging a bid a second time changes nothing: `AcceptBid` followed by
      `ConfirmBooking` flags the same bid as `ConfirmBooking` alone. */
  lemma MarkAcceptedIdempotent(bids: map<string, seq<FreightBid>>, quoteID: string, bidID: string)
    ensures MarkAccepted(MarkAccepted(bids, quoteID, bidID), quoteID, bidID) == MarkAccepted(bids, quoteID, bidID)
  {
    var once := MarkAccepted(bids, quoteID, bidID);
    if quoteID in bids {
      var before, after := bids[quoteID], once[quoteID];
      var i := FindBid(before, bidID);
      assert forall j :: 0 <= j < |after| ==> after[j].id == before[j].id;
      FindBidUnique(after, bidID, i);
      var twice := MarkAccepted(once, quoteID, bidID);
      assert twice[quoteID] == after;
      assert twice == once;
    }
  }

  /** What `ConfirmBooking` decides before it appends to the chain: the first
      failing check, or the booking it stores. */
  function BookingFor(participants: map<string, Participant>, bids: map<string, seq<FreightBid>>,
                      quoteID: string, bidID: string, shipperID: string, id: string, now: int): (r: Result<Booking>)
    ensures r.Ok? ==>
              && quoteID in bids && 0 <= FindBid(bids[quoteID], bidID)
              && shipperID in participants
              && r.value == Booking(id, quoteID, bidID, shipperID,
                                    bids[quoteID][FindBid(bids[quoteID], bidID)].carrierID, now, BookingConfirmed)
    ensures r.Err? ==> r.msg == (if quoteID !in bids then "no bids for quote"
                                 else if FindBid(bids[quoteID], bidID) < 0 then "bid not found"
                                 else "shipper not found")
  {
    if quoteID !in bids then Err("no bids for quote")
    else
      var i := FindBid(bids[quoteID], bidID);
      if i < 0 then Err("bid not found")
      else if shipperID !in participants then Err("shipper not found")
      else Ok(Booking(id, quoteID, bidID, shipperID, bids[quoteID][i].carrierID, now, BookingConfirmed))
  }

  /** A booking refused for its shipper still leaves its bid flagged accepted. */
  lemma ShipperErrorKeepsAcceptance(participants: map<string, Participant>, bids: map<string, seq<FreightBid>>,
                                    quoteID: string, bidID: string, shipperID: string, id: string, now: int)
    requires BookingFor(participants, bids, quoteID, bidID, shipperID, id, now) == Err("shipper not found")
    ensures quoteID in bids
    ensures var i := FindBid(bids[quoteID], bidID);
            0 <= i && MarkAccepted(bids, quoteID, bidID)[quoteID][i].isAccepted
  {
  }

  const NoGenesis := "blockchain has no genesis block"

  /** The invariants of the four tables: every entry is filed under its own id,
      every bid list is non-empty and belongs to a stored quote, and every
      bid names that quote and a registered carrier. */
  ghost predicate TablesConsistent(participants: map<string, Participant>, quotes: map<string, FreightQuote>,
                                   bids: map<string, seq<FreightBid>>, bookings: map<string, Booking>)
  {
    && (forall id :: id in participants ==> participants[id].id == id)
    && (forall id :: id in quotes ==> quotes[id].id == id)
    && (forall q :: q in bids ==> q in quotes && |bids[q]| > 0)
    && (forall q, j :: q in bids && 0 <= j < |bids[q]| ==>
          bids[q][j].quoteID == q && bids[q][j].carrierID in participants)
    && (forall id :: id in bookings ==> bookings[id].id == id && bookings[id].status == BookingConfirmed)
  }

  class Marketplace {
    const blockchain: Blockchain.Blockchain
    var participants: map<string, Participant>
    var quotes: map<string, FreightQuote>
    var bids: map<string, seq<FreightBid>>
    var bookings: map<string, Booking>

    ghost predicate Valid()
      reads this, blockchain
    {
      blockchain.Valid() && TablesConsistent(participants, quotes, bids, bookings)
    }

    /** `NewMarketplace`. */
    constructor (blockchain: Blockchain.Blockchain)
      requires blockchain.Valid()
      ensures Valid() && this.blockchain == blockchain
      ensures participants == map[] && quotes == map[] && bids == map[] && bookings == map[]
    {
      this.blockchain := blockchain;
      participants := map[];
      quotes := map[];
      bids := map[];
      bookings := map[];
    }

    /** `RegisterParticipant` with the fresh id passed in. */
    method RegisterParticipant(name: string, kind: ParticipantType, id: string) returns (p: Participant)
      requires Valid()
      modifies this
      ensures Valid()
      ensures p == Participant(id, name, kind)
      ensures participants == old(participants)[id := p]
      ensures quotes == old(quotes) && bids == old(bids) && bookings == old(bookings)
    {
      p := Participant(id, name, kind);
      participants := participants[id := p];
    }

    /** `CreateFreightQuote` with the fresh id and the clock reading passed in. */
    method CreateFreightQuote(serviceCategory: ServiceCategory, cargoType: CargoType, packagingMode: PackagingMode,
                              origin: string, destination: string, transportationMode: TransportationMode,
                              rate: int, validUntil: int, id: string, now: int)
      returns (r: Result<FreightQuote>)
      requires Valid()
      modifies this, blockchain
      ensures Valid()
      ensures participants == old(participants) && bids == old(bids) && bookings == old(bookings)
      ensures rate <= 0 ==> r == Err("rate must be positive")
      ensures rate > 0 && validUntil < now ==> r == Err("validUntil must be in the future")
      ensures rate <= 0 || validUntil < now ==> quotes == old(quotes) && blockchain.blocks == old(blockchain.blocks)
      ensures rate > 0 && validUntil >= now ==>
                var q := FreightQuote(id, serviceCategory, cargoType, packagingMode, origin, destination,
                                      transportationMode, rate, validUntil);
                && quotes == old(quotes)[id := q]
                && Blockchain.Appended(blockchain.digest, old(blockchain.blocks), blockchain.blocks, QuoteRecord(q), now)
                && r == (if old(blockchain.blocks) == [] then Err(NoGenesis) else Ok(q))
    {
      if rate <= 0 {
        return Err("rate must be positive");
      }
      if validUntil < now {
        return Err("validUntil must be in the future");
      }
      var quote := FreightQuote(id, serviceCategory, cargoType, packagingMode, origin, destination,
                                transportationMode, rate, validUntil);
      quotes := quotes[id := quote];
      var o := blockchain.AddBlock(QuoteRecord(quote), now);
      if o.Fail? {
        return Err(o.msg);
      }
      r := Ok(quote);
    }

    /** `PlaceBid` with the fresh id and the clock reading passed in. */
    method PlaceBid(quoteID: string, carrierID: string, bidAmount: int, id: string, now: int)
      returns (r: Result<FreightBid>)
      requires Valid()
      modifies this, blockchain
      ensures Valid()
      ensures participants == old(participants) && quotes == old(quotes) && bookings == old(bookings)
      ensures quoteID !in quotes ==> r == Err("quote not found")
      ensures quoteID in quotes && carrierID !in participants ==> r == Err("carrier not found")
      ensures quoteID in quotes && carrierID in participants && bidAmount <= 0 ==> r == Err("bid amount must be positive")
      ensures quoteID !in quotes || carrierID !in participants || bidAmount <= 0 ==>
                bids == old(bids) && blockchain.blocks == old(blockchain.blocks)
      ensures quoteID in quotes && carrierID in participants && bidAmount > 0 ==>
                var bid := FreightBid(id, quoteID, carrierID, bidAmount, now, false);
                && bids == old(bids)[quoteID := (if quoteID in old(bids) then old(bids)[quoteID] else []) + [bid]]
                && Blockchain.Appended(blockchain.digest, old(blockchain.blocks), blockchain.blocks, BidRecord(bid), now)
                && r == (if old(blockchain.blocks) == [] then Err(NoGenesis) else Ok(bid))
    {
      if quoteID !in quotes {
        return Err("quote not found");
      }
      if carrierID !in participants {
        return Err("carrier not found");
      }
      if bidAmount <= 0 {
        return Err("bid amount must be positive");
      }
      var bid := FreightBid(id, quoteID, carrierID, bidAmount, now, false);
      var earlier := if quoteID in bids then bids[quoteID] else [];
      bids := bids[quoteID := earlier + [bid]];
      var o := blockchain.AddBlock(BidRecord(bid), now);
      if o.Fail? {
        return Err(o.msg);
      }
      r := Ok(bid);
    }

    /** `ConfirmBooking` with the fresh id and the clock reading passed in.
        The matching bid is flagged accepted before the shipper is checked. */
    method ConfirmBooking(quoteID: string, bidID: string, shipperID: string, id: string, now: int)
      returns (r: Result<Booking>)
      requires Valid()
      modifies this, blockchain
      ensures Valid()
      ensures participants == old(participants) && quotes == old(quotes)
      ensures bids == MarkAccepted(old(bids), quoteID, bidID)
      ensures var b := BookingFor(old(participants), old(bids), quoteID, bidID, shipperID, id, now);
              && (b.Err? ==> r == b && bookings == old(bookings) && blockchain.blocks == old(blockchain.blocks))
              && (b.Ok? ==>
                    && bookings == old(bookings)[id := b.value]
                    && Blockchain.Appended(blockchain.digest, old(blockchain.blocks), blockchain.blocks, BookingRecord(b.value), now)
                    && r == (if old(blockchain.blocks) == [] then Err(NoGenesis) else b))
    {
      if quoteID !in bids {
        return Err("no bids for quote");
      }
      var list := bids[quoteID];
      var i := IndexOfBid(list, bidID);
      if i < 0 {
        return Err("bid not found");
      }
      var carrierID := list[i].carrierID;
      bids := bids[quoteID := list[i := list[i].(isAccepted := true)]];
      if shipperID !in participants {
        return Err("shipper not found");
      }
      var booking := Booking(id, quoteID, bidID, shipperID, carrierID, now, BookingConfirmed);
      bookings := bookings[id := booking];
      var o := blockchain.AddBlock(BookingRecord(booking), now);
      if o.Fail? {
        return Err(o.msg);
      }
      r := Ok(booking);
    }
  }
}
