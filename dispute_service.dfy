/** The dispute lifecycle of dispute_service.go: a dispute is raised Open and
    can be resolved once. */
module Disputes {
  import opened Wrappers

  const StatusOpen := "Open"
  const StatusResolved := "Resolved"

  /** `Dispute`; `resolvedAt` is Go's nil-able `*time.Time`. */
  datatype Dispute = Dispute(
    id: string,
    bookingID: string,
    raiserID: string,
    reason: string,
    resolution: string,
    status: string,
    createdAt: int,
    resolvedAt: Option<int>)

  /** The two shapes a stored dispute can have. */
  predicate WellFormed(d: Dispute)
  {
    || (d.status == StatusOpen && d.resolution == "" && d.resolvedAt == None)
    || (d.status == StatusResolved && d.resolvedAt.Some?)
  }

  /** The dispute `RaiseDispute` creates. */
  function Opened(id: string, bookingID: string, raiserID: string, reason: string, now: int): (d: Dispute)
    ensures WellFormed(d) && d.status == StatusOpen
  {
    Dispute(id, bookingID, raiserID, reason, "", StatusOpen, now, None)
  }

  /** The dispute `ResolveDispute` stores in place of the open dispute `d`. */
  function Closed(d: Dispute, resolution: string, now: int): (r: Dispute)
    requires WellFormed(d) && d.status == StatusOpen
    ensures WellFormed(r) && r.status == StatusResolved
    ensures r.id == d.id && r.bookingID == d.bookingID && r.raiserID == d.raiserID
    ensures r.reason == d.reason && r.createdAt == d.createdAt
    ensures r.resolution == resolution && r.resolvedAt == Some(now)
  {
    d.(resolution := resolution, status := StatusResolved, resolvedAt := Some(now))
  }

  class DisputeService {
    var disputes: map<string, Dispute>

    ghost predicate Valid()
      reads this
    {
      forall id :: id in disputes ==> disputes[id].id == id && WellFormed(disputes[id])
    }

    /** `NewDisputeService`. */
    constructor ()
      ensures Valid() && disputes == map[]
    {
      disputes := map[];
    }

    /** `RaiseDispute`, with the id `generateUUID` would produce and the clock reading passed in. */
    method RaiseDispute(bookingID: string, raiserID: string, reason: string, id: string, now: int)
      returns (r: Result<Dispute>)
      requires Valid()
      modifies this
      ensures Valid()
      ensures bookingID == "" || raiserID == "" || reason == "" ==>
                r == Err("bookingID, raiserID, and reason are required") && disputes == old(disputes)
      ensures bookingID != "" && raiserID != "" && reason != "" ==>
                && r == Ok(Opened(id, bookingID, raiserID, reason, now))
                && disputes == old(disputes)[id := r.value]
    {
      if bookingID == "" || raiserID == "" || reason == "" {
        return Err("bookingID, raiserID, and reason are required");
      }
      var dispute := Opened(id, bookingID, raiserID, reason, now);
      disputes := disputes[id := dispute];
      r := Ok(dispute);
    }

    /** `ResolveDispute` at time `now`. */
    method ResolveDispute(disputeID: string, resolution: string, now: int) returns (o: Outcome)
      requires Valid()
      modifies this
      ensures Valid()
      ensures o == if disputeID !in old(disputes) then Fail("dispute not found")
                   else if old(disputes)[disputeID].status != StatusOpen then Fail("dispute already resolved or closed")
                   else Pass
      ensures o != Pass ==> disputes == old(disputes)
      ensures o == Pass ==> disputes == old(disputes)[disputeID := Closed(old(disputes)[disputeID], resolution, now)]
    {
      if disputeID !in disputes {
        return Fail("dispute not found");
      }
      var dispute := disputes[disputeID];
      if dispute.status != StatusOpen {
        return Fail("dispute already resolved or closed");
      }
      disputes := disputes[disputeID := Closed(dispute, resolution, now)];
      o := Pass;
    }

    /** `GetDispute`: the stored dispute, or an error; nothing changes. */
    method GetDispute(disputeID: string) returns (r: Result<Dispute>)
      requires Valid()
      ensures disputeID in disputes ==> r == Ok(disputes[disputeID]) && WellFormed(r.value) && r.value.id == disputeID
      ensures disputeID !in disputes ==> r == Err("dispute not found")
    {
      if disputeID !in disputes {
        return Err("dispute not found");
      }
      r := Ok(disputes[disputeID]);
    }
  }
}
