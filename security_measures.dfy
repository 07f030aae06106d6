/** The access-control, multi-signature, time-locked escrow and upgradeable
    proxy objects of security_measures.go. */
module SecurityMeasures {
  import opened Wrappers

  /** `Role` is a named string type; these are its defined values. */
  const AdminRole := "Admin"
  const ShipperRole := "Shipper"
  const CarrierRole := "Carrier"
  const BrokerRole := "Broker"
  const ForwarderRole := "Forwarder"
  const DefinedRoles: set<string> := {AdminRole, ShipperRole, CarrierRole, BrokerRole, ForwarderRole}

  /** `userRoles[user]`, with Go's zero value "" for a user never assigned a role. */
  function RoleOf(userRoles: map<string, string>, user: string): (r: string)
    ensures user in userRoles ==> r == userRoles[user]
    ensures user !in userRoles ==> r == ""
  {
    if user in userRoles then userRoles[user] else ""
  }

  /** A user that was never assigned a role holds none of the defined roles. */
  lemma UnassignedHoldsNoRole(userRoles: map<string, string>, user: string, role: string)
    requires user !in userRoles && role in DefinedRoles
    ensures RoleOf(userRoles, user) != role
  {
  }

  class AccessControl {
    var userRoles: map<string, string>

    /** `NewAccessControl`. */
    constructor ()
      ensures userRoles == map[]
    {
      userRoles := map[];
    }

    /** `AssignRole`: the new role replaces any earlier one. */
    method AssignRole(userID: string, role: string)
      modifies this
      ensures userRoles == old(userRoles)[userID := role]
      ensures RoleOf(userRoles, userID) == role
    {
      userRoles := userRoles[userID := role];
    }

    /** `CheckRole`: whether the last role assigned to the user is `role`. */
    method CheckRole(userID: string, role: string) returns (b: bool)
      ensures b <==> (userID in userRoles && userRoles[userID] == role) || (userID !in userRoles && role == "")
    {
      b := RoleOf(userRoles, userID) == role;
    }
  }

  class MultiSigAuthorization {
    const requiredSigs: int
    /** The keys of Go's `signers` map; every stored value is `true`. */
    var signers: set<string>

    /** `NewMultiSigAuthorization`. */
    constructor (required: int)
      ensures requiredSigs == required && signers == {}
    {
      requiredSigs := required;
      signers := {};
    }

    /** `Sign`: signing adds the user; signing again changes nothing. */
    method Sign(userID: string)
      modifies this
      ensures signers == old(signers) + {userID}
      ensures old(userID in signers) ==> signers == old(signers)
      ensures |signers| >= old(|signers|)
    {
      signers := signers + {userID};
    }

    /** `IsAuthorized`: enough distinct users have signed. */
    method IsAuthorized() returns (b: bool)
      ensures b <==> |signers| >= requiredSigs
    {
      b := |signers| >= requiredSigs;
    }
  }

  /** Signing never withdraws an authorization. */
  lemma AuthorizationIsMonotone(signers: set<string>, userID: string, requiredSigs: int)
    requires |signers| >= requiredSigs
    ensures |signers + {userID}| >= requiredSigs
  {
    if userID in signers {
      assert signers + {userID} == signers;
    } else {
      assert |signers + {userID}| == |signers| + 1;
    }
  }

  class Escrow {
    const amount: int
    const payer: string
    const payee: string
    const lockTime: int
    var released: bool

    /** `NewEscrow` at time `now`: locked until `now + lockDuration`. */
    constructor (amount: int, payer: string, payee: string, lockDuration: int, now: int)
      ensures this.amount == amount && this.payer == payer && this.payee == payee
      ensures lockTime == now + lockDuration && !released
    {
      this.amount := amount;
      this.payer := payer;
      this.payee := payee;
      lockTime := now + lockDuration;
      released := false;
    }

    /** `Release` at time `now`: succeeds once, and only when the lock time has come. */
    method Release(now: int) returns (o: Outcome)
      modifies this
      ensures o == if old(released) then Fail("funds already released")
                   else if now < lockTime then Fail("lock time not reached")
                   else Pass
      ensures released == (old(released) || o == Pass)
    {
      if released {
        return Fail("funds already released");
      }
      if now < lockTime {
        return Fail("lock time not reached");
      }
      released := true;
      o := Pass;
    }
  }

  /** `ComplianceRecord`; the zero record is what a failed lookup returns. */
  datatype ComplianceRecord = ComplianceRecord(participantID: string, event: string, timestamp: int, details: string)

  const ZeroRecord := ComplianceRecord("", "", 0, "")

  /** `ProxyContract`, generic in the implementation it forwards to. */
  class ProxyContract<Impl> {
    var implementation: Impl
    var complianceRecords: map<string, ComplianceRecord>

    /** Every record is filed under its own participant. */
    ghost predicate Valid()
      reads this
    {
      forall p :: p in complianceRecords ==> complianceRecords[p].participantID == p
    }

    /** `NewProxyContract`. */
    constructor (impl: Impl)
      ensures Valid() && implementation == impl && complianceRecords == map[]
    {
      implementation := impl;
      complianceRecords := map[];
    }

    /** `Upgrade`: replaces the implementation when the multi-signature authorizes it. */
    method Upgrade(newImpl: Impl, msa: MultiSigAuthorization) returns (o: Outcome)
      requires Valid()
      modifies this
      ensures Valid()
      ensures o == if |msa.signers| >= msa.requiredSigs then Pass else Fail("not authorized to upgrade")
      ensures implementation == (if o == Pass then newImpl else old(implementation))
      ensures complianceRecords == old(complianceRecords)
    {
      var authorized := msa.IsAuthorized();
      if !authorized {
        return Fail("not authorized to upgrade");
      }
      implementation := newImpl;
      o := Pass;
    }

    /** `AddComplianceRecord` at time `now`: replaces the participant's earlier record. */
    method AddComplianceRecord(participantID: string, event: string, details: string, now: int)
      requires Valid()
      modifies this
      ensures Valid()
      ensures complianceRecords == old(complianceRecords)[participantID := ComplianceRecord(participantID, event, now, details)]
      ensures implementation == old(implementation)
    {
      complianceRecords := complianceRecords[participantID := ComplianceRecord(participantID, event, now, details)];
    }

    /** `GetComplianceRecord`: the last record added for the participant, if any. */
    method GetComplianceRecord(participantID: string) returns (record: ComplianceRecord, found: bool)
      requires Valid()
      ensures found <==> participantID in complianceRecords
      ensures found ==> record == complianceRecords[participantID] && record.participantID == participantID
      ensures !found ==> record == ZeroRecord
    {
      found := participantID in complianceRecords;
      record := if found then complianceRecords[participantID] else ZeroRecord;
    }
  }
}
