/** The vendors, contracts and bank-webhook services, statement by statement over the tenant database. */
module CrmServices {
  import opened Basics
  import opened Json
  import opened Schema
  import opened Approvals
  import opened Links
  import opened Webhook
  import opened Database

  class VendorsService {
    const database: TenantDatabase

    constructor (database: TenantDatabase)
      ensures this.database == database
    {
      this.database := database;
    }

    method Create(role: Role, buildings: set<Id>) returns (reply: Reply)
      modifies database
      ensures LinksSound(old(database.Rows())) ==> LinksSound(database.Rows())
      ensures Outcome(database.Rows(), reply) == CreateVendor(old(database.Rows()), role, buildings)
    {
      CreateVendorKeeps(database.Rows(), role, buildings);
      if role == AdministratorRole && buildings == {} { return Err(AuthorizedBuildingRequired); }
      database.vendors := database.vendors + [Vendor(buildings, 1)];
      return Ok(|database.vendors| - 1);
    }

    /** The link diff: removed links first, unless a contract needs one, then added links. */
    method Update(role: Role, vendorId: Id, version: nat, buildings: Option<set<Id>>) returns (reply: Reply)
      modifies database
      ensures Outcome(database.Rows(), reply) == UpdateVendor(old(database.Rows()), role, vendorId, version, buildings)
      ensures LinksSound(old(database.Rows())) ==> LinksSound(database.Rows())
    {
      ghost var before := database.Rows();
      var saved := database.Rows();
      UpdateVendorChecked(before, role, vendorId, version, buildings);
      if vendorId >= |database.vendors| { return Err(NotFound); }
      if role == AdministratorRole && buildings == Some({}) { return Err(AuthorizedBuildingRequired); }
      var existing := database.vendors[vendorId];
      if existing.version != version { return Err(StaleVersion); }
      database.vendors := database.vendors[vendorId := existing.(version := version + 1)];
      if buildings.Some? {
        RelinkTriggersAgree(before, vendorId, buildings.value);
        var removed, added := existing.buildings - buildings.value, buildings.value - existing.buildings;
        if removed != {} {
          if Referenced(database.contracts, vendorId, removed) {
            database.Rollback(saved);
            return Err(BuildingReferenced);
          }
          Relink(vendorId, existing.buildings - removed);
        }
        if added != {} { Relink(vendorId, database.vendors[vendorId].buildings + added); }
        assert existing.buildings - removed + added == buildings.value;
        assert removed == {} ==> existing.buildings - removed == existing.buildings;
        assert database.vendors[vendorId].buildings == buildings.value;
      }
      return Ok(vendorId);
    }

    method Relink(vendorId: Id, buildings: set<Id>)
      requires vendorId < |database.vendors|
      modifies database`vendors
      ensures database.vendors
        == old(database.vendors)[vendorId := old(database.vendors)[vendorId].(buildings := buildings)]
    {
      database.vendors := database.vendors[vendorId := database.vendors[vendorId].(buildings := buildings)];
    }

    /** A new version freezes the vendor's pending approvals. */
    method AddBankVersion(vendorId: Id) returns (reply: Reply)
      modifies database
      ensures Outcome(database.Rows(), reply) == Approvals.AddBankVersion(old(database.Rows()), vendorId)
    {
      if vendorId >= |database.vendors| { return Err(NotFound); }
      var latest := LatestBank(database.bankVersions, vendorId);
      var versionNumber := 1;
      if latest.Some? { versionNumber := database.bankVersions[latest.value].versionNumber + 1; }
      database.bankVersions := database.bankVersions + [BankVersion(vendorId, versionNumber)];
      if versionNumber > 1 {
        database.requests := FreezeRequests(database.requests, database.invoices, vendorId);
        database.invoices := FreezeInvoices(database.invoices, vendorId);
      }
      return Ok(|database.bankVersions| - 1);
    }
  }

  class ContractsService {
    const database: TenantDatabase

    constructor (database: TenantDatabase)
      ensures this.database == database
    {
      this.database := database;
    }

    method Create(vendorId: Id, valueLimit: Option<nat>, buildings: set<Id>) returns (reply: Reply)
      modifies database
      ensures Outcome(database.Rows(), reply) == CreateContract(old(database.Rows()), vendorId, valueLimit, buildings)
      ensures LinksSound(old(database.Rows())) ==> LinksSound(database.Rows())
    {
      CreateContractChecked(database.Rows(), vendorId, valueLimit, buildings);
      var problem := VendorProblem(database.Rows(), vendorId, buildings);
      if problem.Some? { return Err(problem.value); }
      database.contracts := database.contracts + [Contract(vendorId, valueLimit, buildings, 1)];
      return Ok(|database.contracts| - 1);
    }

    method Update(
      contractId: Id, version: nat, vendorId: Option<Id>, valueLimit: Option<nat>, buildings: Option<set<Id>>)
      returns (reply: Reply)
      modifies database
      ensures Outcome(database.Rows(), reply)
           == UpdateContract(old(database.Rows()), contractId, version, vendorId, valueLimit, buildings)
      ensures LinksSound(old(database.Rows())) ==> LinksSound(database.Rows())
    {
      UpdateContractChecked(database.Rows(), contractId, version, vendorId, valueLimit, buildings);
      var saved := database.Rows();
      if contractId >= |database.contracts| { return Err(NotFound); }
      var before := database.contracts[contractId];
      var problem := VendorProblem(saved, Or(vendorId, before.vendorId), Or(buildings, before.buildings));
      if problem.Some? { return Err(problem.value); }
      if buildings.Some? { database.contracts := database.contracts[contractId := before.(buildings := {})]; }
      if before.version != version {
        database.Rollback(saved);
        return Err(StaleVersion);
      }
      var updated := database.contracts[contractId].(
        vendorId := Or(vendorId, before.vendorId), valueLimit := OrElse(valueLimit, before.valueLimit),
          version := version + 1);
      database.contracts := database.contracts[contractId := updated];
      if buildings.Some? { database.contracts :=
        database.contracts[contractId := updated.(buildings := buildings.value)]; }
      return Ok(contractId);
    }
  }

  class FakeBankService {
    const database: TenantDatabase
    const secret: Text

    constructor (database: TenantDatabase, secret: Text)
      ensures this.database == database && this.secret == secret
    {
      this.database, this.secret := database, secret;
    }

    method Process(body: Json, payload: Payload, timestamp: Option<Text>, signature: Option<Signature>, now: nat)
      returns (reply: WebhookReply)
      modifies database
      ensures (database.Rows(), reply)
           == Webhook.Process(old(database.Rows()), body, payload, timestamp, signature, secret, now)
    {
      hide SignedText, IsTimestamp;
      if !Verified(body, timestamp, signature, secret, now) { return Refused(SignatureInvalid); }
      var payloadHash := OfText(SignedText(timestamp.value, body));
      var replay := FindDelivery(database.deliveries, payload.eventId);
      if replay.Some? {
        if database.deliveries[replay.value].payloadHash != payloadHash { return Refused(EventIdReused); }
        return Accepted(true, false);
      }
      if payload.bankVersionId >= |database.bankVersions|
        || database.bankVersions[payload.bankVersionId].vendorId != payload.vendorId
      {
        return Refused(NotFound);
      }
      var previous := BankStatusOf(database.deliveries, payload.bankVersionId);
      database.deliveries := database.deliveries
        + [Delivery(payload.eventId, payload.vendorId, payload.bankVersionId, payload.status, payloadHash)];
      return Accepted(false, previous != payload.status);
    }
  }
}
