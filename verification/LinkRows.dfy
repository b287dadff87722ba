/** Every answer of the vendor and contract calls, in the columns of the rows. */
module LinkRows {
  import opened Basics
  import opened Schema
  import opened Links

  ghost predicate Linked(db: Db, vendor: Id, buildings: set<Id>) {
    vendor < |db.vendors| && forall b :: b in buildings ==> b in db.vendors[vendor].buildings
  }

  /** A vendor is refused only for an administrator who names no building. */
  lemma CreateVendorAnswers(db: Db, role: Role, buildings: set<Id>)
    ensures CreateVendor(db, role, buildings) ==
      if role == AdministratorRole && |buildings| == 0 then Outcome(db, Err(AuthorizedBuildingRequired))
      else Outcome(db.(vendors := db.vendors + [Vendor(buildings, 1)]), Ok(|db.vendors|))
  {
    assert {} + buildings == buildings;
  }

  // A contract of the vendor covers a building the vendor has and the request does not name.
  ghost predicate LosesUsed(db: Db, vendor: Id, requested: set<Id>)
    requires vendor < |db.vendors|
  {
    exists c, b :: 0 <= c < |db.contracts| && db.contracts[c].vendorId == vendor && b in db.contracts[c].buildings
      && b in db.vendors[vendor].buildings && b !in requested
  }

  /** The checks of a vendor update in order; accepted, it stores the requested buildings, or keeps them, under the next
      version. */
  lemma UpdateVendorAnswers(db: Db, role: Role, v: Id, version: nat, buildings: Option<set<Id>>)
    ensures UpdateVendor(db, role, v, version, buildings) ==
      if v >= |db.vendors| then Outcome(db, Err(NotFound))
      else if role == AdministratorRole && buildings == Some({}) then Outcome(db, Err(AuthorizedBuildingRequired))
      else if db.vendors[v].version != version then Outcome(db, Err(StaleVersion))
      else if buildings != None && LosesUsed(db, v, buildings.value) then Outcome(db, Err(BuildingReferenced))
      else Outcome(
        db.(vendors := db.vendors[v := Vendor(
          if buildings == None then db.vendors[v].buildings else buildings.value, version + 1)]),
        Ok(v))
  {
    UpdateVendorChecked(db, role, v, version, buildings);
    if v < |db.vendors| && buildings.Some? {
      RelinkTriggersAgree(db, v, buildings.value);
      LosesUsedIs(db, v, buildings.value);
    }
    hide RelinkVendorTx, Referenced, LosesUsed, LinksSound, Relinkable, Needed;
  }

  lemma LosesUsedIs(db: Db, v: Id, requested: set<Id>)
    requires v < |db.vendors|
    ensures var removed := db.vendors[v].buildings - requested;
      LosesUsed(db, v, requested) <==> removed != {} && Referenced(db.contracts, v, removed)
  {
    var removed := db.vendors[v].buildings - requested;
    if LosesUsed(db, v, requested) {
      var c, b :| 0 <= c < |db.contracts| && db.contracts[c].vendorId == v && b in db.contracts[c].buildings
        && b in db.vendors[v].buildings && b !in requested;
      assert b in removed && !(db.contracts[c].buildings !! removed);
    }
    if Referenced(db.contracts, v, removed) {
      var c :| 0 <= c < |db.contracts| && db.contracts[c].vendorId == v && !(db.contracts[c].buildings !! removed);
      var b :| b in db.contracts[c].buildings && b in removed;
    }
  }

  /** A contract needs an existing vendor linked to all its buildings. */
  lemma CreateContractAnswers(db: Db, vendor: Id, valueLimit: Option<nat>, buildings: set<Id>)
    ensures CreateContract(db, vendor, valueLimit, buildings) ==
      if vendor >= |db.vendors| then Outcome(db, Err(NotFound))
      else if !Linked(db, vendor, buildings) then Outcome(db, Err(BuildingLinkRequired))
      else Outcome(db.(contracts := db.contracts + [Contract(vendor, valueLimit, buildings, 1)]), Ok(|db.contracts|))
  {
    CreateContractChecked(db, vendor, valueLimit, buildings);
    hide CreateContractTx, LinksSound;
  }

  /** The checks of a contract update in order, on the vendor and buildings it would have; absent fields keep their
      columns. */
  lemma UpdateContractAnswers(
    db: Db, c: Id, version: nat, vendorId: Option<Id>, valueLimit: Option<nat>, buildings: Option<set<Id>>)
    ensures c >= |db.contracts| ==>
      UpdateContract(db, c, version, vendorId, valueLimit, buildings) == Outcome(db, Err(NotFound))
    ensures c < |db.contracts| ==>
      var before := db.contracts[c];
      var vendor := if vendorId == None then before.vendorId else vendorId.value;
      var covered := if buildings == None then before.buildings else buildings.value;
      UpdateContract(db, c, version, vendorId, valueLimit, buildings) ==
        if vendor >= |db.vendors| then Outcome(db, Err(NotFound))
        else if !Linked(db, vendor, covered) then Outcome(db, Err(BuildingLinkRequired))
        else if before.version != version then Outcome(db, Err(StaleVersion))
        else Outcome(
          db.(contracts := db.contracts[c := Contract(
            vendor, if valueLimit == None then before.valueLimit else valueLimit, covered, before.version + 1)]),
          Ok(c))
  {
    UpdateContractChecked(db, c, version, vendorId, valueLimit, buildings);
    hide UpdateContractTx, LinksSound;
  }
}
