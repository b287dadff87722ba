/** Contracts, vendors and the buildings they share, with the three link triggers. */
module Links {
  import opened Basics
  import opened Schema

  ghost predicate LinkSound(vendors: seq<Vendor>, c: Contract) {
    c.vendorId < |vendors| && c.buildings <= vendors[c.vendorId].buildings
  }

  /** Every contract covers only buildings its vendor is linked to. */
  ghost predicate LinksSound(db: Db) {
    forall c :: 0 <= c < |db.contracts| ==> LinkSound(db.vendors, db.contracts[c])
  }

  // ---------------------------------------------------------------- statements; None when a trigger rejects

  // INSERT INTO ContractBuilding: bloctrust_validate_contract_vendor_building, and the unique index.
  function InsertContractBuildings(db: Db, c: Id, buildings: set<Id>): Option<Db>
    requires c < |db.contracts|
  {
    var contract := db.contracts[c];
    if buildings != {}
      && (contract.vendorId >= |db.vendors| || !(buildings <= db.vendors[contract.vendorId].buildings)) then None
    else if !(buildings !! contract.buildings) then None
    else Some(db.(contracts := db.contracts[c := contract.(buildings := contract.buildings + buildings)]))
  }

  function DeleteContractBuildings(db: Db, c: Id): Db
    requires c < |db.contracts|
  {
    db.(contracts := db.contracts[c := db.contracts[c].(buildings := {})])
  }

  // UPDATE Contract: bloctrust_validate_contract_vendor_change, and the foreign key.
  function UpdateContractRow(db: Db, c: Id, vendorId: Id, valueLimit: Option<nat>): Option<Db>
    requires c < |db.contracts|
  {
    var contract := db.contracts[c];
    if vendorId >= |db.vendors| then None
    else if vendorId != contract.vendorId && !(contract.buildings <= db.vendors[vendorId].buildings) then None
    else Some(db.(contracts := db.contracts[c := contract.(
      vendorId := vendorId, valueLimit := valueLimit, version := contract.version + 1)]))
  }

  predicate Referenced(contracts: seq<Contract>, v: Id, buildings: set<Id>) {
    exists c :: 0 <= c < |contracts| && contracts[c].vendorId == v && !(contracts[c].buildings !! buildings)
  }

  // DELETE FROM VendorBuilding: bloctrust_protect_vendor_building_contract.
  function DeleteVendorBuildings(db: Db, v: Id, buildings: set<Id>): Option<Db>
    requires v < |db.vendors|
  {
    if Referenced(db.contracts, v, buildings * db.vendors[v].buildings) then None
    else Some(db.(vendors := db.vendors[v := db.vendors[v].(buildings := db.vendors[v].buildings - buildings)]))
  }

  function InsertVendorBuildings(db: Db, v: Id, buildings: set<Id>): Option<Db>
    requires v < |db.vendors|
  {
    if !(buildings !! db.vendors[v].buildings) then None
    else Some(db.(vendors := db.vendors[v := db.vendors[v].(buildings := db.vendors[v].buildings + buildings)]))
  }

  function Commit(db: Db, written: Option<Db>, id: Id): Outcome {
    if written.None? then Outcome(db, Err(ConstraintViolation)) else Outcome(written.value, Ok(id))
  }

  // ---------------------------------------------------------------- contracts.service

  function VendorProblem(db: Db, vendorId: Id, buildings: set<Id>): Option<Error> {
    if vendorId >= |db.vendors| then Some(NotFound)
    else if !(buildings <= db.vendors[vendorId].buildings) then Some(BuildingLinkRequired)
    else None
  }

  function CreateContractTx(db: Db, vendorId: Id, valueLimit: Option<nat>, buildings: set<Id>): Option<Db> {
    if vendorId >= |db.vendors| then None
    else InsertContractBuildings(
      db.(contracts := db.contracts + [Contract(vendorId, valueLimit, {}, 1)]), |db.contracts|, buildings)
  }

  function CreateContract(db: Db, vendorId: Id, valueLimit: Option<nat>, buildings: set<Id>): Outcome {
    var problem := VendorProblem(db, vendorId, buildings);
    if problem.Some? then Outcome(db, Err(problem.value))
    else Commit(db, CreateContractTx(db, vendorId, valueLimit, buildings), |db.contracts|)
  }

  // The statements of update, after its checks.
  function UpdateContractTx(
    db: Db, c: Id, vendorId: Id, valueLimit: Option<nat>, buildings: Option<set<Id>>): Option<Db>
    requires c < |db.contracts|
  {
    var cleared := if buildings.Some? then DeleteContractBuildings(db, c) else db;
    var updated := UpdateContractRow(cleared, c, vendorId, valueLimit);
    if updated.None? || buildings.None? then updated else InsertContractBuildings(updated.value, c, buildings.value)
  }

  function UpdateContract(
    db: Db, c: Id, version: nat, vendorId: Option<Id>, valueLimit: Option<nat>, buildings: Option<set<Id>>): Outcome
  {
    if c >= |db.contracts| then Outcome(db, Err(NotFound))
    else
      var before := db.contracts[c];
      var problem := VendorProblem(db, Or(vendorId, before.vendorId), Or(buildings, before.buildings));
      if problem.Some? then Outcome(db, Err(problem.value))
      else if before.version != version then Outcome(db, Err(StaleVersion))
      else Commit(
        db, UpdateContractTx(db, c, Or(vendorId, before.vendorId), OrElse(valueLimit, before.valueLimit), buildings), c)
  }

  // ---------------------------------------------------------------- vendors.service

  function CreateVendor(db: Db, role: Role, buildings: set<Id>): Outcome {
    if role == AdministratorRole && buildings == {} then Outcome(db, Err(AuthorizedBuildingRequired))
    else Commit(db, InsertVendorBuildings(db.(vendors := db.vendors + [Vendor({}, 1)]), |db.vendors|, buildings),
      |db.vendors|)
  }

  function RelinkVendorTx(db: Db, v: Id, requested: set<Id>): Option<Db>
    requires v < |db.vendors|
  {
    var current := db.vendors[v].buildings;
    var removed, added := current - requested, requested - current;
    var unlinked := if removed != {} then DeleteVendorBuildings(db, v, removed) else Some(db);
    if unlinked.None? || added == {} then unlinked else InsertVendorBuildings(unlinked.value, v, added)
  }

  function BumpVendor(db: Db, v: Id): Db
    requires v < |db.vendors|
  {
    db.(vendors := db.vendors[v := db.vendors[v].(version := db.vendors[v].version + 1)])
  }

  function UpdateVendor(db: Db, role: Role, v: Id, version: nat, buildings: Option<set<Id>>): Outcome {
    if v >= |db.vendors| then Outcome(db, Err(NotFound))
    else if role == AdministratorRole && buildings == Some({}) then Outcome(db, Err(AuthorizedBuildingRequired))
    else if db.vendors[v].version != version then Outcome(db, Err(StaleVersion))
    else if buildings.None? then Outcome(BumpVendor(db, v), Ok(v))
    else
      var removed := db.vendors[v].buildings - buildings.value;
      if removed != {} && Referenced(db.contracts, v, removed) then Outcome(db, Err(BuildingReferenced))
      else Commit(db, RelinkVendorTx(BumpVendor(db, v), v, buildings.value), v)
  }

  // ---------------------------------------------------------------- no trigger rejects what the checks accept

  /** The check of create accepts exactly what the triggers accept, and the result is the requested contract. */
  lemma CreateContractChecked(db: Db, vendorId: Id, valueLimit: Option<nat>, buildings: set<Id>)
    ensures VendorProblem(db, vendorId, buildings).None?
      <==> CreateContractTx(db, vendorId, valueLimit, buildings).Some?
    ensures var r := CreateContract(db, vendorId, valueLimit, buildings);
      r.reply != Err(ConstraintViolation)
      && (r.reply.Ok? ==> r.db == db.(contracts := db.contracts + [Contract(vendorId, valueLimit, buildings, 1)]))
      && (LinksSound(db) ==> LinksSound(r.db))
  {
    var r := CreateContract(db, vendorId, valueLimit, buildings);
    assert {} + buildings == buildings;
    if LinksSound(db) {
      forall c | 0 <= c < |r.db.contracts| ensures LinkSound(r.db.vendors, r.db.contracts[c]) {
        if c < |db.contracts| { assert LinkSound(db.vendors, db.contracts[c]); }
      }
    }
  }

  /** So does the check of update, for a change of vendor, of buildings, or of both. */
  lemma UpdateContractChecked(
    db: Db, c: Id, version: nat, vendorId: Option<Id>, valueLimit: Option<nat>, buildings: Option<set<Id>>)
    ensures c < |db.contracts| && LinksSound(db) ==>
      var before := db.contracts[c];
      (VendorProblem(db, Or(vendorId, before.vendorId), Or(buildings, before.buildings)).None?
       <==> UpdateContractTx(db, c, Or(vendorId, before.vendorId), OrElse(valueLimit, before.valueLimit),
         buildings).Some?)
    ensures var r := UpdateContract(db, c, version, vendorId, valueLimit, buildings);
      r.reply != Err(ConstraintViolation)
      && (r.reply.Ok? ==> c < |db.contracts| && var before := db.contracts[c];
            r.db == db.(contracts := db.contracts[c := Contract(
              Or(vendorId, before.vendorId), OrElse(valueLimit, before.valueLimit),
              Or(buildings, before.buildings), before.version + 1)]))
      && (LinksSound(db) ==> LinksSound(r.db))
  {
    if c < |db.contracts| {
      UpdateContractTriggers(db, c, Or(vendorId, db.contracts[c].vendorId),
        OrElse(valueLimit, db.contracts[c].valueLimit), buildings);
    }
    if LinksSound(db) { UpdateContractKeeps(db, c, version, vendorId, valueLimit, buildings); }
    hide UpdateContractTx, VendorProblem, LinksSound;
  }

  lemma UpdateContractTriggers(db: Db, c: Id, vendorId: Id, valueLimit: Option<nat>, buildings: Option<set<Id>>)
    requires c < |db.contracts|
    ensures var before := db.contracts[c];
      VendorProblem(db, vendorId, Or(buildings, before.buildings)).None? ==>
        UpdateContractTx(db, c, vendorId, valueLimit, buildings)
        == Some(db.(contracts := db.contracts[c := Contract(
             vendorId, valueLimit, Or(buildings, before.buildings), before.version + 1)]))
    ensures LinksSound(db) && UpdateContractTx(db, c, vendorId, valueLimit, buildings).Some? ==>
      VendorProblem(db, vendorId, Or(buildings, db.contracts[c].buildings)).None?
  {
    var before := db.contracts[c];
    if LinksSound(db) { assert LinkSound(db.vendors, before); }
    if buildings.Some? { assert {} + buildings.value == buildings.value; }
    if VendorProblem(db, vendorId, Or(buildings, before.buildings)).None? {
      assert UpdateContractTx(db, c, vendorId, valueLimit, buildings).value.contracts
          == db.contracts[c := Contract(vendorId, valueLimit, Or(buildings, before.buildings), before.version + 1)];
    }
  }

  lemma UpdateContractKeeps(
    db: Db, c: Id, version: nat, vendorId: Option<Id>, valueLimit: Option<nat>, buildings: Option<set<Id>>)
    requires LinksSound(db)
    ensures LinksSound(UpdateContract(db, c, version, vendorId, valueLimit, buildings).db)
  {
  }

  lemma CreateVendorKeeps(db: Db, role: Role, buildings: set<Id>)
    ensures var r := CreateVendor(db, role, buildings);
      r.reply != Err(ConstraintViolation)
      && (r.reply.Ok? ==> r.db == db.(vendors := db.vendors + [Vendor(buildings, 1)]))
      && (LinksSound(db) ==> LinksSound(r.db))
  {
    var r := CreateVendor(db, role, buildings);
    assert {} + buildings == buildings;
    if LinksSound(db) {
      forall c | 0 <= c < |r.db.contracts| ensures LinkSound(r.db.vendors, r.db.contracts[c]) {
        assert LinkSound(db.vendors, db.contracts[c]);
      }
    }
  }

  // Some contract of the vendor covers a building outside the requested ones.
  ghost predicate Needed(db: Db, v: Id, requested: set<Id>) {
    exists c :: 0 <= c < |db.contracts| && db.contracts[c].vendorId == v && !(db.contracts[c].buildings <= requested)
  }

  // The call names a vendor at its version and a set of buildings its caller may ask for.
  predicate Relinkable(db: Db, role: Role, v: Id, version: nat, buildings: Option<set<Id>>) {
    && v < |db.vendors| && db.vendors[v].version == version
    && buildings.Some? && !(role == AdministratorRole && buildings.value == {})
  }

  /** Relinking a vendor replaces its buildings, and is refused exactly when a contract needs a removed one. */
  lemma UpdateVendorChecked(db: Db, role: Role, v: Id, version: nat, buildings: Option<set<Id>>)
    ensures var r := UpdateVendor(db, role, v, version, buildings);
      r.reply != Err(ConstraintViolation)
      && (r.reply.Ok? ==> v < |db.vendors|)
      && (r.reply.Ok? ==>
            var before := db.vendors[v];
            r.db == db.(vendors := db.vendors[v := Vendor(Or(buildings, before.buildings), before.version + 1)]))
      && (LinksSound(db) ==> LinksSound(r.db))
    ensures LinksSound(db) && Relinkable(db, role, v, version, buildings) ==>
      (UpdateVendor(db, role, v, version, buildings).reply == Err(BuildingReferenced)
       <==> Needed(db, v, buildings.value))
  {
    if v < |db.vendors| && buildings.Some? {
      RelinkTriggersAgree(db, v, buildings.value);
      if LinksSound(db) { RelinkCheckExact(db, v, buildings.value); }
    }
    hide RelinkVendorTx, Referenced;
    var r := UpdateVendor(db, role, v, version, buildings);
    if LinksSound(db) && r.reply.Ok? {
      forall c | 0 <= c < |r.db.contracts| ensures LinkSound(r.db.vendors, r.db.contracts[c]) {
        assert LinkSound(db.vendors, db.contracts[c]);
      }
    }
  }

  lemma RelinkCheckExact(db: Db, v: Id, requested: set<Id>)
    requires LinksSound(db) && v < |db.vendors|
    ensures var removed := db.vendors[v].buildings - requested;
      removed != {} && Referenced(db.contracts, v, removed) <==> Needed(db, v, requested)
  {
    forall c | 0 <= c < |db.contracts| && db.contracts[c].vendorId == v
      ensures !(db.contracts[c].buildings <= requested)
        <==> !(db.contracts[c].buildings !! (db.vendors[v].buildings - requested))
    {
      assert LinkSound(db.vendors, db.contracts[c]);
    }
  }

  lemma RelinkTriggersAgree(db: Db, v: Id, requested: set<Id>)
    requires v < |db.vendors|
    ensures var removed := db.vendors[v].buildings - requested;
      Referenced(db.contracts, v, removed) <==> RelinkVendorTx(BumpVendor(db, v), v, requested).None?
    ensures RelinkVendorTx(BumpVendor(db, v), v, requested).Some? ==>
      RelinkVendorTx(BumpVendor(db, v), v, requested).value
      == db.(vendors := db.vendors[v := Vendor(requested, db.vendors[v].version + 1)])
  {
    var current := db.vendors[v].buildings;
    var removed, added := current - requested, requested - current;
    assert removed * current == removed && current - removed + added == requested;
    assert removed == {} ==> current - removed == current && current + added == requested;
    assert added == {} ==> current - removed == requested;
    assert added !! current && added !! (current - removed);
  }
}
