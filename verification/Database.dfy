/** The tenant database and the two buckets as one mutable object, a field per table. */
module Database {
  import opened Basics
  import opened Schema

  class TenantDatabase {
    var invoices: seq<Invoice>
    var documents: seq<Document>
    var processing: seq<Processing>
    var vendors: seq<Vendor>
    var contracts: seq<Contract>
    var bankVersions: seq<BankVersion>
    var members: seq<Member>
    var policy: Option<Policy>
    var assessments: seq<Assessment>
    var requests: seq<Request>
    var decisions: seq<Decision>
    var deliveries: seq<Delivery>
    var quarantine: map<nat, Bytes>
    var approved: map<nat, Bytes>
    var nextKey: nat
    var promotions: seq<Id>
    var compensated: set<Id>

    constructor ()
      ensures Rows() == EMPTY_DB
    {
      invoices, documents, processing, vendors, contracts, bankVersions, members := [], [], [], [], [], [], [];
      policy, assessments, requests, decisions, deliveries := None, [], [], [], [];
      quarantine, approved, nextKey, promotions, compensated := map[], map[], 0, [], {};
    }

    /** The rows as a value. */
    function Rows(): Db
      reads this
    {
      Db(invoices, documents, processing, vendors, contracts, bankVersions, members, policy, assessments, requests,
         decisions, deliveries, quarantine, approved, nextKey, promotions, compensated)
    }

    /** ROLLBACK of the rows; objects in the buckets are not transactional. */
    method Rollback(saved: Db)
      requires saved.quarantine == quarantine && saved.approved == approved && saved.nextKey == nextKey
      requires saved.promotions == promotions && saved.compensated == compensated
      modifies this
      ensures Rows() == saved
    {
      RollbackRegistry(saved);
      RollbackInvoices(saved);
    }

    method RollbackRegistry(saved: Db)
      modifies this`vendors, this`contracts, this`bankVersions, this`members, this`policy, this`deliveries
      ensures vendors == saved.vendors && contracts == saved.contracts && bankVersions == saved.bankVersions
      ensures members == saved.members && policy == saved.policy && deliveries == saved.deliveries
    {
      vendors, contracts, bankVersions := saved.vendors, saved.contracts, saved.bankVersions;
      members, policy, deliveries := saved.members, saved.policy, saved.deliveries;
    }

    method RollbackInvoices(saved: Db)
      modifies this`invoices, this`documents, this`processing, this`assessments, this`requests, this`decisions
      ensures invoices == saved.invoices && documents == saved.documents && processing == saved.processing
      ensures assessments == saved.assessments && requests == saved.requests && decisions == saved.decisions
    {
      invoices, documents, processing := saved.invoices, saved.documents, saved.processing;
      assessments, requests, decisions := saved.assessments, saved.requests, saved.decisions;
    }
  }
}
