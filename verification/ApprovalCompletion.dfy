/** From a pending request, the missing number of fresh approvals completes it, exactly at the last. */
module ApprovalCompletion {
  import opened Basics
  import opened Schema
  import opened Approvals
  import opened ApprovalInvariant
  import opened DecideRows

  // One approving decide call, with the sessions and the clock it meets.
  datatype Call = Call(sessions: seq<Session>, now: nat, auth: Auth, reason: Text, key: Option<Text>)

  function Approving(db: Db, ttl: nat, r: Id, version: nat, c: Call): Outcome {
    Decide(db, c.sessions, c.now, ttl, c.auth, r, DecisionDto(version, Approve, c.reason), c.key)
  }

  function ApproveAll(db: Db, ttl: nat, r: Id, version: nat, calls: seq<Call>): Db
    decreases |calls|
  {
    if calls == [] then db else ApproveAll(Approving(db, ttl, r, version, calls[0]).db, ttl, r, version, calls[1..])
  }

  // A caller who may decide and brings a new key.
  ghost predicate Fresh(db: Db, ttl: nat, r: Id, c: Call)
    requires r < |db.requests|
  {
    && MayDecide(db, c.sessions, c.now, ttl, c.auth, r, db.requests[r].initiatedBy, c.reason)
    && FreshDecisionKey(db, c.key)
  }

  // Keys that differ after trimming, if both are there.
  ghost predicate DifferentKeys(a: Option<Text>, b: Option<Text>) {
    a.Some? && b.Some? ==> Trim(a.value) != Trim(b.value)
  }

  ghost predicate AllFresh(db: Db, ttl: nat, r: Id, calls: seq<Call>)
    requires r < |db.requests|
  {
    && (forall i :: 0 <= i < |calls| ==> Fresh(db, ttl, r, calls[i]))
    && (forall i, j :: 0 <= i < j < |calls| ==>
          calls[i].auth.membershipId != calls[j].auth.membershipId && DifferentKeys(calls[i].key, calls[j].key))
  }

  ghost predicate PendingAt(db: Db, r: Id, version: nat) {
    && r < |db.requests| && db.requests[r].status == Pending && db.requests[r].version == version
    && db.requests[r].invoiceId < |db.invoices|
  }

  function MissingCount(db: Db, r: Id): int
    requires r < |db.requests|
  {
    db.requests[r].requiredDecisions - CountDecisions(db.decisions, r, db.requests[r].version, Approve)
  }

  // Where a request and its invoice stand.
  ghost predicate Stands(db: Db, r: Id, status: RequestStatus, invoiceStatus: InvoiceStatus) {
    && r < |db.requests| && db.requests[r].status == status
    && db.requests[r].invoiceId < |db.invoices| && db.invoices[db.requests[r].invoiceId].status == invoiceStatus
  }

  /** A fresh approval is stored as the caller's, and completes request and invoice exactly when it is the last. */
  lemma FreshDecides(db: Db, ttl: nat, r: Id, version: nat, c: Call)
    requires ApprovalsSound(db) && PendingAt(db, r, version) && Fresh(db, ttl, r, c)
    ensures var o := Approving(db, ttl, r, version, c);
      && o.reply == Ok(r)
      && o.db.decisions == db.decisions + [Decision(
           r, version, c.auth.membershipId, c.auth.sessionId, Approve, Trim(c.reason),
           c.sessions[c.auth.sessionId].stepUpVerifiedAt.value, OfText(Trim(c.key.value)), c.now)]
      && o.db.members == db.members
      && o.db.requests == db.requests[r := db.requests[r].(
           status := if LastApproval(db, r) then RequestApproved else Pending)]
      && var i := db.requests[r].invoiceId;
         o.db.invoices == db.invoices[i := db.invoices[i].(
           status := if LastApproval(db, r) then Approved else AwaitingApproval)]
  {
    var dto := DecisionDto(version, Approve, c.reason);
    DecideRecordsExactly(db, c.sessions, c.now, ttl, c.auth, r, dto, c.key);
    DecisionIsStored(db, c.sessions, c.now, ttl, c.auth, r, dto, c.key);
    hide Decide, ApprovalsSound, Trim, LastApproval, MayDecide, FreshDecisionKey;
  }

  lemma OneApproval(db: Db, ttl: nat, r: Id, version: nat, c: Call)
    requires ApprovalsSound(db) && PendingAt(db, r, version) && Fresh(db, ttl, r, c) && MissingCount(db, r) >= 1
    ensures var db' := Approving(db, ttl, r, version, c).db;
      && ApprovalsSound(db') && r < |db'.requests| && MissingCount(db', r) == MissingCount(db, r) - 1
      && (if MissingCount(db, r) == 1 then Stands(db', r, RequestApproved, Approved) else PendingAt(db', r, version))
  {
    DecideKeeps(db, c.sessions, c.now, ttl, c.auth, r, DecisionDto(version, Approve, c.reason), c.key);
    FreshDecides(db, ttl, r, version, c);
    LastApprovalIs(db, r);
    var db' := Approving(db, ttl, r, version, c).db;
    CountAfterAppend(db.decisions, db'.decisions[|db.decisions|], r, version, Approve);
    hide ApprovalsSound, Fresh, Approving, CountDecisions, LastApproval, Trim;
  }

  lemma OthersStayFresh(db: Db, ttl: nat, r: Id, version: nat, c: Call, other: Call)
    requires ApprovalsSound(db) && PendingAt(db, r, version) && Fresh(db, ttl, r, c) && Fresh(db, ttl, r, other)
    requires c.auth.membershipId != other.auth.membershipId && DifferentKeys(c.key, other.key)
    ensures var db' := Approving(db, ttl, r, version, c).db; r < |db'.requests| && Fresh(db', ttl, r, other)
  {
    FreshDecides(db, ttl, r, version, c);
    assert c.key.Some? && other.key.Some?;
    hide ApprovalsSound, Fresh, Approving, Trim;
    StaysFreshAfter(db, Approving(db, ttl, r, version, c).db, ttl, r, other);
  }

  lemma StaysFreshAfter(db: Db, db': Db, ttl: nat, r: Id, c: Call)
    requires r < |db.requests| == |db'.requests| && db'.requests[r].initiatedBy == db.requests[r].initiatedBy
    requires db'.members == db.members && |db'.decisions| == |db.decisions| + 1 && db.decisions <= db'.decisions
    requires var d := db'.decisions[|db.decisions|];
      d.member != c.auth.membershipId && c.key.Some? && d.keyHash != OfText(Trim(c.key.value))
    requires Fresh(db, ttl, r, c)
    ensures Fresh(db', ttl, r, c)
  {
    hide SteppedUp, Approver, Trim;
    forall d | 0 <= d < |db'.decisions| ensures !DecisionHasKey(db', d, c.key) {
      if d < |db.decisions| { assert !DecisionHasKey(db, d, c.key); }
    }
  }

  lemma PendingIsMissing(db: Db, r: Id, version: nat)
    requires ApprovalsSound(db) && PendingAt(db, r, version)
    ensures MissingCount(db, r) >= 1 && Stands(db, r, Pending, AwaitingApproval)
  {
  }

  lemma RestStaysFresh(db: Db, ttl: nat, r: Id, version: nat, calls: seq<Call>)
    requires ApprovalsSound(db) && PendingAt(db, r, version) && AllFresh(db, ttl, r, calls) && calls != []
    ensures var db1 := Approving(db, ttl, r, version, calls[0]).db;
      r < |db1.requests| && AllFresh(db1, ttl, r, calls[1..])
  {
    hide ApprovalsSound, Approving, Fresh, PendingAt;
    var db1 := Approving(db, ttl, r, version, calls[0]).db;
    FreshKeepsRequests(db, ttl, r, version, calls[0]);
    forall i | 0 <= i < |calls| - 1 ensures Fresh(db1, ttl, r, calls[1..][i]) {
      OthersStayFresh(db, ttl, r, version, calls[0], calls[i + 1]);
    }
  }

  lemma FreshKeepsRequests(db: Db, ttl: nat, r: Id, version: nat, c: Call)
    requires ApprovalsSound(db) && PendingAt(db, r, version) && Fresh(db, ttl, r, c)
    ensures r < |Approving(db, ttl, r, version, c).db.requests|
  {
  }

  /** Any sequence of fresh approvals, no longer than the missing number, leaves the request pending and its invoice
      awaiting approval, until the last missing one approves both. */
  lemma {:induction false} MissingApprovals(db: Db, ttl: nat, r: Id, version: nat, calls: seq<Call>)
    requires ApprovalsSound(db) && PendingAt(db, r, version) && AllFresh(db, ttl, r, calls)
    requires |calls| <= MissingCount(db, r)
    ensures var db' := ApproveAll(db, ttl, r, version, calls);
      if |calls| == MissingCount(db, r) then Stands(db', r, RequestApproved, Approved)
      else Stands(db', r, Pending, AwaitingApproval)
    decreases |calls|
  {
    hide ApprovalsSound, Approving, Fresh, PendingAt, Stands, MissingCount;
    PendingIsMissing(db, r, version);
    if calls != [] {
      var db1 := Approving(db, ttl, r, version, calls[0]).db;
      assert Fresh(db, ttl, r, calls[0]);
      OneApproval(db, ttl, r, version, calls[0]);
      RestStaysFresh(db, ttl, r, version, calls);
      hide AllFresh;
      if MissingCount(db, r) == 1 {
        assert calls[1..] == [];
        assert ApproveAll(db1, ttl, r, version, []) == db1;
      } else {
        MissingApprovals(db1, ttl, r, version, calls[1..]);
      }
    }
  }
}
