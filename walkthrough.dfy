/** Clients of the claim engine that follow a claim through its lifecycle,
    using nothing but the engine's contracts. */
module Walkthrough {
  import opened Model
  import opened Service

  function Staff(): map<string, User> {
    map["admin" := User(1, RoleAdmin), "alice" := User(2, RoleUser), "bob" := User(3, RoleUser)]
  }

  lemma StaffIdsDistinct()
    ensures DistinctUserIds(Staff())
  {
  }

  function FloodForm(): ClaimForm {
    ClaimForm(Some("Flood"), None, Some("Albany"), None, Some(5000), None, None, None, None, None)
  }

  /** Alice files a flood claim; Bob may not read it, the administrator may,
      and the dashboard counts it as pending. */
  method FloodClaimIsPrivate() {
    StaffIdsDistinct();
    var engine := new ClaimService(Staff());
    var created := engine.CreateClaim(FloodForm(), "alice", 100);
    assert created.Ok? && created.value.status == Pending && created.value.ownerId == 2;
    var id := created.value.id;

    assert engine.GetClaimById(id, "bob") == Fail(Unauthorized);
    assert engine.GetClaimById(id, "admin") == Ok(created.value);
    assert engine.GetStatistics()["pending"] == 1;
  }

  /** The administrator approves a reduced amount for Alice's claim and
      records the payment; after that Alice can neither edit nor withdraw it. */
  method FloodClaimIsPaid() {
    StaffIdsDistinct();
    var engine := new ClaimService(Staff());
    var created := engine.CreateClaim(FloodForm(), "alice", 100);
    var id := created.value.id;

    var approved := engine.ApproveClaim(id, "admin", Some("ok"), Some(4500), 200);
    assert approved.Ok? && approved.value.status == Approved;
    assert approved.value.approvedAmount == Some(4500) && approved.value.reviewerId == Some(1);

    var paid := engine.MarkAsPaid(id, "admin", 300);
    assert paid.Ok? && paid.value.status == Paid && paid.value.approvedAmount == Some(4500);

    var edited := engine.UpdateClaim(id, FloodForm(), "alice", 400);
    assert edited == Fail(NotPending);
    var withdrawn := engine.DeleteClaim(id, "alice");
    assert withdrawn == Some(NotPending) && id in engine.claims;
  }

  /** The review operations check no prior status: a claim approved with no
      amount gets the requested one, and rejecting it afterwards keeps that
      approved amount on the rejected claim; a rejected claim can be approved
      again. */
  method ReviewIsNotOrdered() {
    StaffIdsDistinct();
    var engine := new ClaimService(Staff());
    var created := engine.CreateClaim(FloodForm(), "alice", 100);
    var id := created.value.id;

    var approved := engine.ApproveClaim(id, "admin", None, None, 200);
    assert approved.Ok? && approved.value.approvedAmount == Some(5000);
    var rejected := engine.RejectClaim(id, "admin", Some("duplicate"), 300);
    assert rejected.Ok? && rejected.value.status == Rejected;
    assert rejected.value.approvedAmount == Some(5000);
    var again := engine.ApproveClaim(id, "admin", None, None, 400);
    assert again.Ok? && again.value.status == Approved;
  }

  /** The administrator's override sets any status by its name, even
      moving a paid claim back to PENDING. */
  method StatusOverride() {
    StaffIdsDistinct();
    var engine := new ClaimService(Staff());
    var created := engine.CreateClaim(FloodForm(), "alice", 100);
    var id := created.value.id;
    var paid := engine.UpdateStatus(id, Some(StatusName(Paid)), 200);
    assert paid.Ok? && paid.value.status == Paid;
    var forced := engine.UpdateStatus(id, Some(StatusName(Pending)), 500);
    assert forced.Ok? && forced.value.status == Pending;
  }

  /** The override matches status names exactly, so a lower-case name is
      refused and the claim keeps its status. */
  method StatusNameIsExact() {
    StaffIdsDistinct();
    var engine := new ClaimService(Staff());
    var created := engine.CreateClaim(FloodForm(), "alice", 100);
    var id := created.value.id;
    var refused := engine.UpdateStatus(id, Some("pending"), 200);
    assert refused == Fail(BadStatus);
    assert engine.claims[id].status == Pending;
  }

  /** A status given in the submitted form is kept, so a claim can be stored
      as APPROVED without any review. */
  method SubmittedStatusIsKept() {
    StaffIdsDistinct();
    var engine := new ClaimService(Staff());
    var form := FloodForm().(status := Some(Approved), approvedAmount := Some(9999));
    var created := engine.CreateClaim(form, "bob", 100);
    assert created.Ok? && created.value.status == Approved && created.value.reviewerId == None;
    assert created.value.approvedAmount == Some(9999);
  }
}
