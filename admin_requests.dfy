/**
  The admin request table: a list of resource requests whose status the
  admin overwrites freely, whose records are replaced wholesale by the edit
  dialog, and which can be deleted. Money is exact `real`.
 */
module AdminRequests {
  import opened Collections
  import opened Text

  datatype AdminRequest = AdminRequest(
    id: string,
    budgetCode: string,
    title: string,
    description: string,
    details: string,
    requestUnit: string,
    pricePerUnit: real,
    quantity: int,
    total: real,
    budgetUtilized: real,
    balance: real,
    status: string,
    priority: string,
    requester: string,
    department: string,
    submittedDate: string,
    justification: string)

  /** The first sample request (the others differ only in their values). */
  function SampleGpuRequest(): AdminRequest {
    AdminRequest("REQ-001", "BC-2024-001", "AWS EC2 Instance for Development",
      "Compute Resources for ML Training",
      "High-performance GPU instances for machine learning model training with NVIDIA A100 GPUs",
      "GPU Hours", 9.18, 200, 1836.00, 1836.00, 0.00, "pending", "High", "John Doe",
      "Engineering", "2025-05-05",
      "Need high-performance computing resources for training machine learning models for our new AI-powered recommendation system.")
  }

  predicate HasId(rs: seq<AdminRequest>, id: string) {
    exists i :: 0 <= i < |rs| && rs[i].id == id
  }

  function IdIs(id: string): AdminRequest -> bool {
    (r: AdminRequest) => r.id == id
  }

  function IdIsNot(id: string): AdminRequest -> bool {
    (r: AdminRequest) => r.id != id
  }

  /** `handleStatusChange`: any status may replace any other; only matching records change. */
  function ChangeStatus(rs: seq<AdminRequest>, id: string, newStatus: string): (r: seq<AdminRequest>)
    ensures |r| == |rs|
    ensures forall i :: 0 <= i < |rs| && rs[i].id == id ==> r[i] == rs[i].(status := newStatus)
    ensures forall i :: 0 <= i < |rs| && rs[i].id != id ==> r[i] == rs[i]
  {
    MapWhere(rs, IdIs(id), (q: AdminRequest) => q.(status := newStatus))
  }

  /** `confirmDelete`: drops the selected id and keeps the rest in order. */
  function Delete(rs: seq<AdminRequest>, id: string): (r: seq<AdminRequest>)
    ensures forall i :: 0 <= i < |r| ==> r[i].id != id && r[i] in rs
    ensures forall i :: 0 <= i < |rs| && rs[i].id != id ==> rs[i] in r
  {
    Keep(rs, IdIsNot(id))
  }

  /** `saveEdit`: every record with the edited record's id is replaced by it, as entered. */
  function ApplyEdit(rs: seq<AdminRequest>, edited: AdminRequest): (r: seq<AdminRequest>)
    ensures |r| == |rs|
    ensures forall i :: 0 <= i < |rs| && rs[i].id == edited.id ==> r[i] == edited
    ensures forall i :: 0 <= i < |rs| && rs[i].id != edited.id ==> r[i] == rs[i]
  {
    MapWhere(rs, IdIs(edited.id), (q: AdminRequest) => edited)
  }

  predicate IsPending(r: AdminRequest) { r.status == "pending" }

  predicate IsApproved(r: AdminRequest) { r.status == "approved" }

  /** "Pending Approval" summary card. */
  function PendingCount(rs: seq<AdminRequest>): (n: nat)
    ensures n <= |rs|
    ensures n == 0 <==> forall i :: 0 <= i < |rs| ==> !IsPending(rs[i])
  {
    KeepEmptyIff(rs, IsPending);
    |Keep(rs, IsPending)|
  }

  /** "Approved" summary card. */
  function ApprovedCount(rs: seq<AdminRequest>): (n: nat)
    ensures n <= |rs|
    ensures n == 0 <==> forall i :: 0 <= i < |rs| ==> !IsApproved(rs[i])
  {
    KeepEmptyIff(rs, IsApproved);
    |Keep(rs, IsApproved)|
  }

  /** The two cards never add up to more than "Total Requests". */
  lemma PendingPlusApprovedAtMostTotal(rs: seq<AdminRequest>)
    ensures PendingCount(rs) + ApprovedCount(rs) <= |rs|
  {
    KeepDisjoint(rs, IsPending, IsApproved);
  }

  /** The row actions of the table. */
  datatype AdminAction = Approve | Reject | View | Edit | DeleteRequest | ResetToPending | MarkInProgress

  /** Which actions a row offers, decided by its status alone. */
  function Actions(status: string): (acts: set<AdminAction>)
    ensures Approve in acts <==> status == "pending"
    ensures Reject in acts <==> status == "pending"
    ensures ResetToPending in acts <==> status != "pending"
    ensures MarkInProgress in acts <==> status != "in-progress"
    ensures {View, Edit, DeleteRequest} <= acts
  {
    {View, Edit, DeleteRequest}
    + (if status == "pending" then {Approve, Reject} else {})
    + (if status != "pending" then {ResetToPending} else {})
    + (if status != "in-progress" then {MarkInProgress} else {})
  }

  /** The status a row action writes, for the actions that write one. */
  function TargetStatus(a: AdminAction): Option<string> {
    match a
    case Approve => Some("approved")
    case Reject => Some("rejected")
    case ResetToPending => Some("pending")
    case MarkInProgress => Some("in-progress")
    case _ => None
  }

  /** Every status action a row offers really changes that row's status. */
  lemma OfferedActionsChangeStatus(status: string, a: AdminAction)
    requires a in Actions(status) && TargetStatus(a).Some?
    ensures TargetStatus(a).value != status
  {
  }

  /** `getStatusBadge`'s label: first character upper-cased, first dash turned into a space. */
  function BadgeLabel(status: string): (shown: string)
    ensures |shown| == |status|
  {
    if status == "" then "" else [UpperChar(status[0])] + ReplaceFirst(status[1..], '-', ' ')
  }

  /** The statuses without a dash get their first letter capitalised. */
  lemma PendingBadgeLabel()
    ensures BadgeLabel("pending") == "Pending"
  {
    BadgeLabelAt("pending", 'P', "ending");
  }

  lemma ApprovedBadgeLabel()
    ensures BadgeLabel("approved") == "Approved"
  {
    BadgeLabelAt("approved", 'A', "pproved");
  }

  lemma RejectedBadgeLabel()
    ensures BadgeLabel("rejected") == "Rejected"
  {
    BadgeLabelAt("rejected", 'R', "ejected");
  }

  /** "in-progress" is shown with its dash replaced by a space. */
  lemma InProgressBadgeLabel()
    ensures BadgeLabel("in-progress") == "In progress"
  {
    var t := "in-progress";
    assert t[1..] == "n" + ['-'] + "progress";
    ReplaceFirstAt("n", "progress", '-', ' ');
    assert UpperChar('i') == 'I';
  }

  lemma BadgeLabelAt(status: string, first: char, rest: string)
    requires status != "" && UpperChar(status[0]) == first && status[1..] == rest && '-' !in rest
    ensures BadgeLabel(status) == [first] + rest
  {
    ReplaceFirstAbsent(rest, '-', ' ');
  }

  /** Saving an edit keeps the total as typed: it is not recomputed from price and quantity. */
  lemma SaveEditKeepsEnteredTotal()
    ensures var edited := SampleGpuRequest().(quantity := 300);
      var r := ApplyEdit([SampleGpuRequest()], edited);
      r[0].total == 1836.00 && r[0].total != r[0].pricePerUnit * r[0].quantity as real
  {
  }

  /** Deleting distributes over concatenation: the survivors keep their order. */
  lemma DeleteKeepsOrder(a: seq<AdminRequest>, b: seq<AdminRequest>, id: string)
    ensures Delete(a + b, id) == Delete(a, id) + Delete(b, id)
  {
    KeepAppend(a, b, IdIsNot(id));
  }

  /** Deleting an absent id changes nothing. */
  lemma DeleteAbsent(rs: seq<AdminRequest>, id: string)
    requires !HasId(rs, id)
    ensures Delete(rs, id) == rs
  {
    KeepAll(rs, IdIsNot(id));
  }

  class AdminRequestsTable {
    var requests: seq<AdminRequest>
    var selectedRequest: Option<AdminRequest>
    var editDialogOpen: bool
    var deleteDialogOpen: bool
    var viewDialogOpen: bool

    constructor (initial: seq<AdminRequest>)
      ensures requests == initial && selectedRequest == None
      ensures !editDialogOpen && !deleteDialogOpen && !viewDialogOpen
    {
      requests := initial;
      selectedRequest := None;
      editDialogOpen, deleteDialogOpen, viewDialogOpen := false, false, false;
    }

    method HandleStatusChange(requestId: string, newStatus: string)
      modifies this`requests
      ensures requests == ChangeStatus(old(requests), requestId, newStatus)
    {
      requests := ChangeStatus(requests, requestId, newStatus);
    }

    method HandleEdit(request: AdminRequest)
      modifies this`selectedRequest, this`editDialogOpen
      ensures selectedRequest == Some(request) && editDialogOpen
    {
      selectedRequest := Some(request);
      editDialogOpen := true;
    }

    method HandleDelete(request: AdminRequest)
      modifies this`selectedRequest, this`deleteDialogOpen
      ensures selectedRequest == Some(request) && deleteDialogOpen
    {
      selectedRequest := Some(request);
      deleteDialogOpen := true;
    }

    method HandleView(request: AdminRequest)
      modifies this`selectedRequest, this`viewDialogOpen
      ensures selectedRequest == Some(request) && viewDialogOpen
    {
      selectedRequest := Some(request);
      viewDialogOpen := true;
    }

    /** The edit dialog's inputs rewrite fields of the draft; none of them touches the id. */
    method UpdateDraft(draft: AdminRequest)
      requires selectedRequest.Some? && draft.id == selectedRequest.value.id
      modifies this`selectedRequest
      ensures selectedRequest == Some(draft)
    {
      selectedRequest := Some(draft);
    }

    /** The dialog is only reachable with a selected request; without one the page would throw. */
    method ConfirmDelete()
      requires selectedRequest.Some?
      modifies this`requests, this`selectedRequest, this`deleteDialogOpen
      ensures requests == Delete(old(requests), old(selectedRequest).value.id)
      ensures selectedRequest == None && !deleteDialogOpen
    {
      requests := Delete(requests, selectedRequest.value.id);
      deleteDialogOpen := false;
      selectedRequest := None;
    }

    method SaveEdit()
      requires selectedRequest.Some?
      modifies this`requests, this`selectedRequest, this`editDialogOpen
      ensures requests == ApplyEdit(old(requests), old(selectedRequest).value)
      ensures selectedRequest == None && !editDialogOpen
    {
      requests := ApplyEdit(requests, selectedRequest.value);
      editDialogOpen := false;
      selectedRequest := None;
    }
  }
}
