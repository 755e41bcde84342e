/**
  The requester's dashboard: a fixed list of their requests shown on four
  tabs (all, pending, approved, rejected), each card with a status badge and,
  depending on the tab, the reviewer's feedback, the assignee and a Resubmit
  button.
 */
module UserDashboard {
  import opened Collections

  datatype UserRequest = UserRequest(
    id: string,
    title: string,
    kind: string,
    status: string,
    submittedDate: string,
    priority: string,
    feedback: Option<string>,
    assignedTo: Option<string>)

  function MockRequests(): seq<UserRequest> {
    [ UserRequest("REQ-001", "AWS EC2 Instance for Development", "Compute Resources", "pending",
        "2025-05-05", "Medium", None, None),
      UserRequest("REQ-002", "S3 Storage Bucket for Project Assets", "Storage Resources", "approved",
        "2025-05-01", "Low", None, None),
      UserRequest("REQ-003", "Database Access for Analytics Team", "Database Resources", "rejected",
        "2025-04-28", "High",
        Some("Please provide more details about access requirements and security measures."), None),
      UserRequest("REQ-004", "API Access for Integration Testing", "API Access", "in-progress",
        "2025-05-03", "Medium", None, Some("Technical Team")) ]
  }

  /** `getStatusBadge`'s text: the four known statuses get a label, any other is shown as stored. */
  function StatusLabel(status: string): (shown: string)
    ensures status == "pending" ==> shown == "Pending"
    ensures status == "approved" ==> shown == "Approved"
    ensures status == "rejected" ==> shown == "Rejected"
    ensures status == "in-progress" ==> shown == "In Progress"
    ensures !KnownStatus(status) ==> shown == status
  {
    if status == "pending" then "Pending"
    else if status == "approved" then "Approved"
    else if status == "rejected" then "Rejected"
    else if status == "in-progress" then "In Progress"
    else status
  }

  predicate KnownStatus(status: string) {
    status == "pending" || status == "approved" || status == "rejected" || status == "in-progress"
  }

  /** The four known statuses get four different labels. */
  lemma KnownLabelsDistinct(a: string, b: string)
    requires KnownStatus(a) && KnownStatus(b) && StatusLabel(a) == StatusLabel(b)
    ensures a == b
  {
    assert StatusLabel(a)[0] == StatusLabel(b)[0];
    if StatusLabel(a)[0] == 'P' {
      assert a == "pending" && b == "pending";
    } else if StatusLabel(a)[0] == 'A' {
      assert a == "approved" && b == "approved";
    } else if StatusLabel(a)[0] == 'R' {
      assert a == "rejected" && b == "rejected";
    } else {
      assert a == "in-progress" && b == "in-progress";
    }
  }

  datatype DashboardTab = AllTab | PendingTab | ApprovedTab | RejectedTab

  /** Which requests a tab lists; the pending tab also lists the ones in progress. */
  predicate InTab(tab: DashboardTab, r: UserRequest) {
    match tab
    case AllTab => true
    case PendingTab => r.status == "pending" || r.status == "in-progress"
    case ApprovedTab => r.status == "approved"
    case RejectedTab => r.status == "rejected"
  }

  function InTabP(tab: DashboardTab): UserRequest -> bool {
    (r: UserRequest) => InTab(tab, r)
  }

  function TabRequests(rs: seq<UserRequest>, tab: DashboardTab): (r: seq<UserRequest>)
    ensures |r| <= |rs|
    ensures tab == AllTab ==> r == rs
    ensures forall i :: 0 <= i < |r| ==> r[i] in rs && InTab(tab, r[i])
    ensures forall i :: 0 <= i < |rs| && InTab(tab, rs[i]) ==> rs[i] in r
  {
    if tab == AllTab then
      KeepAll(rs, InTabP(tab));
      Keep(rs, InTabP(tab))
    else
      Keep(rs, InTabP(tab))
  }

  /** Every tab keeps the list's order: its filter distributes over concatenation. */
  lemma TabRequestsAppend(a: seq<UserRequest>, b: seq<UserRequest>, tab: DashboardTab)
    ensures TabRequests(a + b, tab) == TabRequests(a, tab) + TabRequests(b, tab)
  {
    KeepAppend(a, b, InTabP(tab));
  }

  /** A single request is listed once or not at all on each tab. */
  lemma TabRequestsUnit(r: UserRequest, tab: DashboardTab)
    ensures TabRequests([r], tab) == if InTab(tab, r) then [r] else []
  {
    KeepUnit(r, InTabP(tab));
  }

  /** With only known statuses, the three narrower tabs split the full list: every request is on exactly one. */
  lemma TabsPartition(rs: seq<UserRequest>)
    requires forall i :: 0 <= i < |rs| ==> KnownStatus(rs[i].status)
    ensures |TabRequests(rs, PendingTab)| + |TabRequests(rs, ApprovedTab)| + |TabRequests(rs, RejectedTab)|
         == |TabRequests(rs, AllTab)|
  {
    var p, a, j := InTabP(PendingTab), InTabP(ApprovedTab), InTabP(RejectedTab);
    KeepDisjoint(rs, a, j);
    var aj := Either(a, j);
    KeepDisjoint(rs, p, aj);
    KeepAll(rs, Either(p, aj));
  }

  /** A request whose status is unknown shows only on the "all" tab. */
  lemma UnknownStatusOnlyOnAll(r: UserRequest, tab: DashboardTab)
    requires !KnownStatus(r.status) && InTab(tab, r)
    ensures tab == AllTab
  {
  }

  /** An optional field is shown when present and non-empty, as JavaScript truthiness decides. */
  predicate Shown(field: Option<string>) {
    field.Some? && field.value != ""
  }

  /** What a card shows besides the fields every card has. */
  datatype CardView = CardView(feedback: bool, assignedTo: bool, resubmit: bool)

  function Card(tab: DashboardTab, r: UserRequest): (c: CardView)
    ensures c.feedback <==> (tab == AllTab || tab == RejectedTab) && Shown(r.feedback)
    ensures c.assignedTo <==> (tab == AllTab || tab == PendingTab) && Shown(r.assignedTo)
    ensures c.resubmit <==> (tab == AllTab && r.status == "rejected") || tab == RejectedTab
  {
    match tab
    case AllTab => CardView(Shown(r.feedback), Shown(r.assignedTo), r.status == "rejected")
    case PendingTab => CardView(false, Shown(r.assignedTo), false)
    case ApprovedTab => CardView(false, false, false)
    case RejectedTab => CardView(Shown(r.feedback), false, true)
  }

  /** Resubmit is offered on a card exactly when the card's request is rejected, on whichever tab lists it. */
  lemma ResubmitIffRejected(rs: seq<UserRequest>, tab: DashboardTab, k: nat)
    requires k < |TabRequests(rs, tab)|
    ensures Card(tab, TabRequests(rs, tab)[k]).resubmit <==> TabRequests(rs, tab)[k].status == "rejected"
  {
  }

  /** The rejected tab and the "all" tab show the same feedback for a rejected request. */
  lemma RejectedCardsAgree(r: UserRequest)
    requires r.status == "rejected"
    ensures Card(AllTab, r) == Card(RejectedTab, r).(assignedTo := Shown(r.assignedTo))
  {
  }

  /** Every sample request has a known status, so the sample list is split by the narrower tabs. */
  lemma SampleStatusesKnown()
    ensures forall i :: 0 <= i < |MockRequests()| ==> KnownStatus(MockRequests()[i].status)
  {
  }
}
