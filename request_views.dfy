/**
  The requester's page: a table of their requests split over three tabs
  (budget, non-budget, saleable stock), whose columns, summary cards, empty
  state and request form depend on the tab. Money is exact `real`.
 */
module RequestViews {
  import opened Collections
  import opened Text

  datatype RequestTab = Budget | NonBudget | SaleableStock

  /** The value `activeTab` holds and each record's `type` is compared with. */
  function TabKey(tab: RequestTab): string {
    match tab
    case Budget => "budget"
    case NonBudget => "non-budget"
    case SaleableStock => "saleable-stock"
  }

  datatype ResourceRequest = ResourceRequest(
    id: string,
    budgetCode: string,
    description: string,
    details: string,
    requestUnit: string,
    pricePerUnit: real,
    requestQuantity: Option<nat>,
    total: real,
    budgetUtilized: real,
    balance: real,
    kind: string)

  function SampleRequests(): seq<ResourceRequest> {
    [ ResourceRequest("REQ-001", "BC-2024-001", "Compute Resources for ML Training",
        "High-performance GPU instances for machine learning model training with NVIDIA A100 GPUs",
        "GPU Hours", 9.18, None, 1836.00, 1836.00, 0.00, "budget"),
      ResourceRequest("REQ-002", "BC-2024-002", "Database Storage Expansion",
        "Additional PostgreSQL database storage for user data with automated backups and replication",
        "GB", 0.37, Some(1000), 367.00, 275.25, 91.75, "budget"),
      ResourceRequest("REQ-003", "", "Emergency Server Maintenance",
        "Urgent server maintenance required for system stability",
        "Service Hours", 0.0, Some(10), 0.0, 0.0, 0.0, "non-budget"),
      ResourceRequest("REQ-004", "", "Office Supplies - Laptops", "Dell laptops for new team members",
        "Units", 0.0, Some(5), 0.0, 0.0, 0.0, "saleable-stock") ]
  }

  function OfKind(tab: RequestTab): ResourceRequest -> bool {
    (r: ResourceRequest) => r.kind == TabKey(tab)
  }

  /** `filteredRequests`: the rows of the active tab, in list order. */
  function FilteredRequests(rs: seq<ResourceRequest>, tab: RequestTab): (r: seq<ResourceRequest>)
    ensures |r| <= |rs|
    ensures forall i :: 0 <= i < |r| ==> r[i].kind == TabKey(tab) && r[i] in rs
    ensures forall i :: 0 <= i < |rs| && rs[i].kind == TabKey(tab) ==> rs[i] in r
  {
    Keep(rs, OfKind(tab))
  }

  /** The tab filter keeps the list's order: it distributes over concatenation. */
  lemma FilteredRequestsAppend(a: seq<ResourceRequest>, b: seq<ResourceRequest>, tab: RequestTab)
    ensures FilteredRequests(a + b, tab) == FilteredRequests(a, tab) + FilteredRequests(b, tab)
  {
    KeepAppend(a, b, OfKind(tab));
  }

  /** A single request is shown once or not at all: the filter never duplicates a row. */
  lemma FilteredRequestsUnit(q: ResourceRequest, tab: RequestTab)
    ensures FilteredRequests([q], tab) == if q.kind == TabKey(tab) then [q] else []
  {
    KeepUnit(q, OfKind(tab));
  }

  predicate KnownKind(r: ResourceRequest) {
    r.kind in {"budget", "non-budget", "saleable-stock"}
  }

  /** When every record has one of the three types, the tabs together show each record exactly once. */
  lemma TabsPartition(rs: seq<ResourceRequest>)
    requires forall i :: 0 <= i < |rs| ==> KnownKind(rs[i])
    ensures |FilteredRequests(rs, Budget)| + |FilteredRequests(rs, NonBudget)| + |FilteredRequests(rs, SaleableStock)| == |rs|
  {
    var b, n, s := OfKind(Budget), OfKind(NonBudget), OfKind(SaleableStock);
    KeepDisjoint(rs, n, s);
    var ns := Either(n, s);
    KeepDisjoint(rs, b, ns);
    KeepAll(rs, Either(b, ns));
  }

  /** The balance colour: red when nothing is left, yellow below a fifth of the total, green otherwise. */
  function BalanceColor(balance: real, total: real): (c: string)
    ensures c == "text-red-600" <==> balance <= 0.0
    ensures c == "text-yellow-600" <==> 0.0 < balance < total * 0.2
    ensures c == "text-green-600" <==> balance > 0.0 && balance >= total * 0.2
  {
    if balance <= 0.0 then "text-red-600"
    else if balance < total * 0.2 then "text-yellow-600"
    else "text-green-600"
  }

  /** The two sample budget rows: a spent budget is red, one with a quarter left is green. */
  lemma SampleBalanceColors()
    ensures BalanceColor(SampleRequests()[0].balance, SampleRequests()[0].total) == "text-red-600"
    ensures BalanceColor(SampleRequests()[1].balance, SampleRequests()[1].total) == "text-green-600"
  {
  }

  /** The table's header cells. */
  function Columns(tab: RequestTab): (cs: seq<string>)
    ensures |cs| >= 4 && cs[0] == "ID" && cs[|cs| - 3..] == ["Description", "Details", "Request Unit"]
    ensures tab == Budget <==> "Balance" in cs
  {
    ["ID"]
    + (if tab == Budget then ["Budget Code", "Price per Unit", "Total Budget", "Budget Utilized", "Balance"] else [])
    + ["Description", "Details", "Request Unit"]
  }

  /** The empty-state row spans the whole table: 9 columns on the budget tab, 4 elsewhere. */
  function EmptyColSpan(tab: RequestTab): nat {
    if tab == Budget then 9 else 4
  }

  lemma EmptyRowSpansTable(tab: RequestTab)
    ensures EmptyColSpan(tab) == |Columns(tab)|
  {
  }

  /** The empty-state message, with the first dash of the tab key turned into a space. */
  function EmptyMessage(tab: RequestTab): string {
    "No " + ReplaceFirst(TabKey(tab), '-', ' ') + " requests found."
  }

  /** The row shown in place of the table body when the tab has no requests. */
  datatype EmptyRowView = EmptyRowView(colSpan: nat, message: string)

  function EmptyRow(rs: seq<ResourceRequest>, tab: RequestTab): (row: Option<EmptyRowView>)
    ensures row.Some? <==> FilteredRequests(rs, tab) == []
    ensures row.Some? ==> row.value.colSpan == |Columns(tab)| && row.value.message == EmptyMessage(tab)
  {
    if FilteredRequests(rs, tab) == [] then Some(EmptyRowView(EmptyColSpan(tab), EmptyMessage(tab))) else None
  }

  /** A tab is empty exactly when no request has its type. */
  lemma EmptyRowIff(rs: seq<ResourceRequest>, tab: RequestTab)
    ensures EmptyRow(rs, tab).Some? <==> forall i :: 0 <= i < |rs| ==> rs[i].kind != TabKey(tab)
  {
    if forall i :: 0 <= i < |rs| ==> rs[i].kind != TabKey(tab) {
      KeepNone(rs, OfKind(tab));
    }
  }

  /** How each tab's key reads once its first dash is replaced. */
  function SpacedKey(tab: RequestTab): string {
    match tab
    case Budget => "budget"
    case NonBudget => "non budget"
    case SaleableStock => "saleable stock"
  }

  lemma TabKeyReplaced(tab: RequestTab)
    ensures ReplaceFirst(TabKey(tab), '-', ' ') == SpacedKey(tab)
  {
    match tab
    case Budget =>
      ReplaceFirstAbsent(TabKey(tab), '-', ' ');
    case NonBudget =>
      assert TabKey(tab) == "non" + ['-'] + "budget";
      ReplaceFirstAt("non", "budget", '-', ' ');
    case SaleableStock =>
      assert TabKey(tab) == "saleable" + ['-'] + "stock";
      ReplaceFirstAt("saleable", "stock", '-', ' ');
  }

  /** The empty state reads "No budget requests found.", "No non budget …" or "No saleable stock …". */
  lemma EmptyMessageText(tab: RequestTab)
    ensures EmptyMessage(tab) == "No " + SpacedKey(tab) + " requests found."
  {
    TabKeyReplaced(tab);
  }

  function TabTitle(tab: RequestTab): (t: string)
    ensures |t| > 9 && t[|t| - 9..] == " Requests"
  {
    match tab
    case Budget => "Budget Requests"
    case NonBudget => "Non-Budget Requests"
    case SaleableStock => "Saleable Stock Requests"
  }

  function TabDescription(tab: RequestTab): string {
    match tab
    case Budget => "Manage and track your budget-allocated resource requests and budget utilization across all projects."
    case NonBudget => "Track non-budget resource requests that don't require budget allocation or financial tracking."
    case SaleableStock => "Manage requests for saleable stock items and inventory-based resources."
  }

  /** Each tab has its own heading: the title tells the tabs apart. */
  lemma TabTitlesDistinct(a: RequestTab, b: RequestTab)
    requires TabTitle(a) == TabTitle(b)
    ensures a == b
  {
    assert TabTitle(a)[0] == TabTitle(b)[0];
  }

  function SumTotal(rs: seq<ResourceRequest>): (t: real)
    ensures (forall i :: 0 <= i < |rs| ==> rs[i].total >= 0.0) ==> t >= 0.0
  {
    if rs == [] then 0.0 else rs[0].total + SumTotal(rs[1..])
  }

  function SumUtilized(rs: seq<ResourceRequest>): (t: real)
    ensures (forall i :: 0 <= i < |rs| ==> rs[i].budgetUtilized >= 0.0) ==> t >= 0.0
  {
    if rs == [] then 0.0 else rs[0].budgetUtilized + SumUtilized(rs[1..])
  }

  function SumBalance(rs: seq<ResourceRequest>): (t: real)
    ensures (forall i :: 0 <= i < |rs| ==> rs[i].balance >= 0.0) ==> t >= 0.0
  {
    if rs == [] then 0.0 else rs[0].balance + SumBalance(rs[1..])
  }

  predicate Balanced(r: ResourceRequest) {
    r.balance == r.total - r.budgetUtilized
  }

  /** When every row's balance is its total minus what was used, so are the summary cards'. */
  lemma {:induction false} SummaryBalances(rs: seq<ResourceRequest>)
    requires forall i :: 0 <= i < |rs| ==> Balanced(rs[i])
    ensures SumBalance(rs) == SumTotal(rs) - SumUtilized(rs)
  {
    if rs != [] {
      SummaryBalances(rs[1..]);
    }
  }

  /** The sample budget rows are balanced, so the budget tab's cards add up. */
  lemma SampleBudgetCardsAddUp()
    ensures forall i :: 0 <= i < |SampleRequests()| ==> Balanced(SampleRequests()[i])
  {
  }

  /** The type card on the two tabs without budget cards. */
  function TypeLabel(tab: RequestTab): (l: string)
    requires tab != Budget
    ensures TabTitle(tab) == l + " Requests"
  {
    if tab == NonBudget then "Non-Budget" else "Saleable Stock"
  }

  /** The request form's inputs that depend on the tab. */
  datatype FormInput = BudgetCode | ResourceType | Quantity | Unit | PricePerUnit | TotalBudget

  function FormInputs(tab: RequestTab): (fs: set<FormInput>)
    ensures BudgetCode in fs <==> tab == Budget
    ensures PricePerUnit in fs <==> tab == Budget
    ensures TotalBudget in fs <==> tab == Budget
    ensures Unit in fs <==> tab != Budget
    ensures Quantity in fs && ResourceType in fs
  {
    {ResourceType, Quantity} + (if tab == Budget then {BudgetCode, PricePerUnit, TotalBudget} else {Unit})
  }

  /** The resource-type options: four per tab, then "other" on every tab. */
  function ResourceTypeOptions(tab: RequestTab): (os: seq<string>)
    ensures |os| == 5 && os[4] == "other"
  {
    (match tab
     case Budget => ["compute", "storage", "database", "api"]
     case NonBudget => ["maintenance", "support", "training", "consultation"]
     case SaleableStock => ["hardware", "software", "equipment", "supplies"])
    + ["other"]
  }

  class RequestPage {
    var requests: seq<ResourceRequest>
    var activeTab: RequestTab
    var showForm: bool
    var isSubmitting: bool

    constructor ()
      ensures requests == SampleRequests() && activeTab == Budget && !showForm && !isSubmitting
    {
      requests := SampleRequests();
      activeTab := Budget;
      showForm, isSubmitting := false, false;
    }

    function Visible(): seq<ResourceRequest>
      reads this
    {
      FilteredRequests(requests, activeTab)
    }

    method SetActiveTab(tab: RequestTab)
      modifies this`activeTab
      ensures activeTab == tab
    {
      activeTab := tab;
    }

    method SetShowForm(show: bool)
      modifies this`showForm
      ensures showForm == show
    {
      showForm := show;
    }

    /** `handleSubmit`: only the submitting flag changes; no request is added. */
    method HandleSubmit()
      modifies this`isSubmitting
      ensures isSubmitting && requests == old(requests)
    {
      isSubmitting := true;
    }

    /** The timer callback of `handleSubmit`: the form closes and the table is left as it was. */
    method SubmitFinished()
      modifies this`isSubmitting, this`showForm
      ensures !isSubmitting && !showForm && requests == old(requests)
    {
      isSubmitting := false;
      showForm := false;
    }
  }
}
