/**
  The finance dashboard: approved requests waiting for payment. Starting a
  payment fills a draft; processing it writes the draft back with status
  "processing"; a deferred callback later marks it "completed". The clock,
  the year and the random invoice digits are parameters here.
 */
module FinancePayments {
  import opened Collections
  import opened Text

  datatype PaymentRequest = PaymentRequest(
    id: string,
    budgetCode: string,
    title: string,
    description: string,
    details: string,
    requestUnit: string,
    pricePerUnit: real,
    quantity: int,
    total: real,
    budgetUtilized: real,
    balance: real,
    status: string,
    paymentStatus: string,
    priority: string,
    requester: string,
    department: string,
    submittedDate: string,
    approvedDate: string,
    justification: string,
    vendor: string,
    vendorEmail: string,
    paymentMethod: string,
    invoiceNumber: string,
    paymentDate: string,
    paymentReference: string)

  function IdIs(id: string): PaymentRequest -> bool {
    (r: PaymentRequest) => r.id == id
  }

  predicate HasId(rs: seq<PaymentRequest>, id: string) {
    exists i :: 0 <= i < |rs| && rs[i].id == id
  }

  /** The reference proposed for the `n`-th request: `PAY-{year}-{n+1, zero-padded to 3}`. */
  function PaymentReference(year: nat, n: nat): (r: string)
    ensures |r| >= 9 && |r| >= 8 + |NatToString(year)| && r[..4] == "PAY-"
    ensures r[4..4 + |NatToString(year)|] == NatToString(year) && r[4 + |NatToString(year)|] == '-'
    ensures n < 999 ==> |r| == 8 + |NatToString(year)| && r[|r| - 4] == '-'
  {
    var y, d := NatToString(year), PadStart(NatToString(n + 1), 3, '0');
    NatToStringBelowThousand(if n < 999 then n + 1 else 0);
    DashedFields("PAY-", y, d);
    "PAY-" + y + "-" + d
  }

  /** `tag + y + "-" + d` keeps each field where it was put, with the dash between `y` and `d`. */
  lemma DashedFields(tag: string, y: string, d: string)
    ensures var r := tag + y + "-" + d;
      && |r| == |tag| + |y| + 1 + |d|
      && r[..|tag|] == tag && r[|tag|..|tag| + |y|] == y
      && r[|tag| + |y|] == '-' && r[|tag| + |y| + 1..] == d
  {
    var r := tag + y + "-" + d;
    assert r == tag + (y + ("-" + d));
  }

  /** `tag + y + "-" + m + "-" + d` keeps each of its fields where it was put. */
  lemma DashedFields3(tag: string, y: string, m: string, d: string)
    ensures var r := tag + y + "-" + m + "-" + d;
      && |r| == |tag| + |y| + |m| + |d| + 2
      && r[..|tag|] == tag && r[|tag|..|tag| + |y|] == y && r[|tag| + |y|] == '-'
      && r[|tag| + |y| + 1..|r| - |d| - 1] == m
      && r[|r| - |d| - 1] == '-' && r[|r| - |d|..] == d
  {
    var front := tag + y + "-" + m;
    DashedFields(tag, y, m);
    DashedFields(front, [], d);
    assert front + [] == front;
    var r := front + "-" + d;
    assert r[..|front|] == front;
    assert r[|tag| + |y| + 1..|front|] == front[|tag| + |y| + 1..];
    assert r[..|tag|] == front[..|tag|];
    assert r[|tag|..|tag| + |y|] == front[|tag|..|tag| + |y|];
  }

  /** `handleStartPayment`: the draft shown in the payment dialog. */
  function StartPaymentDraft(request: PaymentRequest, year: nat, count: nat): (d: PaymentRequest)
    ensures d.paymentMethod == if request.paymentMethod == "" then "Bank Transfer" else request.paymentMethod
    ensures d.invoiceNumber == request.invoiceNumber
    ensures d.paymentReference == if request.paymentReference == "" then PaymentReference(year, count) else request.paymentReference
    ensures d.paymentMethod != "" && d.paymentReference != ""
    ensures d.(paymentMethod := request.paymentMethod, paymentReference := request.paymentReference) == request
  {
    request.(
      paymentMethod := if request.paymentMethod != "" then request.paymentMethod else "Bank Transfer",
      invoiceNumber := if request.invoiceNumber != "" then request.invoiceNumber else "",
      paymentReference := if request.paymentReference != "" then request.paymentReference
                          else PaymentReference(year, count))
  }

  /** `INV-{year}-{first two vendor letters, upper-cased}-{random, zero-padded to 3}`. */
  function InvoiceNumber(year: nat, vendor: string, random: nat): (r: string)
    requires random < 1000
    ensures |r| == 4 + |NatToString(year)| + 1 + (if |vendor| < 2 then |vendor| else 2) + 4
    ensures r[..4] == "INV-"
    ensures r[4..4 + |NatToString(year)|] == NatToString(year) && r[4 + |NatToString(year)|] == '-'
    ensures r[5 + |NatToString(year)|..|r| - 4] == Upper(Prefix(vendor, 2))
    ensures r[|r| - 4] == '-'
  {
    var y, letters := NatToString(year), Upper(Prefix(vendor, 2));
    var d := PadStart(NatToString(random), 3, '0');
    NatToStringBelowThousand(random);
    DashedFields3("INV-", y, letters, d);
    var r := "INV-" + y + "-" + letters + "-" + d;
    assert |d| == 3 && |r| - |d| - 1 == |r| - 4;
    r
  }

  /** The invoice's last three characters are digits that read back as the random number. */
  lemma InvoiceEncodesRandom(year: nat, vendor: string, random: nat)
    requires random < 1000
    ensures var inv := InvoiceNumber(year, vendor, random);
      AllDigits(inv[|inv| - 3..]) && DecimalValue(inv[|inv| - 3..]) == random
  {
    var inv := InvoiceNumber(year, vendor, random);
    var d := PadStart(NatToString(random), 3, '0');
    NatToStringBelowThousand(random);
    DashedFields3("INV-", NatToString(year), Upper(Prefix(vendor, 2)), d);
    assert inv[|inv| - 3..] == d;
    PadStartKeepsValue(random, 3);
  }

  /** The record `processPayment` writes back: the draft, now processing, dated, with an invoice number. */
  function Processed(draft: PaymentRequest, today: string, year: nat, random: nat): (u: PaymentRequest)
    requires random < 1000
    ensures u.paymentStatus == "processing" && u.paymentDate == today
    ensures u.invoiceNumber != ""
    ensures draft.invoiceNumber != "" ==> u.invoiceNumber == draft.invoiceNumber
    ensures draft.invoiceNumber == "" ==> u.invoiceNumber == InvoiceNumber(year, draft.vendor, random)
    ensures u.(paymentStatus := draft.paymentStatus, paymentDate := draft.paymentDate,
               invoiceNumber := draft.invoiceNumber) == draft
  {
    draft.(
      paymentStatus := "processing",
      paymentDate := today,
      invoiceNumber := if draft.invoiceNumber != "" then draft.invoiceNumber
                       else InvoiceNumber(year, draft.vendor, random))
  }

  /** The `setRequests` of `processPayment`: records with the draft's id become the updated record. */
  function ReplaceWith(rs: seq<PaymentRequest>, updated: PaymentRequest): (r: seq<PaymentRequest>)
    ensures |r| == |rs|
    ensures forall i :: 0 <= i < |rs| && rs[i].id == updated.id ==> r[i] == updated
    ensures forall i :: 0 <= i < |rs| && rs[i].id != updated.id ==> r[i] == rs[i]
  {
    MapWhere(rs, IdIs(updated.id), (q: PaymentRequest) => updated)
  }

  /** The deferred completion: records with this id become completed; it never adds a record. */
  function Complete(rs: seq<PaymentRequest>, id: string): (r: seq<PaymentRequest>)
    ensures |r| == |rs|
    ensures forall i :: 0 <= i < |rs| && rs[i].id == id ==> r[i] == rs[i].(paymentStatus := "completed")
    ensures forall i :: 0 <= i < |rs| && rs[i].id != id ==> r[i] == rs[i]
  {
    MapWhere(rs, IdIs(id), (q: PaymentRequest) => q.(paymentStatus := "completed"))
  }

  /** `filteredRequests`: "all" keeps everything, any other value keeps the matching payment status. */
  function FilterByStatus(rs: seq<PaymentRequest>, filterStatus: string): (r: seq<PaymentRequest>)
    ensures |r| <= |rs|
    ensures filterStatus == "all" ==> r == rs
    ensures filterStatus != "all" ==>
      && (forall i :: 0 <= i < |r| ==> r[i].paymentStatus == filterStatus && r[i] in rs)
      && (forall i :: 0 <= i < |rs| && rs[i].paymentStatus == filterStatus ==> rs[i] in r)
  {
    var keep := ShownBy(filterStatus);
    if filterStatus == "all" then
      KeepAll(rs, keep);
      Keep(rs, keep)
    else
      Keep(rs, keep)
  }

  /** The filter's test: "all" passes every row, any other value the rows with that payment status. */
  function ShownBy(filterStatus: string): PaymentRequest -> bool {
    (q: PaymentRequest) => filterStatus == "all" || q.paymentStatus == filterStatus
  }

  /** The status filter keeps the list's order: it distributes over concatenation. */
  lemma FilterByStatusAppend(a: seq<PaymentRequest>, b: seq<PaymentRequest>, filterStatus: string)
    ensures FilterByStatus(a + b, filterStatus) == FilterByStatus(a, filterStatus) + FilterByStatus(b, filterStatus)
  {
    KeepAppend(a, b, ShownBy(filterStatus));
  }

  /** A single row is shown once or not at all. */
  lemma FilterByStatusUnit(q: PaymentRequest, filterStatus: string)
    ensures FilterByStatus([q], filterStatus) ==
      if filterStatus == "all" || q.paymentStatus == filterStatus then [q] else []
  {
    KeepUnit(q, ShownBy(filterStatus));
  }

  function StatusIs(status: string): PaymentRequest -> bool {
    (q: PaymentRequest) => q.paymentStatus == status
  }

  /** The per-status summary cards. */
  function StatusCount(rs: seq<PaymentRequest>, status: string): (n: nat)
    ensures n <= |rs|
    ensures n == 0 <==> forall i :: 0 <= i < |rs| ==> rs[i].paymentStatus != status
  {
    KeepEmptyIff(rs, StatusIs(status));
    |Keep(rs, StatusIs(status))|
  }

  /** Filtering by a status shows as many rows as that status's summary card counts. */
  lemma FilterMatchesCount(rs: seq<PaymentRequest>, status: string)
    requires status != "all"
    ensures |FilterByStatus(rs, status)| == StatusCount(rs, status)
  {
    KeepCongruent(rs, ShownBy(status), StatusIs(status));
  }

  /** Pending, processing and completed together never exceed the total. */
  lemma StatusCountsAtMostTotal(rs: seq<PaymentRequest>)
    ensures StatusCount(rs, "pending") + StatusCount(rs, "processing") + StatusCount(rs, "completed") <= |rs|
  {
    var p, q, c := StatusIs("pending"), StatusIs("processing"), StatusIs("completed");
    KeepDisjoint(rs, q, c);
    var r := Either(q, c);
    KeepDisjoint(rs, p, r);
  }

  /** The "Total Amount" summary card: the sum of every row's total. */
  function TotalAmount(rs: seq<PaymentRequest>): (t: real)
    ensures (forall i :: 0 <= i < |rs| ==> rs[i].total >= 0.0) ==> t >= 0.0
  {
    if rs == [] then 0.0 else rs[0].total + TotalAmount(rs[1..])
  }

  /** Completing a payment only changes a status, so the "Total Amount" card keeps its value. */
  lemma {:induction false} CompleteKeepsTotalAmount(rs: seq<PaymentRequest>, id: string)
    ensures TotalAmount(Complete(rs, id)) == TotalAmount(rs)
  {
    if rs != [] {
      var c := Complete(rs, id);
      assert c[1..] == Complete(rs[1..], id);
      CompleteKeepsTotalAmount(rs[1..], id);
    }
  }

  /** Processing a draft that carries the stored total keeps the "Total Amount" card too. */
  lemma {:induction false} ReplaceKeepsTotalAmount(rs: seq<PaymentRequest>, updated: PaymentRequest)
    requires forall i :: 0 <= i < |rs| && rs[i].id == updated.id ==> rs[i].total == updated.total
    ensures TotalAmount(ReplaceWith(rs, updated)) == TotalAmount(rs)
  {
    if rs != [] {
      var r := ReplaceWith(rs, updated);
      assert r[1..] == ReplaceWith(rs[1..], updated);
      ReplaceKeepsTotalAmount(rs[1..], updated);
    }
  }

  /** Deferred completion on an id that is gone changes nothing: no record is resurrected. */
  lemma CompleteAbsent(rs: seq<PaymentRequest>, id: string)
    requires !HasId(rs, id)
    ensures Complete(rs, id) == rs
  {
  }

  /** After processing and its completion, the record with that id is completed and nothing else moved. */
  lemma {:induction false} ProcessThenComplete(rs: seq<PaymentRequest>, draft: PaymentRequest, today: string, year: nat, random: nat)
    requires random < 1000
    ensures var u := Processed(draft, today, year, random);
      var after := Complete(ReplaceWith(rs, u), u.id);
      && |after| == |rs|
      && (forall i :: 0 <= i < |rs| && rs[i].id == draft.id ==> after[i] == u.(paymentStatus := "completed"))
      && (forall i :: 0 <= i < |rs| && rs[i].id != draft.id ==> after[i] == rs[i])
  {
  }

  /** The proposed references of the sample page: four rows give `PAY-2025-005`. */
  lemma SampleReference()
    ensures PaymentReference(2025, 4) == "PAY-2025-005"
  {
    assert NatToString(2025) == "2025" by {
      assert NatToString(2) == "2";
      assert NatToString(20) == "20";
      assert NatToString(202) == "202";
    }
    assert NatToString(5) == "5";
    assert PadStart("5", 3, '0') == "005";
  }

  /** The reference's number part reads back as the row count plus one. */
  lemma ReferenceEncodesCount(year: nat, n: nat)
    ensures var ref := PaymentReference(year, n);
      var k := |ref| - |PadStart(NatToString(n + 1), 3, '0')|;
      0 <= k <= |ref| && AllDigits(ref[k..]) && DecimalValue(ref[k..]) == n + 1
  {
    PadStartKeepsValue(n + 1, 3);
  }

  /** The digits between `PAY-` and the dash after them read back as the year. */
  lemma ReferenceEncodesYear(year: nat, n: nat)
    ensures var ref := PaymentReference(year, n);
      AllDigits(ref[4..4 + |NatToString(year)|]) && DecimalValue(ref[4..4 + |NatToString(year)|]) == year
  {
    var ref, y := PaymentReference(year, n), NatToString(year);
    ReadsBack(ref[4..4 + |y|], year);
  }

  /** A field that holds a number's decimal form reads back as that number. */
  lemma ReadsBack(field: string, v: nat)
    requires field == NatToString(v)
    ensures AllDigits(field) && DecimalValue(field) == v
  {
    NatToStringRoundTrip(v);
  }

  /** The reference depends only on the year and the row count, so two drafts started
      without a row being added in between propose the same reference. */
  lemma ReferenceIgnoresRequest(a: PaymentRequest, b: PaymentRequest, year: nat, count: nat)
    requires a.paymentReference == "" && b.paymentReference == ""
    ensures StartPaymentDraft(a, year, count).paymentReference == StartPaymentDraft(b, year, count).paymentReference
  {
  }

  /** The row actions; "Payment History" has no handler but is listed on every row. */
  datatype PaymentAction = PayNow | StartPayment | ViewDetails | GenerateInvoice | SendConfirmation | PaymentHistory

  function Actions(paymentStatus: string): (acts: set<PaymentAction>)
    ensures PayNow in acts <==> paymentStatus == "pending"
    ensures StartPayment in acts <==> paymentStatus == "pending"
    ensures GenerateInvoice in acts <==> paymentStatus == "completed"
    ensures SendConfirmation in acts <==> paymentStatus == "completed"
    ensures ViewDetails in acts && PaymentHistory in acts
  {
    {ViewDetails, PaymentHistory}
    + (if paymentStatus == "pending" then {PayNow, StartPayment} else {})
    + (if paymentStatus == "completed" then {GenerateInvoice, SendConfirmation} else {})
  }

  /** Paying and post-payment actions are never offered on the same row. */
  lemma PaymentAndInvoiceExclusive(paymentStatus: string)
    ensures !(PayNow in Actions(paymentStatus) && GenerateInvoice in Actions(paymentStatus))
  {
  }

  /** A processed record can no longer be paid; once completed it offers the invoice. */
  lemma ProcessedRecordActions(draft: PaymentRequest, today: string, year: nat, random: nat)
    requires random < 1000
    ensures var u := Processed(draft, today, year, random);
      Actions(u.paymentStatus) == {ViewDetails, PaymentHistory}
      && Actions(u.(paymentStatus := "completed").paymentStatus)
         == {ViewDetails, PaymentHistory, GenerateInvoice, SendConfirmation}
  {
  }

  class FinanceDashboard {
    var requests: seq<PaymentRequest>
    var selectedRequest: Option<PaymentRequest>
    var viewDialogOpen: bool
    var paymentDialogOpen: bool
    var filterStatus: string

    constructor (initial: seq<PaymentRequest>)
      ensures requests == initial && selectedRequest == None && filterStatus == "all"
      ensures !viewDialogOpen && !paymentDialogOpen
    {
      requests := initial;
      selectedRequest := None;
      viewDialogOpen, paymentDialogOpen := false, false;
      filterStatus := "all";
    }

    method HandleView(request: PaymentRequest)
      modifies this`selectedRequest, this`viewDialogOpen
      ensures selectedRequest == Some(request) && viewDialogOpen
    {
      selectedRequest := Some(request);
      viewDialogOpen := true;
    }

    /** Opens the payment dialog on a draft; the request list is not touched. */
    method HandleStartPayment(request: PaymentRequest, year: nat)
      modifies this`selectedRequest, this`paymentDialogOpen
      ensures selectedRequest == Some(StartPaymentDraft(request, year, |requests|))
      ensures paymentDialogOpen && requests == old(requests)
    {
      selectedRequest := Some(StartPaymentDraft(request, year, |requests|));
      paymentDialogOpen := true;
    }

    /** The dialog's method, reference and invoice inputs. */
    method EditDraft(paymentMethod: string, paymentReference: string, invoiceNumber: string)
      requires selectedRequest.Some?
      modifies this`selectedRequest
      ensures selectedRequest == Some(old(selectedRequest).value.(
        paymentMethod := paymentMethod, paymentReference := paymentReference, invoiceNumber := invoiceNumber))
    {
      selectedRequest := Some(selectedRequest.value.(
        paymentMethod := paymentMethod, paymentReference := paymentReference, invoiceNumber := invoiceNumber));
    }

    /**
      `processPayment`: writes the processed draft back and closes the dialog.
      Returns the id the deferred completion must later be invoked with.
     */
    method ProcessPayment(today: string, year: nat, random: nat) returns (pendingId: string)
      requires selectedRequest.Some? && random < 1000
      modifies this`requests, this`selectedRequest, this`paymentDialogOpen
      ensures requests == ReplaceWith(old(requests), Processed(old(selectedRequest).value, today, year, random))
      ensures pendingId == old(selectedRequest).value.id
      ensures selectedRequest == None && !paymentDialogOpen
    {
      var updated := Processed(selectedRequest.value, today, year, random);
      requests := ReplaceWith(requests, updated);
      paymentDialogOpen := false;
      selectedRequest := None;
      pendingId := updated.id;
    }

    /** The timer callback of `processPayment`, made an explicit operation. */
    method CompletePayment(id: string)
      modifies this`requests
      ensures requests == Complete(old(requests), id)
    {
      requests := Complete(requests, id);
    }

    method SetFilterStatus(status: string)
      modifies this`filterStatus
      ensures filterStatus == status
    {
      filterStatus := status;
    }
  }
}
