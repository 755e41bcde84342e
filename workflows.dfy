/**
  The workflow list page: a table of workflow definitions held in page state.
  Each handler replaces the whole table by a mapped, filtered or extended copy.
 */
module Workflows {
  import opened Collections
  import opened Text

  datatype Workflow = Workflow(
    id: string,
    name: string,
    description: string,
    isActive: bool,
    isDefault: bool,
    steps: nat,
    lastModified: string,
    appliesTo: seq<string>,
    avgProcessingTime: string,
    completionRate: string,
    totalRequests: nat)

  /** The three sample workflows the page starts with. */
  function MockWorkflows(): seq<Workflow> {
    [ Workflow("wf-001", "Standard Approval Process",
        "Default workflow for general resource requests with department head and finance approval",
        true, true, 3, "2025-05-01",
        ["Compute Resources", "Storage Resources", "Database Resources"], "2.3 days", "94%", 1240),
      Workflow("wf-002", "Expedited Approval",
        "Fast-track workflow for urgent requests requiring immediate attention",
        true, false, 2, "2025-04-28", ["API Access"], "0.8 days", "98%", 156),
      Workflow("wf-003", "Security Review Process",
        "Enhanced security review for sensitive resource requests with multiple approval layers",
        false, false, 5, "2025-05-05", ["Database Resources", "API Access"], "5.2 days", "89%", 67) ]
  }

  predicate HasId(ws: seq<Workflow>, id: string) {
    exists i :: 0 <= i < |ws| && ws[i].id == id
  }

  predicate UniqueIds(ws: seq<Workflow>) {
    forall i, j :: 0 <= i < j < |ws| ==> ws[i].id != ws[j].id
  }

  function IdIs(id: string): Workflow -> bool {
    (w: Workflow) => w.id == id
  }

  function IdIsNot(id: string): Workflow -> bool {
    (w: Workflow) => w.id != id
  }

  predicate IsActive(w: Workflow) { w.isActive }

  predicate IsDefault(w: Workflow) { w.isDefault }

  /** The workflows currently flagged as default, in table order. */
  function Defaults(ws: seq<Workflow>): seq<Workflow> {
    Keep(ws, IsDefault)
  }

  /** The exclusive-flag invariant: no two records are default at once. */
  predicate AtMostOneDefault(ws: seq<Workflow>) {
    |Defaults(ws)| <= 1
  }

  function Flip(w: Workflow): Workflow {
    w.(isActive := !w.isActive)
  }

  /** `handleToggleActive`: flips `isActive` on the records with this id; nothing else changes. */
  function ToggleActive(ws: seq<Workflow>, id: string): (r: seq<Workflow>)
    ensures |r| == |ws|
    ensures forall i :: 0 <= i < |ws| ==> r[i].isActive == (ws[i].isActive != (ws[i].id == id))
    ensures forall i :: 0 <= i < |ws| ==> r[i].(isActive := ws[i].isActive) == ws[i]
  {
    MapWhere(ws, IdIs(id), Flip)
  }

  /** `handleSetDefault`: exactly the records with this id end up default; nothing else changes. */
  function SetDefault(ws: seq<Workflow>, id: string): (r: seq<Workflow>)
    ensures |r| == |ws|
    ensures forall i :: 0 <= i < |ws| ==> r[i].isDefault == (ws[i].id == id)
    ensures forall i :: 0 <= i < |ws| ==> r[i].(isDefault := ws[i].isDefault) == ws[i]
  {
    seq(|ws|, i requires 0 <= i < |ws| =>
      var w := ws[i];
      if w.id == id then w.(isDefault := true) else w.(isDefault := w.id == id))
  }

  /** The id a duplicate receives: `wf-00` followed by the new table length. */
  function DuplicateId(n: nat): (r: string)
    ensures |r| >= 6 && r[..5] == "wf-00" && AllDigits(r[5..])
    ensures DecimalValue(r[5..]) == n + 1
  {
    var digits := NatToString(n + 1);
    NatToStringRoundTrip(n + 1);
    assert ("wf-00" + digits)[5..] == digits;
    "wf-00" + digits
  }

  /** The copy `handleDuplicate` appends. */
  function CopyOf(w: Workflow, newId: string, today: string): (c: Workflow)
    ensures c.id == newId && !c.isDefault && c.totalRequests == 0 && c.lastModified == today
    ensures |c.name| == |w.name| + 7 && c.name[..|w.name|] == w.name
    ensures c.(id := w.id, name := w.name, isDefault := w.isDefault, lastModified := w.lastModified, totalRequests := w.totalRequests) == w
  {
    w.(id := newId, name := w.name + " (Copy)", isDefault := false,
       lastModified := today, totalRequests := 0)
  }

  /**
    `handleDuplicate`: when some record has this id, a copy of the first such
    record is appended; otherwise the table is unchanged.
   */
  function Duplicate(ws: seq<Workflow>, id: string, today: string): (r: seq<Workflow>)
    ensures !HasId(ws, id) ==> r == ws
    ensures HasId(ws, id) ==> |r| == |ws| + 1 && r[..|ws|] == ws
    ensures HasId(ws, id) ==>
      var c := r[|ws|];
      && c.id == DuplicateId(|ws|)
      && c.isDefault == false && c.totalRequests == 0 && c.lastModified == today
      && exists k :: 0 <= k < |ws| && ws[k].id == id
           && (forall j :: 0 <= j < k ==> ws[j].id != id)
           && c.name == ws[k].name + " (Copy)"
           && c.(id := ws[k].id, name := ws[k].name, isDefault := ws[k].isDefault,
                 lastModified := ws[k].lastModified, totalRequests := ws[k].totalRequests) == ws[k]
  {
    match Find(ws, IdIs(id))
    case None => ws
    case Some(orig) => ws + [CopyOf(orig, DuplicateId(|ws|), today)]
  }

  /** `confirmDelete`: drops every record with this id and keeps the rest in order. */
  function Delete(ws: seq<Workflow>, id: string): (r: seq<Workflow>)
    ensures forall i :: 0 <= i < |r| ==> r[i].id != id && r[i] in ws
    ensures forall i :: 0 <= i < |ws| && ws[i].id != id ==> ws[i] in r
  {
    Keep(ws, IdIsNot(id))
  }

  /** The "Active Workflows" summary card. */
  function ActiveCount(ws: seq<Workflow>): (n: nat)
    ensures n <= |ws|
    ensures n == |ws| <==> forall i :: 0 <= i < |ws| ==> ws[i].isActive
  {
    var r := Keep(ws, IsActive);
    if forall i :: 0 <= i < |ws| ==> ws[i].isActive then
      KeepAll(ws, IsActive);
      |r|
    else
      ActiveCountBelow(ws);
      |r|
  }

  lemma {:induction false} ActiveCountBelow(ws: seq<Workflow>)
    requires exists i :: 0 <= i < |ws| && !ws[i].isActive
    ensures |Keep(ws, IsActive)| < |ws|
  {
    if ws[0].isActive {
      assert exists i :: 0 <= i < |ws[1..]| && !ws[1..][i].isActive by {
        var i :| 0 <= i < |ws| && !ws[i].isActive;
        assert i != 0 && !ws[1..][i - 1].isActive;
      }
      ActiveCountBelow(ws[1..]);
    }
  }

  /** The "Total Requests" summary card: the sum of `totalRequests`. */
  function TotalRequests(ws: seq<Workflow>): (t: nat)
    ensures forall i :: 0 <= i < |ws| ==> ws[i].totalRequests <= t
  {
    if ws == [] then 0 else ws[0].totalRequests + TotalRequests(ws[1..])
  }

  lemma {:induction false} TotalRequestsAppend(a: seq<Workflow>, b: seq<Workflow>)
    ensures TotalRequests(a + b) == TotalRequests(a) + TotalRequests(b)
  {
    if a == [] {
      assert a + b == b;
    } else {
      assert (a + b)[1..] == a[1..] + b;
      TotalRequestsAppend(a[1..], b);
    }
  }

  // ---------------------------------------------------------------------------
  // Properties of the handlers

  /** Toggling the same id twice restores the table. */
  lemma ToggleActiveTwice(ws: seq<Workflow>, id: string)
    ensures ToggleActive(ToggleActive(ws, id), id) == ws
  {
    MapWhereTwice(ws, IdIs(id), Flip);
  }

  /** With unique ids, set-default on a present id leaves exactly that record default. */
  lemma SetDefaultExclusive(ws: seq<Workflow>, k: nat)
    requires UniqueIds(ws) && k < |ws|
    ensures Defaults(SetDefault(ws, ws[k].id)) == [ws[k].(isDefault := true)]
    ensures AtMostOneDefault(SetDefault(ws, ws[k].id))
  {
    var r := SetDefault(ws, ws[k].id);
    KeepSingle(r, IsDefault, k);
  }

  /** Set-default on an absent id clears the flag everywhere. */
  lemma SetDefaultAbsent(ws: seq<Workflow>, id: string)
    requires !HasId(ws, id)
    ensures Defaults(SetDefault(ws, id)) == []
  {
    KeepNone(SetDefault(ws, id), IsDefault);
  }

  /** Whatever the ids, set-default never leaves a default record whose id differs. */
  lemma SetDefaultOnlyTarget(ws: seq<Workflow>, id: string)
    ensures forall i :: 0 <= i < |Defaults(SetDefault(ws, id))| ==> Defaults(SetDefault(ws, id))[i].id == id
  {
  }

  /** A duplicate is never default, so at most one default stays at most one. */
  lemma DuplicateKeepsAtMostOneDefault(ws: seq<Workflow>, id: string, today: string)
    requires AtMostOneDefault(ws)
    ensures AtMostOneDefault(Duplicate(ws, id, today))
  {
    var r := Duplicate(ws, id, today);
    if HasId(ws, id) {
      assert r == ws + [r[|ws|]];
      KeepAppend(ws, [r[|ws|]], IsDefault);
    }
  }

  /** A duplicate starts with no requests, so the request total is unchanged. */
  lemma DuplicateKeepsTotalRequests(ws: seq<Workflow>, id: string, today: string)
    ensures TotalRequests(Duplicate(ws, id, today)) == TotalRequests(ws)
  {
    var r := Duplicate(ws, id, today);
    if HasId(ws, id) {
      assert r == ws + [r[|ws|]];
      TotalRequestsAppend(ws, [r[|ws|]]);
    }
  }

  /** The number after the `wf-00` prefix of a duplicate's id is the new table length. */
  lemma DuplicateIdEncodesLength(n: nat)
    ensures DuplicateId(n)[..5] == "wf-00"
    ensures AllDigits(DuplicateId(n)[5..]) && DecimalValue(DuplicateId(n)[5..]) == n + 1
  {
    assert DuplicateId(n)[5..] == NatToString(n + 1);
    NatToStringRoundTrip(n + 1);
  }

  /** Deleting distributes over concatenation: the survivors keep their relative order. */
  lemma DeleteKeepsOrder(a: seq<Workflow>, b: seq<Workflow>, id: string)
    ensures Delete(a + b, id) == Delete(a, id) + Delete(b, id)
  {
    KeepAppend(a, b, IdIsNot(id));
  }

  /** Deleting an absent id changes nothing. */
  lemma DeleteAbsent(ws: seq<Workflow>, id: string)
    requires !HasId(ws, id)
    ensures Delete(ws, id) == ws
  {
    KeepAll(ws, IdIsNot(id));
  }

  /** Deleting keeps at most one default. */
  lemma DeleteKeepsAtMostOneDefault(ws: seq<Workflow>, id: string)
    requires AtMostOneDefault(ws)
    ensures AtMostOneDefault(Delete(ws, id))
  {
    KeepCommute(ws, IdIsNot(id), IsDefault);
  }

  /** Toggling the unique record with this id moves the active count by exactly one. */
  lemma {:induction false} ToggleActiveCount(ws: seq<Workflow>, k: nat)
    requires UniqueIds(ws) && k < |ws|
    ensures ActiveCount(ToggleActive(ws, ws[k].id)) == ActiveCount(ws) + (if ws[k].isActive then -1 else 1)
  {
    var id := ws[k].id;
    var r := ToggleActive(ws, id);
    assert ws == ws[..k] + [ws[k]] + ws[k + 1..];
    assert r == r[..k] + [r[k]] + r[k + 1..];
    assert r[..k] == ws[..k] by {
      forall i | 0 <= i < k ensures r[i] == ws[i] {
        assert ws[i].id != id;
      }
    }
    assert r[k + 1..] == ws[k + 1..] by {
      forall i | k < i < |ws| ensures r[i] == ws[i] {
        assert ws[i].id != id;
      }
    }
    KeepAppend(ws[..k] + [ws[k]], ws[k + 1..], IsActive);
    KeepAppend(ws[..k], [ws[k]], IsActive);
    KeepAppend(r[..k] + [r[k]], r[k + 1..], IsActive);
    KeepAppend(r[..k], [r[k]], IsActive);
  }

  /** With the sample data, deleting the first workflow and then duplicating the second
      produces an id that is already taken: generated ids are not fresh. */
  lemma DuplicateIdCanCollide()
    ensures var ws := Duplicate(Delete(MockWorkflows(), "wf-001"), "wf-002", "2025-06-01");
      |ws| == 3 && ws[1].id == ws[2].id == "wf-003"
  {
    var m := MockWorkflows();
    var d := Delete(m, "wf-001");
    assert d == m[1..] by {
      assert m == [m[0]] + m[1..];
      KeepAppend([m[0]], m[1..], IdIsNot("wf-001"));
      KeepAll(m[1..], IdIsNot("wf-001"));
    }
    assert Find(d, IdIs("wf-002")) == Some(d[0]);
    assert NatToString(3) == "3";
    assert DuplicateId(2) == "wf-003";
  }

  // ---------------------------------------------------------------------------
  // The page state

  class WorkflowsPage {
    var workflows: seq<Workflow>
    var deleteDialogOpen: bool
    var workflowToDelete: Option<string>

    constructor ()
      ensures workflows == MockWorkflows()
      ensures !deleteDialogOpen && workflowToDelete == None
    {
      workflows := MockWorkflows();
      deleteDialogOpen := false;
      workflowToDelete := None;
    }

    method HandleToggleActive(id: string)
      modifies this`workflows
      ensures workflows == ToggleActive(old(workflows), id)
    {
      workflows := ToggleActive(workflows, id);
    }

    method HandleSetDefault(id: string)
      modifies this`workflows
      ensures workflows == SetDefault(old(workflows), id)
    {
      workflows := SetDefault(workflows, id);
    }

    /** `today` stands for the date the page reads from the clock. */
    method HandleDuplicate(id: string, today: string)
      modifies this`workflows
      ensures workflows == Duplicate(old(workflows), id, today)
    {
      workflows := Duplicate(workflows, id, today);
    }

    method HandleDeleteClick(id: string)
      modifies this`workflowToDelete, this`deleteDialogOpen
      ensures workflowToDelete == Some(id) && deleteDialogOpen
    {
      workflowToDelete := Some(id);
      deleteDialogOpen := true;
    }

    /** Deletes the selected id when one is selected (an empty id is falsy and deletes nothing). */
    method ConfirmDelete()
      modifies this
      ensures old(workflowToDelete).Some? && old(workflowToDelete).value != "" ==>
        workflows == Delete(old(workflows), old(workflowToDelete).value)
      ensures !(old(workflowToDelete).Some? && old(workflowToDelete).value != "") ==>
        workflows == old(workflows)
      ensures !deleteDialogOpen && workflowToDelete == None
    {
      if workflowToDelete.Some? && workflowToDelete.value != "" {
        workflows := Delete(workflows, workflowToDelete.value);
      }
      deleteDialogOpen := false;
      workflowToDelete := None;
    }
  }
}
