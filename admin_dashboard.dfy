/**
 * The admin dashboard's local lists: healthcare coverage records whose active
 * flag is toggled, and coverage applications and cash-payment receipts that
 * are approved or declined. Each action is sent to the server; only a
 * reported success changes the list. The server's answers are parameters.
 */
module AdminDashboard {
  import opened Text
  import opened Seqs

  datatype Coverage = Coverage(
    id: string,
    policyId: string,
    provider: string,
    coverageType: string,
    isActive: bool,
    patientId: string,
    patientName: string)

  datatype Application = Application(
    id: string,
    patientName: string,
    policyId: string,
    provider: string,
    status: string)

  datatype CashReceipt = CashReceipt(
    id: string,
    receiptNumber: string,
    patientName: string,
    amount: int,
    transactionId: string,
    status: string)

  datatype Decision = Approve | Decline

  /** The status a decision writes. */
  function DecisionStatus(d: Decision): (s: string)
    ensures s == "Approved" || s == "Declined"
    ensures s == "Approved" <==> d == Approve
  {
    match d
    case Approve => "Approved"
    case Decline => "Declined"
  }

  /** The body of a status request: the record id, the new status, and the reviewer (`user?.id || 'admin'`). */
  datatype StatusRequest = StatusRequest(id: string, status: string, reviewer: string)

  function CoverageWithId(id: string): Coverage -> bool {
    (c: Coverage) => c.id == id
  }

  /**
   * `!currentCoverage?.isActive`: the negation of the first record with the
   * id; `true` when there is none.
   */
  function NewCoverageStatus(coverage: seq<Coverage>, id: string): (b: bool)
    ensures FindIndex(coverage, CoverageWithId(id)) == -1 ==> b
    ensures var k := FindIndex(coverage, CoverageWithId(id)); k >= 0 ==> b == !coverage[k].isActive
  {
    var current := Find(coverage, CoverageWithId(id));
    !(current.Some? && current.value.isActive)
  }

  /** Every record with the id takes the flag; the others, the length and the order stay. */
  function SetActive(coverage: seq<Coverage>, id: string, b: bool): (r: seq<Coverage>)
    ensures |r| == |coverage|
    ensures forall i :: 0 <= i < |r| && coverage[i].id == id ==> r[i] == coverage[i].(isActive := b)
    ensures forall i :: 0 <= i < |r| && coverage[i].id != id ==> r[i] == coverage[i]
  {
    ReplaceWhere(coverage, CoverageWithId(id), (c: Coverage) => c.(isActive := b))
  }

  /** The list after a successful toggle. */
  function Toggled(coverage: seq<Coverage>, id: string): seq<Coverage> {
    SetActive(coverage, id, NewCoverageStatus(coverage, id))
  }

  /** The first record with the id changes its flag, and an unknown id changes nothing. */
  lemma ToggleFlipsFirst(coverage: seq<Coverage>, id: string)
    ensures var k := FindIndex(coverage, CoverageWithId(id));
      k >= 0 ==> Toggled(coverage, id)[k].isActive != coverage[k].isActive
    ensures FindIndex(coverage, CoverageWithId(id)) == -1 ==> Toggled(coverage, id) == coverage
  {
    var k := FindIndex(coverage, CoverageWithId(id));
    if k == -1 {
      ReplaceNothing(coverage, CoverageWithId(id), (c: Coverage) => c.(isActive := true));
    }
  }

  /** The records with this id all carry the same flag (as they do when ids are unique). */
  predicate Consistent(coverage: seq<Coverage>, id: string) {
    forall i, j :: 0 <= i < |coverage| && 0 <= j < |coverage| && coverage[i].id == id && coverage[j].id == id ==>
      coverage[i].isActive == coverage[j].isActive
  }

  /** Toggling the same record twice gives the list back. */
  lemma {:induction false} ToggleTwiceRestores(coverage: seq<Coverage>, id: string)
    requires Consistent(coverage, id)
    ensures Toggled(Toggled(coverage, id), id) == coverage
  {
    var k := FindIndex(coverage, CoverageWithId(id));
    var once := Toggled(coverage, id);
    if k == -1 {
      ToggleFlipsFirst(coverage, id);
      ToggleFlipsFirst(once, id);
    } else {
      var b := NewCoverageStatus(coverage, id);
      var k2 := FindIndex(once, CoverageWithId(id));
      assert once[k].id == id;
      assert 0 <= k2 <= k;
      assert once[k2].isActive == b;
      var twice := Toggled(once, id);
      assert NewCoverageStatus(once, id) == coverage[k].isActive;
      forall i | 0 <= i < |coverage| ensures twice[i] == coverage[i] {
        if coverage[i].id == id {
          assert coverage[i].isActive == coverage[k].isActive;
        }
      }
    }
  }

  function ApplicationWithId(id: string): Application -> bool {
    (a: Application) => a.id == id
  }

  /** The applications after a successful review: each with the id takes the decision's status. */
  function ReviewApplications(apps: seq<Application>, id: string, d: Decision): (r: seq<Application>)
    ensures |r| == |apps|
    ensures forall i :: 0 <= i < |r| && apps[i].id == id ==> r[i] == apps[i].(status := DecisionStatus(d))
    ensures forall i :: 0 <= i < |r| && apps[i].id != id ==> r[i] == apps[i]
  {
    ReplaceWhere(apps, ApplicationWithId(id), (a: Application) => a.(status := DecisionStatus(d)))
  }

  function ReceiptWithId(id: string): CashReceipt -> bool {
    (r: CashReceipt) => r.id == id
  }

  /** The receipts after a successful review: each with the id takes the decision's status. */
  function ReviewReceipts(receipts: seq<CashReceipt>, id: string, d: Decision): (r: seq<CashReceipt>)
    ensures |r| == |receipts|
    ensures forall i :: 0 <= i < |r| && receipts[i].id == id ==> r[i] == receipts[i].(status := DecisionStatus(d))
    ensures forall i :: 0 <= i < |r| && receipts[i].id != id ==> r[i] == receipts[i]
  {
    ReplaceWhere(receipts, ReceiptWithId(id), (x: CashReceipt) => x.(status := DecisionStatus(d)))
  }

  /** Approve and Decline are offered only for a pending application. */
  predicate ActionsOffered(a: Application) {
    a.status == "Pending"
  }

  /**
   * After a review no application with the id offers actions any more, and
   * reviewing it again with the same decision changes nothing.
   */
  lemma ReviewSettlesApplication(apps: seq<Application>, id: string, d: Decision)
    ensures var r := ReviewApplications(apps, id, d);
      forall i :: 0 <= i < |r| && r[i].id == id ==> !ActionsOffered(r[i])
    ensures ReviewApplications(ReviewApplications(apps, id, d), id, d) == ReviewApplications(apps, id, d)
  {
    var r := ReviewApplications(apps, id, d);
    var r2 := ReviewApplications(r, id, d);
    forall i | 0 <= i < |r| ensures r2[i] == r[i] {
      if apps[i].id == id {
        assert r[i].id == id;
      }
    }
  }

  /** A later review of the same receipt overrides the earlier one. */
  lemma LastReceiptReviewWins(receipts: seq<CashReceipt>, id: string, d: Decision, e: Decision)
    ensures ReviewReceipts(ReviewReceipts(receipts, id, d), id, e) == ReviewReceipts(receipts, id, e)
  {
    var r := ReviewReceipts(receipts, id, d);
    var a := ReviewReceipts(r, id, e);
    var b := ReviewReceipts(receipts, id, e);
    forall i | 0 <= i < |receipts| ensures a[i] == b[i] {
      if receipts[i].id == id {
        assert r[i].id == id;
      }
    }
  }

  class Dashboard {
    var coverage: seq<Coverage>
    var applications: seq<Application>
    var receipts: seq<CashReceipt>
    var isLoading: bool

    constructor ()
      ensures coverage == [] && applications == [] && receipts == [] && !isLoading
    {
      coverage := [];
      applications := [];
      receipts := [];
      isLoading := false;
    }

    /** The three loaders: a successful answer replaces the list, anything else leaves it. */
    method LoadCoverage(response: Option<seq<Coverage>>)
      modifies this`coverage
      ensures coverage == if response.Some? then response.value else old(coverage)
    {
      if response.Some? {
        coverage := response.value;
      }
    }

    method LoadApplications(response: Option<seq<Application>>)
      modifies this`applications
      ensures applications == if response.Some? then response.value else old(applications)
    {
      if response.Some? {
        applications := response.value;
      }
    }

    method LoadReceipts(response: Option<seq<CashReceipt>>)
      modifies this`receipts
      ensures receipts == if response.Some? then response.value else old(receipts)
    {
      if response.Some? {
        receipts := response.value;
      }
    }

    /**
     * `handleToggleCoverage`: sends the id and the new flag; on success every
     * record with the id takes that flag. Loading is over afterwards.
     */
    method HandleToggleCoverage(id: string, success: bool) returns (sentStatus: bool)
      modifies this`coverage, this`isLoading
      ensures sentStatus == NewCoverageStatus(old(coverage), id)
      ensures coverage == if success then SetActive(old(coverage), id, sentStatus) else old(coverage)
      ensures !isLoading
    {
      isLoading := true;
      sentStatus := NewCoverageStatus(coverage, id);
      if success {
        coverage := SetActive(coverage, id, sentStatus);
      }
      isLoading := false;
    }

    /** Approve or decline a coverage application. */
    method ReviewApplication(id: string, d: Decision, userId: Option<string>, success: bool) returns (sent: StatusRequest)
      modifies this`applications, this`isLoading
      ensures sent == StatusRequest(id, DecisionStatus(d), OrElse(userId, "admin"))
      ensures applications == if success then ReviewApplications(old(applications), id, d) else old(applications)
      ensures !isLoading
    {
      isLoading := true;
      sent := StatusRequest(id, DecisionStatus(d), OrElse(userId, "admin"));
      if success {
        applications := ReviewApplications(applications, id, d);
      }
      isLoading := false;
    }

    /** Approve or decline a cash-payment receipt. */
    method ReviewReceipt(id: string, d: Decision, userId: Option<string>, success: bool) returns (sent: StatusRequest)
      modifies this`receipts, this`isLoading
      ensures sent == StatusRequest(id, DecisionStatus(d), OrElse(userId, "admin"))
      ensures receipts == if success then ReviewReceipts(old(receipts), id, d) else old(receipts)
      ensures !isLoading
    {
      isLoading := true;
      sent := StatusRequest(id, DecisionStatus(d), OrElse(userId, "admin"));
      if success {
        receipts := ReviewReceipts(receipts, id, d);
      }
      isLoading := false;
    }
  }
}
