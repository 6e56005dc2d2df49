/** The read-only reporters over the ledger: the per-client sums of the
    client list and client fetch, the newest-first scan, and the per-project
    payment statistics. Each scans a collection once and adds up what it
    finds, as the handlers' `reduce` calls do over the documents `find`
    returns. */
module Reports {
  import opened Common
  import opened Schema
  import opened Sums
  import opened Ledger

  /** What the client list and the client fetch add to each client. */
  datatype Summary = Summary(projectsCount: int, totalDealValue: int, totalAdvance: int, totalRemaining: int)

  /** The sums over the projects that name client `c`. */
  ghost function SummaryOf(ps: map<Id, ClientProject>, c: Id): Summary {
    Summary(|ProjectIdsOf(ps, c)|, EarningsOf(ps, c),
            Total(Weights(ps, c, Advance)), Total(Weights(ps, c, Remaining)))
  }

  lemma WeightsStep(ps: map<Id, ClientProject>, k: Id, c: Id, m: Measure)
    requires k in ps
    ensures Total(Weights(ps, c, m)) == Contribution(ps[k], c, m) + Total(Weights(ps - {k}, c, m))
  {
    assert Weights(ps - {k}, c, m) == Weights(ps, c, m) - {k};
    TotalRemove(Weights(ps, c, m), k);
  }

  /** `countDocuments({client: c})` is the sum of the count weights. */
  lemma CountIsProjects(ps: map<Id, ClientProject>, c: Id)
    ensures Total(Weights(ps, c, Count)) == |ProjectIdsOf(ps, c)|
  {
    TotalCounts(Weights(ps, c, Count));
    assert Ones(Weights(ps, c, Count)) == ProjectIdsOf(ps, c);
  }

  /** One scan over the projects: the count of client `c`'s projects and
      the sums of their `totalAmount`, `advancePaid` and `remainingAmount`. */
  method SummarizeClient(ps: map<Id, ClientProject>, c: Id) returns (s: Summary)
    ensures s == SummaryOf(ps, c)
  {
    var count, deal, advance, remaining := 0, 0, 0, 0;
    var rest := ps;
    while rest != map[]
      invariant count + Total(Weights(rest, c, Count)) == Total(Weights(ps, c, Count))
      invariant deal + Total(Weights(rest, c, DealValue)) == Total(Weights(ps, c, DealValue))
      invariant advance + Total(Weights(rest, c, Advance)) == Total(Weights(ps, c, Advance))
      invariant remaining + Total(Weights(rest, c, Remaining)) == Total(Weights(ps, c, Remaining))
      decreases rest.Keys
    {
      var k :| k in rest;
      var p := rest[k];
      WeightsStep(rest, k, c, Count);
      WeightsStep(rest, k, c, DealValue);
      WeightsStep(rest, k, c, Advance);
      WeightsStep(rest, k, c, Remaining);
      if p.client == c {
        count, deal := count + 1, deal + p.totalAmount;
        advance, remaining := advance + p.advancePaid, remaining + p.remainingAmount;
      }
      rest := rest - {k};
    }
    assert Weights(rest, c, Count) == map[] && Weights(rest, c, DealValue) == map[];
    assert Weights(rest, c, Advance) == map[] && Weights(rest, c, Remaining) == map[];
    CountIsProjects(ps, c);
    s := Summary(count, deal, advance, remaining);
  }

  /** While the earnings are consistent, a client's reported deal value is
      its cached `totalEarnings`. */
  lemma DealValueIsEarnings(clients: map<Id, Client>, ps: map<Id, ClientProject>, c: Id)
    requires EarningsConsistent(clients, ps) && c in clients
    ensures SummaryOf(ps, c).totalDealValue == clients[c].totalEarnings
  {
  }

  /** While every project is balanced, a client's reported remaining amount
      is its deal value less its advance. */
  lemma RemainingIsDealLessAdvance(ps: map<Id, ClientProject>, c: Id)
    requires Balanced(ps)
    ensures SummaryOf(ps, c).totalRemaining == SummaryOf(ps, c).totalDealValue - SummaryOf(ps, c).totalAdvance
  {
    TotalDifference(Weights(ps, c, Remaining), Weights(ps, c, DealValue), Weights(ps, c, Advance));
  }

  /** One row of the client list. */
  datatype ClientRow = ClientRow(id: Id, client: Client, summary: Summary)

  /** The client list: every client, newest first, each with its sums. */
  method ListClients(clients: map<Id, Client>, ps: map<Id, ClientProject>, bound: nat) returns (rows: seq<ClientRow>)
    requires forall k :: k in clients ==> k < bound
    ensures forall i :: 0 <= i < |rows| ==>
              rows[i].id in clients && rows[i].client == clients[rows[i].id]
              && rows[i].summary == SummaryOf(ps, rows[i].id)
    ensures forall k :: k in clients ==> exists i :: 0 <= i < |rows| && rows[i].id == k
    ensures forall i, j :: 0 <= i < j < |rows| ==> rows[i].id > rows[j].id
  {
    var ids := NewestFirst(clients, bound, (c: Client) => true);
    rows := [];
    var i := 0;
    while i < |ids|
      invariant i <= |ids| && |rows| == i
      invariant forall j :: 0 <= j < i ==>
                  rows[j].id == ids[j] && rows[j].client == clients[ids[j]]
                  && rows[j].summary == SummaryOf(ps, ids[j])
    {
      var s := SummarizeClient(ps, ids[i]);
      rows := rows + [ClientRow(ids[i], clients[ids[i]], s)];
      i := i + 1;
    }
    forall k | k in clients
      ensures exists j :: 0 <= j < |rows| && rows[j].id == k
    {
      var j :| 0 <= j < |ids| && ids[j] == k;
      assert rows[j].id == k;
    }
  }

  /* ---------------- Project statistics ---------------- */

  /** `completionPercentage`: 0 when `totalAmount` is not positive,
      otherwise the ratio advancePaid / totalAmount (whose percentage
      formatting is not modelled). */
  datatype Completion = Zero | Ratio(paid: int, total: int)

  datatype Stats = Stats(
    totalAmount: int,
    advancePaid: int,
    remainingAmount: int,
    totalPayments: int,
    paymentCount: int,
    completion: Completion,
    status: string,
    isCompleted: bool)

  /** Each payment's amount if it is for project `pid`, else 0. */
  function PaidWeights(pays: map<Id, Payment>, pid: Id): (w: map<Id, int>)
    ensures w.Keys == pays.Keys
  {
    map k | k in pays :: if pays[k].project == pid then pays[k].amount else 0
  }

  /** One for each payment for project `pid`, else 0. */
  function PaymentCountWeights(pays: map<Id, Payment>, pid: Id): (w: map<Id, int>)
    ensures w.Keys == pays.Keys
  {
    map k | k in pays :: if pays[k].project == pid then 1 else 0
  }

  /** The ids of the payments for project `pid`. */
  function PaymentIdsOf(pays: map<Id, Payment>, pid: Id): set<Id> {
    set k | k in pays && pays[k].project == pid
  }

  /** The statistics of project `pid`, or None (404) when it is absent. */
  method ProjectStats(ps: map<Id, ClientProject>, pays: map<Id, Payment>, pid: Id) returns (r: Option<Stats>)
    ensures r.None? <==> pid !in ps
    ensures r.Some? ==>
              var p := ps[pid];
              && r.value.totalAmount == p.totalAmount
              && r.value.advancePaid == p.advancePaid
              && r.value.remainingAmount == p.remainingAmount
              && r.value.status == p.status
              && r.value.totalPayments == Total(PaidWeights(pays, pid))
              && r.value.paymentCount == |PaymentIdsOf(pays, pid)|
              && (r.value.completion == Zero <==> p.totalAmount <= 0)
              && (r.value.completion != Zero ==> r.value.completion == Ratio(p.advancePaid, p.totalAmount))
              && (r.value.isCompleted <==> p.remainingAmount == 0)
    ensures r.Some? && Balanced(ps) ==> (r.value.isCompleted <==> ps[pid].advancePaid == ps[pid].totalAmount)
  {
    if pid !in ps {
      return None;
    }
    var p := ps[pid];
    var total, count := 0, 0;
    var rest := pays;
    while rest != map[]
      invariant total + Total(PaidWeights(rest, pid)) == Total(PaidWeights(pays, pid))
      invariant count + Total(PaymentCountWeights(rest, pid)) == Total(PaymentCountWeights(pays, pid))
      decreases rest.Keys
    {
      var k :| k in rest;
      assert PaidWeights(rest - {k}, pid) == PaidWeights(rest, pid) - {k};
      assert PaymentCountWeights(rest - {k}, pid) == PaymentCountWeights(rest, pid) - {k};
      TotalRemove(PaidWeights(rest, pid), k);
      TotalRemove(PaymentCountWeights(rest, pid), k);
      if rest[k].project == pid {
        total, count := total + rest[k].amount, count + 1;
      }
      rest := rest - {k};
    }
    assert PaidWeights(rest, pid) == map[] && PaymentCountWeights(rest, pid) == map[];
    TotalCounts(PaymentCountWeights(pays, pid));
    assert Ones(PaymentCountWeights(pays, pid)) == PaymentIdsOf(pays, pid);
    var completion := if p.totalAmount > 0 then Ratio(p.advancePaid, p.totalAmount) else Zero;
    r := Some(Stats(p.totalAmount, p.advancePaid, p.remainingAmount, total, count,
                    completion, p.status, p.remainingAmount == 0));
  }

  /** Recording payment `q` under a fresh id and applying its `$inc` raises
      the project's payment total and its `advancePaid` by the same amount,
      so their difference is unchanged. */
  lemma AddPaymentKeepsUnallocated(ps: map<Id, ClientProject>, pays: map<Id, Payment>, id: Id, q: Payment)
    requires id !in pays && q.project in ps
    ensures IncPaid(ps, q.project, q.amount)[q.project].advancePaid - Total(PaidWeights(pays[id := q], q.project))
            == ps[q.project].advancePaid - Total(PaidWeights(pays, q.project))
  {
    assert PaidWeights(pays[id := q], q.project) == PaidWeights(pays, q.project)[id := q.amount];
    TotalInsert(PaidWeights(pays, q.project), id, q.amount);
  }

  /** Deleting payment `id` and reverting its `$inc` lowers the project's
      payment total and its `advancePaid` by the same amount. */
  lemma DeletePaymentKeepsUnallocated(ps: map<Id, ClientProject>, pays: map<Id, Payment>, id: Id)
    requires id in pays && pays[id].project in ps
    ensures var pid := pays[id].project;
            IncPaid(ps, pid, -pays[id].amount)[pid].advancePaid - Total(PaidWeights(pays - {id}, pid))
            == ps[pid].advancePaid - Total(PaidWeights(pays, pid))
  {
    var pid := pays[id].project;
    assert PaidWeights(pays - {id}, pid) == PaidWeights(pays, pid) - {id};
    TotalRemove(PaidWeights(pays, pid), id);
  }
}
