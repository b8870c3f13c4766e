/** The admin dashboard: the three KPI counts, the driver-name lookup of its
    tables, and the quick-edit drawer for a job's payment and invoice flags. */
module AdminDashboard {
  import opened Js
  import Bookings
  import opened Sorting

  /** The KPI tiles. */
  datatype Kpi = Kpi(todays: nat, needInvoicing: nat, unpaid: nat)

  /** `kpi`: the sizes of today's, the needs-invoicing and the unpaid lists. */
  function KpiOf(jobsToday: seq<Record>, invoiceJobs: seq<Record>, unpaidJobs: seq<Record>): (k: Kpi)
  {
    Kpi(|jobsToday|, |invoiceJobs|, |unpaidJobs|)
  }

  /** `.eq('date_of_service', dateStr)` */
  predicate OnDay(date: string, job: Record) {
    Get(job, "date_of_service") == Str(date)
  }

  /** The date filter as a function value, so that every use names the same one. */
  function OnDayOf(date: string): Record -> bool {
    (job: Record) => OnDay(date, job)
  }

  /** `.eq('paid', false)`: a job whose `paid` is `null` is not matched. */
  predicate Unpaid(job: Record) {
    Get(job, "paid") == Bool(false)
  }

  /** `.eq('invoice_required', true).eq('invoice_sent', false)` */
  predicate NeedsInvoice(job: Record) {
    Get(job, "invoice_required") == Bool(true) && Get(job, "invoice_sent") == Bool(false)
  }

  /** The row cap of the unpaid and needs-invoicing queries. */
  const RowLimit: nat := 20

  /** `.limit(n)`: the first `n` rows the query matched. */
  function Limit(rows: seq<Record>, n: nat): (r: seq<Record>)
    ensures |r| == if |rows| <= n then |rows| else n
    ensures r <= rows
  {
    if |rows| <= n then rows else rows[..n]
  }

  /** The three job lists of the dashboard. */
  datatype Blocks = Blocks(today: seq<Record>, unpaid: seq<Record>, needInvoicing: seq<Record>)

  /** `fetchBlocks(dateStr)`: three queries on the one `jobs` table. Today's
      list holds every job on the date; the other two lists hold at most
      `RowLimit` matching jobs, and every matching job while fewer than that
      match. */
  function FetchBlocks(jobs: seq<Record>, date: string): (b: Blocks)
    ensures forall x :: multiset(b.today)[x] == if OnDay(date, x) then multiset(jobs)[x] else 0
    ensures |b.unpaid| <= RowLimit && |b.needInvoicing| <= RowLimit
    ensures forall x :: x in b.unpaid ==> x in jobs && Unpaid(x)
    ensures forall x :: x in b.needInvoicing ==> x in jobs && NeedsInvoice(x)
    ensures |b.unpaid| < RowLimit ==>
      forall x :: multiset(b.unpaid)[x] == if Unpaid(x) then multiset(jobs)[x] else 0
    ensures |b.needInvoicing| < RowLimit ==>
      forall x :: multiset(b.needInvoicing)[x] == if NeedsInvoice(x) then multiset(jobs)[x] else 0
  {
    var unpaid := Keep(jobs, Unpaid);
    var needInv := Keep(jobs, NeedsInvoice);
    KeepCount(jobs, OnDayOf(date));
    KeepCount(jobs, Unpaid);
    KeepCount(jobs, NeedsInvoice);
    forall x | x in Limit(unpaid, RowLimit) ensures x in jobs && Unpaid(x) {
      KeepMembers(jobs, Unpaid, x);
    }
    forall x | x in Limit(needInv, RowLimit) ensures x in jobs && NeedsInvoice(x) {
      KeepMembers(jobs, NeedsInvoice, x);
    }
    Blocks(Keep(jobs, OnDayOf(date)), Limit(unpaid, RowLimit), Limit(needInv, RowLimit))
  }

  /** The tiles count the jobs their queries match: every job on the date,
      but at most `RowLimit` unpaid and `RowLimit` needs-invoicing jobs, so
      those two tiles stop at 20 however many jobs match. */
  lemma KpiCounts(jobs: seq<Record>, date: string)
    ensures var b := FetchBlocks(jobs, date);
      var k := KpiOf(b.today, b.needInvoicing, b.unpaid);
      var unpaid := |Keep(jobs, Unpaid)|;
      var needInv := |Keep(jobs, NeedsInvoice)|;
      && k.todays == |Keep(jobs, OnDayOf(date))|
      && k.unpaid == (if unpaid <= RowLimit then unpaid else RowLimit)
      && k.needInvoicing == (if needInv <= RowLimit then needInv else RowLimit)
  {
  }

  /** `drivers.find(d => d.id === id)?.name || '—'` */
  function DriverName(drivers: seq<Record>, id: Value): (r: Value)
    ensures (forall i :: 0 <= i < |drivers| ==> !StrictEq(Get(drivers[i], "id"), id)) ==> r == Str("—")
    ensures forall i ::
      (0 <= i < |drivers| && StrictEq(Get(drivers[i], "id"), id) && forall j :: 0 <= j < i ==> !StrictEq(Get(drivers[j], "id"), id))
      ==> r == Or(Get(drivers[i], "name"), Str("—"))
    ensures Truthy(r)
  {
    match Bookings.FindDriver(drivers, id)
    case None => Str("—")
    case Some(d) => Or(Get(d, "name"), Str("—"))
  }

  /** `openDrawer(job)`: the job with editable boolean copies of its three flags. */
  function DrawerCopy(job: Record): (d: Record)
    ensures Get(d, "_paid") == Bool(Truthy(Get(job, "paid")))
    ensures Get(d, "_invoice_required") == Bool(Truthy(Get(job, "invoice_required")))
    ensures Get(d, "_invoice_sent") == Bool(Truthy(Get(job, "invoice_sent")))
    ensures forall k :: k != "_paid" && k != "_invoice_required" && k != "_invoice_sent" ==> Get(d, k) == Get(job, k)
  {
    job["_paid" := Bool(Truthy(Get(job, "paid")))]
       ["_invoice_required" := Bool(Truthy(Get(job, "invoice_required")))]
       ["_invoice_sent" := Bool(Truthy(Get(job, "invoice_sent")))]
  }

  /** The update `saveDrawer` sends: exactly the three flags, as booleans of the drawer copies. */
  function SavePayload(d: Record): (p: Record)
    ensures p.Keys == {"paid", "invoice_required", "invoice_sent"}
    ensures p["paid"] == Bool(Truthy(Get(d, "_paid")))
    ensures p["invoice_required"] == Bool(Truthy(Get(d, "_invoice_required")))
    ensures p["invoice_sent"] == Bool(Truthy(Get(d, "_invoice_sent")))
  {
    map[
      "paid" := Bool(Truthy(Get(d, "_paid"))),
      "invoice_required" := Bool(Truthy(Get(d, "_invoice_required"))),
      "invoice_sent" := Bool(Truthy(Get(d, "_invoice_sent")))
    ]
  }

  /** Saving an unedited drawer writes back the job's own flags, as booleans. */
  lemma SaveUnedited(job: Record)
    ensures SavePayload(DrawerCopy(job)) == map[
      "paid" := Bool(Truthy(Get(job, "paid"))),
      "invoice_required" := Bool(Truthy(Get(job, "invoice_required"))),
      "invoice_sent" := Bool(Truthy(Get(job, "invoice_sent")))]
  {
    var d := DrawerCopy(job);
    assert Get(d, "_paid") == Bool(Truthy(Get(job, "paid")));
    assert Get(d, "_invoice_required") == Bool(Truthy(Get(job, "invoice_required")));
    assert Get(d, "_invoice_sent") == Bool(Truthy(Get(job, "invoice_sent")));
  }

  /** An update sent for row `id`. */
  datatype Sent = Sent(id: Value, payload: Record)

  /** The drawer's state. */
  class Drawer {
    var drawerOpen: bool
    var drawerJob: Option<Record>

    constructor ()
      ensures !drawerOpen && drawerJob.None?
    {
      drawerOpen := false;
      drawerJob := None;
    }

    /** `openDrawer(job)` */
    method Open(job: Record)
      modifies this
      ensures drawerOpen && drawerJob == Some(DrawerCopy(job))
    {
      drawerJob := Some(DrawerCopy(job));
      drawerOpen := true;
    }

    /** A Yes/No select in the drawer: `setDrawerJob(d => ({ ...d, [flag]: value === 'Yes' }))`. */
    method Choose(flag: string, value: string)
      requires drawerJob.Some?
      modifies this
      ensures drawerJob == Some(old(drawerJob.value)[flag := Bool(value == "Yes")])
      ensures drawerOpen == old(drawerOpen)
    {
      drawerJob := Some(drawerJob.value[flag := Bool(value == "Yes")]);
    }

    /** `saveDrawer()`: nothing without a drawer job; otherwise the three flags
        are sent for the job's id and the drawer closes and empties. */
    method Save() returns (sent: Option<Sent>)
      modifies this
      ensures old(drawerJob).None? ==> sent.None? && drawerOpen == old(drawerOpen) && drawerJob.None?
      ensures old(drawerJob).Some? ==>
        sent == Some(Sent(Get(old(drawerJob).value, "id"), SavePayload(old(drawerJob).value)))
        && !drawerOpen && drawerJob.None?
    {
      if drawerJob.None? {
        return None;
      }
      var d := drawerJob.value;
      var payload := map[
        "paid" := Bool(Truthy(Get(d, "_paid"))),
        "invoice_required" := Bool(Truthy(Get(d, "_invoice_required"))),
        "invoice_sent" := Bool(Truthy(Get(d, "_invoice_sent")))
      ];
      sent := Some(Sent(Get(d, "id"), payload));
      drawerOpen := false;
      drawerJob := None;
    }
  }

  /** `boolChip`: strict comparison with `true` and `false`. */
  function BoolChip(v: Value): (r: string)
    ensures r == "Yes" <==> v == Bool(true)
    ensures r == "No" <==> v == Bool(false)
    ensures r == "—" <==> !v.Bool?
  {
    if StrictEq(v, Bool(true)) then "Yes"
    else if StrictEq(v, Bool(false)) then "No"
    else "—"
  }
}
