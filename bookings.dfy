/** The admin bookings page: the index from job to waste transfer note, the
    driver-name lookup, the filtered and sorted live and archived job lists,
    archiving a job, and the choice between creating and editing a note. */
module Bookings {
  import opened Js
  import opened Sorting

  // ---------------------------------------------------------------------------
  // fetchWTNs

  /** The property name a note's `job_id` becomes in the index object. */
  function JobKey(row: Record): string {
    ToStr(Get(row, "job_id"))
  }

  /** `data.forEach(wtn => { map[wtn.job_id] = wtn.id })`: every job that has a
      note is in the index, nothing else is, and a job with several notes maps
      to the id of the last of them. */
  method IndexWtns(rows: seq<Record>) returns (index: map<string, Value>)
    ensures forall i :: 0 <= i < |rows| ==> JobKey(rows[i]) in index
    ensures forall s :: s in index ==> exists i :: 0 <= i < |rows| && JobKey(rows[i]) == s
    ensures forall i :: 0 <= i < |rows| && (forall j :: i < j < |rows| ==> JobKey(rows[j]) != JobKey(rows[i])) ==>
      index[JobKey(rows[i])] == Get(rows[i], "id")
  {
    index := map[];
    var n := 0;
    while n < |rows|
      invariant 0 <= n <= |rows|
      invariant forall i :: 0 <= i < n ==> JobKey(rows[i]) in index
      invariant forall s :: s in index ==> exists i :: 0 <= i < n && JobKey(rows[i]) == s
      invariant forall i :: 0 <= i < n && (forall j :: i < j < n ==> JobKey(rows[j]) != JobKey(rows[i])) ==>
        index[JobKey(rows[i])] == Get(rows[i], "id")
    {
      index := index[JobKey(rows[n]) := Get(rows[n], "id")];
      n := n + 1;
    }
  }

  // ---------------------------------------------------------------------------
  // getDriverName

  /** `drivers.find(d => d.id === id)`: the first driver whose id matches. */
  function FindDriver(drivers: seq<Record>, id: Value): (r: Option<Record>)
    ensures r.None? <==> forall i :: 0 <= i < |drivers| ==> !StrictEq(Get(drivers[i], "id"), id)
    ensures forall i ::
      (0 <= i < |drivers| && StrictEq(Get(drivers[i], "id"), id) && forall j :: 0 <= j < i ==> !StrictEq(Get(drivers[j], "id"), id))
      ==> r == Some(drivers[i])
    decreases |drivers|
  {
    if drivers == [] then None
    else if StrictEq(Get(drivers[0], "id"), id) then Some(drivers[0])
    else
      var r := FindDriver(drivers[1..], id);
      assert forall i :: 1 <= i < |drivers| ==> drivers[i] == drivers[1..][i - 1];
      r
  }

  /** `getDriverName(id)`: the matching driver's `name`, or `'-'` when no driver matches. */
  function DriverName(drivers: seq<Record>, id: Value): Value {
    match FindDriver(drivers, id)
    case None => Str("-")
    case Some(d) => Get(d, "name")
  }

  // ---------------------------------------------------------------------------
  // filteredJobs and filteredArchivedJobs

  /** The five controls above a job table. */
  datatype Filters = Filters(search: string, paid: string, paymentType: string, driver: string, date: string)

  /** `Object.values(job).some(val => String(val).toLowerCase().includes(term.toLowerCase()))` */
  predicate SearchHit(job: Record, term: string) {
    exists k :: k in job && Contains(ToLower(ToStr(job[k])), ToLower(term))
  }

  /** `'All'`, else `'Paid'` wants `paid === true` and anything else `paid === false`. */
  predicate PaidOk(paid: string, job: Record) {
    paid == "All" || (if paid == "Paid" then StrictEq(Get(job, "paid"), Bool(true)) else StrictEq(Get(job, "paid"), Bool(false)))
  }

  predicate PaymentTypeOk(paymentType: string, job: Record) {
    paymentType == "All" || StrictEq(Get(job, "payment_type"), Str(paymentType))
  }

  predicate DriverOk(driver: string, job: Record) {
    driver == "" || StrictEq(Get(job, "driver_id"), Str(driver))
  }

  predicate DateOk(date: string, job: Record) {
    date == "" || StrictEq(Get(job, "date_of_service"), Str(date))
  }

  /** The lower-cased name of the job's driver, the sort key of both tables. */
  function DriverKey(drivers: seq<Record>, job: Record): string {
    ToLower(ToStr(DriverName(drivers, Get(job, "driver_id"))))
  }

  /** The comparator `getDriverName(a.driver_id).toLowerCase().localeCompare(...)`. */
  function ByDriver(drivers: seq<Record>): (le: (Record, Record) -> bool)
    ensures TotalPreorder(le)
  {
    LexPreorder();
    ByKey((job: Record) => DriverKey(drivers, job), LexLe);
    (a: Record, b: Record) => LexLe(DriverKey(drivers, a), DriverKey(drivers, b))
  }

  /** The jobs the five `.filter` calls leave, in their order. */
  function Filtered(jobs: seq<Record>, f: Filters): seq<Record> {
    var hits := Keep(jobs, (job: Record) => SearchHit(job, f.search));
    var paid := Keep(hits, (job: Record) => PaidOk(f.paid, job));
    var typed := Keep(paid, (job: Record) => PaymentTypeOk(f.paymentType, job));
    var driven := Keep(typed, (job: Record) => DriverOk(f.driver, job));
    Keep(driven, (job: Record) => DateOk(f.date, job))
  }

  /** The five `.filter` calls, then the `.sort`. */
  function FilteredJobs(jobs: seq<Record>, drivers: seq<Record>, f: Filters): seq<Record> {
    SortBy(Filtered(jobs, f), ByDriver(drivers))
  }

  /** A job passes all five filters. */
  predicate Passes(f: Filters, job: Record) {
    SearchHit(job, f.search) && PaidOk(f.paid, job) && PaymentTypeOk(f.paymentType, job)
    && DriverOk(f.driver, job) && DateOk(f.date, job)
  }

  /** The table is the passing jobs, each as often as it occurs, ordered by
      driver name. */
  lemma FilteredSpec(jobs: seq<Record>, drivers: seq<Record>, f: Filters)
    ensures var r := FilteredJobs(jobs, drivers, f);
      && (forall x :: multiset(r)[x] == if Passes(f, x) then multiset(jobs)[x] else 0)
      && (forall i, j :: 0 <= i < j < |r| ==> LexLe(DriverKey(drivers, r[i]), DriverKey(drivers, r[j])))
  {
    var hits := Keep(jobs, (job: Record) => SearchHit(job, f.search));
    var paid := Keep(hits, (job: Record) => PaidOk(f.paid, job));
    var typed := Keep(paid, (job: Record) => PaymentTypeOk(f.paymentType, job));
    var driven := Keep(typed, (job: Record) => DriverOk(f.driver, job));
    KeepCount(jobs, (job: Record) => SearchHit(job, f.search));
    KeepCount(hits, (job: Record) => PaidOk(f.paid, job));
    KeepCount(paid, (job: Record) => PaymentTypeOk(f.paymentType, job));
    KeepCount(typed, (job: Record) => DriverOk(f.driver, job));
    KeepCount(driven, (job: Record) => DateOk(f.date, job));
    assert Filtered(jobs, f) == Keep(driven, (job: Record) => DateOk(f.date, job));
  }

  /** A job is listed exactly when it is one of the jobs and passes the filters. */
  lemma FilteredMembers(jobs: seq<Record>, drivers: seq<Record>, f: Filters, x: Record)
    ensures x in FilteredJobs(jobs, drivers, f) <==> x in jobs && Passes(f, x)
  {
    FilteredSpec(jobs, drivers, f);
    var r := FilteredJobs(jobs, drivers, f);
    assert x in r <==> multiset(r)[x] > 0;
    assert x in jobs <==> multiset(jobs)[x] > 0;
  }

  /** The default controls constrain nothing beyond the search term. */
  lemma DefaultFilters(term: string, job: Record)
    ensures Passes(Filters(term, "All", "All", "", ""), job) <==> SearchHit(job, term)
  {
  }

  /** The paid filter compares strictly: only the boolean `true` is paid and
      only the boolean `false` unpaid, so a job with no `paid` value is neither. */
  lemma PaidFilterStrict(job: Record)
    ensures PaidOk("Paid", job) <==> Get(job, "paid") == Bool(true)
    ensures PaidOk("Unpaid", job) <==> Get(job, "paid") == Bool(false)
    ensures !Get(job, "paid").Bool? ==> !PaidOk("Paid", job) && !PaidOk("Unpaid", job)
  {
  }

  /** An empty search term matches every job that has at least one field. */
  lemma EmptySearch(job: Record)
    ensures SearchHit(job, "") <==> job != map[]
  {
    if job != map[] {
      var k :| k in job;
      assert [] <= ToLower(ToStr(job[k]));
      assert Contains(ToLower(ToStr(job[k])), ToLower(""));
    }
  }

  // ---------------------------------------------------------------------------
  // handleArchive and handleNewWTN

  /** `{ ...jobData, job_order: job.job_order || null }` where `{ id, ...jobData } = job`. */
  function ArchivedCopy(job: Record): (r: Record)
    ensures "id" !in r && "job_order" in r
    ensures r["job_order"] == if Truthy(Get(job, "job_order")) then Get(job, "job_order") else Null
    ensures forall k :: k != "id" && k != "job_order" ==> Get(r, k) == Get(job, k)
  {
    (job - {"id"})["job_order" := Or(Get(job, "job_order"), Null)]
  }

  /** The rows `delete().eq('id', id)` leaves: each row of `jobs` without
      that id, as often as it occurs, and nothing else. */
  function Remaining(jobs: seq<Record>, id: Value): (r: seq<Record>)
    ensures forall i :: 0 <= i < |r| ==> Get(r[i], "id") != id
    ensures forall x :: x in jobs && Get(x, "id") != id ==> x in r
    ensures forall x :: multiset(r)[x] == if Get(x, "id") != id then multiset(jobs)[x] else 0
  {
    var keep := (row: Record) => Get(row, "id") != id;
    var rest := Keep(jobs, keep);
    KeepCount(jobs, keep);
    forall x | x in jobs && Get(x, "id") != id ensures x in rest {
      KeepMembers(jobs, keep, x);
    }
    rest
  }

  /** The page state the two handlers change: the live and archived tables as
      last fetched, and the open modal with its selected job and note. */
  class Page {
    var jobs: seq<Record>
    var archivedJobs: seq<Record>
    var activeModal: Option<string>
    var selectedJob: Option<Record>
    var selectedWtn: Option<Record>

    constructor (jobs0: seq<Record>, archived0: seq<Record>)
      ensures jobs == jobs0 && archivedJobs == archived0
      ensures activeModal.None? && selectedJob.None? && selectedWtn.None?
    {
      jobs := jobs0;
      archivedJobs := archived0;
      activeModal := None;
      selectedJob := None;
      selectedWtn := None;
    }

    /** `handleArchive(job)`: the copy is inserted into the archive; only if
        that succeeds is the job deleted from the live table. The outcome of
        the delete is not checked, so a failed delete leaves the job both live
        and archived. */
    method HandleArchive(job: Record, insertOk: bool, deleteOk: bool)
      modifies this
      ensures insertOk ==> archivedJobs == old(archivedJobs) + [ArchivedCopy(job)]
      ensures insertOk && deleteOk ==> jobs == Remaining(old(jobs), Get(job, "id"))
      ensures insertOk && !deleteOk ==> jobs == old(jobs)
      ensures !insertOk ==> jobs == old(jobs) && archivedJobs == old(archivedJobs)
      ensures activeModal == old(activeModal) && selectedJob == old(selectedJob) && selectedWtn == old(selectedWtn)
    {
      var full := ArchivedCopy(job);
      if insertOk {
        archivedJobs := archivedJobs + [full];
        if deleteOk {
          jobs := Remaining(jobs, Get(job, "id"));
        }
      }
    }

    /** `handleNewWTN(job)`: the edit modal when a note exists for the job,
        otherwise the create modal, which leaves the previously selected note
        in place. */
    method HandleNewWtn(job: Record, existing: Option<Record>)
      modifies this
      ensures selectedJob == Some(job)
      ensures existing.Some? ==> activeModal == Some("editWtn") && selectedWtn == existing
      ensures existing.None? ==> activeModal == Some("createWtn") && selectedWtn == old(selectedWtn)
      ensures jobs == old(jobs) && archivedJobs == old(archivedJobs)
    {
      if existing.Some? {
        selectedWtn := existing;
        selectedJob := Some(job);
        activeModal := Some("editWtn");
      } else {
        selectedJob := Some(job);
        activeModal := Some("createWtn");
      }
    }
  }
}
