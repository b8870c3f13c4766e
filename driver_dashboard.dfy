/** The driver's dashboard: the driver's jobs in run order, split into current
    and completed jobs, the expandable detail rows of a job and the action
    buttons under them. */
module DriverDashboard {
  import opened Js
  import opened Sorting

  /** `job.job_order || 999` for the integer `job_order` column: a job without a
      place in the run goes last. */
  function RunOrder(job: Record): int {
    var v := Get(job, "job_order");
    if Truthy(v) && v.Num? then v.n else 999
  }

  /** The comparator `(a, b) => (a.job_order || 999) - (b.job_order || 999)`. */
  function ByRunOrder(): (le: (Record, Record) -> bool)
    ensures TotalPreorder(le)
  {
    (a: Record, b: Record) => RunOrder(a) <= RunOrder(b)
  }

  /** `(activeJobs || []).sort(...)`: the fetched jobs, or none when the query
      returned nothing. */
  function OrderedJobs(active: Option<seq<Record>>): (r: seq<Record>)
    ensures active.None? ==> r == []
    ensures active.Some? ==> multiset(r) == multiset(active.value)
    ensures forall i, j :: 0 <= i < j < |r| ==> RunOrder(r[i]) <= RunOrder(r[j])
  {
    if active.None? then [] else SortBy(active.value, ByRunOrder())
  }

  /** The date picker: `null` until a date is picked and after Clear; an
      emptied picker gives `''`, which filters nothing either. */
  predicate OnDate(selected: Option<string>, job: Record) {
    selected.None? || selected.value == "" || StrictEq(Get(job, "date_of_service"), Str(selected.value))
  }

  /** `jobs.filter(j => !j.job_complete).filter(j => !selectedDate || j.date_of_service === selectedDate)` */
  function CurrentJobs(jobs: seq<Record>, selected: Option<string>): seq<Record> {
    Keep(Keep(jobs, (j: Record) => !Truthy(Get(j, "job_complete"))), (j: Record) => OnDate(selected, j))
  }

  /** `jobs.filter(j => j.job_complete)` */
  function CompletedJobs(jobs: seq<Record>): seq<Record> {
    Keep(jobs, (j: Record) => Truthy(Get(j, "job_complete")))
  }

  /** Current jobs are the unfinished jobs on the picked date, each as often
      as it occurs. */
  lemma CurrentMembers(jobs: seq<Record>, selected: Option<string>, x: Record)
    ensures multiset(CurrentJobs(jobs, selected))[x]
      == if !Truthy(Get(x, "job_complete")) && OnDate(selected, x) then multiset(jobs)[x] else 0
  {
    var p := (j: Record) => !Truthy(Get(j, "job_complete"));
    KeepCount(jobs, p);
    KeepCount(Keep(jobs, p), (j: Record) => OnDate(selected, j));
  }

  /** Current jobs keep the run order. */
  lemma CurrentOrdered(jobs: seq<Record>, selected: Option<string>)
    requires Sorted(jobs, ByRunOrder())
    ensures forall i, j :: 0 <= i < j < |CurrentJobs(jobs, selected)| ==>
      RunOrder(CurrentJobs(jobs, selected)[i]) <= RunOrder(CurrentJobs(jobs, selected)[j])
  {
    var p := (j: Record) => !Truthy(Get(j, "job_complete"));
    var q := (j: Record) => OnDate(selected, j);
    KeepSorted(jobs, p, ByRunOrder());
    KeepSorted(Keep(jobs, p), q, ByRunOrder());
    assert Sorted(CurrentJobs(jobs, selected), ByRunOrder());
  }

  /** With no date picked, every job is either current or completed, never both. */
  lemma Partition(jobs: seq<Record>)
    ensures multiset(CurrentJobs(jobs, None)) + multiset(CompletedJobs(jobs)) == multiset(jobs)
    ensures forall x :: !(x in CurrentJobs(jobs, None) && x in CompletedJobs(jobs))
  {
    var c := CurrentJobs(jobs, None);
    var d := CompletedJobs(jobs);
    KeepCount(jobs, (j: Record) => Truthy(Get(j, "job_complete")));
    forall x ensures (multiset(c) + multiset(d))[x] == multiset(jobs)[x] {
      CurrentMembers(jobs, None, x);
    }
    forall x ensures !(x in c && x in d) {
      CurrentMembers(jobs, None, x);
      assert x in c <==> multiset(c)[x] > 0;
      assert x in d <==> multiset(d)[x] > 0;
    }
  }

  /** `setExpandedJobId(expandedJobId === jobId ? null : jobId)` */
  function ToggleExpand(expanded: Value, id: Value): Value {
    if StrictEq(expanded, id) then Null else id
  }

  /** A job id (a number or a string) is compared with itself as equal. */
  predicate IsId(id: Value) {
    id.Num? || id.Str?
  }

  /** Toggling a job opens it exactly when it was not the open one, and a
      second toggle of the same job closes it again. */
  lemma ToggleSpec(expanded: Value, id: Value)
    requires IsId(id)
    ensures StrictEq(ToggleExpand(expanded, id), id) <==> !StrictEq(expanded, id)
    ensures !StrictEq(expanded, id) ==> ToggleExpand(ToggleExpand(expanded, id), id) == Null
  {
  }

  /** `renderBoolIcon`: strict comparison with `true` and `false`. */
  function BoolIcon(v: Value): (r: string)
    ensures r == "✅" <==> v == Bool(true)
    ensures r == "❌" <==> v == Bool(false)
    ensures r == "–" <==> !v.Bool?
  {
    if StrictEq(v, Bool(true)) then "✅"
    else if StrictEq(v, Bool(false)) then "❌"
    else "–"
  }

  /** The text of a detail row's value: booleans as icons, `null` and `''` as
      a dash, anything else as `String(value)`. */
  function DetailValue(v: Value): (r: string)
    ensures v.Bool? ==> r == BoolIcon(v)
    ensures !v.Bool? && v != Null && v != Str("") ==> r == ToStr(v)
    ensures !v.Bool? ==> (r == "–" <==> v == Null || v == Str("") || ToStr(v) == "–")
  {
    if v.Bool? then BoolIcon(v)
    else if v.Null? || v == Str("") then "–"
    else ToStr(v)
  }

  /** `key.replace(/_/g, ' ')` */
  function KeyLabel(key: string): (r: string)
    ensures |r| == |key| && '_' !in r
    ensures forall i :: 0 <= i < |key| && key[i] != '_' ==> r[i] == key[i]
    ensures forall i :: 0 <= i < |key| && key[i] == '_' ==> r[i] == ' '
  {
    seq(|key|, i requires 0 <= i < |key| => if key[i] == '_' then ' ' else key[i])
  }

  /** The keys a detail panel leaves out: none for completed jobs. */
  predicate Hidden(current: bool, key: string) {
    current && (key == "created_at" || key == "driver_id")
  }

  /** The detail rows of an expanded job, by key: caption and text. */
  function DetailRows(job: Record, current: bool): (rows: map<string, (string, string)>)
    ensures forall k :: k in rows <==> k in job && !Hidden(current, k)
    ensures forall k :: k in rows ==> rows[k] == (KeyLabel(k), DetailValue(job[k]))
  {
    map k | k in job && !Hidden(current, k) :: (KeyLabel(k), DetailValue(job[k]))
  }

  /** The buttons under an expanded current job. */
  datatype Actions = Actions(newWtn: bool, markComplete: bool, markPaid: bool)

  function ActionsFor(job: Record): (a: Actions)
    ensures a.newWtn != a.markComplete
    ensures a.newWtn <==> !Truthy(Get(job, "waste_transfer_note_complete"))
    ensures a.markPaid <==> !Truthy(Get(job, "paid"))
  {
    if !Truthy(Get(job, "waste_transfer_note_complete")) then Actions(true, false, !Truthy(Get(job, "paid")))
    else Actions(false, true, !Truthy(Get(job, "paid")))
  }
}
