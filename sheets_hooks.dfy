/** The data hooks: the state each hook keeps, the sector and status views
    applied after a fetch, and the per-status request counts. What the
    awaited service call produced is an input to each fetch. */
module SheetsHooks {
  import opened Base
  import opened Seqs
  import opened GoogleSheets

  /** The sector view of `useExperts`: the filter applies only when the
      option is set to a non-empty string. */
  function SectorView(data: seq<Expert>, filterBySector: Option<string>): (r: seq<Expert>)
    ensures filterBySector.None? || filterBySector == Some("") ==> r == data
    ensures filterBySector.Some? && filterBySector.value != "" ==>
              r == WithSector(data, filterBySector.value)
  {
    if filterBySector.Some? && filterBySector.value != "" then WithSector(data, filterBySector.value)
    else data
  }

  function StatusIs(status: Status): Request -> bool {
    (q: Request) => q.status == status.Name()
  }

  /** `requests.filter(request => request.status === status)`. */
  function WithStatus(requests: seq<Request>, status: Status): (r: seq<Request>)
    ensures forall k :: 0 <= k < |r| ==> r[k].status == status.Name() && r[k] in requests
    ensures forall i :: 0 <= i < |requests| && requests[i].status == status.Name() ==> requests[i] in r
  {
    Filter(requests, StatusIs(status))
  }

  /** The status selection is the order-preserving subsequence at exactly
      the positions with that status. */
  lemma WithStatusKeepsOrder(requests: seq<Request>, status: Status)
    ensures var r := WithStatus(requests, status);
            var ix := KeptIndices(requests, StatusIs(status));
            |r| == |ix| &&
            (forall k :: 0 <= k < |r| ==> ix[k] < |requests| && r[k] == requests[ix[k]]) &&
            (forall k, l :: 0 <= k < l < |ix| ==> ix[k] < ix[l]) &&
            (forall i :: 0 <= i < |requests| ==> (i in ix <==> requests[i].status == status.Name()))
  {
    FilterIsKeptIndices(requests, StatusIs(status));
  }

  /** The status view of `useRequests`: the filter applies only when the
      option is set. */
  function StatusView(data: seq<Request>, filterByStatus: Option<Status>): (r: seq<Request>)
    ensures filterByStatus.None? ==> r == data
    ensures filterByStatus.Some? ==> r == WithStatus(data, filterByStatus.value)
  {
    if filterByStatus.Some? then WithStatus(data, filterByStatus.value) else data
  }

  /** The `stats` object of `useRequests`. */
  datatype RequestStats = RequestStats(
    total: nat,
    expertContacted: nat,
    matched: nat,
    completed: nat,
    declined: nat)

  /** The number of requests with a status. */
  function CountStatus(requests: seq<Request>, status: Status): nat {
    |WithStatus(requests, status)|
  }

  function StatsOf(requests: seq<Request>): (s: RequestStats)
    ensures s.total == |requests|
    ensures s.expertContacted == CountStatus(requests, ExpertContacted)
    ensures s.matched == CountStatus(requests, Matched)
    ensures s.completed == CountStatus(requests, Completed)
    ensures s.declined == CountStatus(requests, ExpertDeclined)
  {
    RequestStats(
      |requests|,
      CountStatus(requests, ExpertContacted),
      CountStatus(requests, Matched),
      CountStatus(requests, Completed),
      CountStatus(requests, ExpertDeclined))
  }

  function StatusSum(s: RequestStats): nat {
    s.expertContacted + s.matched + s.completed + s.declined
  }

  /** A status cell holding one of the four named statuses. */
  predicate Known(q: Request) {
    q.status in {ExpertContacted.Name(), Matched.Name(), ExpertDeclined.Name(), Completed.Name()}
  }

  /** Appending one request adds one to the count of its status. */
  lemma CountAppend(init: seq<Request>, last: Request, st: Status)
    ensures CountStatus(init + [last], st) == CountStatus(init, st) + (if last.status == st.Name() then 1 else 0)
  {
    FilterConcat(init, [last], StatusIs(st));
    assert [last][..0] == [];
  }

  /** Appending one request adds one to the sum of the four counts exactly
      when its status is one of the four. */
  lemma SumAppend(init: seq<Request>, last: Request)
    ensures StatusSum(StatsOf(init + [last])) == StatusSum(StatsOf(init)) + (if Known(last) then 1 else 0)
  {
    CountAppend(init, last, ExpertContacted);
    CountAppend(init, last, Matched);
    CountAppend(init, last, Completed);
    CountAppend(init, last, ExpertDeclined);
  }

  /** The four counts never exceed the total, and reach it exactly when
      every request's status is one of the four named values. */
  lemma {:induction false} StatusCountsBounded(requests: seq<Request>)
    ensures StatusSum(StatsOf(requests)) <= StatsOf(requests).total
    ensures StatusSum(StatsOf(requests)) == StatsOf(requests).total <==>
            forall k :: 0 <= k < |requests| ==> Known(requests[k])
    decreases |requests|
  {
    if requests != [] {
      var n := |requests| - 1;
      var init, last := requests[..n], requests[n];
      StatusCountsBounded(init);
      assert requests == init + [last];
      SumAppend(init, last);
      assert (forall k :: 0 <= k < |requests| ==> Known(requests[k])) <==>
             (forall k :: 0 <= k < n ==> Known(init[k])) && Known(last) by {
        assert forall k :: 0 <= k < n ==> init[k] == requests[k];
      }
    }
  }

  /** A run of copies of one request counts fully towards its status and
      nowhere else. */
  lemma CountUniform(s: seq<Request>, q: Request, st: Status)
    requires forall k :: 0 <= k < |s| ==> s[k] == q
    ensures CountStatus(s, st) == if q.status == st.Name() then |s| else 0
  {
    if q.status == st.Name() { FilterKeepsAll(s, StatusIs(st)); } else { FilterKeepsNone(s, StatusIs(st)); }
  }

  /** Seven requests, four matched, two completed, one declined: the
      counts are 4, 2, 1 and 0 of 7. */
  lemma StatsExample(m: Request, c: Request, d: Request)
    requires m.status == "matched" && c.status == "completed" && d.status == "expert_declined"
    ensures StatsOf([m, m, m, m, c, c, d]) == RequestStats(7, 0, 4, 2, 1)
  {
    var a, b, e := [m, m, m, m], [c, c], [d];
    assert [m, m, m, m, c, c, d] == a + b + e;
    forall st: Status
      ensures CountStatus(a + b + e, st) ==
              (if m.status == st.Name() then 4 else 0) + (if c.status == st.Name() then 2 else 0) +
              (if d.status == st.Name() then 1 else 0)
    {
      FilterConcat(a + b, e, StatusIs(st));
      FilterConcat(a, b, StatusIs(st));
      CountUniform(a, m, st);
      CountUniform(b, c, st);
      CountUniform(e, d, st);
    }
  }

  /** With a status filter active, that status accounts for every listed
      request and the other counts are zero. */
  lemma StatsUnderStatusFilter(data: seq<Request>, status: Status, other: Status)
    requires other != status
    ensures var s := StatsOf(StatusView(data, Some(status)));
            CountStatus(StatusView(data, Some(status)), status) == s.total &&
            CountStatus(StatusView(data, Some(status)), other) == 0
  {
    var view := StatusView(data, Some(status));
    FilterKeepsAll(view, StatusIs(status));
    assert status.Name() != other.Name();
    FilterKeepsNone(view, StatusIs(other));
  }

  /** The state of `useExperts`. */
  class ExpertsHook {
    var experts: seq<Expert>
    var loading: bool
    var error: Option<string>
    var refreshCount: nat

    constructor ()
      ensures experts == [] && loading && error == None && refreshCount == 0
    {
      experts := [];
      loading := true;
      error := None;
      refreshCount := 0;
    }

    /** `refreshExperts`: bumps the counter that re-runs the fetch. */
    method Refresh()
      modifies this
      ensures refreshCount == old(refreshCount) + 1
      ensures experts == old(experts) && loading == old(loading) && error == old(error)
    {
      refreshCount := refreshCount + 1;
    }

    /** One run of `fetchExperts`: `loading` is false afterwards whatever
        the outcome; on success the sector view replaces the list and the
        error clears; on failure the list stays and the error is set. */
    method Fetch(filterBySector: Option<string>, outcome: Read<seq<Expert>>)
      modifies this
      ensures !loading && refreshCount == old(refreshCount)
      ensures outcome.Ok? ==> experts == SectorView(outcome.value, filterBySector) && error.None?
      ensures outcome.Failed? ==> experts == old(experts) &&
                                  error == Some(FailureMessage(outcome.fault, "Failed to fetch experts"))
    {
      loading := true;
      match outcome {
        case Ok(data) =>
          var filtered := data;
          if filterBySector.Some? && filterBySector.value != "" {
            filtered := WithSector(data, filterBySector.value);
          }
          experts := filtered;
          error := None;
        case Failed(fault) =>
          error := Some(FailureMessage(fault, "Failed to fetch experts"));
      }
      loading := false;
    }
  }

  /** The error a hook records: the thrown `Error`'s message, or a fixed
      message for any other thrown value. */
  function FailureMessage(fault: Fault, fallback: string): string {
    match fault
    case ErrorValue(message) => message
    case OtherValue => fallback
  }

  /** The state of `useRequests`. */
  class RequestsHook {
    var requests: seq<Request>
    var loading: bool
    var error: Option<string>

    constructor ()
      ensures requests == [] && loading && error == None
    {
      requests := [];
      loading := true;
      error := None;
    }

    /** `stats`, computed from the current list. */
    function Stats(): (s: RequestStats)
      reads this
      ensures s == StatsOf(requests)
    {
      StatsOf(requests)
    }

    /** One run of `fetchRequests`, with the same flag discipline as
        `ExpertsHook.Fetch`. */
    method Fetch(filterByStatus: Option<Status>, outcome: Read<seq<Request>>)
      modifies this
      ensures !loading
      ensures outcome.Ok? ==> requests == StatusView(outcome.value, filterByStatus) && error.None?
      ensures outcome.Failed? ==> requests == old(requests) &&
                                  error == Some(FailureMessage(outcome.fault, "Failed to fetch requests"))
    {
      loading := true;
      match outcome {
        case Ok(data) =>
          var filtered := data;
          if filterByStatus.Some? {
            filtered := WithStatus(data, filterByStatus.value);
          }
          requests := filtered;
          error := None;
        case Failed(fault) =>
          error := Some(FailureMessage(fault, "Failed to fetch requests"));
      }
      loading := false;
    }
  }
}
