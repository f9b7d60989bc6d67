/** One invocation of each job of the plugin, as a function from the `global`
    before the step and the response the step's request got to the `global`
    after it, the request offset (if a request was made) and the jobs the step
    scheduled. The class in pipeline.dfy performs the same steps in place. */
module Steps {
  import opened Types
  import opened ReportItems

  /** Largest number of events sent to PostHog in one capture request. */
  const ChunkSize: nat := 20000

  function Min(a: nat, b: nat): nat { if a <= b then a else b }

  datatype FetchStep = FetchStep(after: Global, offset: Option<nat>, scheduled: seq<Job>)

  /** `jobs.fetchCampaigns`: a settled resource is left alone; otherwise the
      next page is requested at the offset of the campaigns already held and
      appended, `total_items` is stored, and the resource is loaded exactly when
      all items are held, or else the job reschedules itself. A failed request
      ends in `'error'`; so does a body without `campaigns`, whose retry job is
      scheduled before the spread throws. */
  function FetchCampaignsStep(g: Global, resp: Response<Campaign>): (r: FetchStep)
    ensures Settled(g.campaignsState) ==> r == FetchStep(g, None, [])
    ensures !Settled(g.campaignsState) ==> r.offset == Some(|g.campaigns|)
    ensures r.after.reports == g.reports && r.after.reportsState == g.reportsState
    ensures r.after.batchState == g.batchState
    ensures r.after.baseUrl == g.baseUrl && r.after.resultsPerPage == g.resultsPerPage
    ensures !Settled(g.campaignsState) && (resp.FetchFailed? || resp.list.None?) ==>
      r.after == g.(campaignsState := Error)
      && r.scheduled == if resp.FetchFailed? then [] else [FetchCampaigns]
    ensures !Settled(g.campaignsState) && resp.Fetched? && resp.list.Some? ==>
      && r.after.campaigns == g.campaigns + resp.list.value
      && r.after.campaignsTotal == Some(resp.total)
      && (r.after.campaignsState == Loaded <==> |g.campaigns| + |resp.list.value| >= resp.total)
      && (r.after.campaignsState == Loaded ==> r.scheduled == [])
      && (r.after.campaignsState != Loaded ==> r.after.campaignsState == Loading && r.scheduled == [FetchCampaigns])
  {
    if Settled(g.campaignsState) then FetchStep(g, None, [])
    else
      var offset := |g.campaigns|;
      match resp
      case FetchFailed => FetchStep(g.(campaignsState := Error), Some(offset), [])
      case Fetched(None, _) => FetchStep(g.(campaignsState := Error), Some(offset), [FetchCampaigns])
      case Fetched(Some(page), total) =>
        var items := g.campaigns + page;
        var stored := g.(campaigns := items, campaignsTotal := Some(total));
        if |items| >= total then FetchStep(stored.(campaignsState := Loaded), Some(offset), [])
        else FetchStep(stored.(campaignsState := Loading), Some(offset), [FetchCampaigns])
  }

  /** The emails held for a campaign (none if it has no report yet). */
  function HeldEmails(items: seq<ReportEntry>, campaignId: string): seq<EmailRecord>
  {
    match Lookup(items, campaignId)
    case None => []
    case Some(report) => report.emails
  }

  /** `if (!items[id]) items[id] = { emails: [], total_items: null }`. */
  function EnsureReport(items: seq<ReportEntry>, campaignId: string): (r: seq<ReportEntry>)
    ensures Lookup(r, campaignId).Some?
    ensures HeldEmails(r, campaignId) == HeldEmails(items, campaignId)
    ensures Lookup(items, campaignId).Some? ==> r == items
    ensures Lookup(items, campaignId).None? ==> Lookup(r, campaignId) == Some(Report([], None))
    ensures forall other :: other != campaignId ==> Lookup(r, other) == Lookup(items, other)
    ensures Keys(r) == if campaignId in Keys(items) then Keys(items) else Keys(items) + [campaignId]
  {
    LookupFinds(items, campaignId);
    if Lookup(items, campaignId).Some? then items
    else
      PutLookupSame(items, campaignId, Report([], None));
      PutLookupOthers(items, campaignId, Report([], None));
      PutKeys(items, campaignId, Report([], None));
      Put(items, campaignId, Report([], None))
  }

  /** Every key other than `id` keeps its report under `items[id] = report`. */
  lemma PutLookupOthers(items: seq<ReportEntry>, id: string, report: Report)
    ensures forall other :: other != id ==> Lookup(Put(items, id, report), other) == Lookup(items, other)
  {
    forall other | other != id
      ensures Lookup(Put(items, id, report), other) == Lookup(items, other)
    {
      PutLookupOther(items, id, report, other);
    }
  }

  /** `jobs.fetchReports({ campaignId, campaignQueue })`: a settled resource
      is left alone; otherwise the step works on `reports.items[campaignId]`
      only, creating it empty if absent, requests the page at the offset of
      the emails it holds and appends it. When the campaign is complete the
      head of the queue is shifted off: a non-empty id is fetched next with the
      rest of the queue, while an empty queue (or an empty id, which is falsy)
      marks the reports loaded. An incomplete campaign reschedules itself with
      the same queue. Errors are handled as for campaigns. */
  function FetchReportsStep(g: Global, campaignId: string, queue: seq<string>, resp: Response<EmailRecord>): (r: FetchStep)
    ensures Settled(g.reportsState) ==> r == FetchStep(g, None, [])
    ensures !Settled(g.reportsState) ==> r.offset == Some(|HeldEmails(g.reports, campaignId)|)
    ensures r.after.campaigns == g.campaigns && r.after.campaignsTotal == g.campaignsTotal
    ensures r.after.campaignsState == g.campaignsState && r.after.batchState == g.batchState
    ensures r.after.baseUrl == g.baseUrl && r.after.resultsPerPage == g.resultsPerPage
    ensures !Settled(g.reportsState) ==> Lookup(r.after.reports, campaignId).Some?
    ensures !Settled(g.reportsState) && (resp.FetchFailed? || resp.list.None?) ==>
      && r.after == g.(reportsState := Error, reports := EnsureReport(g.reports, campaignId))
      && HeldEmails(r.after.reports, campaignId) == HeldEmails(g.reports, campaignId)
      && r.scheduled == if resp.FetchFailed? then [] else [FetchReports(campaignId, queue)]
    ensures !Settled(g.reportsState) && resp.Fetched? && resp.list.Some? ==>
      var emails := HeldEmails(g.reports, campaignId) + resp.list.value;
      && Lookup(r.after.reports, campaignId) == Some(Report(emails, Some(resp.total)))
      && (|emails| < resp.total ==>
            r.after.reportsState == Loading && r.scheduled == [FetchReports(campaignId, queue)])
      && (|emails| >= resp.total && queue != [] && queue[0] != "" ==>
            r.after.reportsState == Loading && r.scheduled == [FetchReports(queue[0], queue[1..])])
      && (r.after.reportsState == Loaded <==> |emails| >= resp.total && (queue == [] || queue[0] == ""))
      && (r.after.reportsState == Loaded ==> r.scheduled == [])
  {
    if Settled(g.reportsState) then FetchStep(g, None, [])
    else
      var items := EnsureReport(g.reports, campaignId);
      var current := Lookup(items, campaignId).value;
      var loading := g.(reportsState := Loading, reports := items);
      var offset := |current.emails|;
      match resp
      case FetchFailed => FetchStep(loading.(reportsState := Error), Some(offset), [])
      case Fetched(None, _) => FetchStep(loading.(reportsState := Error), Some(offset), [FetchReports(campaignId, queue)])
      case Fetched(Some(page), total) =>
        var emails := current.emails + page;
        var report := Report(emails, Some(total));
        PutLookupSame(items, campaignId, report);
        var stored := loading.(reports := Put(items, campaignId, report));
        if |emails| >= total then
          if queue != [] && queue[0] != "" then FetchStep(stored, Some(offset), [FetchReports(queue[0], queue[1..])])
          else FetchStep(stored.(reportsState := Loaded), Some(offset), [])
        else FetchStep(stored, Some(offset), [FetchReports(campaignId, queue)])
  }

  /** A report job touches no campaign's report but its own. */
  lemma FetchReportsKeepsOthers(g: Global, campaignId: string, queue: seq<string>, resp: Response<EmailRecord>)
    ensures var r := FetchReportsStep(g, campaignId, queue, resp);
      forall other :: other != campaignId ==> Lookup(r.after.reports, other) == Lookup(g.reports, other)
  {
    if !Settled(g.reportsState) && resp.Fetched? && resp.list.Some? {
      var items := EnsureReport(g.reports, campaignId);
      var report := Report(Lookup(items, campaignId).value.emails + resp.list.value, Some(resp.total));
      PutLookupOthers(items, campaignId, report);
    }
  }

  /** A report job keeps the order of the campaigns already in
      `reports.items` and appends its own campaign if it was absent. */
  lemma FetchReportsKeys(g: Global, campaignId: string, queue: seq<string>, resp: Response<EmailRecord>)
    requires !Settled(g.reportsState)
    ensures var r := FetchReportsStep(g, campaignId, queue, resp);
      Keys(r.after.reports) == if campaignId in Keys(g.reports) then Keys(g.reports) else Keys(g.reports) + [campaignId]
  {
    if resp.Fetched? && resp.list.Some? {
      var items := EnsureReport(g.reports, campaignId);
      var report := Report(Lookup(items, campaignId).value.emails + resp.list.value, Some(resp.total));
      PutKeys(items, campaignId, report);
      assert campaignId in Keys(items);
    }
  }

  datatype DispatchStep = DispatchStep(after: Global, attempted: seq<Event>, scheduled: seq<Job>)

  /** `jobs.captureBatchEvents(events)`: nothing happens in state `'error'`;
      otherwise the first `ChunkSize` events are posted (no post for an empty
      list) and the rest is handed to a new job, or the state returns to
      `null` when nothing is left. `postSucceeds` says that the post call
      returned; one that returns, whatever its HTTP status, counts as
      succeeding. A post that throws does so before either branch, so the
      state stays `'sending'` and nothing is scheduled. No path sets `'error'`. */
  function CaptureBatchEventsStep(g: Global, events: seq<Event>, postSucceeds: bool): (r: DispatchStep)
    ensures g.batchState == Failed ==> r == DispatchStep(g, [], [])
    ensures r.after == g.(batchState := r.after.batchState)
    ensures r.after.batchState == Failed ==> g.batchState == Failed
    ensures g.batchState != Failed ==>
      && r.attempted == events[..Min(ChunkSize, |events|)]
      && |r.attempted| <= ChunkSize
      && events == r.attempted + events[|r.attempted|..]
    ensures g.batchState != Failed ==>
      (r.after.batchState == Idle <==> |events| <= ChunkSize && (postSucceeds || events == []))
    ensures g.batchState != Failed && r.after.batchState != Idle ==> r.after.batchState == Sending
    ensures r.scheduled != [] <==> g.batchState != Failed && |events| > ChunkSize && postSucceeds
    ensures r.scheduled != [] ==> r.scheduled == [CaptureBatchEvents(events[ChunkSize..])]
  {
    if g.batchState == Failed then DispatchStep(g, [], [])
    else
      var chunk := events[..Min(ChunkSize, |events|)];
      if chunk != [] && !postSucceeds then DispatchStep(g.(batchState := Sending), chunk, [])
      else if |events| > ChunkSize then
        DispatchStep(g.(batchState := Sending), chunk, [CaptureBatchEvents(events[ChunkSize..])])
      else DispatchStep(g.(batchState := Idle), chunk, [])
  }
}
