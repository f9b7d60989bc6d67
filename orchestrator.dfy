/** `runEveryMinute`: on every tick the plugin reads the states in `global`
    and launches at most one job. */
module Orchestrator {
  import opened Types
  import opened Setup
  import opened ReportItems
  import opened Projection
  import opened Steps
  import opened Runs

  /** `campaigns.items.map(({ id }) => id)`. */
  function CampaignIds(campaigns: seq<Campaign>): (ids: seq<string>)
    ensures |ids| == |campaigns|
    ensures forall k :: 0 <= k < |campaigns| ==> ids[k] == campaigns[k].id
  {
    if campaigns == [] then [] else [campaigns[0].id] + CampaignIds(campaigns[1..])
  }

  /** The tick would start the reports with no campaign to start from: the
      source then passes an `undefined` id, which this model does not cover. */
  predicate StartsReportsWithoutCampaigns(g: Global)
  {
    g.campaignsState == Loaded && g.reportsState == Null && g.campaigns == []
  }

  /** The jobs one tick launches. The campaigns are fetched only while their
      state is `null`; the reports only once the campaigns are loaded and the
      reports are `null`, starting from the first campaign with the others,
      in campaign order, as the queue; the events are projected and captured
      only once the reports are loaded, the batch state is `null` and there is
      at least one event. Every other combination launches nothing. */
  function Launches(g: Global): (jobs: seq<Job>)
    requires !StartsReportsWithoutCampaigns(g)
    ensures |jobs| <= 1
    ensures jobs == [FetchCampaigns] <==> g.campaignsState == Null
    ensures (jobs != [] && jobs[0].FetchReports?) <==> g.campaignsState == Loaded && g.reportsState == Null
    ensures jobs != [] && jobs[0].FetchReports? ==>
      [jobs[0].campaignId] + jobs[0].queue == CampaignIds(g.campaigns)
    ensures (jobs != [] && jobs[0].CaptureBatchEvents?) <==>
      && g.campaignsState == Loaded && g.reportsState == Loaded && g.batchState == Idle
      && EventsFromReports(g.reports, g.campaigns) != []
    ensures jobs != [] && jobs[0].CaptureBatchEvents? ==>
      jobs[0].events == EventsFromReports(g.reports, g.campaigns)
  {
    // the source tests `null` and `'loaded'` in two separate `if`s, of which
    // at most one holds
    if g.campaignsState == Null then [FetchCampaigns]
    else if g.campaignsState != Loaded then []
    else if g.reportsState == Null then
      var ids := CampaignIds(g.campaigns);
      [FetchReports(ids[0], ids[1..])]
    else if g.reportsState == Loaded && g.batchState == Idle then
      var events := EventsFromReports(g.reports, g.campaigns);
      if events != [] then [CaptureBatchEvents(events)] else []
    else []
  }

  /** Right after setup a tick fetches the campaigns. */
  lemma FirstTickFetchesCampaigns(baseUrl: string)
    ensures Launches(InitialGlobal(baseUrl)) == [FetchCampaigns]
  {
  }

  /** The reports phase, end to end: once the campaigns are loaded, a tick
      starts the report jobs on the first campaign with the others queued, and
      walking that queue against a server ends with the reports `'loaded'`,
      every campaign holding all the server's emails and only the reports
      changed; with distinct ids, `reports.items` lists the campaigns in
      campaign order. */
  lemma ReportsPhaseLoadsAll(g: Global, server: string -> seq<EmailRecord>)
    requires g.resultsPerPage > 0
    requires g.campaignsState == Loaded && g.reportsState == Null && g.reports == []
    requires g.campaigns != [] && forall k :: 0 <= k < |g.campaigns| ==> g.campaigns[k].id != ""
    ensures var ids := CampaignIds(g.campaigns);
      && Launches(g) == [FetchReports(ids[0], ids[1..])]
      && HeldPrefixes(g.reports, server)
      && var final := ReportRun(g, ids[0], ids[1..], server).0;
      && final == g.(reports := final.reports, reportsState := Loaded)
      && (forall c :: c in ids ==> HeldEmails(final.reports, c) == server(c))
      && ((forall i, j :: 0 <= i < j < |ids| ==> ids[i] != ids[j]) ==> Keys(final.reports) == ids)
  {
    WalkFromNoReports(g, CampaignIds(g.campaigns), server);
  }

  /** A walk over a queue of non-empty ids, started with no reports held,
      loads every id of the queue; distinct ids become the report keys in
      queue order. */
  lemma WalkFromNoReports(g: Global, ids: seq<string>, server: string -> seq<EmailRecord>)
    requires g.resultsPerPage > 0 && !Settled(g.reportsState) && g.reports == []
    requires ids != [] && forall k :: 0 <= k < |ids| ==> ids[k] != ""
    ensures HeldPrefixes(g.reports, server)
    ensures var final := ReportRun(g, ids[0], ids[1..], server).0;
      && final == g.(reports := final.reports, reportsState := Loaded)
      && (forall c :: c in ids ==> HeldEmails(final.reports, c) == server(c))
      && ((forall i, j :: 0 <= i < j < |ids| ==> ids[i] != ids[j]) ==> Keys(final.reports) == ids)
  {
    forall c ensures IsPrefix(HeldEmails(g.reports, c), server(c)) {
      assert HeldEmails(g.reports, c) == [];
    }
    var queue := ids[1..];
    assert forall k :: 0 <= k < |queue| ==> queue[k] == ids[k + 1];
    ReportRunLoadsAll(g, ids[0], queue, server);
    ReportRunKeys(g, ids[0], queue, server);
    assert [ids[0]] + queue == ids;
    forall c | c in ids ensures c == ids[0] || c in queue {
      var k :| 0 <= k < |ids| && ids[k] == c;
      if k > 0 { assert queue[k - 1] == c; }
    }
    if forall i, j :: 0 <= i < j < |ids| ==> ids[i] != ids[j] {
      AppendNewDistinct([], ids);
    }
  }

  /** Once the chain of capture jobs has drained and put the batch state back
      to `null`, the next tick projects the same events again and launches a
      new capture of all of them: the events are sent again on every tick. */
  lemma ResendAfterDrain(g: Global)
    requires g.campaignsState == Loaded && g.reportsState == Loaded && g.batchState == Idle
    requires EventsFromReports(g.reports, g.campaigns) != []
    ensures var events := EventsFromReports(g.reports, g.campaigns);
      && Launches(g) == [CaptureBatchEvents(events)]
      && Concat(DispatchChain(g, events).1) == events
      && DispatchChain(g, events).0 == g
      && Launches(DispatchChain(g, events).0) == [CaptureBatchEvents(events)]
  {
    DispatchChainSendsAll(g, EventsFromReports(g.reports, g.campaigns));
  }

  /** A failed post leaves the batch state at `'sending'`, so no later tick
      launches another capture. */
  lemma FailedPostStopsCapture(g: Global, events: seq<Event>)
    requires g.campaignsState == Loaded && g.reportsState == Loaded && g.batchState != Failed
    requires events != []
    ensures var after := CaptureBatchEventsStep(g, events, false).after;
      after.batchState == Sending && Launches(after) == []
  {
  }
}
