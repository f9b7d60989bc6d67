/** The plugin's `global` as an object whose fields the jobs update in place.
    Each method performs one invocation of the corresponding job of the
    plugin and is proved to agree with the step function in steps.dfy; the
    HTTP response (or the outcome of the PostHog post) is a parameter, and the
    jobs the step schedules through `runIn` are returned. */
module Plugin {
  import opened Types
  import opened Setup
  import opened ReportItems
  import opened Steps
  import opened Projection
  import opened Orchestrator

  class Pipeline {
    var baseUrl: string
    var resultsPerPage: nat
    var campaigns: seq<Campaign>
    var campaignsTotal: Option<int>
    var campaignsState: LoadState
    var reports: seq<ReportEntry>
    var reportsState: LoadState
    var batchState: BatchState

    /** The value of `global`. */
    function State(): Global
      reads this
    {
      Global(baseUrl, resultsPerPage, campaigns, campaignsTotal, campaignsState, reports, reportsState, batchState)
    }

    /** A convenience with no counterpart in the plugin: an object to call
        `Setup` on, standing for the bare `global` the host hands over. */
    constructor ()
      ensures campaigns == [] && reports == []
    {
      baseUrl, resultsPerPage := "", 0;
      campaigns, campaignsTotal, campaignsState := [], None, Null;
      reports, reportsState, batchState := [], Null, Idle;
    }

    /** `setupPlugin`: rejects missing keys and a Mailchimp key without a
        data-center suffix, leaving `global` as it was; otherwise stores the
        base URL and the initial, empty state. */
    method Setup(mcApiKey: Option<string>, phApiKey: Option<string>) returns (result: SetupResult)
      modifies this
      ensures result == ParseConfig(mcApiKey, phApiKey)
      ensures result.Rejected? ==> unchanged(this)
      ensures result.Configured? ==> State() == InitialGlobal(result.baseUrl)
    {
      if !IsSet(mcApiKey) || !IsSet(phApiKey) {
        return Rejected(MissingKeys);
      }
      var dataCenter := ParseDataCenter(mcApiKey.value);
      if dataCenter.None? {
        return Rejected(InvalidApiKey);
      }
      baseUrl := BaseUrl(dataCenter.value);
      resultsPerPage := 1000;
      campaigns, campaignsTotal, campaignsState := [], None, Null;
      reports, reportsState := [], Null;
      batchState := Idle;
      result := Configured(baseUrl);
    }

    /** `jobs.fetchCampaigns`, given the response to its request. */
    method FetchCampaigns(resp: Response<Campaign>) returns (offset: Option<nat>, scheduled: seq<Job>)
      modifies this
      ensures FetchStep(State(), offset, scheduled) == FetchCampaignsStep(old(State()), resp)
    {
      if campaignsState == Error || campaignsState == Loaded {
        return None, [];
      }
      campaignsState := Loading;
      offset := Some(|campaigns|);
      scheduled := [];
      match resp {
        case FetchFailed =>
          campaignsState := Error;
        case Fetched(list, total) =>
          if list.None? {
            // the retry is scheduled, then spreading the missing list throws
            scheduled := [Job.FetchCampaigns];
            campaignsState := Error;
            return;
          }
          campaigns := campaigns + list.value;
          campaignsTotal := Some(total);
          if |campaigns| >= total {
            campaignsState := Loaded;
          } else {
            scheduled := [Job.FetchCampaigns];
          }
      }
    }

    /** `jobs.fetchReports({ campaignId, campaignQueue })`, given the response
        to its request. */
    method FetchReports(campaignId: string, queue: seq<string>, resp: Response<EmailRecord>)
      returns (offset: Option<nat>, scheduled: seq<Job>)
      modifies this
      ensures FetchStep(State(), offset, scheduled) == FetchReportsStep(old(State()), campaignId, queue, resp)
    {
      if reportsState == Error || reportsState == Loaded {
        return None, [];
      }
      reportsState := Loading;
      reports := EnsureReport(reports, campaignId);
      var current := Lookup(reports, campaignId).value;
      offset := Some(|current.emails|);
      scheduled := [];
      match resp {
        case FetchFailed =>
          reportsState := Error;
        case Fetched(list, total) =>
          if list.None? {
            scheduled := [Job.FetchReports(campaignId, queue)];
            reportsState := Error;
            return;
          }
          var emails := current.emails + list.value;
          reports := Put(reports, campaignId, Report(emails, Some(total)));
          if |emails| >= total {
            var rest := queue;
            var next: Option<string> := None;
            if rest != [] {
              next, rest := Some(rest[0]), rest[1..];
            }
            if next.Some? && next.value != "" {
              scheduled := [Job.FetchReports(next.value, rest)];
            } else {
              reportsState := Loaded;
            }
          } else {
            scheduled := [Job.FetchReports(campaignId, queue)];
          }
      }
    }

    /** `jobs.captureBatchEvents(events)`, given whether the post succeeds;
        returns the batch handed to the post. */
    method CaptureBatchEvents(events: seq<Event>, postSucceeds: bool)
      returns (attempted: seq<Event>, scheduled: seq<Job>)
      modifies this
      ensures DispatchStep(State(), attempted, scheduled) == CaptureBatchEventsStep(old(State()), events, postSucceeds)
    {
      if batchState == Failed {
        return [], [];
      }
      batchState := Sending;
      attempted := events[..Min(ChunkSize, |events|)];
      scheduled := [];
      if attempted != [] && !postSucceeds {
        // the post throws: nothing after it runs
        return;
      }
      var rest := if |events| > ChunkSize then events[ChunkSize..] else [];
      if rest != [] {
        scheduled := [Job.CaptureBatchEvents(rest)];
      } else {
        batchState := Idle;
      }
    }

    /** `runEveryMinute`: reads the states and returns the jobs it launches. */
    method RunEveryMinute() returns (jobs: seq<Job>)
      requires !StartsReportsWithoutCampaigns(State())
      ensures jobs == Launches(State())
    {
      jobs := [];
      if campaignsState == Null {
        jobs := jobs + [Job.FetchCampaigns];
      }
      if campaignsState == Loaded {
        if reportsState == Null {
          var queue := CampaignIds(campaigns);
          var first := queue[0];
          queue := queue[1..];
          jobs := jobs + [Job.FetchReports(first, queue)];
        }
        if reportsState == Loaded && batchState == Idle {
          var events := ProjectEvents(reports, campaigns);
          if events != [] {
            jobs := jobs + [Job.CaptureBatchEvents(events)];
          }
        }
      }
    }
  }
}
