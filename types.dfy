/** Data model of the Mailchimp campaigns plugin: the records the remote API
    returns, the events sent to PostHog, the loading states kept between ticks,
    the jobs a step schedules, and a value snapshot of the plugin's `global`. */
module Types {

  datatype Option<+T> = None | Some(value: T)

  /** `ResourceLoadingState`: `null | 'loading' | 'loaded' | 'error'`. */
  datatype LoadState = Null | Loading | Loaded | Error

  /** A resource that a fetch step no longer advances. */
  predicate Settled(s: LoadState)
  {
    s == Loaded || s == Error
  }

  /** `BatchSendingState`: `null | 'sending' | 'error'`. The names differ
      from `LoadState`'s so that the constructors of both types can be used
      unqualified in this module: `Idle` is `null` and `Failed` is
      `'error'`. */
  datatype BatchState = Idle | Sending | Failed

  /** The `settings` object of a campaign, as the campaign request asks for it. */
  datatype CampaignSettings = CampaignSettings(subjectLine: string, title: string)

  /** One sent campaign, shaped as the campaign request's field list returns
      it: id, emails sent and send time at the top level, subject line and
      title nested under `settings`. */
  datatype Campaign = Campaign(
    id: string,
    emailsSent: int,
    sendTime: string,
    settings: CampaignSettings)

  datatype Action = Open | Click | Bounce

  /** One entry of a recipient's `activity`; the optional keys are present
      only on some entries (`type` on bounces, `url` on clicks, `ip`). */
  datatype ActionEntry = ActionEntry(
    action: Action,
    timestamp: string,
    bounceType: Option<string>,
    url: Option<string>,
    ip: Option<string>)

  /** One recipient's activity on one campaign. */
  datatype EmailRecord = EmailRecord(
    listId: string,
    emailId: string,
    emailAddress: string,
    activity: seq<ActionEntry>)

  /** The report accumulated for one campaign across pages. */
  datatype Report = Report(emails: seq<EmailRecord>, totalItems: Option<int>)

  /** One key of `reports.items`, kept in insertion order. */
  datatype ReportEntry = ReportEntry(campaignId: string, report: Report)

  datatype EventName = Delivered | Opened | Clicked | Bounced

  /** Properties of one PostHog event. The delivered event's timestamp is
      `undefined` when the campaign id is not found; title and subject line
      are read from the campaign's top level, where no key of that name
      exists, so they are always `undefined`. */
  datatype Props = Props(
    distinctId: string,
    email: string,
    recipientEmail: string,
    emailId: string,
    listId: string,
    campaignId: string,
    campaignTitle: Option<string>,
    subjectLine: Option<string>,
    deliverySuccessful: bool,
    bounceType: Option<string>,
    clickUrl: Option<string>,
    ip: Option<string>)

  datatype Event = Event(name: EventName, timestamp: Option<string>, props: Props)

  /** A job a step or a tick hands to the host scheduler. */
  datatype Job =
    | FetchCampaigns
    | FetchReports(campaignId: string, queue: seq<string>)
    | CaptureBatchEvents(events: seq<Event>)

  /** What one HTTP request to a list endpoint yields: the request failed
      (network error, unreadable body), or a body whose list field may be
      missing, together with its `total_items`. */
  datatype Response<T> = FetchFailed | Fetched(list: Option<seq<T>>, total: int)

  /** A value snapshot of `global` (headers left out). */
  datatype Global = Global(
    baseUrl: string,
    resultsPerPage: nat,
    campaigns: seq<Campaign>,
    campaignsTotal: Option<int>,
    campaignsState: LoadState,
    reports: seq<ReportEntry>,
    reportsState: LoadState,
    batchState: BatchState)
}
