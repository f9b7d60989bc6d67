# Mailchimp campaigns plugin for PostHog — a Dafny model

The plugin copies Mailchimp engagement data into PostHog. `setupPlugin`
checks the two API keys and derives the Mailchimp data-center URL. Three
jobs then advance a state machine kept in `global`, one page or one chunk
per invocation:

- `fetchCampaigns` pages through the sent campaigns.
- `fetchReports` pages through each campaign's e-mail activity, walking a
  queue of campaign ids.
- `captureBatchEvents` posts the projected events to PostHog in chunks of
  20,000.

A once-a-minute `runEveryMinute` reads the states and launches the next job.
Once the reports are loaded, it projects them into PostHog events with
`getEventsFromReports`.

The model, module by module:

- `Types` holds the records of the API, the events, the load states, the
  jobs and `Global`, a value snapshot of the plugin's `global`.
- `Setup` covers the key check, the `/-([a-z]+\d+)$/` suffix match, the
  base URL and the initial state.
- `ReportItems` models `reports.items`, a JavaScript object keyed by
  campaign id, as an association list in insertion order.
- `Steps` has one pure function per job invocation. Each maps the `global`
  before the step and the response the step's request got to the `global`
  after it, the request offset and the jobs the step scheduled.
- `Plugin.Pipeline` is a class whose fields are those of `global`. Its
  methods perform the same steps in place, and each is proved equal to its
  step function. `RunEveryMinute` returns the jobs the tick launches.
- `Projection` defines the projection as recursive functions, with lemmas
  on counts, order and fields. It also has the nested loops of the source,
  with the mutable delivery flag, as methods proved equal to those
  functions.
- `Runs` follows chains of jobs against a well-behaved server or a sink
  whose posts all succeed:
  - campaign pagination ends with all campaigns, after a ceiling number of
    requests;
  - the report walk loads every queued campaign, keeps the other reports
    and adds keys in queue order;
  - the capture chain sends every event once, in order.
- `Orchestrator` has the tick's decision function and the phase-level
  lemmas.

The HTTP response of a step (or whether the PostHog post returns) is a
parameter. A post that returns counts as succeeding, whatever its HTTP
status; only a post that throws counts as failing. A request that fails is `FetchFailed`. A body without the
expected list field is `Fetched(None, _)`. A job scheduled through `runIn`
or `runNow` is returned as a `Job` value.

Four behaviours of the code worth knowing:

- A body without `campaigns` or `emails` does not get one retry and then
  an error. The code schedules the retry job, then the spread of
  `undefined` throws and the catch sets `'error'`. The retry job then finds
  `'error'` and returns at once.
- A PostHog post that throws does not set `batchState` to `'error'`. It
  throws before either branch of index.ts:208-213 runs, so the state stays
  `'sending'`. No path of the code ever sets `'error'`.
- After a chain of capture jobs drains, `batchState` is `null` again, so
  the next tick projects and sends all events again
  (`Orchestrator.ResendAfterDrain`).
- Events carry no campaign title and no subject line. The campaign request
  asks for `settings.subject_line` and `settings.title` (index.ts:107-114),
  but the projection reads `title` and `subject_line` from the campaign's top
  level (index.ts:234), where they are `undefined`. The model's `Campaign`
  nests both under `settings`, so `Projection.CommonProps` yields neither.

## Model

| member | source | states |
|---|---|---|
| Setup.IsDataCenter | index.ts:68 | decides the capture group `[a-z]+\d+`: at least one lower-case letter, then at least one digit, and nothing else |
| Setup.DashBeforeDataCenterIsLast | index.ts:68 | a `-` followed by a data center up to the end of the key is the key's last `-` |
| Setup.DataCenterAfterLastDash | index.ts:68 | the anchored expression matches somewhere exactly when it matches after the last `-` |
| Setup.ParseDataCenter | index.ts:68-71 | yields a value exactly when some `-` is followed by letters-then-digits up to the end of the key; the value has that shape, is shorter than the key, and the key ends in `-` followed by it |
| Setup.ParseConfig | index.ts:64-73 | rejects for missing keys exactly when either key is absent or empty; rejects for an invalid key exactly when both are set and the suffix does not match; otherwise the base URL is `https://<suffix>.api.mailchimp.com/3.0/` |
| Setup.BaseUrl | index.ts:73 | the base URL for a data center, defined without a contract; `BaseUrlParts` and `BaseUrlInjective` state its shape |
| Setup.BaseUrlParts | index.ts:73 | the base URL is `https://`, then the data center, then `.api.mailchimp.com/3.0/`, so the data center can be read back from it |
| Setup.BaseUrlInjective | index.ts:73 | two data centers give the same base URL exactly when they are equal |
| Setup.InitialGlobal | index.ts:83-96 | page size 1000, no campaigns and no total, no reports, every state `null` |
| Plugin.Pipeline.Setup | index.ts:64-97 | returns the verdict of `ParseConfig`; on rejection `global` is untouched, otherwise it is the initial state for the derived base URL |
| ReportItems.Lookup | index.ts:143 | `items[id]` on the insertion-ordered key list; defined without a contract, its meaning is stated by `LookupFinds` |
| ReportItems.Put | index.ts:144-148 | `items[id] = report` on the key list; defined without a contract, its meaning is stated by `PutLookupSame`, `PutLookupOther` and `PutKeys` |
| ReportItems.LookupFinds | index.ts:143 | `items[id]` is undefined exactly when no entry has key `id`, and otherwise is the report of the first entry with that key |
| ReportItems.PutLookupSame | index.ts:168-169 | after `items[id] = report`, `items[id]` is `report` |
| ReportItems.PutLookupOther | index.ts:168-169 | assigning `items[id]` leaves every other key's report unchanged |
| ReportItems.PutKeys | index.ts:144 | assigning an existing key keeps the key order; a new key is appended at the end |
| Steps.FetchCampaignsStep | index.ts:100-136 | a `'loaded'` or `'error'` resource is left alone with nothing scheduled; otherwise the request offset is the number of campaigns held; a failed request, or a body without `campaigns` (retry scheduled), ends in `'error'` with the items unchanged; a page is appended in order and `total_items` stored; `'loaded'` exactly when the new length reaches `total_items`, else one self-reschedule; reports and batch state untouched |
| Steps.EnsureReport | index.ts:143-148 | afterwards `items[id]` exists; an existing report is kept as is, an absent one becomes empty with no total; other keys' reports and the key order are kept, a new key going last |
| Steps.FetchReportsStep | index.ts:137-188 | a settled resource is left alone; otherwise the offset is the number of emails held for the campaign; failure or missing `emails` leaves exactly the old `global` with `'error'` and the campaign's report ensured (created as no emails and no `total_items` when absent), its emails kept (missing: retry with the same queue scheduled); a page is appended and `total_items` stored; an incomplete campaign reschedules itself with the same queue; a complete one with a non-empty queue head moves to that head with the rest of the queue; `'loaded'` exactly when complete and the queue is empty or its head is the empty string |
| Steps.FetchReportsKeepsOthers | index.ts:143-169 | a report job changes no campaign's report but its own |
| Steps.FetchReportsKeys | index.ts:143-169 | a report job on an unsettled resource keeps the key order and appends its campaign if it was absent |
| Steps.CaptureBatchEventsStep | index.ts:189-214 | in `'error'` nothing happens; otherwise the first `min(20000, n)` events are posted and the rest handed on; `null` exactly when at most 20000 events remain to send and the post succeeded (or there was nothing to post); a successful post with more than 20000 events schedules exactly the rest; a failed post leaves `'sending'`; `'error'` is never entered; only `batchState` changes |
| Plugin.Pipeline.FetchCampaigns | index.ts:100-136 | the in-place step leaves `global`, returns the offset and schedules exactly what `FetchCampaignsStep` gives |
| Plugin.Pipeline.FetchReports | index.ts:137-188 | the in-place step, including the `shift` of the queue, agrees with `FetchReportsStep` |
| Plugin.Pipeline.CaptureBatchEvents | index.ts:189-214 | the in-place step agrees with `CaptureBatchEventsStep` and returns the chunk handed to the post |
| Projection.EventNameFor | index.ts:217-226 | open gives OPENED, click CLICKED and bounce BOUNCED, in both directions; never DELIVERED |
| Projection.FindCampaign | index.ts:234 | no campaign exactly when no campaign has the id; otherwise the first campaign with it |
| Projection.RecordEvents | index.ts:236-272 | the events of one email record, defined without a contract; `RecordActionEvents` and `RecordDeliveredEvent` state them event by event |
| Projection.EmailsEvents | index.ts:235-273 | the events of a report's records in record order, defined without a contract; `EmailsEventsLength` and `EmailsEventsAppend` state its size and order |
| Projection.EventsFromReports | index.ts:228-276 | `getEventsFromReports`, defined without a contract; `EventsFromReportsLength`, `EventsFromReportsAppend`, `OpenThenBounceExample` and `ProjectEvents` state its size, order and contents |
| Projection.ActivityEvents | index.ts:247-263 | one action event per activity entry |
| Projection.ActivityEventsAt | index.ts:246-262 | entry `k` becomes the action event for that entry whose delivery flag is false exactly when a bounce occurs at or before `k` |
| Projection.BounceWithinStep | index.ts:247-250 | the running flag after entry `k` is cleared exactly when it was already cleared or entry `k` is a bounce |
| Projection.RecordActionEvents | index.ts:236-262 | the record yields its entries plus one event; event `k` is named after entry `k`'s action (never DELIVERED), at its timestamp, copies `type`, `url` and `ip` as present, carries the running flag, identifies the recipient by address, copies the record's email id and list id and carries the campaign id, with no title and no subject line |
| Projection.RecordDeliveredEvent | index.ts:264-272 | the record's last event is DELIVERED at the campaign's send time, flagged false exactly when some entry is a bounce, with the recipient's address, the record's email id and list id and the campaign id, without bounce type, url or ip, title or subject line |
| Projection.OpenThenBounceExample | index.ts:236-272 | an open then a hard bounce give OPENED (delivered), BOUNCED (not delivered, `hard`), DELIVERED (not delivered) at the campaign's send time, none of them with the campaign's title or subject line |
| Projection.EmailsEventsLength | index.ts:235-273 | a report yields the sum over its records of (entries + 1) events |
| Projection.EventsFromReportsLength | index.ts:228-276 | the projection yields the sum over all records of all reports of (entries + 1) events |
| Projection.EventsFromReportsAppend | index.ts:233 | report order: the events of two runs of reports are those of the first, then those of the second |
| Projection.EmailsEventsAppend | index.ts:235 | record order: the events of two runs of records are those of the first, then those of the second |
| Projection.ProjectRecord | index.ts:236-272 | the inner loop with the mutable delivery flag yields exactly the record's events |
| Projection.ProjectReport | index.ts:234-273 | the middle loop looks the campaign up once and yields exactly the report's events |
| Projection.ProjectEvents | index.ts:228-276 | the nested loops yield exactly the projection of all reports |
| Runs.DispatchChain | index.ts:189-214 | the chain of capture jobs when every post succeeds, defined without a contract; `DispatchChainSendsAll` states what it sends |
| Runs.CampaignRun | index.ts:100-136 | the chain of campaign jobs against a consistent server, defined without a contract; `CampaignRunLoadsAll` states where it ends |
| Runs.ReportRun | index.ts:137-188 | the chain of report jobs against a consistent server, defined without a contract; `ReportRunLoadsAll`, `ReportRunKeepsOthers` and `ReportRunKeys` state where it ends |
| Runs.DispatchChainSendsAll | index.ts:189-214 | when every post succeeds, the chunks concatenate to the original events in order; each has at most 20000 events and none is empty when there are events; there are `ceil(n / 20000)` of them (one for no events); the chain ends with `batchState` `null` and nothing else changed |
| Runs.DispatchOf45000 | index.ts:196-210 | 45,000 events leave in chunks of 20,000, 20,000 and 5,000 that concatenate to the original |
| Runs.CampaignRunLoadsAll | index.ts:115-131 | from any prefix of the server's campaigns, the chain ends with exactly the server's campaigns in order, `'loaded'`, `total_items` stored and nothing else changed, after one request if nothing was missing and otherwise `ceil(missing / page size)` requests |
| Runs.ReportStepExtendsHeld | index.ts:158-169 | a report job extends the campaign's emails by the server's next page from the held offset |
| Runs.ReportStepKeepsPrefixes | index.ts:143-169 | a report job keeps every campaign's held emails a prefix of the server's |
| Runs.ReportWalkStep | index.ts:137-188 | one job of a walk over non-empty ids keeps prefixes, adds its key if new, and either ends the walk on an empty queue, reschedules itself having fetched more, or moves to the queue head |
| Runs.ReportRunLoadsAll | index.ts:170-183 | walking a queue of non-empty ids ends `'loaded'`, every campaign of the walk holding all the server's emails, with nothing but the reports changed |
| Runs.ReportRunLoadsAllNext | index.ts:172-175 | after moving on to the queue head, the rest of the walk loads the queue and leaves the completed campaign complete |
| Runs.ReportRunKeepsOthers | index.ts:143-169 | the walk leaves the report of every campaign outside it unchanged |
| Runs.ReportRunKeepsOthersNext | index.ts:172-175 | the same after moving on to the queue head |
| Runs.ReportRunKeys | index.ts:143-183 | the walk adds the key of each campaign that had no report, in the order the queue visits them |
| Runs.ReportRunKeysAgain | index.ts:180-183 | the same when the job rescheduled itself for the same campaign |
| Runs.ReportRunKeysNext | index.ts:172-175 | the same when the job moved on to the queue head |
| Orchestrator.CampaignIds | index.ts:285 | one id per campaign, in campaign order |
| Orchestrator.Launches | index.ts:278-298 | at most one job; `fetchCampaigns` exactly when campaigns are `null`; `fetchReports` exactly when campaigns are loaded and reports `null`, on the first campaign with the others queued in campaign order; a capture exactly when both are loaded, the batch state is `null` and the projection is non-empty, carrying the projection; nothing otherwise |
| Plugin.Pipeline.RunEveryMinute | index.ts:278-298 | the tick, projecting with the nested loops, launches exactly the jobs of `Launches` |
| Orchestrator.FirstTickFetchesCampaigns | index.ts:280-282 | right after setup a tick launches the campaign fetch |
| Orchestrator.ReportsPhaseLoadsAll | index.ts:283-288 | a tick on loaded campaigns starts the walk on the first id with the rest queued; the walk ends `'loaded'` with every campaign holding all the server's emails; with distinct ids the report keys are the campaign ids in campaign order |
| Orchestrator.WalkFromNoReports | index.ts:137-188 | a walk over non-empty ids started with no reports ends `'loaded'` with every id holding all the server's emails and nothing but the reports changed; distinct ids become the report keys in queue order |
| Orchestrator.ResendAfterDrain | index.ts:289-292 | after a full chain of successful capture jobs the state is as before it, so the next tick launches a capture of all events again |
| Orchestrator.FailedPostStopsCapture | index.ts:193-206 | a failed post leaves `'sending'`, and no later tick launches a capture |

## Left out

- HTTP `fetch` and `response.json`, the PostHog `posthog.api.post`, and `console` logging are left out. They are I/O: their outcomes are parameters, a `Response` value or a success flag.
- The URLs and `fields` lists of the requests are left out; only the offset of each request is modelled.
- The `Authorization` header is left out. It is built with `Buffer` Base64 encoding, a library call.
- The one-second delays of `runIn` and the `runNow` launches are left out: host scheduling. The model returns the scheduled job as a value, not its timing.
- A JavaScript exception is modelled as the state the catch leaves plus the jobs scheduled before the throw. The error message is not modelled.
- `Object.entries` lists integer-like keys first, whatever their insertion order. The model keeps insertion order for every key.
- Plugin.Pipeline.RunEveryMinute and Orchestrator.Launches: an empty campaign list with reports `null` is excluded by a precondition. There the source starts a report job on an `undefined` id.
- `total_items` is modelled as an integer that is always present in a body. A body whose list is present but whose total is missing is not modelled.
- A list field that is present but not an array is not distinguished from a well-formed one.
- index.js is not part of this model. It is an earlier draft whose `setupPlugin` throws on an unbound name, and its batch submission and polling exist only as comments.
- types.ts declares types only and is not part of this model.
- Batch submission and polling and exponential backoff are not modelled: index.js:37-58 has them only as comments, and index.ts has no implementation of them.
- Runs.CampaignRunLoadsAll, Runs.ReportRunLoadsAll and Runs.DispatchChainSendsAll are stated for a server that is consistent across pages, or a sink whose posts all succeed. Failing runs are covered one step at a time by the step functions.
