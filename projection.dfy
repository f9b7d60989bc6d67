/** `getEventNameForAction` and `getEventsFromReports`: the projection of the
    accumulated campaigns and reports into PostHog events. Each email record
    yields one event per activity entry, in entry order, followed by one
    delivered event; records follow report order, then record order. */
module Projection {
  import opened Types

  /** `getEventNameForAction`. */
  function EventNameFor(action: Action): (name: EventName)
    ensures name != Delivered
    ensures name == Opened <==> action == Open
    ensures name == Clicked <==> action == Click
    ensures name == Bounced <==> action == Bounce
  {
    match action
    case Open => Opened
    case Click => Clicked
    case Bounce => Bounced
  }

  /** `campaigns.items.find(({ id }) => id === campaignId)`. */
  function FindCampaign(campaigns: seq<Campaign>, id: string): (r: Option<Campaign>)
    ensures r.None? <==> forall k :: 0 <= k < |campaigns| ==> campaigns[k].id != id
    ensures r.Some? ==> r.value.id == id && r.value == campaigns[FirstIndex(campaigns, id)]
  {
    if campaigns == [] then None
    else if campaigns[0].id == id then Some(campaigns[0])
    else FindCampaign(campaigns[1..], id)
  }

  /** Position of the first campaign with the given id (`|campaigns|` if none). */
  function FirstIndex(campaigns: seq<Campaign>, id: string): (k: nat)
    ensures k <= |campaigns|
    ensures forall j :: 0 <= j < k ==> campaigns[j].id != id
    ensures k < |campaigns| ==> campaigns[k].id == id
  {
    if campaigns == [] || campaigns[0].id == id then 0 else 1 + FirstIndex(campaigns[1..], id)
  }

  /** One of the first `n` entries of the activity is a bounce. */
  predicate BounceWithin(activity: seq<ActionEntry>, n: nat)
    requires n <= |activity|
  {
    exists k :: 0 <= k < n && activity[k].action == Bounce
  }

  /** Some entry of the activity is a bounce. */
  predicate HasBounce(activity: seq<ActionEntry>)
  {
    BounceWithin(activity, |activity|)
  }

  /** Dropping the last entry does not change whether a shorter prefix holds
      a bounce. */
  lemma BounceWithinInit(activity: seq<ActionEntry>, n: nat)
    requires n < |activity|
    ensures BounceWithin(activity[..|activity| - 1], n) == BounceWithin(activity, n)
  {
    var init := activity[..|activity| - 1];
    assert forall j :: 0 <= j < n ==> init[j] == activity[j];
  }

  /** `commonProps`: what every event of one record carries. Title and
      subject line are destructured from the found campaign's top level; a
      campaign holds them only under `settings`, so both are `undefined`
      whether or not the campaign is found. */
  function CommonProps(campaignId: string, info: Option<Campaign>, rec: EmailRecord): Props
  {
    Props(rec.emailAddress, rec.emailAddress, rec.emailAddress, rec.emailId, rec.listId, campaignId,
          None, None, true, None, None, None)
  }

  /** The event pushed for one activity entry, with the running delivery flag. */
  function ActionEvent(common: Props, entry: ActionEntry, deliverySuccessful: bool): Event
  {
    Event(EventNameFor(entry.action), Some(entry.timestamp),
          common.(deliverySuccessful := deliverySuccessful, bounceType := entry.bounceType,
                  clickUrl := entry.url, ip := entry.ip))
  }

  /** The event pushed for the implied delivery, stamped with the send time. */
  function DeliveredEvent(common: Props, info: Option<Campaign>, deliverySuccessful: bool): Event
  {
    Event(Delivered, if info.Some? then Some(info.value.sendTime) else None,
          common.(deliverySuccessful := deliverySuccessful))
  }

  /** The events of one record's activity, one per entry; the flag of the
      last one says whether the whole activity is free of bounces. */
  function ActivityEvents(common: Props, activity: seq<ActionEntry>): (r: seq<Event>)
    ensures |r| == |activity|
  {
    if activity == [] then []
    else ActivityEvents(common, activity[..|activity| - 1]) + [ActionEvent(common, activity[|activity| - 1], !HasBounce(activity))]
  }

  /** Entry `k` becomes an action event whose flag is false exactly when a
      bounce occurs at or before `k`. */
  lemma {:induction false} ActivityEventsAt(common: Props, activity: seq<ActionEntry>, k: nat)
    requires k < |activity|
    ensures ActivityEvents(common, activity)[k] == ActionEvent(common, activity[k], !BounceWithin(activity, k + 1))
  {
    var init := activity[..|activity| - 1];
    if k < |init| {
      ActivityEventsAt(common, init, k);
      BounceWithinInit(activity, k + 1);
      assert init[k] == activity[k];
    }
  }

  /** All events of one record: its action events, then one delivered event. */
  function RecordEvents(campaignId: string, info: Option<Campaign>, rec: EmailRecord): seq<Event>
  {
    var common := CommonProps(campaignId, info, rec);
    ActivityEvents(common, rec.activity) + [DeliveredEvent(common, info, !HasBounce(rec.activity))]
  }

  /** The events of a report's records, in record order. */
  function EmailsEvents(campaignId: string, info: Option<Campaign>, emails: seq<EmailRecord>): seq<Event>
  {
    if emails == [] then []
    else EmailsEvents(campaignId, info, emails[..|emails| - 1]) + RecordEvents(campaignId, info, emails[|emails| - 1])
  }

  /** The events of one `reports.items` entry, joined with its campaign. */
  function ReportEvents(entry: ReportEntry, campaigns: seq<Campaign>): seq<Event>
  {
    EmailsEvents(entry.campaignId, FindCampaign(campaigns, entry.campaignId), entry.report.emails)
  }

  /** `getEventsFromReports`: the events of every report, in report order. */
  function EventsFromReports(reports: seq<ReportEntry>, campaigns: seq<Campaign>): seq<Event>
  {
    if reports == [] then []
    else EventsFromReports(reports[..|reports| - 1], campaigns) + ReportEvents(reports[|reports| - 1], campaigns)
  }

  /** Number of events the records should yield: one per entry plus one each. */
  function RecordSlots(emails: seq<EmailRecord>): nat
  {
    if emails == [] then 0 else |emails[0].activity| + 1 + RecordSlots(emails[1..])
  }

  function ReportSlots(reports: seq<ReportEntry>): nat
  {
    if reports == [] then 0 else RecordSlots(reports[0].report.emails) + ReportSlots(reports[1..])
  }

  lemma {:induction false} RecordSlotsAppend(a: seq<EmailRecord>, b: seq<EmailRecord>)
    ensures RecordSlots(a + b) == RecordSlots(a) + RecordSlots(b)
  {
    if a != [] {
      assert (a + b)[1..] == a[1..] + b;
      RecordSlotsAppend(a[1..], b);
    } else {
      assert a + b == b;
    }
  }

  lemma {:induction false} ReportSlotsAppend(a: seq<ReportEntry>, b: seq<ReportEntry>)
    ensures ReportSlots(a + b) == ReportSlots(a) + ReportSlots(b)
  {
    if a != [] {
      assert (a + b)[1..] == a[1..] + b;
      ReportSlotsAppend(a[1..], b);
    } else {
      assert a + b == b;
    }
  }

  /** Each record contributes its entries plus one delivered event. */
  lemma {:induction false} EmailsEventsLength(campaignId: string, info: Option<Campaign>, emails: seq<EmailRecord>)
    ensures |EmailsEvents(campaignId, info, emails)| == RecordSlots(emails)
  {
    if emails != [] {
      var init := emails[..|emails| - 1];
      EmailsEventsLength(campaignId, info, init);
      RecordSlotsAppend(init, [emails[|emails| - 1]]);
      assert init + [emails[|emails| - 1]] == emails;
    }
  }

  /** The projection yields exactly the sum over all records of
      (number of activity entries + 1) events. */
  lemma {:induction false} EventsFromReportsLength(reports: seq<ReportEntry>, campaigns: seq<Campaign>)
    ensures |EventsFromReports(reports, campaigns)| == ReportSlots(reports)
  {
    if reports != [] {
      var init := reports[..|reports| - 1];
      var last := reports[|reports| - 1];
      EventsFromReportsLength(init, campaigns);
      EmailsEventsLength(last.campaignId, FindCampaign(campaigns, last.campaignId), last.report.emails);
      ReportSlotsAppend(init, [last]);
      assert init + [last] == reports;
    }
  }

  /** Report order: the events of `a + b` are those of `a`, then those of `b`. */
  lemma {:induction false} EventsFromReportsAppend(a: seq<ReportEntry>, b: seq<ReportEntry>, campaigns: seq<Campaign>)
    ensures EventsFromReports(a + b, campaigns) == EventsFromReports(a, campaigns) + EventsFromReports(b, campaigns)
  {
    if b != [] {
      var init := b[..|b| - 1];
      assert (a + b)[..|a + b| - 1] == a + init;
      assert (a + b)[|a + b| - 1] == b[|b| - 1];
      EventsFromReportsAppend(a, init, campaigns);
    } else {
      assert a + b == a;
    }
  }

  /** Record order: the events of `a + b` are those of `a`, then those of `b`. */
  lemma {:induction false} EmailsEventsAppend(campaignId: string, info: Option<Campaign>, a: seq<EmailRecord>, b: seq<EmailRecord>)
    ensures EmailsEvents(campaignId, info, a + b) == EmailsEvents(campaignId, info, a) + EmailsEvents(campaignId, info, b)
  {
    if b != [] {
      var init := b[..|b| - 1];
      assert (a + b)[..|a + b| - 1] == a + init;
      assert (a + b)[|a + b| - 1] == b[|b| - 1];
      EmailsEventsAppend(campaignId, info, a, init);
    } else {
      assert a + b == a;
    }
  }

  /** The action events of one record: entry `k` gives an event named after
      its action, at its timestamp, copying `type`, `url` and `ip`, never a
      delivered event, whose flag is false exactly when a bounce occurs at or
      before `k`; the recipient is identified by its address throughout. */
  lemma RecordActionEvents(campaignId: string, info: Option<Campaign>, rec: EmailRecord, k: nat)
    requires k < |rec.activity|
    ensures var r := RecordEvents(campaignId, info, rec);
      var entry := rec.activity[k];
      && |r| == |rec.activity| + 1
      && r[k].name == EventNameFor(entry.action) && r[k].name != Delivered
      && r[k].timestamp == Some(entry.timestamp)
      && r[k].props.bounceType == entry.bounceType
      && r[k].props.clickUrl == entry.url
      && r[k].props.ip == entry.ip
      && (r[k].props.deliverySuccessful <==> !exists j :: 0 <= j <= k && rec.activity[j].action == Bounce)
      && r[k].props.distinctId == r[k].props.email == r[k].props.recipientEmail == rec.emailAddress
      && r[k].props.emailId == rec.emailId && r[k].props.listId == rec.listId
      && r[k].props.campaignId == campaignId
      && r[k].props.campaignTitle.None? && r[k].props.subjectLine.None?
  {
    ActivityEventsAt(CommonProps(campaignId, info, rec), rec.activity, k);
  }

  /** The last event of one record is its delivered event: at the campaign's
      send time, flagged false exactly when some entry is a bounce. */
  lemma RecordDeliveredEvent(campaignId: string, info: Option<Campaign>, rec: EmailRecord)
    ensures var r := RecordEvents(campaignId, info, rec);
      var d := r[|r| - 1];
      && |r| == |rec.activity| + 1
      && d.name == Delivered
      && d.timestamp == (if info.Some? then Some(info.value.sendTime) else None)
      && (d.props.deliverySuccessful <==> !exists j :: 0 <= j < |rec.activity| && rec.activity[j].action == Bounce)
      && d.props.bounceType.None? && d.props.clickUrl.None? && d.props.ip.None?
      && d.props.distinctId == d.props.email == d.props.recipientEmail == rec.emailAddress
      && d.props.emailId == rec.emailId && d.props.listId == rec.listId
      && d.props.campaignId == campaignId
      && d.props.campaignTitle.None? && d.props.subjectLine.None?
  {
  }

  /** The example record: an open, then a hard bounce, gives an opened event
      and a bounced event followed by a delivered event, the last two
      flagged as not delivered, all carrying the campaign's id but
      neither its title nor its subject line. */
  lemma OpenThenBounceExample()
    ensures
      var c := Campaign("c1", 1, "2024-01-01T00:00:00Z", CampaignSettings("S", "T"));
      var open := ActionEntry(Open, "t1", None, None, None);
      var bounce := ActionEntry(Bounce, "t2", Some("hard"), None, None);
      var rec := EmailRecord("l1", "e1", "a@b.com", [open, bounce]);
      var r := EventsFromReports([ReportEntry("c1", Report([rec], Some(1)))], [c]);
      && |r| == 3
      && r[0].name == Opened && r[0].timestamp == Some("t1") && r[0].props.deliverySuccessful
      && r[1].name == Bounced && r[1].timestamp == Some("t2") && !r[1].props.deliverySuccessful
      && r[1].props.bounceType == Some("hard")
      && r[2].name == Delivered && r[2].timestamp == Some("2024-01-01T00:00:00Z")
      && !r[2].props.deliverySuccessful
      && r[0].props.campaignId == r[1].props.campaignId == r[2].props.campaignId == "c1"
      && r[0].props.campaignTitle.None? && r[0].props.subjectLine.None?
      && r[1].props.campaignTitle.None? && r[1].props.subjectLine.None?
      && r[2].props.campaignTitle.None? && r[2].props.subjectLine.None?
  {
    var c := Campaign("c1", 1, "2024-01-01T00:00:00Z", CampaignSettings("S", "T"));
    var open := ActionEntry(Open, "t1", None, None, None);
    var bounce := ActionEntry(Bounce, "t2", Some("hard"), None, None);
    var rec := EmailRecord("l1", "e1", "a@b.com", [open, bounce]);
    var entry := ReportEntry("c1", Report([rec], Some(1)));
    assert [entry][..0] == [];
    assert [rec][..0] == [];
    assert FindCampaign([c], "c1") == Some(c);
    var common := CommonProps("c1", Some(c), rec);
    var r := RecordEvents("c1", Some(c), rec);
    assert EmailsEvents("c1", Some(c), [rec]) == r;
    assert EventsFromReports([entry], [c]) == r;
    assert !BounceWithin([open, bounce], 1);
    assert BounceWithin([open, bounce], 2) by { assert [open, bounce][1] == bounce; }
    RecordActionEvents("c1", Some(c), rec, 0);
    RecordActionEvents("c1", Some(c), rec, 1);
    RecordDeliveredEvent("c1", Some(c), rec);
  }

  /** One more report extends the projection by that report's events. */
  lemma EventsFromReportsStep(reports: seq<ReportEntry>, i: nat, campaigns: seq<Campaign>)
    requires i < |reports|
    ensures EventsFromReports(reports[..i + 1], campaigns) ==
            EventsFromReports(reports[..i], campaigns) + ReportEvents(reports[i], campaigns)
  {
    assert reports[..i + 1][..i] == reports[..i];
  }

  /** One more record extends a report's events by that record's events. */
  lemma EmailsEventsStep(campaignId: string, info: Option<Campaign>, emails: seq<EmailRecord>, j: nat)
    requires j < |emails|
    ensures EmailsEvents(campaignId, info, emails[..j + 1]) ==
            EmailsEvents(campaignId, info, emails[..j]) + RecordEvents(campaignId, info, emails[j])
  {
    assert emails[..j + 1][..j] == emails[..j];
  }

  /** One more entry extends the action events by one. */
  lemma ActivityEventsStep(common: Props, activity: seq<ActionEntry>, k: nat)
    requires k < |activity|
    ensures ActivityEvents(common, activity[..k + 1]) ==
            ActivityEvents(common, activity[..k]) + [ActionEvent(common, activity[k], !BounceWithin(activity, k + 1))]
  {
    var p := activity[..k + 1];
    assert p[..k] == activity[..k];
    assert forall j :: 0 <= j <= k ==> p[j] == activity[j];
    assert BounceWithin(p, k + 1) == BounceWithin(activity, k + 1);
  }

  /** The flag after entry `k`: a bounce among the first `k + 1` entries is
      one among the first `k` or entry `k` itself. */
  lemma BounceWithinStep(activity: seq<ActionEntry>, k: nat)
    requires k < |activity|
    ensures BounceWithin(activity, k + 1) <==> BounceWithin(activity, k) || activity[k].action == Bounce
  {
    if BounceWithin(activity, k + 1) && activity[k].action != Bounce {
      var j :| 0 <= j < k + 1 && activity[j].action == Bounce;
      assert j < k;
    }
  }

  /** The inner `forEach` of `getEventsFromReports` for one record: one event
      per entry with the running delivery flag, then the delivered event. */
  method ProjectRecord(campaignId: string, info: Option<Campaign>, rec: EmailRecord) returns (events: seq<Event>)
    ensures events == RecordEvents(campaignId, info, rec)
  {
    var common := CommonProps(campaignId, info, rec);
    var deliverySuccessful := true;
    events := [];
    var k := 0;
    while k < |rec.activity|
      invariant 0 <= k <= |rec.activity|
      invariant deliverySuccessful == !BounceWithin(rec.activity, k)
      invariant events == ActivityEvents(common, rec.activity[..k])
    {
      var entry := rec.activity[k];
      if entry.action == Bounce {
        deliverySuccessful := false;
      }
      BounceWithinStep(rec.activity, k);
      ActivityEventsStep(common, rec.activity, k);
      events := events + [ActionEvent(common, entry, deliverySuccessful)];
      k := k + 1;
    }
    assert rec.activity[..k] == rec.activity;
    events := events + [DeliveredEvent(common, info, deliverySuccessful)];
  }

  /** The middle `forEach` of `getEventsFromReports` for one report: the
      campaign is looked up once, then every record is projected in order. */
  method ProjectReport(entry: ReportEntry, campaigns: seq<Campaign>) returns (events: seq<Event>)
    ensures events == ReportEvents(entry, campaigns)
  {
    var info := FindCampaign(campaigns, entry.campaignId);
    var emails := entry.report.emails;
    events := [];
    var j := 0;
    while j < |emails|
      invariant 0 <= j <= |emails|
      invariant events == EmailsEvents(entry.campaignId, info, emails[..j])
    {
      var recordEvents := ProjectRecord(entry.campaignId, info, emails[j]);
      EmailsEventsStep(entry.campaignId, info, emails, j);
      events := events + recordEvents;
      j := j + 1;
    }
    assert emails[..j] == emails;
  }

  /** The nested `forEach` loops of `getEventsFromReports` compute exactly the
      projection. */
  method ProjectEvents(reports: seq<ReportEntry>, campaigns: seq<Campaign>) returns (events: seq<Event>)
    ensures events == EventsFromReports(reports, campaigns)
  {
    events := [];
    var i := 0;
    while i < |reports|
      invariant 0 <= i <= |reports|
      invariant events == EventsFromReports(reports[..i], campaigns)
    {
      var reportEvents := ProjectReport(reports[i], campaigns);
      EventsFromReportsStep(reports, i, campaigns);
      events := events + reportEvents;
      i := i + 1;
    }
    assert reports[..i] == reports;
  }
}
