/** Chains of jobs: each job of the plugin schedules its successor, so the
    work of a resource is a chain of step invocations. These functions follow
    such a chain against a well-behaved server (or a sink whose posts all
    succeed) and the lemmas state where it ends. */
module Runs {
  import opened Types
  import opened ReportItems
  import opened Steps

  /** The concatenation of a list of chunks. */
  function Concat(chunks: seq<seq<Event>>): seq<Event>
  {
    if chunks == [] then [] else chunks[0] + Concat(chunks[1..])
  }

  /** The chain of capture jobs a first job starts when every post succeeds:
      the final `global` and the batch each job handed to the post. */
  function DispatchChain(g: Global, events: seq<Event>): (Global, seq<seq<Event>>)
    decreases |events|
  {
    var step := CaptureBatchEventsStep(g, events, true);
    if step.scheduled == [] then (step.after, [step.attempted])
    else
      var rest := DispatchChain(step.after, step.scheduled[0].events);
      (rest.0, [step.attempted] + rest.1)
  }

  /** Across the chain every event is sent exactly once and in order: the
      batches concatenate to the original list, none exceeds `ChunkSize`,
      there are `ceil(n / ChunkSize)` of them for `n > 0`, and the state ends
      at `null` with nothing else changed. */
  lemma {:induction false} DispatchChainSendsAll(g: Global, events: seq<Event>)
    requires g.batchState != Failed
    ensures var (final, batches) := DispatchChain(g, events);
      && Concat(batches) == events
      && (forall k :: 0 <= k < |batches| ==> |batches[k]| <= ChunkSize)
      && (events != [] ==> forall k :: 0 <= k < |batches| ==> batches[k] != [])
      && |batches| == (if events == [] then 1 else (|events| + ChunkSize - 1) / ChunkSize)
      && final == g.(batchState := Idle)
    decreases |events|
  {
    var step := CaptureBatchEventsStep(g, events, true);
    if step.scheduled == [] {
      assert Concat([step.attempted]) == step.attempted + Concat([]);
      assert step.attempted == events;
    } else {
      var restEvents := events[ChunkSize..];
      DispatchChainSendsAll(step.after, restEvents);
      var rest := DispatchChain(step.after, restEvents);
      assert ([step.attempted] + rest.1)[1..] == rest.1;
      assert events == step.attempted + restEvents;
    }
  }

  /** 45,000 events leave in three batches of 20,000, 20,000 and 5,000. */
  lemma DispatchOf45000(g: Global, events: seq<Event>)
    requires g.batchState != Failed && |events| == 45000
    ensures var batches := DispatchChain(g, events).1;
      |batches| == 3 && |batches[0]| == 20000 && |batches[1]| == 20000 && |batches[2]| == 5000
      && batches[0] + batches[1] + batches[2] == events
  {
    var s1 := CaptureBatchEventsStep(g, events, true);
    var e2 := events[20000..];
    var s2 := CaptureBatchEventsStep(s1.after, e2, true);
    var e3 := e2[20000..];
    var s3 := CaptureBatchEventsStep(s2.after, e3, true);
    assert s1.scheduled == [CaptureBatchEvents(e2)];
    assert s2.scheduled == [CaptureBatchEvents(e3)];
    assert s3.scheduled == [];
    assert DispatchChain(s2.after, e3) == (s3.after, [s3.attempted]);
    var rest2 := DispatchChain(s2.after, s2.scheduled[0].events);
    assert rest2 == (s3.after, [s3.attempted]);
    assert [s2.attempted] + rest2.1 == [s2.attempted, s3.attempted];
    var rest1 := DispatchChain(s1.after, s1.scheduled[0].events);
    assert [s1.attempted] + rest1.1 == [s1.attempted, s2.attempted, s3.attempted];
    assert DispatchChain(g, events).1 == [s1.attempted, s2.attempted, s3.attempted];
    assert events == s1.attempted + e2 && e2 == s2.attempted + e3 && e3 == s3.attempted;
  }

  /** A server that answers every list request with the items of `all` from
      `offset` on, at most `count` of them, and `total_items == |all|`. */
  function ServerPage<T>(all: seq<T>, offset: nat, count: nat): Response<T>
  {
    Fetched(Some(if offset <= |all| then all[offset..Min(offset + count, |all|)] else []), |all|)
  }

  /** Campaign jobs run one after another against that server until one
      schedules no successor: the final `global` and the number of jobs run. */
  function CampaignRun(g: Global, all: seq<Campaign>): (Global, nat)
    requires g.resultsPerPage > 0
    requires |g.campaigns| <= |all| && g.campaigns == all[..|g.campaigns|]
    decreases |all| - |g.campaigns|
  {
    var step := FetchCampaignsStep(g, ServerPage(all, |g.campaigns|, g.resultsPerPage));
    if step.scheduled == [] then (step.after, 1)
    else
      var k := |g.campaigns|;
      SliceJoin(all, k, Min(k + g.resultsPerPage, |all|));
      assert step.after.campaigns == all[..Min(k + g.resultsPerPage, |all|)];
      var rest := CampaignRun(step.after, all);
      (rest.0, rest.1 + 1)
  }

  /** Pagination terminates and resumes: started from any prefix of `k`
      campaigns of a well-behaved server's `n`, the jobs end with exactly the
      server's campaigns, in order, `'loaded'`, after `ceil((n - k) / count)`
      requests (one when nothing is missing). */
  lemma {:induction false} CampaignRunLoadsAll(g: Global, all: seq<Campaign>)
    requires g.resultsPerPage > 0
    requires |g.campaigns| <= |all| && g.campaigns == all[..|g.campaigns|]
    requires !Settled(g.campaignsState)
    ensures var (final, jobs) := CampaignRun(g, all);
      && final.campaigns == all
      && final.campaignsState == Loaded
      && final.campaignsTotal == Some(|all|)
      && (|g.campaigns| == |all| ==> jobs == 1)
      && (|g.campaigns| < |all| ==>
            (jobs - 1) * g.resultsPerPage < |all| - |g.campaigns| <= jobs * g.resultsPerPage)
      && final == g.(campaigns := all, campaignsTotal := Some(|all|), campaignsState := Loaded)
    decreases |all| - |g.campaigns|
  {
    var k := |g.campaigns|;
    var p := g.resultsPerPage;
    var step := FetchCampaignsStep(g, ServerPage(all, k, p));
    SliceJoin(all, k, Min(k + p, |all|));
    assert step.after.campaigns == all[..Min(k + p, |all|)];
    if step.scheduled != [] {
      CampaignRunLoadsAll(step.after, all);
      var jobs := CampaignRun(step.after, all).1;
      assert (jobs + 1) * p == jobs * p + p;
    } else {
      assert all[..|all|] == all;
    }
  }

  predicate IsPrefix<T(==)>(a: seq<T>, b: seq<T>)
  {
    |a| <= |b| && a == b[..|a|]
  }

  /** What each campaign's report holds is a prefix of the server's emails
      for that campaign. */
  ghost predicate HeldPrefixes(items: seq<ReportEntry>, server: string -> seq<EmailRecord>)
  {
    forall c :: IsPrefix(HeldEmails(items, c), server(c))
  }

  /** A report job answered by the server extends the campaign's emails by
      the next page of the server's. */
  lemma ReportStepExtendsHeld(g: Global, id: string, queue: seq<string>, all: seq<EmailRecord>)
    requires g.resultsPerPage > 0
    requires IsPrefix(HeldEmails(g.reports, id), all)
    requires !Settled(g.reportsState)
    ensures var held := HeldEmails(g.reports, id);
      var step := FetchReportsStep(g, id, queue, ServerPage(all, |held|, g.resultsPerPage));
      HeldEmails(step.after.reports, id) == all[..Min(|held| + g.resultsPerPage, |all|)]
  {
    var held := HeldEmails(g.reports, id);
    var m := Min(|held| + g.resultsPerPage, |all|);
    var page := all[|held|..m];
    var resp := ServerPage(all, |held|, g.resultsPerPage);
    assert resp.Fetched? && resp.list == Some(page);
    var step := FetchReportsStep(g, id, queue, resp);
    assert HeldEmails(step.after.reports, id) == held + page;
    SliceJoin(all, |held|, m);
  }

  /** Two adjacent slices of a sequence make up the longer prefix. */
  lemma SliceJoin<T>(s: seq<T>, i: nat, j: nat)
    requires i <= j <= |s|
    ensures s[..i] + s[i..j] == s[..j]
  {
  }

  /** A report job answered by the server keeps every report a prefix. */
  lemma ReportStepKeepsPrefixes(g: Global, id: string, queue: seq<string>, server: string -> seq<EmailRecord>)
    requires g.resultsPerPage > 0
    requires HeldPrefixes(g.reports, server)
    ensures var held := HeldEmails(g.reports, id);
      var step := FetchReportsStep(g, id, queue, ServerPage(server(id), |held|, g.resultsPerPage));
      HeldPrefixes(step.after.reports, server)
  {
    var held := HeldEmails(g.reports, id);
    var step := FetchReportsStep(g, id, queue, ServerPage(server(id), |held|, g.resultsPerPage));
    if !Settled(g.reportsState) {
      ReportStepExtendsHeld(g, id, queue, server(id));
    }
    FetchReportsKeepsOthers(g, id, queue, ServerPage(server(id), |held|, g.resultsPerPage));
    forall c ensures IsPrefix(HeldEmails(step.after.reports, c), server(c)) {
      if c != id {
        assert Lookup(step.after.reports, c) == Lookup(g.reports, c);
      }
    }
  }

  /** Report jobs run one after another against that server, starting from
      `fetchReports({ campaignId: id, campaignQueue: queue })`, until one
      schedules no successor: the final `global` and the number of jobs run. */
  function ReportRun(g: Global, id: string, queue: seq<string>, server: string -> seq<EmailRecord>): (Global, nat)
    requires g.resultsPerPage > 0
    requires HeldPrefixes(g.reports, server)
    decreases |queue|, |server(id)| - |HeldEmails(g.reports, id)|
  {
    var held := HeldEmails(g.reports, id);
    var step := FetchReportsStep(g, id, queue, ServerPage(server(id), |held|, g.resultsPerPage));
    if step.scheduled == [] then (step.after, 1)
    else
      ReportStepKeepsPrefixes(g, id, queue, server);
      var next := step.scheduled[0];
      var rest := ReportRun(step.after, next.campaignId, next.queue, server);
      (rest.0, rest.1 + 1)
  }

  /** Walking the queue loads every campaign in it: started on `id` with a
      queue of non-empty ids, the report jobs end with the reports
      `'loaded'`, every campaign of `[id] + queue` holding all the server's
      emails, and nothing but the reports changed. */
  lemma {:induction false} ReportRunLoadsAll(g: Global, id: string, queue: seq<string>, server: string -> seq<EmailRecord>)
    requires g.resultsPerPage > 0
    requires HeldPrefixes(g.reports, server)
    requires !Settled(g.reportsState)
    requires id != "" && forall k :: 0 <= k < |queue| ==> queue[k] != ""
    ensures var final := ReportRun(g, id, queue, server).0;
      && final == g.(reports := final.reports, reportsState := Loaded)
      && forall c :: (c == id || c in queue) ==> HeldEmails(final.reports, c) == server(c)
    decreases |queue|, |server(id)| - |HeldEmails(g.reports, id)|, 1
  {
    var held := HeldEmails(g.reports, id);
    var all := server(id);
    var step := FetchReportsStep(g, id, queue, ServerPage(all, |held|, g.resultsPerPage));
    ReportStepKeepsPrefixes(g, id, queue, server);
    ReportStepExtendsHeld(g, id, queue, all);
    if step.scheduled == [] {
      assert HeldEmails(step.after.reports, id) == all;
    } else if step.scheduled[0] == FetchReports(id, queue) {
      ReportRunLoadsAll(step.after, id, queue, server);
    } else {
      assert HeldEmails(step.after.reports, id) == all;
      FetchReportsKeepsOthers(g, id, queue, ServerPage(all, |held|, g.resultsPerPage));
      assert ReportRun(g, id, queue, server).0 == ReportRun(step.after, queue[0], queue[1..], server).0;
      ReportRunLoadsAllNext(g, id, queue, server, step.after);
    }
  }

  /** The campaign `id` is complete in `after` and the walk moves on to the
      head of the queue, which loads the rest without touching `id`. */
  lemma {:induction false} ReportRunLoadsAllNext(g: Global, id: string, queue: seq<string>, server: string -> seq<EmailRecord>, after: Global)
    requires g.resultsPerPage > 0 && HeldPrefixes(g.reports, server)
    requires after.resultsPerPage > 0 && HeldPrefixes(after.reports, server)
    requires !Settled(after.reportsState)
    requires queue != [] && forall k :: 0 <= k < |queue| ==> queue[k] != ""
    requires after == g.(reports := after.reports, reportsState := after.reportsState)
    requires HeldEmails(after.reports, id) == server(id)
    requires ReportRun(g, id, queue, server).0 == ReportRun(after, queue[0], queue[1..], server).0
    ensures var final := ReportRun(g, id, queue, server).0;
      && final == g.(reports := final.reports, reportsState := Loaded)
      && forall c :: (c == id || c in queue) ==> HeldEmails(final.reports, c) == server(c)
    decreases |queue|, 0, 0
  {
    ReportRunLoadsAll(after, queue[0], queue[1..], server);
    ReportRunKeepsOthers(after, queue[0], queue[1..], server);
    var final := ReportRun(after, queue[0], queue[1..], server).0;
    forall c | c == id || c in queue
      ensures HeldEmails(final.reports, c) == server(c)
    {
      if c !in queue {
        assert Lookup(final.reports, c) == Lookup(after.reports, c);
      } else if c != queue[0] {
        assert c in queue[1..];
      }
    }
  }

  /** The walk leaves the report of every campaign outside `[id] + queue` as
      it was. */
  lemma {:induction false} ReportRunKeepsOthers(g: Global, id: string, queue: seq<string>, server: string -> seq<EmailRecord>)
    requires g.resultsPerPage > 0
    requires HeldPrefixes(g.reports, server)
    requires !Settled(g.reportsState)
    ensures var final := ReportRun(g, id, queue, server).0;
      forall c :: c != id && c !in queue ==> Lookup(final.reports, c) == Lookup(g.reports, c)
    decreases |queue|, |server(id)| - |HeldEmails(g.reports, id)|, 1
  {
    var held := HeldEmails(g.reports, id);
    var step := FetchReportsStep(g, id, queue, ServerPage(server(id), |held|, g.resultsPerPage));
    ReportStepKeepsPrefixes(g, id, queue, server);
    FetchReportsKeepsOthers(g, id, queue, ServerPage(server(id), |held|, g.resultsPerPage));
    if step.scheduled == [] {
    } else if step.scheduled[0] == FetchReports(id, queue) {
      ReportRunKeepsOthers(step.after, id, queue, server);
    } else {
      assert ReportRun(g, id, queue, server).0 == ReportRun(step.after, queue[0], queue[1..], server).0;
      ReportRunKeepsOthersNext(g, id, queue, server, step.after);
    }
  }

  /** The walk moved on from `id` to the head of the queue. */
  lemma {:induction false} ReportRunKeepsOthersNext(g: Global, id: string, queue: seq<string>, server: string -> seq<EmailRecord>, after: Global)
    requires after.resultsPerPage > 0 && HeldPrefixes(after.reports, server)
    requires g.resultsPerPage > 0 && HeldPrefixes(g.reports, server)
    requires !Settled(after.reportsState) && queue != []
    requires forall c :: c != id ==> Lookup(after.reports, c) == Lookup(g.reports, c)
    requires ReportRun(g, id, queue, server).0 == ReportRun(after, queue[0], queue[1..], server).0
    ensures var final := ReportRun(g, id, queue, server).0;
      forall c :: c != id && c !in queue ==> Lookup(final.reports, c) == Lookup(g.reports, c)
    decreases |queue|, 0, 0
  {
    var final := ReportRun(after, queue[0], queue[1..], server).0;
    ReportRunKeepsOthers(after, queue[0], queue[1..], server);
    forall c | c != id && c !in queue
      ensures Lookup(final.reports, c) == Lookup(g.reports, c)
    {
      assert c != queue[0] && c !in queue[1..];
    }
  }

  /** The keys `ids` add to `keys` when each is assigned in turn: the new
      ones, in order of first appearance. */
  function AppendNew(keys: seq<string>, ids: seq<string>): seq<string>
    decreases |ids|
  {
    if ids == [] then keys
    else AppendNew(if ids[0] in keys then keys else keys + [ids[0]], ids[1..])
  }

  /** Ids that are all new and pairwise distinct are appended as they are. */
  lemma {:induction false} AppendNewDistinct(keys: seq<string>, ids: seq<string>)
    requires forall i :: 0 <= i < |ids| ==> ids[i] !in keys
    requires forall i, j :: 0 <= i < j < |ids| ==> ids[i] != ids[j]
    ensures AppendNew(keys, ids) == keys + ids
    decreases |ids|
  {
    if ids != [] {
      var rest := ids[1..];
      assert forall i :: 0 <= i < |rest| ==> rest[i] == ids[i + 1];
      forall i | 0 <= i < |rest| ensures rest[i] !in keys + [ids[0]] {
        assert rest[i] == ids[i + 1];
      }
      AppendNewDistinct(keys + [ids[0]], rest);
      assert keys + [ids[0]] + rest == keys + ids;
    }
  }

  /** Assigning `id`, then the rest of `ids`. */
  lemma AppendNewCons(keys: seq<string>, id: string, ids: seq<string>)
    ensures AppendNew(keys, [id] + ids) == AppendNew(if id in keys then keys else keys + [id], ids)
  {
    assert ([id] + ids)[1..] == ids;
  }

  /** One job of the walk over a queue of non-empty ids, seen from the
      outside: it keeps every report a prefix of the server's, adds the
      campaign's key if new, and then either ends the walk on an empty queue
      (`next == 0`), reschedules itself having fetched more emails
      (`next == 1`), or moves on to the head of the queue (`next == 2`). */
  lemma ReportWalkStep(g: Global, id: string, queue: seq<string>, server: string -> seq<EmailRecord>)
    returns (after: Global, next: nat)
    requires g.resultsPerPage > 0
    requires HeldPrefixes(g.reports, server)
    requires !Settled(g.reportsState)
    requires id != "" && forall k :: 0 <= k < |queue| ==> queue[k] != ""
    ensures after.resultsPerPage > 0 && HeldPrefixes(after.reports, server)
    ensures Keys(after.reports) == if id in Keys(g.reports) then Keys(g.reports) else Keys(g.reports) + [id]
    ensures next <= 2
    ensures next == 0 ==> queue == [] && ReportRun(g, id, queue, server).0 == after
    ensures next == 1 ==>
      && !Settled(after.reportsState)
      && |HeldEmails(g.reports, id)| < |HeldEmails(after.reports, id)|
      && ReportRun(g, id, queue, server).0 == ReportRun(after, id, queue, server).0
    ensures next == 2 ==>
      && queue != [] && !Settled(after.reportsState)
      && ReportRun(g, id, queue, server).0 == ReportRun(after, queue[0], queue[1..], server).0
  {
    var held := HeldEmails(g.reports, id);
    var resp := ServerPage(server(id), |held|, g.resultsPerPage);
    var step := FetchReportsStep(g, id, queue, resp);
    ReportStepKeepsPrefixes(g, id, queue, server);
    ReportStepExtendsHeld(g, id, queue, server(id));
    FetchReportsKeys(g, id, queue, resp);
    after := step.after;
    next := if step.scheduled == [] then 0 else if step.scheduled[0] == FetchReports(id, queue) then 1 else 2;
  }

  /** The walk adds a key for each campaign of `[id] + queue` that had no
      report, in the order the queue visits them: `reports.items`, and so the
      projection, lists the campaigns in that order. */
  lemma {:induction false} ReportRunKeys(g: Global, id: string, queue: seq<string>, server: string -> seq<EmailRecord>)
    requires g.resultsPerPage > 0
    requires HeldPrefixes(g.reports, server)
    requires !Settled(g.reportsState)
    requires id != "" && forall k :: 0 <= k < |queue| ==> queue[k] != ""
    ensures Keys(ReportRun(g, id, queue, server).0.reports) == AppendNew(Keys(g.reports), [id] + queue)
    decreases |queue|, |server(id)| - |HeldEmails(g.reports, id)|, 1
  {
    var after, next := ReportWalkStep(g, id, queue, server);
    if next == 0 {
      AppendNewCons(Keys(g.reports), id, queue);
    } else if next == 1 {
      ReportRunKeysAgain(g, id, queue, server, after);
    } else {
      ReportRunKeysNext(g, id, queue, server, after);
    }
  }

  /** The job rescheduled itself for `id`, whose key is now held. */
  lemma {:induction false} ReportRunKeysAgain(g: Global, id: string, queue: seq<string>, server: string -> seq<EmailRecord>, after: Global)
    requires g.resultsPerPage > 0 && HeldPrefixes(g.reports, server)
    requires after.resultsPerPage > 0 && HeldPrefixes(after.reports, server)
    requires !Settled(after.reportsState)
    requires id != "" && forall k :: 0 <= k < |queue| ==> queue[k] != ""
    requires |HeldEmails(g.reports, id)| < |HeldEmails(after.reports, id)|
    requires Keys(after.reports) == if id in Keys(g.reports) then Keys(g.reports) else Keys(g.reports) + [id]
    requires ReportRun(g, id, queue, server).0 == ReportRun(after, id, queue, server).0
    ensures Keys(ReportRun(g, id, queue, server).0.reports) == AppendNew(Keys(g.reports), [id] + queue)
    decreases |queue|, |server(id)| - |HeldEmails(g.reports, id)|, 0
  {
    ReportRunKeys(after, id, queue, server);
    AppendNewCons(Keys(g.reports), id, queue);
    assert id in Keys(after.reports);
    AppendNewCons(Keys(after.reports), id, queue);
  }

  /** The job moved on from `id` to the head of the queue. */
  lemma {:induction false} ReportRunKeysNext(g: Global, id: string, queue: seq<string>, server: string -> seq<EmailRecord>, after: Global)
    requires g.resultsPerPage > 0 && HeldPrefixes(g.reports, server)
    requires after.resultsPerPage > 0 && HeldPrefixes(after.reports, server)
    requires !Settled(after.reportsState)
    requires queue != [] && forall k :: 0 <= k < |queue| ==> queue[k] != ""
    requires Keys(after.reports) == if id in Keys(g.reports) then Keys(g.reports) else Keys(g.reports) + [id]
    requires ReportRun(g, id, queue, server).0 == ReportRun(after, queue[0], queue[1..], server).0
    ensures Keys(ReportRun(g, id, queue, server).0.reports) == AppendNew(Keys(g.reports), [id] + queue)
    decreases |queue|, 0, 0
  {
    ReportRunKeys(after, queue[0], queue[1..], server);
    assert [queue[0]] + queue[1..] == queue;
    AppendNewCons(Keys(g.reports), id, queue);
  }
}
