/** `reports.items`, a JavaScript object keyed by campaign id, as an
    association list in insertion order: assigning to an existing key keeps
    its position, assigning to a new key appends it. */
module ReportItems {
  import opened Types

  /** `Object.keys(items)`: the campaign ids, in entry order. */
  function Keys(items: seq<ReportEntry>): (ks: seq<string>)
    ensures |ks| == |items|
  {
    if items == [] then [] else [items[0].campaignId] + Keys(items[1..])
  }

  /** The `k`-th key is the id of the `k`-th entry. */
  lemma {:induction false} KeysAt(items: seq<ReportEntry>, k: nat)
    requires k < |items|
    ensures Keys(items)[k] == items[k].campaignId
  {
    if k > 0 {
      KeysAt(items[1..], k - 1);
    }
  }

  /** `items[id]`: the report stored under the first entry with that key. */
  function Lookup(items: seq<ReportEntry>, id: string): Option<Report>
  {
    if items == [] then None
    else if items[0].campaignId == id then Some(items[0].report)
    else Lookup(items[1..], id)
  }

  /** `items[id]` is `undefined` exactly when no entry has that key, and
      otherwise is the report of the first entry that has it. */
  lemma {:induction false} LookupFinds(items: seq<ReportEntry>, id: string)
    ensures Lookup(items, id).None? <==> id !in Keys(items)
    ensures Lookup(items, id).Some? ==>
      exists k :: 0 <= k < |items| && items[k] == ReportEntry(id, Lookup(items, id).value)
        && forall j :: 0 <= j < k ==> items[j].campaignId != id
  {
    if items != [] && items[0].campaignId != id {
      LookupFinds(items[1..], id);
      assert Keys(items) == [items[0].campaignId] + Keys(items[1..]);
      if Lookup(items, id).Some? {
        var k :| 0 <= k < |items[1..]| && items[1..][k] == ReportEntry(id, Lookup(items, id).value)
          && forall j :: 0 <= j < k ==> items[1..][j].campaignId != id;
        assert items[k + 1] == ReportEntry(id, Lookup(items, id).value);
        assert forall j :: 0 <= j < k + 1 ==> items[j].campaignId != id by {
          forall j | 0 <= j < k + 1 ensures items[j].campaignId != id {
            if j > 0 { assert items[j] == items[1..][j - 1]; }
          }
        }
      }
    } else if items != [] {
      assert Keys(items)[0] == id;
    }
  }

  /** `items[id] = report`. */
  function Put(items: seq<ReportEntry>, id: string, report: Report): seq<ReportEntry>
  {
    if items == [] then [ReportEntry(id, report)]
    else if items[0].campaignId == id then [ReportEntry(id, report)] + items[1..]
    else [items[0]] + Put(items[1..], id, report)
  }

  /** After `items[id] = report`, `items[id]` is `report`. */
  lemma {:induction false} PutLookupSame(items: seq<ReportEntry>, id: string, report: Report)
    ensures Lookup(Put(items, id, report), id) == Some(report)
  {
    if items != [] && items[0].campaignId != id {
      PutLookupSame(items[1..], id, report);
      assert Put(items, id, report)[1..] == Put(items[1..], id, report);
    }
  }

  /** `items[id] = report` leaves every other key's report as it was. */
  lemma {:induction false} PutLookupOther(items: seq<ReportEntry>, id: string, report: Report, other: string)
    requires other != id
    ensures Lookup(Put(items, id, report), other) == Lookup(items, other)
  {
    if items != [] && items[0].campaignId != id && items[0].campaignId != other {
      PutLookupOther(items[1..], id, report, other);
      assert Put(items, id, report)[1..] == Put(items[1..], id, report);
    }
    if items != [] && items[0].campaignId == id {
      assert Put(items, id, report)[1..] == items[1..];
    }
  }

  /** Assigning to an existing key keeps the key order; a new key is appended. */
  lemma {:induction false} PutKeys(items: seq<ReportEntry>, id: string, report: Report)
    ensures Keys(Put(items, id, report)) == if id in Keys(items) then Keys(items) else Keys(items) + [id]
  {
    if items != [] && items[0].campaignId != id {
      PutKeys(items[1..], id, report);
      assert Put(items, id, report)[1..] == Put(items[1..], id, report);
      assert Keys(items) == [items[0].campaignId] + Keys(items[1..]);
    }
  }
}
