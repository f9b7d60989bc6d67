/** Configuration check and initial state of `setupPlugin`: both keys must be
    set, and the Mailchimp key must end in a data-center suffix matching
    `-([a-z]+\d+)$`, from which the API base URL is built. */
module Setup {
  import opened Types

  predicate IsLower(c: char) { 'a' <= c <= 'z' }

  predicate IsDigit(c: char) { '0' <= c <= '9' }

  /** `[a-z]+\d+` matches all of `s`: a non-empty run of lower-case letters
      followed by a non-empty run of digits. */
  ghost predicate DataCenterShape(s: string)
  {
    exists j :: 1 <= j < |s| && SplitsAt(s, j)
  }

  ghost predicate SplitsAt(s: string, j: nat)
    requires j <= |s|
  {
    (forall k :: 0 <= k < j ==> IsLower(s[k])) && (forall k :: j <= k < |s| ==> IsDigit(s[k]))
  }

  /** Length of the longest prefix of lower-case letters. */
  function LowerPrefix(s: string): (n: nat)
    ensures n <= |s|
    ensures forall k :: 0 <= k < n ==> IsLower(s[k])
    ensures n < |s| ==> !IsLower(s[n])
  {
    if s == [] || !IsLower(s[0]) then 0 else 1 + LowerPrefix(s[1..])
  }

  /** Decides `DataCenterShape`. */
  predicate IsDataCenter(s: string)
    ensures IsDataCenter(s) <==> DataCenterShape(s)
  {
    DataCenterAtLowerPrefix(s);
    var n := LowerPrefix(s);
    1 <= n < |s| && forall k :: n <= k < |s| ==> IsDigit(s[k])
  }

  /** The only split point a data center can have is the end of its letters. */
  lemma DataCenterAtLowerPrefix(s: string)
    ensures DataCenterShape(s) <==> var n := LowerPrefix(s); 1 <= n < |s| && SplitsAt(s, n)
  {
    var n := LowerPrefix(s);
    if DataCenterShape(s) {
      var j :| 1 <= j < |s| && SplitsAt(s, j);
      assert !IsLower(s[j]);
      assert n == j;
    }
  }

  /** Index of the last `-` of `s`, if any. */
  function LastDash(s: string): (r: Option<nat>)
    ensures r.Some? ==> r.value < |s| && s[r.value] == '-'
    ensures r.Some? ==> forall k :: r.value < k < |s| ==> s[k] != '-'
    ensures r.None? ==> forall k :: 0 <= k < |s| ==> s[k] != '-'
  {
    if s == [] then None
    else if s[|s| - 1] == '-' then Some(|s| - 1)
    else LastDash(s[..|s| - 1])
  }

  /** The capture group of `/-([a-z]+\d+)$/` on `key`, or `None` when the
      expression does not match. */
  function ParseDataCenter(key: string): (r: Option<string>)
    ensures r.Some? <==> exists i :: 0 <= i < |key| && key[i] == '-' && DataCenterShape(key[i + 1..])
    ensures r.Some? ==> DataCenterShape(r.value) && |r.value| < |key|
    ensures r.Some? ==> key == key[..|key| - |r.value| - 1] + "-" + r.value
  {
    DataCenterAfterLastDash(key);
    match LastDash(key)
    case None => None
    case Some(i) =>
      SplitAtLastDash(key);
      if IsDataCenter(key[i + 1..]) then Some(key[i + 1..]) else None
  }

  /** A data center contains no `-`. */
  lemma DataCenterHasNoDash(s: string)
    requires DataCenterShape(s)
    ensures forall k :: 0 <= k < |s| ==> s[k] != '-'
  {
    var j :| 1 <= j < |s| && SplitsAt(s, j);
  }

  /** A `-` followed by a data center is the last `-` of the key. */
  lemma DashBeforeDataCenterIsLast(key: string, d: nat)
    requires d < |key| && key[d] == '-' && DataCenterShape(key[d + 1..])
    ensures LastDash(key) == Some(d)
  {
    var dc := key[d + 1..];
    DataCenterHasNoDash(dc);
    assert forall k :: d < k < |key| ==> key[k] == dc[k - d - 1];
    var r := LastDash(key);
    assert r.Some? && d <= r.value;
  }

  /** Since a data center contains no `-`, the expression can only match
      after the last `-` of the key. */
  lemma DataCenterAfterLastDash(key: string)
    ensures (exists i :: 0 <= i < |key| && key[i] == '-' && DataCenterShape(key[i + 1..])) <==>
      LastDash(key).Some? && DataCenterShape(key[LastDash(key).value + 1..])
  {
    if exists d :: 0 <= d < |key| && key[d] == '-' && DataCenterShape(key[d + 1..]) {
      var d :| 0 <= d < |key| && key[d] == '-' && DataCenterShape(key[d + 1..]);
      DashBeforeDataCenterIsLast(key, d);
    }
  }

  /** The key is what precedes its last `-`, the `-`, and what follows it. */
  lemma SplitAtLastDash(key: string)
    requires LastDash(key).Some?
    ensures var dc := key[LastDash(key).value + 1..]; key == key[..|key| - |dc| - 1] + "-" + dc
  {
    var i := LastDash(key).value;
    assert key == key[..i] + "-" + key[i + 1..];
  }

  /** The API root for a data center. */
  function BaseUrl(dataCenter: string): string
  {
    "https://" + dataCenter + ".api.mailchimp.com/3.0/"
  }

  /** The data center sits between the HTTPS scheme and the Mailchimp API
      host and version, and can be read back from the API root. */
  lemma BaseUrlParts(dataCenter: string)
    ensures var u := BaseUrl(dataCenter);
      && |u| == |dataCenter| + 31
      && u[..8] == "https://" && u[|u| - 23..] == ".api.mailchimp.com/3.0/"
      && u[8..|u| - 23] == dataCenter
  {
  }

  /** Distinct data centers get distinct API roots. */
  lemma BaseUrlInjective(a: string, b: string)
    ensures BaseUrl(a) == BaseUrl(b) <==> a == b
  {
    if BaseUrl(a) == BaseUrl(b) {
      BaseUrlParts(a);
      BaseUrlParts(b);
    }
  }

  /** A config value JavaScript treats as set: present and non-empty. */
  predicate IsSet(value: Option<string>)
  {
    value.Some? && value.value != ""
  }

  datatype SetupError = MissingKeys | InvalidApiKey

  datatype SetupResult = Configured(baseUrl: string) | Rejected(error: SetupError)

  /** The checks of `setupPlugin` and the base URL it stores. */
  function ParseConfig(mcApiKey: Option<string>, phApiKey: Option<string>): (r: SetupResult)
    ensures r == Rejected(MissingKeys) <==> !IsSet(mcApiKey) || !IsSet(phApiKey)
    ensures r == Rejected(InvalidApiKey) <==>
      IsSet(mcApiKey) && IsSet(phApiKey) && ParseDataCenter(mcApiKey.value).None?
    ensures r.Configured? ==>
      IsSet(mcApiKey) && IsSet(phApiKey) && ParseDataCenter(mcApiKey.value).Some? &&
      r.baseUrl == "https://" + ParseDataCenter(mcApiKey.value).value + ".api.mailchimp.com/3.0/"
  {
    if !IsSet(mcApiKey) || !IsSet(phApiKey) then Rejected(MissingKeys)
    else match ParseDataCenter(mcApiKey.value)
      case None => Rejected(InvalidApiKey)
      case Some(dc) => Configured(BaseUrl(dc))
  }

  /** Page size requested from every paginated endpoint. */
  const ResultsPerPage: nat := 1000

  /** The `global` that `setupPlugin` stores: no items, every state `null`. */
  function InitialGlobal(baseUrl: string): (g: Global)
    ensures g.campaigns == [] && g.campaignsTotal == None && g.campaignsState == Null
    ensures g.reports == [] && g.reportsState == Null && g.batchState == Idle
    ensures g.baseUrl == baseUrl && g.resultsPerPage == 1000
  {
    Global(baseUrl, ResultsPerPage, [], None, Null, [], Null, Idle)
  }
}
