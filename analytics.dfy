/**
 * AnalyticsController: read-only counts over the Notifications table. Each
 * endpoint is a function of the store, so none of them changes it.
 */
module AnalyticsController {
  import opened Wrappers
  import opened Entities

  /** The value the summary reports as average processing time, whatever the data. */
  const ReportedAverageMs: real := 150.0
  /** Take(20) in GetRecent. */
  const RecentLimit: nat := 20

  /** The ids of the records with the given status. */
  function WithStatus(s: Records, status: string): set<Guid> {
    set k | k in s && s[k].status == Some(status)
  }

  lemma SubsetCardinality<T>(a: set<T>, b: set<T>)
    requires a <= b
    ensures |a| <= |b|
  {
    assert b == a + (b - a);
  }

  /** Three disjoint subsets of a set: their sizes add up to at most its size. */
  lemma DisjointCardinality<T>(a: set<T>, b: set<T>, c: set<T>, all: set<T>)
    requires a <= all && b <= all && c <= all
    requires a !! b && a !! c && b !! c
    ensures |a| + |b| + |c| <= |all|
  {
    assert |a + b| == |a| + |b|;
    assert |a + b + c| == |a + b| + |c|;
    SubsetCardinality(a + b + c, all);
  }

  datatype Summary = Summary(total: nat, sent: nat, failed: nat, pending: nat, averageProcessingTimeMs: real)

  /** The four counts: records whose status is null or anything else count only in the total. */
  function Counts(s: Records): (r: Summary)
    ensures r.total == |s|
    ensures r.sent == |WithStatus(s, SENT)| && r.failed == |WithStatus(s, FAILED)|
    ensures r.pending == |WithStatus(s, PENDING)|
    ensures r.sent <= r.total && r.failed <= r.total && r.pending <= r.total
    ensures r.sent + r.failed + r.pending <= r.total
    ensures r.averageProcessingTimeMs == ReportedAverageMs
  {
    DisjointCardinality(WithStatus(s, SENT), WithStatus(s, FAILED), WithStatus(s, PENDING), s.Keys);
    Summary(|s|, |WithStatus(s, SENT)|, |WithStatus(s, FAILED)|, |WithStatus(s, PENDING)|, ReportedAverageMs)
  }

  /**
   * Storing a new record raises the total by one and the count of its own
   * status by one, and leaves the other status counts as they were.
   */
  lemma CountsAfterInsert(s: Records, n: Notification)
    requires n.id !in s
    ensures var before := Counts(s);
            var after := Counts(s[n.id := n]);
            && after.total == before.total + 1
            && after.sent == before.sent + (if n.status == Some(SENT) then 1 else 0)
            && after.failed == before.failed + (if n.status == Some(FAILED) then 1 else 0)
            && after.pending == before.pending + (if n.status == Some(PENDING) then 1 else 0)
  {
    var s' := s[n.id := n];
    assert s'.Keys == s.Keys + {n.id};
    WithStatusAfterInsert(s, n, SENT);
    WithStatusAfterInsert(s, n, FAILED);
    WithStatusAfterInsert(s, n, PENDING);
  }

  lemma WithStatusAfterInsert(s: Records, n: Notification, status: string)
    requires n.id !in s
    ensures |WithStatus(s[n.id := n], status)| == |WithStatus(s, status)| + (if n.status == Some(status) then 1 else 0)
  {
    if n.status == Some(status) {
      assert WithStatus(s[n.id := n], status) == WithStatus(s, status) + {n.id};
    } else {
      assert WithStatus(s[n.id := n], status) == WithStatus(s, status);
    }
  }

  /** Some record has a processing time, so the sequence being averaged is not empty. */
  predicate AnyProcessed(s: Records) {
    exists k | k in s :: s[k].processedAt.Some?
  }

  /**
   * GetSummary as written: the average over processed records is computed
   * with Enumerable.Average and then discarded; Average throws on an empty
   * sequence, so without any processed record the action fails.
   */
  function GetSummary(s: Records): (r: Response<Summary>)
    ensures r.Ok? || r.ServerError?
    ensures r.Ok? <==> AnyProcessed(s)
    ensures r.Ok? ==> r.value == Counts(s) && r.value.averageProcessingTimeMs == ReportedAverageMs
  {
    if AnyProcessed(s) then Ok(Counts(s)) else ServerError
  }

  /** A freshly submitted notification that no worker has processed yet makes the summary fail. */
  lemma SummaryFailsBeforeFirstProcessing(n: Notification)
    requires n.processedAt == None
    ensures GetSummary(map[]) == ServerError
    ensures GetSummary(map[n.id := n]) == ServerError
  {
  }

  /** GetSummary without the discarded average: it answers for every store, with the same counts. */
  function GetSummaryCorrected(s: Records): (r: Response<Summary>)
    ensures r.Ok? && r.value.averageProcessingTimeMs == ReportedAverageMs
    ensures r.value.sent + r.value.failed + r.value.pending <= r.value.total == |s|
    ensures GetSummary(s).Ok? ==> GetSummary(s) == r
  {
    Ok(Counts(s))
  }

  datatype ChannelSummary = ChannelSummary(channel: Option<string>, total: nat, sent: nat, failed: nat, pending: nat)

  /** The distinct Channel values present (null included). */
  function Channels(s: Records): set<Option<string>> {
    set k | k in s :: s[k].channel
  }

  /** The ids of the records whose channel is one of cs. */
  function InChannels(s: Records, cs: set<Option<string>>): set<Guid> {
    set k | k in s && s[k].channel in cs
  }

  function InChannel(s: Records, c: Option<string>): set<Guid> {
    set k | k in s && s[k].channel == c
  }

  function WithChannelStatus(s: Records, c: Option<string>, status: string): set<Guid> {
    set k | k in s && s[k].channel == c && s[k].status == Some(status)
  }

  /** One group of GroupBy(n => n.Channel). */
  function ChannelGroup(s: Records, c: Option<string>): (g: ChannelSummary)
    ensures g.channel == c && g.total == |InChannel(s, c)|
    ensures g.sent == |WithChannelStatus(s, c, SENT)| && g.failed == |WithChannelStatus(s, c, FAILED)|
    ensures g.pending == |WithChannelStatus(s, c, PENDING)|
    ensures g.sent + g.failed + g.pending <= g.total
  {
    DisjointCardinality(WithChannelStatus(s, c, SENT), WithChannelStatus(s, c, FAILED),
                        WithChannelStatus(s, c, PENDING), InChannel(s, c));
    ChannelSummary(c, |InChannel(s, c)|, |WithChannelStatus(s, c, SENT)|, |WithChannelStatus(s, c, FAILED)|,
                   |WithChannelStatus(s, c, PENDING)|)
  }

  function GroupsOver(s: Records, cs: set<Option<string>>): map<Option<string>, ChannelSummary> {
    map c | c in cs :: ChannelGroup(s, c)
  }

  /** GetByChannel: one group per distinct channel, each non-empty and with bounded status counts. */
  function GetByChannel(s: Records): (r: map<Option<string>, ChannelSummary>)
    ensures r.Keys == Channels(s)
    ensures forall c | c in r :: r[c] == ChannelGroup(s, c)
    ensures forall c | c in r :: r[c].channel == c && r[c].total > 0
    ensures forall c | c in r :: r[c].sent + r[c].failed + r[c].pending <= r[c].total
  {
    var r := GroupsOver(s, Channels(s));
    forall c | c in r ensures r[c].total > 0 {
      var k :| k in s && s[k].channel == c;
      assert k in InChannel(s, c);
    }
    r
  }

  ghost function Pick(g: map<Option<string>, ChannelSummary>): (c: Option<string>)
    requires g != map[]
    ensures c in g
  {
    var c :| c in g; c
  }

  /** The sum of the groups' totals. */
  ghost function SumTotals(g: map<Option<string>, ChannelSummary>): nat
    decreases |g|
  {
    if g == map[] then 0 else g[Pick(g)].total + SumTotals(g - {Pick(g)})
  }

  lemma GroupsWithout(s: Records, cs: set<Option<string>>, c: Option<string>)
    ensures GroupsOver(s, cs) - {c} == GroupsOver(s, cs - {c})
  {
  }

  lemma InChannelsSplit(s: Records, cs: set<Option<string>>, c: Option<string>)
    requires c in cs
    ensures |InChannels(s, cs)| == |InChannels(s, cs - {c})| + |InChannel(s, c)|
  {
    assert InChannels(s, cs) == InChannels(s, cs - {c}) + InChannel(s, c);
    assert InChannels(s, cs - {c}) !! InChannel(s, c);
  }

  lemma {:induction false} SumTotalsOver(s: Records, cs: set<Option<string>>)
    ensures SumTotals(GroupsOver(s, cs)) == |InChannels(s, cs)|
    decreases |cs|
  {
    var g := GroupsOver(s, cs);
    assert g.Keys == cs;
    if g == map[] {
      assert InChannels(s, cs) == {};
    } else {
      var c := Pick(g);
      GroupsWithout(s, cs, c);
      SumTotalsOver(s, cs - {c});
      InChannelsSplit(s, cs, c);
    }
  }

  /** Every record is in exactly one group: the group totals add up to the number of records. */
  lemma GroupTotalsCoverStore(s: Records)
    ensures SumTotals(GetByChannel(s)) == |s|
  {
    SumTotalsOver(s, Channels(s));
    assert InChannels(s, Channels(s)) == s.Keys;
  }

  /** A group's count for one of the three statuses it reports. */
  function Tally(g: ChannelSummary, status: string): nat {
    if status == SENT then g.sent else if status == FAILED then g.failed else if status == PENDING then g.pending else 0
  }

  /** The sum over the groups of their count for a status. */
  ghost function SumTally(g: map<Option<string>, ChannelSummary>, status: string): nat
    decreases |g|
  {
    if g == map[] then 0 else Tally(g[Pick(g)], status) + SumTally(g - {Pick(g)}, status)
  }

  /** The ids of the records with the given status whose channel is one of cs. */
  function InChannelsWithStatus(s: Records, cs: set<Option<string>>, status: string): set<Guid> {
    set k | k in s && s[k].channel in cs && s[k].status == Some(status)
  }

  lemma InChannelsWithStatusSplit(s: Records, cs: set<Option<string>>, c: Option<string>, status: string)
    requires c in cs
    ensures |InChannelsWithStatus(s, cs, status)|
            == |InChannelsWithStatus(s, cs - {c}, status)| + |WithChannelStatus(s, c, status)|
  {
    assert InChannelsWithStatus(s, cs, status)
           == InChannelsWithStatus(s, cs - {c}, status) + WithChannelStatus(s, c, status);
    assert InChannelsWithStatus(s, cs - {c}, status) !! WithChannelStatus(s, c, status);
  }

  lemma {:induction false} SumTallyOver(s: Records, cs: set<Option<string>>, status: string)
    requires status in {SENT, FAILED, PENDING}
    ensures SumTally(GroupsOver(s, cs), status) == |InChannelsWithStatus(s, cs, status)|
    decreases |cs|
  {
    var g := GroupsOver(s, cs);
    assert g.Keys == cs;
    if g == map[] {
      assert InChannelsWithStatus(s, cs, status) == {};
    } else {
      var c := Pick(g);
      GroupsWithout(s, cs, c);
      SumTallyOver(s, cs - {c}, status);
      InChannelsWithStatusSplit(s, cs, c, status);
    }
  }

  /**
   * The per-channel status counts add up to the store-wide ones: summed
   * over the groups, sent, failed and pending equal the summary's counts.
   */
  lemma GroupTalliesMatchSummary(s: Records)
    ensures SumTally(GetByChannel(s), SENT) == Counts(s).sent
    ensures SumTally(GetByChannel(s), FAILED) == Counts(s).failed
    ensures SumTally(GetByChannel(s), PENDING) == Counts(s).pending
  {
    SumTallyOver(s, Channels(s), SENT);
    assert InChannelsWithStatus(s, Channels(s), SENT) == WithStatus(s, SENT);
    SumTallyOver(s, Channels(s), FAILED);
    assert InChannelsWithStatus(s, Channels(s), FAILED) == WithStatus(s, FAILED);
    SumTallyOver(s, Channels(s), PENDING);
    assert InChannelsWithStatus(s, Channels(s), PENDING) == WithStatus(s, PENDING);
  }

  datatype TenantSummary = TenantSummary(total: nat, sent: nat)

  function OfTenant(s: Records, tenantId: string): set<Guid> {
    set k | k in s && s[k].tenantId == Some(tenantId)
  }

  function SentOfTenant(s: Records, tenantId: string): set<Guid> {
    set k | k in s && s[k].tenantId == Some(tenantId) && s[k].status == Some(SENT)
  }

  /**
   * GetSummary(tenantId): only records of that tenant count (a record with
   * no tenant belongs to none); the tenant's counts are within the
   * store-wide ones.
   */
  function GetTenantSummary(s: Records, tenantId: string): (r: TenantSummary)
    ensures r.total == |OfTenant(s, tenantId)| && r.sent == |SentOfTenant(s, tenantId)|
    ensures r.sent <= r.total <= |s|
    ensures r.sent <= Counts(s).sent
  {
    SubsetCardinality(SentOfTenant(s, tenantId), OfTenant(s, tenantId));
    SubsetCardinality(OfTenant(s, tenantId), s.Keys);
    SubsetCardinality(SentOfTenant(s, tenantId), WithStatus(s, SENT));
    TenantSummary(|OfTenant(s, tenantId)|, |SentOfTenant(s, tenantId)|)
  }

  /** The record was created no earlier than any other record in the store. */
  ghost predicate IsNewest(s: Records, k: Guid) {
    k in s && forall j | j in s :: s[j].createdAt <= s[k].createdAt
  }

  lemma {:induction false} NewestExists(s: Records)
    requires s != map[]
    ensures exists k :: IsNewest(s, k)
    decreases |s|
  {
    var k :| k in s;
    var rest := s - {k};
    assert rest.Keys == s.Keys - {k};
    if rest.Keys == {} {
      forall j | j in s ensures s[j].createdAt <= s[k].createdAt {
        assert j in rest.Keys || j == k;
      }
      assert IsNewest(s, k);
    } else {
      NewestExists(rest);
      var m :| IsNewest(rest, m);
      assert forall j | j in s && j != k :: j in rest && s[j].createdAt <= s[m].createdAt;
      if s[m].createdAt <= s[k].createdAt {
        assert IsNewest(s, k);
      } else {
        assert IsNewest(s, m);
      }
    }
  }

  /** A newest record; among records created at the same time the order is unspecified. */
  ghost function NewestKey(s: Records): (k: Guid)
    requires s != map[]
    ensures IsNewest(s, k)
  {
    NewestExists(s);
    var k :| IsNewest(s, k); k
  }

  /** The store without one record. */
  lemma Without(s: Records, k: Guid)
    requires k in s
    ensures (s - {k}).Keys == s.Keys - {k} && |s - {k}| == |s| - 1
    ensures forall j | j in s - {k} :: (s - {k})[j] == s[j]
  {
    assert (s - {k}).Keys == s.Keys - {k};
  }

  /**
   * OrderByDescending(n => n.CreatedAt).Take(n), as keys: stored records,
   * taken newest first by repeated choice of a newest one.
   */
  ghost function TopKeys(s: Records, n: nat): (r: seq<Guid>)
    ensures |r| == Min(n, |s|)
    ensures forall i | 0 <= i < |r| :: r[i] in s
    decreases n
  {
    if n == 0 || s == map[] then []
    else
      var k := NewestKey(s);
      Without(s, k);
      [k] + TopKeys(s - {k}, n - 1)
  }

  /** No record is listed twice. */
  lemma {:induction false} TopKeysDistinct(s: Records, n: nat)
    ensures var r := TopKeys(s, n); forall i, j | 0 <= i < j < |r| :: r[i] != r[j]
    decreases n
  {
    if n != 0 && s != map[] {
      var k := NewestKey(s);
      Without(s, k);
      TopKeysDistinct(s - {k}, n - 1);
      var r := TopKeys(s, n);
      assert r == [k] + TopKeys(s - {k}, n - 1);
    }
  }

  /** Listed records, each created no later than the ones before it. */
  ghost predicate Descending(s: Records, r: seq<Guid>) {
    (forall i | 0 <= i < |r| :: r[i] in s) &&
    forall i, j | 0 <= i < j < |r| :: s[r[j]].createdAt <= s[r[i]].createdAt
  }

  /** Every stored record left out of r was created no later than any record listed. */
  ghost predicate NewerListed(s: Records, r: seq<Guid>) {
    (forall i | 0 <= i < |r| :: r[i] in s) &&
    forall k, i | k in s && k !in r && 0 <= i < |r| :: s[k].createdAt <= s[r[i]].createdAt
  }

  lemma DescendingCons(s: Records, k: Guid, tail: seq<Guid>)
    requires IsNewest(s, k) && Descending(s - {k}, tail)
    ensures Descending(s, [k] + tail)
  {
    Without(s, k);
    var r := [k] + tail;
    forall i, j | 0 <= i < j < |r| ensures s[r[j]].createdAt <= s[r[i]].createdAt {
      assert r[j] == tail[j - 1];
      if i > 0 {
        assert r[i] == tail[i - 1];
        assert (s - {k})[tail[j - 1]].createdAt <= (s - {k})[tail[i - 1]].createdAt;
      }
    }
  }

  lemma NewerListedCons(s: Records, k: Guid, tail: seq<Guid>)
    requires IsNewest(s, k) && NewerListed(s - {k}, tail)
    ensures NewerListed(s, [k] + tail)
  {
    Without(s, k);
    var r := [k] + tail;
    forall j, i | j in s && j !in r && 0 <= i < |r| ensures s[j].createdAt <= s[r[i]].createdAt {
      if i > 0 {
        assert r[i] == tail[i - 1];
        assert j in s - {k} && j !in tail;
        assert (s - {k})[j].createdAt <= (s - {k})[tail[i - 1]].createdAt;
      }
    }
  }

  /** The list is ordered by creation time, newest first. */
  lemma {:induction false} TopKeysDescending(s: Records, n: nat)
    ensures Descending(s, TopKeys(s, n))
    decreases n
  {
    if n != 0 && s != map[] {
      var k := NewestKey(s);
      Without(s, k);
      TopKeysDescending(s - {k}, n - 1);
      DescendingCons(s, k, TopKeys(s - {k}, n - 1));
    }
  }

  /** No record left out is newer than a record listed. */
  lemma {:induction false} TopKeysNewest(s: Records, n: nat)
    ensures NewerListed(s, TopKeys(s, n))
    decreases n
  {
    if n != 0 && s != map[] {
      var k := NewestKey(s);
      Without(s, k);
      TopKeysNewest(s - {k}, n - 1);
      NewerListedCons(s, k, TopKeys(s - {k}, n - 1));
    }
  }

  datatype RecentRow = RecentRow(id: Guid, channel: Option<string>, status: Option<string>, createdAt: Time,
                                 processedAt: Option<Time>)

  function RowOf(n: Notification): RecentRow {
    RecentRow(n.id, n.channel, n.status, n.createdAt, n.processedAt)
  }

  /** Rows newest first. */
  ghost predicate RowsDescending(r: seq<RecentRow>) {
    forall i, j | 0 <= i < j < |r| :: r[j].createdAt <= r[i].createdAt
  }

  /** Every row shows a stored record. */
  ghost predicate RowsFromStore(s: Records, r: seq<RecentRow>) {
    forall i | 0 <= i < |r| :: exists k | k in s :: r[i] == RowOf(s[k])
  }

  /** Every record created after the last row is listed. */
  ghost predicate RowsCoverNewer(s: Records, r: seq<RecentRow>) {
    r != [] ==> forall k | k in s && s[k].createdAt > r[|r| - 1].createdAt :: RowOf(s[k]) in r
  }

  /** No record is shown twice. */
  ghost predicate RowsDistinct(r: seq<RecentRow>) {
    forall i, j | 0 <= i < j < |r| :: r[i] != r[j]
  }

  /**
   * GetRecent: at most 20 rows of stored records, newest first, the i-th
   * being the i-th record of the newest-first order; every record created
   * after the last row listed is itself listed, and when each record is
   * stored under its own id no record appears twice.
   */
  ghost function GetRecent(s: Records): (r: seq<RecentRow>)
    ensures |r| == Min(RecentLimit, |s|)
    ensures forall i | 0 <= i < |r| :: r[i] == RowOf(s[TopKeys(s, RecentLimit)[i]])
    ensures RowsDescending(r) && RowsFromStore(s, r) && RowsCoverNewer(s, r)
    ensures Keyed(s) ==> RowsDistinct(r)
  {
    var keys := TopKeys(s, RecentLimit);
    var r := seq(|keys|, i requires 0 <= i < |keys| => RowOf(s[keys[i]]));
    RowsOfTopKeys(s, keys, r);
    r
  }

  lemma RowsOfTopKeys(s: Records, keys: seq<Guid>, r: seq<RecentRow>)
    requires keys == TopKeys(s, RecentLimit)
    requires |r| == |keys| && forall i | 0 <= i < |r| :: r[i] == RowOf(s[keys[i]])
    ensures RowsDescending(r) && RowsFromStore(s, r) && RowsCoverNewer(s, r)
    ensures Keyed(s) ==> RowsDistinct(r)
  {
    TopKeysDescending(s, RecentLimit);
    TopKeysNewest(s, RecentLimit);
    TopKeysDistinct(s, RecentLimit);
    if Keyed(s) {
      forall i, j | 0 <= i < j < |r| ensures r[i] != r[j] {
        assert r[i].id == keys[i] && r[j].id == keys[j];
      }
    }
    forall i | 0 <= i < |r| ensures exists k | k in s :: r[i] == RowOf(s[k]) {
      assert keys[i] in s;
    }
    forall k | k in s && r != [] && s[k].createdAt > r[|r| - 1].createdAt
      ensures RowOf(s[k]) in r
    {
      assert r[|r| - 1].createdAt == s[keys[|keys| - 1]].createdAt;
      assert k in keys;
      var i :| 0 <= i < |keys| && keys[i] == k;
      assert r[i] == RowOf(s[k]);
    }
  }
}
