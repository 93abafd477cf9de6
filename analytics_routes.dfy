/** The analytics routes (backend/src/routes/analyticsRoutes.js): the dashboard summary with
    its per-status breakdown, and the filtered, paged list of message logs. The `/queue` route
    only returns `QueueService.GetQueueStats`. */
module AnalyticsRoutes {
  import opened Common
  import opened Paging
  import opened MessageLogModel
  import opened CampaignModel
  import opened ContactModel
  import opened QueueService
  import opened CampaignController

  // ---------------------------------------------------------------------------------------
  // countDocuments

  /** `countDocuments(filter)` over a collection. */
  function CountWhere<T>(s: seq<T>, p: T -> bool): (r: nat)
    ensures r <= |s|
  {
    if s == [] then 0 else CountWhere(s[..|s| - 1], p) + (if p(s[|s| - 1]) then 1 else 0)
  }

  /** The ids of the documents a filter selects. */
  function Selected<T>(s: seq<T>, p: T -> bool): set<nat> {
    set i | 0 <= i < |s| && p(s[i])
  }

  /** The count is the number of documents the filter selects. */
  lemma {:induction false} CountWhereCountsSelected<T>(s: seq<T>, p: T -> bool)
    ensures CountWhere(s, p) == |Selected(s, p)|
  {
    if s != [] {
      var n := |s| - 1;
      CountWhereCountsSelected(s[..n], p);
      assert Selected(s[..n], p) == set i | 0 <= i < n && p(s[i]);
      if p(s[n]) {
        assert Selected(s, p) == Selected(s[..n], p) + {n};
      } else {
        assert Selected(s, p) == Selected(s[..n], p);
      }
    }
  }

  // ---------------------------------------------------------------------------------------
  // Status breakdown

  /** One `{ _id: status, count }` result of the `$group` stage. */
  datatype Group = Group(id: string, count: nat)

  const StatusKeys: set<string> := {"queued", "sending", "sent", "delivered", "read", "failed"}

  const AllStatuses: seq<Status> := [Queued, Sending, Sent, Delivered, Read, Failed]

  lemma StatusKeysAreNames(s: Status)
    ensures StatusName(s) in StatusKeys && s in AllStatuses
  {
  }

  /** The `$group` stage: one group per status that some log has, with its count. */
  function GroupsOf(logs: seq<LogRecord>, ss: seq<Status>): (r: seq<Group>)
    ensures forall g :: g in r <==> exists s :: s in ss && CountStatus(logs, s) > 0
                                                && g == Group(StatusName(s), CountStatus(logs, s))
  {
    if ss == [] then []
    else
      var rest := GroupsOf(logs, ss[1..]);
      assert forall s :: s in ss <==> s == ss[0] || s in ss[1..];
      if CountStatus(logs, ss[0]) > 0 then [Group(StatusName(ss[0]), CountStatus(logs, ss[0]))] + rest
      else rest
  }

  function GroupByStatus(logs: seq<LogRecord>): (r: seq<Group>)
    ensures forall g :: g in r <==> exists s :: CountStatus(logs, s) > 0 && g == Group(StatusName(s), CountStatus(logs, s))
  {
    var r := GroupsOf(logs, AllStatuses);
    assert forall s: Status :: s in AllStatuses by {
      forall s: Status ensures s in AllStatuses {
        StatusKeysAreNames(s);
      }
    }
    r
  }

  /** The `stats` object before the `forEach`: every status at 0. */
  const ZeroBreakdown: map<string, nat> :=
    map["queued" := 0, "sending" := 0, "sent" := 0, "delivered" := 0, "read" := 0, "failed" := 0]

  /** The `stats` object after the `forEach`: all six keys start at 0 and every group
      overwrites its own key. */
  function BreakdownOf(groups: seq<Group>): (r: map<string, nat>)
    ensures r.Keys == StatusKeys + set g | g in groups :: g.id
  {
    if groups == [] then ZeroBreakdown
    else
      var n := |groups| - 1;
      var prev := BreakdownOf(groups[..n]);
      assert forall g :: g in groups <==> g in groups[..n] || g == groups[n];
      prev[groups[n].id := groups[n].count]
  }

  /** A key no group names stays 0; any other holds the count of a group with that id. */
  lemma {:induction false} BreakdownOfValue(groups: seq<Group>, k: string)
    requires k in BreakdownOf(groups)
    ensures (forall g :: g in groups ==> g.id != k) ==> BreakdownOf(groups)[k] == 0
    ensures (exists g :: g in groups && g.id == k) ==>
              exists g :: g in groups && g.id == k && BreakdownOf(groups)[k] == g.count
  {
    if groups != [] {
      var n := |groups| - 1;
      var prev := groups[..n];
      assert forall g :: g in groups <==> g in prev || g == groups[n];
      if groups[n].id == k {
        assert groups[n] in groups;
      } else {
        BreakdownOfValue(prev, k);
      }
    }
  }

  /** The `stats` loop as the route runs it. */
  method Breakdown(groups: seq<Group>) returns (stats: map<string, nat>)
    ensures stats == BreakdownOf(groups)
  {
    stats := ZeroBreakdown;
    for i := 0 to |groups|
      invariant stats == BreakdownOf(groups[..i])
    {
      assert groups[..i + 1][..i] == groups[..i];
      stats := stats[groups[i].id := groups[i].count];
    }
    assert groups[..|groups|] == groups;
  }

  /** A group's id names its status, so its count is that status's count. */
  lemma GroupCountOfStatus(logs: seq<LogRecord>, g: Group, s: Status)
    requires g in GroupByStatus(logs) && g.id == StatusName(s)
    ensures g.count == CountStatus(logs, s)
  {
    var s' :| s' in AllStatuses && CountStatus(logs, s') > 0 && g == Group(StatusName(s'), CountStatus(logs, s'));
    ParseStatusName(s);
    ParseStatusName(s');
  }

  /** Each status key of the summary's `messageStats` holds the number of logs in that
      status, 0 for a status no log has. */
  lemma BreakdownCountsStatus(logs: seq<LogRecord>, s: Status)
    ensures StatusName(s) in BreakdownOf(GroupByStatus(logs))
    ensures BreakdownOf(GroupByStatus(logs))[StatusName(s)] == CountStatus(logs, s)
  {
    var groups := GroupByStatus(logs);
    var k := StatusName(s);
    StatusKeysAreNames(s);
    forall g | g in groups && g.id == k ensures g.count == CountStatus(logs, s) {
      GroupCountOfStatus(logs, g, s);
    }
    BreakdownOfValue(groups, k);
    if CountStatus(logs, s) > 0 {
      assert Group(k, CountStatus(logs, s)) in groups;
    }
  }

  /** `messageStats` has exactly the six status keys and no other. */
  lemma BreakdownKeys(logs: seq<LogRecord>)
    ensures BreakdownOf(GroupByStatus(logs)).Keys == StatusKeys
  {
    forall g | g in GroupByStatus(logs) ensures g.id in StatusKeys {
      var s :| s in AllStatuses && CountStatus(logs, s) > 0 && g == Group(StatusName(s), CountStatus(logs, s));
      StatusKeysAreNames(s);
    }
  }

  /** `Contact.countDocuments({ isActive: true })` counts these. */
  predicate IsActiveContact(c: Contact) {
    c.isActive
  }

  /** `Campaign.countDocuments({ status: 'in_progress' })` counts these. */
  predicate IsRunning(c: Campaign) {
    c.status == InProgress
  }

  datatype Summary = Summary(totalContacts: nat, totalCampaigns: nat, activeCampaigns: nat,
                             totalMessages: nat, messageStats: map<string, nat>, queueStats: QueueStats)

  /** `GET /summary`. The queue's job counts come from the queue and are passed in. */
  method GetSummary(contacts: ContactCollection, campaigns: CampaignCollection, logs: LogCollection,
                    queue: QueueCounts) returns (s: Summary)
    ensures s.totalContacts == |Selected(contacts.records, IsActiveContact)|
    ensures s.totalCampaigns == |campaigns.records|
    ensures s.activeCampaigns == |Selected(campaigns.records, IsRunning)|
    ensures s.totalMessages == |logs.records|
    ensures s.messageStats.Keys == StatusKeys
    ensures forall st: Status :: s.messageStats[StatusName(st)] == CountStatus(logs.records, st)
    ensures s.queueStats == GetQueueStats(queue)
  {
    var cs, ps, ls := contacts.records, campaigns.records, logs.records;
    var totalContacts := CountWhere(cs, IsActiveContact);
    var activeCampaigns := CountWhere(ps, IsRunning);
    CountWhereCountsSelected(cs, IsActiveContact);
    CountWhereCountsSelected(ps, IsRunning);
    var stats := Breakdown(GroupByStatus(ls));
    BreakdownKeys(ls);
    forall st: Status ensures StatusName(st) in stats && stats[StatusName(st)] == CountStatus(ls, st) {
      BreakdownCountsStatus(ls, st);
    }
    s := Summary(totalContacts, |ps|, activeCampaigns, |ls|, stats, GetQueueStats(queue));
  }

  // ---------------------------------------------------------------------------------------
  // Message logs listing

  datatype DateRange = DateRange(gte: Option<Time>, lte: Option<Time>)

  /** The MongoDB filter the route builds; an absent field does not constrain. */
  datatype LogQuery = LogQuery(status: Option<string>, campaignId: Option<nat>, createdAt: Option<DateRange>)

  predicate Matches(q: LogQuery, l: LogRecord) {
    && (q.status.Some? ==> StatusName(l.status) == q.status.value)
    && (q.campaignId.Some? ==> l.campaignId == q.campaignId.value)
    && (q.createdAt.Some? ==>
          && (q.createdAt.value.gte.Some? ==> l.createdAt >= q.createdAt.value.gte.value)
          && (q.createdAt.value.lte.Some? ==> l.createdAt <= q.createdAt.value.lte.value))
  }

  /** The filter for the query-string values; the dates arrive already converted. */
  function LogFilter(status: Option<string>, campaignId: Option<nat>,
                     startDate: Option<Time>, endDate: Option<Time>): (q: LogQuery)
    ensures q.status.Some? <==> status.Some? && Truthy(status.value)
    ensures q.createdAt.Some? <==> startDate.Some? || endDate.Some?
  {
    LogQuery(if status.Some? && Truthy(status.value) then status else None,
             campaignId,
             if startDate.Some? || endDate.Some? then Some(DateRange(startDate, endDate)) else None)
  }

  /** The filter selects a log exactly when it meets every condition that was given. */
  lemma LogFilterSelects(status: Option<string>, campaignId: Option<nat>,
                         startDate: Option<Time>, endDate: Option<Time>, l: LogRecord)
    ensures Matches(LogFilter(status, campaignId, startDate, endDate), l) <==>
              && (status.Some? && Truthy(status.value) ==> StatusName(l.status) == status.value)
              && (campaignId.Some? ==> l.campaignId == campaignId.value)
              && (startDate.Some? ==> l.createdAt >= startDate.value)
              && (endDate.Some? ==> l.createdAt <= endDate.value)
  {
  }

  /** A status that names none of the six selects no log at all. */
  lemma UnknownStatusSelectsNothing(status: string, campaignId: Option<nat>,
                                    startDate: Option<Time>, endDate: Option<Time>, l: LogRecord)
    requires Truthy(status) && ParseStatus(status).None?
    ensures !Matches(LogFilter(Some(status), campaignId, startDate, endDate), l)
  {
  }

  /** The filter object as the route builds it, field by field. */
  method BuildLogQuery(status: Option<string>, campaignId: Option<nat>,
                       startDate: Option<Time>, endDate: Option<Time>) returns (q: LogQuery)
    ensures q == LogFilter(status, campaignId, startDate, endDate)
  {
    q := LogQuery(None, None, None);
    if status.Some? && Truthy(status.value) {
      q := q.(status := status);
    }
    if campaignId.Some? {
      q := q.(campaignId := campaignId);
    }
    if startDate.Some? || endDate.Some? {
      var range := DateRange(None, None);
      if startDate.Some? {
        range := range.(gte := startDate);
      }
      if endDate.Some? {
        range := range.(lte := endDate);
      }
      q := q.(createdAt := Some(range));
    }
  }

  function MatchingLogs(logs: seq<LogRecord>, q: LogQuery): (r: seq<LogRecord>)
    ensures |r| <= |logs|
    ensures forall l :: l in r <==> l in logs && Matches(q, l)
  {
    if logs == [] then []
    else
      var n := |logs| - 1;
      assert logs == logs[..n] + [logs[n]];
      var rest := MatchingLogs(logs[..n], q);
      if Matches(q, logs[n]) then rest + [logs[n]] else rest
  }

  const DefaultLogLimit: nat := 50

  /** `GET /logs`: the matching logs newest first, one page, with their total; `page`
      defaults to 1 and `limit` to 50. */
  function GetLogs(logs: seq<LogRecord>, q: LogQuery, page: Option<int>, limit: Option<nat>): (r: Option<Listing<LogRecord>>)
    ensures var p := if page.Some? then page.value else 1;
            var n := if limit.Some? then limit.value else DefaultLogLimit;
            && (r.None? <==> p < 1 && n > 0)
            && (r.Some? ==>
                  && r.value.data == Window(Reverse(MatchingLogs(logs, q)), p, n).value
                  && r.value.total == |MatchingLogs(logs, q)|
                  && r.value.pages == PageCount(|MatchingLogs(logs, q)|, n)
                  && (n > 0 ==> |r.value.data| <= n)
                  && forall l :: l in r.value.data ==> l in logs && Matches(q, l))
  {
    var p := if page.Some? then page.value else 1;
    var n := if limit.Some? then limit.value else DefaultLogLimit;
    var matching := MatchingLogs(logs, q);
    PageHoldsMatching(matching, p, n);
    ListPage(Reverse(matching), p, n)
  }

  lemma PageHoldsMatching(matching: seq<LogRecord>, p: int, n: nat)
    ensures var r := ListPage(Reverse(matching), p, n);
            r.Some? ==> forall l :: l in r.value.data ==> l in matching
  {
    var r := ListPage(Reverse(matching), p, n);
    if r.Some? {
      forall l | l in r.value.data ensures l in matching {
        var k :| 0 <= k < |r.value.data| && r.value.data[k] == l;
        assert l == Reverse(matching)[SkipCount(p, n) + k];
      }
    }
  }
}
