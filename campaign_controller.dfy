/** The campaign controller (backend/src/controllers/campaignController.js): campaign creation
    with its fan-out into one message log and one queued job per recipient, the detail read
    that recomputes the counters from the logs and infers completion, the failed-message
    report, and the campaign listing. */
module CampaignController {
  import opened Common
  import opened Paging
  import opened MessageLogModel
  import opened CampaignModel
  import opened ContactModel
  import opened WhatsAppService
  import opened QueueService

  // ---------------------------------------------------------------------------------------
  // Creation and fan-out

  /** The request body; an absent field is `None`. */
  datatype CampaignRequest = CampaignRequest(
    name: Option<string>,
    description: Option<string>,
    templateName: Option<string>,
    templateLanguage: Option<string>,
    targetTags: Option<seq<string>>,
    variables: Option<seq<string>>)

  /** The request once validated, with its defaults filled in. */
  datatype CampaignInput = CampaignInput(
    name: string,
    description: Option<string>,
    templateName: string,
    templateLanguage: string,
    targetTags: seq<string>,
    variables: seq<string>)

  datatype CreateResponse = Created(campaignId: nat, totalMessages: nat) | CreateRejected(message: string)

  const MissingFields: string := "Campaign name and template name are required"
  const NoRecipients: string := "No contacts found matching the criteria"

  /** The destructuring defaults and the required-field check: a missing or empty name or
      template name is refused; the language defaults to "en", tags and variables to []. */
  function Validate(req: CampaignRequest): (r: Option<CampaignInput>)
    ensures r.None? <==> req.name.None? || !Truthy(req.name.value)
                         || req.templateName.None? || !Truthy(req.templateName.value)
    ensures r.Some? ==> r.value.name == req.name.value && r.value.templateName == req.templateName.value
                        && r.value.description == req.description
    ensures r.Some? ==> r.value.templateLanguage == if req.templateLanguage.Some? then req.templateLanguage.value else DefaultLanguage
    ensures r.Some? ==> r.value.targetTags == if req.targetTags.Some? then req.targetTags.value else []
    ensures r.Some? ==> r.value.variables == if req.variables.Some? then req.variables.value else []
  {
    if req.name.None? || !Truthy(req.name.value) || req.templateName.None? || !Truthy(req.templateName.value) then None
    else
      Some(CampaignInput(
        req.name.value, req.description, req.templateName.value,
        if req.templateLanguage.Some? then req.templateLanguage.value else DefaultLanguage,
        if req.targetTags.Some? then req.targetTags.value else [],
        if req.variables.Some? then req.variables.value else []))
  }

  /** `{ isActive: true, tags: { $in: targetTags } }`, the tag condition only for a non-empty
      tag list. */
  predicate IsRecipient(c: Contact, targetTags: seq<string>) {
    c.isActive && (|targetTags| == 0 || exists t :: t in targetTags && t in c.tags)
  }

  /** `Contact.find(query)`: the ids of the matching contacts, in store order. */
  function Recipients(contacts: seq<Contact>, targetTags: seq<string>): (r: seq<nat>)
    ensures forall k :: 0 <= k < |r| ==> r[k] < |contacts| && IsRecipient(contacts[r[k]], targetTags)
    ensures forall i :: 0 <= i < |contacts| && IsRecipient(contacts[i], targetTags) ==> i in r
    ensures forall k, l :: 0 <= k < l < |r| ==> r[k] < r[l]
  {
    if contacts == [] then []
    else
      var n := |contacts| - 1;
      var rest := Recipients(contacts[..n], targetTags);
      if IsRecipient(contacts[n], targetTags) then rest + [n] else rest
  }

  /** The campaign `Campaign.create` stores for `n` recipients. */
  function NewCampaign(input: CampaignInput, n: nat, now: Time): (c: Campaign)
    ensures c.totalContacts == n && c.status == InProgress && c.startedAt == Some(now)
    ensures c.stats == ZeroStats.(queued := n) && CounterSum(c.stats) == c.totalContacts
  {
    Campaign(input.name, input.description, input.templateName, input.templateLanguage, input.targetTags,
             n, InProgress, Some(now), None, ZeroStats.(queued := n))
  }

  /** The log created for the recipient `contact` (whose id is `contactId`). */
  function RecipientLog(contact: Contact, contactId: nat, cid: nat, input: CampaignInput, now: Time): LogRecord {
    NewLog(cid, contactId, FormatPhoneNumber(contact.phoneNumber), input.templateName,
           input.templateLanguage, input.variables, now)
  }

  /** The queue data pushed for the recipient `contact` once its log has the id `logId`. */
  function RecipientJob(contact: Contact, logId: nat, cid: nat, input: CampaignInput): JobData {
    JobData(logId, FormatPhoneNumber(contact.phoneNumber), input.templateName,
            input.templateLanguage, input.variables, cid)
  }

  /** The message logs of the fan-out: one per recipient, in recipient order. */
  function FanOutLogs(contacts: seq<Contact>, ids: seq<nat>, cid: nat, input: CampaignInput, now: Time): (r: seq<LogRecord>)
    requires forall k :: 0 <= k < |ids| ==> ids[k] < |contacts|
    ensures |r| == |ids|
  {
    seq(|ids|, k requires 0 <= k < |ids| => RecipientLog(contacts[ids[k]], ids[k], cid, input, now))
  }

  /** The queue data of the fan-out: job `k` names the `k`-th log created, whose id is `base + k`. */
  function FanOutJobs(contacts: seq<Contact>, ids: seq<nat>, cid: nat, base: nat, input: CampaignInput): (r: seq<JobData>)
    requires forall k :: 0 <= k < |ids| ==> ids[k] < |contacts|
    ensures |r| == |ids|
  {
    seq(|ids|, k requires 0 <= k < |ids| => RecipientJob(contacts[ids[k]], base + k, cid, input))
  }

  /** Every queued job names a log that exists once the fan-out is done, and that log is the
      one created for the same recipient: same campaign, number, template and variables,
      still 'queued'. */
  lemma FanOutJobsMatchTheirLogs(logs: seq<LogRecord>, contacts: seq<Contact>, ids: seq<nat>, cid: nat,
                                 input: CampaignInput, now: Time)
    requires forall k :: 0 <= k < |ids| ==> ids[k] < |contacts|
    ensures var all := logs + FanOutLogs(contacts, ids, cid, input, now);
            var jobs := FanOutJobs(contacts, ids, cid, |logs|, input);
            forall k :: 0 <= k < |jobs| ==>
              var j := jobs[k];
              && |logs| <= j.messageLogId < |all|
              && all[j.messageLogId].campaignId == j.campaignId == cid
              && all[j.messageLogId].contactId == ids[k]
              && all[j.messageLogId].phoneNumber == j.phoneNumber
              && all[j.messageLogId].templateName == j.templateName
              && all[j.messageLogId].templateLanguage == j.languageCode
              && all[j.messageLogId].variables == j.variables
              && all[j.messageLogId].status == Queued
  {
    var created := FanOutLogs(contacts, ids, cid, input, now);
    var all := logs + created;
    var jobs := FanOutJobs(contacts, ids, cid, |logs|, input);
    forall k | 0 <= k < |jobs|
      ensures jobs[k].messageLogId == |logs| + k && all[|logs| + k] == created[k]
      ensures created[k] == RecipientLog(contacts[ids[k]], ids[k], cid, input, now)
      ensures jobs[k] == RecipientJob(contacts[ids[k]], |logs| + k, cid, input)
    {
    }
  }

  /** `createCampaign`: validate, select the recipients, create the campaign, create the logs
      one by one while collecting the queue data, then enqueue everything in one bulk call.
      A refused request changes no store. */
  method CreateCampaign(contacts: ContactCollection, campaigns: CampaignCollection, logs: LogCollection,
                        queue: MessageQueue, req: CampaignRequest, now: Time)
    returns (resp: CreateResponse)
    modifies campaigns, logs, queue
    ensures Validate(req).None? ==>
              resp == CreateRejected(MissingFields)
              && campaigns.records == old(campaigns.records) && logs.records == old(logs.records)
              && queue.jobs == old(queue.jobs) && queue.nextId == old(queue.nextId)
    ensures Validate(req).Some? && |Recipients(contacts.records, Validate(req).value.targetTags)| == 0 ==>
              resp == CreateRejected(NoRecipients)
              && campaigns.records == old(campaigns.records) && logs.records == old(logs.records)
              && queue.jobs == old(queue.jobs) && queue.nextId == old(queue.nextId)
    ensures Validate(req).Some? && |Recipients(contacts.records, Validate(req).value.targetTags)| > 0 ==>
              var input := Validate(req).value;
              var ids := Recipients(contacts.records, input.targetTags);
              var cid := |old(campaigns.records)|;
              var jobs := FanOutJobs(contacts.records, ids, cid, |old(logs.records)|, input);
              && resp == Created(cid, |ids|)
              && campaigns.records == old(campaigns.records) + [NewCampaign(input, |ids|, now)]
              && logs.records == old(logs.records) + FanOutLogs(contacts.records, ids, cid, input, now)
              && queue.jobs == old(queue.jobs) + seq(|jobs|, i requires 0 <= i < |jobs| =>
                                                     Job(old(queue.nextId) + i, BulkRequests(jobs)[i]))
  {
    var validated := Validate(req);
    if validated.None? {
      return CreateRejected(MissingFields);
    }
    var input := validated.value;
    var ids := Recipients(contacts.records, input.targetTags);
    if |ids| == 0 {
      return CreateRejected(NoRecipients);
    }
    var cid := campaigns.Create(NewCampaign(input, |ids|, now));
    var queueData := CreateLogs(contacts, logs, ids, cid, input, now);
    var refs := QueueBulkMessages(queue, queueData);
    resp := Created(cid, |ids|);
  }

  /** The loop of `createCampaign`: one `MessageLog.create` per recipient, pushing the queue
      data of each log as soon as its id is known. */
  method CreateLogs(contacts: ContactCollection, logs: LogCollection, ids: seq<nat>, cid: nat,
                    input: CampaignInput, now: Time)
    returns (queueData: seq<JobData>)
    requires forall k :: 0 <= k < |ids| ==> ids[k] < |contacts.records|
    modifies logs
    ensures logs.records == old(logs.records) + FanOutLogs(contacts.records, ids, cid, input, now)
    ensures queueData == FanOutJobs(contacts.records, ids, cid, |old(logs.records)|, input)
  {
    var cs := contacts.records;
    ghost var created := FanOutLogs(cs, ids, cid, input, now);
    ghost var jobs := FanOutJobs(cs, ids, cid, |logs.records|, input);
    queueData := [];
    var k := 0;
    while k < |ids|
      invariant 0 <= k <= |ids|
      invariant logs.records == old(logs.records) + created[..k]
      invariant |logs.records| == |old(logs.records)| + k
      invariant queueData == jobs[..k]
    {
      ghost var before := logs.records;
      assert created[k] == RecipientLog(cs[ids[k]], ids[k], cid, input, now);
      assert jobs[k] == RecipientJob(cs[ids[k]], |before|, cid, input);
      var data := CreateLog(logs, cs[ids[k]], ids[k], cid, input, now);
      PrefixGrows(created, k);
      PrefixGrows(jobs, k);
      AppendAssoc(old(logs.records), created[..k], [created[k]]);
      queueData := queueData + [data];
      k := k + 1;
    }
    assert created[..k] == created && jobs[..k] == jobs;
  }

  /** One iteration: create the recipient's log and return its queue data. */
  method CreateLog(logs: LogCollection, contact: Contact, contactId: nat, cid: nat, input: CampaignInput, now: Time)
    returns (data: JobData)
    modifies logs
    ensures logs.records == old(logs.records) + [RecipientLog(contact, contactId, cid, input, now)]
    ensures data == RecipientJob(contact, |old(logs.records)|, cid, input)
  {
    var phone := FormatPhoneNumber(contact.phoneNumber);
    var logId := logs.Create(NewLog(cid, contactId, phone, input.templateName, input.templateLanguage, input.variables, now));
    data := JobData(logId, phone, input.templateName, input.templateLanguage, input.variables, cid);
  }

  /** Sequence steps of the `CreateLogs` loop, kept apart so that the loop body stays small. */
  lemma AppendAssoc<T>(a: seq<T>, b: seq<T>, c: seq<T>)
    ensures (a + b) + c == a + (b + c)
  {
  }

  lemma PrefixGrows<T>(s: seq<T>, k: nat)
    requires k < |s|
    ensures s[..k + 1] == s[..k] + [s[k]]
  {
  }

  // ---------------------------------------------------------------------------------------
  // Recomputed statistics

  /** `MessageLog.find({ campaignId })`: the logs of one campaign, in store order. */
  function LogsOf(logs: seq<LogRecord>, cid: nat): (r: seq<LogRecord>)
    ensures |r| <= |logs|
    ensures forall l :: l in r <==> l in logs && l.campaignId == cid
  {
    if logs == [] then []
    else
      var rest := LogsOf(logs[..|logs| - 1], cid);
      var last := logs[|logs| - 1];
      assert logs == logs[..|logs| - 1] + [last];
      if last.campaignId == cid then rest + [last] else rest
  }

  lemma {:induction false} LogsOfConcat(a: seq<LogRecord>, b: seq<LogRecord>, cid: nat)
    ensures LogsOf(a + b, cid) == LogsOf(a, cid) + LogsOf(b, cid)
    decreases |b|
  {
    if b == [] {
      assert a + b == a;
    } else {
      assert (a + b)[..|a + b| - 1] == a + b[..|b| - 1];
      LogsOfConcat(a, b[..|b| - 1], cid);
    }
  }

  /** `messageLogs.filter(m => m.status === st).length`. */
  function CountStatus(ls: seq<LogRecord>, st: Status): (r: nat)
    ensures r <= |ls|
  {
    if ls == [] then 0
    else CountStatus(ls[..|ls| - 1], st) + (if ls[|ls| - 1].status == st then 1 else 0)
  }

  lemma {:induction false} CountStatusConcat(a: seq<LogRecord>, b: seq<LogRecord>, st: Status)
    ensures CountStatus(a + b, st) == CountStatus(a, st) + CountStatus(b, st)
    decreases |b|
  {
    if b == [] {
      assert a + b == a;
    } else {
      assert (a + b)[..|a + b| - 1] == a + b[..|b| - 1];
      CountStatusConcat(a, b[..|b| - 1], st);
    }
  }

  /** Counting does not depend on the order: the logs sorted newest first give the same counts. */
  lemma {:induction false} CountStatusReverse(ls: seq<LogRecord>, st: Status)
    ensures CountStatus(Reverse(ls), st) == CountStatus(ls, st)
  {
    if ls != [] {
      CountStatusReverse(ls[1..], st);
      CountStatusConcat(Reverse(ls[1..]), [ls[0]], st);
      CountStatusConcat([ls[0]], ls[1..], st);
      assert [ls[0]][..0] == [];
      assert [ls[0]] + ls[1..] == ls;
    }
  }

  /** A list whose logs all have status `s` counts all of them under `s` and none elsewhere. */
  lemma {:induction false} CountUniform(ls: seq<LogRecord>, s: Status, st: Status)
    requires forall i :: 0 <= i < |ls| ==> ls[i].status == s
    ensures CountStatus(ls, st) == if st == s then |ls| else 0
  {
    if ls != [] {
      CountUniform(ls[..|ls| - 1], s, st);
    }
  }

  /** The six counts of the detail read, `sending` included. */
  datatype LiveStats = LiveStats(queued: nat, sending: nat, sent: nat, delivered: nat, read: nat, failed: nat)

  function LiveStatsOf(ls: seq<LogRecord>): LiveStats {
    LiveStats(CountStatus(ls, Queued), CountStatus(ls, Sending), CountStatus(ls, Sent),
              CountStatus(ls, Delivered), CountStatus(ls, Read), CountStatus(ls, Failed))
  }

  function LiveTotal(s: LiveStats): nat {
    s.queued + s.sending + s.sent + s.delivered + s.read + s.failed
  }

  /** Every log has exactly one status, so the six counts add up to the number of logs. */
  lemma {:induction false} LiveStatsSum(ls: seq<LogRecord>)
    ensures LiveTotal(LiveStatsOf(ls)) == |ls|
  {
    if ls != [] {
      LiveStatsSum(ls[..|ls| - 1]);
    }
  }

  /** `campaign.stats = stats`: the schema keeps five counters and drops `sending`. */
  function Persisted(s: LiveStats): (r: Stats)
    ensures Counter(r, Queued) == Some(s.queued) && Counter(r, Sent) == Some(s.sent)
    ensures Counter(r, Delivered) == Some(s.delivered) && Counter(r, Read) == Some(s.read)
    ensures Counter(r, Failed) == Some(s.failed)
    ensures CounterSum(r) + s.sending == LiveTotal(s)
  {
    Stats(s.queued, s.sent, s.delivered, s.read, s.failed)
  }

  /** The campaign the detail read saves: the recomputed counters replace the stored ones,
      and an in-progress campaign with nothing queued or sending becomes completed. */
  function ReadCampaign(c: Campaign, live: LiveStats, now: Time): (r: Campaign)
    ensures r.stats == Persisted(live)
    ensures r.status == Completed <==>
              c.status == Completed || (c.status == InProgress && live.queued == 0 && live.sending == 0)
    ensures r.status != c.status ==> c.status == InProgress && r.completedAt == Some(now)
    ensures r.status == c.status ==> r.completedAt == c.completedAt
    ensures r == c.(stats := r.stats, status := r.status, completedAt := r.completedAt)
  {
    var c' := c.(stats := Persisted(live));
    if live.queued == 0 && live.sending == 0 && c'.status == InProgress then
      c'.(status := Completed, completedAt := Some(now))
    else c'
  }

  /** A second read over the same logs changes nothing, its time included. */
  lemma ReadCampaignIdempotent(c: Campaign, live: LiveStats, t1: Time, t2: Time)
    ensures ReadCampaign(ReadCampaign(c, live, t1), live, t2) == ReadCampaign(c, live, t1)
  {
  }

  /** After a read the stored counters account for every log of the campaign except those
      still 'sending'. */
  lemma ReadCampaignCountersCoverLogs(c: Campaign, logs: seq<LogRecord>, cid: nat, now: Time)
    ensures var live := LiveStatsOf(LogsOf(logs, cid));
            CounterSum(ReadCampaign(c, live, now).stats) + live.sending == |LogsOf(logs, cid)|
  {
    LiveStatsSum(LogsOf(logs, cid));
  }

  /** Right after creation the logs of a fresh campaign are its fan-out, all 'queued', so the
      recomputed counters are the stored ones. */
  lemma {:induction false} FreshCampaignStatsAgree(logs: seq<LogRecord>, contacts: seq<Contact>, ids: seq<nat>,
                                                   cid: nat, input: CampaignInput, now: Time)
    requires forall k :: 0 <= k < |ids| ==> ids[k] < |contacts|
    requires forall j :: 0 <= j < |logs| ==> logs[j].campaignId != cid
    ensures LiveStatsOf(LogsOf(logs + FanOutLogs(contacts, ids, cid, input, now), cid))
            == LiveStats(|ids|, 0, 0, 0, 0, 0)
    ensures Persisted(LiveStatsOf(LogsOf(logs + FanOutLogs(contacts, ids, cid, input, now), cid)))
            == NewCampaign(input, |ids|, now).stats
  {
    var created := FanOutLogs(contacts, ids, cid, input, now);
    assert forall i :: 0 <= i < |created| ==> created[i].campaignId == cid && created[i].status == Queued;
    LogsOfConcat(logs, created, cid);
    LogsOfNone(logs, cid);
    LogsOfOwn(created, cid);
    assert LogsOf(logs + created, cid) == created;
    CountUniform(created, Queued, Queued);
    CountUniform(created, Queued, Sending);
    CountUniform(created, Queued, Sent);
    CountUniform(created, Queued, Delivered);
    CountUniform(created, Queued, Read);
    CountUniform(created, Queued, Failed);
  }

  /** Logs of other campaigns are not selected. */
  lemma LogsOfNone(ls: seq<LogRecord>, cid: nat)
    requires forall i :: 0 <= i < |ls| ==> ls[i].campaignId != cid
    ensures LogsOf(ls, cid) == []
  {
  }

  /** Logs that all belong to the campaign are all selected. */
  lemma {:induction false} LogsOfOwn(ls: seq<LogRecord>, cid: nat)
    requires forall i :: 0 <= i < |ls| ==> ls[i].campaignId == cid
    ensures LogsOf(ls, cid) == ls
  {
    if ls != [] {
      LogsOfOwn(ls[..|ls| - 1], cid);
      assert ls[..|ls| - 1] + [ls[|ls| - 1]] == ls;
    }
  }

  /** The worker's success path adds to `sent` without taking from `queued`, so after the
      first delivered send of a fresh campaign the stored counters add up to one more than
      its number of contacts. */
  lemma FirstSendOvercounts(logs: seq<LogRecord>, campaigns: seq<Campaign>, job: JobData, messageId: string, now: Time)
    requires job.messageLogId < |logs| && job.campaignId < |campaigns|
    requires campaigns[job.campaignId].stats == ZeroStats.(queued := campaigns[job.campaignId].totalContacts)
    ensures var r := Attempt(logs, campaigns, job, SendSuccess(messageId), now);
            var c := r.campaigns[job.campaignId];
            c.stats.queued == c.totalContacts && c.stats.sent == 1
            && CounterSum(c.stats) == c.totalContacts + 1
  {
  }

  datatype CampaignDetail = CampaignDetail(campaign: Campaign, messageLogs: seq<LogRecord>, stats: LiveStats)

  /** `getCampaignById`: the campaign's logs newest first, the six counts over them, and the
      campaign as saved with the recomputed counters and the completion rule. */
  method GetCampaignById(campaigns: CampaignCollection, logs: LogCollection, id: nat, now: Time)
    returns (resp: Option<CampaignDetail>)
    modifies campaigns
    ensures id >= |old(campaigns.records)| ==> resp.None? && campaigns.records == old(campaigns.records)
    ensures id < |old(campaigns.records)| ==>
              var live := LiveStatsOf(LogsOf(logs.records, id));
              && campaigns.records == old(campaigns.records)[id := ReadCampaign(old(campaigns.records)[id], live, now)]
              && resp == Some(CampaignDetail(campaigns.records[id], Reverse(LogsOf(logs.records, id)), live))
  {
    if id >= |campaigns.records| {
      return None;
    }
    var campaign := campaigns.records[id];
    var messageLogs := Reverse(LogsOf(logs.records, id));
    var stats := LiveStatsOf(messageLogs);
    forall st: Status ensures CountStatus(messageLogs, st) == CountStatus(LogsOf(logs.records, id), st) {
      CountStatusReverse(LogsOf(logs.records, id), st);
    }
    campaign := campaign.(stats := Persisted(stats));
    if stats.queued == 0 && stats.sending == 0 && campaign.status == InProgress {
      campaign := campaign.(status := Completed, completedAt := Some(now));
    }
    campaigns.Save(id, campaign);
    resp := Some(CampaignDetail(campaign, messageLogs, stats));
  }

  // ---------------------------------------------------------------------------------------
  // Analytics report

  datatype FailedEntry = FailedEntry(phoneNumber: string, errorCode: Option<string>,
                                     errorMessage: Option<string>, failedAt: Option<Time>)

  function EntryOf(l: LogRecord): FailedEntry {
    FailedEntry(l.phoneNumber, l.errorCode, l.errorMessage, l.failedAt)
  }

  /** `.filter(m => m.status === 'failed').map(...)`: one entry per failed log, in order. */
  function FailedMessages(ls: seq<LogRecord>): (r: seq<FailedEntry>)
    ensures |r| == CountStatus(ls, Failed)
    ensures forall e :: e in r ==> exists l :: l in ls && l.status == Failed && e == EntryOf(l)
    ensures forall l :: l in ls && l.status == Failed ==> EntryOf(l) in r
  {
    if ls == [] then []
    else
      var last := ls[|ls| - 1];
      assert ls == ls[..|ls| - 1] + [last];
      var rest := FailedMessages(ls[..|ls| - 1]);
      if last.status == Failed then rest + [EntryOf(last)] else rest
  }

  /** The selection keeps log order and multiplicity: it distributes over concatenation ... */
  lemma {:induction false} FailedMessagesConcat(a: seq<LogRecord>, b: seq<LogRecord>)
    ensures FailedMessages(a + b) == FailedMessages(a) + FailedMessages(b)
    decreases |b|
  {
    if b == [] {
      assert a + b == a;
    } else {
      var init := b[..|b| - 1];
      assert (a + b)[..|a + b| - 1] == a + init;
      assert (a + b)[|a + b| - 1] == b[|b| - 1];
      FailedMessagesConcat(a, init);
    }
  }

  /** ... and a single log gives its entry exactly when it failed. */
  lemma FailedMessagesOfOne(l: LogRecord)
    ensures FailedMessages([l]) == if l.status == Failed then [EntryOf(l)] else []
  {
    assert [l][..0] == [];
  }

  const FailedListLimit: nat := 50

  datatype AnalyticsReport = AnalyticsReport(
    id: nat, name: string, status: CampaignStatus,
    total: nat, sent: nat, delivered: nat, read: nat, failed: nat,
    failedMessages: seq<FailedEntry>)

  /** `getCampaignAnalytics`: the stored counters (not a recount) and the first 50 failed
      messages of the campaign. */
  function GetCampaignAnalytics(campaigns: seq<Campaign>, logs: seq<LogRecord>, id: nat): (r: Option<AnalyticsReport>)
    ensures r.None? <==> id >= |campaigns|
    ensures r.Some? ==>
              var c := campaigns[id];
              && r.value.id == id && r.value.name == c.name && r.value.status == c.status
              && r.value.total == c.totalContacts && r.value.sent == c.stats.sent
              && r.value.delivered == c.stats.delivered && r.value.read == c.stats.read
              && r.value.failed == c.stats.failed
    ensures r.Some? ==> r.value.failedMessages == Take(FailedMessages(LogsOf(logs, id)), FailedListLimit)
    ensures r.Some? ==>
              |r.value.failedMessages|
              == if CountStatus(LogsOf(logs, id), Failed) < FailedListLimit
                 then CountStatus(LogsOf(logs, id), Failed) else FailedListLimit
  {
    if id >= |campaigns| then None
    else
      var c := campaigns[id];
      Some(AnalyticsReport(id, c.name, c.status, c.totalContacts, c.stats.sent, c.stats.delivered,
                           c.stats.read, c.stats.failed, Take(FailedMessages(LogsOf(logs, id)), FailedListLimit)))
  }

  // ---------------------------------------------------------------------------------------
  // Listing

  const DefaultCampaignLimit: nat := 20

  /** `getCampaigns`: newest first, one page, with the total and the page count; `page`
      defaults to 1 and `limit` to 20. */
  function GetCampaigns(campaigns: seq<Campaign>, page: Option<int>, limit: Option<nat>): (r: Option<Listing<Campaign>>)
    ensures var p := if page.Some? then page.value else 1;
            var n := if limit.Some? then limit.value else DefaultCampaignLimit;
            && (r.None? <==> p < 1 && n > 0)
            && (r.Some? ==>
                  && Window(Reverse(campaigns), p, n).Some?
                  && r.value.data == Window(Reverse(campaigns), p, n).value
                  && r.value.total == |campaigns| && r.value.page == p
                  && r.value.pages == PageCount(|campaigns|, n)
                  && (n > 0 ==> |r.value.data| <= n)
                  && forall k :: 0 <= k < |r.value.data| ==>
                       0 <= SkipCount(p, n) + k < |campaigns|
                       && r.value.data[k] == campaigns[|campaigns| - 1 - (SkipCount(p, n) + k)])
  {
    var p := if page.Some? then page.value else 1;
    var n := if limit.Some? then limit.value else DefaultCampaignLimit;
    ListPage(Reverse(campaigns), p, n)
  }
}
