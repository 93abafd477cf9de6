/** The WhatsApp controller (backend/src/controllers/whatsappController.js): the approved-template
    filter, the answers of the verification and share-link endpoints, and the webhook handler
    that applies provider status callbacks to the message logs and the campaign counters. Each
    handler runs as one sequential step over the stores. */
module WhatsAppController {
  import opened Common
  import opened MessageLogModel
  import opened CampaignModel
  import opened WhatsAppService

  // ---------------------------------------------------------------------------------------
  // Templates

  datatype TemplateInfo = TemplateInfo(name: string, language: string, status: string)

  const Approved: string := "APPROVED"

  /** What `whatsappService.getTemplates()` returned: the listed templates (`None` when the
      response carries no list), or the provider's error. */
  datatype TemplatesFetch = Fetched(templates: Option<seq<TemplateInfo>>) | FetchFailed(error: ProviderError)

  datatype TemplatesResponse =
    | TemplatesOk(data: seq<TemplateInfo>, total: nat)
    | TemplatesError(httpStatus: nat, message: string)

  /** `templates.filter(t => t.status === 'APPROVED')`. */
  function ApprovedTemplates(ts: seq<TemplateInfo>): (r: seq<TemplateInfo>)
    ensures |r| <= |ts|
    ensures forall t :: t in r <==> t in ts && t.status == Approved
  {
    if ts == [] then []
    else if ts[|ts| - 1].status == Approved then ApprovedTemplates(ts[..|ts| - 1]) + [ts[|ts| - 1]]
    else ApprovedTemplates(ts[..|ts| - 1])
  }

  /** The filter keeps the original order: filtering a concatenation filters each part. */
  lemma {:induction false} ApprovedTemplatesConcat(a: seq<TemplateInfo>, b: seq<TemplateInfo>)
    ensures ApprovedTemplates(a + b) == ApprovedTemplates(a) + ApprovedTemplates(b)
    decreases |b|
  {
    if b == [] {
      assert a + b == a;
    } else {
      assert (a + b)[..|a + b| - 1] == a + b[..|b| - 1];
      ApprovedTemplatesConcat(a, b[..|b| - 1]);
    }
  }

  /** A list of approved templates is its own filter. */
  lemma {:induction false} ApprovedTemplatesOfApproved(ts: seq<TemplateInfo>)
    requires forall i :: 0 <= i < |ts| ==> ts[i].status == Approved
    ensures ApprovedTemplates(ts) == ts
  {
    if ts != [] {
      ApprovedTemplatesOfApproved(ts[..|ts| - 1]);
      assert ts[..|ts| - 1] + [ts[|ts| - 1]] == ts;
    }
  }

  /** `getTemplates`: the approved templates and their count, or a 500. A response without a
      list makes `filter` throw, which the handler's catch answers with its own message. */
  function GetTemplates(fetch: TemplatesFetch): (r: TemplatesResponse)
    ensures r.TemplatesOk? <==> fetch.Fetched? && fetch.templates.Some?
    ensures r.TemplatesOk? ==> r.data == ApprovedTemplates(fetch.templates.value) && r.total == |r.data|
    ensures r.TemplatesError? ==> r.httpStatus == 500
    ensures fetch.FetchFailed? ==> r == TemplatesError(500, "Failed to fetch templates")
  {
    match fetch
    case FetchFailed(_) => TemplatesError(500, "Failed to fetch templates")
    case Fetched(None) => TemplatesError(500, "Error fetching templates")
    case Fetched(Some(ts)) =>
      var approved := ApprovedTemplates(ts);
      TemplatesOk(approved, |approved|)
  }

  // ---------------------------------------------------------------------------------------
  // Verification and share link

  /** A bare HTTP answer: its status and, for 200, the body text. */
  datatype Reply = Reply(httpStatus: nat, body: Option<string>)

  /** `verifyWebhook` (the endpoint): 200 with the challenge when the service returns a truthy
      value, 403 otherwise. */
  function VerifyWebhookReply(mode: Option<string>, token: Option<string>, challenge: Option<string>,
                              verifyToken: Option<string>): (r: Reply)
    ensures r.httpStatus == 200 <==>
              mode == Some("subscribe") && token == verifyToken && challenge.Some? && Truthy(challenge.value)
    ensures r.httpStatus == 200 ==> r.body == challenge
    ensures r.httpStatus != 200 ==> r == Reply(403, None)
  {
    var result := VerifyWebhook(mode, token, challenge, verifyToken);
    if result.Some? && Truthy(result.value) then Reply(200, result) else Reply(403, None)
  }

  /** A correct token does not help when the challenge is empty: the answer is 403. */
  lemma EmptyChallengeIsRefused(token: string)
    ensures VerifyWebhookReply(Some("subscribe"), Some(token), Some(""), Some(token)) == Reply(403, None)
  {
  }

  datatype ShareReply = ShareOk(shareLink: string, message: string) | ShareBadRequest(error: string)

  /** `generateShareLink` (the endpoint): 400 for a missing or empty message, else the link. */
  function ShareLinkReply(message: Option<string>, encode: string -> string): (r: ShareReply)
    ensures r.ShareBadRequest? <==> message.None? || !Truthy(message.value)
    ensures r.ShareOk? ==> r.message == message.value && StartsWith(r.shareLink, ShareLinkPrefix)
    ensures r.ShareOk? ==> r.shareLink[|ShareLinkPrefix|..] == encode(message.value)
  {
    if message.None? || !Truthy(message.value) then ShareBadRequest("Message text is required")
    else ShareOk(GenerateShareLink(message.value, encode), message.value)
  }

  // ---------------------------------------------------------------------------------------
  // Webhook reconciliation

  /** The message logs and the campaigns, together. */
  datatype Stores = Stores(logs: seq<LogRecord>, campaigns: seq<Campaign>)

  /** `MessageLog.findOne({ messageId })`: the first log carrying the provider id. */
  function FindByMessageId(logs: seq<LogRecord>, messageId: string): (r: Option<nat>)
    ensures r.Some? ==> r.value < |logs| && logs[r.value].messageId == Some(messageId)
    ensures r.Some? ==> forall j :: 0 <= j < r.value ==> logs[j].messageId != Some(messageId)
    ensures r.None? <==> forall j :: 0 <= j < |logs| ==> logs[j].messageId != Some(messageId)
  {
    if logs == [] then None
    else if logs[0].messageId == Some(messageId) then Some(0)
    else
      var rest := FindByMessageId(logs[1..], messageId);
      assert forall j :: 1 <= j < |logs| ==> logs[j] == logs[1..][j - 1];
      if rest.Some? then Some(rest.value + 1) else None
  }

  /** The search depends on the message ids only. */
  lemma {:induction false} FindByMessageIdOfSameIds(a: seq<LogRecord>, b: seq<LogRecord>, messageId: string)
    requires |a| == |b| && forall j :: 0 <= j < |a| ==> a[j].messageId == b[j].messageId
    ensures FindByMessageId(a, messageId) == FindByMessageId(b, messageId)
  {
    if a != [] && a[0].messageId != Some(messageId) {
      assert forall j :: 0 <= j < |a| - 1 ==> a[1..][j].messageId == b[1..][j].messageId;
      FindByMessageIdOfSameIds(a[1..], b[1..], messageId);
    }
  }

  /** `update.errors?.[0]`: the first reported error, both fields "" (falsy) when there is none. */
  function FirstError(errors: Option<seq<StatusError>>): StatusError {
    if errors.Some? && |errors.value| > 0 then errors.value[0] else StatusError("", "")
  }

  /** The counter bookkeeping of a status change: the old status's counter loses one only when
      it is positive, the new status's counter gains one (an absent counter counting as 0), and
      the missing 'sending' counter is never written. */
  function Reconcile(s: Stats, from: Status, to: Status): (r: Stats)
    requires from != to
    ensures from != Sending ==>
              Counter(r, from) == Some(if Counter(s, from).value > 0 then Counter(s, from).value - 1 else 0)
    ensures to != Sending ==> Counter(r, to) == Some(Counter(s, to).value + 1)
    ensures forall o: Status :: o != from && o != to ==> Counter(r, o) == Counter(s, o)
  {
    var before := Counter(s, from);
    var s1 := if before.Some? && before.value > 0 then WithCounter(s, from, before.value - 1) else s;
    var current := Counter(s1, to);
    WithCounter(s1, to, (if current.Some? then current.value else 0) + 1)
  }

  /** The counters' sum grows by one whenever there is nothing to take the one from: the old
      counter is 0, or the old status is 'sending'; it shrinks by one on a change to 'sending'. */
  lemma ReconcileSum(s: Stats, from: Status, to: Status)
    requires from != to
    ensures var taken := if from != Sending && Counter(s, from).value > 0 then 1 else 0;
            var added := if to != Sending then 1 else 0;
            CounterSum(Reconcile(s, from, to)) + taken == CounterSum(s) + added
  {
    var before := Counter(s, from);
    var s1 := if before.Some? && before.value > 0 then WithCounter(s, from, before.value - 1) else s;
    if before.Some? && before.value > 0 {
      CounterSumWith(s, from, before.value - 1);
      assert CounterSum(s1) + 1 == CounterSum(s);
    } else {
      assert s1 == s;
    }
    assert Reconcile(s, from, to) == WithCounter(s1, to, (if Counter(s1, to).Some? then Counter(s1, to).value else 0) + 1);
    if to != Sending {
      CounterSumWith(s1, to, Counter(s1, to).value + 1);
      assert CounterSum(Reconcile(s, from, to)) == CounterSum(s1) + 1;
    } else {
      assert Reconcile(s, from, to) == s1;
    }
  }

  /** One status update as the handler applies it: an update that matches no log changes
      nothing, and so does one whose status is outside the enum (the log's `save()` rejects
      it and the per-update catch swallows the error). Otherwise the log takes the reported
      status, and when that differs from the old one the log's campaign, if it exists, has its
      counters reconciled. */
  function ApplyUpdate(s: Stores, u: StatusUpdate, now: Time): (r: Stores)
    ensures |r.logs| == |s.logs| && |r.campaigns| == |s.campaigns|
    ensures FindByMessageId(s.logs, u.messageId).None? || ParseStatus(u.status).None? ==> r == s
    ensures FindByMessageId(s.logs, u.messageId).Some? && ParseStatus(u.status).Some? ==>
              var i, st := FindByMessageId(s.logs, u.messageId).value, ParseStatus(u.status).value;
              var cid := s.logs[i].campaignId;
              && (forall j :: 0 <= j < |s.logs| && j != i ==> r.logs[j] == s.logs[j])
              && r.logs[i] == WithStatus(s.logs[i], st, FirstError(u.errors).code, FirstError(u.errors).message, now)
              && (forall c :: 0 <= c < |s.campaigns| && c != cid ==> r.campaigns[c] == s.campaigns[c])
              && (s.logs[i].status == st || cid >= |s.campaigns| ==> r.campaigns == s.campaigns)
              && (s.logs[i].status != st && cid < |s.campaigns| ==>
                    r.campaigns[cid] == s.campaigns[cid].(stats := Reconcile(s.campaigns[cid].stats, s.logs[i].status, st)))
  {
    var found := FindByMessageId(s.logs, u.messageId);
    var status := ParseStatus(u.status);
    if found.None? || status.None? then s
    else
      var i, st := found.value, status.value;
      var log := s.logs[i];
      var err := FirstError(u.errors);
      var logs := s.logs[i := WithStatus(log, st, err.code, err.message, now)];
      if log.status == st || log.campaignId >= |s.campaigns| then Stores(logs, s.campaigns)
      else
        var c := s.campaigns[log.campaignId];
        Stores(logs, s.campaigns[log.campaignId := c.(stats := Reconcile(c.stats, log.status, st))])
  }

  /** The updates of one callback, applied in order. */
  function ApplyUpdates(s: Stores, us: seq<StatusUpdate>, now: Time): (r: Stores)
    ensures |r.logs| == |s.logs| && |r.campaigns| == |s.campaigns|
  {
    if us == [] then s else ApplyUpdate(ApplyUpdates(s, us[..|us| - 1], now), us[|us| - 1], now)
  }

  lemma {:induction false} ApplyUpdatesConcat(s: Stores, a: seq<StatusUpdate>, b: seq<StatusUpdate>, now: Time)
    ensures ApplyUpdates(s, a + b, now) == ApplyUpdates(ApplyUpdates(s, a, now), b, now)
    decreases |b|
  {
    if b == [] {
      assert a + b == a;
    } else {
      assert (a + b)[..|a + b| - 1] == a + b[..|b| - 1];
      ApplyUpdatesConcat(s, a, b[..|b| - 1], now);
    }
  }

  /** An update that fails (an unknown message id or a status outside the enum) does not stop
      the updates after it: the result is as if it had not been sent. */
  lemma SkippedUpdateDoesNotStopLaterOnes(s: Stores, before: seq<StatusUpdate>, bad: StatusUpdate,
                                          after: seq<StatusUpdate>, now: Time)
    requires var mid := ApplyUpdates(s, before, now);
             FindByMessageId(mid.logs, bad.messageId).None? || ParseStatus(bad.status).None?
    ensures ApplyUpdates(s, before + [bad] + after, now) == ApplyUpdates(s, before + after, now)
  {
    ApplyUpdatesConcat(s, before + [bad], after, now);
    ApplyUpdatesConcat(s, before, after, now);
    assert (before + [bad])[..|before + [bad]| - 1] == before;
  }

  /** A repeated callback for the same message and status leaves every counter as the first
      left it and only re-stamps the log with the later time. */
  lemma DuplicateCallbackOnlyRestamps(s: Stores, u: StatusUpdate, t1: Time, t2: Time)
    requires FindByMessageId(s.logs, u.messageId).Some? && ParseStatus(u.status).Some?
    ensures var first := ApplyUpdate(s, u, t1);
            var second := ApplyUpdate(first, u, t2);
            var i := FindByMessageId(s.logs, u.messageId).value;
            && second.campaigns == first.campaigns
            && second.logs == first.logs[i := WithStatus(s.logs[i], ParseStatus(u.status).value,
                                                         FirstError(u.errors).code, FirstError(u.errors).message, t2)]
  {
    var first := ApplyUpdate(s, u, t1);
    FindByMessageIdOfSameIds(s.logs, first.logs, u.messageId);
    var i, st := FindByMessageId(s.logs, u.messageId).value, ParseStatus(u.status).value;
    RepeatedStatusOnlyRestamps(s.logs[i], st, FirstError(u.errors).code, FirstError(u.errors).message, t1, t2);
  }

  /** There is no forward-only guard: a 'delivered' callback arriving after 'read' sets the log
      back to 'delivered', takes one from `read` and adds one to `delivered`. */
  lemma WebhookCanRegress(s: Stores, u: StatusUpdate, now: Time)
    requires FindByMessageId(s.logs, u.messageId).Some? && u.status == "delivered"
    requires var i := FindByMessageId(s.logs, u.messageId).value;
             s.logs[i].status == Read && s.logs[i].campaignId < |s.campaigns|
             && s.campaigns[s.logs[i].campaignId].stats.read > 0
    ensures var r := ApplyUpdate(s, u, now);
            var i := FindByMessageId(s.logs, u.messageId).value;
            var before := s.campaigns[s.logs[i].campaignId].stats;
            && r.logs[i].status == Delivered
            && r.campaigns[s.logs[i].campaignId].stats
               == before.(read := before.read - 1, delivered := before.delivered + 1)
  {
    assert ParseStatus(u.status) == Some(Delivered);
  }

  /** `handleWebhook`: parse the payload, then apply each update in turn. */
  method HandleWebhook(logs: LogCollection, campaigns: CampaignCollection, payload: WebhookPayload, now: Time)
    modifies logs, campaigns
    ensures Stores(logs.records, campaigns.records)
            == ApplyUpdates(Stores(old(logs.records), old(campaigns.records)), Updates(payload), now)
  {
    var updates := ParseWebhookPayload(payload);
    var i := 0;
    while i < |updates|
      invariant 0 <= i <= |updates|
      invariant Stores(logs.records, campaigns.records)
                == ApplyUpdates(Stores(old(logs.records), old(campaigns.records)), updates[..i], now)
    {
      ProcessUpdate(logs, campaigns, updates[i], now);
      assert updates[..i + 1][..i] == updates[..i];
      i := i + 1;
    }
    assert updates[..i] == updates;
  }

  /** The body of the handler's loop for one update. */
  method ProcessUpdate(logs: LogCollection, campaigns: CampaignCollection, u: StatusUpdate, now: Time)
    modifies logs, campaigns
    ensures Stores(logs.records, campaigns.records)
            == ApplyUpdate(Stores(old(logs.records), old(campaigns.records)), u, now)
  {
    var found := FindByMessageId(logs.records, u.messageId);
    var status := ParseStatus(u.status);
    if found.None? || status.None? {
      return;
    }
    var log := new MessageLog.Load(logs, found.value);
    var oldStatus := log.status;
    var err := FirstError(u.errors);
    log.UpdateStatus(logs, status.value, err.code, err.message, now);
    if oldStatus != status.value && log.campaignId < |campaigns.records| {
      var stats := campaigns.records[log.campaignId].stats;
      var count := Counter(stats, oldStatus);
      if count.Some? && count.value > 0 {
        stats := WithCounter(stats, oldStatus, count.value - 1);
      }
      var current := Counter(stats, status.value);
      stats := WithCounter(stats, status.value, (if current.Some? then current.value else 0) + 1);
      campaigns.Save(log.campaignId, campaigns.records[log.campaignId].(stats := stats));
    }
  }
}
