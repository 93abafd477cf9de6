/** The WhatsApp Cloud API adapter (backend/src/services/whatsappService.js) without its HTTP
    calls: the template-message payload, the shaping of the send result, webhook verification,
    webhook payload flattening and the share link. The HTTP exchange itself is a parameter. */
module WhatsAppService {
  import opened Common

  const DefaultLanguage: string := "en"

  // ---------------------------------------------------------------------------------------
  // Template message payload

  /** `{ type: 'text', text }` */
  datatype Parameter = Parameter(kind: string, text: string)
  /** `{ type: 'body', parameters }` */
  datatype Component = Component(kind: string, parameters: seq<Parameter>)
  datatype Template = Template(name: string, languageCode: string, components: Option<seq<Component>>)
  datatype MessagePayload = MessagePayload(
    messagingProduct: string,
    recipientType: string,
    to: string,
    kind: string,
    template: Template)

  /** The variable values a payload carries, read back from its body component. */
  function BodyTexts(p: MessagePayload): seq<string> {
    match p.template.components
    case None => []
    case Some(cs) =>
      if |cs| == 0 then []
      else seq(|cs[0].parameters|, i requires 0 <= i < |cs[0].parameters| => cs[0].parameters[i].text)
  }

  /** The payload `sendTemplateMessage` posts: the base message, and a body component with
      one text parameter per variable only when there are variables. An absent language
      defaults to "en". */
  method BuildTemplatePayload(to: string, templateName: string, languageCode: Option<string>, variables: seq<string>)
    returns (payload: MessagePayload)
    ensures payload.messagingProduct == "whatsapp" && payload.recipientType == "individual"
    ensures payload.kind == "template"
    ensures payload.to == to && payload.template.name == templateName
    ensures payload.template.languageCode == if languageCode.Some? then languageCode.value else DefaultLanguage
    ensures payload.template.components.Some? <==> |variables| > 0
    ensures payload.template.components.Some? ==>
              |payload.template.components.value| == 1
              && payload.template.components.value[0].kind == "body"
              && |payload.template.components.value[0].parameters| == |variables|
              && forall i :: 0 <= i < |variables| ==>
                   payload.template.components.value[0].parameters[i] == Parameter("text", variables[i])
    ensures BodyTexts(payload) == variables
  {
    var code := if languageCode.Some? then languageCode.value else DefaultLanguage;
    payload := MessagePayload("whatsapp", "individual", to, "template", Template(templateName, code, None));
    if |variables| > 0 {
      var parameters := seq(|variables|, i requires 0 <= i < |variables| => Parameter("text", variables[i]));
      payload := payload.(template := payload.template.(components := Some([Component("body", parameters)])));
    }
  }

  // ---------------------------------------------------------------------------------------
  // Send result

  /** `error.response.data.error` of a rejected call; an absent field is "". */
  datatype ProviderError = ProviderError(code: string, message: string)

  /** What the HTTP call produced: a response listing the ids of the accepted messages, or a
      thrown error with the provider's error body (if any) and the error's own message. */
  datatype HttpOutcome =
    | Accepted(messageIds: seq<string>)
    | Rejected(providerError: Option<ProviderError>, message: string)

  datatype SendResult = SendSuccess(messageId: string) | SendFailure(code: string, message: string)

  const UnknownErrorCode: string := "UNKNOWN_ERROR"

  /** The message of the TypeError raised by `response.data.messages[0].id` when the
      response lists no message. */
  const NoMessageError: string := "Cannot read properties of undefined (reading 'id')"

  /** The object `sendTemplateMessage` returns. */
  function ShapeSendResult(outcome: HttpOutcome): (r: SendResult)
    ensures r.SendSuccess? <==> outcome.Accepted? && |outcome.messageIds| > 0
    ensures r.SendSuccess? ==> r.messageId == outcome.messageIds[0]
    ensures r.SendFailure? ==> Truthy(r.code)
    ensures r.SendFailure? && outcome.Rejected? ==>
              r.code == (if outcome.providerError.Some? && Truthy(outcome.providerError.value.code)
                         then outcome.providerError.value.code else UnknownErrorCode)
              && r.message == (if outcome.providerError.Some? && Truthy(outcome.providerError.value.message)
                               then outcome.providerError.value.message else outcome.message)
    ensures r.SendFailure? && outcome.Accepted? ==> r == SendFailure(UnknownErrorCode, NoMessageError)
  {
    match outcome
    case Accepted(ids) =>
      if |ids| > 0 then SendSuccess(ids[0]) else SendFailure(UnknownErrorCode, NoMessageError)
    case Rejected(body, message) =>
      var code := if body.Some? && Truthy(body.value.code) then body.value.code else UnknownErrorCode;
      var text := if body.Some? && Truthy(body.value.message) then body.value.message else message;
      SendFailure(code, text)
  }

  // ---------------------------------------------------------------------------------------
  // Webhook verification

  /** `verifyWebhook(mode, token, challenge)`: the challenge when the mode is 'subscribe' and
      the token equals the configured one, otherwise nothing. Absent query values and an
      absent configured token are `None`, and `None === None` holds. */
  function VerifyWebhook(mode: Option<string>, token: Option<string>, challenge: Option<string>,
                         verifyToken: Option<string>): (r: Option<string>)
    ensures mode == Some("subscribe") && token == verifyToken ==> r == challenge
    ensures !(mode == Some("subscribe") && token == verifyToken) ==> r == None
  {
    if mode == Some("subscribe") && token == verifyToken then challenge else None
  }

  /** When no verify token is configured, a subscribe request that carries no token passes. */
  lemma UnconfiguredTokenAcceptsMissingToken(challenge: string)
    ensures VerifyWebhook(Some("subscribe"), None, Some(challenge), None) == Some(challenge)
  {
  }

  // ---------------------------------------------------------------------------------------
  // Webhook payload

  datatype StatusError = StatusError(code: string, message: string)
  datatype StatusEvent = StatusEvent(
    id: string, status: string, timestamp: string, recipientId: string, errors: Option<seq<StatusError>>)
  datatype ChangeValue = ChangeValue(statuses: Option<seq<StatusEvent>>)
  datatype Change = Change(value: Option<ChangeValue>)
  datatype Entry = Entry(changes: Option<seq<Change>>)
  datatype WebhookPayload = WebhookPayload(entry: Option<seq<Entry>>)

  /** One status update handed to the webhook handler. */
  datatype StatusUpdate = StatusUpdate(
    messageId: string, status: string, timestamp: string, recipientId: string, errors: Option<seq<StatusError>>)

  function ToUpdate(e: StatusEvent): (u: StatusUpdate)
    ensures u.messageId == e.id && u.status == e.status && u.timestamp == e.timestamp
    ensures u.recipientId == e.recipientId && u.errors == e.errors
  {
    StatusUpdate(e.id, e.status, e.timestamp, e.recipientId, e.errors)
  }

  function UpdatesOfStatuses(ss: seq<StatusEvent>): seq<StatusUpdate> {
    if ss == [] then [] else UpdatesOfStatuses(ss[..|ss| - 1]) + [ToUpdate(ss[|ss| - 1])]
  }

  function UpdatesOfChange(c: Change): seq<StatusUpdate> {
    if c.value.Some? && c.value.value.statuses.Some? then UpdatesOfStatuses(c.value.value.statuses.value) else []
  }

  function UpdatesOfChanges(cs: seq<Change>): seq<StatusUpdate> {
    if cs == [] then [] else UpdatesOfChanges(cs[..|cs| - 1]) + UpdatesOfChange(cs[|cs| - 1])
  }

  function UpdatesOfEntry(e: Entry): seq<StatusUpdate> {
    if e.changes.Some? then UpdatesOfChanges(e.changes.value) else []
  }

  function UpdatesOfEntries(es: seq<Entry>): seq<StatusUpdate> {
    if es == [] then [] else UpdatesOfEntries(es[..|es| - 1]) + UpdatesOfEntry(es[|es| - 1])
  }

  /** The flattened list of status updates of a payload, entry by entry, change by change. */
  function Updates(p: WebhookPayload): seq<StatusUpdate> {
    if p.entry.Some? then UpdatesOfEntries(p.entry.value) else []
  }

  /** `parseWebhookPayload`: three nested loops pushing one update per status, written here
      as one method per loop. */
  method ParseWebhookPayload(payload: WebhookPayload) returns (updates: seq<StatusUpdate>)
    ensures updates == Updates(payload)
  {
    updates := [];
    if payload.entry.Some? {
      var entries := payload.entry.value;
      var i := 0;
      while i < |entries|
        invariant 0 <= i <= |entries|
        invariant updates == UpdatesOfEntries(entries[..i])
      {
        if entries[i].changes.Some? {
          updates := PushChangeUpdates(updates, entries[i].changes.value);
        }
        assert entries[..i + 1][..i] == entries[..i];
        i := i + 1;
      }
      assert entries[..i] == entries;
    }
  }

  /** The loop over the changes of one entry. */
  method PushChangeUpdates(updates: seq<StatusUpdate>, changes: seq<Change>) returns (r: seq<StatusUpdate>)
    ensures r == updates + UpdatesOfChanges(changes)
  {
    r := updates;
    var j := 0;
    while j < |changes|
      invariant 0 <= j <= |changes|
      invariant r == updates + UpdatesOfChanges(changes[..j])
    {
      var change := changes[j];
      if change.value.Some? && change.value.value.statuses.Some? {
        r := PushStatusUpdates(r, change.value.value.statuses.value);
      }
      assert changes[..j + 1] == changes[..j] + [change];
      assert UpdatesOfChanges(changes[..j + 1]) == UpdatesOfChanges(changes[..j]) + UpdatesOfChange(change);
      j := j + 1;
    }
    assert changes[..j] == changes;
  }

  /** The loop over the statuses of one change. */
  method PushStatusUpdates(updates: seq<StatusUpdate>, statuses: seq<StatusEvent>) returns (r: seq<StatusUpdate>)
    ensures r == updates + UpdatesOfStatuses(statuses)
  {
    r := updates;
    var k := 0;
    while k < |statuses|
      invariant 0 <= k <= |statuses|
      invariant r == updates + UpdatesOfStatuses(statuses[..k])
    {
      r := r + [ToUpdate(statuses[k])];
      assert statuses[..k + 1][..k] == statuses[..k];
      k := k + 1;
    }
    assert statuses[..k] == statuses;
  }

  /** The number of status events in a payload. */
  function StatusCount(p: WebhookPayload): nat {
    if p.entry.Some? then EntriesStatusCount(p.entry.value) else 0
  }

  function EntriesStatusCount(es: seq<Entry>): nat {
    if es == [] then 0
    else EntriesStatusCount(es[..|es| - 1])
         + (if es[|es| - 1].changes.Some? then ChangesStatusCount(es[|es| - 1].changes.value) else 0)
  }

  function ChangesStatusCount(cs: seq<Change>): nat {
    if cs == [] then 0
    else ChangesStatusCount(cs[..|cs| - 1])
         + (var c := cs[|cs| - 1];
            if c.value.Some? && c.value.value.statuses.Some? then |c.value.value.statuses.value| else 0)
  }

  lemma {:induction false} StatusesUpdateEach(ss: seq<StatusEvent>)
    ensures |UpdatesOfStatuses(ss)| == |ss|
    ensures forall k :: 0 <= k < |ss| ==> UpdatesOfStatuses(ss)[k] == ToUpdate(ss[k])
  {
    if ss != [] {
      StatusesUpdateEach(ss[..|ss| - 1]);
    }
  }

  lemma {:induction false} ChangesUpdateCount(cs: seq<Change>)
    ensures |UpdatesOfChanges(cs)| == ChangesStatusCount(cs)
  {
    if cs != [] {
      ChangesUpdateCount(cs[..|cs| - 1]);
      var c := cs[|cs| - 1];
      if c.value.Some? && c.value.value.statuses.Some? {
        StatusesUpdateEach(c.value.value.statuses.value);
      }
    }
  }

  lemma {:induction false} EntriesUpdateCount(es: seq<Entry>)
    ensures |UpdatesOfEntries(es)| == EntriesStatusCount(es)
  {
    if es != [] {
      EntriesUpdateCount(es[..|es| - 1]);
      if es[|es| - 1].changes.Some? {
        ChangesUpdateCount(es[|es| - 1].changes.value);
      }
    }
  }

  /** Exactly one update per status event; a payload without `entry` gives none. */
  lemma OneUpdatePerStatus(p: WebhookPayload)
    ensures |Updates(p)| == StatusCount(p)
    ensures p.entry.None? ==> Updates(p) == []
  {
    if p.entry.Some? {
      EntriesUpdateCount(p.entry.value);
    }
  }

  /** Entry order is kept: the updates of a batch of entries are those of its first part
      followed by those of the rest. */
  lemma {:induction false} EntriesInOrder(a: seq<Entry>, b: seq<Entry>)
    ensures UpdatesOfEntries(a + b) == UpdatesOfEntries(a) + UpdatesOfEntries(b)
    decreases |b|
  {
    if b != [] {
      assert (a + b)[..|a + b| - 1] == a + b[..|b| - 1];
      EntriesInOrder(a, b[..|b| - 1]);
    } else {
      assert a + b == a;
    }
  }

  /** Within one change, the k-th update copies the k-th status event. */
  lemma ChangeUpdatesCopyStatuses(c: Change, k: nat)
    requires c.value.Some? && c.value.value.statuses.Some? && k < |c.value.value.statuses.value|
    ensures |UpdatesOfChange(c)| == |c.value.value.statuses.value|
    ensures UpdatesOfChange(c)[k] == ToUpdate(c.value.value.statuses.value[k])
  {
    StatusesUpdateEach(c.value.value.statuses.value);
  }

  // ---------------------------------------------------------------------------------------
  // Share link

  const ShareLinkPrefix: string := "https://wa.me/?text="

  /** `generateShareLink(message)`; `encodeURIComponent` is the parameter `encode`. */
  function GenerateShareLink(message: string, encode: string -> string): (r: string)
    ensures StartsWith(r, ShareLinkPrefix)
    ensures r[|ShareLinkPrefix|..] == encode(message)
  {
    ShareLinkPrefix + encode(message)
  }

  /** Messages whose encodings differ get different links. */
  lemma ShareLinksDistinguishMessages(m1: string, m2: string, encode: string -> string)
    requires encode(m1) != encode(m2)
    ensures GenerateShareLink(m1, encode) != GenerateShareLink(m2, encode)
  {
    assert GenerateShareLink(m1, encode)[|ShareLinkPrefix|..] != GenerateShareLink(m2, encode)[|ShareLinkPrefix|..];
  }
}
