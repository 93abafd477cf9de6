/** The MessageLog model (backend/src/models/MessageLog.js): one delivery record per
    recipient of a campaign, its status enum, and the `updateStatus` document method that
    both the queue worker and the webhook handler use. */
module MessageLogModel {
  import opened Common

  /** A point in time (`new Date()` is passed in by the caller). */
  type Time = nat

  /** The schema's status enum; new records default to `Queued`. */
  datatype Status = Queued | Sending | Sent | Delivered | Read | Failed

  const DefaultStatus: Status := Queued

  function StatusName(s: Status): string {
    match s
    case Queued => "queued"
    case Sending => "sending"
    case Sent => "sent"
    case Delivered => "delivered"
    case Read => "read"
    case Failed => "failed"
  }

  /** The enum check that `save()` performs: a string is accepted exactly when it names one
      of the six statuses. */
  function ParseStatus(t: string): (r: Option<Status>)
    ensures r.Some? ==> StatusName(r.value) == t
    ensures r.None? ==> forall s: Status :: StatusName(s) != t
  {
    if t == "queued" then Some(Queued)
    else if t == "sending" then Some(Sending)
    else if t == "sent" then Some(Sent)
    else if t == "delivered" then Some(Delivered)
    else if t == "read" then Some(Read)
    else if t == "failed" then Some(Failed)
    else None
  }

  lemma ParseStatusName(s: Status)
    ensures ParseStatus(StatusName(s)) == Some(s)
  {
  }

  /** A stored message log. `messageId` is the provider's id, known only after a send. */
  datatype LogRecord = LogRecord(
    campaignId: nat,
    contactId: nat,
    phoneNumber: string,
    templateName: string,
    templateLanguage: string,
    variables: seq<string>,
    messageId: Option<string>,
    status: Status,
    errorCode: Option<string>,
    errorMessage: Option<string>,
    sentAt: Option<Time>,
    deliveredAt: Option<Time>,
    readAt: Option<Time>,
    failedAt: Option<Time>,
    createdAt: Time)

  /** The fields that `updateStatus` never touches. */
  predicate SameIdentity(a: LogRecord, b: LogRecord) {
    && a.campaignId == b.campaignId
    && a.contactId == b.contactId
    && a.phoneNumber == b.phoneNumber
    && a.templateName == b.templateName
    && a.templateLanguage == b.templateLanguage
    && a.variables == b.variables
    && a.messageId == b.messageId
    && a.createdAt == b.createdAt
  }

  /** What `updateStatus(status, { errorCode, errorMessage })` leaves in the record: the
      status is set whatever it was, the timestamp belonging to the new status is stamped,
      and a 'failed' status overwrites the error fields with the values that are truthy. */
  function WithStatus(r: LogRecord, status: Status, errorCode: string, errorMessage: string, now: Time): (r': LogRecord)
    ensures r'.status == status
    ensures SameIdentity(r, r')
    ensures r'.sentAt == if status == Sent then Some(now) else r.sentAt
    ensures r'.deliveredAt == if status == Delivered then Some(now) else r.deliveredAt
    ensures r'.readAt == if status == Read then Some(now) else r.readAt
    ensures r'.failedAt == if status == Failed then Some(now) else r.failedAt
    ensures r'.errorCode == if status == Failed && Truthy(errorCode) then Some(errorCode) else r.errorCode
    ensures r'.errorMessage == if status == Failed && Truthy(errorMessage) then Some(errorMessage) else r.errorMessage
    ensures status in {Queued, Sending} ==> r' == r.(status := status)
  {
    match status
    case Sent => r.(status := status, sentAt := Some(now))
    case Delivered => r.(status := status, deliveredAt := Some(now))
    case Read => r.(status := status, readAt := Some(now))
    case Failed =>
      r.(status := status, failedAt := Some(now),
         errorCode := if Truthy(errorCode) then Some(errorCode) else r.errorCode,
         errorMessage := if Truthy(errorMessage) then Some(errorMessage) else r.errorMessage)
    case _ => r.(status := status)
  }

  /** Setting the same status again changes only the stamp: the second call's time wins. */
  lemma RepeatedStatusOnlyRestamps(r: LogRecord, status: Status, code: string, message: string, t1: Time, t2: Time)
    ensures WithStatus(WithStatus(r, status, code, message, t1), status, code, message, t2)
            == WithStatus(r, status, code, message, t2)
  {
  }

  /** There is no forward-only guard: a record that was read can be set back to delivered. */
  lemma StatusCanRegress(r: LogRecord, now: Time)
    requires r.status == Read
    ensures WithStatus(r, Delivered, "", "", now).status == Delivered
    ensures WithStatus(r, Delivered, "", "", now).readAt == r.readAt
  {
  }

  /** A new record as the schema creates it: default status, nothing stamped. */
  function NewLog(campaignId: nat, contactId: nat, phoneNumber: string, templateName: string,
                  templateLanguage: string, variables: seq<string>, now: Time): (r: LogRecord)
    ensures r.status == DefaultStatus && r.messageId == None
    ensures r.sentAt == None && r.deliveredAt == None && r.readAt == None && r.failedAt == None
    ensures r.errorCode == None && r.errorMessage == None
  {
    LogRecord(campaignId, contactId, phoneNumber, templateName, templateLanguage, variables,
              None, DefaultStatus, None, None, None, None, None, None, now)
  }

  /** The `messagelogs` collection; a log's id is its position. Logs are never deleted. */
  class LogCollection {
    var records: seq<LogRecord>

    constructor (records: seq<LogRecord>)
      ensures this.records == records
    {
      this.records := records;
    }

    /** `MessageLog.create(fields)`: the new log goes after the existing ones. */
    method Create(r: LogRecord) returns (id: nat)
      modifies this
      ensures id == |old(records)| && records == old(records) + [r]
    {
      id := |records|;
      records := records + [r];
    }
  }

  /** A message log fetched into memory (`MessageLog.findById`), changed field by field and
      written back with `Save`. The fields the core never changes are constants. */
  class MessageLog {
    const id: nat
    const campaignId: nat
    const contactId: nat
    const phoneNumber: string
    const templateName: string
    const templateLanguage: string
    const variables: seq<string>
    const createdAt: Time
    var messageId: Option<string>
    var status: Status
    var errorCode: Option<string>
    var errorMessage: Option<string>
    var sentAt: Option<Time>
    var deliveredAt: Option<Time>
    var readAt: Option<Time>
    var failedAt: Option<Time>

    /** The document's current field values as a record. */
    function Record(): LogRecord
      reads this
    {
      LogRecord(campaignId, contactId, phoneNumber, templateName, templateLanguage, variables,
                messageId, status, errorCode, errorMessage, sentAt, deliveredAt, readAt, failedAt,
                createdAt)
    }

    constructor Load(logs: LogCollection, id: nat)
      requires id < |logs.records|
      ensures this.id == id && Record() == logs.records[id]
    {
      var r := logs.records[id];
      this.id := id;
      campaignId, contactId, phoneNumber := r.campaignId, r.contactId, r.phoneNumber;
      templateName, templateLanguage, variables := r.templateName, r.templateLanguage, r.variables;
      messageId, status, errorCode, errorMessage := r.messageId, r.status, r.errorCode, r.errorMessage;
      sentAt, deliveredAt, readAt, failedAt := r.sentAt, r.deliveredAt, r.readAt, r.failedAt;
      createdAt := r.createdAt;
    }

    /** `save()`: the stored record becomes the document's values. */
    method Save(logs: LogCollection)
      requires id < |logs.records|
      modifies logs
      ensures logs.records == old(logs.records)[id := Record()]
    {
      logs.records := logs.records[id := Record()];
    }

    /** The in-memory part of `updateStatus`: set the status and stamp it; a 'failed' status
        also takes the truthy error fields. */
    method Stamp(status: Status, errorCode: string, errorMessage: string, now: Time)
      modifies this
      ensures Record() == WithStatus(old(Record()), status, errorCode, errorMessage, now)
    {
      ghost var before := Record();
      this.status := status;
      match status {
        case Sent =>
          sentAt := Some(now);
          assert Record() == WithStatus(before, status, errorCode, errorMessage, now);
        case Delivered =>
          deliveredAt := Some(now);
          assert Record() == WithStatus(before, status, errorCode, errorMessage, now);
        case Read =>
          readAt := Some(now);
          assert Record() == WithStatus(before, status, errorCode, errorMessage, now);
        case Failed =>
          failedAt := Some(now);
          this.errorCode := if Truthy(errorCode) then Some(errorCode) else this.errorCode;
          this.errorMessage := if Truthy(errorMessage) then Some(errorMessage) else this.errorMessage;
          assert Record() == WithStatus(before, status, errorCode, errorMessage, now);
        case _ =>
          assert Record() == WithStatus(before, status, errorCode, errorMessage, now);
      }
    }

    /** `updateStatus(status, additionalData)`: set the status, stamp it, then save. */
    method UpdateStatus(logs: LogCollection, status: Status, errorCode: string, errorMessage: string, now: Time)
      requires id < |logs.records|
      modifies this, logs
      ensures Record() == WithStatus(old(Record()), status, errorCode, errorMessage, now)
      ensures logs.records == old(logs.records)[id := Record()]
    {
      Stamp(status, errorCode, errorMessage, now);
      Save(logs);
    }
  }
}
