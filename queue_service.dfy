/** The message queue and its worker (backend/src/services/queueService.js): bulk and single
    enqueueing with staggered delays, the queue statistics, and the worker's processing of one
    job attempt, with the retry policy as a sequence of attempts. The queue engine itself
    (rate limiter, backoff timing, retention) is not modelled; its ids and counts are inputs. */
module QueueService {
  import opened Common
  import opened MessageLogModel
  import opened CampaignModel
  import opened WhatsAppService

  /** `config.queue.messageDelay`, in milliseconds. */
  const MessageDelay: nat := 2000
  /** `config.queue.maxRetries`, used as the job's `attempts`. */
  const MaxRetries: nat := 3
  const JobName: string := "send-message"

  /** The denormalised send request a job carries. */
  datatype JobData = JobData(
    messageLogId: nat,
    phoneNumber: string,
    templateName: string,
    languageCode: string,
    variables: seq<string>,
    campaignId: nat)

  /** A job as handed to `addBulk`/`add`: name, data and scheduling delay. */
  datatype JobRequest = JobRequest(name: string, data: JobData, delay: nat)

  datatype Job = Job(id: nat, request: JobRequest)

  /** `{ jobId, messageLogId }`, what the enqueue functions return per job. */
  datatype JobRef = JobRef(jobId: nat, messageLogId: nat)

  // ---------------------------------------------------------------------------------------
  // Enqueueing

  /** `messagesData.map((data, index) => ...)`: one request per message, in order, with the
      message data unchanged; the first starts at once and each next one `MessageDelay` later. */
  function BulkRequests(batch: seq<JobData>): (r: seq<JobRequest>)
    ensures |r| == |batch|
    ensures forall i :: 0 <= i < |r| ==> r[i].name == JobName && r[i].data == batch[i]
    ensures |r| > 0 ==> r[0].delay == 0
    ensures forall i :: 0 <= i < |r| - 1 ==> r[i + 1].delay == r[i].delay + MessageDelay
  {
    seq(|batch|, i requires 0 <= i < |batch| => JobRequest(JobName, batch[i], MessageDelay * i))
  }

  /** Job `j` starts `MessageDelay * (j - i)` after job `i` of the same batch. */
  lemma {:induction false} BulkSpacing(batch: seq<JobData>, i: nat, j: nat)
    requires i <= j < |batch|
    ensures BulkRequests(batch)[j].delay == BulkRequests(batch)[i].delay + MessageDelay * (j - i)
    decreases j - i
  {
    if i < j {
      BulkSpacing(batch, i, j - 1);
    }
  }

  /** The queue's list of jobs; ids are handed out in order from `nextId`. */
  class MessageQueue {
    var jobs: seq<Job>
    var nextId: nat

    constructor ()
      ensures jobs == [] && nextId == 0
    {
      jobs, nextId := [], 0;
    }

    /** `messageQueue.addBulk(requests)`. */
    method AddBulk(requests: seq<JobRequest>) returns (added: seq<Job>)
      modifies this
      ensures |added| == |requests|
      ensures forall i :: 0 <= i < |added| ==> added[i] == Job(old(nextId) + i, requests[i])
      ensures jobs == old(jobs) + added && nextId == old(nextId) + |requests|
    {
      var start := nextId;
      added := seq(|requests|, i requires 0 <= i < |requests| => Job(start + i, requests[i]));
      jobs, nextId := jobs + added, nextId + |requests|;
    }

    /** `messageQueue.add(name, data, { delay })`. */
    method Add(request: JobRequest) returns (job: Job)
      modifies this
      ensures job == Job(old(nextId), request)
      ensures jobs == old(jobs) + [job] && nextId == old(nextId) + 1
    {
      job := Job(nextId, request);
      jobs, nextId := jobs + [job], nextId + 1;
    }
  }

  /** `queueBulkMessages(messagesData)`. */
  method QueueBulkMessages(queue: MessageQueue, batch: seq<JobData>) returns (refs: seq<JobRef>)
    modifies queue
    ensures queue.jobs == old(queue.jobs) + seq(|batch|, i requires 0 <= i < |batch| => Job(old(queue.nextId) + i, BulkRequests(batch)[i]))
    ensures |refs| == |batch|
    ensures forall i :: 0 <= i < |batch| ==> refs[i] == JobRef(old(queue.nextId) + i, batch[i].messageLogId)
  {
    var added := queue.AddBulk(BulkRequests(batch));
    refs := seq(|added|, i requires 0 <= i < |added| => JobRef(added[i].id, batch[i].messageLogId));
  }

  /** `queueMessage(messageData)`: a single job always waits one `MessageDelay`. */
  method QueueMessage(queue: MessageQueue, data: JobData) returns (ref: JobRef)
    modifies queue
    ensures queue.jobs == old(queue.jobs) + [Job(old(queue.nextId), JobRequest(JobName, data, MessageDelay))]
    ensures ref == JobRef(old(queue.nextId), data.messageLogId)
  {
    var job := queue.Add(JobRequest(JobName, data, MessageDelay));
    ref := JobRef(job.id, data.messageLogId);
  }

  // ---------------------------------------------------------------------------------------
  // Queue statistics

  datatype QueueCounts = QueueCounts(waiting: nat, active: nat, completed: nat, failed: nat, delayed: nat)
  datatype QueueStats = QueueStats(waiting: nat, active: nat, completed: nat, failed: nat, delayed: nat, total: nat)

  /** `getQueueStats()`: the five counts the queue reports and their sum. */
  function GetQueueStats(c: QueueCounts): (r: QueueStats)
    ensures r.waiting == c.waiting && r.active == c.active && r.completed == c.completed
    ensures r.failed == c.failed && r.delayed == c.delayed
    ensures r.total == r.waiting + r.active + r.completed + r.failed + r.delayed
  {
    QueueStats(c.waiting, c.active, c.completed, c.failed, c.delayed,
               c.waiting + c.active + c.completed + c.failed + c.delayed)
  }

  // ---------------------------------------------------------------------------------------
  // The worker

  /** How one attempt ends: the job completes, or the worker re-throws for the queue. */
  datatype JobOutcome = Finished(messageId: string) | Threw(message: string)

  datatype AttemptResult = AttemptResult(logs: seq<LogRecord>, campaigns: seq<Campaign>, outcome: JobOutcome)

  const LogNotFound: string := "Message log not found"
  const SendFailedCode: string := "SEND_FAILED"

  /** The stores after one attempt of a job, given what the send returned. A missing log
      throws before anything is written; otherwise the log is first saved as 'sending', then
      either stamped 'sent' with the provider's id (and `stats.sent` incremented) or stamped
      'failed' with code 'SEND_FAILED' (and `stats.failed` incremented). The provider's own
      error code is not kept. No other counter is touched, `queued` included. */
  function Attempt(logs: seq<LogRecord>, campaigns: seq<Campaign>, job: JobData, send: SendResult, now: Time): (r: AttemptResult)
    ensures |r.logs| == |logs|
    ensures forall j :: 0 <= j < |logs| && j != job.messageLogId ==> r.logs[j] == logs[j]
    ensures job.messageLogId >= |logs| ==> r.logs == logs && r.outcome == Threw(LogNotFound)
    ensures r.outcome.Finished? <==> job.messageLogId < |logs| && send.SendSuccess?
    ensures r.campaigns == Incremented(campaigns, job.campaignId, if r.outcome.Finished? then Sent else Failed)
    ensures job.messageLogId < |logs| ==>
              var old_, new_ := logs[job.messageLogId], r.logs[job.messageLogId];
              && new_.campaignId == old_.campaignId && new_.contactId == old_.contactId
              && new_.phoneNumber == old_.phoneNumber && new_.createdAt == old_.createdAt
              && new_.status == (if send.SendSuccess? then Sent else Failed)
    ensures job.messageLogId < |logs| && send.SendSuccess? ==>
              var new_ := r.logs[job.messageLogId];
              new_.messageId == Some(send.messageId) && new_.sentAt == Some(now)
              && r.outcome == Finished(send.messageId)
    ensures job.messageLogId < |logs| && send.SendFailure? ==>
              var new_ := r.logs[job.messageLogId];
              new_.errorCode == Some(SendFailedCode) && new_.failedAt == Some(now)
              && new_.messageId == logs[job.messageLogId].messageId
              && r.outcome == Threw(send.message)
  {
    var id := job.messageLogId;
    if id >= |logs| then
      AttemptResult(logs, Incremented(campaigns, job.campaignId, Failed), Threw(LogNotFound))
    else
      var pickedUp := logs[id].(status := Sending);
      match send
      case SendSuccess(messageId) =>
        AttemptResult(logs[id := WithStatus(pickedUp.(messageId := Some(messageId)), Sent, "", "", now)],
                      Incremented(campaigns, job.campaignId, Sent), Finished(messageId))
      case SendFailure(_, message) =>
        AttemptResult(logs[id := WithStatus(pickedUp, Failed, SendFailedCode, message, now)],
                      Incremented(campaigns, job.campaignId, Failed), Threw(message))
  }

  /** The worker's processor for one attempt of a job. The HTTP exchange is `http`; the
      payload it would post is returned as `request`. `pickedUp` is the record saved before
      the send: 'sending', whatever the status was (a retry re-enters 'sending' from 'failed'). */
  method ProcessJob(logs: LogCollection, campaigns: CampaignCollection, job: JobData, http: HttpOutcome, now: Time)
    returns (outcome: JobOutcome, request: Option<MessagePayload>, ghost pickedUp: Option<LogRecord>)
    modifies logs, campaigns
    ensures var r := Attempt(old(logs.records), old(campaigns.records), job, ShapeSendResult(http), now);
            logs.records == r.logs && campaigns.records == r.campaigns && outcome == r.outcome
    ensures request.Some? <==> job.messageLogId < |old(logs.records)|
    ensures request.Some? ==>
              request.value.to == job.phoneNumber && request.value.template.name == job.templateName
              && request.value.template.languageCode == job.languageCode
              && BodyTexts(request.value) == job.variables
    ensures pickedUp.Some? <==> job.messageLogId < |old(logs.records)|
    ensures pickedUp.Some? ==> pickedUp.value == old(logs.records)[job.messageLogId].(status := Sending)
  {
    var id := job.messageLogId;
    if id >= |logs.records| {
      // `throw new Error('Message log not found')`; the catch finds no log to mark.
      campaigns.Increment(job.campaignId, Failed);
      return Threw(LogNotFound), None, None;
    }
    ghost var stored := logs.records[id];
    var log := new MessageLog.Load(logs, id);
    log.status := Sending;
    assert log.Record() == stored.(status := Sending);
    log.Save(logs);
    pickedUp := Some(log.Record());
    var payload := BuildTemplatePayload(job.phoneNumber, job.templateName, Some(job.languageCode), job.variables);
    request := Some(payload);
    var result := ShapeSendResult(http);
    if result.SendSuccess? {
      log.messageId := Some(result.messageId);
      assert log.Record() == stored.(status := Sending, messageId := Some(result.messageId));
      log.UpdateStatus(logs, Sent, "", "", now);
      campaigns.Increment(job.campaignId, Sent);
      outcome := Finished(result.messageId);
    } else {
      // `throw new Error(result.error.message)`; the catch reloads the log and marks it.
      var reloaded := new MessageLog.Load(logs, id);
      assert reloaded.Record() == stored.(status := Sending);
      reloaded.UpdateStatus(logs, Failed, SendFailedCode, result.message, now);
      campaigns.Increment(job.campaignId, Failed);
      outcome := Threw(result.message);
    }
  }

  // ---------------------------------------------------------------------------------------
  // Retries

  /** One attempt as the queue runs it: what the provider answers, and when. */
  datatype Try = Try(http: HttpOutcome, at: Time)

  predicate IsSuccessfulSend(t: Try) {
    ShapeSendResult(t.http).SendSuccess?
  }

  /** The queue runs attempts while the previous one threw and attempts remain, so a job
      completes exactly when its log exists and some attempt's send succeeds. */
  function Attempts(logs: seq<LogRecord>, campaigns: seq<Campaign>, job: JobData, tries: seq<Try>): (r: AttemptResult)
    requires |tries| > 0
    ensures |r.logs| == |logs| && |r.campaigns| == |campaigns|
    ensures r.outcome.Finished? <==>
              job.messageLogId < |logs| && exists k :: 0 <= k < |tries| && IsSuccessfulSend(tries[k])
    decreases |tries|
  {
    var r := Attempt(logs, campaigns, job, ShapeSendResult(tries[0].http), tries[0].at);
    if r.outcome.Threw? && |tries| > 1 then Attempts(r.logs, r.campaigns, job, tries[1..]) else r
  }

  predicate IsFailedSend(t: Try) {
    ShapeSendResult(t.http).SendFailure?
  }

  /** A job whose every attempt fails adds 1 to `stats.failed` per attempt (not once), leaves
      `stats.sent` alone and ends with the log 'failed' and the job re-thrown. */
  lemma {:induction false} FailingAttemptsCountEachTime(logs: seq<LogRecord>, campaigns: seq<Campaign>, job: JobData, tries: seq<Try>)
    requires |tries| > 0 && forall k :: 0 <= k < |tries| ==> IsFailedSend(tries[k])
    requires job.messageLogId < |logs| && job.campaignId < |campaigns|
    ensures var r := Attempts(logs, campaigns, job, tries);
            && r.outcome.Threw?
            && r.logs[job.messageLogId].status == Failed
            && |r.campaigns| == |campaigns|
            && r.campaigns[job.campaignId].stats
               == campaigns[job.campaignId].stats.(failed := campaigns[job.campaignId].stats.failed + |tries|)
    decreases |tries|
  {
    assert IsFailedSend(tries[0]);
    var r := Attempt(logs, campaigns, job, ShapeSendResult(tries[0].http), tries[0].at);
    if |tries| > 1 {
      assert forall k :: 0 <= k < |tries[1..]| ==> IsFailedSend(tries[1..][k]) by {
        forall k | 0 <= k < |tries[1..]| ensures IsFailedSend(tries[1..][k]) {
          assert tries[1..][k] == tries[k + 1];
        }
      }
      FailingAttemptsCountEachTime(r.logs, r.campaigns, job, tries[1..]);
    }
  }

  /** The attempts before the first successful one all failed. */
  predicate FirstSuccessAt(tries: seq<Try>, k: nat) {
    && k < |tries| && IsSuccessfulSend(tries[k])
    && forall j :: 0 <= j < k ==> IsFailedSend(tries[j])
  }

  lemma FirstSuccessLater(tries: seq<Try>, k: nat)
    requires k > 0 && FirstSuccessAt(tries, k)
    ensures IsFailedSend(tries[0]) && FirstSuccessAt(tries[1..], k - 1)
  {
    assert IsFailedSend(tries[0]);
    forall j | 0 <= j < k - 1 ensures IsFailedSend(tries[1..][j]) {
      assert tries[1..][j] == tries[j + 1];
    }
  }

  /** A job whose first successful send is attempt `k` stops there, with the log 'sent'
      carrying that message id and send time. */
  lemma {:induction false} FirstSuccessOnTry(logs: seq<LogRecord>, campaigns: seq<Campaign>, job: JobData,
                                             tries: seq<Try>, k: nat)
    requires FirstSuccessAt(tries, k)
    requires job.messageLogId < |logs| && job.campaignId < |campaigns|
    ensures var r := Attempts(logs, campaigns, job, tries);
            var id := ShapeSendResult(tries[k].http).messageId;
            && r.outcome == Finished(id)
            && r.logs[job.messageLogId].status == Sent
            && r.logs[job.messageLogId].messageId == Some(id)
            && r.logs[job.messageLogId].sentAt == Some(tries[k].at)
    decreases k
  {
    if k == 0 {
      SucceedingAttempt(logs, campaigns, job, tries);
    } else {
      FirstSuccessLater(tries, k);
      var r := FailingAttempt(logs, campaigns, job, tries);
      FirstSuccessOnTry(r.logs, r.campaigns, job, tries[1..], k - 1);
    }
  }

  /** The same job's counters: `stats.sent` rises by 1 and `stats.failed` by the `k` failed
      attempts before the successful one. */
  lemma {:induction false} FirstSuccessCounts(logs: seq<LogRecord>, campaigns: seq<Campaign>, job: JobData,
                                              tries: seq<Try>, k: nat)
    requires FirstSuccessAt(tries, k)
    requires job.messageLogId < |logs| && job.campaignId < |campaigns|
    ensures var st := campaigns[job.campaignId].stats;
            Attempts(logs, campaigns, job, tries).campaigns[job.campaignId].stats
              == st.(sent := st.sent + 1, failed := st.failed + k)
    decreases k
  {
    if k == 0 {
      SucceedingAttempt(logs, campaigns, job, tries);
    } else {
      FirstSuccessLater(tries, k);
      var r := FailingAttempt(logs, campaigns, job, tries);
      FirstSuccessCounts(r.logs, r.campaigns, job, tries[1..], k - 1);
    }
  }

  /** A first attempt that sends stops the retries: the log is 'sent' and `sent` rises by 1. */
  lemma SucceedingAttempt(logs: seq<LogRecord>, campaigns: seq<Campaign>, job: JobData, tries: seq<Try>)
    requires |tries| > 0 && IsSuccessfulSend(tries[0])
    requires job.messageLogId < |logs| && job.campaignId < |campaigns|
    ensures var r := Attempts(logs, campaigns, job, tries);
            var id := ShapeSendResult(tries[0].http).messageId;
            var st := campaigns[job.campaignId].stats;
            && r.outcome == Finished(id)
            && r.logs[job.messageLogId].status == Sent
            && r.logs[job.messageLogId].messageId == Some(id)
            && r.logs[job.messageLogId].sentAt == Some(tries[0].at)
            && r.campaigns[job.campaignId].stats == st.(sent := st.sent + 1)
  {
    var r := Attempt(logs, campaigns, job, ShapeSendResult(tries[0].http), tries[0].at);
    assert Attempts(logs, campaigns, job, tries) == r;
  }

  /** A first attempt whose send fails hands the job on to the remaining attempts, with
      `failed` raised by 1 and the stores the same size. */
  lemma FailingAttempt(logs: seq<LogRecord>, campaigns: seq<Campaign>, job: JobData, tries: seq<Try>)
    returns (r: AttemptResult)
    requires |tries| > 1 && IsFailedSend(tries[0])
    requires job.messageLogId < |logs| && job.campaignId < |campaigns|
    ensures Attempts(logs, campaigns, job, tries) == Attempts(r.logs, r.campaigns, job, tries[1..])
    ensures |r.logs| == |logs| && |r.campaigns| == |campaigns|
    ensures var st := campaigns[job.campaignId].stats;
            r.campaigns[job.campaignId].stats == st.(failed := st.failed + 1)
  {
    r := Attempt(logs, campaigns, job, ShapeSendResult(tries[0].http), tries[0].at);
  }


  /** `attempts: config.queue.maxRetries` of processing for one job. */
  method RunJob(logs: LogCollection, campaigns: CampaignCollection, job: JobData, tries: seq<Try>)
    returns (outcome: JobOutcome)
    requires |tries| == MaxRetries
    modifies logs, campaigns
    ensures var r := Attempts(old(logs.records), old(campaigns.records), job, tries);
            logs.records == r.logs && campaigns.records == r.campaigns && outcome == r.outcome
  {
    // `ls` and `cs` hold the stores as the current attempt found them.
    ghost var ls, cs := logs.records, campaigns.records;
    var request; ghost var pickedUp;
    outcome, request, pickedUp := ProcessJob(logs, campaigns, job, tries[0].http, tries[0].at);
    var k := 0;
    while outcome.Threw? && k + 1 < |tries|
      invariant 0 <= k < |tries|
      invariant Attempts(old(logs.records), old(campaigns.records), job, tries) == Attempts(ls, cs, job, tries[k..])
      invariant var r := Attempt(ls, cs, job, ShapeSendResult(tries[k].http), tries[k].at);
                logs.records == r.logs && campaigns.records == r.campaigns && outcome == r.outcome
      decreases |tries| - k
    {
      assert tries[k..][0] == tries[k] && tries[k..][1..] == tries[k + 1..];
      ls, cs := logs.records, campaigns.records;
      k := k + 1;
      outcome, request, pickedUp := ProcessJob(logs, campaigns, job, tries[k].http, tries[k].at);
    }
    assert tries[k..][0] == tries[k];
  }
}
