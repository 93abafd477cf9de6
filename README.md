# WhatsApp Bulk Messager — delivery bookkeeping in Dafny

This project models the backend of the WhatsApp Bulk Messager. It covers the bookkeeping that
connects contacts, campaigns, per-recipient message logs and the send queue:

- **Contacts** are stored with a sanitized phone number (`sanitizePhoneNumber`). They can be
  created, updated, soft-deleted, tagged, listed and imported from uploaded rows.
- **Creating a campaign** selects the active contacts that share a tag with the campaign. It
  stores the campaign with `stats.queued = N`, creates one `queued` message log per recipient
  and enqueues one job per log, the jobs spaced `messageDelay` (2000 ms) apart.
- **The queue worker** runs each job for up to `maxRetries` (3) attempts. An attempt marks
  the log `sending`, then `sent` (adding 1 to `stats.sent`) or `failed` (adding 1 to
  `stats.failed`).
- **The webhook handler** applies the provider's status callbacks to the logs. When a log's
  status changes, it moves one count from the old counter of its campaign to the new one.
- **Reading a campaign** recounts its logs per status, overwrites the stored counters, and
  marks an `in_progress` campaign `completed` once nothing is queued or sending.
- **Analytics** gives a summary with a per-status breakdown and a filtered, paged log list.

Each MongoDB collection is a class holding a sequence of records; a record's id is its
position, and insertion order is `createdAt` order. The logs of one campaign share one creation time; among such ties MongoDB leaves the order open, and the model puts the later-inserted first. A document fetched and saved in place
(a message log, a campaign) is updated through the class that holds it. Each HTTP handler is
one sequential step over the stores. The send result, the current time, the verify token, the
URI encoder and the regular-expression search are parameters.

The model follows the code as written, including where it does not keep the counters
consistent:

- There is no forward-only guard on statuses (`MessageLogModel.StatusCanRegress`,
  `WhatsAppController.WebhookCanRegress`).
- A successful send adds to `sent` without taking from `queued`
  (`CampaignController.FirstSendOvercounts`).
- Every failed attempt adds to `failed` (`QueueService.FailingAttemptsCountEachTime`).

Files: `common.dfy` (Option, truthiness, sequence helpers), `paging.dfy`, `contact_model.dfy`,
`message_log.dfy`, `campaign_model.dfy`, `whatsapp_service.dfy`, `queue_service.dfy`,
`whatsapp_controller.dfy`, `campaign_controller.dfy`, `contact_controller.dfy`,
`analytics_routes.dfy`.

## Model

| member | source | states |
|---|---|---|
| MessageLogModel.ParseStatus | backend/src/models/MessageLog.js:33-37 | a status string is accepted exactly when it names one of the six enum values |
| MessageLogModel.ParseStatusName | backend/src/models/MessageLog.js:33-37 | each of the six statuses is accepted under its own name |
| MessageLogModel.WithStatus | backend/src/models/MessageLog.js:66-89 | the status is set whatever it was; only the new status's timestamp is stamped; 'failed' overwrites errorCode/errorMessage only with truthy values; 'queued'/'sending' change only the status; campaign, contact, phone, template, variables and messageId never change |
| MessageLogModel.RepeatedStatusOnlyRestamps | backend/src/models/MessageLog.js:66-86 | setting the same status twice is the same as setting it once at the later time |
| MessageLogModel.StatusCanRegress | backend/src/models/MessageLog.js:66-67 | a 'read' log can be set back to 'delivered' and keeps its readAt |
| MessageLogModel.NewLog | backend/src/models/MessageLog.js:3-58 | a new log has the default status 'queued', no messageId, no timestamps and no error fields |
| MessageLogModel.LogCollection.Create | backend/src/controllers/campaignController.js:64-72 | `MessageLog.create` appends the record and returns its id |
| MessageLogModel.MessageLog.Load | backend/src/services/queueService.js:49-52 | a fetched document holds the stored record of that id |
| MessageLogModel.MessageLog.Save | backend/src/services/queueService.js:54-55 | `save()` writes the document's fields back at its id and changes no other log |
| MessageLogModel.MessageLog.Stamp | backend/src/models/MessageLog.js:66-86 | the in-memory part of `updateStatus`: the document becomes `WithStatus` of its old value, before it is saved |
| MessageLogModel.MessageLog.UpdateStatus | backend/src/models/MessageLog.js:66-89 | the document becomes `WithStatus` of its old value and is saved at its id |
| CampaignModel.Counter | backend/src/models/Campaign.js:42-48 | there is a stored counter for every status except 'sending' |
| CampaignModel.WithCounter | backend/src/models/Campaign.js:42-48 | writing a counter sets that counter only; a write to 'sending' is dropped |
| CampaignModel.CounterSumWith | backend/src/models/Campaign.js:42-48 | the counters' sum changes by exactly the change to the written counter |
| CampaignModel.Incremented | backend/src/services/queueService.js:71-97 | `$inc` of one counter adds 1 to that counter of that campaign only; other campaigns and fields are unchanged; an unknown id changes nothing |
| CampaignModel.CampaignCollection.Increment | backend/src/services/queueService.js:71-97 | the collection becomes `Incremented` of its old contents |
| CampaignModel.CampaignCollection.Create | backend/src/controllers/campaignController.js:45-57 | `Campaign.create` appends the campaign and returns its id |
| CampaignModel.CampaignCollection.Save | backend/src/controllers/campaignController.js:170-178 | saving a fetched campaign replaces it at its id and nothing else |
| ContactModel.RemoveAll | backend/src/models/Contact.js:54 | the global replace leaves no matching character and never makes the text longer |
| ContactModel.RemoveAllConcat | backend/src/models/Contact.js:54 | the replace distributes over concatenation, so every other character stays, in order |
| ContactModel.RemoveAllOfOne | backend/src/models/Contact.js:54 | on one character the replace drops it exactly when the class matches it |
| ContactModel.RemoveAllKeepsCount | backend/src/models/Contact.js:54 | every occurrence of a character the class does not match survives: its count is unchanged |
| ContactModel.RemoveAllKeepsOthers | backend/src/models/Contact.js:54 | a character the class does not match survives the replace |
| ContactModel.RemoveAllOfClean | backend/src/models/Contact.js:54 | a text without matching characters comes back unchanged |
| ContactModel.AddCountryCode | backend/src/models/Contact.js:57-63 | a number starting with '+' is kept; otherwise one starting with "91" gains '+' and any other gains "+91"; the input is always a suffix of the result |
| ContactModel.SanitizePhoneNumber | backend/src/models/Contact.js:53-66 | the result starts with '+' and holds no whitespace and no '-' |
| ContactModel.FormatPhoneNumber | backend/src/models/Contact.js:37-50 | the result starts with '+' and holds no whitespace |
| ContactModel.SanitizeIdempotent | backend/src/models/Contact.js:53-66 | sanitizing a sanitized number changes nothing |
| ContactModel.FormatFixesSanitized | backend/src/models/Contact.js:37-66 | formatting a sanitized number returns it unchanged |
| ContactModel.FormatKeepsDashes | backend/src/models/Contact.js:37-50 | formatting keeps every dash: the result has exactly as many dashes as the input |
| ContactModel.SanitizeDropsDashes | backend/src/models/Contact.js:53-66 | a sanitized number has no dash |
| ContactModel.RemovalsCommute | backend/src/models/Contact.js:54 | removing whitespace and removing dashes can be done in either order |
| ContactModel.SanitizeIsFormatWithoutDashes | backend/src/models/Contact.js:37-66 | sanitizing a number is formatting it after its dashes are removed |
| WhatsAppService.BuildTemplatePayload | backend/src/services/whatsappService.js:19-47 | the payload carries the recipient, the template name and the language ('en' by default); it has a body component exactly when there are variables, with one text parameter per variable in order |
| WhatsAppService.ShapeSendResult | backend/src/services/whatsappService.js:56-71 | success exactly when the response lists a message id, and then that id; a failure has a truthy code ('UNKNOWN_ERROR' when the provider gives none) and the provider's message, or the error's own message |
| WhatsAppService.VerifyWebhook | backend/src/services/whatsappService.js:116-121 | the challenge exactly when the mode is 'subscribe' and the token equals the configured one; nothing otherwise |
| WhatsAppService.UnconfiguredTokenAcceptsMissingToken | backend/src/services/whatsappService.js:117 | with no configured token, a subscribe request without a token passes |
| WhatsAppService.ToUpdate | backend/src/services/whatsappService.js:138-144 | an update copies id, status, timestamp, recipient id and errors from its status event |
| WhatsAppService.UpdatesOfStatuses | backend/src/services/whatsappService.js:137-145 | defined as one `ToUpdate` per status, in order (counted by `StatusesUpdateEach`) |
| WhatsAppService.UpdatesOfChange | backend/src/services/whatsappService.js:136-146 | defined as the updates of the change's `value.statuses`, none when either is absent |
| WhatsAppService.UpdatesOfChanges | backend/src/services/whatsappService.js:135-147 | defined as the updates of each change, concatenated in order (counted by `ChangesUpdateCount`) |
| WhatsAppService.UpdatesOfEntry | backend/src/services/whatsappService.js:134-148 | defined as the updates of the entry's `changes`, none when they are absent |
| WhatsAppService.UpdatesOfEntries | backend/src/services/whatsappService.js:133-149 | defined as the updates of each entry, concatenated in order (counted by `EntriesUpdateCount`, ordered by `EntriesInOrder`) |
| WhatsAppService.Updates | backend/src/services/whatsappService.js:128-156 | defined as the updates of the payload's `entry` list, none when it is absent; `ParseWebhookPayload` is proved equal to it |
| WhatsAppService.ParseWebhookPayload | backend/src/services/whatsappService.js:128-156 | the loops produce the flattened update list of the payload |
| WhatsAppService.PushChangeUpdates | backend/src/services/whatsappService.js:134-147 | the loop over changes appends the updates of each change in order |
| WhatsAppService.PushStatusUpdates | backend/src/services/whatsappService.js:136-146 | the loop over statuses appends one update per status in order |
| WhatsAppService.StatusesUpdateEach | backend/src/services/whatsappService.js:137-145 | the k-th update of a status list is the k-th status copied |
| WhatsAppService.ChangesUpdateCount | backend/src/services/whatsappService.js:135-147 | a list of changes yields as many updates as its changes hold statuses |
| WhatsAppService.EntriesUpdateCount | backend/src/services/whatsappService.js:133-149 | a list of entries yields as many updates as its entries hold statuses |
| WhatsAppService.OneUpdatePerStatus | backend/src/services/whatsappService.js:132-155 | exactly one update per status event; a payload without entries yields none |
| WhatsAppService.EntriesInOrder | backend/src/services/whatsappService.js:133-149 | updates keep entry order: two batches of entries give their updates one after the other |
| WhatsAppService.ChangeUpdatesCopyStatuses | backend/src/services/whatsappService.js:137-144 | within one change, the k-th update copies the k-th status event |
| WhatsAppService.GenerateShareLink | backend/src/services/whatsappService.js:163-166 | the link is "https://wa.me/?text=" followed by the encoded message |
| WhatsAppService.ShareLinksDistinguishMessages | backend/src/services/whatsappService.js:163-166 | messages with different encodings get different links |
| QueueService.BulkRequests | backend/src/services/queueService.js:151-157 | one 'send-message' job per message, in order, carrying the data unchanged; the first has delay 0 and each next one 2000 ms more |
| QueueService.BulkSpacing | backend/src/services/queueService.js:151-157 | bulk job j starts 2000·(j−i) ms after bulk job i |
| QueueService.MessageQueue.AddBulk | backend/src/services/queueService.js:159 | the queue appends the jobs in order with consecutive fresh ids |
| QueueService.MessageQueue.Add | backend/src/services/queueService.js:131-137 | the queue appends one job with a fresh id |
| QueueService.QueueBulkMessages | backend/src/services/queueService.js:150-165 | one queued job per message, and the returned list pairs each job id with the message's log id, in input order |
| QueueService.QueueMessage | backend/src/services/queueService.js:130-143 | a single job always waits one 2000 ms delay; it returns its job id and log id |
| QueueService.GetQueueStats | backend/src/services/queueService.js:171-188 | the five counts are reported unchanged and total is their sum |
| QueueService.Attempt | backend/src/services/queueService.js:35-101 | a missing log changes no log, adds 1 to `failed` and re-throws; otherwise the log ends 'sent' with the message id and `sent`+1, or 'failed' with code SEND_FAILED and `failed`+1 and a re-throw; `queued` and all other logs stay |
| QueueService.ProcessJob | backend/src/services/queueService.js:35-101 | the worker step leaves the stores as `Attempt` says; it posts a payload for the job's number, template, language and variables only when the log exists, after saving the log as 'sending' |
| QueueService.Attempts | backend/src/services/queueService.js:17-101 | another attempt runs only after one threw, so a job completes exactly when its log exists and some attempt's send succeeds; retries keep the number of logs and campaigns |
| QueueService.FirstSuccessOnTry | backend/src/services/queueService.js:17-101 | a job whose first successful send is attempt k stops there, completed with that message id, and the log is 'sent' with that id and send time |
| QueueService.FirstSuccessCounts | backend/src/services/queueService.js:71-99 | for the same job `sent` rises by 1 and `failed` by k, one for each failed attempt before the success |
| QueueService.SucceedingAttempt | backend/src/services/queueService.js:54-79 | a first attempt that sends ends the retries with the log 'sent' and `sent` raised by 1 |
| QueueService.FailingAttempt | backend/src/services/queueService.js:80-99 | a first attempt whose send fails raises `failed` by 1 and hands the job to the remaining attempts |
| QueueService.FailingAttemptsCountEachTime | backend/src/services/queueService.js:95-99 | a job whose every attempt fails ends 'failed' and re-thrown with `failed` raised by the number of attempts |
| QueueService.RunJob | backend/src/services/queueService.js:17-101 | three attempts, stopping at the first that completes, leave the stores as `Attempts` says |
| WhatsAppController.ApprovedTemplates | backend/src/controllers/whatsappController.js:14-16 | exactly the templates with status 'APPROVED' are kept |
| WhatsAppController.ApprovedTemplatesConcat | backend/src/controllers/whatsappController.js:14-16 | the filter keeps the original order |
| WhatsAppController.ApprovedTemplatesOfApproved | backend/src/controllers/whatsappController.js:14-16 | a list of approved templates is kept whole |
| WhatsAppController.GetTemplates | backend/src/controllers/whatsappController.js:8-38 | the approved templates and their count when the fetch succeeds; 500 'Failed to fetch templates' when it fails; 500 from the catch when no list came back |
| WhatsAppController.VerifyWebhookReply | backend/src/controllers/whatsappController.js:76-95 | 200 with the challenge exactly when mode, token and a non-empty challenge pass; 403 otherwise |
| WhatsAppController.EmptyChallengeIsRefused | backend/src/controllers/whatsappController.js:82-89 | a correct token with an empty challenge gets 403 |
| WhatsAppController.ShareLinkReply | backend/src/controllers/whatsappController.js:43-71 | 400 exactly for a missing or empty message; otherwise the link for the message and the message |
| WhatsAppController.FindByMessageId | backend/src/controllers/whatsappController.js:116 | the first log carrying the provider id, or none exactly when no log carries it |
| WhatsAppController.FindByMessageIdOfSameIds | backend/src/controllers/whatsappController.js:116 | the lookup depends only on the logs' message ids |
| WhatsAppController.FirstError | backend/src/controllers/whatsappController.js:122-125 | defined as `update.errors?.[0]`: the first error, or empty (falsy) code and message when there is none |
| WhatsAppController.Reconcile | backend/src/controllers/whatsappController.js:130-139 | the old counter loses 1 only when positive, the new one gains 1 (absent counting as 0), all others stay |
| WhatsAppController.ReconcileSum | backend/src/controllers/whatsappController.js:133-138 | the counters' sum rises when nothing could be taken from the old counter and falls on a change to 'sending' |
| WhatsAppController.ApplyUpdate | backend/src/controllers/whatsappController.js:115-145 | an unmatched id or a status outside the enum changes nothing; otherwise only the matched log takes the status and the first error; the counters change only when the status differs and the campaign exists, and then by `Reconcile` |
| WhatsAppController.ApplyUpdates | backend/src/controllers/whatsappController.js:114-140 | the updates applied in order keep the number of logs and campaigns; `ApplyUpdatesConcat` gives the composition |
| WhatsAppController.ApplyUpdatesConcat | backend/src/controllers/whatsappController.js:114-146 | applying two batches in turn is applying their concatenation |
| WhatsAppController.SkippedUpdateDoesNotStopLaterOnes | backend/src/controllers/whatsappController.js:114-145 | a failing update does not affect the updates after it |
| WhatsAppController.DuplicateCallbackOnlyRestamps | backend/src/controllers/whatsappController.js:119-141 | a repeated callback leaves the counters unchanged and only re-stamps the log |
| WhatsAppController.WebhookCanRegress | backend/src/controllers/whatsappController.js:119-139 | a 'delivered' callback after 'read' sets the log back and moves one count from read to delivered |
| WhatsAppController.HandleWebhook | backend/src/controllers/whatsappController.js:100-153 | the handler leaves the stores as the parsed updates applied in order |
| WhatsAppController.ProcessUpdate | backend/src/controllers/whatsappController.js:115-142 | one pass of the loop leaves the stores as `ApplyUpdate` says |
| CampaignController.Validate | backend/src/controllers/campaignController.js:12-27 | refused exactly when the name or template name is missing or empty; language defaults to 'en', tags and variables to [] |
| CampaignController.IsRecipient | backend/src/controllers/campaignController.js:30-33 | defined as the query: an active contact, sharing a tag with `targetTags` when that list is non-empty |
| CampaignController.Recipients | backend/src/controllers/campaignController.js:30-35 | exactly the active contacts, sharing a tag with the target tags when there are any, in store order |
| CampaignController.NewCampaign | backend/src/controllers/campaignController.js:45-57 | the new campaign is 'in_progress' from now, with totalContacts N and stats.queued N, so its counters sum to N |
| CampaignController.RecipientLog | backend/src/controllers/campaignController.js:64-72 | defined as the new 'queued' log of one recipient, with the formatted number, template, language and variables |
| CampaignController.RecipientJob | backend/src/controllers/campaignController.js:76-83 | defined as the queue data of one recipient: its log id, formatted number, template, language, variables and campaign |
| CampaignController.FanOutLogs | backend/src/controllers/campaignController.js:63-74 | one log per recipient, in recipient order |
| CampaignController.FanOutJobs | backend/src/controllers/campaignController.js:63-84 | one job per recipient, in recipient order, job k naming log `base + k` |
| CampaignController.FanOutJobsMatchTheirLogs | backend/src/controllers/campaignController.js:63-87 | job k names the k-th created log, which exists, is 'queued' and has the job's campaign, contact, number, template, language and variables |
| CampaignController.CreateCampaign | backend/src/controllers/campaignController.js:10-105 | a refused request changes no store; otherwise one campaign, one log per recipient in order, and one bulk enqueue of the matching jobs |
| CampaignController.CreateLogs | backend/src/controllers/campaignController.js:60-84 | the loop appends one log per recipient and returns the queue data of each log in order |
| CampaignController.CreateLog | backend/src/controllers/campaignController.js:64-83 | one iteration appends the recipient's log with the formatted number and returns its queue data |
| CampaignController.LogsOf | backend/src/controllers/campaignController.js:155-157 | exactly the logs of the campaign |
| CampaignController.LogsOfConcat | backend/src/controllers/campaignController.js:155-157 | the selection keeps store order |
| CampaignController.CountStatus | backend/src/controllers/campaignController.js:161-166 | `filter(m => m.status === s).length`: never more than the number of logs; `CountStatusConcat` and `CountUniform` fix its value |
| CampaignController.CountStatusConcat | backend/src/controllers/campaignController.js:160-167 | the counts of two parts add up |
| CampaignController.CountStatusReverse | backend/src/controllers/campaignController.js:155-167 | sorting the logs newest first does not change the counts |
| CampaignController.CountUniform | backend/src/controllers/campaignController.js:160-167 | logs all in one status count only under that status |
| CampaignController.LiveStatsOf | backend/src/controllers/campaignController.js:160-167 | defined as the six per-status counts of the logs |
| CampaignController.LiveTotal | backend/src/controllers/campaignController.js:160-167 | defined as the sum of the six counts (equal to the log count by `LiveStatsSum`) |
| CampaignController.LiveStatsSum | backend/src/controllers/campaignController.js:160-167 | the six counts add up to the number of logs |
| CampaignController.Persisted | backend/src/controllers/campaignController.js:170 | the five stored counters take the counts and the 'sending' count is dropped |
| CampaignController.ReadCampaign | backend/src/controllers/campaignController.js:170-176 | the counts replace the counters; the campaign is 'completed' exactly when it already was, or was 'in_progress' with nothing queued or sending; only then is completedAt stamped |
| CampaignController.ReadCampaignIdempotent | backend/src/controllers/campaignController.js:170-178 | a second read over the same logs changes nothing |
| CampaignController.ReadCampaignCountersCoverLogs | backend/src/controllers/campaignController.js:160-170 | after a read the counters sum to the campaign's log count minus the logs still sending |
| CampaignController.FreshCampaignStatsAgree | backend/src/controllers/campaignController.js:45-170 | right after creation the recount gives N queued and nothing else, equal to the stored counters |
| CampaignController.LogsOfNone | backend/src/controllers/campaignController.js:155 | logs of other campaigns are not selected |
| CampaignController.LogsOfOwn | backend/src/controllers/campaignController.js:155 | logs of the campaign are all selected |
| CampaignController.FirstSendOvercounts | backend/src/services/queueService.js:71-73 | after the first successful send of a fresh campaign its counters sum to one more than its contacts |
| CampaignController.GetCampaignById | backend/src/controllers/campaignController.js:143-196 | an unknown id changes nothing; otherwise the campaign is saved as `ReadCampaign` of the recount, and the reply has it, the logs newest first and the six counts |
| CampaignController.FailedMessages | backend/src/controllers/campaignController.js:236-243 | one entry per failed log: as many as there are failed logs, each from a failed log, none missing |
| CampaignController.FailedMessagesConcat | backend/src/controllers/campaignController.js:236-243 | the selection distributes over concatenation, so entries keep log order and multiplicity |
| CampaignController.FailedMessagesOfOne | backend/src/controllers/campaignController.js:236-243 | a single log gives its entry exactly when its status is 'failed' |
| CampaignController.GetCampaignAnalytics | backend/src/controllers/campaignController.js:201-266 | none exactly for an unknown id; the stored counters (not a recount) and the first min(failed, 50) failed entries |
| Common.Take | backend/src/controllers/campaignController.js:255 | `slice(0, n)`: the first n elements, or all when there are fewer, in order |
| CampaignController.GetCampaigns | backend/src/controllers/campaignController.js:110-138 | the rows are the campaigns newest first, skipping (page-1)·limit and taking limit (page 1 and limit 20 by default), with the total and the page count; a page below 1 with a positive limit is refused |
| Paging.PageCount | backend/src/controllers/contactController.js:42 | the least page count covering the total; none for a limit of 0 |
| Paging.SkipCount | backend/src/controllers/contactController.js:31 | the skip is negative exactly for a page below 1 with a positive limit |
| Paging.Window | backend/src/controllers/contactController.js:29-32 | none exactly for a page below 1 with a positive limit; otherwise at most `limit` rows, the k-th being row skip+k, and a short page only at the end of the rows |
| Paging.NonEmptyPagesAreCounted | backend/src/controllers/contactController.js:29-43 | with a positive limit, a page has rows exactly when it is between 1 and the reported page count |
| Paging.ListPage | backend/src/controllers/contactController.js:29-43 | the page's rows, the total, the page number and the page count |
| ContactController.Split | backend/src/controllers/contactController.js:26 | at least one piece, none containing the separator |
| ContactController.JoinSplit | backend/src/controllers/contactController.js:26 | joining the pieces back gives the original text |
| ContactController.PhoneTaken | backend/src/controllers/contactController.js:237 | defined as `Contact.findOne({ phoneNumber })` finding a contact, active or not |
| ContactController.ListedContacts | backend/src/controllers/contactController.js:14-27 | exactly the active contacts matching the search (when given) and one of the tags (when given) |
| ContactController.GetContacts | backend/src/controllers/contactController.js:10-53 | the rows are the listed contacts newest first, skipping (page-1)·limit and taking limit (page 1 and limit 50 by default), all active, with their total and page count; a negative skip is refused |
| ContactController.CreateContactOutcome | backend/src/controllers/contactController.js:86-120 | created exactly when a number is given whose sanitized form is not stored and the name is non-empty; a stored number gets 400; the new contact is active, with the sanitized number and tags defaulting to [] |
| ContactController.CreateContactKeepsPhonesUnique | backend/src/controllers/contactController.js:91-106 | creation keeps stored numbers unique |
| ContactController.CreateContact | backend/src/controllers/contactController.js:86-120 | the handler leaves the store and answer as `CreateContactOutcome` says |
| ContactController.Updated | backend/src/controllers/contactController.js:127-138 | truthy name and number replace the old ones (the number sanitized), a given tag list replaces the tags, the active flag stays |
| ContactController.UpdateContact | backend/src/controllers/contactController.js:125-159 | an unknown id is a 404 and a number held by another contact a failure, both changing nothing; otherwise only that contact becomes `Updated` |
| ContactController.UpdateKeepsPhonesUnique | backend/src/controllers/contactController.js:131-138 | an accepted update keeps stored numbers unique |
| ContactController.DeleteContact | backend/src/controllers/contactController.js:164-191 | found exactly for a stored id, and then only isActive becomes false |
| ContactController.DeletedContactStillHoldsItsNumber | backend/src/controllers/contactController.js:164-170 | a deleted contact is no longer listed, but creating a contact with its number is still refused with 400 |
| ContactController.FirstTruthy | backend/src/controllers/contactController.js:226-227 | a truthy value held under one of the keys, the first key's when that one is truthy, none exactly when all are missing or empty |
| ContactController.FirstTruthyIsFirst | backend/src/controllers/contactController.js:226-227 | the value found is the one under the first key whose cell is truthy: every earlier key is missing or empty |
| ContactController.RowName | backend/src/controllers/contactController.js:226 | defined as the first truthy cell under 'name', 'Name' or 'NAME', in that order |
| ContactController.RowPhone | backend/src/controllers/contactController.js:227 | defined as the first truthy cell under 'phone', 'phoneNumber', 'Phone' or 'PhoneNumber', in that order |
| ContactController.ClassifyRow | backend/src/controllers/contactController.js:225-243 | a row without name or number is an error; one whose sanitized number is stored is a duplicate; any other is to be inserted |
| ContactController.Classify | backend/src/controllers/contactController.js:225-244 | the three lists together have one entry per row; inserted numbers are not stored, duplicates are, and errors are rows without name or number |
| ContactController.ClassifyConcat | backend/src/controllers/contactController.js:225-244 | classifying a file is classifying each part and concatenating the three lists: a row's outcome depends on that row and the store alone |
| ContactController.RowLandsInItsList | backend/src/controllers/contactController.js:225-244 | each row's `ClassifyRow` outcome is the next entry of its own list, after the entries of the rows before it, and adds nothing to the other two lists |
| ContactController.EntriesComeFromRows | backend/src/controllers/contactController.js:225-244 | every entry of the three lists is the outcome of some row |
| ContactController.RepeatedNewNumberIsInsertedTwice | backend/src/controllers/contactController.js:237-243 | two rows with the same new number are both queued for insertion |
| ContactController.ClassifyRows | backend/src/controllers/contactController.js:225-244 | the loop builds the three lists as `Classify` says |
| ContactController.Extension | backend/src/controllers/contactController.js:209 | the lower-cased text after the last '.', or the whole name lower-cased when it has no '.' |
| ContactController.ExtensionAfterLastDot | backend/src/controllers/contactController.js:209 | a name made of any stem, a '.' and a dot-free tail has the tail, lower-cased, as its extension |
| ContactController.ExtensionOfDotlessName | backend/src/controllers/contactController.js:209 | a name without a '.' is its own extension, lower-cased |
| ContactController.DotlessCsvIsAccepted | backend/src/controllers/contactController.js:209-211 | a file called just "csv" passes the format check |
| ContactController.AcceptedFormat | backend/src/controllers/contactController.js:209-300 | defined as an extension of 'csv', 'xlsx' or 'xls'; any other is the 400 branch |
| ContactController.UploadContacts | backend/src/controllers/contactController.js:196-329 | no file or another extension is a 400 that changes nothing; otherwise the new rows are inserted as active contacts and the reply has the three counts and the first 10 duplicates and errors |
| ContactController.AddToSet | backend/src/controllers/contactController.js:352-355 | the old tags stay first, the result holds exactly old ∪ new, and no duplicate is added |
| ContactController.AddToSetOfPresent | backend/src/controllers/contactController.js:354 | adding tags that are all present changes nothing |
| ContactController.AddToSetChanges | backend/src/controllers/contactController.js:352-355 | the tags change exactly when some new tag is missing |
| ContactController.AddToSetIdempotent | backend/src/controllers/contactController.js:354 | tagging twice with the same tags is tagging once |
| ContactController.TagAll | backend/src/controllers/contactController.js:352-355 | matched contacts get the union of their tags and the new ones; others stay |
| ContactController.ModifiedCount | backend/src/models/Contact.js:27-29 | with `timestamps: true` every matched contact is restamped, so the modified count is the number of stored contacts whose id is requested |
| ContactController.ModifiedCountOfKnownIds | backend/src/controllers/contactController.js:352-359 | when every requested id is stored, the count is the number of distinct requested ids |
| ContactController.TagAllIdempotent | backend/src/controllers/contactController.js:352-359 | repeating a tagging request changes no tag list and reports the same matched count again |
| ContactController.TagContacts | backend/src/controllers/contactController.js:334-370 | missing or empty ids or tags are refused with their messages and change nothing; otherwise the store is tagged and the number of matched stored contacts reported as modified |
| ContactController.GetTags | backend/src/controllers/contactController.js:375-391 | exactly the non-empty tags carried by some contact |
| ContactController.TaggedTagsAreListed | backend/src/controllers/contactController.js:352-381 | after tagging a stored contact every non-empty new tag is listed |
| AnalyticsRoutes.CountWhere | backend/src/routes/analyticsRoutes.js:21-23 | a count is at most the collection's size |
| AnalyticsRoutes.CountWhereCountsSelected | backend/src/routes/analyticsRoutes.js:21-23 | a count is the number of documents the filter selects |
| AnalyticsRoutes.GroupsOf | backend/src/routes/analyticsRoutes.js:29-36 | one group per status that some log has, with that status's count |
| AnalyticsRoutes.GroupByStatus | backend/src/routes/analyticsRoutes.js:29-36 | the `$group` by status: exactly one group per status some log has, carrying that status's count |
| AnalyticsRoutes.BreakdownOf | backend/src/routes/analyticsRoutes.js:38-49 | the keys are the six status keys plus the group ids |
| AnalyticsRoutes.BreakdownOfValue | backend/src/routes/analyticsRoutes.js:38-49 | a key no group names stays 0; any other holds the count of a group with that id |
| AnalyticsRoutes.Breakdown | backend/src/routes/analyticsRoutes.js:38-49 | the forEach builds `BreakdownOf` the groups |
| AnalyticsRoutes.BreakdownCountsStatus | backend/src/routes/analyticsRoutes.js:29-49 | each status key holds the number of logs in that status, 0 when none |
| AnalyticsRoutes.BreakdownKeys | backend/src/routes/analyticsRoutes.js:38-49 | the breakdown has exactly the six status keys |
| AnalyticsRoutes.GetSummary | backend/src/routes/analyticsRoutes.js:12-70 | active contacts, all campaigns, the 'in_progress' campaigns, all logs, the per-status counts and the queue stats |
| AnalyticsRoutes.LogFilter | backend/src/routes/analyticsRoutes.js:86-100 | a status condition exactly for a non-empty status; a createdAt range exactly when a start or end date is given |
| AnalyticsRoutes.Matches | backend/src/routes/analyticsRoutes.js:86-100 | defined as the query's meaning: equal status name, equal campaign, and `createdAt` within each given bound |
| AnalyticsRoutes.LogFilterSelects | backend/src/routes/analyticsRoutes.js:86-102 | a log is selected exactly when it meets each condition that was given: status, campaign, createdAt ≥ start, createdAt ≤ end |
| AnalyticsRoutes.UnknownStatusSelectsNothing | backend/src/routes/analyticsRoutes.js:88-90 | a status outside the enum selects no log |
| AnalyticsRoutes.BuildLogQuery | backend/src/routes/analyticsRoutes.js:86-100 | the field-by-field construction builds `LogFilter` |
| AnalyticsRoutes.MatchingLogs | backend/src/routes/analyticsRoutes.js:102 | exactly the logs the filter selects |
| AnalyticsRoutes.GetLogs | backend/src/routes/analyticsRoutes.js:75-127 | the rows are the matching logs newest first, skipping (page-1)·limit and taking limit (page 1 and limit 50 by default), with their total and page count; a negative skip is refused |

## Left out

- The BullMQ/Redis engine: the rate limiter, concurrency, exponential backoff timing and job retention. The job ids and the counts of `getQueueStats` are inputs; only `attempts` and the delays are modelled.
- Concurrency: every handler is one atomic step. The race between the worker's `$inc` and the webhook's read-modify-write of campaign counters is not modelled.
- HTTP: the axios calls are replaced by their outcome (`HttpOutcome`, `TemplatesFetch`), and Express routing and middleware are not modelled. The webhook's early 200 acknowledgement does not change the stores and is not modelled.
- Dates: times are an abstract `nat` passed in. The analytics `startDate`/`endDate` strings arrive already converted, so an invalid date string is not modelled.
- Query-string conversion: `page`/`limit` arrive as numbers, so `parseInt` and the `limit * 1` coercion are not modelled. A negative `limit` is not modelled: the limit is a natural number. A `campaignId` filter is an id.
- `populate` of the contact into message logs, and `createdAt` in the analytics reply, are not modelled.
- The delivery/read/failure rates of `getCampaignAnalytics` are not modelled (floating point and `toFixed`).
- CSV and Excel parsing are not modelled: an upload is its file name and its rows, each a map from header to cell text. Non-text Excel cells are not modelled.
- `getContactById` is not modelled (a plain lookup). The `/queue` analytics route is `QueueService.GetQueueStats`.
- The schema `trim` setters on contact names, numbers and tags and on campaign names are not modelled.
- Non-array request values (`tagContacts` with a non-array body, `targetTags` as a string) are not modelled: the model types those fields as lists.
- A malformed id that MongoDB cannot cast (a 500 from the catch) is not modelled: ids are positions, and an unknown id is one past the end.
- The `details` field of a send failure and the error objects in 500 replies are not modelled.
- The environment checks of `validateConfig` are not modelled, and neither is the shutdown handler. The constants `messageDelay` = 2000 and `maxRetries` = 3 are fixed.
- ContactController.GetContacts: the case-insensitive regular-expression search over name and number is the predicate `matchesSearch`, not a model of regular expressions.
- ContactController.UploadContacts: the unique index on `phoneNumber` is not modelled here. When two rows of one file carry the same new number, the database would reject the second insert and the catch would answer 500; the model inserts both.
- ContactController.CreateContact: a name of only spaces, which `trim` turns into an empty string that `required` rejects, is accepted by the model.
- ContactController.Extension: lower-casing covers ASCII letters only.
- ContactController.ModifiedCount: the contacts' `createdAt`/`updatedAt` fields are not stored. The `updatedAt` stamp that `timestamps: true` adds to `updateMany` is modelled only through its effect on the modified count, which is every matched contact.
- WhatsAppService.GenerateShareLink: `encodeURIComponent` is the parameter `encode`.
- WhatsAppService.ParseWebhookPayload: a malformed webhook payload (a `null` payload, a non-iterable `entry`, a `null` change or status), which the catch turns into the updates gathered so far, is not modelled: the payload is typed.
- QueueService.Attempts: the backoff delay between attempts is not modelled. Each attempt carries its own time.
