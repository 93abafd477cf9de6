/** The Campaign model (backend/src/models/Campaign.js): the campaign record, its lifecycle
    status, and the five persisted delivery counters. The counter record has no `sending`
    counter, so any write to `stats.sending` is dropped by the schema. */
module CampaignModel {
  import opened Common
  import opened MessageLogModel

  datatype CampaignStatus = Draft | Scheduled | InProgress | Completed | CampaignFailed

  datatype Stats = Stats(queued: nat, sent: nat, delivered: nat, read: nat, failed: nat)

  const ZeroStats: Stats := Stats(0, 0, 0, 0, 0)

  /** `campaign.stats[status]`: the persisted counter of a log status, absent for 'sending'. */
  function Counter(s: Stats, st: Status): (r: Option<nat>)
    ensures r.None? <==> st == Sending
  {
    match st
    case Queued => Some(s.queued)
    case Sending => None
    case Sent => Some(s.sent)
    case Delivered => Some(s.delivered)
    case Read => Some(s.read)
    case Failed => Some(s.failed)
  }

  /** `campaign.stats[status] = v`; for 'sending' the schema keeps nothing. */
  function WithCounter(s: Stats, st: Status, v: nat): (r: Stats)
    ensures st == Sending ==> r == s
    ensures st != Sending ==> Counter(r, st) == Some(v)
    ensures forall o: Status :: o != st ==> Counter(r, o) == Counter(s, o)
  {
    match st
    case Queued => s.(queued := v)
    case Sending => s
    case Sent => s.(sent := v)
    case Delivered => s.(delivered := v)
    case Read => s.(read := v)
    case Failed => s.(failed := v)
  }

  function CounterSum(s: Stats): nat {
    s.queued + s.sent + s.delivered + s.read + s.failed
  }

  /** Changing one counter changes the sum by the same amount. */
  lemma CounterSumWith(s: Stats, st: Status, v: nat)
    requires st != Sending
    ensures CounterSum(WithCounter(s, st, v)) + Counter(s, st).value == CounterSum(s) + v
  {
  }

  datatype Campaign = Campaign(
    name: string,
    description: Option<string>,
    templateName: string,
    templateLanguage: string,
    targetTags: seq<string>,
    totalContacts: nat,
    status: CampaignStatus,
    startedAt: Option<Time>,
    completedAt: Option<Time>,
    stats: Stats)

  /** `$inc: { 'stats.<counter>': 1 }` applied to campaign `id`; an id that matches no
      campaign changes nothing. */
  function Incremented(cs: seq<Campaign>, id: nat, st: Status): (r: seq<Campaign>)
    ensures |r| == |cs|
    ensures forall j :: 0 <= j < |cs| && j != id ==> r[j] == cs[j]
    ensures id < |cs| && st != Sending ==> r[id].stats == WithCounter(cs[id].stats, st, Counter(cs[id].stats, st).value + 1)
    ensures id < |cs| ==> r[id] == cs[id].(stats := r[id].stats)
    ensures st == Sending ==> r == cs
    ensures id < |cs| && st != Sending ==> CounterSum(r[id].stats) == CounterSum(cs[id].stats) + 1
  {
    if id < |cs| && st != Sending then
      var c := cs[id];
      CounterSumWith(c.stats, st, Counter(c.stats, st).value + 1);
      cs[id := c.(stats := WithCounter(c.stats, st, Counter(c.stats, st).value + 1))]
    else cs
  }

  /** The `campaigns` collection; a campaign's id is its position. */
  class CampaignCollection {
    var records: seq<Campaign>

    constructor (records: seq<Campaign>)
      ensures this.records == records
    {
      this.records := records;
    }

    /** `Campaign.findByIdAndUpdate(id, { $inc: ... })`: one atomic counter increment. */
    method Increment(id: nat, st: Status)
      modifies this
      ensures records == Incremented(old(records), id, st)
    {
      records := Incremented(records, id, st);
    }

    /** `Campaign.create(fields)`: the new campaign goes after the existing ones. */
    method Create(c: Campaign) returns (id: nat)
      modifies this
      ensures id == |old(records)| && records == old(records) + [c]
    {
      id := |records|;
      records := records + [c];
    }

    /** `campaign.save()` of a fetched campaign document changed in memory. */
    method Save(id: nat, c: Campaign)
      requires id < |records|
      modifies this
      ensures records == old(records)[id := c]
    {
      records := records[id := c];
    }
  }
}
