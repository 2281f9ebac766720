/**
 * The orchestration agent: enriches every lead of a batch, logs one enrichment
 * event per lead, and returns the combined leads. The source runs one thread
 * per lead; here the workers run one after another, in input order.
 */
module Orchestration {
  import opened Crm
  import opened Memory
  import opened Domain
  import opened Enricher

  /** The memory-bank writes the workers of a batch make, one per lead in order. */
  function EnrichmentWrites(leads: seq<Lead>, ts: Timestamp): (ws: seq<(string, Event)>)
    ensures |ws| == |leads|
    ensures forall i :: 0 <= i < |leads| ==> ws[i] == (leads[i].id, EnrichedEvent(Run(leads[i]), ts))
  {
    seq(|leads|, i requires 0 <= i < |leads| => (leads[i].id, EnrichedEvent(Run(leads[i]), ts)))
  }

  /** The batch after enrichment, one combined lead per input lead. */
  function EnrichAll(leads: seq<Lead>): (es: seq<EnrichedLead>)
    ensures |es| == |leads|
    ensures forall i :: 0 <= i < |leads| ==> es[i] == EnrichLead(leads[i])
  {
    seq(|leads|, i requires 0 <= i < |leads| => EnrichLead(leads[i]))
  }

  /** Extending the processed prefix by one lead extends both the writes and the
      results by that lead's entry. */
  lemma PrefixStep(leads: seq<Lead>, i: nat, ts: Timestamp)
    requires i < |leads|
    ensures EnrichmentWrites(leads[..i + 1], ts)
            == EnrichmentWrites(leads[..i], ts) + [(leads[i].id, EnrichedEvent(Run(leads[i]), ts))]
    ensures EnrichAll(leads[..i + 1]) == EnrichAll(leads[..i]) + [Combine(leads[i], Run(leads[i]))]
  {
  }

  class OrchestrationAgent {
    const crm: CRMTool
    const memory: MemoryBank<Event>

    constructor (crm: CRMTool, memory: MemoryBank<Event>)
      ensures this.crm == crm && this.memory == memory
    {
      this.crm := crm;
      this.memory := memory;
    }

    /** `handle_batch`: one combined lead per input lead, and one enrichment
        event appended per lead. */
    method HandleBatch(leads: seq<Lead>, ts: Timestamp) returns (results: seq<EnrichedLead>)
      modifies memory
      ensures results == EnrichAll(leads)
      ensures memory.mem == AppendedAll(old(memory.mem), EnrichmentWrites(leads, ts))
    {
      results := [];
      var i := 0;
      while i < |leads|
        invariant 0 <= i <= |leads|
        invariant results == EnrichAll(leads[..i])
        invariant memory.mem == AppendedAll(old(memory.mem), EnrichmentWrites(leads[..i], ts))
      {
        var lead := leads[i];
        var enriched := Run(lead);
        memory.Write(lead.id, EnrichedEvent(enriched, ts));
        var combined := Combine(lead, enriched);
        results := results + [combined];
        PrefixStep(leads, i, ts);
        AppendedAllSnoc(old(memory.mem), EnrichmentWrites(leads[..i], ts), (lead.id, EnrichedEvent(enriched, ts)));
        i := i + 1;
      }
      assert leads[..i] == leads;
    }
  }
}
