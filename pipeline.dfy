/**
 * `pipeline`: enrich the batch, then score each lead in turn, draft outreach and
 * schedule a follow-up for every lead scoring above 50, and finally evaluate the
 * CRM against the labels when there are any.
 */
module SalesPipeline {
  import opened Text
  import opened Crm
  import opened Memory
  import opened Domain
  import opened Reasoning
  import opened Enricher
  import opened Scoring
  import opened Outreach
  import opened FollowUp
  import opened Orchestration
  import opened Evaluation

  datatype Option<T> = None | Some(value: T)

  /** `{**e, **q}`: an enriched lead with its score and reasons. */
  datatype Processed = Processed(lead: EnrichedLead, qualification: Qualification)

  /** `{processed, crm, memory, metrics}`; `metrics` is `None` where the source
      returns an empty dictionary. */
  datatype PipelineResult = PipelineResult(
    processed: seq<Processed>,
    crm: Store,
    memory: Ledger<Event>,
    metrics: Option<Metrics>)

  const FollowUpDelaySeconds := 5
  const FollowUpNote := "1st follow up"

  /** The CRM after the sequential stage has handled one enriched lead. */
  function AfterLead(db: Store, e: EnrichedLead): (r: Store)
    ensures r.Keys == db.Keys + {e.id}
  {
    var q := Qualify(e);
    var scored := Upserted(db, e.id, ScorePayload(q.score));
    if q.score > QualifiedAbove then Upserted(scored, e.id, OutreachPayload(Compose(e))) else scored
  }

  /** The CRM after the sequential stage has handled `es`, left to right. */
  function AfterAll(db: Store, es: seq<EnrichedLead>): (r: Store)
    ensures r.Keys == db.Keys + Ids(es)
  {
    if es == [] then db else AfterLead(AfterAll(db, es[..|es| - 1]), es[|es| - 1])
  }

  /** The identifiers of the leads of `es`. */
  function Ids(es: seq<EnrichedLead>): (ids: set<string>)
    ensures forall i :: 0 <= i < |es| ==> es[i].id in ids
    ensures forall id :: id in ids ==> exists i :: 0 <= i < |es| && es[i].id == id
  {
    if es == [] then {} else Ids(es[..|es| - 1]) + {es[|es| - 1].id}
  }

  /** The scheduler's registry after the sequential stage has handled one lead:
      a lead above the threshold gets the pipeline's follow-up. */
  function ScheduledAfterLead(s: map<string, Pending>, e: EnrichedLead): (r: map<string, Pending>)
    ensures r.Keys == s.Keys + (if Qualify(e).score > QualifiedAbove then {e.id} else {})
    ensures forall id :: id in s && id != e.id ==> r[id] == s[id]
    ensures Qualify(e).score > QualifiedAbove ==> r[e.id] == Pending(FollowUpNote, FollowUpDelaySeconds)
    ensures Qualify(e).score <= QualifiedAbove ==> r == s
  {
    if Qualify(e).score > QualifiedAbove then s[e.id := Pending(FollowUpNote, FollowUpDelaySeconds)] else s
  }

  /** The scheduler's registry after the sequential stage has handled `es`. */
  function ScheduledAfterAll(s: map<string, Pending>, es: seq<EnrichedLead>): (r: map<string, Pending>)
    ensures s.Keys <= r.Keys
    ensures forall id :: id in r && id !in s ==> r[id] == Pending(FollowUpNote, FollowUpDelaySeconds)
  {
    if es == [] then s else ScheduledAfterLead(ScheduledAfterAll(s, es[..|es| - 1]), es[|es| - 1])
  }

  /** The qualification events the sequential stage writes, one per lead in order. */
  function QualificationWrites(es: seq<EnrichedLead>, ts: Timestamp): (ws: seq<(string, Event)>)
    ensures |ws| == |es|
    ensures forall i :: 0 <= i < |es| ==> ws[i] == (es[i].id, QualificationEvent(Qualify(es[i]), ts))
  {
    seq(|es|, i requires 0 <= i < |es| => (es[i].id, QualificationEvent(Qualify(es[i]), ts)))
  }

  /** What the sequential stage returns for `es`: each lead with its qualification. */
  function ProcessedAll(es: seq<EnrichedLead>): (ps: seq<Processed>)
    ensures |ps| == |es|
    ensures forall i :: 0 <= i < |es| ==> ps[i] == Processed(es[i], Qualify(es[i]))
  {
    seq(|es|, i requires 0 <= i < |es| => Processed(es[i], Qualify(es[i])))
  }

  /** The memory bank a run leaves: every enrichment event, then every
      qualification event. */
  function PipelineLedger(leads: seq<Lead>, ts: Timestamp): Ledger<Event>
  {
    AppendedAll(AppendedAll(map[], EnrichmentWrites(leads, ts)), QualificationWrites(EnrichAll(leads), ts))
  }

  /** The record holds an integer score and a status, and the status is
      "qualified" above the threshold and "nurture" otherwise. */
  ghost predicate StatusAgreesWithScore(rec: Record)
  {
    && "score" in rec && "status" in rec && rec["score"].Int?
    && rec["status"] == Str(Status(rec["score"].i))
  }

  /** Handling one lead touches only that lead's record, stores the lead's score
      and the matching status, and adds an outreach draft only above the threshold. */
  lemma AfterLeadEffect(db: Store, e: EnrichedLead, leadId: string)
    ensures leadId != e.id ==> Lookup(AfterLead(db, e), leadId) == Lookup(db, leadId)
    ensures StatusAgreesWithScore(Lookup(AfterLead(db, e), e.id))
    ensures Lookup(AfterLead(db, e), e.id)["score"] == Int(Qualify(e).score)
    ensures Lookup(AfterLead(db, e), e.id)["status"] == Str(Status(Qualify(e).score))
    ensures "outreach" in Lookup(AfterLead(db, e), e.id)
            <==> "outreach" in Lookup(db, e.id) || Qualify(e).score > QualifiedAbove
  {
    var q := Qualify(e);
    var scored := Upserted(db, e.id, ScorePayload(q.score));
    assert StatusAgreesWithScore(Lookup(scored, e.id));
    if q.score > QualifiedAbove {
      var drafted := Upserted(scored, e.id, OutreachPayload(Compose(e)));
      assert Lookup(drafted, e.id) == Merge(Lookup(scored, e.id), OutreachPayload(Compose(e)));
    }
  }

  /** `lead` has id `leadId` and clears the threshold, which by `QualifiedIff`
      happens exactly when its team has at least 50 people and its industry is FinTech. */
  predicate QualifiesAs(lead: EnrichedLead, leadId: string)
  {
    lead.id == leadId && TeamSizeFires(lead) && IndustryFires(lead)
  }

  /** Some lead of `es` with id `leadId` clears the threshold. */
  ghost predicate SomeQualifies(es: seq<EnrichedLead>, leadId: string)
  {
    exists i :: 0 <= i < |es| && QualifiesAs(es[i], leadId)
  }

  /** Whether some lead qualifies, split at the last lead. */
  lemma SomeQualifiesSnoc(es: seq<EnrichedLead>, leadId: string)
    requires es != []
    ensures SomeQualifies(es, leadId)
            <==> SomeQualifies(es[..|es| - 1], leadId) || QualifiesAs(es[|es| - 1], leadId)
  {
    var init := es[..|es| - 1];
    if SomeQualifies(es, leadId) {
      var i :| 0 <= i < |es| && QualifiesAs(es[i], leadId);
      if i < |init| {
        assert init[i] == es[i];
      }
    }
    if SomeQualifies(init, leadId) {
      var i :| 0 <= i < |init| && QualifiesAs(init[i], leadId);
      assert es[i] == init[i];
    }
  }

  /** A lead's record carries an outreach draft exactly when it already did or
      some lead with that id cleared the threshold. */
  lemma {:induction false} OutreachIffQualified(db: Store, es: seq<EnrichedLead>, leadId: string)
    ensures "outreach" in Lookup(AfterAll(db, es), leadId)
            <==> "outreach" in Lookup(db, leadId) || SomeQualifies(es, leadId)
  {
    if es != [] {
      var init, e := es[..|es| - 1], es[|es| - 1];
      OutreachIffQualified(db, init, leadId);
      AfterLeadEffect(AfterAll(db, init), e, leadId);
      QualifiedIff(e);
      SomeQualifiesSnoc(es, leadId);
    }
  }

  /** A follow-up is registered for a lead exactly when one already was or some
      lead with that id cleared the threshold; a lead that cleared it holds the
      pipeline's follow-up, and any other registration keeps its value. */
  lemma {:induction false} ScheduledIffQualified(s: map<string, Pending>, es: seq<EnrichedLead>, leadId: string)
    ensures leadId in ScheduledAfterAll(s, es) <==> leadId in s || SomeQualifies(es, leadId)
    ensures SomeQualifies(es, leadId)
            ==> ScheduledAfterAll(s, es)[leadId] == Pending(FollowUpNote, FollowUpDelaySeconds)
    ensures leadId in s && !SomeQualifies(es, leadId) ==> ScheduledAfterAll(s, es)[leadId] == s[leadId]
  {
    if es != [] {
      var init, e := es[..|es| - 1], es[|es| - 1];
      ScheduledIffQualified(s, init, leadId);
      QualifiedIff(e);
      SomeQualifiesSnoc(es, leadId);
    }
  }

  /** After the sequential stage, the record of every lead in the batch has a
      status that agrees with its score. */
  lemma {:induction false} StatusAgrees(db: Store, es: seq<EnrichedLead>, leadId: string)
    requires exists i :: 0 <= i < |es| && es[i].id == leadId
    ensures StatusAgreesWithScore(Lookup(AfterAll(db, es), leadId))
  {
    var init, e := es[..|es| - 1], es[|es| - 1];
    AfterLeadEffect(AfterAll(db, init), e, leadId);
    if e.id != leadId {
      IdInFront(es, init, leadId);
      StatusAgrees(db, init, leadId);
    }
  }

  /** A lead of the batch none of whose entries clears the threshold ends up
      with status "nurture". */
  lemma {:induction false} NurtureUnlessQualified(db: Store, es: seq<EnrichedLead>, leadId: string)
    requires exists i :: 0 <= i < |es| && es[i].id == leadId
    requires !SomeQualifies(es, leadId)
    ensures "status" in Lookup(AfterAll(db, es), leadId)
    ensures Lookup(AfterAll(db, es), leadId)["status"] == Str("nurture")
  {
    var init, e := es[..|es| - 1], es[|es| - 1];
    AfterLeadEffect(AfterAll(db, init), e, leadId);
    SomeQualifiesSnoc(es, leadId);
    if e.id == leadId {
      QualifiedIff(e);
    } else {
      IdInFront(es, init, leadId);
      NurtureUnlessQualified(db, init, leadId);
    }
  }

  /** An id that occurs in `es` but not at its end occurs before the end. */
  lemma IdInFront(es: seq<EnrichedLead>, front: seq<EnrichedLead>, leadId: string)
    requires exists i :: 0 <= i < |es| && es[i].id == leadId
    requires es != [] && front == es[..|es| - 1] && es[|es| - 1].id != leadId
    ensures exists i :: 0 <= i < |front| && front[i].id == leadId
  {
    var i :| 0 <= i < |es| && es[i].id == leadId;
    assert front[i] == es[i];
  }

  /** The enrichment stage writes only enrichment events. */
  lemma EnrichmentEventsOnly(leads: seq<Lead>, ts: Timestamp, leadId: string)
    ensures forall j :: 0 <= j < |EventsFor(EnrichmentWrites(leads, ts), leadId)| ==>
              EventsFor(EnrichmentWrites(leads, ts), leadId)[j].EnrichedEvent?
  {
    EventsForAll(EnrichmentWrites(leads, ts), leadId, (e: Event) => e.EnrichedEvent?);
  }

  /** The sequential stage writes only qualification events. */
  lemma QualificationEventsOnly(es: seq<EnrichedLead>, ts: Timestamp, leadId: string)
    ensures forall j :: 0 <= j < |EventsFor(QualificationWrites(es, ts), leadId)| ==>
              EventsFor(QualificationWrites(es, ts), leadId)[j].QualificationEvent?
  {
    EventsForAll(QualificationWrites(es, ts), leadId, (e: Event) => e.QualificationEvent?);
  }

  /** Both stages write once per lead, in batch order, so every lead gets as many
      qualification events as enrichment events. */
  lemma StagesWriteAlike(leads: seq<Lead>, ts: Timestamp, leadId: string)
    ensures |EventsFor(EnrichmentWrites(leads, ts), leadId)|
            == |EventsFor(QualificationWrites(EnrichAll(leads), ts), leadId)|
  {
    EventsForSameTargets(EnrichmentWrites(leads, ts), QualificationWrites(EnrichAll(leads), ts), leadId);
  }

  /** In a run's memory bank, every lead's history is its enrichment events
      followed by as many qualification events. */
  lemma LedgerOrder(leads: seq<Lead>, ts: Timestamp, leadId: string)
    ensures History(PipelineLedger(leads, ts), leadId)
            == EventsFor(EnrichmentWrites(leads, ts), leadId)
               + EventsFor(QualificationWrites(EnrichAll(leads), ts), leadId)
    ensures forall j :: 0 <= j < |EventsFor(EnrichmentWrites(leads, ts), leadId)| ==>
              EventsFor(EnrichmentWrites(leads, ts), leadId)[j].EnrichedEvent?
    ensures forall j :: 0 <= j < |EventsFor(QualificationWrites(EnrichAll(leads), ts), leadId)| ==>
              EventsFor(QualificationWrites(EnrichAll(leads), ts), leadId)[j].QualificationEvent?
    ensures |EventsFor(EnrichmentWrites(leads, ts), leadId)|
            == |EventsFor(QualificationWrites(EnrichAll(leads), ts), leadId)|
  {
    TwoRoundsHistory(EnrichmentWrites(leads, ts), QualificationWrites(EnrichAll(leads), ts), leadId);
    EnrichmentEventsOnly(leads, ts, leadId);
    QualificationEventsOnly(EnrichAll(leads), ts, leadId);
    StagesWriteAlike(leads, ts, leadId);
  }

  /** End to end, a lead qualifies exactly when "fin" occurs in its lowered
      company name and its notes carry "Series A" or "Scale-up". */
  lemma QualifiedIffFinTechAndSignal(lead: Lead)
    ensures Qualify(EnrichLead(lead)).score > QualifiedAbove
            <==> Contains(Lower(lead.companyName), "fin")
                 && (Contains(lead.notes, "Series A") || Contains(lead.notes, "Scale-up"))
  {
    var e := EnrichLead(lead);
    QualifiedIff(e);
    assert Contains("FinTech", "FinTech");
  }

  /** `pipeline(leads, labeled)`, run sequentially; `ts` stands for every
      `time.time()` reading of the run. */
  method Pipeline(leads: seq<Lead>, labeled: Option<map<string, string>>, ts: Timestamp)
    returns (result: PipelineResult)
    ensures result.processed == ProcessedAll(EnrichAll(leads))
    ensures result.crm == AfterAll(map[], EnrichAll(leads))
    ensures result.memory == PipelineLedger(leads, ts)
    ensures result.metrics
            == if labeled.Some? && |labeled.value| > 0 then Some(Evaluate(labeled.value, result.crm)) else None
  {
    var crm := new CRMTool();
    var memory := new MemoryBank<Event>();
    var enricherAgent := new OrchestrationAgent(crm, memory);
    var qualifier := new QualificationAgent(crm, memory);
    var outreach := new OutreachAgent(crm);
    var scheduler := new FollowUpScheduler(crm, memory);

    var enriched := enricherAgent.HandleBatch(leads, ts);
    var processed := ScoreAll(crm, memory, qualifier, outreach, scheduler, enriched, ts);

    var metrics := None;
    if labeled.Some? && |labeled.value| > 0 {
      var m := EvaluatePredictions(crm, labeled.value);
      metrics := Some(m);
    }
    result := PipelineResult(processed, crm.All(), memory.mem, metrics);
  }

  /** The sequential stage: handles the enriched leads one by one, in order. */
  method ScoreAll(crm: CRMTool, memory: MemoryBank<Event>, qualifier: QualificationAgent,
                  outreach: OutreachAgent, scheduler: FollowUpScheduler,
                  es: seq<EnrichedLead>, ts: Timestamp)
    returns (processed: seq<Processed>)
    requires qualifier.crm == crm && qualifier.memory == memory && outreach.crm == crm
    modifies crm, memory, scheduler
    ensures processed == ProcessedAll(es)
    ensures crm.db == AfterAll(old(crm.db), es)
    ensures memory.mem == AppendedAll(old(memory.mem), QualificationWrites(es, ts))
    ensures scheduler.scheduled == ScheduledAfterAll(old(scheduler.scheduled), es)
  {
    ghost var db0, mem0, sched0 := crm.db, memory.mem, scheduler.scheduled;
    processed := [];
    var i := 0;
    while i < |es|
      invariant 0 <= i <= |es|
      invariant processed == ProcessedAll(es[..i])
      invariant crm.db == AfterAll(db0, es[..i])
      invariant memory.mem == AppendedAll(mem0, QualificationWrites(es[..i], ts))
      invariant scheduler.scheduled == ScheduledAfterAll(sched0, es[..i])
    {
      var e := es[i];
      var q := HandleLead(crm, memory, qualifier, outreach, scheduler, e, ts);
      processed := processed + [Processed(e, q)];
      AfterAllStep(db0, es, i);
      ScheduledAfterAllStep(sched0, es, i);
      ProcessedAllStep(es, i);
      QualificationWritesStep(mem0, es, i, ts);
      i := i + 1;
    }
    assert es[..i] == es;
  }

  /** One turn of the sequential loop: score the lead and, when it qualifies,
      draft outreach and schedule its follow-up. */
  method HandleLead(crm: CRMTool, memory: MemoryBank<Event>, qualifier: QualificationAgent,
                    outreach: OutreachAgent, scheduler: FollowUpScheduler,
                    e: EnrichedLead, ts: Timestamp)
    returns (q: Qualification)
    requires qualifier.crm == crm && qualifier.memory == memory && outreach.crm == crm
    modifies crm, memory, scheduler
    ensures q == Qualify(e)
    ensures crm.db == AfterLead(old(crm.db), e)
    ensures memory.mem == Appended(old(memory.mem), e.id, QualificationEvent(q, ts))
    ensures scheduler.scheduled == ScheduledAfterLead(old(scheduler.scheduled), e)
  {
    q := qualifier.Score(e, ts);
    if q.score > QualifiedAbove {
      var draft := outreach.Draft(e);
      var _ := scheduler.Schedule(e.id, FollowUpDelaySeconds, FollowUpNote);
    }
  }

  /** Handling lead `i` after the first `i` is one more step of the CRM fold. */
  lemma AfterAllStep(db: Store, es: seq<EnrichedLead>, i: nat)
    requires i < |es|
    ensures AfterAll(db, es[..i + 1]) == AfterLead(AfterAll(db, es[..i]), es[i])
  {
    assert es[..i + 1][..i] == es[..i];
  }

  /** Handling lead `i` after the first `i` is one more step of the scheduler's fold. */
  lemma ScheduledAfterAllStep(s: map<string, Pending>, es: seq<EnrichedLead>, i: nat)
    requires i < |es|
    ensures ScheduledAfterAll(s, es[..i + 1]) == ScheduledAfterLead(ScheduledAfterAll(s, es[..i]), es[i])
  {
    assert es[..i + 1][..i] == es[..i];
  }

  /** Handling lead `i` after the first `i` adds one more processed entry. */
  lemma ProcessedAllStep(es: seq<EnrichedLead>, i: nat)
    requires i < |es|
    ensures ProcessedAll(es[..i + 1]) == ProcessedAll(es[..i]) + [Processed(es[i], Qualify(es[i]))]
  {
  }

  /** Handling lead `i` after the first `i` adds one more qualification event to the memory bank. */
  lemma QualificationWritesStep(mem: Ledger<Event>, es: seq<EnrichedLead>, i: nat, ts: Timestamp)
    requires i < |es|
    ensures AppendedAll(mem, QualificationWrites(es[..i + 1], ts))
            == Appended(AppendedAll(mem, QualificationWrites(es[..i], ts)), es[i].id, QualificationEvent(Qualify(es[i]), ts))
  {
    var w := (es[i].id, QualificationEvent(Qualify(es[i]), ts));
    assert QualificationWrites(es[..i + 1], ts) == QualificationWrites(es[..i], ts) + [w];
    AppendedAllSnoc(mem, QualificationWrites(es[..i], ts), w);
  }
}
