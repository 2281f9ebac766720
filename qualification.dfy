/**
 * The qualification agent: a fixed rule table over the enriched attributes,
 * one reasoning string from the language-model stand-in, and the resulting
 * score and status written back to the CRM and the memory bank.
 */
module Scoring {
  import opened Text
  import opened Crm
  import opened Memory
  import opened Domain
  import opened Reasoning

  /** The prompt the agent sends to the reasoning step. */
  const QualificationPrompt := "qualification reasoning for lead"

  /** The score is clamped to at most this value. */
  const MaxScore := 100

  /** A lead is qualified when its score is strictly above this value. */
  const QualifiedAbove := 50

  /** One line of the rule table: the points it adds and the reason it records. */
  datatype Rule = Rule(points: nat, reason: string)

  const TeamSize := Rule(30, "Team size >= 50")
  const IndustryMatch := Rule(25, "Industry match: FinTech")
  const FundingSignal := Rule(20, "Funding signal: Series A")

  predicate TeamSizeFires(lead: EnrichedLead) { lead.employeeCount >= 50 }
  predicate IndustryFires(lead: EnrichedLead) { Contains(lead.industry, "FinTech") }
  predicate FundingFires(lead: EnrichedLead) { Contains(lead.recentNews, "Series A") }

  /** The rules that fire for `lead`, in table order. */
  function FiredRules(lead: EnrichedLead): (rs: seq<Rule>)
    ensures |rs| == (if TeamSizeFires(lead) then 1 else 0) + (if IndustryFires(lead) then 1 else 0)
                    + (if FundingFires(lead) then 1 else 0)
  {
    (if TeamSizeFires(lead) then [TeamSize] else [])
    + (if IndustryFires(lead) then [IndustryMatch] else [])
    + (if FundingFires(lead) then [FundingSignal] else [])
  }

  /** The points a sequence of rules adds up to. */
  function Points(rs: seq<Rule>): (p: nat)
    ensures forall i :: 0 <= i < |rs| ==> rs[i].points <= p
  {
    if rs == [] then 0 else rs[0].points + Points(rs[1..])
  }

  /** The reasons a sequence of rules records, in order. */
  function Reasons(rs: seq<Rule>): (ss: seq<string>)
    ensures |ss| == |rs|
    ensures forall i :: 0 <= i < |rs| ==> ss[i] == rs[i].reason
  {
    if rs == [] then [] else [rs[0].reason] + Reasons(rs[1..])
  }

  lemma {:induction false} PointsAppend(a: seq<Rule>, b: seq<Rule>)
    ensures Points(a + b) == Points(a) + Points(b)
  {
    if a == [] {
      assert a + b == b;
    } else {
      assert (a + b)[1..] == a[1..] + b;
      PointsAppend(a[1..], b);
    }
  }

  /** The score the table gives, written as the sum of its three lines. */
  function TableScore(lead: EnrichedLead): (t: nat)
    ensures t <= 75
    ensures t > QualifiedAbove <==> TeamSizeFires(lead) && IndustryFires(lead)
  {
    (if TeamSizeFires(lead) then 30 else 0)
    + (if IndustryFires(lead) then 25 else 0)
    + (if FundingFires(lead) then 20 else 0)
  }

  /** Adding up the fired rules gives the table's sum, which is at most 75. */
  lemma FiredPoints(lead: EnrichedLead)
    ensures Points(FiredRules(lead)) == TableScore(lead)
    ensures Points(FiredRules(lead)) <= 75
  {
    var a := if TeamSizeFires(lead) then [TeamSize] else [];
    var b := if IndustryFires(lead) then [IndustryMatch] else [];
    var c := if FundingFires(lead) then [FundingSignal] else [];
    PointsAppend(a, b);
    PointsAppend(a + b, c);
  }

  /** The reasons of the fired rules, line by line. */
  lemma ReasonsOfFired(lead: EnrichedLead)
    ensures Reasons(FiredRules(lead))
            == (if TeamSizeFires(lead) then [TeamSize.reason] else [])
            + (if IndustryFires(lead) then [IndustryMatch.reason] else [])
            + (if FundingFires(lead) then [FundingSignal.reason] else [])
  {
  }

  /** `min(100, score)`. */
  function Clamp(score: int): (r: int)
    ensures r <= MaxScore
    ensures score <= MaxScore ==> r == score
    ensures score > MaxScore ==> r == MaxScore
  {
    if score < MaxScore then score else MaxScore
  }

  /** The status written for a score: "qualified" strictly above 50, else "nurture". */
  function Status(score: int): (s: string)
    ensures s == "qualified" <==> score > QualifiedAbove
    ensures s == "nurture" <==> score <= QualifiedAbove
  {
    if score > QualifiedAbove then "qualified" else "nurture"
  }

  /** The CRM payload `{score, status}`. */
  function ScorePayload(score: int): (p: Record)
    ensures p.Keys == {"score", "status"}
    ensures p["score"] == Int(score)
    ensures p["status"] == Str("qualified") <==> score > QualifiedAbove
    ensures score <= QualifiedAbove ==> p["status"] == Str("nurture")
  {
    map["score" := Int(score), "status" := Str(Status(score))]
  }

  /** What the agent returns for `lead`: the fired rules' points, never changed by
      the clamp, and their reasons in table order followed by exactly one reasoning
      string, the answer the agent's fixed prompt always draws (`PromptIsPromising`). */
  function Qualify(lead: EnrichedLead): (q: Qualification)
    ensures 0 <= q.score <= 75 && q.score <= MaxScore
    ensures q.score == Points(FiredRules(lead))
    ensures |q.reasons| == |FiredRules(lead)| + 1
    ensures q.reasons[..|FiredRules(lead)|] == Reasons(FiredRules(lead))
    ensures q.reasons[|FiredRules(lead)|] == Promising
  {
    var rs := FiredRules(lead);
    FiredPoints(lead);
    Qualification(Clamp(Points(rs)), Reasons(rs) + [Promising])
  }

  /** The agent's fixed prompt always draws the promising answer. */
  lemma PromptIsPromising()
    ensures LlmReasoningPrompt(QualificationPrompt) == Promising
  {
    assert QualificationPrompt == "qualification" + " reasoning for lead";
    KeywordPromptIsPromising(" reasoning for lead");
  }

  /** The score is the rule table's sum, and one reason is recorded per fired
      line plus the reasoning string. */
  lemma ScoreByRuleTable(lead: EnrichedLead)
    ensures Qualify(lead).score == TableScore(lead)
    ensures |Qualify(lead).reasons|
            == (if TeamSizeFires(lead) then 1 else 0)
            + (if IndustryFires(lead) then 1 else 0)
            + (if FundingFires(lead) then 1 else 0) + 1
  {
    FiredPoints(lead);
  }

  /** Only a large FinTech team clears the threshold: 30 + 20 is exactly 50 and
      25 + 20 is below it. */
  lemma QualifiedIff(lead: EnrichedLead)
    ensures Qualify(lead).score > QualifiedAbove <==> TeamSizeFires(lead) && IndustryFires(lead)
  {
    ScoreByRuleTable(lead);
  }

  class QualificationAgent {
    const crm: CRMTool
    const memory: MemoryBank<Event>

    constructor (crm: CRMTool, memory: MemoryBank<Event>)
      ensures this.crm == crm && this.memory == memory
    {
      this.crm := crm;
      this.memory := memory;
    }

    /** `QualificationAgent.score`: evaluates the rule table step by step, then
        upserts `{score, status}` and appends one qualification event. */
    method Score(lead: EnrichedLead, ts: Timestamp) returns (result: Qualification)
      modifies crm, memory
      ensures result == Qualify(lead)
      ensures crm.db == Upserted(old(crm.db), lead.id, ScorePayload(result.score))
      ensures memory.mem == Appended(old(memory.mem), lead.id, QualificationEvent(result, ts))
      ensures "score" in crm.Get(lead.id) && crm.Get(lead.id)["score"] == Int(result.score)
      ensures "status" in crm.Get(lead.id)
      ensures crm.Get(lead.id)["status"] == Str("qualified") <==> result.score > QualifiedAbove
      ensures memory.Read(lead.id) == old(memory.Read(lead.id)) + [QualificationEvent(result, ts)]
    {
      var score := 0;
      var reasons := [];
      if lead.employeeCount >= 50 {
        score := score + TeamSize.points;
        reasons := reasons + [TeamSize.reason];
      }
      if Contains(lead.industry, "FinTech") {
        score := score + IndustryMatch.points;
        reasons := reasons + [IndustryMatch.reason];
      }
      if Contains(lead.recentNews, "Series A") {
        score := score + FundingSignal.points;
        reasons := reasons + [FundingSignal.reason];
      }
      assert score == TableScore(lead) && reasons == Reasons(FiredRules(lead)) by {
        ReasonsOfFired(lead);
      }
      FiredPoints(lead);
      var llmText := LlmReasoningPrompt(QualificationPrompt);
      PromptIsPromising();
      reasons := reasons + [llmText];
      score := Clamp(score);
      result := Qualification(score, reasons);
      crm.Upsert(lead.id, ScorePayload(score));
      memory.Write(lead.id, QualificationEvent(result, ts));
    }
  }
}
