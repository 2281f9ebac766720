/**
 * The outreach agent: a templated e-mail for a qualified lead, stored in the CRM.
 */
module Outreach {
  import opened Text
  import opened Crm
  import opened Domain

  /** `{subject, body}`. */
  datatype OutreachDraft = OutreachDraft(subject: string, body: string)

  /** The subject line: names the company and its industry. */
  function Subject(companyName: string, industry: string): (s: string)
    ensures Contains(s, companyName) && Contains(s, industry)
  {
    var opening := "Quick question about " + companyName;
    ContainsSuffix("Quick question about ", companyName);
    ContainsExtend(opening, " and your " + industry + " stack", companyName);
    assert opening + (" and your " + industry + " stack") == opening + " and your " + industry + " stack";
    ContainsSuffix(opening + " and your ", industry);
    ContainsExtend(opening + " and your " + industry, " stack", industry);
    opening + " and your " + industry + " stack"
  }

  /** The tail of the body after the news item. */
  const Closing := " and thought there might be a fit.\n\nAre you available for a 15-minute call next week?\n\nBest,\nDaniyal"

  /** The body: greets the contact and quotes the news item. */
  function Body(contactName: string, recentNews: string, companyName: string): (s: string)
    ensures Contains(s, contactName) && Contains(s, recentNews)
  {
    var greeting := "Hi " + contactName;
    var news := greeting + ",\n\nI noticed " + recentNews;
    var tail := " at " + companyName + Closing;
    ContainsSuffix("Hi ", contactName);
    ContainsExtend(greeting, ",\n\nI noticed " + recentNews, contactName);
    assert greeting + (",\n\nI noticed " + recentNews) == news;
    ContainsSuffix(greeting + ",\n\nI noticed ", recentNews);
    ContainsExtend(news, tail, contactName);
    ContainsExtend(news, tail, recentNews);
    assert news + tail == "Hi " + contactName + ",\n\nI noticed " + recentNews + " at " + companyName + Closing;
    news + tail
  }

  /** The e-mail template filled in with the lead's fields. */
  function Compose(lead: EnrichedLead): (d: OutreachDraft)
    ensures Contains(d.subject, lead.companyName) && Contains(d.subject, lead.industry)
    ensures Contains(d.body, lead.contactName) && Contains(d.body, lead.recentNews)
  {
    OutreachDraft(Subject(lead.companyName, lead.industry),
                  Body(lead.contactName, lead.recentNews, lead.companyName))
  }

  /** The CRM payload `{"outreach": {subject, body}}`. */
  function OutreachPayload(d: OutreachDraft): (p: Record)
    ensures p.Keys == {"outreach"}
    ensures p["outreach"] == Dict(map["subject" := Str(d.subject), "body" := Str(d.body)])
  {
    map["outreach" := Dict(map["subject" := Str(d.subject), "body" := Str(d.body)])]
  }

  class OutreachAgent {
    const crm: CRMTool

    constructor (crm: CRMTool)
      ensures this.crm == crm
    {
      this.crm := crm;
    }

    /** `OutreachAgent.draft`: composes the e-mail and stores it under "outreach",
        leaving every other key of the lead's record as it was. */
    method Draft(lead: EnrichedLead) returns (d: OutreachDraft)
      modifies crm
      ensures d == Compose(lead)
      ensures crm.db == Upserted(old(crm.db), lead.id, OutreachPayload(d))
      ensures "outreach" in crm.Get(lead.id)
      ensures forall k :: k != "outreach" && k in old(crm.Get(lead.id)) ==>
                k in crm.Get(lead.id) && crm.Get(lead.id)[k] == old(crm.Get(lead.id))[k]
    {
      d := Compose(lead);
      crm.Upsert(lead.id, OutreachPayload(d));
    }
  }
}
