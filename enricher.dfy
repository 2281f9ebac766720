/**
 * The simulated company enricher: fixed substring and bucketing rules that
 * derive industry, head count, technology stack and news from a lead.
 */
module Enricher {
  import opened Text
  import opened Domain

  /** `CompanyEnricherTool.run`. */
  function Run(lead: Lead): (e: Enrichment)
    ensures e.website == lead.website
    ensures e.industry == "FinTech" <==> Contains(Lower(lead.companyName), "fin")
    ensures e.industry == "SaaS" <==> !Contains(Lower(lead.companyName), "fin")
    ensures e.employeeCount == 75 <==> Contains(lead.notes, "Series A")
    ensures e.employeeCount == 120 <==> !Contains(lead.notes, "Series A") && Contains(lead.notes, "Scale-up")
    ensures e.employeeCount == 12 <==> !Contains(lead.notes, "Series A") && !Contains(lead.notes, "Scale-up")
    ensures e.techStack == (if Contains(lead.companyName, "Data") then ["Python", "Postgres"] else ["Node.js"])
    ensures e.recentNews == lead.notes
  {
    Enrichment(
      lead.website,
      if Contains(Lower(lead.companyName), "fin") then "FinTech" else "SaaS",
      if Contains(lead.notes, "Series A") then 75
      else if Contains(lead.notes, "Scale-up") then 120
      else 12,
      if Contains(lead.companyName, "Data") then ["Python", "Postgres"] else ["Node.js"],
      lead.notes)
  }

  /** `{**lead, **enriched}`: every key of the lead, with the enrichment's keys on top. */
  function Combine(lead: Lead, e: Enrichment): (c: EnrichedLead)
    ensures c.id == lead.id && c.companyName == lead.companyName && c.contactName == lead.contactName
    ensures c.contactEmail == lead.contactEmail && c.notes == lead.notes
    ensures c.website == e.website && c.industry == e.industry && c.employeeCount == e.employeeCount
    ensures c.techStack == e.techStack && c.recentNews == e.recentNews
  {
    EnrichedLead(lead.id, lead.companyName, lead.contactName, lead.contactEmail, lead.notes,
                 e.website, e.industry, e.employeeCount, e.techStack, e.recentNews)
  }

  /** What one worker of the orchestrator hands back for `lead`. */
  function EnrichLead(lead: Lead): (c: EnrichedLead)
    ensures c.id == lead.id && c.companyName == lead.companyName && c.contactName == lead.contactName
    ensures c.contactEmail == lead.contactEmail && c.notes == lead.notes && c.website == lead.website
    ensures c.recentNews == lead.notes
    ensures c.industry == Run(lead).industry && c.employeeCount == Run(lead).employeeCount
    ensures c.techStack == Run(lead).techStack
  {
    Combine(lead, Run(lead))
  }

  /** The head count reaches 50 exactly when the notes carry a funding or
      growth signal. */
  lemma LargeTeamIffSignal(lead: Lead)
    ensures Run(lead).employeeCount >= 50 <==> Contains(lead.notes, "Series A") || Contains(lead.notes, "Scale-up")
  {
  }
}
