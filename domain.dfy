/**
 * The entities that flow through the lead pipeline. Python passes them around as
 * dictionaries; here each is a record with one field per key the core reads, a
 * missing text key reading as "" and a missing count as 0.
 */
module Domain {

  /** `time.time()` at the moment an event is written; supplied by the caller. */
  type Timestamp = real

  /** A lead as ingested. */
  datatype Lead = Lead(
    id: string,
    companyName: string,
    contactName: string,
    contactEmail: string,
    website: string,
    notes: string)

  /** What the enricher derives about a lead. */
  datatype Enrichment = Enrichment(
    website: string,
    industry: string,
    employeeCount: int,
    techStack: seq<string>,
    recentNews: string)

  /** `{**lead, **enriched}`: the lead's keys, then the enrichment's keys over them. */
  datatype EnrichedLead = EnrichedLead(
    id: string,
    companyName: string,
    contactName: string,
    contactEmail: string,
    notes: string,
    website: string,
    industry: string,
    employeeCount: int,
    techStack: seq<string>,
    recentNews: string)

  /** `{score, reasons}` as returned by the qualification agent. */
  datatype Qualification = Qualification(score: int, reasons: seq<string>)

  /** The records the pipeline writes to the memory bank. */
  datatype Event =
    | EnrichedEvent(enriched: Enrichment, ts: Timestamp)
    | QualificationEvent(qualification: Qualification, ts: Timestamp)
    | FollowUpEvent(note: string, ts: Timestamp)
}
