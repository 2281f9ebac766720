# SmartSales lead pipeline — a Dafny model of `core.py`

SmartSales qualifies sales leads in five steps:

- **Enrichment.** An orchestration agent enriches a batch of leads. A simulated company enricher derives each lead's industry, team size, tech stack and recent news. One enrichment event per lead goes to a memory bank.
- **Scoring.** A qualification agent scores each enriched lead with a fixed rule table:
  - team size of at least 50 adds 30;
  - an industry containing "FinTech" adds 25;
  - news containing "Series A" adds 20.
  It appends one reasoning string from a language-model stand-in and clamps the score to 100. It then writes `{score, status}` to an in-memory CRM and a qualification event to the memory bank. The status is "qualified" exactly when the score is above 50.
- **Outreach.** Every lead scoring above 50 gets a templated outreach e-mail stored in the CRM.
- **Follow-up.** Every lead scoring above 50 also gets a follow-up registered with the scheduler.
- **Evaluation.** When labels are supplied, the CRM's statuses are compared with them in a confusion matrix, which yields precision and recall.

The model follows the module structure of `core.py`:

| Module | Models |
|---|---|
| `Text` | Python's substring test and ASCII `lower()` |
| `Crm` | `CRMTool` |
| `Memory` | `MemoryBank`, generic in its event type |
| `Domain` | the records that flow between the agents |
| `Enricher` | `CompanyEnricherTool.run` |
| `Reasoning` | `llm_reasoning_prompt` |
| `Scoring` | `QualificationAgent` |
| `Outreach` | `OutreachAgent` |
| `FollowUp` | `FollowUpScheduler` |
| `Orchestration` | `OrchestrationAgent` |
| `Evaluation` | `evaluate_predictions` |
| `SalesPipeline` | `pipeline` |
| `Demo` | the fallback leads of the command-line demo |

The stores, the scheduler and the agents become classes; the stateless enricher `CompanyEnricherTool` becomes the function `Enricher.Run`, so `OrchestrationAgent` holds no `enricher` field (core.py:72) and calls `Run` directly. The CRM, the memory bank and the scheduler have fields that their methods update, declared in `modifies` clauses. The agents only hold references to the stores, set once at construction; their methods declare the stores they change.

The loops of `handle_batch`, `evaluate_predictions` and `pipeline` become methods with loop invariants. Each of these methods is proved against a pure specification function (`EnrichAll`, `Evaluate`, `AfterAll`, `ProcessedAll`, `PipelineLedger`). The properties the source promises are proved as lemmas about those functions.

Python dictionaries for leads become records with one field per key the core reads. Every lead carries an `id`, which the source reads with `lead['id']`. A missing text key other than `id` reads as "" and a missing count as 0, which are the `.get` defaults. The CRM's values are a small `Value` datatype.

`core.py` has no bounded worker pool, no per-lead failure path and no cancellable follow-ups; the model has none either. It has one enrichment per lead and a scheduler that only registers follow-ups.

The command-line demo labels its first lead "qualified". That lead (AcmePay, "Series A", 75 people, SaaS) scores exactly 50. Under the strict `> 50` threshold it is stored as "nurture", so the demo's report is one false negative and one true negative, with precision and recall both 0.0 (`Demo.DemoMetrics`). The threshold is strict while the team-size rule is inclusive (`>= 50`). Which one was meant is ambiguous, so the model keeps both exactly as written and records this as a property of the demo, not as a defect.

## Model

| member | source | states |
|---|---|---|
| Text.Contains | core.py:53 | Python's `needle in hay`: never holds for a longer needle, always holds for the empty needle |
| Text.ContainsIff | core.py:53 | the substring test holds exactly when the needle occurs at some index of the text |
| Text.ContainsOccurs | core.py:53 | a contained needle occurs at a position that the lemma returns |
| Text.OccursContains | core.py:53 | a needle found at some index is contained |
| Text.ContainsFirstChar | core.py:53 | a contained non-empty needle's first character occurs in the text |
| Text.ContainsSuffix | core.py:136 | a string contains anything appended to it |
| Text.ContainsExtend | core.py:137-139 | containment survives appending more text |
| Text.LowerChar | core.py:53 | A..Z move up by 32 code points, everything else is kept, and the result is never upper case |
| Text.Lower | core.py:53 | same length, each character lowered, and no upper-case letter left |
| Text.LowerNoUpper | core.py:65 | lowering text with no upper-case letter changes nothing |
| Crm.Merge | core.py:26 | right-biased merge: keys of both; payload values win; other old values are kept |
| Crm.Lookup | core.py:29-30 | the stored record, or the empty record for an unknown id |
| Crm.Upserted | core.py:25-26 | only the upserted id changes, and its record becomes the merge of old and payload |
| Crm.MergeAssociative | core.py:26 | merging two payloads in turn is merging their merge |
| Crm.UpsertsCompose | core.py:25-26 | two upserts to one id equal one upsert of the merged payloads |
| Crm.CRMTool.constructor | core.py:22-23 | a new CRM is empty |
| Crm.CRMTool.Upsert | core.py:25-27 | after the upsert, every payload key reads the payload's value, every other old key of the record is kept, and other ids are untouched |
| Crm.CRMTool.Get | core.py:29-30 | the stored record, or empty for a never-written id |
| Crm.CRMTool.All | core.py:32-33 | the whole store: exactly its ids, including those whose record is empty, each agreeing with `Get` |
| Memory.History | core.py:44-45 | a lead's events, or none for an unknown id |
| Memory.Appended | core.py:40-41 | the written lead's history gains the record at its end; other histories are unchanged |
| Memory.AppendedAll | core.py:40-41 | a sequence of writes, left to right; the ledger's leads are the old ones plus every written lead |
| Memory.EventsFor | core.py:40-41 | the events addressed to one lead, in write order, never more than the writes |
| Memory.AppendedAllHistory | core.py:40-41 | after a sequence of writes, each history is the old one followed by the events written to that lead, in order |
| Memory.TwoRoundsHistory | core.py:40-45 | two rounds of writes into an empty bank leave the first round's events before the second's |
| Memory.AppendedAllSnoc | core.py:40-41 | one more write is one more append |
| Memory.EventsForAll | core.py:40-41 | writes of one kind of event deliver only that kind |
| Memory.EventsForSameTargets | core.py:40-41 | writes addressed to the same leads position by position give each lead as many events |
| Memory.MemoryBank.constructor | core.py:37-38 | a new bank is empty |
| Memory.MemoryBank.Write | core.py:40-42 | `Read(id)` becomes the old `Read(id)` with the record appended; other ids are unchanged |
| Memory.MemoryBank.Read | core.py:44-45 | a lead's events, or none for a lead never written |
| Enricher.Run | core.py:49-59 | industry is "FinTech" iff the lowered company name contains "fin", otherwise "SaaS"; team size is 75 / 120 / 12 by "Series A" / "Scale-up" / neither; tech stack by "Data"; news and website copied |
| Enricher.Combine | core.py:84 | `{**lead, **enriched}` field by field: the lead's id, names, e-mail and notes, then the enrichment's website, industry, head count, tech stack and news |
| Enricher.EnrichLead | core.py:82-84 | the combined lead keeps the lead's own fields, its news is the notes, and its industry, head count and tech stack are those `Run` derives |
| Enricher.LargeTeamIffSignal | core.py:54 | the enricher reports at least 50 people exactly when the notes carry "Series A" or "Scale-up" |
| Reasoning.LlmReasoningPrompt | core.py:62-67 | the promising answer exactly when the lowered prompt contains "qualification", the default answer otherwise |
| Reasoning.KeywordPromptIsPromising | core.py:65-66 | a prompt starting with the lower-case keyword gets the promising answer |
| Scoring.FiredRules | core.py:108-116 | the rules that fire, one per true predicate, so as many as there are true predicates |
| Scoring.Points | core.py:106-116 | the points of a rule list, at least each rule's own points |
| Scoring.TableScore | core.py:106-116 | the table's sum is at most 75 and exceeds 50 iff both the team-size and the industry rule fire |
| Scoring.Reasons | core.py:110-116 | one reason per fired rule, in rule order |
| Scoring.PointsAppend | core.py:106-116 | points of two rule lists add up |
| Scoring.FiredPoints | core.py:106-116 | the fired rules sum to 30/25/20 per true predicate, so at most 75 |
| Scoring.ReasonsOfFired | core.py:107-116 | the reasons are team size, industry and funding, each present iff its rule fired, in that order |
| Scoring.Clamp | core.py:122 | `min(100, score)`: a score at most 100 is unchanged and a larger one becomes 100 |
| Scoring.Status | core.py:126 | "qualified" iff the score is above 50, "nurture" otherwise |
| Scoring.ScorePayload | core.py:126 | exactly the keys score and status; score as given; status "qualified" iff above 50 and "nurture" otherwise |
| Scoring.Qualify | core.py:104-123 | the score lies in [0, 75], the clamp leaves it unchanged, and it is the points of the fired rules; the reasons are one per fired rule then the reasoning string last |
| Scoring.PromptIsPromising | core.py:119 | the agent's fixed prompt always draws the promising answer |
| Scoring.ScoreByRuleTable | core.py:106-120 | the score is the rule table's sum; the reasons number the fired rules plus one |
| Scoring.QualifiedIff | core.py:108-113 | the score is above 50 iff the team has at least 50 people and the industry contains "FinTech" |
| Scoring.QualificationAgent.constructor | core.py:100-102 | the agent shares the given CRM and memory bank |
| Scoring.QualificationAgent.Score | core.py:104-128 | returns `Qualify(lead)`; the CRM record gets the score and a status that is "qualified" iff the score is above 50; the lead's events gain exactly that qualification event |
| Outreach.Subject | core.py:136 | the subject names the company and the industry |
| Outreach.Body | core.py:137-139 | the body names the contact and quotes the news |
| Outreach.Compose | core.py:136-139 | the draft names company, industry, contact and news |
| Outreach.OutreachPayload | core.py:141 | the single key "outreach", holding the draft's subject and body |
| Outreach.OutreachAgent.constructor | core.py:131-132 | the agent uses the given CRM |
| Outreach.OutreachAgent.Draft | core.py:134-142 | returns the composed draft and stores it under "outreach", keeping every other key of the lead's record |
| FollowUp.DuePayload | core.py:157 | exactly `{"followup_due": true}` |
| FollowUp.FollowUpScheduler.constructor | core.py:146-149 | nothing is scheduled yet |
| FollowUp.FollowUpScheduler.Schedule | core.py:151-164 | reports success and registers `{note, delay}` for the lead, replacing an earlier entry |
| FollowUp.FollowUpScheduler.FollowUpDue | core.py:156-158 | the lead's record gains `followup_due = true` and its events gain one follow-up event |
| Orchestration.EnrichmentWrites | core.py:81-83 | one enrichment event per lead, in batch order |
| Orchestration.EnrichAll | core.py:81-85 | one combined lead per input lead, position by position |
| Orchestration.PrefixStep | core.py:81-85 | a longer prefix of the batch adds exactly that lead's write and result |
| Orchestration.OrchestrationAgent.constructor | core.py:71-74 | the agent shares the given CRM and memory bank |
| Orchestration.OrchestrationAgent.HandleBatch | core.py:76-97 | returns one combined lead per input lead and appends one enrichment event per lead |
| Evaluation.Predicted | core.py:171-172 | the stored status, or "nurture" when the record has none |
| Evaluation.Cell | core.py:173-176 | the labeled leads that fall in one cell, a subset of the labeled leads |
| Evaluation.Classify | core.py:173-176 | each of the four cells is selected by exactly its two conditions |
| Evaluation.CellsPartition | core.py:173-176 | the four cell sizes add up to the number of labels |
| Evaluation.CellsCover | core.py:173-176 | every labeled lead falls in some cell |
| Evaluation.Ratio | core.py:177-178 | `num / den` for a positive denominator (the result times `den` is `num`), 0.0 otherwise; within [0, 1] when the numerator does not exceed it |
| Evaluation.Evaluate | core.py:167-179 | counts total the labels; precision and recall lie in [0, 1] and are 0.0 on an empty denominator |
| Evaluation.EvaluationFromCounts | core.py:177-179 | the report is determined by the four cell sizes |
| Evaluation.VisitOne | core.py:170 | visiting one more lead grows a visited cell by one exactly when the lead is in it |
| Evaluation.TallyStart | core.py:169 | the counters start at zero, matching the empty visited set |
| Evaluation.TallyVisit | core.py:173-176 | one visit bumps exactly the counter of the lead's cell |
| Evaluation.TallyDone | core.py:177-179 | once all leads are visited, the counters give the report |
| Evaluation.EvaluatePredictions | core.py:167-179 | returns exactly `Evaluate(labeled, crm)`, whose counts total the labels; reads the CRM and changes nothing |
| Evaluation.SingleTruePositive | core.py:167-179 | one correctly predicted qualified lead gives precision 1.0, recall 1.0, tp 1 |
| Evaluation.NoLabels | core.py:177-179 | no labels give all counts 0 and precision and recall 0.0 |
| SalesPipeline.AfterLead | core.py:195-198 | the CRM after one loop turn: the lead's record is present and no other id is added |
| SalesPipeline.AfterAll | core.py:194-198 | the CRM after the loop: the old ids plus exactly the ids of the batch's leads |
| SalesPipeline.Ids | core.py:194 | exactly the ids of the batch's leads: every lead's id is in it and nothing else is |
| SalesPipeline.ScheduledAfterLead | core.py:197-199 | a lead above 50 gets `{"1st follow up", 5}` registered; other registrations are kept; a lead at or below 50 leaves the registry as it was |
| SalesPipeline.ScheduledAfterAll | core.py:194-199 | the loop only grows the registry, and each newly added id holds `{"1st follow up", 5}`; values of ids already registered are fixed by `ScheduledIffQualified` |
| SalesPipeline.ScheduledIffQualified | core.py:194-199 | after the loop a follow-up is registered for a lead iff one already was or some lead with that id scored above 50; such a lead holds `{"1st follow up", 5}` (re-registration replaces, core.py:163), and any other registration keeps its old value |
| SalesPipeline.QualificationWrites | core.py:127 | one qualification event per lead, in order |
| SalesPipeline.ProcessedAll | core.py:194-200 | one processed entry per enriched lead, pairing it with its qualification |
| SalesPipeline.AfterLeadEffect | core.py:195-198 | handling a lead touches only its record; the record's score is the lead's and its status agrees; "outreach" is present iff it was or the score is above 50 |
| SalesPipeline.SomeQualifiesSnoc | core.py:194-197 | some lead with the id qualifies iff one before the last does or the last does |
| SalesPipeline.OutreachIffQualified | core.py:194-198 | after the loop a record has "outreach" iff it had it before or some lead with that id scored above 50 |
| SalesPipeline.StatusAgrees | core.py:126 | every batch lead's final record holds an integer score and the status `Status(score)`: "qualified" above 50 and "nurture" otherwise |
| SalesPipeline.NurtureUnlessQualified | core.py:126 | a batch lead none of whose entries clears the threshold ends "nurture" |
| SalesPipeline.IdInFront | core.py:194 | an id in the batch but not at its end occurs earlier |
| SalesPipeline.EnrichmentEventsOnly | core.py:83 | the enrichment stage writes only enrichment events |
| SalesPipeline.QualificationEventsOnly | core.py:127 | the scoring stage writes only qualification events |
| SalesPipeline.StagesWriteAlike | core.py:83-127 | each lead gets as many qualification events (line 127) as enrichment events (line 83) |
| SalesPipeline.LedgerOrder | core.py:192-195 | each lead's history is its enrichment events followed by as many qualification events |
| SalesPipeline.QualifiedIffFinTechAndSignal | core.py:53-54 | end to end, a lead qualifies iff its lowered name contains "fin" and its notes carry "Series A" or "Scale-up" |
| SalesPipeline.Pipeline | core.py:182-205 | processed, CRM and memory are the sequential specifications of the batch; metrics only for a non-empty label map, and then equal to `Evaluate` on the final CRM |
| SalesPipeline.ScoreAll | core.py:193-200 | handles the leads in order: processed entries, CRM fold, qualification writes and the scheduler's registrations |
| SalesPipeline.HandleLead | core.py:195-199 | one loop turn: the qualification, the CRM after that lead, one qualification event, and the follow-up registered exactly when the score is above 50 |
| SalesPipeline.ScheduledAfterAllStep | core.py:199 | one more lead is one more step of the scheduler's fold |
| SalesPipeline.AfterAllStep | core.py:194 | one more lead is one more step of the CRM fold |
| SalesPipeline.ProcessedAllStep | core.py:200 | one more lead adds one processed entry |
| SalesPipeline.QualificationWritesStep | core.py:127 | one more lead adds one qualification event |
| Demo.NoFin | core.py:53 | a name without "f"/"F" does not contain "fin" once lowered |
| Demo.NoFinInNames | core.py:221-222 | neither demo company is FinTech |
| Demo.AcmePayOnThreshold | core.py:221 | the first demo lead scores exactly 50 |
| Demo.ShopRightScoresZero | core.py:222 | the second demo lead scores 0 |
| Demo.TwoSaaS | core.py:111 | in a batch of two SaaS leads no lead clears the threshold |
| Demo.DemoStatuses | core.py:220-224 | after the demo run both leads are "nurture" |
| Demo.MissedAndRejected | core.py:173-179 | two unqualified predictions against labels "qualified" and other give fn 1, tn 1, precision and recall 0.0 |
| Demo.CellsOfTwo | core.py:173-176 | with two labeled leads each cell holds those of the two its prediction and label select |
| Demo.DemoReport | core.py:224 | the demo labels against two "nurture" statuses give fn 1, tn 1 |
| Demo.DemoMetrics | core.py:220-224 | the demo run's report is precision 0.0, recall 0.0, tp 0, fp 0, tn 1, fn 1 |

## Left out

- Threads, the `Queue`, `join` and the daemon waiter thread (core.py:78-95, 153-162) are not modelled. The enrichment workers run one after another in input order. Python returns results in completion order, which the model does not capture.
- The wait itself (`time.sleep`, core.py:155) is not modelled; the five-second delay is kept as data in every `Pending` registration. What the waiter does on waking is the separate method `FollowUp.FollowUpScheduler.FollowUpDue`.
- FollowUp.FollowUpScheduler.FollowUpDue: `Pipeline` never calls it. In the source the waiter fires `delay_seconds` after `schedule` (core.py:155-158), which is usually after `pipeline` has returned; the model assumes the batch finishes within the delay. If the rest of the batch took longer than 5 s, the source's `memory` would also hold follow-up events that `PipelineLedger` does not contain. The thread handle kept in `scheduled` is not modelled.
- `time.time()` is a `Timestamp` parameter. One value stands for every reading within a call.
- Logging and the `json` printing are not modelled. The CSV reading of the `__main__` block is file I/O and is not modelled; only its fallback leads and labels are (`Demo`).
- A lead without an `id` is not modelled. In the source its worker raises `KeyError` at core.py:58 before queuing a result, so `handle_batch` silently returns fewer leads than it was given. `EnrichAll` always returns one lead per input lead.
- `all()` (core.py:33) and the `"memory"` entry of `pipeline`'s result (core.py:205) hand out the live dictionaries, not copies. Follow-up threads keep writing into them after `pipeline` returns; the demo sleeps 6 s (core.py:227) so that the printed CRM shows those writes. The model returns the stores' values at the moment of return, and `Pipeline` does not run the follow-ups.
- Lead keys the core never reads are not modelled, and neither are values of unexpected types.
- `lower()` covers ASCII A..Z only.
- Outreach.OutreachAgent.Draft: does not model the rendering of a missing field as `None` or the 'your recent activities' default. The model always has a string, "" when the key is missing.
- Evaluation.Ratio: precision and recall are exact `real` ratios rather than floating point.
- Cancelling a follow-up, bounding the number of concurrent workers and recovering from a failed enrichment are not modelled, because `core.py` does none of them.
- smartsales.py is not part of this model; it holds no logic.
