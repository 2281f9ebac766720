/**
 * The follow-up scheduler. The source sleeps on a background thread and then
 * performs the follow-up; here registering a follow-up and performing it are
 * two separate steps.
 */
module FollowUp {
  import opened Crm
  import opened Memory
  import opened Domain

  /** `{note, delay}` as kept in `scheduled` (the thread handle is not modelled). */
  datatype Pending = Pending(note: string, delaySeconds: int)

  /** The CRM payload `{"followup_due": True}`. */
  function DuePayload(): (p: Record)
    ensures p.Keys == {"followup_due"} && p["followup_due"] == Bool(true)
  {
    map["followup_due" := Bool(true)]
  }

  class FollowUpScheduler {
    const crm: CRMTool
    const memory: MemoryBank<Event>
    var scheduled: map<string, Pending>

    constructor (crm: CRMTool, memory: MemoryBank<Event>)
      ensures this.crm == crm && this.memory == memory && scheduled == map[]
    {
      this.crm := crm;
      this.memory := memory;
      scheduled := map[];
    }

    /** `schedule`: records the follow-up for `leadId` (replacing any earlier one)
        and reports success; nothing reaches the stores yet. */
    method Schedule(leadId: string, delaySeconds: int, note: string) returns (ok: bool)
      modifies this
      ensures ok
      ensures scheduled == old(scheduled)[leadId := Pending(note, delaySeconds)]
    {
      scheduled := scheduled[leadId := Pending(note, delaySeconds)];
      ok := true;
    }

    /** What the waiter does once the delay has passed: flags the record as due
        and appends a follow-up event. */
    method FollowUpDue(leadId: string, note: string, ts: Timestamp)
      modifies crm, memory
      ensures crm.db == Upserted(old(crm.db), leadId, DuePayload())
      ensures memory.mem == Appended(old(memory.mem), leadId, FollowUpEvent(note, ts))
      ensures "followup_due" in crm.Get(leadId) && crm.Get(leadId)["followup_due"] == Bool(true)
      ensures memory.Read(leadId) == old(memory.Read(leadId)) + [FollowUpEvent(note, ts)]
    {
      crm.Upsert(leadId, DuePayload());
      memory.Write(leadId, FollowUpEvent(note, ts));
    }
  }
}
