/**
 * The in-memory CRM: one mergeable key/value record per lead identifier.
 */
module Crm {

  /** The values the pipeline stores in a record: the integer score, the status
      string, the follow-up flag and the nested outreach draft. */
  datatype Value = Int(i: int) | Str(s: string) | Bool(b: bool) | Dict(fields: map<string, Value>)

  type Record = map<string, Value>

  type Store = map<string, Record>

  /** `{**base, **payload}`: a right-biased merge that never drops a key. */
  function Merge(base: Record, payload: Record): (r: Record)
    ensures r.Keys == base.Keys + payload.Keys
    ensures forall k :: k in payload ==> r[k] == payload[k]
    ensures forall k :: k in base && k !in payload ==> r[k] == base[k]
  {
    base + payload
  }

  /** `db.get(lead_id, {})`: the stored record, or the empty one. */
  function Lookup(db: Store, leadId: string): (r: Record)
    ensures leadId in db ==> r == db[leadId]
    ensures leadId !in db ==> r == map[]
  {
    if leadId in db then db[leadId] else map[]
  }

  /** The store after `upsert(lead_id, payload)`. */
  function Upserted(db: Store, leadId: string, payload: Record): (d: Store)
    ensures d.Keys == db.Keys + {leadId}
    ensures Lookup(d, leadId) == Merge(Lookup(db, leadId), payload)
    ensures forall other :: other != leadId ==> Lookup(d, other) == Lookup(db, other)
  {
    db[leadId := Merge(Lookup(db, leadId), payload)]
  }

  /** Merging is associative: two payloads merged in turn leave what their merge does. */
  lemma MergeAssociative(base: Record, p: Record, q: Record)
    ensures Merge(Merge(base, p), q) == Merge(base, Merge(p, q))
  {
    var left, right := Merge(Merge(base, p), q), Merge(base, Merge(p, q));
    assert left.Keys == right.Keys;
    forall k | k in left
      ensures left[k] == right[k]
    {
    }
  }

  /** Two upserts to one record leave what one upsert of their merge leaves:
      neither payload is lost, and the later one wins on shared keys. */
  lemma UpsertsCompose(db: Store, leadId: string, p: Record, q: Record)
    ensures Upserted(Upserted(db, leadId, p), leadId, q) == Upserted(db, leadId, Merge(p, q))
  {
    var left := Upserted(Upserted(db, leadId, p), leadId, q);
    var right := Upserted(db, leadId, Merge(p, q));
    MergeAssociative(Lookup(db, leadId), p, q);
    assert left.Keys == right.Keys;
    forall other | other in left
      ensures left[other] == right[other]
    {
      if other != leadId {
        assert Lookup(left, other) == Lookup(right, other);
      }
    }
  }

  class CRMTool {
    var db: Store

    constructor ()
      ensures db == map[]
    {
      db := map[];
    }

    /** Merges `payload` into the record of `leadId`, creating it if absent. */
    method Upsert(leadId: string, payload: Record)
      modifies this
      ensures db == Upserted(old(db), leadId, payload)
      ensures forall k :: k in payload ==> k in Get(leadId) && Get(leadId)[k] == payload[k]
      ensures forall k :: k in old(Get(leadId)) && k !in payload ==> k in Get(leadId) && Get(leadId)[k] == old(Get(leadId))[k]
      ensures forall other :: other != leadId ==> Get(other) == old(Get(other))
    {
      db := db[leadId := Merge(Lookup(db, leadId), payload)];
    }

    /** The record of `leadId`; a lead never written reads as the empty record. */
    function Get(leadId: string): (r: Record)
      reads this
      ensures leadId !in db ==> r == map[]
      ensures leadId in db ==> r == db[leadId]
    {
      Lookup(db, leadId)
    }

    /** The whole store. */
    function All(): (s: Store)
      reads this
      ensures s.Keys == db.Keys
      ensures forall id :: id in s ==> Get(id) == s[id]
      ensures forall id :: id !in s ==> Get(id) == map[]
    {
      db
    }
  }
}
