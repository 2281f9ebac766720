/**
 * The memory bank: an append-only list of events per lead identifier.
 */
module Memory {

  type Ledger<E> = map<string, seq<E>>

  /** `mem.get(lead_id, [])`: the events of a lead, oldest first. */
  function History<E>(mem: Ledger<E>, leadId: string): (h: seq<E>)
    ensures leadId in mem ==> h == mem[leadId]
    ensures leadId !in mem ==> h == []
  {
    if leadId in mem then mem[leadId] else []
  }

  /** The ledger after `write(lead_id, record)`. */
  function Appended<E>(mem: Ledger<E>, leadId: string, e: E): (m: Ledger<E>)
    ensures m.Keys == mem.Keys + {leadId}
    ensures History(m, leadId) == History(mem, leadId) + [e]
    ensures forall other :: other != leadId ==> History(m, other) == History(mem, other)
  {
    mem[leadId := History(mem, leadId) + [e]]
  }

  /** The ledger after the writes `writes`, performed left to right. */
  function AppendedAll<E>(mem: Ledger<E>, writes: seq<(string, E)>): (m: Ledger<E>)
    ensures m.Keys == mem.Keys + (set i | 0 <= i < |writes| :: writes[i].0)
  {
    if writes == [] then mem
    else
      var last := writes[|writes| - 1];
      Appended(AppendedAll(mem, writes[..|writes| - 1]), last.0, last.1)
  }

  /** The events of `writes` addressed to `leadId`, in write order. */
  function EventsFor<E>(writes: seq<(string, E)>, leadId: string): (es: seq<E>)
    ensures |es| <= |writes|
  {
    if writes == [] then []
    else
      var last := writes[|writes| - 1];
      EventsFor(writes[..|writes| - 1], leadId) + (if last.0 == leadId then [last.1] else [])
  }

  /** A sequence of writes only ever appends: each lead's history is its old history
      followed by the events written to it, in order. */
  lemma {:induction false} AppendedAllHistory<E>(mem: Ledger<E>, writes: seq<(string, E)>, leadId: string)
    ensures History(AppendedAll(mem, writes), leadId) == History(mem, leadId) + EventsFor(writes, leadId)
  {
    if writes != [] {
      AppendedAllHistory(mem, writes[..|writes| - 1], leadId);
    }
  }

  /** Two rounds of writes into an empty bank: each lead's history is the first
      round's events for it followed by the second round's. */
  lemma TwoRoundsHistory<E>(first: seq<(string, E)>, second: seq<(string, E)>, leadId: string)
    ensures History(AppendedAll(AppendedAll(map[], first), second), leadId)
            == EventsFor(first, leadId) + EventsFor(second, leadId)
  {
    var empty: Ledger<E> := map[];
    var mid := AppendedAll(empty, first);
    AppendedAllHistory(empty, first, leadId);
    assert History(empty, leadId) == [];
    assert History(mid, leadId) == EventsFor(first, leadId);
    AppendedAllHistory(mid, second, leadId);
  }

  /** Writing one more event is one more step of the fold. */
  lemma AppendedAllSnoc<E>(mem: Ledger<E>, writes: seq<(string, E)>, w: (string, E))
    ensures AppendedAll(mem, writes + [w]) == Appended(AppendedAll(mem, writes), w.0, w.1)
  {
    assert (writes + [w])[..|writes|] == writes;
  }

  /** Writes that only carry events of one kind deliver only events of that kind. */
  lemma {:induction false} EventsForAll<E>(writes: seq<(string, E)>, leadId: string, kind: E -> bool)
    requires forall i :: 0 <= i < |writes| ==> kind(writes[i].1)
    ensures forall j :: 0 <= j < |EventsFor(writes, leadId)| ==> kind(EventsFor(writes, leadId)[j])
  {
    if writes != [] {
      EventsForAll(writes[..|writes| - 1], leadId, kind);
    }
  }

  /** Two write sequences addressed position by position to the same leads give
      every lead the same number of events. */
  lemma {:induction false} EventsForSameTargets<E, F>(a: seq<(string, E)>, b: seq<(string, F)>, leadId: string)
    requires |a| == |b|
    requires forall i :: 0 <= i < |a| ==> a[i].0 == b[i].0
    ensures |EventsFor(a, leadId)| == |EventsFor(b, leadId)|
  {
    if a != [] {
      EventsForSameTargets(a[..|a| - 1], b[..|b| - 1], leadId);
    }
  }

  class MemoryBank<E> {
    var mem: Ledger<E>

    constructor ()
      ensures mem == map[]
    {
      mem := map[];
    }

    /** Appends `record` to the events of `leadId`. */
    method Write(leadId: string, record: E)
      modifies this
      ensures mem == Appended(old(mem), leadId, record)
      ensures Read(leadId) == old(Read(leadId)) + [record]
      ensures forall other :: other != leadId ==> Read(other) == old(Read(other))
    {
      mem := mem[leadId := History(mem, leadId) + [record]];
    }

    /** The events of `leadId`; a lead never written has none. */
    function Read(leadId: string): (h: seq<E>)
      reads this
      ensures leadId !in mem ==> h == []
      ensures leadId in mem ==> h == mem[leadId]
    {
      History(mem, leadId)
    }
  }
}
