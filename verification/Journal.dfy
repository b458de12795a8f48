/** The durable records of one match, and the handoff journal kept in them: every method is
    one atomic read-modify-write of the stored records. */
module Journal {
  import opened Domain
  import opened Handoff
  import opened HashClassify
  import opened Faults

  datatype Records = Records(
    inProgress: Option<InProgress>, attempted: seq<Digest>, accepted: seq<Digest>,
    processed: seq<Digest>, association: Option<Association>, pending: Option<CloseRecord>)

  const NO_RECORDS := Records(None, [], [], [], None, None)

  function SetOf(s: seq<Digest>): set<Digest> { set d | d in s }

  /** What the protocol sees of the records. */
  function MemoryOf(r: Records): Memory {
    Memory(r.inProgress, SetOf(r.attempted), SetOf(r.accepted), SetOf(r.processed),
           r.association, r.pending)
  }

  predicate ValidRecords(r: Records) {
    Unrepeated(r.attempted) && Unrepeated(r.accepted) && Unrepeated(r.processed)
  }

  /** A list of hashes without repetition, extended only by what it lacks. */
  function WithHash(existing: seq<Digest>, d: Digest): seq<Digest> {
    if d in existing then existing else existing + [d]
  }

  lemma WithHashAdds(existing: seq<Digest>, d: Digest)
    requires Unrepeated(existing)
    ensures Unrepeated(WithHash(existing, d)) && SetOf(WithHash(existing, d)) == SetOf(existing) + {d}
  {
    if d !in existing { UnrepeatedGrows(existing, d); }
  }

  class DurableHandoffJournal {
    var stored: Records

    ghost predicate Valid()
      reads this
    {
      ValidRecords(stored)
    }

    ghost function Memory(): Memory
      reads this
    {
      MemoryOf(stored)
    }

    constructor ()
      ensures Valid() && Memory() == EMPTY_MEMORY
    {
      stored := NO_RECORDS;
    }

    method EvidenceForHash(d: Digest) returns (e: Evidence)
      ensures e == EvidenceFor(Memory(), d)
    {
      return Evidence(d in stored.attempted, d in stored.accepted);
    }

    method BeginHandoff(record: InProgress)
      requires Valid()
      modifies this
      ensures Valid()
      ensures Memory() == old(Memory()).(inProgress := Some(record),
                                         attempted := old(Memory()).attempted + {record.sha256})
    {
      WithHashAdds(stored.attempted, record.sha256);
      stored := stored.(inProgress := Some(record),
                        attempted := WithHash(stored.attempted, record.sha256));
    }

    method ClearInProgress()
      requires Valid()
      modifies this
      ensures Valid() && stored == old(stored).(inProgress := None)
    {
      if stored.inProgress.Some? { stored := stored.(inProgress := None); }
    }

    method RecordHistoricalAcceptance(d: Digest)
      requires Valid()
      modifies this
      ensures Valid()
      ensures Memory() == old(Memory()).(accepted := old(Memory()).accepted + {d})
    {
      WithHashAdds(stored.accepted, d);
      if d !in stored.accepted {
        stored := stored.(accepted := WithHash(stored.accepted, d));
      }
    }
  }
}
