/** Classification of a candidate hash against the accepted history, and relay order. */
module HashClassify {
  import opened Domain

  datatype Classification =
    | NewCandidate | Incoming | Idempotent | Stale | JournalOnly

  /** What the local journal knows about the candidate hash. */
  datatype Evidence = Evidence(attempted: bool, accepted: bool)

  predicate IsLatest(hashes: seq<Digest>, d: Digest) {
    |hashes| > 0 && hashes[|hashes| - 1] == d
  }

  function Classify(d: Digest, m: Manifest, local: PlayerId, e: Evidence): Classification {
    if IsLatest(m.hashes, d) && local == m.current then Incoming
    else if IsLatest(m.hashes, d) && m.lastSender == Some(local) && e.attempted then Idempotent
    else if e.accepted then JournalOnly
    else if d in m.hashes && !IsLatest(m.hashes, d) then Stale
    else if d !in m.hashes then NewCandidate
    else Stale
  }

  function IndexOf(players: seq<PlayerId>, p: PlayerId): (i: nat)
    requires p in players
    ensures i < |players| && players[i] == p
    ensures forall j :: 0 <= j < i ==> players[j] != p
  {
    if players[0] == p then 0 else 1 + IndexOf(players[1..], p)
  }

  /** The human after `p` in relay order, wrapping from the last to the first. */
  function NextPlayer(players: seq<PlayerId>, p: PlayerId): PlayerId
    requires p in players
  {
    players[(IndexOf(players, p) + 1) % |players|]
  }

  /** A hash is offered for a new handoff exactly when neither the remote history nor
      the local journal knows it. */
  lemma NewIffUnknown(d: Digest, m: Manifest, local: PlayerId, e: Evidence)
    ensures Classify(d, m, local, e) == NewCandidate <==> d !in m.hashes && !e.accepted
  {
    if IsLatest(m.hashes, d) {
      assert m.hashes[|m.hashes| - 1] in m.hashes;
    }
  }

  /** With two players or more the sender of the latest save is never the current
      player, so a retry with evidence is acknowledged rather than rejected. */
  lemma RetryIsAcknowledged(m: Manifest, d: Digest, local: PlayerId, e: Evidence)
    requires ValidManifest(m) && m.sequence > 0 && |m.players| >= 2
    requires m.lastSender == Some(local) && m.current == NextPlayer(m.players, local)
    requires IsLatest(m.hashes, d) && e.attempted
    ensures Classify(d, m, local, e) == Idempotent
  {
    var i := IndexOf(m.players, local);
    assert (i + 1) % |m.players| != i;
  }

  /** With a single player the same retry is rejected as the incoming save. */
  lemma SinglePlayerRetryIsRejected(m: Manifest, d: Digest, local: PlayerId, e: Evidence)
    requires ValidManifest(m) && m.players == [local]
    requires IsLatest(m.hashes, d)
    ensures Classify(d, m, local, e) == Incoming
  {
    assert m.current == m.players[0];
  }
}
