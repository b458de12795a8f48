/** One pass over the save directory: which files are offered as the outgoing turn. */
module Scan {
  import opened Domain
  import opened Filters
  import opened Detect

  /** What one file looked like during the pass.  It is read twice: `first` when it is met,
      `second` once it is stable; `None` is a failing system call. */
  datatype Entry = Entry(
    path: LocalPath, link: bool, file: bool, matches: bool, contained: bool,
    stat: Option<(nat, int)>, first: Option<Fingerprint>, second: Option<Fingerprint>)

  datatype BaselineEntry = BaselineEntry(path: LocalPath, sha256: Digest)

  datatype Candidate = Candidate(path: LocalPath, sha256: Digest, size: nat)

  /** Everything a pass is judged against. */
  datatype Rules = Rules(
    session: Session, baseline: seq<BaselineEntry>, excluded: set<Digest>, maxSize: nat, now: real)

  datatype DetectionOutcome =
    | NoCandidate | Stabilizing | OneCandidate | MultipleCandidates | IoFailure | ContainmentFailure

  datatype Detection = Detection(
    outcome: DetectionOutcome, candidates: seq<Candidate>, observations: seq<Sample>)

  // ----- the baseline -----

  function HashAt(baseline: seq<BaselineEntry>, p: LocalPath): Option<Digest> {
    if baseline == [] then None
    else
      var later := HashAt(baseline[1..], p);
      if later.Some? then later
      else if baseline[0].path == p then Some(baseline[0].sha256)
      else None
  }

  function Hashes(baseline: seq<BaselineEntry>): set<Digest> {
    set e | e in baseline :: e.sha256
  }

  lemma {:induction false} HashAtAppend(baseline: seq<BaselineEntry>, e: BaselineEntry, p: LocalPath)
    ensures HashAt(baseline + [e], p) == if e.path == p then Some(e.sha256) else HashAt(baseline, p)
  {
    if baseline == [] {
      assert baseline + [e] == [e];
    } else {
      assert (baseline + [e])[1..] == baseline[1..] + [e];
      HashAtAppend(baseline[1..], e, p);
    }
  }

  method BaselineIndex(baseline: seq<BaselineEntry>)
    returns (byPath: map<LocalPath, Digest>, hashes: set<Digest>)
    ensures forall p :: HashAt(baseline, p) == if p in byPath then Some(byPath[p]) else None
    ensures hashes == Hashes(baseline)
  {
    byPath, hashes := map[], {};
    for i := 0 to |baseline|
      invariant forall p :: HashAt(baseline[..i], p) == if p in byPath then Some(byPath[p]) else None
      invariant hashes == Hashes(baseline[..i])
    {
      var e := baseline[i];
      ghost var before := byPath;
      byPath, hashes := byPath[e.path := e.sha256], hashes + {e.sha256};
      assert baseline[..i + 1] == baseline[..i] + [e];
      forall p
        ensures HashAt(baseline[..i + 1], p) == if p in byPath then Some(byPath[p]) else None
      {
        HashAtAppend(baseline[..i], e, p);
        assert HashAt(baseline[..i], p) == if p in before then Some(before[p]) else None;
      }
    }
    assert baseline[..|baseline|] == baseline;
  }

  // ----- one entry -----

  predicate Considered(e: Entry) {
    !e.link && e.file && e.matches
  }

  /** The error a considered entry ends the pass with, before anything about its hash. */
  function EarlyError(rules: Rules, e: Entry): Option<DetectionOutcome> {
    if !e.contained then Some(ContainmentFailure)
    else if e.stat.None? then Some(IoFailure)
    else if e.stat.value.0 <= rules.maxSize && e.first.None? then Some(IoFailure)
    else None
  }

  predicate Excluded(rules: Rules, p: LocalPath, d: Digest) {
    d in rules.excluded
    || (HashAt(rules.baseline, p).None? && d in Hashes(rules.baseline))
  }

  /** The file is known content: what the baseline recorded here, or an excluded hash. */
  predicate Known(rules: Rules, e: Entry)
    requires e.stat.Some? && e.first.Some?
  {
    || (HashAt(rules.baseline, e.path) == Some(e.first.value.sha256)
        && e.first.value.size == e.stat.value.0)
    || Excluded(rules, e.path, e.first.value.sha256)
  }

  /** A file that may be the outgoing turn, stable or not. */
  predicate Potential(rules: Rules, e: Entry) {
    && Considered(e) && EarlyError(rules, e).None?
    && e.stat.value.0 <= rules.maxSize && !Known(rules, e)
  }

  function SampleOf(rules: Rules, e: Entry): Sample
    requires e.stat.Some?
  {
    Sample(e.path, e.stat.value.0, e.stat.value.1, rules.now, rules.session)
  }

  predicate StableIn(rules: Rules, obs: seq<Sample>, e: Entry)
    requires e.stat.Some?
  {
    IsStable(obs, e.path, e.stat.value.0, e.stat.value.1, rules.now)
  }

  /** What the second read of a stable file makes of it. */
  function Reread(rules: Rules, e: Entry): Option<Candidate>
    requires e.stat.Some? && e.second.Some?
  {
    var again := e.second.value;
    if again.size != e.stat.value.0 || Excluded(rules, e.path, again.sha256) then None
    else Some(Candidate(e.path, again.sha256, e.stat.value.0))
  }

  // ----- the pass -----

  datatype Pass = Pass(error: Option<DetectionOutcome>, obs: seq<Sample>, candidates: seq<Candidate>, potential: bool)

  function Met(rules: Rules, pass: Pass, e: Entry): Pass {
    if pass.error.Some? || !Considered(e) then pass
    else if EarlyError(rules, e).Some? then pass.(error := EarlyError(rules, e))
    else if !Potential(rules, e) then pass
    else
      var obs := Merge(pass.obs, SampleOf(rules, e));
      var seen := pass.(obs := obs, potential := true);
      if !StableIn(rules, obs, e) then seen
      else if e.second.None? then seen.(error := Some(IoFailure))
      else match Reread(rules, e)
        case None => seen
        case Some(c) => seen.(candidates := pass.candidates + [c])
  }

  function Passed(rules: Rules, start: seq<Sample>, entries: seq<Entry>): Pass {
    if entries == [] then Pass(None, start, [], false)
    else Met(rules, Passed(rules, start, entries[..|entries| - 1]), Detect.Last(entries))
  }

  function Concluded(pass: Pass): Detection {
    if pass.error.Some? then Detection(pass.error.value, [], [])
    else if |pass.candidates| > 1 then Detection(MultipleCandidates, pass.candidates, pass.obs)
    else if |pass.candidates| == 1 then Detection(OneCandidate, pass.candidates, pass.obs)
    else Detection(if pass.potential then Stabilizing else NoCandidate, [], pass.obs)
  }

  lemma {:induction false} ErrorStays(rules: Rules, start: seq<Sample>, entries: seq<Entry>, i: nat)
    requires i <= |entries| && Passed(rules, start, entries[..i]).error.Some?
    ensures Passed(rules, start, entries) == Passed(rules, start, entries[..i])
    decreases |entries|
  {
    if i == |entries| {
      assert entries[..i] == entries;
    } else {
      var before := entries[..|entries| - 1];
      assert before[..i] == entries[..i];
      ErrorStays(rules, start, before, i);
    }
  }

  predicate Indexes(baseline: seq<BaselineEntry>, byPath: map<LocalPath, Digest>, hashes: set<Digest>, p: LocalPath) {
    HashAt(baseline, p) == (if p in byPath then Some(byPath[p]) else None) && hashes == Hashes(baseline)
  }

  /** One file of the pass. */
  method Meet(rules: Rules, byPath: map<LocalPath, Digest>, hashes: set<Digest>, pass: Pass, e: Entry)
    returns (pass': Pass)
    requires pass.error.None? && Indexes(rules.baseline, byPath, hashes, e.path)
    ensures pass' == Met(rules, pass, e)
  {
    if e.link || !e.file || !e.matches { return pass; }
    if !e.contained { return pass.(error := Some(ContainmentFailure)); }
    if e.stat.None? { return pass.(error := Some(IoFailure)); }
    var size := e.stat.value.0;
    if size > rules.maxSize { return pass; }
    if e.first.None? { return pass.(error := Some(IoFailure)); }
    var digest := e.first.value.sha256;
    if e.path in byPath && digest == byPath[e.path] && e.first.value.size == size { return pass; }
    if digest in rules.excluded { return pass; }
    if e.path !in byPath && digest in hashes { return pass; }
    var observations := Merge(pass.obs, SampleOf(rules, e));
    pass' := pass.(obs := observations, potential := true);
    if !StableIn(rules, observations, e) { return pass'; }
    if e.second.None? { return pass'.(error := Some(IoFailure)); }
    var again := e.second.value;
    if again.size != size { return pass'; }
    if again.sha256 in rules.excluded { return pass'; }
    if e.path !in byPath && again.sha256 in hashes { return pass'; }
    return pass'.(candidates := pass'.candidates + [Candidate(e.path, again.sha256, size)]);
  }

  method ObserveOutgoingCandidates(rules: Rules, remembered: seq<Sample>, entries: seq<Entry>)
    returns (d: Detection)
    ensures d == Concluded(Passed(rules, Filter(remembered, InSession(rules.session)), entries))
  {
    var byPath, hashes := BaselineIndex(rules.baseline);
    var start := Filter(remembered, InSession(rules.session));
    var pass := Pass(None, start, [], false);
    for i := 0 to |entries|
      invariant pass == Passed(rules, start, entries[..i]) && pass.error.None?
    {
      assert entries[..i + 1][..i] == entries[..i] && Detect.Last(entries[..i + 1]) == entries[i];
      pass := Meet(rules, byPath, hashes, pass, entries[i]);
      if pass.error.Some? {
        ErrorStays(rules, start, entries, i + 1);
        return Detection(pass.error.value, [], []);
      }
    }
    assert entries[..|entries|] == entries;
    if |pass.candidates| > 1 { return Detection(MultipleCandidates, pass.candidates, pass.obs); }
    if |pass.candidates| == 1 { return Detection(OneCandidate, pass.candidates, pass.obs); }
    return Detection(if pass.potential then Stabilizing else NoCandidate, [], pass.obs);
  }

  // ----- exactness -----

  predicate DistinctPaths(entries: seq<Entry>) {
    forall i, j :: 0 <= i < j < |entries| ==> entries[i].path != entries[j].path
  }

  /** Judged by the remembered samples of its own file alone, the entry is stable now. */
  predicate StableNow(rules: Rules, start: seq<Sample>, e: Entry)
    requires e.stat.Some?
  {
    StableIn(rules, Merge(start, SampleOf(rules, e)), e)
  }

  /** The file is offered: unknown, stable, and its second read still qualifies. */
  function Offer(rules: Rules, start: seq<Sample>, e: Entry): Option<Candidate> {
    if Potential(rules, e) && StableNow(rules, start, e) && e.second.Some? then Reread(rules, e) else None
  }

  predicate Fails(rules: Rules, start: seq<Sample>, e: Entry) {
    Considered(e) && (EarlyError(rules, e).Some?
                      || (Potential(rules, e) && StableNow(rules, start, e) && e.second.None?))
  }

  /** Other files' samples, merged before, do not change a file's own. */
  lemma {:induction false} OwnSamplesKept(rules: Rules, start: seq<Sample>, entries: seq<Entry>, p: LocalPath)
    requires forall x | x in start :: x.session == rules.session
    requires forall e | e in entries :: e.path != p
    ensures forall x | x in Passed(rules, start, entries).obs :: x.session == rules.session
    ensures ForPath(Passed(rules, start, entries).obs, p) == ForPath(start, p)
    decreases |entries|
  {
    if entries != [] {
      var before, e := entries[..|entries| - 1], Detect.Last(entries);
      assert forall x | x in before :: x in entries;
      assert e in entries;
      OwnSamplesKept(rules, start, before, p);
      var pass := Passed(rules, start, before);
      if Passed(rules, start, entries).obs != pass.obs {
        FilterAll(pass.obs, InSession(rules.session));
        MergeForPath(pass.obs, SampleOf(rules, e), p);
        MergeKeepsSession(pass.obs, SampleOf(rules, e));
      }
    }
  }

  lemma MergeKeepsSession(obs: seq<Sample>, x: Sample)
    ensures forall y | y in Merge(obs, x) :: y.session == x.session
  {
    var scoped := Filter(obs, InSession(x.session));
    assert forall y | y in ForPath(scoped, x.path) :: y in scoped;
  }

  /** Stability of an entry is judged by its own file's samples. */
  lemma StabilityIsOwn(rules: Rules, start: seq<Sample>, obs: seq<Sample>, e: Entry)
    requires e.stat.Some? && ForPath(obs, e.path) == ForPath(start, e.path)
    requires forall x | x in start + obs :: x.session == rules.session
    ensures StableIn(rules, Merge(obs, SampleOf(rules, e)), e) <==> StableNow(rules, start, e)
  {
    var x := SampleOf(rules, e);
    assert forall y | y in start :: y in start + obs;
    assert forall y | y in obs :: y in start + obs;
    FilterAll(start, InSession(rules.session));
    FilterAll(obs, InSession(rules.session));
    MergeForPath(start, x, e.path);
    MergeForPath(obs, x, e.path);
    StableByPath(Merge(obs, x), Merge(start, x), e.path, x.size, x.mtime, rules.now);
  }

  lemma StableByPath(obs: seq<Sample>, obs': seq<Sample>, p: LocalPath, size: nat, mtime: int, now: real)
    requires ForPath(obs, p) == ForPath(obs', p)
    ensures IsStable(obs, p, size, mtime, now) <==> IsStable(obs', p, size, mtime, now)
  {
    FilterTwice(obs, OnPath(p), MatchingFile(p, size, mtime));
    FilterTwice(obs', OnPath(p), MatchingFile(p, size, mtime));
  }

  function Offers(rules: Rules, start: seq<Sample>, entries: seq<Entry>): seq<Candidate> {
    if entries == [] then []
    else
      Offers(rules, start, entries[..|entries| - 1])
      + (match Offer(rules, start, Detect.Last(entries)) case None => [] case Some(c) => [c])
  }

  /** Meeting one file adds its offer, if any. */
  lemma MetIsOffer(rules: Rules, start: seq<Sample>, pass: Pass, e: Entry)
    requires pass.error.None? && !Fails(rules, start, e)
    requires forall x | x in start + pass.obs :: x.session == rules.session
    requires ForPath(pass.obs, e.path) == ForPath(start, e.path)
    ensures var met := Met(rules, pass, e);
            && met.error.None? && (met.potential <==> pass.potential || Potential(rules, e))
            && met.candidates == pass.candidates
                 + (match Offer(rules, start, e) case None => [] case Some(c) => [c])
  {
    if Potential(rules, e) {
      StabilityIsOwn(rules, start, pass.obs, e);
    }
  }

  /** A pass over distinct files, none of which fails, offers exactly the files that
      qualify one by one, in order, and has seen activity exactly when some file might be
      the outgoing turn. */
  lemma {:induction false} PassIsExact(rules: Rules, start: seq<Sample>, entries: seq<Entry>)
    requires forall x | x in start :: x.session == rules.session
    requires DistinctPaths(entries) && forall e | e in entries :: !Fails(rules, start, e)
    ensures var pass := Passed(rules, start, entries);
            && pass.error.None? && pass.candidates == Offers(rules, start, entries)
            && (pass.potential <==> exists e | e in entries :: Potential(rules, e))
    decreases |entries|
  {
    if entries != [] {
      var before, e := entries[..|entries| - 1], Detect.Last(entries);
      assert entries == before + [e];
      PassIsExact(rules, start, before);
      OwnSamplesKept(rules, start, before, e.path);
      MetIsOffer(rules, start, Passed(rules, start, before), e);
      assert (exists f | f in entries :: Potential(rules, f)) <==>
             (exists f | f in before :: Potential(rules, f)) || Potential(rules, e);
    }
  }

  /** The reported outcome, file by file. */
  lemma DetectionIsExact(rules: Rules, remembered: seq<Sample>, entries: seq<Entry>)
    requires var start := Filter(remembered, InSession(rules.session));
             DistinctPaths(entries) && forall e | e in entries :: !Fails(rules, start, e)
    ensures var start := Filter(remembered, InSession(rules.session));
            var d := Concluded(Passed(rules, start, entries));
            && d.candidates == Offers(rules, start, entries)
            && (d.outcome == NoCandidate <==> forall e | e in entries :: !Potential(rules, e))
            && (d.outcome == Stabilizing <==>
                  d.candidates == [] && exists e | e in entries :: Potential(rules, e))
            && (d.outcome == OneCandidate <==> |d.candidates| == 1)
            && (d.outcome == MultipleCandidates <==> |d.candidates| > 1)
  {
    var start := Filter(remembered, InSession(rules.session));
    PassIsExact(rules, start, entries);
    OffersArePotential(rules, start, entries);
    var offers := Offers(rules, start, entries);
    if offers != [] {
      assert offers[0] in offers;
    }
  }

  /** What a failing file ends the pass with. */
  function FailureOf(rules: Rules, e: Entry): DetectionOutcome {
    if EarlyError(rules, e).Some? then EarlyError(rules, e).value else IoFailure
  }

  /** The first file that fails ends the pass: with its own failure, and nothing offered or
      remembered of the files before it. */
  lemma FirstFailureEnds(rules: Rules, remembered: seq<Sample>, entries: seq<Entry>, i: nat)
    requires var start := Filter(remembered, InSession(rules.session));
             && i < |entries| && DistinctPaths(entries) && Fails(rules, start, entries[i])
             && forall j | 0 <= j < i :: !Fails(rules, start, entries[j])
    ensures var start := Filter(remembered, InSession(rules.session));
            Concluded(Passed(rules, start, entries)) == Detection(FailureOf(rules, entries[i]), [], [])
  {
    var start := Filter(remembered, InSession(rules.session));
    var before, e, met := entries[..i], entries[i], entries[..i + 1];
    assert met[..i] == before && Detect.Last(met) == e && met == before + [e];
    PassIsExact(rules, start, before);
    OwnSamplesKept(rules, start, before, e.path);
    MetFails(rules, start, Passed(rules, start, before), e);
    ErrorStays(rules, start, entries, i + 1);
  }

  lemma MetFails(rules: Rules, start: seq<Sample>, pass: Pass, e: Entry)
    requires pass.error.None? && Fails(rules, start, e)
    requires forall x | x in start + pass.obs :: x.session == rules.session
    requires ForPath(pass.obs, e.path) == ForPath(start, e.path)
    ensures Met(rules, pass, e).error == Some(FailureOf(rules, e))
  {
    if Potential(rules, e) { StabilityIsOwn(rules, start, pass.obs, e); }
  }

  /** So the pass reports a failure exactly when some file fails. */
  lemma FailsExactlyWhen(rules: Rules, remembered: seq<Sample>, entries: seq<Entry>)
    requires DistinctPaths(entries)
    ensures var start := Filter(remembered, InSession(rules.session));
            var outcome := Concluded(Passed(rules, start, entries)).outcome;
            outcome == IoFailure || outcome == ContainmentFailure <==> exists e | e in entries :: Fails(rules, start, e)
  {
    var start := Filter(remembered, InSession(rules.session));
    if exists e | e in entries :: Fails(rules, start, e) {
      var e :| e in entries && Fails(rules, start, e);
      var k :| 0 <= k < |entries| && entries[k] == e;
      var i := FirstFailing(rules, start, entries, k);
      FirstFailureEnds(rules, remembered, entries, i);
    } else {
      DetectionIsExact(rules, remembered, entries);
    }
  }

  lemma {:induction false} FirstFailing(rules: Rules, start: seq<Sample>, entries: seq<Entry>, k: nat)
    returns (i: nat)
    requires k < |entries| && Fails(rules, start, entries[k])
    ensures i <= k && Fails(rules, start, entries[i]) && forall j | 0 <= j < i :: !Fails(rules, start, entries[j])
  {
    i := k;
    if j :| 0 <= j < k && Fails(rules, start, entries[j]) {
      i := FirstFailing(rules, start, entries, j);
    }
  }

  lemma {:induction false} OffersArePotential(rules: Rules, start: seq<Sample>, entries: seq<Entry>)
    ensures forall c | c in Offers(rules, start, entries) ::
              exists e | e in entries :: Potential(rules, e) && Offer(rules, start, e) == Some(c)
    decreases |entries|
  {
    if entries != [] {
      var before, e := entries[..|entries| - 1], Detect.Last(entries);
      assert entries == before + [e];
      OffersArePotential(rules, start, before);
      forall c | c in Offers(rules, start, entries)
        ensures exists e | e in entries :: Potential(rules, e) && Offer(rules, start, e) == Some(c)
      {
        if c in Offers(rules, start, before) {
          var f :| f in before && Potential(rules, f) && Offer(rules, start, f) == Some(c);
          assert f in entries;
        } else {
          assert e in entries && Offer(rules, start, e) == Some(c);
        }
      }
    }
  }

  // ----- novelty of what is offered -----

  /** A processed, accepted or downloaded hash is never offered. */
  lemma ExcludedIsNeverOffered(rules: Rules, start: seq<Sample>, e: Entry)
    requires Offer(rules, start, e).Some?
    ensures Offer(rules, start, e).value.sha256 !in rules.excluded
  {
  }

  /** The file may be the outgoing turn, is stable, and was read again whole: its second
      read decides. */
  predicate Ready(rules: Rules, start: seq<Sample>, e: Entry) {
    && Potential(rules, e) && StableNow(rules, start, e)
    && e.second.Some? && e.second.value.size == e.stat.value.0
  }

  /** The design's rule: the hash is neither excluded nor in the play-session baseline. */
  predicate Novel(rules: Rules, d: Digest) {
    d !in rules.excluded && d !in Hashes(rules.baseline)
  }

  lemma {:induction false} HashAtIsHash(baseline: seq<BaselineEntry>, p: LocalPath)
    ensures HashAt(baseline, p).Some? ==> HashAt(baseline, p).value in Hashes(baseline)
  {
    if baseline != [] {
      HashAtIsHash(baseline[1..], p);
      assert baseline[0] in baseline;
    }
  }

  /** Which files are offered, and as what: by the second read, a hash that is not excluded
      and, where the baseline did not record the path, not in the baseline. */
  lemma OfferedExactlyWhen(rules: Rules, start: seq<Sample>, e: Entry)
    ensures Offer(rules, start, e).Some? <==>
              && Ready(rules, start, e) && e.second.value.sha256 !in rules.excluded
              && (HashAt(rules.baseline, e.path).None? ==> e.second.value.sha256 !in Hashes(rules.baseline))
    ensures Offer(rules, start, e).Some? ==>
              Offer(rules, start, e) == Some(Candidate(e.path, e.second.value.sha256, e.stat.value.0))
  {
  }

  /** For every file, the code offers it exactly when the design's rule does, except where
      the baseline recorded the path and the second read shows the hash of a baseline file,
      its own or another: then it is offered against the rule. */
  lemma BaselineRuleHoldsExactlyWhen(rules: Rules, start: seq<Sample>, e: Entry)
    ensures (Offer(rules, start, e).Some? <==>
               Ready(rules, start, e) && Novel(rules, e.second.value.sha256)) <==>
              !(&& Ready(rules, start, e) && e.second.value.sha256 !in rules.excluded
                && HashAt(rules.baseline, e.path).Some? && e.second.value.sha256 in Hashes(rules.baseline))
    ensures var o := Offer(rules, start, e);
            o.Some? ==> (o.value.sha256 in Hashes(rules.baseline) <==>
                           && HashAt(rules.baseline, e.path).Some?
                           && e.second.value.sha256 in Hashes(rules.baseline))
  {
    OfferedExactlyWhen(rules, start, e);
  }

  /** A file that read the same twice is offered with a baseline hash only when it carries
      another file's: its own recorded hash takes a file restored between the two reads. */
  lemma OwnBaselineHashNeedsARace(rules: Rules, start: seq<Sample>, e: Entry)
    requires Offer(rules, start, e).Some?
    requires Some(Offer(rules, start, e).value.sha256) == HashAt(rules.baseline, e.path)
    ensures e.first != e.second && Offer(rules, start, e).value.sha256 in Hashes(rules.baseline)
  {
    OfferedExactlyWhen(rules, start, e);
    HashAtIsHash(rules.baseline, e.path);
  }

  function CopiedRules(a: Digest, b: Digest, session: Session): Rules {
    Rules(session, [BaselineEntry(0, a), BaselineEntry(1, b)], {}, 100, 2.0)
  }

  function CopiedEntry(b: Digest): Entry {
    Entry(0, false, true, true, true, Some((10, 7)), Some(Fingerprint(b, 10)), Some(Fingerprint(b, 10)))
  }

  /** One earlier sample, two seconds old, of a file that has not changed since. */
  lemma OldEnoughIsStable(rules: Rules, e: Entry)
    requires rules.now == 2.0 && e.path == 0 && e.stat == Some((10, 7))
    ensures StableNow(rules, [Sample(0, 10, 7, 0.0, rules.session)], e)
  {
    var x, y := Sample(0, 10, 7, 0.0, rules.session), Sample(0, 10, 7, 2.0, rules.session);
    FilterAll([x], InSession(rules.session));
    FilterAll([x], OnPath(0));
    MergeForPath([x], y, 0);
    assert ForPath(Merge([x], y), 0) == [x, y];
    StableFromSamples(Merge([x], y), y, 2.0);
  }

  /** Such a file: two baseline saves, one of them copied over the other. */
  lemma CopiedBaselineSaveIsOffered(a: Digest, b: Digest, session: Session)
    requires a != b
    ensures var rules, e := CopiedRules(a, b, session), CopiedEntry(b);
            Offer(rules, [Sample(0, 10, 7, 0.0, session)], e) == Some(Candidate(0, b, 10)) && !Novel(rules, b)
  {
    var rules := CopiedRules(a, b, session);
    OldEnoughIsStable(rules, CopiedEntry(b));
    assert rules.baseline[1..] == [BaselineEntry(1, b)];
    assert HashAt([BaselineEntry(1, b)], 0) == None;
    assert HashAt(rules.baseline, 0) == Some(a);
    assert BaselineEntry(1, b) in rules.baseline;
  }

  /** And one with its own hash: the baseline save itself, restored between the two reads. */
  lemma RestoredBaselineSaveIsOffered(a: Digest, x: Digest, session: Session)
    requires a != x
    ensures var rules := Rules(session, [BaselineEntry(0, a)], {}, 100, 2.0);
            var e := Entry(0, false, true, true, true, Some((10, 7)), Some(Fingerprint(x, 10)),
                           Some(Fingerprint(a, 10)));
            Offer(rules, [Sample(0, 10, 7, 0.0, session)], e) == Some(Candidate(0, a, 10)) && !Novel(rules, a)
  {
    var rules := Rules(session, [BaselineEntry(0, a)], {}, 100, 2.0);
    var e := Entry(0, false, true, true, true, Some((10, 7)), Some(Fingerprint(x, 10)),
                   Some(Fingerprint(a, 10)));
    OldEnoughIsStable(rules, e);
    assert HashAt(rules.baseline, 0) == Some(a);
    assert BaselineEntry(0, a) in rules.baseline;
  }
}
