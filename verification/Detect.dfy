/** Stability of outgoing saves: two remembered samples per file stand for the whole poll
    history. */
module Detect {
  import opened Domain
  import opened Filters

  type LocalPath = nat

  /** The play session whose baseline the samples belong to. */
  datatype Session = Session(sequence: nat, accepted: Option<Digest>, recordedAt: Timestamp)

  /** One observation of a file at a poll; times are in seconds. */
  datatype Sample = Sample(path: LocalPath, size: nat, mtime: int, at: real, session: Session)

  const STABILITY_INTERVAL := 1.0
  const MAX_OBSERVATIONS_PER_PATH := 2

  function InSession(s: Session): Sample -> bool { (x: Sample) => x.session == s }
  function OnPath(p: LocalPath): Sample -> bool { (x: Sample) => x.path == p }
  function OffPath(p: LocalPath): Sample -> bool { (x: Sample) => x.path != p }

  function ForPath(obs: seq<Sample>, p: LocalPath): seq<Sample> { Filter(obs, OnPath(p)) }

  predicate SameFile(a: Sample, b: Sample) {
    a.size == b.size && a.mtime == b.mtime
  }

  function Last<T>(s: seq<T>): T
    requires s != []
  {
    s[|s| - 1]
  }

  /** Oldest and newest, so a later poll at the same time cannot erase the gap the first
      sample proved. */
  function Ends(s: seq<Sample>): (r: seq<Sample>)
    ensures forall y | y in r :: y in s
  {
    if |s| > MAX_OBSERVATIONS_PER_PATH then [s[0], Last(s)] else s
  }

  /** A new sample drops those of other sessions, and those of its own file once its size
      or time of change differs. */
  function Merge(existing: seq<Sample>, x: Sample): seq<Sample> {
    var scoped := Filter(existing, InSession(x.session));
    var mine := ForPath(scoped, x.path);
    var kept := if mine != [] && !SameFile(Last(mine), x) then [] else mine;
    Filter(scoped, OffPath(x.path)) + Ends(kept + [x])
  }

  function Inserted(t: real, times: seq<real>): seq<real> {
    if times == [] || t <= times[0] then [t] + times else [times[0]] + Inserted(t, times[1..])
  }

  function Sorted(times: seq<real>): seq<real> {
    if times == [] then [] else Inserted(times[0], Sorted(times[1..]))
  }

  function Times(samples: seq<Sample>): seq<real> {
    seq(|samples|, i requires 0 <= i < |samples| => samples[i].at)
  }

  predicate HasGap(times: seq<real>) {
    exists i :: 0 <= i < |times| - 1 && times[i + 1] - times[i] >= STABILITY_INTERVAL
  }

  function MatchingFile(p: LocalPath, size: nat, mtime: int): Sample -> bool {
    (x: Sample) => x.path == p && x.size == size && x.mtime == mtime
  }

  predicate IsStable(obs: seq<Sample>, p: LocalPath, size: nat, mtime: int, now: real) {
    var samples := Filter(obs, MatchingFile(p, size, mtime));
    |samples| >= 2
    && (HasGap(Sorted(Times(samples))) || now - samples[0].at >= STABILITY_INTERVAL)
  }

  // ----- the whole history -----

  /** What is remembered after these polls, of any files and in any sessions. */
  function Polled(polls: seq<Sample>): seq<Sample> {
    if polls == [] then [] else Merge(Polled(polls[..|polls| - 1]), Last(polls))
  }

  /** The longest run of polls at the end that belongs to this session. */
  function Recent(polls: seq<Sample>, session: Session): seq<Sample> {
    if polls == [] || Last(polls).session != session then []
    else Recent(polls[..|polls| - 1], session) + [Last(polls)]
  }

  /** `Recent` is that run: the end of the history, in the session, and not extendable. */
  lemma {:induction false} RecentIsMaximal(polls: seq<Sample>, session: Session)
    ensures var run := Recent(polls, session);
            && EndOf(run, polls) && (forall y | y in run :: y.session == session)
            && (|run| < |polls| ==> polls[|polls| - |run| - 1].session != session)
    decreases |polls|
  {
    if polls != [] && Last(polls).session == session {
      var before, x := polls[..|polls| - 1], Last(polls);
      RecentIsMaximal(before, session);
      var run := Recent(before, session);
      assert polls[|polls| - |run + [x]|..] == before[|before| - |run|..] + [x];
    }
  }

  /** The longest run of samples at the end that saw the file unchanged. */
  function Unchanged(h: seq<Sample>): (s: seq<Sample>)
    ensures h != [] ==> s != [] && Last(s) == Last(h)
    ensures |s| <= |h|
  {
    if |h| <= 1 then h
    else if SameFile(h[|h| - 2], Last(h)) then Unchanged(h[..|h| - 1]) + [Last(h)]
    else [Last(h)]
  }

  lemma UnchangedGrows(h: seq<Sample>, x: Sample)
    ensures Unchanged(h + [x]) == if h != [] && SameFile(Last(h), x) then Unchanged(h) + [x] else [x]
  {
    assert (h + [x])[..|h|] == h;
  }

  /** The samples at the end of the history, in order. */
  predicate EndOf(run: seq<Sample>, h: seq<Sample>) {
    |run| <= |h| && h[|h| - |run|..] == run
  }

  /** `Unchanged` is that run: the end of the history, constant, and not extendable. */
  lemma {:induction false} UnchangedIsMaximal(h: seq<Sample>)
    requires h != []
    ensures EndOf(Unchanged(h), h)
    ensures forall y | y in Unchanged(h) :: SameFile(y, Last(h))
    ensures |Unchanged(h)| < |h| ==> !SameFile(h[|h| - |Unchanged(h)| - 1], Last(h))
  {
    if |h| > 1 {
      var g, x := h[..|h| - 1], Last(h);
      assert h == g + [x];
      UnchangedIsMaximal(g);
      UnchangedGrows(g, x);
      if SameFile(Last(g), x) {
        assert h[|h| - |Unchanged(h)|..] == g[|g| - |Unchanged(g)|..] + [x];
      }
    }
  }

  /** A poll forgets every other session. */
  lemma PolledInSession(polls: seq<Sample>)
    requires polls != []
    ensures forall x | x in Polled(polls) :: x.session == Last(polls).session
  {
    var before, x := Polled(polls[..|polls| - 1]), Last(polls);
    var scoped := Filter(before, InSession(x.session));
    var mine := ForPath(scoped, x.path);
    assert forall y | y in mine :: y in scoped;
  }

  /** What a merge does to each path's samples. */
  lemma MergeForPath(obs: seq<Sample>, x: Sample, p: LocalPath)
    ensures var before := ForPath(Filter(obs, InSession(x.session)), p);
            ForPath(Merge(obs, x), p) ==
              if p != x.path then before
              else Ends((if before != [] && !SameFile(Last(before), x) then [] else before) + [x])
  {
    var scoped := Filter(obs, InSession(x.session));
    var mine := ForPath(scoped, x.path);
    var kept := if mine != [] && !SameFile(Last(mine), x) then [] else mine;
    var others, own := Filter(scoped, OffPath(x.path)), Ends(kept + [x]);
    FilterAppend(others, own, OnPath(p));
    forall y | y in own ensures y.path == x.path {
      assert y in kept || y == x;
    }
    if p == x.path {
      FilterNone(others, OnPath(p));
      FilterAll(own, OnPath(p));
    } else {
      FilterTwice(scoped, OffPath(x.path), OnPath(p));
      FilterNone(own, OnPath(p));
    }
  }

  /** After any history of polls, of any files and across sessions: what is remembered of a
      file in a session are the ends of the run that saw it unchanged, among the polls
      since the session last began.  A poll of one file never disturbs another. */
  lemma {:induction false} TwoSamplesStandForHistory(polls: seq<Sample>, session: Session, p: LocalPath)
    ensures ForPath(Filter(Polled(polls), InSession(session)), p) ==
            Ends(Unchanged(ForPath(Recent(polls, session), p)))
    decreases |polls|
  {
    if polls != [] {
      var before, x := polls[..|polls| - 1], Last(polls);
      PolledInSession(polls);
      if x.session != session {
        FilterNone(Polled(polls), InSession(session));
      } else {
        TwoSamplesStandForHistory(before, session, p);
        FilterAll(Polled(polls), InSession(session));
        MergeForPath(Polled(before), x, p);
        var recent := Recent(before, session);
        FilterAppend(recent, [x], OnPath(p));
        HistoryGrows(ForPath(recent, p), x, p, ForPath(Recent(polls, session), p));
      }
    }
  }

  lemma EndsGrows(s: seq<Sample>, x: Sample)
    ensures Ends(s + [x]) == Ends(Ends(s) + [x])
  {
  }

  lemma HistoryGrows(h: seq<Sample>, x: Sample, p: LocalPath, h': seq<Sample>)
    requires h' == h + Filter([x], OnPath(p))
    ensures var before := Ends(Unchanged(h));
            Ends(Unchanged(h')) ==
              if p != x.path then before
              else Ends((if before != [] && !SameFile(Last(before), x) then [] else before) + [x])
  {
    if p != x.path {
      assert h' == h;
    } else {
      assert h' == h + [x];
      UnchangedGrows(h, x);
      EndsGrows(Unchanged(h), x);
      assert h != [] ==> Last(Ends(Unchanged(h))) == Last(h);
    }
  }

  // ----- stability -----

  /** The first and last samples of a run are a stability interval apart, whichever way the
      clock went. */
  predicate Apart(run: seq<Sample>)
    requires run != []
  {
    Last(run).at - run[0].at >= STABILITY_INTERVAL || run[0].at - Last(run).at >= STABILITY_INTERVAL
  }

  lemma TwoAreSorted(a: Sample, b: Sample)
    ensures HasGap(Sorted(Times([a, b]))) <==> Apart([a, b])
  {
    assert Times([a, b]) == [a.at, b.at];
    assert [a.at, b.at][1..] == [b.at];
    assert Sorted([b.at]) == [b.at];
    var sorted := if a.at <= b.at then [a.at, b.at] else [b.at, a.at];
    assert Inserted(a.at, [b.at]) == sorted by {
      assert [b.at][1..] == [] && Inserted(a.at, []) == [a.at];
    }
    if Apart([a, b]) {
      assert sorted[0 + 1] - sorted[0] >= STABILITY_INTERVAL;
    }
  }

  /** A file's stability depends only on its own remembered samples. */
  lemma StableFromSamples(obs: seq<Sample>, x: Sample, now: real)
    requires forall y | y in ForPath(obs, x.path) :: SameFile(y, x)
    requires |ForPath(obs, x.path)| <= 2
    requires |ForPath(obs, x.path)| == 2 ==> ForPath(obs, x.path)[1].at == now
    ensures IsStable(obs, x.path, x.size, x.mtime, now) <==>
              |ForPath(obs, x.path)| == 2 && Apart(ForPath(obs, x.path))
  {
    var mine := ForPath(obs, x.path);
    FilterTwice(obs, OnPath(x.path), MatchingFile(x.path, x.size, x.mtime));
    FilterAll(mine, MatchingFile(x.path, x.size, x.mtime));
    if |mine| == 2 {
      assert mine == [mine[0], mine[1]];
      TwoAreSorted(mine[0], mine[1]);
    }
  }

  /** After any history of polls, the file polled last is stable exactly when the run of
      samples that saw it unchanged in this session has at least two of them, the first and
      the last at least one second apart. */
  lemma StableExactly(polls: seq<Sample>)
    requires polls != []
    ensures var x := Last(polls);
            var run := Unchanged(ForPath(Recent(polls, x.session), x.path));
            && run != []
            && (IsStable(Polled(polls), x.path, x.size, x.mtime, x.at) <==> |run| >= 2 && Apart(run))
  {
    var x, obs := Last(polls), Polled(polls);
    var recent := Recent(polls, x.session);
    TwoSamplesStandForHistory(polls, x.session, x.path);
    PolledInSession(polls);
    FilterAll(obs, InSession(x.session));
    LastIsPolled(recent);
    EndsApart(ForPath(recent, x.path), x);
    StableFromSamples(obs, x, x.at);
  }

  lemma LastIsPolled(polls: seq<Sample>)
    requires polls != []
    ensures ForPath(polls, Last(polls).path) != [] && Last(ForPath(polls, Last(polls).path)) == Last(polls)
  {
    var x := Last(polls);
    assert polls == polls[..|polls| - 1] + [x];
    FilterAppend(polls[..|polls| - 1], [x], OnPath(x.path));
  }

  /** The two kept ends of an unchanged run: both saw the file as it is now. */
  lemma EndsApart(h: seq<Sample>, x: Sample)
    requires h != [] && Last(h) == x
    ensures var run, ends := Unchanged(h), Ends(Unchanged(h));
            && run != [] && 1 <= |ends| <= 2 && (|ends| == 2 <==> |run| >= 2)
            && Last(ends) == x && (Apart(ends) <==> Apart(run))
            && forall y | y in ends :: SameFile(y, x)
  {
    UnchangedIsMaximal(h);
  }
}
