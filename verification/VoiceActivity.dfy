/** Turning per-frame speech probabilities into regions: one loop computes the unique clustering of the frames. */
module VoiceActivity {
  import opened Wrappers
  import opened Basics

  const WINDOW_SAMPLES := 512
  const SAMPLE_RATE := 16_000

  function CeilDiv(a: int, b: int): int
    requires b > 0
  {
    -((-a) / b)
  }

  datatype Settings = Settings(threshold: real, minSpeechMs: int, minSilenceMs: int, padMs: int) {
    /** The ranges the configuration allows. */
    predicate Valid() {
      minSpeechMs >= 32 && minSilenceMs >= 32 && padMs >= 0
    }

    function MinSpeechSamples(): int { CeilDiv(SAMPLE_RATE * minSpeechMs, 1000) }

    function MinSilenceFrames(): int { Max(1, CeilDiv(SAMPLE_RATE * minSilenceMs, 1000 * WINDOW_SAMPLES)) }

    function PadSamples(): int { CeilDiv(SAMPLE_RATE * padMs, 1000) }
  }

  /** Positions are samples. */
  datatype Region = Region(start: int, end: int, confidence: real)

  /** The first and last voiced frame of a stretch of speech. */
  datatype Cluster = Cluster(first: nat, last: nat)

  function Voiced(probabilities: seq<real>, threshold: real): (v: seq<bool>)
    ensures |v| == |probabilities|
    ensures forall i :: 0 <= i < |v| ==> v[i] == (probabilities[i] >= threshold)
  {
    seq(|probabilities|, i requires 0 <= i < |probabilities| => probabilities[i] >= threshold)
  }

  // ---- The declarative clustering ----

  /** Frames i < j are voiced with only silence in between. */
  predicate Neighbours(v: seq<bool>, i: int, j: int) {
    0 <= i < j < |v| && v[i] && v[j] && forall k :: i < k < j ==> !v[k]
  }

  predicate Covers(c: Cluster, i: int) {
    c.first <= i <= c.last
  }

  ghost predicate Covered(cs: seq<Cluster>, i: int) {
    exists k :: 0 <= k < |cs| && Covers(cs[k], i)
  }

  /** Starts and ends voiced, with no long silence inside. */
  ghost predicate Stretch(v: seq<bool>, minSilence: int, c: Cluster) {
    && c.first <= c.last < |v| && v[c.first] && v[c.last]
    && (forall i, j :: c.first <= i && j <= c.last && Neighbours(v, i, j) ==> j - i - 1 < minSilence)
  }

  ghost predicate Separated(minSilence: int, cs: seq<Cluster>) {
    forall k, l :: 0 <= k < l < |cs| ==> cs[l].first - cs[k].last - 1 >= minSilence
  }

  /** Of the first n frames: stretches in order, separated by long silences, that cover every voiced frame. */
  ghost predicate Clustering(v: seq<bool>, n: nat, minSilence: int, cs: seq<Cluster>) {
    && n <= |v| && minSilence >= 1
    && (forall k :: 0 <= k < |cs| ==> Stretch(v, minSilence, cs[k]) && cs[k].last < n)
    && Separated(minSilence, cs)
    && (forall i :: 0 <= i < n && v[i] ==> Covered(cs, i))
  }

  /** Every voiced frame is in exactly one cluster. */
  lemma ClustersAreDisjoint(minSilence: int, cs: seq<Cluster>, i: int, k: int, l: int)
    requires minSilence >= 1 && Separated(minSilence, cs)
    requires 0 <= k < |cs| && 0 <= l < |cs| && Covers(cs[k], i) && Covers(cs[l], i)
    ensures k == l
  {
  }

  lemma ClustersAreInOrder(minSilence: int, cs: seq<Cluster>, i: int, j: int, k: int, l: int)
    requires minSilence >= 1 && Separated(minSilence, cs) && i < j
    requires 0 <= k < |cs| && 0 <= l < |cs| && Covers(cs[k], i) && Covers(cs[l], j)
    ensures k <= l
  {
  }

  lemma SilenceSplits(v: seq<bool>, n: nat, minSilence: int, cs: seq<Cluster>, i: int, j: int, k: int, l: int)
    requires Clustering(v, n, minSilence, cs) && Neighbours(v, i, j)
    requires 0 <= k < |cs| && 0 <= l < |cs| && k != l && Covers(cs[k], i) && Covers(cs[l], j)
    ensures j - i - 1 >= minSilence
  {
    ClustersAreInOrder(minSilence, cs, i, j, k, l);
    assert Stretch(v, minSilence, cs[k]) && Stretch(v, minSilence, cs[l]);
  }

  /** Neighbouring voiced frames share a cluster exactly when fewer than minSilence silent frames lie between them. */
  lemma NeighboursShareOrSplit(v: seq<bool>, n: nat, minSilence: int, cs: seq<Cluster>, i: int, j: int, k: int)
    requires Clustering(v, n, minSilence, cs) && Neighbours(v, i, j) && j < n
    requires 0 <= k < |cs| && Covers(cs[k], i)
    ensures Covers(cs[k], j) <==> j - i - 1 < minSilence
  {
    assert Stretch(v, minSilence, cs[k]);
    if !Covers(cs[k], j) {
      assert Covered(cs, j);
      var l :| 0 <= l < |cs| && Covers(cs[l], j);
      SilenceSplits(v, n, minSilence, cs, i, j, k, l);
    }
  }

  // ---- Regions of clusters ----

  function VoicedEnd(c: Cluster, originalSamples: int): int {
    Min(originalSamples, (c.last + 1) * WINDOW_SAMPLES)
  }

  predicate LongEnough(s: Settings, c: Cluster, originalSamples: int) {
    VoicedEnd(c, originalSamples) - c.first * WINDOW_SAMPLES >= s.MinSpeechSamples()
  }

  function Confidence(p: seq<real>): real
    requires p != []
  {
    var mean := Sum(p) / (|p| as real);
    if mean < 0.0 then 0.0 else if mean > 1.0 then 1.0 else mean
  }

  function RegionOf(s: Settings, c: Cluster, p: seq<real>, originalSamples: int): Region
    requires c.first <= c.last < |p|
  {
    Region(Max(0, c.first * WINDOW_SAMPLES - s.PadSamples()),
           Min(originalSamples, VoicedEnd(c, originalSamples) + s.PadSamples()),
           Confidence(p[c.first..c.last + 1]))
  }

  /** The regions of the clusters that are long enough, in order. */
  function RegionsOf(s: Settings, cs: seq<Cluster>, p: seq<real>, originalSamples: int): seq<Region>
    requires forall k :: 0 <= k < |cs| ==> cs[k].first <= cs[k].last < |p|
  {
    if cs == [] then []
    else
      var c := cs[|cs| - 1];
      RegionsOf(s, cs[..|cs| - 1], p, originalSamples) +
      (if LongEnough(s, c, originalSamples) then [RegionOf(s, c, p, originalSamples)] else [])
  }

  // ---- Growing a clustering frame by frame ----

  /** After n frames: the closed clusters, and the one that further speech would still join. */
  ghost predicate Progress(v: seq<bool>, n: nat, minSilence: int, closed: seq<Cluster>, open: Option<Cluster>) {
    match open
    case None =>
      && Clustering(v, n, minSilence, closed)
      && forall k :: 0 <= k < |closed| ==> n - closed[k].last - 1 >= minSilence
    case Some(c) =>
      Clustering(v, n, minSilence, closed + [c]) && n - c.last - 1 < minSilence
  }

  /** No voiced frame lies beyond the last cluster. */
  lemma LastVoicedIsInLast(minSilence: int, all: seq<Cluster>, i: int)
    requires minSilence >= 1 && Separated(minSilence, all) && Covered(all, i)
    requires all != [] && all[|all| - 1].first <= all[|all| - 1].last
    ensures i <= all[|all| - 1].last
  {
    var k :| 0 <= k < |all| && Covers(all[k], i);
    if k < |all| - 1 {
      assert all[|all| - 1].first - all[k].last - 1 >= minSilence;
    }
  }

  lemma ReachingStretch(v: seq<bool>, n: nat, minSilence: int, c: Cluster)
    requires n < |v| && v[n] && Stretch(v, minSilence, c) && c.last < n && n - c.last - 1 < minSilence
    requires forall i :: 0 <= i < n && v[i] ==> i <= c.last
    ensures Stretch(v, minSilence, c.(last := n))
  {
    forall i, j | c.first <= i && j <= n && Neighbours(v, i, j) ensures j - i - 1 < minSilence {
      if j == n {
        assert v[c.last];
      }
    }
  }

  lemma GrowingCovers(cs: seq<Cluster>, c: Cluster, last: nat, i: int)
    requires Covered(cs + [c], i) && c.last <= last
    ensures Covered(cs + [c.(last := last)], i)
  {
    var k :| 0 <= k < |cs + [c]| && Covers((cs + [c])[k], i);
    assert Covers((cs + [c.(last := last)])[k], i);
  }

  lemma AppendingCovers(cs: seq<Cluster>, c: Cluster, i: int)
    requires Covered(cs, i) || Covers(c, i)
    ensures Covered(cs + [c], i)
  {
    if Covers(c, i) {
      assert Covers((cs + [c])[|cs|], i);
    } else {
      var k :| 0 <= k < |cs| && Covers(cs[k], i);
      assert Covers((cs + [c])[k], i);
    }
  }

  lemma SeparatedByGrowing(minSilence: int, cs: seq<Cluster>, c: Cluster, last: nat)
    requires Separated(minSilence, cs + [c])
    ensures Separated(minSilence, cs + [c.(last := last)])
  {
    var before, after := cs + [c], cs + [c.(last := last)];
    forall k, l | 0 <= k < l < |after| ensures after[l].first - after[k].last - 1 >= minSilence {
      assert before[l].first - before[k].last - 1 >= minSilence;
    }
  }

  lemma SpeechExtendsCluster(v: seq<bool>, n: nat, minSilence: int, cs: seq<Cluster>, c: Cluster)
    requires n < |v| && v[n] && Clustering(v, n, minSilence, cs + [c]) && n - c.last - 1 < minSilence
    ensures Clustering(v, n + 1, minSilence, cs + [c.(last := n)])
  {
    var before, grown := cs + [c], c.(last := n);
    assert Stretch(v, minSilence, before[|cs|]) && before[|cs|].last < n;
    forall i | 0 <= i < n && v[i] ensures i <= c.last {
      LastVoicedIsInLast(minSilence, before, i);
    }
    ReachingStretch(v, n, minSilence, c);
    SeparatedByGrowing(minSilence, cs, c, n);
    forall k | 0 <= k < |cs + [grown]|
      ensures Stretch(v, minSilence, (cs + [grown])[k]) && (cs + [grown])[k].last < n + 1
    {
      if k < |cs| {
        assert before[k] == cs[k];
      }
    }
    forall i | 0 <= i < n + 1 && v[i] ensures Covered(cs + [grown], i) {
      if i < n {
        GrowingCovers(cs, c, n, i);
      } else {
        AppendingCovers(cs, grown, i);
      }
    }
  }

  lemma SpeechStartsCluster(v: seq<bool>, n: nat, minSilence: int, cs: seq<Cluster>)
    requires n < |v| && v[n] && Clustering(v, n, minSilence, cs)
    requires forall k :: 0 <= k < |cs| ==> n - cs[k].last - 1 >= minSilence
    ensures Clustering(v, n + 1, minSilence, cs + [Cluster(n, n)])
  {
    forall i | 0 <= i < n + 1 && v[i] ensures Covered(cs + [Cluster(n, n)], i) {
      AppendingCovers(cs, Cluster(n, n), i);
    }
  }

  lemma SpeechProgresses(v: seq<bool>, n: nat, minSilence: int, closed: seq<Cluster>, open: Option<Cluster>)
    requires n < |v| && v[n] && Progress(v, n, minSilence, closed, open)
    ensures Progress(v, n + 1, minSilence, closed, Some(Cluster(if open.Some? then open.value.first else n, n)))
  {
    if open.None? {
      SpeechStartsCluster(v, n, minSilence, closed);
    } else {
      SpeechExtendsCluster(v, n, minSilence, closed, open.value);
    }
  }

  lemma SilenceWaits(v: seq<bool>, n: nat, minSilence: int, cs: seq<Cluster>)
    requires n < |v| && !v[n] && Clustering(v, n, minSilence, cs)
    ensures Clustering(v, n + 1, minSilence, cs)
  {
    forall i | 0 <= i < n + 1 && v[i] ensures Covered(cs, i) {
      assert i < n;
    }
  }

  lemma EarlierEndEarlier(minSilence: int, all: seq<Cluster>, k: nat)
    requires minSilence >= 1 && Separated(minSilence, all) && k < |all|
    requires all[|all| - 1].first <= all[|all| - 1].last
    ensures all[k].last <= all[|all| - 1].last
  {
    if k < |all| - 1 {
      assert all[|all| - 1].first - all[k].last - 1 >= minSilence;
    }
  }

  lemma SilenceProgresses(v: seq<bool>, n: nat, minSilence: int, closed: seq<Cluster>, open: Option<Cluster>)
    requires n < |v| && !v[n] && Progress(v, n, minSilence, closed, open)
    ensures if open.Some? && n - open.value.last >= minSilence then
              Progress(v, n + 1, minSilence, closed + [open.value], None)
            else
              Progress(v, n + 1, minSilence, closed, open)
  {
    var all := if open.Some? then closed + [open.value] else closed;
    SilenceWaits(v, n, minSilence, all);
    if open.Some? && n - open.value.last >= minSilence {
      assert Stretch(v, minSilence, all[|closed|]);
      forall k | 0 <= k < |all| ensures n + 1 - all[k].last - 1 >= minSilence {
        EarlierEndEarlier(minSilence, all, k);
      }
    }
  }

  // ---- The loop ----

  ghost predicate InFrames(cs: seq<Cluster>, n: nat) {
    forall k :: 0 <= k < |cs| ==> cs[k].first <= cs[k].last < n
  }

  lemma ProgressInFrames(v: seq<bool>, n: nat, minSilence: int, closed: seq<Cluster>, open: Option<Cluster>)
    requires Progress(v, n, minSilence, closed, open)
    ensures InFrames(closed, |v|) && (open.Some? ==> open.value.first <= open.value.last < n)
  {
    var all := if open.Some? then closed + [open.value] else closed;
    forall k | 0 <= k < |closed| ensures closed[k].first <= closed[k].last < |v| {
      assert all[k] == closed[k] && Stretch(v, minSilence, all[k]);
    }
    if open.Some? {
      assert Stretch(v, minSilence, all[|closed|]);
    }
  }

  lemma ProgressEnds(v: seq<bool>, minSilence: int, closed: seq<Cluster>, open: Option<Cluster>)
    requires Progress(v, |v|, minSilence, closed, open)
    ensures var all := if open.Some? then closed + [open.value] else closed;
            Clustering(v, |v|, minSilence, all) && InFrames(all, |v|)
  {
    ProgressInFrames(v, |v|, minSilence, closed, open);
  }

  /** The regions that the audio has, whichever way its frames are clustered. */
  ghost predicate RegionsOfAudio(s: Settings, probabilities: seq<real>, originalSamples: nat, regions: seq<Region>) {
    exists cs :: Clustering(Voiced(probabilities, s.threshold), |probabilities|, s.MinSilenceFrames(), cs)
      && InFrames(cs, |probabilities|) && regions == RegionsOf(s, cs, probabilities, originalSamples)
  }

  lemma ClusteringYieldsRegions(s: Settings, probabilities: seq<real>,
    originalSamples: nat, cs: seq<Cluster>, regions: seq<Region>)
    requires Clustering(Voiced(probabilities, s.threshold), |probabilities|, s.MinSilenceFrames(), cs)
    requires InFrames(cs, |probabilities|) && regions == RegionsOf(s, cs, probabilities, originalSamples)
    ensures RegionsOfAudio(s, probabilities, originalSamples, regions)
  {
  }

  /** One pass over the frames, which closes a cluster once the silence after it is long enough. */
  method DetectRegions(s: Settings, probabilities: seq<real>, originalSamples: nat) returns (regions: seq<Region>)
    requires s.Valid()
    ensures RegionsOfAudio(s, probabilities, originalSamples, regions)
  {
    var minSilenceFrames := s.MinSilenceFrames();
    ghost var v := Voiced(probabilities, s.threshold);
    var startFrame: Option<nat>, lastVoicedFrame: nat := None, 0;
    regions := [];
    ghost var clusters: seq<Cluster> := [];
    ghost var open: Option<Cluster> := None;
    for frame := 0 to |probabilities|
      invariant Progress(v, frame, minSilenceFrames, clusters, open)
      invariant open == if startFrame.Some? then Some(Cluster(startFrame.value, lastVoicedFrame)) else None
      invariant InFrames(clusters, |probabilities|)
      invariant regions == RegionsOf(s, clusters, probabilities, originalSamples)
    {
      ProgressInFrames(v, frame, minSilenceFrames, clusters, open);
      if probabilities[frame] >= s.threshold {
        SpeechProgresses(v, frame, minSilenceFrames, clusters, open);
        if startFrame.None? {
          startFrame := Some(frame);
        }
        lastVoicedFrame := frame;
        open := Some(Cluster(startFrame.value, lastVoicedFrame));
        continue;
      }
      SilenceProgresses(v, frame, minSilenceFrames, clusters, open);
      if startFrame.Some? && frame - lastVoicedFrame >= minSilenceFrames {
        regions := AppendRegion(s, regions, clusters, probabilities,
                                startFrame.value, lastVoicedFrame, originalSamples);
        clusters, open := clusters + [open.value], None;
        startFrame := None;
      }
    }
    ProgressInFrames(v, |probabilities|, minSilenceFrames, clusters, open);
    ProgressEnds(v, minSilenceFrames, clusters, open);
    ghost var all := if open.Some? then clusters + [open.value] else clusters;
    if startFrame.Some? {
      regions := AppendRegion(s, regions, clusters, probabilities, startFrame.value, lastVoicedFrame, originalSamples);
    }
    ClusteringYieldsRegions(s, probabilities, originalSamples, all, regions);
  }

  method AppendRegion(s: Settings, regions: seq<Region>, ghost clusters: seq<Cluster>, probabilities: seq<real>,
                      startFrame: nat, lastVoicedFrame: nat, originalSamples: nat)
      returns (extended: seq<Region>)
    requires startFrame <= lastVoicedFrame < |probabilities|
    requires InFrames(clusters, |probabilities|)
    requires regions == RegionsOf(s, clusters, probabilities, originalSamples)
    ensures extended == RegionsOf(s, clusters + [Cluster(startFrame, lastVoicedFrame)], probabilities, originalSamples)
  {
    assert (clusters + [Cluster(startFrame, lastVoicedFrame)])[..|clusters|] == clusters;
    var voicedStart := startFrame * WINDOW_SAMPLES;
    var voicedEnd := Min(originalSamples, (lastVoicedFrame + 1) * WINDOW_SAMPLES);
    if voicedEnd - voicedStart < s.MinSpeechSamples() {
      return regions;
    }
    var startSample := Max(0, voicedStart - s.PadSamples());
    var endSample := Min(originalSamples, voicedEnd + s.PadSamples());
    var confidence := Confidence(probabilities[startFrame..lastVoicedFrame + 1]);
    return regions + [Region(startSample, endSample, confidence)];
  }

  // ---- What the clustering and its regions mean ----

  lemma {:induction false} NearestBefore(v: seq<bool>, x: int, y: int) returns (p: int)
    requires 0 <= x < y < |v| && v[x] && v[y]
    ensures x <= p < y && Neighbours(v, p, y)
    decreases y - x
  {
    if k :| x < k < y && v[k] {
      p := NearestBefore(v, k, y);
    } else {
      p := x;
    }
  }

  lemma {:induction false} NearestAfter(v: seq<bool>, x: int, y: int) returns (p: int)
    requires 0 <= x < y < |v| && v[x] && v[y]
    ensures x < p <= y && Neighbours(v, x, p)
    decreases y - x
  {
    if k :| x < k < y && v[k] {
      p := NearestAfter(v, x, k);
    } else {
      p := y;
    }
  }

  /** A stretch cannot reach beyond the cluster that it meets. */
  lemma StretchStaysInside(v: seq<bool>, minSilence: int, a: seq<Cluster>, k: nat, d: Cluster, i: int)
    requires Clustering(v, |v|, minSilence, a) && k < |a| && Stretch(v, minSilence, d)
    requires Covers(a[k], i) && Covers(d, i)
    ensures a[k].first <= d.first && d.last <= a[k].last
  {
    assert Stretch(v, minSilence, a[k]);
    if d.first < a[k].first {
      var p := NearestBefore(v, d.first, a[k].first);
      assert Covered(a, p);
      var l :| 0 <= l < |a| && Covers(a[l], p);
      NeighboursShareOrSplit(v, |v|, minSilence, a, p, a[k].first, l);
      ClustersAreDisjoint(minSilence, a, a[k].first, k, l);
    }
    if a[k].last < d.last {
      var p := NearestAfter(v, a[k].last, d.last);
      NeighboursShareOrSplit(v, |v|, minSilence, a, a[k].last, p, k);
    }
  }

  lemma MeetingClustersAgree(v: seq<bool>, minSilence: int, a: seq<Cluster>, b: seq<Cluster>, k: nat, l: nat, i: int)
    requires Clustering(v, |v|, minSilence, a) && Clustering(v, |v|, minSilence, b) && k < |a| && l < |b|
    requires Covers(a[k], i) && Covers(b[l], i)
    ensures b[l] == a[k]
  {
    StretchStaysInside(v, minSilence, a, k, b[l], i);
    StretchStaysInside(v, minSilence, b, l, a[k], i);
  }

  lemma SameClusters(v: seq<bool>, minSilence: int, a: seq<Cluster>, b: seq<Cluster>, k: nat) returns (l: nat)
    requires Clustering(v, |v|, minSilence, a) && Clustering(v, |v|, minSilence, b) && k < |a|
    ensures l < |b| && b[l] == a[k]
  {
    assert Stretch(v, minSilence, a[k]);
    assert Covered(b, a[k].first);
    l :| 0 <= l < |b| && Covers(b[l], a[k].first);
    MeetingClustersAgree(v, minSilence, a, b, k, l, a[k].first);
  }

  /** Distinct indices hold clusters that start in index order. */
  lemma LaterStartsLater(v: seq<bool>, minSilence: int, cs: seq<Cluster>, k: nat, l: nat)
    requires Clustering(v, |v|, minSilence, cs) && k < l < |cs|
    ensures cs[k].first < cs[l].first
  {
    assert Stretch(v, minSilence, cs[k]);
  }

  lemma {:induction false} SamePosition(v: seq<bool>, minSilence: int, a: seq<Cluster>, b: seq<Cluster>, k: nat)
    requires Clustering(v, |v|, minSilence, a) && Clustering(v, |v|, minSilence, b) && k < |a|
    ensures k < |b| && b[k] == a[k]
  {
    var l := SameClusters(v, minSilence, a, b, k);
    if l < k {
      SamePosition(v, minSilence, a, b, l);
      LaterStartsLater(v, minSilence, a, l, k);
    } else if k < l {
      var m := SameClusters(v, minSilence, b, a, k);
      LaterStartsLater(v, minSilence, b, k, l);
      if k < m {
        LaterStartsLater(v, minSilence, a, k, m);
      } else if m < k {
        SamePosition(v, minSilence, a, b, m);
        LaterStartsLater(v, minSilence, b, m, k);
      }
    }
  }

  /** There is only one clustering, so the loop computes it. */
  lemma ClusteringIsUnique(v: seq<bool>, minSilence: int, a: seq<Cluster>, b: seq<Cluster>)
    requires Clustering(v, |v|, minSilence, a) && Clustering(v, |v|, minSilence, b)
    ensures a == b
  {
    forall k | 0 <= k < |a| ensures k < |b| && b[k] == a[k] {
      SamePosition(v, minSilence, a, b, k);
    }
    forall k | 0 <= k < |b| ensures k < |a| && b[k] == a[k] {
      SamePosition(v, minSilence, b, a, k);
    }
    if |a| < |b| {
      SamePosition(v, minSilence, b, a, |a|);
    } else if |b| < |a| {
      SamePosition(v, minSilence, a, b, |b|);
    }
  }

  // ---- Regions ----

  ghost predicate RegionsOk(rs: seq<Region>, originalSamples: nat) {
    && (forall k :: 0 <= k < |rs| ==> 0 <= rs[k].start < rs[k].end <= originalSamples && 0.0 <= rs[k].confidence <= 1.0)
    && (forall k, l :: 0 <= k < l < |rs| ==> rs[k].start <= rs[l].start && rs[k].end <= rs[l].end)
  }

  lemma RegionIsOk(s: Settings, c: Cluster, p: seq<real>, originalSamples: nat)
    requires s.Valid() && c.first <= c.last < |p| && LongEnough(s, c, originalSamples)
    ensures var r := RegionOf(s, c, p, originalSamples);
            0 <= r.start < r.end <= originalSamples && 0.0 <= r.confidence <= 1.0
  {
  }

  /** A region holds its cluster's speech and, on either side, no more than the padding. */
  lemma RegionPadsItsSpeech(s: Settings, c: Cluster, p: seq<real>, originalSamples: nat)
    requires s.Valid() && c.first <= c.last < |p| && LongEnough(s, c, originalSamples)
    ensures var r := RegionOf(s, c, p, originalSamples);
            && r.start <= c.first * WINDOW_SAMPLES <= r.start + s.PadSamples()
            && r.end - s.PadSamples() <= VoicedEnd(c, originalSamples) <= r.end
            && (forall x :: 0 <= x < originalSamples && Covers(c, x / WINDOW_SAMPLES) ==> r.start <= x < r.end)
  {
    forall x | 0 <= x < originalSamples && Covers(c, x / WINDOW_SAMPLES)
      ensures RegionOf(s, c, p, originalSamples).start <= x < RegionOf(s, c, p, originalSamples).end
    {
      assert c.first * WINDOW_SAMPLES <= x < (c.last + 1) * WINDOW_SAMPLES;
    }
  }

  lemma RegionsStayInOrder(s: Settings, c: Cluster, d: Cluster, p: seq<real>, originalSamples: nat)
    requires c.first <= c.last < d.first <= d.last < |p|
    ensures RegionOf(s, c, p, originalSamples).start <= RegionOf(s, d, p, originalSamples).start
    ensures RegionOf(s, c, p, originalSamples).end <= RegionOf(s, d, p, originalSamples).end
  {
  }

  ghost predicate StemsFrom(s: Settings, r: Region, cs: seq<Cluster>, p: seq<real>, originalSamples: int)
    requires InFrames(cs, |p|)
  {
    exists k :: 0 <= k < |cs| && LongEnough(s, cs[k], originalSamples) && r == RegionOf(s, cs[k], p, originalSamples)
  }

  lemma {:induction false} RegionsStem(s: Settings, cs: seq<Cluster>, p: seq<real>, originalSamples: int, m: int)
    requires InFrames(cs, |p|) && 0 <= m < |RegionsOf(s, cs, p, originalSamples)|
    ensures StemsFrom(s, RegionsOf(s, cs, p, originalSamples)[m], cs, p, originalSamples)
  {
    var init := cs[..|cs| - 1];
    var earlier := RegionsOf(s, init, p, originalSamples);
    if m < |earlier| {
      RegionsStem(s, init, p, originalSamples, m);
      var k :| 0 <= k < |init| && LongEnough(s, init[k], originalSamples)
        && earlier[m] == RegionOf(s, init[k], p, originalSamples);
      assert init[k] == cs[k];
    } else {
      assert cs[|cs| - 1] == cs[|cs| - 1];
    }
  }

  /** A cluster is emitted exactly when it is long enough. */
  lemma {:induction false} LongClustersAreEmitted(s: Settings, cs: seq<Cluster>, p: seq<real>,
    originalSamples: int, k: nat)
    requires InFrames(cs, |p|) && k < |cs| && LongEnough(s, cs[k], originalSamples)
    ensures RegionOf(s, cs[k], p, originalSamples) in RegionsOf(s, cs, p, originalSamples)
  {
    if k < |cs| - 1 {
      LongClustersAreEmitted(s, cs[..|cs| - 1], p, originalSamples, k);
    }
  }

  /** Regions lie within the audio, are not empty, and never go back; so the last one ends last. */
  lemma {:induction false} RegionsAreOrdered(s: Settings, cs: seq<Cluster>, p: seq<real>, originalSamples: nat)
    requires s.Valid() && InFrames(cs, |p|)
    requires forall k, l :: 0 <= k < l < |cs| ==> cs[k].last < cs[l].first
    ensures RegionsOk(RegionsOf(s, cs, p, originalSamples), originalSamples)
  {
    if cs != [] {
      var c, init := cs[|cs| - 1], cs[..|cs| - 1];
      RegionsAreOrdered(s, init, p, originalSamples);
      var earlier := RegionsOf(s, init, p, originalSamples);
      if LongEnough(s, c, originalSamples) {
        var latest := RegionOf(s, c, p, originalSamples);
        RegionIsOk(s, c, p, originalSamples);
        forall m | 0 <= m < |earlier| ensures earlier[m].start <= latest.start && earlier[m].end <= latest.end {
          RegionsStem(s, init, p, originalSamples, m);
          var k :| 0 <= k < |init| && earlier[m] == RegionOf(s, init[k], p, originalSamples);
          assert init[k] == cs[k];
          RegionsStayInOrder(s, init[k], c, p, originalSamples);
        }
      }
    }
  }

  lemma ClustersStayInFrames(v: seq<bool>, minSilence: int, cs: seq<Cluster>)
    requires Clustering(v, |v|, minSilence, cs)
    ensures InFrames(cs, |v|)
    ensures forall k, l :: 0 <= k < l < |cs| ==> cs[k].last < cs[l].first
  {
    forall k | 0 <= k < |cs| ensures cs[k].first <= cs[k].last < |v| {
      assert Stretch(v, minSilence, cs[k]);
    }
  }

  lemma AudioHasOneListOfRegions(s: Settings, probabilities: seq<real>,
    originalSamples: nat, a: seq<Region>, b: seq<Region>)
    requires RegionsOfAudio(s, probabilities, originalSamples, a)
      && RegionsOfAudio(s, probabilities, originalSamples, b)
    ensures a == b
  {
    var v := Voiced(probabilities, s.threshold);
    var cs :| Clustering(v, |v|, s.MinSilenceFrames(), cs) && InFrames(cs, |v|)
      && a == RegionsOf(s, cs, probabilities, originalSamples);
    var ds :| Clustering(v, |v|, s.MinSilenceFrames(), ds) && InFrames(ds, |v|)
      && b == RegionsOf(s, ds, probabilities, originalSamples);
    ClusteringIsUnique(v, s.MinSilenceFrames(), cs, ds);
  }

  lemma RegionsOfAudioAreOk(s: Settings, probabilities: seq<real>, originalSamples: nat, regions: seq<Region>)
    requires s.Valid() && RegionsOfAudio(s, probabilities, originalSamples, regions)
    ensures RegionsOk(regions, originalSamples)
  {
    var v := Voiced(probabilities, s.threshold);
    var cs :| Clustering(v, |v|, s.MinSilenceFrames(), cs) && InFrames(cs, |v|)
      && regions == RegionsOf(s, cs, probabilities, originalSamples);
    ClustersStayInFrames(v, s.MinSilenceFrames(), cs);
    RegionsAreOrdered(s, cs, probabilities, originalSamples);
  }

  /** Where the live session looks for the end of the speech heard so far. */
  ghost predicate LastIsLatest(rs: seq<Region>, originalSamples: nat) {
    rs != [] ==> 0 < rs[|rs| - 1].end <= originalSamples && forall k :: 0 <= k < |rs| ==> rs[k].end <= rs[|rs| - 1].end
  }

  lemma LastRegionEndsLast(rs: seq<Region>, originalSamples: nat)
    requires RegionsOk(rs, originalSamples)
    ensures LastIsLatest(rs, originalSamples)
  {
  }

  /**
   * Speech regions of 16-bit PCM, given what the model makes of its frames. The last region is the latest: the live
   * session takes its end for the end of the speech heard so far.
   */
  method Detect(s: Settings, pcm: seq<bv8>, sampleRate: int, probabilities: seq<real>)
      returns (answer: Checked<seq<Region>>)
    requires s.Valid()
    ensures answer.ValueError? <==> pcm != [] && (|pcm| % 2 != 0 || sampleRate != SAMPLE_RATE)
    ensures pcm == [] ==> answer == Ok([])
    ensures pcm != [] && answer.Ok? ==> RegionsOfAudio(s, probabilities, |pcm| / 2, answer.value)
    ensures answer.Ok? ==> RegionsOk(answer.value, |pcm| / 2)
    ensures answer.Ok? ==> LastIsLatest(answer.value, |pcm| / 2)
  {
    if pcm == [] {
      return Ok([]);
    }
    if |pcm| % 2 != 0 || sampleRate != SAMPLE_RATE {
      return ValueError;
    }
    var regions := DetectRegions(s, probabilities, |pcm| / 2);
    RegionsOfAudioAreOk(s, probabilities, |pcm| / 2, regions);
    LastRegionEndsLast(regions, |pcm| / 2);
    return Ok(regions);
  }
}
