/** Turning a diarization pipeline's two annotations into speaker turns that say where people talk over each other. */
module OverlapDetection {
  import opened Wrappers

  /** What an attribute of the pipeline's output holds. */
  datatype Annotation = Missing | Null | Present(tracks: seq<Track>)

  /** An item of an annotation; Malformed stands for every shape that is not a labelled segment with two numbers. */
  datatype Track = Malformed | Labelled(start: real, end: real, speaker: string)

  datatype Output = Output(regular: Annotation, exclusive: Annotation)

  datatype Entry = Entry(start: real, end: real, speaker: string) {
    /** The entry's speaker talks at time t. */
    predicate During(t: real) {
      start <= t < end
    }
  }

  datatype Turn = Turn(speaker: string, start: real, end: real, overlapping: bool) {
    /** What a turn demands of its fields when it is built. */
    predicate Valid() {
      speaker != "" && 0.0 <= start < end
    }
  }

  datatype Diarized = Turns(turns: seq<Turn>) | Unavailable | Invalid

  type Interval = (real, real)

  function Earlier(a: real, b: real): real { if a < b then a else b }

  function Later(a: real, b: real): real { if a < b then b else a }

  // ---- Reading an annotation ----

  function EntryOf(t: Track): Entry
    requires t.Labelled?
  {
    Entry(t.start, t.end, t.speaker)
  }

  method Entries(tracks: seq<Track>) returns (entries: Option<seq<Entry>>)
    ensures entries.None? <==> Malformed in tracks
    ensures entries.Some? ==> |entries.value| == |tracks|
    ensures entries.Some? ==> forall k :: 0 <= k < |tracks| ==>
              tracks[k].Labelled? && entries.value[k] == EntryOf(tracks[k])
  {
    var read: seq<Entry> := [];
    for i := 0 to |tracks|
      invariant |read| == i
      invariant forall k :: 0 <= k < i ==> tracks[k].Labelled? && read[k] == EntryOf(tracks[k])
    {
      if tracks[i].Malformed? {
        return None;
      }
      read := read + [EntryOf(tracks[i])];
    }
    return Some(read);
  }

  // ---- Overlaps ----

  predicate Conflict(a: Entry, b: Entry) {
    a.speaker != b.speaker && Later(a.start, b.start) < Earlier(a.end, b.end)
  }

  function Common(a: Entry, b: Entry): Interval {
    (Later(a.start, b.start), Earlier(a.end, b.end))
  }

  ghost predicate FoundBefore(es: seq<Entry>, i: int, j: int, o: Interval) {
    exists a, b :: 0 <= a < b < |es| && (a < i || (a == i && b < j)) &&
      Conflict(es[a], es[b]) && o == Common(es[a], es[b])
  }

  /** The common part of every pair of entries that have different speakers and share some time, and nothing else. */
  method OverlapIntervals(es: seq<Entry>) returns (overlaps: seq<Interval>)
    ensures forall o :: o in overlaps <==> FoundBefore(es, |es|, 0, o)
  {
    overlaps := [];
    for i := 0 to |es|
      invariant forall o :: o in overlaps <==> FoundBefore(es, i, 0, o)
    {
      for j := i + 1 to |es|
        invariant forall o :: o in overlaps <==> FoundBefore(es, i, j, o)
      {
        if es[i].speaker == es[j].speaker {
          continue;
        }
        var start, end := Later(es[i].start, es[j].start), Earlier(es[i].end, es[j].end);
        if end > start {
          overlaps := overlaps + [(start, end)];
        }
      }
    }
  }

  /** The test that flags a turn. */
  predicate Flagged(overlaps: seq<Interval>, start: real, end: real) {
    exists k :: 0 <= k < |overlaps| && Earlier(end, overlaps[k].1) - Later(start, overlaps[k].0) > 0.0
  }

  /** Two people talk at time t. */
  ghost predicate TwoTalk(es: seq<Entry>, t: real) {
    exists a, b :: 0 <= a < |es| && 0 <= b < |es| &&
      es[a].speaker != es[b].speaker && es[a].During(t) && es[b].During(t)
  }

  /** Two people talk at some instant strictly inside the entry. */
  ghost predicate TalkedOver(es: seq<Entry>, e: Entry) {
    exists t: real :: e.start < t < e.end && TwoTalk(es, t)
  }

  /** The interval test decides a statement about every instant of the turn. */
  lemma FlagIsPointwise(es: seq<Entry>, overlaps: seq<Interval>, e: Entry)
    requires forall o :: o in overlaps <==> FoundBefore(es, |es|, 0, o)
    ensures Flagged(overlaps, e.start, e.end) ==> TalkedOver(es, e)
    ensures (exists t: real :: e.During(t) && TwoTalk(es, t)) ==> Flagged(overlaps, e.start, e.end)
  {
    if Flagged(overlaps, e.start, e.end) {
      FlaggedIsTalkedOver(es, overlaps, e);
    }
    if t: real :| e.During(t) && TwoTalk(es, t) {
      TalkIsFlagged(es, overlaps, e, t);
    }
  }

  lemma FlaggedIsTalkedOver(es: seq<Entry>, overlaps: seq<Interval>, e: Entry)
    requires forall o :: o in overlaps ==> FoundBefore(es, |es|, 0, o)
    requires Flagged(overlaps, e.start, e.end)
    ensures TalkedOver(es, e)
  {
    var k :| 0 <= k < |overlaps| && Earlier(e.end, overlaps[k].1) - Later(e.start, overlaps[k].0) > 0.0;
    assert overlaps[k] in overlaps;
    var a, b :| 0 <= a < b < |es| && Conflict(es[a], es[b]) && overlaps[k] == Common(es[a], es[b]);
    var t := (Earlier(e.end, overlaps[k].1) + Later(e.start, overlaps[k].0)) / 2.0;
    assert es[a].During(t) && es[b].During(t);
    assert e.start < t < e.end && TwoTalk(es, t);
  }

  lemma TalkIsFlagged(es: seq<Entry>, overlaps: seq<Interval>, e: Entry, t: real)
    requires forall o :: FoundBefore(es, |es|, 0, o) ==> o in overlaps
    requires e.During(t) && TwoTalk(es, t)
    ensures Flagged(overlaps, e.start, e.end)
  {
    var a, b :| 0 <= a < |es| && 0 <= b < |es| && es[a].speaker != es[b].speaker && es[a].During(t) && es[b].During(t);
    var x, y := if a < b then a else b, if a < b then b else a;
    assert Conflict(es[x], es[y]);
    assert FoundBefore(es, |es|, 0, Common(es[x], es[y]));
  }

  // ---- Turns ----

  /** The turns of the entries that have a duration, each flagged by what happens during it. */
  ghost function FlaggedTurns(regular: seq<Entry>, exclusive: seq<Entry>): (ts: seq<Turn>)
    ensures forall t :: t in ts ==> t.start < t.end
  {
    if exclusive == [] then []
    else
      var e := exclusive[|exclusive| - 1];
      FlaggedTurns(regular, exclusive[..|exclusive| - 1]) +
      (if e.end > e.start then [Turn(e.speaker, e.start, e.end, TalkedOver(regular, e))] else [])
  }

  predicate Rejected(e: Entry) {
    e.end > e.start && (e.start < 0.0 || e.speaker == "")
  }

  predicate AllPresent(o: Output) {
    o.regular.Present? && !o.exclusive.Null?
  }

  function ExclusiveTracks(o: Output): seq<Track>
    requires AllPresent(o)
  {
    if o.exclusive.Missing? then o.regular.tracks else o.exclusive.tracks
  }

  predicate Readable(o: Output) {
    AllPresent(o) && Malformed !in o.regular.tracks && Malformed !in ExclusiveTracks(o)
  }

  function EntriesOf(tracks: seq<Track>): (es: seq<Entry>)
    requires Malformed !in tracks
    ensures |es| == |tracks| && forall k :: 0 <= k < |es| ==> es[k] == EntryOf(tracks[k])
  {
    seq(|tracks|, k requires 0 <= k < |tracks| => EntryOf(tracks[k]))
  }

  method BuildTurns(regular: seq<Entry>, exclusive: seq<Entry>, overlaps: seq<Interval>)
    returns (turns: Checked<seq<Turn>>)
    requires forall o :: o in overlaps <==> FoundBefore(regular, |regular|, 0, o)
    ensures turns.ValueError? <==> exists k :: 0 <= k < |exclusive| && Rejected(exclusive[k])
    ensures turns.Ok? ==> turns.value == FlaggedTurns(regular, exclusive) && forall t :: t in turns.value ==> t.Valid()
  {
    var built: seq<Turn> := [];
    for i := 0 to |exclusive|
      invariant built == FlaggedTurns(regular, exclusive[..i])
      invariant forall k :: 0 <= k < i ==> !Rejected(exclusive[k])
      invariant forall t :: t in built ==> t.Valid()
    {
      var e := exclusive[i];
      assert exclusive[..i + 1][..i] == exclusive[..i];
      if e.end > e.start {
        if e.start < 0.0 || e.speaker == "" {
          assert Rejected(exclusive[i]);
          return ValueError;
        }
        FlagIsPointwise(regular, overlaps, e);
        built := built + [Turn(e.speaker, e.start, e.end, Flagged(overlaps, e.start, e.end))];
      }
    }
    assert exclusive[..|exclusive|] == exclusive;
    return Ok(built);
  }

  /** The turns of an output: one for each exclusive entry with a duration, flagged by what is said then, by time. */
  method TurnsOf(o: Output) returns (d: Diarized)
    ensures d.Invalid? <==>
      Readable(o) && exists k :: 0 <= k < |ExclusiveTracks(o)| && Rejected(EntriesOf(ExclusiveTracks(o))[k])
    ensures d.Turns? ==>
      && Readable(o) && d.turns != [] && (forall t :: t in d.turns ==> t.Valid())
      && d.turns == Sorted(FlaggedTurns(EntriesOf(o.regular.tracks), EntriesOf(ExclusiveTracks(o))))
    ensures d.Unavailable? ==> Readable(o) ==>
            FlaggedTurns(EntriesOf(o.regular.tracks), EntriesOf(ExclusiveTracks(o))) == []
  {
    if !o.regular.Present? || o.exclusive.Null? {
      return Unavailable;
    }
    var exclusiveTracks := if o.exclusive.Missing? then o.regular.tracks else o.exclusive.tracks;
    var regular := Entries(o.regular.tracks);
    if regular.None? {
      return Unavailable;
    }
    var exclusive := Entries(exclusiveTracks);
    if exclusive.None? {
      return Unavailable;
    }
    assert regular.value == EntriesOf(o.regular.tracks) && exclusive.value == EntriesOf(ExclusiveTracks(o));
    var overlaps := OverlapIntervals(regular.value);
    var turns := BuildTurns(regular.value, exclusive.value, overlaps);
    if turns.ValueError? {
      return Invalid;
    }
    if turns.value == [] {
      return Unavailable;
    }
    SortingKeepsMembers(turns.value);
    return Turns(Sorted(turns.value));
  }

  // ---- Sorting by start, then end, with ties left in place ----

  predicate Before(a: Turn, b: Turn) {
    a.start < b.start || (a.start == b.start && a.end < b.end)
  }

  function Placed(ts: seq<Turn>, t: Turn): seq<Turn> {
    if ts != [] && Before(t, ts[|ts| - 1]) then Placed(ts[..|ts| - 1], t) + [ts[|ts| - 1]] else ts + [t]
  }

  function Sorted(ts: seq<Turn>): seq<Turn> {
    if ts == [] then [] else Placed(Sorted(ts[..|ts| - 1]), ts[|ts| - 1])
  }

  /** Those turns that start and end with t, in order. */
  function Ties(ts: seq<Turn>, t: Turn): seq<Turn> {
    if ts == [] then []
    else
      var last := ts[|ts| - 1];
      Ties(ts[..|ts| - 1], t) + (if Before(last, t) || Before(t, last) then [] else [last])
  }

  ghost predicate InOrder(ts: seq<Turn>) {
    forall k, l :: 0 <= k < l < |ts| ==> !Before(ts[l], ts[k])
  }

  lemma {:induction false} PlacingPermutes(ts: seq<Turn>, t: Turn)
    ensures multiset(Placed(ts, t)) == multiset(ts) + multiset{t}
  {
    if ts != [] && Before(t, ts[|ts| - 1]) {
      PlacingPermutes(ts[..|ts| - 1], t);
      assert ts == ts[..|ts| - 1] + [ts[|ts| - 1]];
    }
  }

  lemma LastCountsOnce(ts: seq<Turn>)
    requires ts != []
    ensures multiset(ts) == multiset(ts[..|ts| - 1]) + multiset{ts[|ts| - 1]}
  {
    assert ts == ts[..|ts| - 1] + [ts[|ts| - 1]];
  }

  lemma {:induction false} SortingPermutes(ts: seq<Turn>)
    ensures multiset(Sorted(ts)) == multiset(ts)
  {
    if ts != [] {
      var init, last := ts[..|ts| - 1], ts[|ts| - 1];
      SortingPermutes(init);
      PlacingPermutes(Sorted(init), last);
      LastCountsOnce(ts);
      assert Sorted(ts) == Placed(Sorted(init), last);
    }
  }

  lemma SortingKeepsMembers(ts: seq<Turn>)
    ensures |Sorted(ts)| == |ts| && forall t :: t in Sorted(ts) <==> t in ts
  {
    SortingPermutes(ts);
    assert |multiset(Sorted(ts))| == |multiset(ts)|;
    forall t ensures t in Sorted(ts) <==> t in ts {
      assert t in Sorted(ts) <==> t in multiset(Sorted(ts));
    }
  }

  lemma {:induction false} PlacingKeepsOrder(ts: seq<Turn>, t: Turn)
    requires InOrder(ts)
    ensures InOrder(Placed(ts, t))
  {
    if ts != [] && Before(t, ts[|ts| - 1]) {
      var init, last := ts[..|ts| - 1], ts[|ts| - 1];
      PlacingKeepsOrder(init, t);
      PlacingPermutes(init, t);
      var placed := Placed(init, t);
      forall k | 0 <= k < |placed| ensures !Before(last, placed[k]) {
        assert placed[k] in multiset(placed);
        assert placed[k] == t || placed[k] in init;
      }
    }
  }

  lemma {:induction false} SortingOrders(ts: seq<Turn>)
    ensures InOrder(Sorted(ts))
  {
    if ts != [] {
      SortingOrders(ts[..|ts| - 1]);
      PlacingKeepsOrder(Sorted(ts[..|ts| - 1]), ts[|ts| - 1]);
    }
  }

  lemma {:induction false} PlacingKeepsTies(ts: seq<Turn>, t: Turn, k: Turn)
    ensures Ties(Placed(ts, t), k) == Ties(ts + [t], k)
  {
    assert (ts + [t])[..|ts|] == ts;
    if ts != [] && Before(t, ts[|ts| - 1]) {
      var init, last := ts[..|ts| - 1], ts[|ts| - 1];
      PlacingKeepsTies(init, t, k);
      assert (Placed(init, t) + [last])[..|Placed(init, t)|] == Placed(init, t);
      assert (init + [t])[..|init|] == init;
    }
  }

  /** Turns with the same times keep their order. */
  lemma {:induction false} SortingIsStable(ts: seq<Turn>, k: Turn)
    ensures Ties(Sorted(ts), k) == Ties(ts, k)
  {
    if ts != [] {
      var init, last := ts[..|ts| - 1], ts[|ts| - 1];
      SortingIsStable(init, k);
      PlacingKeepsTies(Sorted(init), last, k);
      assert (Sorted(init) + [last])[..|Sorted(init)|] == Sorted(init);
    }
  }

  lemma {:induction false} TiesAreMembers(ts: seq<Turn>, k: Turn, x: Turn)
    requires x in Ties(ts, k)
    ensures x in ts
  {
    if x in Ties(ts[..|ts| - 1], k) {
      TiesAreMembers(ts[..|ts| - 1], k, x);
    }
  }

  ghost predicate SameTies(a: seq<Turn>, b: seq<Turn>) {
    forall k :: Ties(a, k) == Ties(b, k)
  }

  lemma LastIsTied(ts: seq<Turn>, k: Turn)
    requires ts != [] && !Before(ts[|ts| - 1], k) && !Before(k, ts[|ts| - 1])
    ensures Ties(ts, k) != [] && Ties(ts, k)[|Ties(ts, k)| - 1] == ts[|ts| - 1]
  {
  }

  lemma LastIsKept(a: seq<Turn>, b: seq<Turn>)
    requires a != [] && SameTies(a, b)
    ensures a[|a| - 1] in b
  {
    var x := a[|a| - 1];
    LastIsTied(a, x);
    assert Ties(a, x) == Ties(b, x);
    TiesAreMembers(b, x, x);
  }

  lemma LastIsShared(a: seq<Turn>, b: seq<Turn>)
    requires a != [] && InOrder(a) && InOrder(b) && SameTies(a, b)
    ensures b != [] && b[|b| - 1] == a[|a| - 1]
  {
    var x := a[|a| - 1];
    LastIsKept(a, b);
    var y := b[|b| - 1];
    assert SameTies(b, a);
    LastIsKept(b, a);
    assert !Before(x, y) && !Before(y, x);
    LastIsTied(a, x);
    LastIsTied(b, x);
    assert Ties(a, x) == Ties(b, x);
  }

  lemma InitKeepsTies(a: seq<Turn>, b: seq<Turn>, last: Turn, k: Turn)
    requires Ties(a + [last], k) == Ties(b + [last], k)
    ensures Ties(a, k) == Ties(b, k)
  {
    assert (a + [last])[..|a|] == a && (b + [last])[..|b|] == b;
    var tied := if Before(last, k) || Before(k, last) then [] else [last];
    assert Ties(a, k) + tied == Ties(b, k) + tied;
    assert Ties(a, k) == (Ties(a, k) + tied)[..|Ties(a, k)|];
  }

  lemma InitsKeepTies(a: seq<Turn>, b: seq<Turn>, last: Turn)
    requires SameTies(a + [last], b + [last])
    ensures SameTies(a, b)
  {
    forall k ensures Ties(a, k) == Ties(b, k) {
      InitKeepsTies(a, b, last, k);
    }
  }

  /** Order and stability leave no choice. */
  lemma {:induction false} StableOrderIsUnique(a: seq<Turn>, b: seq<Turn>)
    requires InOrder(a) && InOrder(b) && SameTies(a, b)
    ensures a == b
  {
    if a != [] {
      LastIsShared(a, b);
      assert a == a[..|a| - 1] + [a[|a| - 1]];
      assert b == b[..|b| - 1] + [a[|a| - 1]];
      InitsKeepTies(a[..|a| - 1], b[..|b| - 1], a[|a| - 1]);
      StableOrderIsUnique(a[..|a| - 1], b[..|b| - 1]);
    } else if b != [] {
      assert SameTies(b, a);
      LastIsKept(b, a);
    }
  }

  /** Sorted is the only list that is in order and leaves every tie as it was. */
  lemma SortedIsTheStableOrder(ts: seq<Turn>, other: seq<Turn>)
    requires InOrder(other) && SameTies(other, ts)
    ensures other == Sorted(ts)
  {
    SortingOrders(ts);
    forall k ensures Ties(other, k) == Ties(Sorted(ts), k) {
      SortingIsStable(ts, k);
    }
    StableOrderIsUnique(other, Sorted(ts));
  }
}
