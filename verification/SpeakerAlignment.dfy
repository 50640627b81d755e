/** Giving every recognized word a speaker, and cutting the words into segments of one speaker each. */
module SpeakerAlignment {
  import opened Wrappers
  import opened Basics
  import opened TokenTexts
  import Overlaps = OverlapDetection

  const UNKNOWN := "Unknown"
  const LONGEST_GAP := 1.5

  type Turn = Overlaps.Turn

  predicate UnitScore(score: Option<real>) {
    score.Some? ==> 0.0 <= score.value <= 1.0
  }

  datatype Word = Word(text: string, start: real, end: real, confidence: Option<real>) {
    predicate Valid() {
      text != "" && 0.0 <= start <= end && UnitScore(confidence)
    }
  }

  datatype Segment = Segment(
    text: string, start: real, end: real, language: Language, words: seq<Word>,
    speaker: Option<string>, uncertain: bool, speakerConfidence: Option<real>, overlapping: bool,
    confidence: Option<real>)
  {
    predicate Valid() {
      && text != "" && 0.0 <= start <= end && UnitScore(confidence) && UnitScore(speakerConfidence)
      && (speaker.None? ==> !uncertain && speakerConfidence.None?)
      && forall k :: 0 <= k < |words| ==> start <= words[k].start && words[k].end <= end
    }
  }

  datatype Transcript = Transcript(text: string, segments: seq<Segment>) {
    /** What its parts demanded when they were built. */
    predicate Valid() {
      forall k :: 0 <= k < |segments| ==> segments[k].Valid() && WordsValid(segments[k].words)
    }
  }

  predicate WordsValid(words: seq<Word>) {
    forall k :: 0 <= k < |words| ==> words[k].Valid()
  }

  datatype Token = Token(text: string, start: real, end: real,
    language: Language, word: Option<Word>, confidence: Option<real>) {
    predicate Valid() {
      && 0.0 <= start <= end && UnitScore(confidence)
      && (word.Some? ==> word.value.start == start && word.value.end == end)
    }
  }

  datatype Assigned = Assigned(token: Token, speaker: string, confidence: real, uncertain: bool, overlapping: bool) {
    predicate Valid() {
      token.Valid() && 0.0 <= confidence <= 1.0
    }
  }

  datatype Conversation = Conversation(
    rawTranscript: string, formatted: string, segments: seq<Segment>, speakerCount: nat)

  // ---- Tokens ----

  function TokenOfWord(w: Word, language: Language): Token {
    Token(w.text, w.start, w.end, language, Some(w), w.confidence)
  }

  function TokensOfSegment(s: Segment): (ts: seq<Token>)
    ensures ts != []
  {
    if s.words == [] then [Token(s.text, s.start, s.end, s.language, None, s.confidence)]
    else seq(|s.words|, k requires 0 <= k < |s.words| => TokenOfWord(s.words[k], s.language))
  }

  function TokensOf(segments: seq<Segment>): (ts: seq<Token>)
    ensures segments != [] ==> ts != []
  {
    if segments == [] then []
    else TokensOf(segments[..|segments| - 1]) + TokensOfSegment(segments[|segments| - 1])
  }

  method Tokens(segments: seq<Segment>) returns (tokens: seq<Token>)
    ensures tokens == TokensOf(segments)
  {
    tokens := [];
    for i := 0 to |segments|
      invariant tokens == TokensOf(segments[..i])
    {
      assert segments[..i + 1][..i] == segments[..i];
      tokens := tokens + TokensOfSegment(segments[i]);
    }
    assert segments[..|segments|] == segments;
  }

  lemma {:induction false} TokensAreValid(segments: seq<Segment>)
    requires forall k :: 0 <= k < |segments| ==> segments[k].Valid() && WordsValid(segments[k].words)
    ensures forall k :: 0 <= k < |TokensOf(segments)| ==> TokensOf(segments)[k].Valid()
  {
    if segments != [] {
      TokensAreValid(segments[..|segments| - 1]);
      var last := segments[|segments| - 1];
      forall k | 0 <= k < |TokensOfSegment(last)| ensures TokensOfSegment(last)[k].Valid() {
        assert last.words != [] ==> last.words[k].Valid();
      }
    }
  }

  // ---- Whose turn a token belongs to ----

  /** The time that token and turn share. */
  function Shared(t: Token, u: Turn): real {
    Overlaps.Later(0.0, Overlaps.Earlier(t.end, u.end) - Overlaps.Later(t.start, u.start))
  }

  predicate Contains(u: Turn, t: Token) {
    u.start <= t.start <= u.end
  }

  /** Turn k shares most time with the token, and no earlier turn shares as much. */
  ghost predicate Greatest(t: Token, turns: seq<Turn>, k: int) {
    && 0 <= k < |turns| && Shared(t, turns[k]) > 0.0
    && (forall j :: 0 <= j < |turns| ==> Shared(t, turns[j]) <= Shared(t, turns[k]))
    && (forall j :: 0 <= j < k ==> Shared(t, turns[j]) < Shared(t, turns[k]))
  }

  /** The token is an instant, and turn k is the first that contains it. */
  ghost predicate FirstAround(t: Token, turns: seq<Turn>, k: int) {
    && 0 <= k < |turns| && t.start == t.end && Contains(turns[k], t)
    && (forall j :: 0 <= j < k ==> !Contains(turns[j], t))
  }

  ghost predicate Chosen(t: Token, turns: seq<Turn>, k: int) {
    Greatest(t, turns, k) || FirstAround(t, turns, k)
  }

  predicate Meets(t: Token, u: Turn) {
    Shared(t, u) > 0.0 || (t.start == t.end && Contains(u, t))
  }

  function ConfidenceIn(t: Token, u: Turn): real {
    if t.start == t.end then 1.0 else Shared(t, u) / (t.end - t.start)
  }

  function SpokenIn(t: Token, u: Turn, threshold: real): Assigned {
    var confidence := ConfidenceIn(t, u);
    Assigned(t, u.speaker, confidence, confidence < threshold || u.overlapping, u.overlapping)
  }

  /** The token goes to the chosen turn, or to nobody when there is none. */
  ghost predicate Rightful(t: Token, turns: seq<Turn>, threshold: real, a: Assigned) {
    && (forall k :: Chosen(t, turns, k) ==> a == SpokenIn(t, turns[k], threshold))
    && ((forall k :: 0 <= k < |turns| ==> !Meets(t, turns[k])) ==> a == Assigned(t, UNKNOWN, 0.0, true, false))
  }

  /** An instant shares no time with any turn, so at most one of the two rules applies, and it names one turn. */
  lemma AtMostOneIsChosen(t: Token, turns: seq<Turn>, k: int, l: int)
    requires Chosen(t, turns, k) && Chosen(t, turns, l)
    ensures k == l
  {
    if t.start == t.end {
      assert Shared(t, turns[k]) == 0.0 && Shared(t, turns[l]) == 0.0;
    }
  }

  lemma {:induction false} MeetingTurnIsChosen(t: Token, turns: seq<Turn>, k: int) returns (c: int)
    requires t.start <= t.end && 0 <= k < |turns| && Meets(t, turns[k])
    ensures Chosen(t, turns, c)
  {
    if t.start == t.end {
      c := FirstContaining(t, turns, k);
    } else {
      c := FirstGreatest(t, turns, |turns|);
      assert Shared(t, turns[k]) > 0.0;
    }
  }

  lemma {:induction false} FirstContaining(t: Token, turns: seq<Turn>, k: int) returns (c: int)
    requires t.start == t.end && 0 <= k < |turns| && Contains(turns[k], t)
    ensures FirstAround(t, turns, c)
    decreases k
  {
    if j :| 0 <= j < k && Contains(turns[j], t) {
      c := FirstContaining(t, turns, j);
    } else {
      c := k;
    }
  }

  /** Among the first n turns. */
  lemma {:induction false} FirstGreatest(t: Token, turns: seq<Turn>, n: int) returns (c: int)
    requires 0 < n <= |turns|
    ensures 0 <= c < n
    ensures forall j :: 0 <= j < n ==> Shared(t, turns[j]) <= Shared(t, turns[c])
    ensures forall j :: 0 <= j < c ==> Shared(t, turns[j]) < Shared(t, turns[c])
  {
    if n == 1 {
      c := 0;
    } else {
      c := FirstGreatest(t, turns, n - 1);
      if Shared(t, turns[n - 1]) > Shared(t, turns[c]) {
        c := n - 1;
      }
    }
  }

  lemma ConfidenceIsAScore(t: Token, u: Turn)
    requires t.start <= t.end
    ensures 0.0 <= ConfidenceIn(t, u) <= 1.0
  {
    var duration := t.end - t.start;
    if duration > 0.0 {
      assert 0.0 <= Shared(t, u) <= duration;
      QuotientIsAScore(Shared(t, u), duration);
    }
  }

  lemma QuotientIsAScore(a: real, b: real)
    requires 0.0 <= a <= b && b > 0.0
    ensures 0.0 <= a / b <= 1.0
  {
  }

  // ---- Assigning ----

  type Scored = (real, Turn)

  /** places[m] is where scored[m] comes from; the turns that share time with the token are listed in order. */
  ghost predicate Lists(t: Token, turns: seq<Turn>, n: int, scored: seq<Scored>, places: seq<int>) {
    && 0 <= n <= |turns| && |scored| == |places|
    && (forall m :: 0 <= m < |places| ==>
          0 <= places[m] < n && scored[m] == (Shared(t, turns[places[m]]), turns[places[m]]))
    && (forall m, l :: 0 <= m < l < |places| ==> places[m] < places[l])
    && (forall j :: 0 <= j < n ==> (j in places <==> Shared(t, turns[j]) > 0.0))
  }

  /** The first of the greatest, as Python's max picks it. */
  ghost predicate FirstMaximum(scored: seq<Scored>, b: int) {
    && 0 <= b < |scored|
    && (forall m :: 0 <= m < |scored| ==> scored[m].0 <= scored[b].0)
    && (forall m :: 0 <= m < b ==> scored[m].0 < scored[b].0)
  }

  method MaxByScore(scored: seq<Scored>) returns (b: int)
    requires scored != []
    ensures FirstMaximum(scored, b)
  {
    b := 0;
    for i := 1 to |scored|
      invariant 0 <= b < i
      invariant forall m :: 0 <= m < i ==> scored[m].0 <= scored[b].0
      invariant forall m :: 0 <= m < b ==> scored[m].0 < scored[b].0
    {
      if scored[i].0 > scored[b].0 {
        b := i;
      }
    }
  }

  lemma ListedMaximumIsGreatest(t: Token, turns: seq<Turn>, scored: seq<Scored>, places: seq<int>, b: int)
    requires Lists(t, turns, |turns|, scored, places) && FirstMaximum(scored, b)
    ensures Greatest(t, turns, places[b])
  {
    assert places[b] in places;
    forall j | 0 <= j < |turns|
      ensures Shared(t, turns[j]) <= Shared(t, turns[places[b]])
      ensures j < places[b] ==> Shared(t, turns[j]) < Shared(t, turns[places[b]])
    {
      if j in places {
        var m :| 0 <= m < |places| && places[m] == j;
        assert scored[m].0 <= scored[b].0;
      }
    }
  }

  function Surrounding(t: Token, turns: seq<Turn>): seq<Scored> {
    if turns == [] then []
    else
      Surrounding(t, turns[..|turns| - 1]) +
      (if Contains(turns[|turns| - 1], t) then [(1.0, turns[|turns| - 1])] else [])
  }

  lemma {:induction false} SurroundingStartsAtFirst(t: Token, turns: seq<Turn>) returns (c: int)
    requires t.start == t.end
    ensures forall m :: 0 <= m < |Surrounding(t, turns)| ==> Surrounding(t, turns)[m].0 == 1.0
    ensures Surrounding(t, turns) == [] <==> forall j :: 0 <= j < |turns| ==> !Contains(turns[j], t)
    ensures Surrounding(t, turns) != [] ==> FirstAround(t, turns, c) && Surrounding(t, turns)[0].1 == turns[c]
  {
    c := 0;
    if turns != [] {
      c := SurroundingStartsAtFirst(t, turns[..|turns| - 1]);
      if Surrounding(t, turns[..|turns| - 1]) == [] {
        c := |turns| - 1;
      }
    }
  }

  lemma ChosenIsRightful(t: Token, turns: seq<Turn>, threshold: real, c: int)
    requires t.start <= t.end && Chosen(t, turns, c)
    ensures Rightful(t, turns, threshold, SpokenIn(t, turns[c], threshold))
  {
    forall k | Chosen(t, turns, k) ensures k == c {
      AtMostOneIsChosen(t, turns, k, c);
    }
    assert Meets(t, turns[c]);
  }

  lemma NobodyIsRightful(t: Token, turns: seq<Turn>, threshold: real)
    requires forall k :: 0 <= k < |turns| ==> !Meets(t, turns[k])
    ensures Rightful(t, turns, threshold, Assigned(t, UNKNOWN, 0.0, true, false))
  {
    forall k ensures !Chosen(t, turns, k) {
      if 0 <= k < |turns| {
        assert !Meets(t, turns[k]);
      }
    }
  }

  method ScoreTurns(t: Token, turns: seq<Turn>) returns (scored: seq<Scored>, ghost places: seq<int>)
    ensures Lists(t, turns, |turns|, scored, places)
  {
    scored, places := [], [];
    for i := 0 to |turns|
      invariant Lists(t, turns, i, scored, places)
    {
      var overlap := Shared(t, turns[i]);
      if overlap > 0.0 {
        scored, places := scored + [(overlap, turns[i])], places + [i];
      }
    }
  }

  lemma UnlistedTurnsShareNothing(t: Token, turns: seq<Turn>, scored: seq<Scored>, places: seq<int>)
    requires Lists(t, turns, |turns|, scored, places) && scored == []
    ensures forall k :: 0 <= k < |turns| ==> Shared(t, turns[k]) <= 0.0
  {
  }

  method Assign(t: Token, turns: seq<Turn>, threshold: real) returns (a: Assigned)
    requires t.Valid()
    ensures Rightful(t, turns, threshold, a) && a.token == t && a.Valid()
  {
    var duration := t.end - t.start;
    var scored, places := ScoreTurns(t, turns);
    if scored != [] {
      var b := MaxByScore(scored);
      ListedMaximumIsGreatest(t, turns, scored, places, b);
      a := Pick(t, scored[b], threshold);
      ChosenIsRightful(t, turns, threshold, places[b]);
      return;
    }
    UnlistedTurnsShareNothing(t, turns, scored, places);
    if duration == 0.0 {
      scored := Surrounding(t, turns);
      ghost var c := SurroundingStartsAtFirst(t, turns);
      if scored != [] {
        var b := MaxByScore(scored);
        a := Pick(t, scored[b], threshold);
        ChosenIsRightful(t, turns, threshold, c);
        return;
      }
    }
    NobodyIsRightful(t, turns, threshold);
    return Assigned(t, UNKNOWN, 0.0, true, false);
  }

  method Pick(t: Token, best: Scored, threshold: real) returns (a: Assigned)
    requires t.Valid()
    requires best.0 == Shared(t, best.1) || t.start == t.end
    ensures a == SpokenIn(t, best.1, threshold) && a.Valid()
  {
    var duration := t.end - t.start;
    ConfidenceIsAScore(t, best.1);
    var confidence := if duration == 0.0 || best.0 / duration > 1.0 then 1.0 else best.0 / duration;
    var uncertain := confidence < threshold || best.1.overlapping;
    return Assigned(t, best.1.speaker, confidence, uncertain, best.1.overlapping);
  }

  // ---- Labels ----

  function PersonLabel(n: nat): string {
    "Person " + Decimal(n)
  }

  /** The people who speak among the first n tokens. */
  function Known(spoken: seq<Assigned>, n: nat): set<string>
    requires n <= |spoken|
  {
    set k | 0 <= k < n && spoken[k].speaker != UNKNOWN :: spoken[k].speaker
  }

  predicate FirstWord(spoken: seq<Assigned>, i: nat)
    requires i < |spoken|
  {
    spoken[i].speaker != UNKNOWN && forall j :: 0 <= j < i ==> spoken[j].speaker != spoken[i].speaker
  }

  ghost predicate NumberedAt(spoken: seq<Assigned>, labels: map<string, string>, i: nat)
    requires i < |spoken|
  {
    FirstWord(spoken, i) ==>
      spoken[i].speaker in labels && labels[spoken[i].speaker] == PersonLabel(|Known(spoken, i)| + 1)
  }

  /** Everyone among the first n tokens is labelled, people by the order in which they first speak. */
  ghost predicate Labels(spoken: seq<Assigned>, n: nat, labels: map<string, string>)
    requires n <= |spoken|
  {
    && labels.Keys == {UNKNOWN} + Known(spoken, n) && labels[UNKNOWN] == UNKNOWN
    && (forall i :: 0 <= i < n ==> NumberedAt(spoken, labels, i))
  }

  lemma KnownGrows(spoken: seq<Assigned>, i: nat)
    requires i < |spoken|
    ensures Known(spoken, i + 1) ==
            if spoken[i].speaker == UNKNOWN then Known(spoken, i) else Known(spoken, i) + {spoken[i].speaker}
  {
  }

  lemma NewSpeakerIsFirst(spoken: seq<Assigned>, i: nat)
    requires i < |spoken|
    ensures FirstWord(spoken, i) <==> spoken[i].speaker !in {UNKNOWN} + Known(spoken, i)
  {
  }

  lemma OldSpeakerKeepsLabels(spoken: seq<Assigned>, i: nat, labels: map<string, string>)
    requires i < |spoken| && Labels(spoken, i, labels) && spoken[i].speaker in labels
    ensures Labels(spoken, i + 1, labels) && Known(spoken, i + 1) == Known(spoken, i)
  {
    KnownGrows(spoken, i);
    NewSpeakerIsFirst(spoken, i);
    assert NumberedAt(spoken, labels, i);
  }

  lemma EarlierNumberStays(spoken: seq<Assigned>, labels: map<string, string>, i: nat, k: nat, name: string)
    requires k < i < |spoken| && NumberedAt(spoken, labels, k) && spoken[i].speaker !in labels
    ensures NumberedAt(spoken, labels[spoken[i].speaker := name], k)
  {
  }

  lemma NewSpeakerIsCounted(spoken: seq<Assigned>, i: nat)
    requires i < |spoken| && spoken[i].speaker !in {UNKNOWN} + Known(spoken, i)
    ensures {UNKNOWN} + Known(spoken, i + 1) == {UNKNOWN} + Known(spoken, i) + {spoken[i].speaker}
    ensures |Known(spoken, i + 1)| == |Known(spoken, i)| + 1
  {
    KnownGrows(spoken, i);
  }

  lemma NewSpeakerAddsLabel(spoken: seq<Assigned>, i: nat, labels: map<string, string>, name: string)
    requires i < |spoken| && Labels(spoken, i, labels) && spoken[i].speaker !in labels
    requires name == PersonLabel(|Known(spoken, i)| + 1)
    ensures Labels(spoken, i + 1, labels[spoken[i].speaker := name])
  {
    NewSpeakerIsCounted(spoken, i);
    var more := labels[spoken[i].speaker := name];
    assert NumberedAt(spoken, more, i);
    forall k | 0 <= k < i ensures NumberedAt(spoken, more, k) {
      EarlierNumberStays(spoken, labels, i, k, name);
    }
  }

  method SpeakerLabels(spoken: seq<Assigned>) returns (labels: map<string, string>)
    ensures Labels(spoken, |spoken|, labels)
    ensures |labels| == |Known(spoken, |spoken|)| + 1
  {
    labels := map[UNKNOWN := UNKNOWN];
    for i := 0 to |spoken|
      invariant Labels(spoken, i, labels)
      invariant |labels| == |Known(spoken, i)| + 1
    {
      if spoken[i].speaker !in labels {
        var name := PersonLabel(|labels|);
        NewSpeakerIsCounted(spoken, i);
        NewSpeakerAddsLabel(spoken, i, labels, name);
        labels := labels[spoken[i].speaker := name];
      } else {
        OldSpeakerKeepsLabels(spoken, i, labels);
      }
    }
  }

  lemma {:induction false} FirstWordOf(spoken: seq<Assigned>, n: nat, speaker: string) returns (i: nat)
    requires n <= |spoken| && speaker in Known(spoken, n)
    ensures i < n && FirstWord(spoken, i) && spoken[i].speaker == speaker
    decreases n
  {
    i :| 0 <= i < n && spoken[i].speaker == speaker;
    if j :| 0 <= j < i && spoken[j].speaker == speaker {
      i := FirstWordOf(spoken, i, speaker);
    }
  }

  lemma EarlierPeopleAreFewer(spoken: seq<Assigned>, i: nat, j: nat)
    requires i < j < |spoken| && FirstWord(spoken, i)
    ensures |Known(spoken, i)| < |Known(spoken, j)|
  {
    assert Known(spoken, i) + {spoken[i].speaker} <= Known(spoken, j);
    SubsetIsNoLarger(Known(spoken, i) + {spoken[i].speaker}, Known(spoken, j));
  }

  lemma PersonLabelsDiffer(m: nat, n: nat)
    ensures PersonLabel(m) == PersonLabel(n) ==> m == n
  {
    if PersonLabel(m) == PersonLabel(n) {
      assert Decimal(m) == PersonLabel(m)[7..];
      assert Decimal(n) == PersonLabel(n)[7..];
      DecimalIsInjective(m, n);
    }
  }

  lemma LabelOf(spoken: seq<Assigned>, labels: map<string, string>, speaker: string) returns (i: nat)
    requires Labels(spoken, |spoken|, labels) && speaker in labels && speaker != UNKNOWN
    ensures i < |spoken| && FirstWord(spoken, i) && spoken[i].speaker == speaker
    ensures labels[speaker] == PersonLabel(|Known(spoken, i)| + 1)
  {
    i := FirstWordOf(spoken, |spoken|, speaker);
    assert NumberedAt(spoken, labels, i);
  }

  /** Two speakers never share a label. */
  lemma LabelsAreInjective(spoken: seq<Assigned>, labels: map<string, string>, a: string, b: string)
    requires Labels(spoken, |spoken|, labels) && a in labels && b in labels && labels[a] == labels[b]
    ensures a == b
  {
    if a != UNKNOWN && b != UNKNOWN {
      var i := LabelOf(spoken, labels, a);
      var j := LabelOf(spoken, labels, b);
      PersonLabelsDiffer(|Known(spoken, i)| + 1, |Known(spoken, j)| + 1);
      if i < j {
        EarlierPeopleAreFewer(spoken, i, j);
      } else if j < i {
        EarlierPeopleAreFewer(spoken, j, i);
      }
    } else if a != b {
      var i := LabelOf(spoken, labels, if a == UNKNOWN then b else a);
    }
  }

  // ---- Groups ----

  type Group = seq<Assigned>

  predicate SameGroup(previous: Assigned, current: Assigned) {
    && previous.speaker == current.speaker
    && previous.token.language == current.token.language
    && current.token.start - previous.token.end <= LONGEST_GAP
  }

  predicate Chained(g: Group) {
    forall k :: 0 < k < |g| ==> SameGroup(g[k - 1], g[k])
  }

  predicate Separate(g: Group, h: Group) {
    g != [] && h != [] && !SameGroup(g[|g| - 1], h[0])
  }

  /** The tokens in order, cut into runs that belong together, none of which could be joined to the next. */
  ghost predicate Grouping(spoken: seq<Assigned>, groups: seq<Group>) {
    && Flatten(groups) == spoken
    && (forall k :: 0 <= k < |groups| ==> groups[k] != [] && Chained(groups[k]))
    && (forall k :: 0 < k < |groups| ==> Separate(groups[k - 1], groups[k]))
  }

  lemma StartingAGroup(spoken: seq<Assigned>, groups: seq<Group>, item: Assigned)
    requires Grouping(spoken, groups)
    requires groups != [] ==> !SameGroup(groups[|groups| - 1][|groups[|groups| - 1]| - 1], item)
    ensures Grouping(spoken + [item], groups + [[item]])
  {
    FlattenWithLast(groups, [item]);
    var after := groups + [[item]];
    forall k | 0 <= k < |after| ensures after[k] != [] && Chained(after[k]) {
      if k < |groups| {
        assert groups[k] != [] && Chained(groups[k]);
      }
    }
    forall k | 0 < k < |after| ensures Separate(after[k - 1], after[k]) {
      if k < |groups| {
        assert Separate(groups[k - 1], groups[k]);
      }
    }
  }

  lemma ExtendingTheLastGroup(spoken: seq<Assigned>, groups: seq<Group>, last: Group, item: Assigned)
    requires Grouping(spoken, groups + [last]) && last != [] && SameGroup(last[|last| - 1], item)
    ensures Grouping(spoken + [item], groups + [last + [item]])
  {
    var before, after := groups + [last], groups + [last + [item]];
    FlattenWithLast(groups, last);
    FlattenWithLast(groups, last + [item]);
    assert Flatten(after) == Flatten(groups) + last + [item];
    assert before[|groups|] == last;
    forall k | 0 < k < |after| ensures Separate(after[k - 1], after[k]) {
      assert Separate(before[k - 1], before[k]);
    }
    forall k | 0 <= k < |after| ensures after[k] != [] && Chained(after[k]) {
      assert before[k] != [] && Chained(before[k]);
    }
  }

  method Groups(spoken: seq<Assigned>) returns (groups: seq<Group>)
    ensures Grouping(spoken, groups)
  {
    groups := [];
    for i := 0 to |spoken|
      invariant Grouping(spoken[..i], groups)
    {
      var item := spoken[i];
      assert spoken[..i + 1] == spoken[..i] + [item];
      if groups == [] || !SameGroup(groups[|groups| - 1][|groups[|groups| - 1]| - 1], item) {
        StartingAGroup(spoken[..i], groups, item);
        groups := groups + [[item]];
      } else {
        var last := groups[|groups| - 1];
        assert groups == groups[..|groups| - 1] + [last];
        ExtendingTheLastGroup(spoken[..i], groups[..|groups| - 1], last, item);
        groups := groups[..|groups| - 1] + [last + [item]];
      }
    }
    assert spoken[..|spoken|] == spoken;
  }

  lemma CutIsSeparate(spoken: seq<Assigned>, a: seq<Group>, g: Group)
    requires Grouping(spoken, a + [g]) && |g| < |spoken|
    ensures g != [] && !SameGroup(spoken[|spoken| - |g| - 1], spoken[|spoken| - |g|])
  {
    FlattenWithLast(a, g);
    var f := a[|a| - 1];
    assert (a + [g])[|a| - 1] == f && (a + [g])[|a|] == g && Separate(f, g);
    assert spoken == Flatten(a[..|a| - 1]) + f + g;
  }

  lemma TailIsChained(spoken: seq<Assigned>, b: seq<Group>, h: Group, cut: nat)
    requires Grouping(spoken, b + [h]) && |spoken| - |h| < cut < |spoken|
    ensures SameGroup(spoken[cut - 1], spoken[cut])
  {
    FlattenWithLast(b, h);
    assert (b + [h])[|b|] == h && Chained(h);
    var k := cut - (|spoken| - |h|);
    assert spoken[cut - 1] == h[k - 1] && spoken[cut] == h[k];
  }

  /** With the same tokens, the last group of one grouping cannot begin inside the last group of another. */
  lemma LastGroupIsNoShorter(spoken: seq<Assigned>, a: seq<Group>, g: Group, b: seq<Group>, h: Group)
    requires Grouping(spoken, a + [g]) && Grouping(spoken, b + [h])
    ensures |g| >= |h|
  {
    FlattenWithLast(b, h);
    if |g| < |h| {
      var cut: nat := |spoken| - |g|;
      CutIsSeparate(spoken, a, g);
      TailIsChained(spoken, b, h, cut);
    }
  }

  lemma InitIsAGrouping(spoken: seq<Assigned>, groups: seq<Group>, last: Group)
    requires Grouping(spoken, groups + [last])
    ensures |last| <= |spoken| && last == spoken[|spoken| - |last|..]
    ensures Grouping(spoken[..|spoken| - |last|], groups)
  {
    var all := groups + [last];
    FlattenWithLast(groups, last);
    assert spoken == Flatten(groups) + last;
    forall k | 0 <= k < |groups| ensures groups[k] != [] && Chained(groups[k]) {
      assert all[k] != [] && Chained(all[k]);
    }
    forall k | 0 < k < |groups| ensures Separate(groups[k - 1], groups[k]) {
      assert Separate(all[k - 1], all[k]);
    }
  }

  /** There is only one way to group the tokens. */
  lemma {:induction false} GroupingIsUnique(spoken: seq<Assigned>, a: seq<Group>, b: seq<Group>)
    requires Grouping(spoken, a) && Grouping(spoken, b)
    ensures a == b
    decreases |a|
  {
    if a != [] && b != [] {
      var g, h := a[|a| - 1], b[|b| - 1];
      assert a == a[..|a| - 1] + [g] && b == b[..|b| - 1] + [h];
      LastGroupIsNoShorter(spoken, a[..|a| - 1], g, b[..|b| - 1], h);
      LastGroupIsNoShorter(spoken, b[..|b| - 1], h, a[..|a| - 1], g);
      InitIsAGrouping(spoken, a[..|a| - 1], g);
      InitIsAGrouping(spoken, b[..|b| - 1], h);
      GroupingIsUnique(spoken[..|spoken| - |g|], a[..|a| - 1], b[..|b| - 1]);
    }
  }
}
