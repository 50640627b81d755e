/** Building a conversation out of aligned words: nothing said is lost, and when building it fails. */
module ConversationAssembly {
  import opened Wrappers
  import opened Basics
  import opened TokenTexts
  import opened SpeakerAlignment

  // ---- What a segment says of its group ----

  function Mean(xs: seq<real>): real
    requires xs != []
  {
    Sum(xs) / (|xs| as real)
  }

  predicate AllScores(xs: seq<real>) {
    forall k :: 0 <= k < |xs| ==> 0.0 <= xs[k] <= 1.0
  }

  lemma {:induction false} SumOfScores(xs: seq<real>)
    requires AllScores(xs)
    ensures 0.0 <= Sum(xs) <= |xs| as real
  {
    if xs != [] {
      SumOfScores(xs[..|xs| - 1]);
    }
  }

  lemma MeanOfScores(xs: seq<real>)
    requires xs != [] && AllScores(xs)
    ensures 0.0 <= Mean(xs) <= 1.0
  {
    SumOfScores(xs);
    QuotientIsAScore(Sum(xs), |xs| as real);
  }

  function TextsOf(g: Group): (texts: seq<string>)
    ensures |texts| == |g|
  {
    seq(|g|, k requires 0 <= k < |g| => g[k].token.text)
  }

  function Confidences(g: Group): (xs: seq<real>)
    ensures |xs| == |g|
  {
    seq(|g|, k requires 0 <= k < |g| => g[k].confidence)
  }

  function WordsOf(g: Group): seq<Word> {
    if g == [] then []
    else WordsOf(g[..|g| - 1]) + (if g[|g| - 1].token.word.Some? then [g[|g| - 1].token.word.value] else [])
  }

  function TranscriptScores(g: Group): seq<real> {
    if g == [] then []
    else
      TranscriptScores(g[..|g| - 1]) +
      (if g[|g| - 1].token.confidence.Some? then [g[|g| - 1].token.confidence.value] else [])
  }

  predicate AllValid(g: Group) {
    forall k :: 0 <= k < |g| ==> g[k].Valid()
  }

  predicate Uncertain(g: Group) {
    exists k :: 0 <= k < |g| && g[k].uncertain
  }

  predicate Overlapping(g: Group) {
    exists k :: 0 <= k < |g| && g[k].overlapping
  }

  function SegmentOf(g: Group, text: string, speaker: string): Segment
    requires g != []
  {
    var scores := TranscriptScores(g);
    Segment(text, g[0].token.start, g[|g| - 1].token.end, g[0].token.language, WordsOf(g), Some(speaker),
            Uncertain(g), Some(Mean(Confidences(g))), Overlapping(g),
            if scores == [] then None else Some(Mean(scores)))
  }

  predicate Readable(g: Group) {
    exists k :: 0 <= k < |g| && !Blank(g[k].token.text)
  }

  lemma ReadableMeansNotAllBlank(g: Group)
    ensures Readable(g) <==> !(forall k :: 0 <= k < |TextsOf(g)| ==> Blank(TextsOf(g)[k]))
  {
    if Readable(g) {
      var k :| 0 <= k < |g| && !Blank(g[k].token.text);
      assert !Blank(TextsOf(g)[k]);
    }
    if k :| 0 <= k < |TextsOf(g)| && !Blank(TextsOf(g)[k]) {
      assert !Blank(g[k].token.text);
    }
  }

  /** Whether the group lies within the times of its first and last token. */
  predicate Fits(g: Group)
    requires g != []
  {
    && g[0].token.start <= g[|g| - 1].token.end
    && (forall k :: 0 <= k < |g| && g[k].token.word.Some? ==>
          g[0].token.start <= g[k].token.start && g[k].token.end <= g[|g| - 1].token.end)
  }

  lemma {:induction false} TranscriptScoresAreScores(g: Group)
    requires AllValid(g)
    ensures AllScores(TranscriptScores(g))
  {
    if g != [] {
      TranscriptScoresAreScores(g[..|g| - 1]);
      assert g[|g| - 1].Valid();
    }
  }

  lemma {:induction false} WordComesFrom(g: Group, n: int) returns (k: int)
    requires 0 <= n < |WordsOf(g)|
    ensures 0 <= k < |g| && g[k].token.word == Some(WordsOf(g)[n])
  {
    k := |g| - 1;
    if n < |WordsOf(g[..|g| - 1])| {
      k := WordComesFrom(g[..|g| - 1], n);
    }
  }

  lemma {:induction false} WordGoesTo(g: Group, k: int) returns (n: int)
    requires 0 <= k < |g| && g[k].token.word.Some?
    ensures 0 <= n < |WordsOf(g)| && WordsOf(g)[n] == g[k].token.word.value
  {
    n := |WordsOf(g)| - 1;
    if k < |g| - 1 {
      n := WordGoesTo(g[..|g| - 1], k);
    }
  }

  lemma WordsLieWithin(g: Group, start: real, end: real)
    requires AllValid(g)
    ensures (forall n :: 0 <= n < |WordsOf(g)| ==> start <= WordsOf(g)[n].start && WordsOf(g)[n].end <= end) <==>
            (forall k :: 0 <= k < |g| && g[k].token.word.Some? ==> start <= g[k].token.start && g[k].token.end <= end)
  {
    if forall n :: 0 <= n < |WordsOf(g)| ==> start <= WordsOf(g)[n].start && WordsOf(g)[n].end <= end {
      forall k | 0 <= k < |g| && g[k].token.word.Some? ensures start <= g[k].token.start && g[k].token.end <= end {
        var n := WordGoesTo(g, k);
        assert g[k].Valid();
      }
    }
    if forall k :: 0 <= k < |g| && g[k].token.word.Some? ==> start <= g[k].token.start && g[k].token.end <= end {
      forall n | 0 <= n < |WordsOf(g)| ensures start <= WordsOf(g)[n].start && WordsOf(g)[n].end <= end {
        var k := WordComesFrom(g, n);
        assert g[k].Valid();
      }
    }
  }

  /** Of everything a segment demands, only the times can fail. */
  lemma SegmentIsValidIfItFits(g: Group, text: string, speaker: string)
    requires g != [] && AllValid(g) && text != ""
    ensures SegmentOf(g, text, speaker).Valid() <==> Fits(g)
  {
    assert g[0].Valid() && g[|g| - 1].Valid();
    assert AllScores(Confidences(g)) by {
      forall k | 0 <= k < |g| ensures 0.0 <= Confidences(g)[k] <= 1.0 {
        assert g[k].Valid();
      }
    }
    MeanOfScores(Confidences(g));
    TranscriptScoresAreScores(g);
    if TranscriptScores(g) != [] {
      MeanOfScores(TranscriptScores(g));
    }
    WordsLieWithin(g, g[0].token.start, g[|g| - 1].token.end);
  }

  /** The segment shows the group's text with nothing visible added or dropped. */
  ghost predicate Shows(s: Segment, g: Group, speaker: string)
    requires g != []
  {
    && Stripped(TextsOf(g)) != []
    && s == SegmentOf(g, Joined(TextsOf(g), g[0].token.language), speaker)
    && Ink(s.text) == Ink(Concat(TextsOf(g)))
  }

  method BuildSegment(g: Group, speaker: string) returns (s: Checked<Segment>)
    requires g != [] && AllValid(g)
    ensures s.Ok? <==> Readable(g) && Fits(g)
    ensures s.Ok? ==> s.value.Valid() && Shows(s.value, g, speaker)
  {
    var text := JoinTokenTexts(TextsOf(g), g[0].token.language);
    ReadableMeansNotAllBlank(g);
    if text.ValueError? {
      return ValueError;
    }
    var segment := SegmentOf(g, text.value, speaker);
    SegmentIsValidIfItFits(g, text.value, speaker);
    if !segment.Valid() {
      return ValueError;
    }
    return Ok(segment);
  }

  // ---- Well-timed transcripts ----

  /** Neither starts nor ends ever go back. */
  predicate InTime(spoken: seq<Assigned>) {
    forall k, l :: 0 <= k < l < |spoken| ==>
      spoken[k].token.start <= spoken[l].token.start && spoken[k].token.end <= spoken[l].token.end
  }

  lemma {:induction false} GroupIsASlice(groups: seq<Group>, k: nat) returns (at: nat)
    requires k < |groups|
    ensures at + |groups[k]| <= |Flatten(groups)| && Flatten(groups)[at..at + |groups[k]|] == groups[k]
    decreases |groups|
  {
    var init := groups[..|groups| - 1];
    if k == |groups| - 1 {
      at := |Flatten(init)|;
    } else {
      at := GroupIsASlice(init, k);
      assert Flatten(groups) == Flatten(init) + groups[|groups| - 1];
    }
  }

  /** When nothing goes back in time, every group fits its own bounds. */
  lemma GroupsInTimeFit(spoken: seq<Assigned>, groups: seq<Group>, k: nat)
    requires Grouping(spoken, groups) && InTime(spoken) && AllValid(spoken) && k < |groups|
    ensures groups[k] != [] && Fits(groups[k])
  {
    var g := groups[k];
    var at := GroupIsASlice(groups, k);
    assert forall m :: 0 <= m < |g| ==> g[m] == spoken[at + m];
    assert g[0].Valid();
  }

  /** A group has one speaker and one language. */
  lemma {:induction false} GroupsHaveOneSpeaker(g: Group, k: nat)
    requires Chained(g) && k < |g|
    ensures g[k].speaker == g[0].speaker && g[k].token.language == g[0].token.language
  {
    if k > 0 {
      GroupsHaveOneSpeaker(g, k - 1);
    }
  }

  // ---- Conservation ----

  function AllWords(segments: seq<Segment>): seq<Word> {
    if segments == [] then [] else AllWords(segments[..|segments| - 1]) + segments[|segments| - 1].words
  }

  lemma {:induction false} WordsOfConcat(g: Group, h: Group)
    ensures WordsOf(g + h) == WordsOf(g) + WordsOf(h)
  {
    if h == [] {
      assert g + h == g;
    } else {
      assert (g + h)[..|g + h| - 1] == g + h[..|h| - 1];
      WordsOfConcat(g, h[..|h| - 1]);
    }
  }

  /** The segments hold the words of the tokens, each once and in order. */
  lemma {:induction false} SegmentsKeepWords(segments: seq<Segment>, groups: seq<Group>)
    requires |segments| == |groups| && forall k :: 0 <= k < |groups| ==> segments[k].words == WordsOf(groups[k])
    ensures AllWords(segments) == WordsOf(Flatten(groups))
  {
    if groups != [] {
      var n := |groups| - 1;
      SegmentsKeepWords(segments[..n], groups[..n]);
      WordsOfConcat(Flatten(groups[..n]), groups[n]);
    }
  }

  ghost predicate Carries(spoken: seq<Assigned>, tokens: seq<Token>) {
    |spoken| == |tokens| && forall k :: 0 <= k < |tokens| ==> spoken[k].token == tokens[k]
  }

  lemma {:induction false} TokensOfSegmentKeepWords(s: Segment, spoken: seq<Assigned>, n: nat)
    requires Carries(spoken, TokensOfSegment(s)) && n <= |s.words| && s.words != []
    ensures WordsOf(spoken[..n]) == s.words[..n]
  {
    if n > 0 {
      TokensOfSegmentKeepWords(s, spoken, n - 1);
      assert spoken[..n][..n - 1] == spoken[..n - 1];
      assert spoken[..n][n - 1].token == TokenOfWord(s.words[n - 1], s.language);
      assert s.words[..n] == s.words[..n - 1] + [s.words[n - 1]];
    }
  }

  lemma SegmentTokensKeepWords(s: Segment, spoken: seq<Assigned>)
    requires Carries(spoken, TokensOfSegment(s))
    ensures WordsOf(spoken) == s.words
  {
    if s.words == [] {
      assert spoken[..0] == [] && spoken[0].token.word == None;
      assert WordsOf(spoken[..0]) == [];
    } else {
      TokensOfSegmentKeepWords(s, spoken, |s.words|);
      assert spoken[..|s.words|] == spoken && s.words[..|s.words|] == s.words;
    }
  }

  lemma CarryingSplits(spoken: seq<Assigned>, a: seq<Token>, b: seq<Token>)
    requires Carries(spoken, a + b)
    ensures Carries(spoken[..|a|], a) && Carries(spoken[|a|..], b)
  {
    forall k | 0 <= k < |b| ensures spoken[|a|..][k].token == b[k] {
      assert (a + b)[|a| + k] == b[k];
    }
    forall k | 0 <= k < |a| ensures spoken[..|a|][k].token == a[k] {
      assert (a + b)[k] == a[k];
    }
  }

  lemma {:induction false} TokensKeepWords(segments: seq<Segment>, spoken: seq<Assigned>)
    requires Carries(spoken, TokensOf(segments))
    ensures WordsOf(spoken) == AllWords(segments)
  {
    if segments != [] {
      var init, last := segments[..|segments| - 1], segments[|segments| - 1];
      var cut := |TokensOf(init)|;
      CarryingSplits(spoken, TokensOf(init), TokensOfSegment(last));
      TokensKeepWords(init, spoken[..cut]);
      SegmentTokensKeepWords(last, spoken[cut..]);
      WordsOfConcat(spoken[..cut], spoken[cut..]);
      assert spoken == spoken[..cut] + spoken[cut..];
    }
  }

  function AllTexts(segments: seq<Segment>): string {
    if segments == [] then "" else AllTexts(segments[..|segments| - 1]) + segments[|segments| - 1].text
  }

  lemma {:induction false} ConcatOfConcat(a: seq<string>, b: seq<string>)
    ensures Concat(a + b) == Concat(a) + Concat(b)
  {
    if b == [] {
      assert a + b == a;
    } else {
      assert (a + b)[..|a + b| - 1] == a + b[..|b| - 1];
      ConcatOfConcat(a, b[..|b| - 1]);
    }
  }

  lemma InkOfTwoGroups(g: Group, h: Group)
    ensures Ink(Concat(TextsOf(g + h))) == Ink(Concat(TextsOf(g))) + Ink(Concat(TextsOf(h)))
  {
    assert TextsOf(g + h) == TextsOf(g) + TextsOf(h);
    ConcatOfConcat(TextsOf(g), TextsOf(h));
    InkOfConcat(Concat(TextsOf(g)), Concat(TextsOf(h)));
  }

  /** The segments show every visible character of the tokens, in order, and no other. */
  lemma {:induction false} SegmentsKeepInk(segments: seq<Segment>, groups: seq<Group>)
    requires |segments| == |groups|
    requires forall k :: 0 <= k < |groups| ==> Ink(segments[k].text) == Ink(Concat(TextsOf(groups[k])))
    ensures Ink(AllTexts(segments)) == Ink(Concat(TextsOf(Flatten(groups))))
  {
    if groups != [] {
      var n := |groups| - 1;
      var init := Flatten(groups[..n]);
      SegmentsKeepInk(segments[..n], groups[..n]);
      InkOfConcat(AllTexts(segments[..n]), segments[n].text);
      InkOfTwoGroups(init, groups[n]);
    } else {
      assert TextsOf([]) == [];
    }
  }

  // ---- Assembling ----

  function FormattedLine(s: Segment): string
    requires s.speaker.Some?
  {
    s.speaker.value + (if s.overlapping then " [overlap]" else "") + ": " + s.text
  }

  function Formatted(segments: seq<Segment>): (text: string)
    requires forall k :: 0 <= k < |segments| ==> segments[k].speaker.Some?
    ensures segments != [] ==> text != ""
  {
    if segments == [] then ""
    else
      var n := |segments| - 1;
      Formatted(segments[..n]) + (if n == 0 then "" else "\n") + FormattedLine(segments[n])
  }

  predicate Accepted(transcript: Transcript, turns: seq<Turn>) {
    !Blank(transcript.text) && transcript.segments != [] && turns != []
  }

  ghost predicate AllRightful(tokens: seq<Token>, turns: seq<Turn>, threshold: real, spoken: seq<Assigned>) {
    Carries(spoken, tokens) && forall k :: 0 <= k < |tokens| ==> Rightful(tokens[k], turns, threshold, spoken[k])
  }

  method AssignAll(tokens: seq<Token>, turns: seq<Turn>, threshold: real) returns (spoken: seq<Assigned>)
    requires forall k :: 0 <= k < |tokens| ==> tokens[k].Valid()
    ensures AllRightful(tokens, turns, threshold, spoken) && AllValid(spoken)
  {
    spoken := [];
    for i := 0 to |tokens|
      invariant AllRightful(tokens[..i], turns, threshold, spoken) && AllValid(spoken)
    {
      TakeOneMore(tokens, i);
      var item := Assign(tokens[i], turns, threshold);
      spoken := spoken + [item];
    }
    assert tokens[..|tokens|] == tokens;
  }

  predicate Buildable(g: Group) {
    g != [] && Readable(g) && Fits(g)
  }

  ghost predicate ShownAs(groups: seq<Group>, labels: map<string, string>, segments: seq<Segment>) {
    && |segments| == |groups|
    && forall k :: 0 <= k < |groups| ==>
         groups[k] != [] && groups[k][0].speaker in labels && segments[k].Valid()
         && Shows(segments[k], groups[k], labels[groups[k][0].speaker])
  }

  lemma GroupIsLabelled(spoken: seq<Assigned>, groups: seq<Group>, labels: map<string, string>, k: nat)
    requires Grouping(spoken, groups) && Labels(spoken, |spoken|, labels) && AllValid(spoken) && k < |groups|
    ensures groups[k] != [] && groups[k][0].speaker in labels && AllValid(groups[k])
  {
    var g := groups[k];
    var at := GroupIsASlice(groups, k);
    assert forall m :: 0 <= m < |g| ==> g[m] == spoken[at + m];
    assert g[0].speaker == UNKNOWN || g[0].speaker in Known(spoken, |spoken|);
  }

  lemma ShowingOneMore(groups: seq<Group>, labels: map<string, string>, built: seq<Segment>, g: Group, s: Segment)
    requires ShownAs(groups, labels, built)
    requires g != [] && g[0].speaker in labels && s.Valid() && Shows(s, g, labels[g[0].speaker])
    ensures ShownAs(groups + [g], labels, built + [s])
  {
    forall k | 0 <= k < |groups + [g]|
      ensures (groups + [g])[k] != [] && (groups + [g])[k][0].speaker in labels && (built + [s])[k].Valid()
      ensures Shows((built + [s])[k], (groups + [g])[k], labels[(groups + [g])[k][0].speaker])
    {
      if k < |groups| {
        assert (groups + [g])[k] == groups[k] && (built + [s])[k] == built[k];
      }
    }
  }

  lemma ShownSegmentsHaveSpeakers(
    spoken: seq<Assigned>, groups: seq<Group>, labels: map<string, string>, segments: seq<Segment>)
    requires spoken != [] && Flatten(groups) == spoken && ShownAs(groups, labels, segments)
    ensures segments != [] && forall k :: 0 <= k < |segments| ==> segments[k].speaker.Some?
  {
  }

  lemma SegmentsHaveSpeakers(spoken: seq<Assigned>, labels: map<string, string>, segments: seq<Segment>)
    requires spoken != [] && SegmentsOf(spoken, labels, Ok(segments))
    ensures segments != [] && forall k :: 0 <= k < |segments| ==> segments[k].speaker.Some?
  {
    var groups :| Grouping(spoken, groups) && SegmentsOfGroups(groups, labels, Ok(segments));
    ShownSegmentsHaveSpeakers(spoken, groups, labels, segments);
  }

  /** One segment for each group, or an error if some group cannot be built. */
  ghost predicate SegmentsOf(spoken: seq<Assigned>, labels: map<string, string>, segments: Checked<seq<Segment>>) {
    exists groups :: Grouping(spoken, groups) && SegmentsOfGroups(groups, labels, segments)
  }

  ghost predicate SegmentsOfGroups(groups: seq<Group>, labels: map<string, string>, segments: Checked<seq<Segment>>) {
    && (segments.Ok? <==> forall k :: 0 <= k < |groups| ==> Buildable(groups[k]))
    && (segments.Ok? ==> ShownAs(groups, labels, segments.value))
  }

  method Segments(spoken: seq<Assigned>, labels: map<string, string>) returns (segments: Checked<seq<Segment>>)
    requires AllValid(spoken) && Labels(spoken, |spoken|, labels)
    ensures SegmentsOf(spoken, labels, segments)
  {
    var groups := Groups(spoken);
    var built: seq<Segment> := [];
    for i := 0 to |groups|
      invariant forall k :: 0 <= k < i ==> Buildable(groups[k])
      invariant ShownAs(groups[..i], labels, built)
    {
      GroupIsLabelled(spoken, groups, labels, i);
      var segment := BuildSegment(groups[i], labels[groups[i][0].speaker]);
      if segment.ValueError? {
        assert !Buildable(groups[i]);
        assert SegmentsOfGroups(groups, labels, ValueError);
        return ValueError;
      }
      ShowingOneMore(groups[..i], labels, built, groups[i], segment.value);
      TakeOneMore(groups, i);
      built := built + [segment.value];
    }
    assert groups[..|groups|] == groups;
    assert SegmentsOfGroups(groups, labels, Ok(built));
    return Ok(built);
  }

  /** The conversation of a transcript whose tokens are spoken like this. */
  ghost predicate ConversationOf(transcript: Transcript, spoken: seq<Assigned>, c: Checked<Conversation>) {
    exists labels, segments ::
      && Labels(spoken, |spoken|, labels) && SegmentsOf(spoken, labels, segments)
      && (c.Ok? <==> segments.Ok?)
      && (c.Ok? ==> Shown(transcript, spoken, segments.value, c.value))
  }

  ghost predicate Shown(transcript: Transcript, spoken: seq<Assigned>, segments: seq<Segment>, c: Conversation) {
    && c.segments == segments && c.rawTranscript == Strip(transcript.text) && c.rawTranscript != ""
    && c.speakerCount == |Known(spoken, |spoken|)|
    && (forall k :: 0 <= k < |segments| ==> segments[k].speaker.Some?)
    && c.formatted == Formatted(segments) && c.formatted != ""
  }

  /** Every token gets its rightful speaker, every group its segment; or there is nothing to align. */
  ghost predicate Assembled(transcript: Transcript, turns: seq<Turn>, threshold: real, c: Checked<Conversation>) {
    if !Accepted(transcript, turns) then c.ValueError?
    else
      exists spoken ::
        AllRightful(TokensOf(transcript.segments), turns, threshold, spoken) && ConversationOf(transcript, spoken, c)
  }

  method Assemble(transcript: Transcript, turns: seq<Turn>, threshold: real) returns (c: Checked<Conversation>)
    requires transcript.Valid()
    ensures Assembled(transcript, turns, threshold, c)
  {
    if Strip(transcript.text) == "" || transcript.segments == [] {
      return ValueError;
    }
    if turns == [] {
      return ValueError;
    }
    var tokens := Tokens(transcript.segments);
    TokensAreValid(transcript.segments);
    var spoken := AssignAll(tokens, turns, threshold);
    var labels := SpeakerLabels(spoken);
    var segments := Segments(spoken, labels);
    if segments.ValueError? {
      assert ConversationOf(transcript, spoken, ValueError);
      return ValueError;
    }
    SegmentsHaveSpeakers(spoken, labels, segments.value);
    var conversation :=
      Conversation(Strip(transcript.text), Formatted(segments.value), segments.value, |labels| - 1);
    assert Shown(transcript, spoken, segments.value, conversation);
    assert ConversationOf(transcript, spoken, Ok(conversation));
    return Ok(conversation);
  }

  /** Alignment loses nothing: the conversation has the transcript's words, each once and in order. */
  lemma ConversationKeepsWords(transcript: Transcript, spoken: seq<Assigned>, c: Conversation)
    requires Carries(spoken, TokensOf(transcript.segments)) && ConversationOf(transcript, spoken, Ok(c))
    ensures AllWords(c.segments) == AllWords(transcript.segments)
    ensures Ink(AllTexts(c.segments)) == Ink(Concat(TextsOf(spoken)))
  {
    var labels, segments: Checked<seq<Segment>> :|
      Labels(spoken, |spoken|, labels) && SegmentsOf(spoken, labels, segments)
      && segments.Ok? && Shown(transcript, spoken, segments.value, c);
    var groups :| Grouping(spoken, groups) && SegmentsOfGroups(groups, labels, segments);
    SegmentsKeepWords(c.segments, groups);
    TokensKeepWords(transcript.segments, spoken);
    SegmentsKeepInk(c.segments, groups);
  }

  // ---- There is one outcome ----

  lemma RightfulIsUnique(t: Token, turns: seq<Turn>, threshold: real, a: Assigned, b: Assigned)
    requires t.start <= t.end && Rightful(t, turns, threshold, a) && Rightful(t, turns, threshold, b)
    ensures a == b
  {
    if k :| 0 <= k < |turns| && Meets(t, turns[k]) {
      var c := MeetingTurnIsChosen(t, turns, k);
    }
  }

  lemma LabelsAreUnique(spoken: seq<Assigned>, a: map<string, string>, b: map<string, string>)
    requires Labels(spoken, |spoken|, a) && Labels(spoken, |spoken|, b)
    ensures a == b
  {
    forall speaker | speaker in a ensures speaker in b && a[speaker] == b[speaker] {
      if speaker != UNKNOWN {
        var i := LabelOf(spoken, a, speaker);
        assert NumberedAt(spoken, b, i);
      }
    }
    assert a.Keys == b.Keys;
  }

  lemma SegmentsAreUnique(groups: seq<Group>, labels: map<string, string>, a: seq<Segment>, b: seq<Segment>)
    requires ShownAs(groups, labels, a) && ShownAs(groups, labels, b)
    ensures a == b
  {
  }

  lemma SegmentsOfAreUnique(spoken: seq<Assigned>, labels: map<string, string>,
    a: Checked<seq<Segment>>, b: Checked<seq<Segment>>)
    requires SegmentsOf(spoken, labels, a) && SegmentsOf(spoken, labels, b)
    ensures a == b
  {
    var g :| Grouping(spoken, g) && SegmentsOfGroups(g, labels, a);
    var h :| Grouping(spoken, h) && SegmentsOfGroups(h, labels, b);
    GroupingIsUnique(spoken, g, h);
    if a.Ok? {
      SegmentsAreUnique(g, labels, a.value, b.value);
    }
  }

  lemma ConversationIsUnique(transcript: Transcript, spoken: seq<Assigned>,
    a: Checked<Conversation>, b: Checked<Conversation>)
    requires ConversationOf(transcript, spoken, a) && ConversationOf(transcript, spoken, b)
    ensures a == b
  {
    var l, s :| Labels(spoken, |spoken|, l) && SegmentsOf(spoken, l, s) && (a.Ok? <==> s.Ok?)
      && (a.Ok? ==> Shown(transcript, spoken, s.value, a.value));
    var m, t :| Labels(spoken, |spoken|, m) && SegmentsOf(spoken, m, t) && (b.Ok? <==> t.Ok?)
      && (b.Ok? ==> Shown(transcript, spoken, t.value, b.value));
    LabelsAreUnique(spoken, l, m);
    SegmentsOfAreUnique(spoken, l, s, t);
  }

  lemma SpeakersAreUnique(tokens: seq<Token>, turns: seq<Turn>, threshold: real, a: seq<Assigned>, b: seq<Assigned>)
    requires forall k :: 0 <= k < |tokens| ==> tokens[k].Valid()
    requires AllRightful(tokens, turns, threshold, a) && AllRightful(tokens, turns, threshold, b)
    ensures a == b
  {
    forall k | 0 <= k < |tokens| ensures a[k] == b[k] {
      RightfulIsUnique(tokens[k], turns, threshold, a[k], b[k]);
    }
  }

  /** The same transcript, turns and threshold always give the same outcome. */
  lemma OutcomeIsUnique(transcript: Transcript, turns: seq<Turn>, threshold: real,
    a: Checked<Conversation>, b: Checked<Conversation>)
    requires transcript.Valid() && Assembled(transcript, turns, threshold, a)
      && Assembled(transcript, turns, threshold, b)
    ensures a == b
  {
    if Accepted(transcript, turns) {
      var tokens := TokensOf(transcript.segments);
      TokensAreValid(transcript.segments);
      var x :| AllRightful(tokens, turns, threshold, x) && ConversationOf(transcript, x, a);
      var y :| AllRightful(tokens, turns, threshold, y) && ConversationOf(transcript, y, b);
      SpeakersAreUnique(tokens, turns, threshold, x, y);
      ConversationIsUnique(transcript, x, a, b);
    }
  }

  lemma WellTimedGroupsAreBuildable(spoken: seq<Assigned>, groups: seq<Group>)
    requires Grouping(spoken, groups) && AllValid(spoken) && InTime(spoken)
    requires forall k :: 0 <= k < |spoken| ==> !Blank(spoken[k].token.text)
    ensures forall k :: 0 <= k < |groups| ==> Buildable(groups[k])
  {
    forall k | 0 <= k < |groups| ensures Buildable(groups[k]) {
      GroupsInTimeFit(spoken, groups, k);
      var at := GroupIsASlice(groups, k);
      assert groups[k][0] == spoken[at];
    }
  }

  lemma RightfulIsValid(t: Token, turns: seq<Turn>, threshold: real, a: Assigned)
    requires t.Valid() && Rightful(t, turns, threshold, a)
    ensures a.Valid()
  {
    if k :| 0 <= k < |turns| && Meets(t, turns[k]) {
      var c := MeetingTurnIsChosen(t, turns, k);
      ConfidenceIsAScore(t, turns[c]);
    }
  }

  /** No token is blank, and neither starts nor ends ever go back. */
  predicate WellTimed(tokens: seq<Token>) {
    && (forall k :: 0 <= k < |tokens| ==> !Blank(tokens[k].text))
    && (forall k, l :: 0 <= k < l < |tokens| ==> tokens[k].start <= tokens[l].start && tokens[k].end <= tokens[l].end)
  }

  lemma WellTimedTokensAreShown(transcript: Transcript, spoken: seq<Assigned>, c: Checked<Conversation>)
    requires Carries(spoken, TokensOf(transcript.segments))
      && AllValid(spoken) && WellTimed(TokensOf(transcript.segments))
    requires ConversationOf(transcript, spoken, c)
    ensures c.Ok?
  {
    var labels, segments: Checked<seq<Segment>> :|
      Labels(spoken, |spoken|, labels) && SegmentsOf(spoken, labels, segments)
      && (c.Ok? <==> segments.Ok?);
    var groups :| Grouping(spoken, groups) && SegmentsOfGroups(groups, labels, segments);
    WellTimedGroupsAreBuildable(spoken, groups);
  }

  /** A transcript whose words never go back in time and are not blank always makes a conversation. */
  lemma WellTimedWordsAssemble(transcript: Transcript, turns: seq<Turn>, threshold: real, c: Checked<Conversation>)
    requires transcript.Valid() && Accepted(transcript, turns) && WellTimed(TokensOf(transcript.segments))
    requires Assembled(transcript, turns, threshold, c)
    ensures c.Ok?
  {
    var tokens := TokensOf(transcript.segments);
    TokensAreValid(transcript.segments);
    var spoken: seq<Assigned> :| AllRightful(tokens, turns, threshold, spoken) && ConversationOf(transcript, spoken, c);
    forall k | 0 <= k < |spoken| ensures spoken[k].Valid() {
      RightfulIsValid(tokens[k], turns, threshold, spoken[k]);
    }
    WellTimedTokensAreShown(transcript, spoken, c);
  }
}
