/** Rebuilding readable text from recognized words: only white space is ever added or dropped. */
module TokenTexts {
  import opened Wrappers

  /** The languages that the alignment tells apart; Other stands for those written with spaces between words. */
  datatype Language = Chinese | Japanese | Thai | Other(code: string)

  predicate Unspaced(l: Language) {
    l.Chinese? || l.Japanese? || l.Thai?
  }

  /** Characters that take no space before or after them. */
  datatype Punctuation = Punctuation(closing: string, opening: string, prefixes: string, suffixes: string) {
    /** Whether two neighbouring words are written without a space in between. */
    predicate Attaches(previous: string, token: string)
      requires previous != "" && token != ""
    {
      || token[0] in closing || previous[|previous| - 1] in opening
      || token[0] in prefixes || previous[|previous| - 1] in suffixes
    }

    function Separator(previous: string, token: string): (s: string)
      requires previous != "" && token != ""
      ensures s == "" || s == " "
    {
      if Attaches(previous, token) then "" else " "
    }
  }

  const PUNCTUATION := Punctuation(
    ",.!?;:%)]}\U{bb}\U{2019}\U{201d}\U{2026}\U{ff0c}\U{3002}\U{ff01}\U{ff1f}\U{ff1b}\U{ff1a}" +
    "\U{3001}\U{ff09}\U{3011}\U{300b}\U{300d}\U{300f}\U{ff05}",
    "([{\U{ab}\U{2018}\U{201c}\U{ff08}\U{3010}\U{300a}\U{300c}\U{300e}",
    "'\U{2019}-\U{2010}\U{2011}/",
    "-\U{2010}\U{2011}/")

  /** The characters that Python's str.strip removes. */
  predicate IsSpace(c: char) {
    var u := c as int;
    || 0x09 <= u <= 0x0d || 0x1c <= u <= 0x20 || u == 0x85 || u == 0xa0 || u == 0x1680 || 0x2000 <= u <= 0x200a
    || u == 0x2028 || u == 0x2029 || u == 0x202f || u == 0x205f || u == 0x3000
  }

  function StripLeft(s: string): string {
    if s != "" && IsSpace(s[0]) then StripLeft(s[1..]) else s
  }

  function StripRight(s: string): string {
    if s != "" && IsSpace(s[|s| - 1]) then StripRight(s[..|s| - 1]) else s
  }

  function Strip(s: string): string {
    StripRight(StripLeft(s))
  }

  /** What is left of a text without its white space. */
  function Ink(s: string): string {
    if s == "" then "" else Ink(s[..|s| - 1]) + (if IsSpace(s[|s| - 1]) then "" else [s[|s| - 1]])
  }

  predicate Blank(s: string) {
    Strip(s) == ""
  }

  predicate NoneEmpty(texts: seq<string>) {
    forall k :: 0 <= k < |texts| ==> texts[k] != ""
  }

  /** The stripped texts that are not blank. */
  function Stripped(texts: seq<string>): (ts: seq<string>)
    ensures NoneEmpty(ts)
  {
    if texts == [] then []
    else
      Stripped(texts[..|texts| - 1]) + (if Blank(texts[|texts| - 1]) then [] else [Strip(texts[|texts| - 1])])
  }

  function Concat(texts: seq<string>): (s: string)
    ensures texts != [] && texts[|texts| - 1] != "" ==> s != ""
  {
    if texts == [] then "" else Concat(texts[..|texts| - 1]) + texts[|texts| - 1]
  }

  /** Words separated by single spaces, save where they attach to each other. */
  function Spaced(p: Punctuation, tokens: seq<string>): (s: string)
    requires tokens != [] && NoneEmpty(tokens)
    ensures s != ""
  {
    var n := |tokens| - 1;
    if n == 0 then tokens[0]
    else Spaced(p, tokens[..n]) + p.Separator(tokens[n - 1], tokens[n]) + tokens[n]
  }

  function Joined(texts: seq<string>, language: Language): (s: string)
    requires Stripped(texts) != []
  {
    if Unspaced(language) then Concat(Stripped(texts)) else Spaced(PUNCTUATION, Stripped(texts))
  }

  lemma StrippedWithLast(texts: seq<string>, last: string)
    ensures Stripped(texts + [last]) == Stripped(texts) + (if Blank(last) then [] else [Strip(last)])
  {
    assert (texts + [last])[..|texts|] == texts;
  }

  lemma SpacedWithLast(p: Punctuation, tokens: seq<string>, last: string)
    requires tokens != [] && NoneEmpty(tokens) && last != ""
    ensures NoneEmpty(tokens + [last])
    ensures Spaced(p, tokens + [last]) ==
            Spaced(p, tokens) + p.Separator(tokens[|tokens| - 1], last) + last
  {
    assert (tokens + [last])[..|tokens|] == tokens;
  }

  method JoinTokenTexts(texts: seq<string>, language: Language) returns (joined: Checked<string>)
    ensures joined.ValueError? <==> forall k :: 0 <= k < |texts| ==> Blank(texts[k])
    ensures joined.Ok? ==> Stripped(texts) != [] && joined.value == Joined(texts, language) && joined.value != ""
    ensures joined.Ok? ==> Ink(joined.value) == Ink(Concat(texts))
  {
    var tokens: seq<string> := [];
    for i := 0 to |texts|
      invariant tokens == Stripped(texts[..i])
      invariant tokens == [] <==> forall k :: 0 <= k < i ==> Blank(texts[k])
    {
      assert texts[..i + 1] == texts[..i] + [texts[i]];
      StrippedWithLast(texts[..i], texts[i]);
      if Strip(texts[i]) != "" {
        tokens := tokens + [Strip(texts[i])];
      }
    }
    assert texts[..|texts|] == texts;
    if tokens == [] {
      return ValueError;
    }
    JoiningKeepsInk(texts, language);
    if Unspaced(language) {
      return Ok(Concat(tokens));
    }
    var result := Space(PUNCTUATION, tokens);
    return Ok(result);
  }

  method Space(p: Punctuation, tokens: seq<string>) returns (result: string)
    requires tokens != [] && NoneEmpty(tokens)
    ensures result == Spaced(p, tokens)
  {
    var previous := tokens[0];
    result := tokens[0];
    assert tokens[..1] == [tokens[0]];
    for i := 1 to |tokens|
      invariant result == Spaced(p, tokens[..i]) && previous == tokens[i - 1]
    {
      var separator := p.Separator(previous, tokens[i]);
      assert tokens[..i + 1] == tokens[..i] + [tokens[i]];
      SpacedWithLast(p, tokens[..i], tokens[i]);
      result := result + separator + tokens[i];
      previous := tokens[i];
    }
    assert tokens[..|tokens|] == tokens;
  }

  // ---- Nothing but white space changes ----

  lemma {:induction false} InkOfConcat(a: string, b: string)
    ensures Ink(a + b) == Ink(a) + Ink(b)
  {
    if b == "" {
      assert a + b == a;
    } else {
      InkOfConcat(a, b[..|b| - 1]);
      assert (a + b)[..|a + b| - 1] == a + b[..|b| - 1];
    }
  }

  lemma {:induction false} StripLeftKeepsInk(s: string)
    ensures Ink(StripLeft(s)) == Ink(s)
  {
    if s != "" && IsSpace(s[0]) {
      StripLeftKeepsInk(s[1..]);
      InkOfConcat([s[0]], s[1..]);
      assert s == [s[0]] + s[1..];
      assert Ink([s[0]]) == "";
    }
  }

  lemma {:induction false} StripRightKeepsInk(s: string)
    ensures Ink(StripRight(s)) == Ink(s)
  {
    if s != "" && IsSpace(s[|s| - 1]) {
      StripRightKeepsInk(s[..|s| - 1]);
    }
  }

  lemma StripKeepsInk(s: string)
    ensures Ink(Strip(s)) == Ink(s)
  {
    StripLeftKeepsInk(s);
    StripRightKeepsInk(StripLeft(s));
  }

  lemma ConcatWithLast(texts: seq<string>, last: string)
    ensures Concat(texts + [last]) == Concat(texts) + last
    ensures Ink(Concat(texts + [last])) == Ink(Concat(texts)) + Ink(last)
  {
    assert (texts + [last])[..|texts|] == texts;
    InkOfConcat(Concat(texts), last);
  }

  lemma {:induction false} StrippingKeepsInk(texts: seq<string>)
    ensures Ink(Concat(Stripped(texts))) == Ink(Concat(texts))
  {
    if texts != [] {
      var init, last := texts[..|texts| - 1], texts[|texts| - 1];
      assert texts == init + [last];
      StrippingKeepsInk(init);
      StripKeepsInk(last);
      StrippedWithLast(init, last);
      ConcatWithLast(init, last);
      if Blank(last) {
        assert Ink("") == "" && Stripped(texts) == Stripped(init);
      } else {
        ConcatWithLast(Stripped(init), Strip(last));
      }
    }
  }

  lemma SeparatorsHaveNoInk(a: string, separator: string, b: string)
    requires separator == "" || separator == " "
    ensures Ink(a + separator + b) == Ink(a) + Ink(b)
  {
    assert Ink(" ") == "";
    InkOfConcat(a + separator, b);
    InkOfConcat(a, separator);
  }

  lemma {:induction false} SpacingKeepsInk(p: Punctuation, tokens: seq<string>)
    requires tokens != [] && NoneEmpty(tokens)
    ensures Ink(Spaced(p, tokens)) == Ink(Concat(tokens))
  {
    var init, last := tokens[..|tokens| - 1], tokens[|tokens| - 1];
    assert tokens == init + [last];
    ConcatWithLast(init, last);
    if init != [] {
      SpacingKeepsInk(p, init);
      SpacedWithLast(p, init, last);
      SeparatorsHaveNoInk(Spaced(p, init), p.Separator(init[|init| - 1], last), last);
    }
  }

  /** Joining keeps every visible character, in order. */
  lemma JoiningKeepsInk(texts: seq<string>, language: Language)
    requires Stripped(texts) != []
    ensures Ink(Joined(texts, language)) == Ink(Concat(texts))
  {
    StrippingKeepsInk(texts);
    if !Unspaced(language) {
      SpacingKeepsInk(PUNCTUATION, Stripped(texts));
    }
  }

  // ---- Numbers in labels ----

  function Digit(n: nat): char
    requires n < 10
  {
    "0123456789"[n]
  }

  function Decimal(n: nat): (s: string)
    ensures s != ""
  {
    if n < 10 then [Digit(n)] else Decimal(n / 10) + [Digit(n % 10)]
  }

  lemma DigitsDiffer(m: nat, n: nat)
    requires m < 10 && n < 10 && Digit(m) == Digit(n)
    ensures m == n
  {
  }

  lemma LastDigit(n: nat)
    ensures Decimal(n)[|Decimal(n)| - 1] == Digit(n % 10)
    ensures if n < 10 then |Decimal(n)| == 1 else Decimal(n)[..|Decimal(n)| - 1] == Decimal(n / 10)
  {
  }

  lemma {:induction false} DecimalIsInjective(m: nat, n: nat)
    requires Decimal(m) == Decimal(n)
    ensures m == n
  {
    LastDigit(m);
    LastDigit(n);
    DigitsDiffer(m % 10, n % 10);
    if m >= 10 && n >= 10 {
      DecimalIsInjective(m / 10, n / 10);
    }
  }
}
