/** The HTML escaper of the e-mail templates, and the entity decoder of their plain-text part. */
module Escaping {
  /** JavaScript's global replacement of a non-empty pattern: left to right, matches do not overlap. */
  function ReplaceAll(s: string, pattern: string, to: string): string
    requires pattern != ""
    decreases |s|
  {
    if s == "" then ""
    else if pattern <= s then to + ReplaceAll(s[|pattern|..], pattern, to)
    else [s[0]] + ReplaceAll(s[1..], pattern, to)
  }

  predicate IsSpecial(c: char) {
    c == '&' || c == '<' || c == '>' || c == '"' || c == '\''
  }

  function Entity(c: char): (r: string)
    ensures r != ""
    ensures IsSpecial(c) ==> |r| > 1 && r[0] == '&' && forall i | 0 < i < |r| :: !IsSpecial(r[i])
    ensures !IsSpecial(c) ==> r == [c]
  {
    match c
    case '&' => "&amp;"
    case '<' => "&lt;"
    case '>' => "&gt;"
    case '"' => "&quot;"
    case '\'' => "&#39;"
    case _ => [c]
  }

  function EscapeHtml(value: string): string {
    var a := ReplaceAll(value, "&", "&amp;");
    var b := ReplaceAll(a, "<", "&lt;");
    var c := ReplaceAll(b, ">", "&gt;");
    var d := ReplaceAll(c, "\"", "&quot;");
    ReplaceAll(d, "'", "&#39;")
  }

  function DecodeEntities(input: string): string {
    var a := ReplaceAll(input, "&nbsp;", " ");
    var b := ReplaceAll(a, "&amp;", "&");
    DecodeRest(b)
  }

  /** The decoder after its step for the ampersand. */
  function DecodeRest(input: string): string {
    var c := ReplaceAll(input, "&lt;", "<");
    var d := ReplaceAll(c, "&gt;", ">");
    var e := ReplaceAll(d, "&quot;", "\"");
    ReplaceAll(e, "&#39;", "'")
  }

  /** The reference: each of the given characters becomes its entity, in a single pass. */
  function Encode(s: string, specials: set<char>): string {
    if s == "" then ""
    else (if s[0] in specials then Entity(s[0]) else [s[0]]) + Encode(s[1..], specials)
  }

  const SPECIALS := {'&', '<', '>', '"', '\''}

  lemma EncodeHead(c: char, rest: string, specials: set<char>)
    ensures Encode([c] + rest, specials) == (if c in specials then Entity(c) else [c]) + Encode(rest, specials)
  {
    assert ([c] + rest)[1..] == rest;
  }

  lemma ReplaceMatch(pattern: string, rest: string, to: string)
    requires pattern != ""
    ensures ReplaceAll(pattern + rest, pattern, to) == to + ReplaceAll(rest, pattern, to)
  {
    assert (pattern + rest)[|pattern|..] == rest;
  }

  lemma ReplaceSkip(c: char, rest: string, pattern: string, to: string)
    requires pattern != "" && !(pattern <= [c] + rest)
    ensures ReplaceAll([c] + rest, pattern, to) == [c] + ReplaceAll(rest, pattern, to)
  {
    assert ([c] + rest)[1..] == rest;
  }

  /** A stretch in which no character starts the pattern is passed over. */
  lemma {:induction false} ReplacePasses(stretch: string, rest: string, pattern: string, to: string)
    requires pattern != "" && forall i | 0 <= i < |stretch| :: stretch[i] != pattern[0]
    ensures ReplaceAll(stretch + rest, pattern, to) == stretch + ReplaceAll(rest, pattern, to)
  {
    if stretch == "" {
      assert stretch + rest == rest;
    } else {
      assert stretch + rest == [stretch[0]] + (stretch[1..] + rest);
      ReplaceSkip(stretch[0], stretch[1..] + rest, pattern, to);
      ReplacePasses(stretch[1..], rest, pattern, to);
      assert stretch == [stretch[0]] + stretch[1..];
    }
  }

  // Escaping.

  /** One more replacement by a character's entity: the entities already there contain none of them. */
  lemma {:induction false} EscapeOneMore(s: string, specials: set<char>, c: char)
    requires IsSpecial(c) && c != '&' && c !in specials && forall d | d in specials :: IsSpecial(d)
    ensures ReplaceAll(Encode(s, specials), [c], Entity(c)) == Encode(s, specials + {c})
  {
    if s != "" {
      EscapeOneMore(s[1..], specials, c);
      var rest := Encode(s[1..], specials);
      if s[0] == c {
        ReplaceMatch([c], rest, Entity(c));
      } else {
        ReplacePasses(if s[0] in specials then Entity(s[0]) else [s[0]], rest, [c], Entity(c));
      }
    }
  }

  lemma {:induction false} EscapeFirst(s: string)
    ensures ReplaceAll(s, "&", "&amp;") == Encode(s, {'&'})
  {
    if s != "" { EscapeFirst(s[1..]); }
  }

  /** The five chained replacements are the single-pass map. */
  lemma EscapeIsSinglePass(value: string)
    ensures EscapeHtml(value) == Encode(value, SPECIALS)
  {
    EscapeFirst(value);
    EscapeOneMore(value, {'&'}, '<');
    EscapeOneMore(value, {'&', '<'}, '>');
    EscapeOneMore(value, {'&', '<', '>'}, '"');
    EscapeOneMore(value, {'&', '<', '>', '"'}, '\'');
    assert {'&'} + {'<'} == {'&', '<'};
    assert {'&', '<'} + {'>'} == {'&', '<', '>'};
    assert {'&', '<', '>'} + {'"'} == {'&', '<', '>', '"'};
    assert {'&', '<', '>', '"'} + {'\''} == SPECIALS;
  }

  lemma EntitiesApart(c: char, d: char, x: string, y: string)
    requires Entity(c) + x == Entity(d) + y
    ensures c == d && x == y
  {
    assert (Entity(c) + x)[0] == (Entity(d) + y)[0];
    if IsSpecial(c) {
      assert (Entity(c) + x)[1] == (Entity(d) + y)[1];
      assert (Entity(c) + x)[2] == (Entity(d) + y)[2];
    }
    assert x == (Entity(c) + x)[|Entity(c)|..];
    assert y == (Entity(d) + y)[|Entity(d)|..];
  }

  lemma {:induction false} EncodeInjective(s: string, t: string)
    requires Encode(s, SPECIALS) == Encode(t, SPECIALS)
    ensures s == t
  {
    if s != "" && t != "" {
      EntitiesApart(s[0], t[0], Encode(s[1..], SPECIALS), Encode(t[1..], SPECIALS));
      EncodeInjective(s[1..], t[1..]);
      assert s == [s[0]] + s[1..] && t == [t[0]] + t[1..];
    }
  }

  /** Different values never escape to the same text. */
  lemma EscapeInjective(s: string, t: string)
    requires EscapeHtml(s) == EscapeHtml(t)
    ensures s == t
  {
    EscapeIsSinglePass(s);
    EscapeIsSinglePass(t);
    EncodeInjective(s, t);
  }

  // Decoding.

  /** The entity of another character does not start here, and nothing starts inside it. */
  lemma OtherEntityPasses(c: char, d: char, rest: string, to: string)
    requires IsSpecial(c) && IsSpecial(d) && c != d
    ensures ReplaceAll(Entity(d) + rest, Entity(c), to) == Entity(d) + ReplaceAll(rest, Entity(c), to)
  {
    var e := Entity(d);
    assert (e + rest)[1] == e[1] != Entity(c)[1];
    assert e + rest == [e[0]] + (e[1..] + rest);
    ReplaceSkip(e[0], e[1..] + rest, Entity(c), to);
    ReplacePasses(e[1..], rest, Entity(c), to);
    assert e == [e[0]] + e[1..];
  }

  lemma NoSpaceHere(c: char, rest: string)
    ensures ReplaceAll(Entity(c) + rest, "&nbsp;", " ") == Entity(c) + ReplaceAll(rest, "&nbsp;", " ")
  {
    var e := Entity(c);
    if IsSpecial(c) {
      assert (e + rest)[1] == e[1] != 'n';
      assert e + rest == [e[0]] + (e[1..] + rest);
      ReplaceSkip(e[0], e[1..] + rest, "&nbsp;", " ");
      ReplacePasses(e[1..], rest, "&nbsp;", " ");
      assert e == [e[0]] + e[1..];
    } else {
      ReplacePasses(e, rest, "&nbsp;", " ");
    }
  }

  /** An escaped text contains no non-breaking space entity. */
  lemma {:induction false} NoSpaceEntity(s: string)
    ensures ReplaceAll(Encode(s, SPECIALS), "&nbsp;", " ") == Encode(s, SPECIALS)
  {
    if s != "" {
      NoSpaceEntity(s[1..]);
      NoSpaceHere(s[0], Encode(s[1..], SPECIALS));
    }
  }

  /** The step for the ampersand undoes the escaping of ampersands and nothing else. */
  lemma {:induction false} AmpersandsBack(s: string)
    ensures ReplaceAll(Encode(s, SPECIALS), "&amp;", "&") == Encode(s, SPECIALS - {'&'})
  {
    if s != "" {
      AmpersandsBack(s[1..]);
      var rest := Encode(s[1..], SPECIALS);
      if s[0] == '&' {
        ReplaceMatch("&amp;", rest, "&");
      } else if IsSpecial(s[0]) {
        OtherEntityPasses('&', s[0], rest, "&");
      } else {
        ReplacePasses([s[0]], rest, "&amp;", "&");
      }
    }
  }

  /** A text without ampersands that the encoding starts with is what the value starts with. */
  lemma {:induction false} RawPrefix(p: string, s: string, specials: set<char>)
    requires (forall i | 0 <= i < |p| :: p[i] != '&') && (forall d | d in specials :: IsSpecial(d))
    requires p <= Encode(s, specials)
    ensures p <= s
  {
    if p != "" {
      assert Encode(s, specials)[0] == p[0];
      assert Encode(s, specials)[1..] == Encode(s[1..], specials);
      assert p[1..] <= Encode(s, specials)[1..];
      RawPrefix(p[1..], s[1..], specials);
      assert p == [p[0]] + p[1..] && s == [s[0]] + s[1..];
    }
  }

  /** Encoding leaves the text of an entity alone. */
  lemma {:induction false} PlainStays(p: string, rest: string, specials: set<char>)
    requires forall i | 0 <= i < |p| :: p[i] !in specials
    ensures Encode(p + rest, specials) == p + Encode(rest, specials)
  {
    if p == "" {
      assert p + rest == rest;
    } else {
      PlainStays(p[1..], rest, specials);
      assert p + rest == [p[0]] + (p[1..] + rest);
      EncodeHead(p[0], p[1..] + rest, specials);
      assert p == [p[0]] + p[1..];
    }
  }

  /**
   * One decoding step turns back both what the escaper wrote for the character and what the value
   * itself contained as the text of that entity.
   */
  lemma {:induction false} DecodeOneMore(s: string, specials: set<char>, c: char)
    requires IsSpecial(c) && c in specials && '&' !in specials && forall d | d in specials :: IsSpecial(d)
    ensures ReplaceAll(Encode(s, specials), Entity(c), [c]) == Encode(ReplaceAll(s, Entity(c), [c]), specials - {c})
    decreases |s|
  {
    var e := Entity(c);
    if s == "" {
    } else if e <= s {
      var rest := s[|e|..];
      assert s == e + rest;
      DecodeOneMore(rest, specials, c);
      PlainStays(e, rest, specials);
      ReplaceMatch(e, Encode(rest, specials), [c]);
      ReplaceMatch(e, rest, [c]);
      EncodeHead(c, ReplaceAll(rest, e, [c]), specials - {c});
    } else {
      var rest := s[1..];
      assert s == [s[0]] + rest;
      DecodeOneMore(rest, specials, c);
      ReplaceSkip(s[0], rest, e, [c]);
      EncodeHead(s[0], rest, specials);
      EncodeHead(s[0], ReplaceAll(rest, e, [c]), specials - {c});
      if s[0] == c {
        ReplaceMatch(e, Encode(rest, specials), [c]);
      } else if s[0] in specials {
        OtherEntityPasses(c, s[0], Encode(rest, specials), [c]);
      } else {
        if e <= [s[0]] + Encode(rest, specials) { RawEntity(c, s, specials); }
        ReplaceSkip(s[0], Encode(rest, specials), e, [c]);
      }
    }
  }

  /** If the encoding starts with an entity that no escaping wrote, the value starts with it. */
  lemma RawEntity(c: char, s: string, specials: set<char>)
    requires IsSpecial(c) && s != "" && s[0] !in specials && (forall d | d in specials :: IsSpecial(d))
    requires Entity(c) <= [s[0]] + Encode(s[1..], specials)
    ensures Entity(c) <= s
  {
    var e := Entity(c);
    assert ([s[0]] + Encode(s[1..], specials))[1..] == Encode(s[1..], specials);
    assert e[1..] <= Encode(s[1..], specials);
    RawPrefix(e[1..], s[1..], specials);
    assert e == [e[0]] + e[1..] && s == [s[0]] + s[1..];
  }

  lemma EncodeNothing(s: string)
    ensures Encode(s, {}) == s
  {
    if s != "" { EncodeNothing(s[1..]); assert s == [s[0]] + s[1..]; }
  }

  /** Decoding an escaped value is decoding the value itself, minus the steps for spaces and ampersands. */
  lemma DecodingEscaped(value: string)
    ensures DecodeEntities(EscapeHtml(value)) == DecodeRest(value)
  {
    EscapeIsSinglePass(value);
    NoSpaceEntity(value);
    AmpersandsBack(value);
    var s4 := SPECIALS - {'&'};
    DecodeOneMore(value, s4, '<');
    var c := ReplaceAll(value, "&lt;", "<");
    DecodeOneMore(c, s4 - {'<'}, '>');
    var d := ReplaceAll(c, "&gt;", ">");
    DecodeOneMore(d, s4 - {'<'} - {'>'}, '"');
    var e := ReplaceAll(d, "&quot;", "\"");
    DecodeOneMore(e, s4 - {'<'} - {'>'} - {'"'}, '\'');
    assert s4 - {'<'} - {'>'} - {'"'} - {'\''} == {};
    EncodeNothing(ReplaceAll(e, "&#39;", "'"));
  }

  predicate Contains(s: string, pattern: string) {
    exists i | 0 <= i <= |s| :: pattern <= s[i..]
  }

  /** The value holds the text of an entity the decoder turns back after the ampersands. */
  predicate HoldsEntity(value: string) {
    Contains(value, "&lt;") || Contains(value, "&gt;") || Contains(value, "&quot;") || Contains(value, "&#39;")
  }

  /** Replacing changes a text exactly when the pattern is there, and then makes it shorter. */
  lemma {:induction false} ReplaceShortens(s: string, pattern: string, to: string)
    requires |to| == 1 < |pattern|
    ensures |ReplaceAll(s, pattern, to)| <= |s|
    ensures Contains(s, pattern) ==> |ReplaceAll(s, pattern, to)| < |s|
    ensures !Contains(s, pattern) ==> ReplaceAll(s, pattern, to) == s
    decreases |s|
  {
    if s == "" {
    } else if pattern <= s {
      ReplaceShortens(s[|pattern|..], pattern, to);
      assert s[0..] == s;
    } else {
      ReplaceShortens(s[1..], pattern, to);
      ContainsTail(s, pattern);
      assert s == [s[0]] + s[1..];
    }
  }

  lemma ContainsTail(s: string, pattern: string)
    requires s != "" && !(pattern <= s)
    ensures Contains(s, pattern) <==> Contains(s[1..], pattern)
  {
    assert s[0..] == s;
    if Contains(s, pattern) {
      var i :| 0 <= i <= |s| && pattern <= s[i..];
      assert s[i..] == s[1..][i - 1..];
    }
    if Contains(s[1..], pattern) {
      var i :| 0 <= i <= |s[1..]| && pattern <= s[1..][i..];
      assert s[1..][i..] == s[i + 1..];
    }
  }

  /** Decoding undoes escaping exactly for the values that hold no such entity themselves. */
  lemma DecodeUndoesEscape(value: string)
    ensures DecodeEntities(EscapeHtml(value)) == value <==> !HoldsEntity(value)
  {
    DecodingEscaped(value);
    var c := ReplaceAll(value, "&lt;", "<");
    var d := ReplaceAll(c, "&gt;", ">");
    var e := ReplaceAll(d, "&quot;", "\"");
    ReplaceShortens(value, "&lt;", "<");
    ReplaceShortens(c, "&gt;", ">");
    ReplaceShortens(d, "&quot;", "\"");
    ReplaceShortens(e, "&#39;", "'");
  }
}
