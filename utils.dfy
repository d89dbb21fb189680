/** The XML escaper of src/utils.js: `escapeXml` turns any value into text that is safe
    to place in XML element content or in a double-quoted attribute value, by replacing
    the five characters that have predefined entities (section 4.6 of the XML 1.0
    recommendation) with those entities. */
module Utils {
  import opened Js

  /** `s.replace(/t/g, replacement)`: every occurrence of the character `t`, left to right. */
  function ReplaceAll(s: string, t: char, replacement: string): string
  {
    if s == [] then []
    else (if s[0] == t then replacement else [s[0]]) + ReplaceAll(s[1..], t, replacement)
  }

  /** The five chained replace-all calls of `escapeXml`, in the source's order. */
  function ChainedReplace(s: string): string
  {
    ReplaceAll(ReplaceAll(ReplaceAll(ReplaceAll(ReplaceAll(s,
      '&', "&amp;"), '<', "&lt;"), '>', "&gt;"), '"', "&quot;"), '\'', "&apos;")
  }

  /** `escapeXml(text)`: a non-string gives the empty string; a string goes through the
      chained replacements, which amount to the per-character map `EscapeText`. */
  function EscapeXml(text: JsValue): (r: string)
    ensures !text.JsString? ==> r == ""
    ensures text.JsString? ==> r == EscapeText(text.s)
  {
    if !text.JsString? then ""
    else
      ChainedReplaceIsPerCharacter(text.s);
      ChainedReplace(text.s)
  }

  // ---------------------------------------------------------------------------
  // The per-character reading of the escaper, and the decoder that undoes it.

  predicate IsReserved(c: char) {
    c == '&' || c == '<' || c == '>' || c == '"' || c == '\''
  }

  predicate NoReserved(s: string) {
    forall i :: 0 <= i < |s| ==> !IsReserved(s[i])
  }

  /** The entity (or the character itself) that one character escapes to. */
  function EscapeChar(c: char): string
  {
    match c
    case '&' => "&amp;"
    case '<' => "&lt;"
    case '>' => "&gt;"
    case '"' => "&quot;"
    case '\'' => "&apos;"
    case _ => [c]
  }

  function EscapeText(s: string): string
  {
    if s == [] then [] else EscapeChar(s[0]) + EscapeText(s[1..])
  }

  /** Replaces each of the five entity references by its character; everything else is kept. */
  function Unescape(s: string): string
    decreases |s|
  {
    if s == [] then []
    else if "&amp;" <= s then "&" + Unescape(s[5..])
    else if "&lt;" <= s then "<" + Unescape(s[4..])
    else if "&gt;" <= s then ">" + Unescape(s[4..])
    else if "&quot;" <= s then "\"" + Unescape(s[6..])
    else if "&apos;" <= s then "'" + Unescape(s[6..])
    else [s[0]] + Unescape(s[1..])
  }

  /** One of the five entity references starts at position `i` of `s`. */
  predicate EntityAt(s: string, i: nat)
    requires i <= |s|
  {
    var t := s[i..];
    "&amp;" <= t || "&lt;" <= t || "&gt;" <= t || "&quot;" <= t || "&apos;" <= t
  }

  /** Every `&` of `s` opens one of the five entity references. */
  predicate AmpersandsAreEntities(s: string) {
    forall i :: 0 <= i < |s| && s[i] == '&' ==> EntityAt(s, i)
  }

  // ---------------------------------------------------------------------------
  // The chained replacements equal the per-character map.

  lemma {:induction false} ReplaceAllAppend(a: string, b: string, t: char, replacement: string)
    ensures ReplaceAll(a + b, t, replacement) == ReplaceAll(a, t, replacement) + ReplaceAll(b, t, replacement)
    decreases |a|
  {
    if a != [] {
      assert (a + b)[1..] == a[1..] + b;
      ReplaceAllAppend(a[1..], b, t, replacement);
    } else {
      assert a + b == b;
    }
  }

  lemma {:induction false} ReplaceAllAbsent(s: string, t: char, replacement: string)
    requires t !in s
    ensures ReplaceAll(s, t, replacement) == s
    decreases |s|
  {
    if s != [] {
      assert t !in s[1..];
      ReplaceAllAbsent(s[1..], t, replacement);
    }
  }

  lemma ChainedReplaceAppend(a: string, b: string)
    ensures ChainedReplace(a + b) == ChainedReplace(a) + ChainedReplace(b)
  {
    var a1, b1 := ReplaceAll(a, '&', "&amp;"), ReplaceAll(b, '&', "&amp;");
    ReplaceAllAppend(a, b, '&', "&amp;");
    var a2, b2 := ReplaceAll(a1, '<', "&lt;"), ReplaceAll(b1, '<', "&lt;");
    ReplaceAllAppend(a1, b1, '<', "&lt;");
    var a3, b3 := ReplaceAll(a2, '>', "&gt;"), ReplaceAll(b2, '>', "&gt;");
    ReplaceAllAppend(a2, b2, '>', "&gt;");
    var a4, b4 := ReplaceAll(a3, '"', "&quot;"), ReplaceAll(b3, '"', "&quot;");
    ReplaceAllAppend(a3, b3, '"', "&quot;");
    ReplaceAllAppend(a4, b4, '\'', "&apos;");
  }

  lemma ReplaceAllSingle(c: char, t: char, replacement: string)
    ensures ReplaceAll([c], t, replacement) == if c == t then replacement else [c]
  {
    assert [c][1..] == [];
  }

  /** The last three steps of the chain leave alone text without `>`, `"` or `'`. */
  lemma LaterStepsKeep(e: string)
    requires '>' !in e && '"' !in e && '\'' !in e
    ensures ReplaceAll(ReplaceAll(ReplaceAll(e, '>', "&gt;"), '"', "&quot;"), '\'', "&apos;") == e
  {
    ReplaceAllAbsent(e, '>', "&gt;");
    ReplaceAllAbsent(e, '"', "&quot;");
    ReplaceAllAbsent(e, '\'', "&apos;");
  }

  /** An entity reference holds no `<`, `>`, `"` or `'`, and its only `&` is the first
      character. */
  lemma EntityFacts(e: string)
    requires e == "&amp;" || e == "&lt;" || e == "&gt;" || e == "&quot;" || e == "&apos;"
    ensures '<' !in e && '>' !in e && '"' !in e && '\'' !in e
    ensures e[0] == '&' && '&' !in e[1..]
  {
  }

  // The chain on a one-character string whose character is reserved: the step for that
  // character produces its entity, and every later step leaves the entity alone. Every
  // step is applied to the previous step's term, never to a string literal, so that the
  // verifier reasons about the steps instead of unfolding them.
  lemma ChainedReplaceAmpersand(c: char)
    requires c == '&'
    ensures ChainedReplace([c]) == "&amp;"
  {
    var s1 := ReplaceAll([c], '&', "&amp;");
    ReplaceAllSingle(c, '&', "&amp;");
    EntityFacts(s1);
    ReplaceAllAbsent(s1, '<', "&lt;");
    LaterStepsKeep(s1);
  }

  lemma ChainedReplaceLessThan(c: char)
    requires c == '<'
    ensures ChainedReplace([c]) == "&lt;"
  {
    var s1 := ReplaceAll([c], '&', "&amp;");
    ReplaceAllSingle(c, '&', "&amp;");
    var s2 := ReplaceAll(s1, '<', "&lt;");
    ReplaceAllSingle(c, '<', "&lt;");
    EntityFacts(s2);
    LaterStepsKeep(s2);
  }

  lemma ChainedReplaceGreaterThan(c: char)
    requires c == '>'
    ensures ChainedReplace([c]) == "&gt;"
  {
    var s1 := ReplaceAll([c], '&', "&amp;");
    ReplaceAllSingle(c, '&', "&amp;");
    var s2 := ReplaceAll(s1, '<', "&lt;");
    ReplaceAllSingle(c, '<', "&lt;");
    var s3 := ReplaceAll(s2, '>', "&gt;");
    ReplaceAllSingle(c, '>', "&gt;");
    EntityFacts(s3);
    ReplaceAllAbsent(s3, '"', "&quot;");
    ReplaceAllAbsent(s3, '\'', "&apos;");
  }

  lemma ChainedReplaceQuote(c: char)
    requires c == '"'
    ensures ChainedReplace([c]) == "&quot;"
  {
    var s1 := ReplaceAll([c], '&', "&amp;");
    ReplaceAllSingle(c, '&', "&amp;");
    var s2 := ReplaceAll(s1, '<', "&lt;");
    ReplaceAllSingle(c, '<', "&lt;");
    var s3 := ReplaceAll(s2, '>', "&gt;");
    ReplaceAllSingle(c, '>', "&gt;");
    var s4 := ReplaceAll(s3, '"', "&quot;");
    ReplaceAllSingle(c, '"', "&quot;");
    EntityFacts(s4);
    ReplaceAllAbsent(s4, '\'', "&apos;");
  }

  lemma ChainedReplaceApostrophe(c: char)
    requires c == '\''
    ensures ChainedReplace([c]) == "&apos;"
  {
    ReplaceAllSingle(c, '&', "&amp;");
    ReplaceAllSingle(c, '<', "&lt;");
    ReplaceAllSingle(c, '>', "&gt;");
    ReplaceAllSingle(c, '"', "&quot;");
    ReplaceAllSingle(c, '\'', "&apos;");
  }

  /** On one character the chain produces exactly that character's entity: `&` is
      replaced first, and no later step's replacement text holds a later target, so
      nothing is escaped twice. */
  lemma ChainedReplaceOnChar(c: char)
    ensures ChainedReplace([c]) == EscapeChar(c)
  {
    if c == '&' {
      ChainedReplaceAmpersand(c);
    } else if c == '<' {
      ChainedReplaceLessThan(c);
    } else if c == '>' {
      ChainedReplaceGreaterThan(c);
    } else if c == '"' {
      ChainedReplaceQuote(c);
    } else if c == '\'' {
      ChainedReplaceApostrophe(c);
    } else {
      ReplaceAllSingle(c, '&', "&amp;");
      ReplaceAllSingle(c, '<', "&lt;");
      ReplaceAllSingle(c, '>', "&gt;");
      ReplaceAllSingle(c, '"', "&quot;");
      ReplaceAllSingle(c, '\'', "&apos;");
    }
  }

  lemma {:induction false} ChainedReplaceIsPerCharacter(s: string)
    ensures ChainedReplace(s) == EscapeText(s)
    decreases |s|
  {
    if s == [] {
    } else {
      assert s == [s[0]] + s[1..];
      ChainedReplaceAppend([s[0]], s[1..]);
      ChainedReplaceOnChar(s[0]);
      ChainedReplaceIsPerCharacter(s[1..]);
    }
  }

  lemma EscapeTextSingle(c: char)
    ensures EscapeText([c]) == EscapeChar(c)
  {
    assert [c][1..] == [];
  }

  /** `escapeXml("&")` is `&amp;`, not `&amp;amp;`; and `<` becomes `&lt;`, whose `&` is
      not escaped again. The characters are parameters pinned by the precondition, so that
      the chain is applied to a one-character term and never to a string literal. */
  lemma AmpersandEscapedOnce(amp: char, lt: char)
    requires amp == '&' && lt == '<'
    ensures EscapeXml(JsString([amp])) == "&amp;"
    ensures EscapeXml(JsString([lt])) == "&lt;"
  {
    EscapeTextSingle(amp);
    EscapeTextSingle(lt);
  }

  /** The order of the chain matters: replacing `&` last would escape the `&` of the
      entities produced before it. */
  function AmpersandLastReplace(s: string): string
  {
    ReplaceAll(ReplaceAll(ReplaceAll(ReplaceAll(ReplaceAll(s,
      '<', "&lt;"), '>', "&gt;"), '"', "&quot;"), '\'', "&apos;"), '&', "&amp;")
  }

  /** Replacing `&` in an entity reference escapes its leading `&` and nothing else. */
  lemma AmpersandStepOnEntity(e: string)
    requires e != [] && e[0] == '&' && '&' !in e[1..]
    ensures ReplaceAll(e, '&', "&amp;") == "&amp;" + e[1..]
  {
    assert e == [e[0]] + e[1..];
    ReplaceAllAppend([e[0]], e[1..], '&', "&amp;");
    ReplaceAllSingle(e[0], '&', "&amp;");
    ReplaceAllAbsent(e[1..], '&', "&amp;");
  }

  /** With `&` replaced last, `<` comes out as `&amp;lt;`, which the chain as written does not
      produce. The character is a parameter pinned by the precondition, for the same reason as
      in `AmpersandEscapedOnce`. */
  lemma AmpersandLastDoubleEscapes(c: char)
    requires c == '<'
    ensures AmpersandLastReplace([c]) == "&amp;lt;"
    ensures AmpersandLastReplace([c]) != ChainedReplace([c])
  {
    var s1 := ReplaceAll([c], '<', "&lt;");
    ReplaceAllSingle(c, '<', "&lt;");
    EntityFacts(s1);
    LaterStepsKeep(s1);
    AmpersandStepOnEntity(s1);
    ChainedReplaceLessThan(c);
  }

  // ---------------------------------------------------------------------------
  // What the escaped text guarantees.

  lemma EscapeCharHasNoMarkup(c: char)
    ensures '<' !in EscapeChar(c) && '>' !in EscapeChar(c)
    ensures '"' !in EscapeChar(c) && '\'' !in EscapeChar(c)
  {
  }

  /** The output holds no raw `<`, `>`, `"` or `'`. */
  lemma {:induction false} EscapeTextHasNoMarkup(s: string)
    ensures '<' !in EscapeText(s) && '>' !in EscapeText(s)
    ensures '"' !in EscapeText(s) && '\'' !in EscapeText(s)
    decreases |s|
  {
    if s != [] {
      EscapeTextHasNoMarkup(s[1..]);
      EscapeCharHasNoMarkup(s[0]);
    }
  }

  lemma EntityAtAppendLeft(a: string, b: string, i: nat)
    requires i <= |a| && EntityAt(a, i)
    ensures EntityAt(a + b, i)
  {
    assert (a + b)[i..] == a[i..] + b;
  }

  lemma EntityAtAppendRight(a: string, b: string, i: nat)
    requires i <= |b| && EntityAt(b, i)
    ensures EntityAt(a + b, |a| + i)
  {
    assert (a + b)[|a| + i..] == b[i..];
  }

  /** Entity well-formedness survives concatenation: an entity never needs what follows it. */
  lemma AmpersandsAreEntitiesAppend(a: string, b: string)
    requires AmpersandsAreEntities(a) && AmpersandsAreEntities(b)
    ensures AmpersandsAreEntities(a + b)
  {
    forall i | 0 <= i < |a + b| && (a + b)[i] == '&'
      ensures EntityAt(a + b, i)
    {
      if i < |a| {
        EntityAtAppendLeft(a, b, i);
      } else {
        EntityAtAppendRight(a, b, i - |a|);
      }
    }
  }

  lemma EscapeCharAmpersands(c: char)
    ensures AmpersandsAreEntities(EscapeChar(c))
  {
    var e := EscapeChar(c);
    if IsReserved(c) {
      assert e[0] == '&' && forall i :: 1 <= i < |e| ==> e[i] != '&';
      assert EntityAt(e, 0);
    }
  }

  /** Every `&` in the output starts one of the five entity references. */
  lemma {:induction false} EscapeTextAmpersandsAreEntities(s: string)
    ensures AmpersandsAreEntities(EscapeText(s))
    decreases |s|
  {
    if s != [] {
      EscapeCharAmpersands(s[0]);
      EscapeTextAmpersandsAreEntities(s[1..]);
      AmpersandsAreEntitiesAppend(EscapeChar(s[0]), EscapeText(s[1..]));
    }
  }

  lemma UnescapeEscapeChar(c: char, t: string)
    ensures Unescape(EscapeChar(c) + t) == [c] + Unescape(t)
  {
    var s := EscapeChar(c) + t;
    if c == '&' {
      assert "&amp;" <= s && s[5..] == t;
    } else if c == '<' {
      assert s[1] == 'l' && !("&amp;" <= s);
      assert "&lt;" <= s && s[4..] == t;
    } else if c == '>' {
      assert s[1] == 'g' && !("&amp;" <= s) && !("&lt;" <= s);
      assert "&gt;" <= s && s[4..] == t;
    } else if c == '"' {
      assert s[1] == 'q' && !("&amp;" <= s) && !("&lt;" <= s) && !("&gt;" <= s);
      assert "&quot;" <= s && s[6..] == t;
    } else if c == '\'' {
      assert s[1] == 'a' && s[2] == 'p' && !("&amp;" <= s) && !("&lt;" <= s) && !("&gt;" <= s) && !("&quot;" <= s);
      assert "&apos;" <= s && s[6..] == t;
    } else {
      assert s[0] == c && s[1..] == t;
    }
  }

  /** Decoding the five entities recovers the original text. */
  lemma {:induction false} UnescapeEscapeText(s: string)
    ensures Unescape(EscapeText(s)) == s
    decreases |s|
  {
    if s != [] {
      UnescapeEscapeChar(s[0], EscapeText(s[1..]));
      UnescapeEscapeText(s[1..]);
    }
  }

  /** Different texts never escape to the same output. */
  lemma EscapeTextInjective(a: string, b: string)
    requires EscapeText(a) == EscapeText(b)
    ensures a == b
  {
    UnescapeEscapeText(a);
    UnescapeEscapeText(b);
  }

  /** The output is never shorter than the input, and is as long only when nothing was escaped. */
  lemma {:induction false} EscapeTextLength(s: string)
    ensures |EscapeText(s)| >= |s|
    ensures |EscapeText(s)| == |s| <==> NoReserved(s)
    decreases |s|
  {
    if s != [] {
      EscapeTextLength(s[1..]);
      assert NoReserved(s) <==> !IsReserved(s[0]) && NoReserved(s[1..]) by {
        if !IsReserved(s[0]) && NoReserved(s[1..]) {
          forall i | 0 <= i < |s| ensures !IsReserved(s[i]) {
            if i > 0 { assert s[i] == s[1..][i - 1]; }
          }
        }
      }
    }
  }

  /** Text with none of the five reserved characters is a fixed point, and only such text is. */
  lemma {:induction false} EscapeTextFixedPoint(s: string)
    ensures EscapeText(s) == s <==> NoReserved(s)
    decreases |s|
  {
    EscapeTextLength(s);
    if s != [] && NoReserved(s) {
      assert NoReserved(s[1..]) by {
        forall i | 0 <= i < |s[1..]| ensures !IsReserved(s[1..][i]) { assert s[1..][i] == s[i + 1]; }
      }
      assert !IsReserved(s[0]);
      EscapeTextFixedPoint(s[1..]);
    }
  }

  /** A reserved character anywhere in the input leaves an `&` in the output. */
  lemma {:induction false} ReservedLeavesAmpersand(s: string, i: nat)
    requires i < |s| && IsReserved(s[i])
    ensures '&' in EscapeText(s)
    decreases i
  {
    if i == 0 {
      assert EscapeText(s)[0] == EscapeChar(s[0])[0] == '&';
    } else {
      assert s[1..][i - 1] == s[i];
      ReservedLeavesAmpersand(s[1..], i - 1);
      var rest := EscapeText(s[1..]);
      var j :| 0 <= j < |rest| && rest[j] == '&';
      assert EscapeText(s)[|EscapeChar(s[0])| + j] == '&';
    }
  }

  /** Escaping is idempotent exactly on text that needs no escaping: escaped text that
      holds any entity is escaped again. */
  lemma EscapeTwiceIffNoReserved(s: string)
    ensures EscapeText(EscapeText(s)) == EscapeText(s) <==> NoReserved(s)
  {
    EscapeTextFixedPoint(s);
    EscapeTextFixedPoint(EscapeText(s));
    if !NoReserved(s) {
      var i :| 0 <= i < |s| && IsReserved(s[i]);
      ReservedLeavesAmpersand(s, i);
      var e := EscapeText(s);
      var j :| 0 <= j < |e| && e[j] == '&';
      assert !NoReserved(e) by {
        assert IsReserved(e[j]);
      }
    }
  }

}
