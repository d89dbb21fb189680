/** Well-formedness facts about the text the renderer emits: where `<item>` and the
    document's structural tags (`<rss `, `</rss>`, `<channel>`, `</channel>`) can occur, and
    whether every `&` opens an entity reference. A string is `Clean` when it holds no
    `<item>`, every `&` in it opens an entity, it cannot be the start of an `<item>` that
    runs on into whatever text follows it, and none of its `<` can open a structural tag.
    Clean pieces concatenate to a clean string. */
module FeedMarkup {
  import opened Js
  import opened Utils
  import opened Text

  const ItemTag := "<item>"

  /** `<item>` occurs nowhere in `s`. */
  ghost predicate NoItem(s: string) {
    forall i: nat :: !OccursAt(s, ItemTag, i)
  }

  ghost predicate Clean(s: string) {
    NoItem(s) && AmpersandsAreEntities(s) && Sealed(ItemTag, s) && StructFree(s)
  }

  /** The tags that frame the document: each occurs once in a well-formed feed. */
  const RssOpen := "<rss "
  const RssEnd := "</rss>"
  const ChannelOpen := "<channel>"
  const ChannelEnd := "</channel>"

  predicate StructTag(t: string) {
    t == RssOpen || t == RssEnd || t == ChannelOpen || t == ChannelEnd
  }

  /** The name after a `<` at `j - 1` lies inside `s` and cannot start `rss`, `/rss`,
      `channel` or `/channel`. */
  predicate NotStructName(s: string, j: nat) {
    j + 2 <= |s| && s[j] != 'c' && s[j] != 'r' && (s[j] == '/' ==> s[j + 1] != 'c' && s[j + 1] != 'r')
  }

  /** No `<` of `s` opens a structural tag. Stated index by index so that it can be
      checked on a literal. */
  predicate StructFree(s: string) {
    forall i :: 0 <= i < |s| && s[i] == '<' ==> NotStructName(s, i + 1)
  }

  /** Text that can neither open an element nor hold a stray `&`: what the escaper
      produces, and what a verbatim field must be for the document to stay well formed. */
  ghost predicate SafeText(f: string) {
    '<' !in f && AmpersandsAreEntities(f)
  }

  /** A field that holds neither `<` nor `&`. */
  predicate Plain(s: string) {
    '<' !in s && '&' !in s
  }

  /** An optional field that, when present, is plain. */
  predicate OptionPlain(o: Option<string>) {
    o.None? || Plain(o.value)
  }

  /** A literal holds no `&`, and each of its `<` is followed by a name that starts neither
      with `ite` nor as a structural tag. Stated index by index so that it can be checked on
      a literal. */
  predicate LiteralMarkup(s: string) {
    forall i :: 0 <= i < |s| ==> s[i] != '&' && (s[i] == '<' ==> NotItemName(s, i + 1) && NotStructName(s, i + 1))
  }

  predicate NotItemName(s: string, j: nat) {
    j + 3 <= |s| && (s[j] != 'i' || s[j + 1] != 't' || s[j + 2] != 'e')
  }

  // ---------------------------------------------------------------------------

  /** Where `<item>` occurs nowhere, the count of its matches is zero. */
  lemma {:induction false} NoItemCount(s: string)
    requires NoItem(s)
    ensures Count(ItemTag, s) == 0
    decreases |s|
  {
    if s != [] {
      assert !(ItemTag <= s) by {
        assert !OccursAt(s, ItemTag, 0);
        if 6 <= |s| {
          assert s[0..6] == s[..6];
        }
      }
      assert NoItem(s[1..]) by {
        forall i: nat ensures !OccursAt(s[1..], ItemTag, i) {
          assert !OccursAt(s, ItemTag, i + 1);
          if i + 6 <= |s[1..]| {
            assert s[1..][i..i + 6] == s[i + 1..i + 7];
          }
        }
      }
      NoItemCount(s[1..]);
    }
  }

  /** The tag's `<` does not recur inside it, so one match cannot overlap another. */
  lemma ItemTagOpensOnce()
    ensures ItemTag[0] !in ItemTag[1..]
  {
    var rest := ItemTag[1..];
    forall k | 0 <= k < |rest| ensures rest[k] != '<' {
      assert rest[k] == ItemTag[k + 1];
    }
  }

  lemma LiteralClean(s: string)
    requires LiteralMarkup(s) && Sealed(ItemTag, s)
    ensures Clean(s)
  {
    assert StructFree(s);
    forall i: nat ensures !OccursAt(s, ItemTag, i) {
      if i + 6 <= |s| && s[i] == '<' {
        assert NotItemName(s, i + 1);
        var w := s[i..i + 6];
        assert w[1] == s[i + 1] && w[2] == s[i + 2] && w[3] == s[i + 3];
        assert w[1] != 'i' || w[2] != 't' || w[3] != 'e';
      } else if i + 6 <= |s| {
        assert s[i..i + 6][0] == s[i];
      }
    }
  }

  lemma PlainIsSafe(s: string)
    requires Plain(s)
    ensures SafeText(s)
  {
  }

  lemma EscapedIsSafe(s: string)
    ensures SafeText(EscapeXml(JsString(s)))
  {
    EscapeTextHasNoMarkup(s);
    EscapeTextAmpersandsAreEntities(s);
  }

  lemma CleanEmpty()
    ensures Clean([])
  {
  }

  /** An occurrence in `a + b` lies inside `a`, inside `b`, or across the seam. */
  lemma OccursInSplit(a: string, b: string, i: nat)
    requires OccursAt(a + b, ItemTag, i)
    ensures i + 6 <= |a| ==> OccursAt(a, ItemTag, i)
    ensures |a| <= i ==> OccursAt(b, ItemTag, i - |a|)
    ensures i < |a| < i + 6 ==> a[|a| - 1] == ItemTag[|a| - 1 - i]
  {
    if i + 6 <= |a| {
      assert (a + b)[i..i + 6] == a[i..i + 6];
    } else if |a| <= i {
      assert (a + b)[i..i + 6] == b[i - |a|..i - |a| + 6];
    } else {
      assert (a + b)[|a| - 1] == a[|a| - 1];
      assert (a + b)[i..i + 6][|a| - 1 - i] == (a + b)[|a| - 1];
    }
  }

  lemma CleanAppend(a: string, b: string)
    requires Clean(a) && Clean(b)
    ensures Clean(a + b)
  {
    forall i: nat ensures !OccursAt(a + b, ItemTag, i) {
      if i + 6 <= |a + b| {
        if i + 6 <= |a| {
          assert (a + b)[i..i + 6] == a[i..i + 6];
          assert !OccursAt(a, ItemTag, i);
        } else if |a| <= i {
          assert (a + b)[i..i + 6] == b[i - |a|..i - |a| + 6];
          assert !OccursAt(b, ItemTag, i - |a|);
        } else {
          var k := |a| - 1 - i;
          assert (a + b)[i..i + 6][k] == a[|a| - 1];
          assert ItemTag[..5][k] == ItemTag[k];
        }
      }
    }
    AmpersandsAreEntitiesAppend(a, b);
    StructFreeAppend(a, b);
    if b == [] {
      assert a + b == a;
    } else {
      assert (a + b)[|a + b| - 1] == b[|b| - 1];
    }
  }

  lemma StructFreeAppend(a: string, b: string)
    requires StructFree(a) && StructFree(b)
    ensures StructFree(a + b)
  {
    forall i | 0 <= i < |a + b| && (a + b)[i] == '<' ensures NotStructName(a + b, i + 1) {
      if i < |a| {
        assert NotStructName(a, i + 1);
        assert (a + b)[i + 1] == a[i + 1] && (a + b)[i + 2] == a[i + 2];
      } else {
        assert b[i - |a|] == '<';
        assert NotStructName(b, i - |a| + 1);
        assert (a + b)[i + 1] == b[i - |a| + 1] && (a + b)[i + 2] == b[i - |a| + 2];
      }
    }
  }

  /** `s` holds exactly one `<`, at position `k`. */
  predicate OpensOnceAt(s: string, k: nat) {
    k < |s| && s[k] == '<' && forall i :: 0 <= i < |s| && i != k ==> s[i] != '<'
  }

  /** `s` holds exactly two `<`, at positions `j` and `k`. */
  predicate OpensTwiceAt(s: string, j: nat, k: nat) {
    j < k < |s| && s[j] == '<' && s[k] == '<' && forall i :: 0 <= i < |s| && i != j && i != k ==> s[i] != '<'
  }

  lemma OpensOnceAtAppend(a: string, b: string, k: nat)
    requires OpensOnceAt(a, k) && '<' !in b
    ensures OpensOnceAt(a + b, k)
  {
    forall i | 0 <= i < |a + b| && i != k ensures (a + b)[i] != '<' {
      if i >= |a| {
        assert (a + b)[i] == b[i - |a|];
      }
    }
  }

  /** The characters of `s` before `k` cannot start `t`, so counting can begin at `k`. */
  lemma CountSkipTo(t: string, s: string, k: nat)
    requires t != [] && k <= |s| && forall i :: 0 <= i < k ==> s[i] != t[0]
    ensures Count(t, s) == Count(t, s[k..])
  {
    assert s == s[..k] + s[k..];
    CountSkip(t, s[..k], s[k..]);
  }

  /** A string with one `<` holds a tag once when the tag starts at that `<`, never otherwise. */
  lemma CountOpensOnceAt(t: string, s: string, k: nat)
    requires t != [] && t[0] == '<' && OpensOnceAt(s, k)
    ensures Count(t, s) == if t <= s[k..] then 1 else 0
  {
    CountSkipTo(t, s, k);
    assert s[k..][1..] == s[k + 1..];
    var rest := s[k + 1..];
    assert t[0] !in rest by {
      forall i | 0 <= i < |rest| ensures rest[i] != '<' {
        assert rest[i] == s[k + 1 + i];
      }
    }
    CountFree(t, rest);
  }

  /** A string with two `<` holds a tag once for each of them at which it starts. */
  lemma CountOpensTwiceAt(t: string, s: string, j: nat, k: nat)
    requires t != [] && t[0] == '<' && OpensTwiceAt(s, j, k)
    ensures Count(t, s) == (if t <= s[j..] then 1 else 0) + (if t <= s[k..] then 1 else 0)
  {
    CountSkipTo(t, s, j);
    var rest := s[j + 1..];
    assert s[j..][1..] == rest;
    assert OpensOnceAt(rest, k - j - 1) by {
      forall i | 0 <= i < |rest| && i != k - j - 1 ensures rest[i] != '<' {
        assert rest[i] == s[j + 1 + i];
      }
    }
    CountOpensOnceAt(t, rest, k - j - 1);
    assert rest[k - j - 1..] == s[k..];
  }

  /** Text without `<` opens no tag at all. */
  lemma NoOpenStructFree(f: string)
    requires '<' !in f
    ensures StructFree(f)
  {
  }

  /** Text whose every `<` is harmless adds no structural tag in front of what follows. */
  lemma {:induction false} StructFreeSkip(t: string, m: string, x: string)
    requires StructTag(t) && StructFree(m)
    ensures Count(t, m + x) == Count(t, x)
    decreases |m|
  {
    if m == [] {
      assert m + x == x;
    } else {
      assert (m + x)[1..] == m[1..] + x;
      assert t[0] == '<' && |t| >= 5 && (t[1] == 'c' || t[1] == 'r' || (t[1] == '/' && (t[2] == 'c' || t[2] == 'r')));
      assert t <= m + x ==> t[0] == (m + x)[0] && t[1] == (m + x)[1] && t[2] == (m + x)[2];
      if m[0] == '<' {
        assert NotStructName(m, 1);
        assert (m + x)[1] == m[1] && (m + x)[2] == m[2];
      }
      assert StructFree(m[1..]) by {
        forall i | 0 <= i < |m[1..]| && m[1..][i] == '<' ensures NotStructName(m[1..], i + 1) {
          assert NotStructName(m, i + 2);
        }
      }
      StructFreeSkip(t, m[1..], x);
    }
  }

  /** A safe field cannot hold the start of an `<item>`, so it is clean up to its seal. */
  lemma SafeThenClean(f: string, close: string)
    requires SafeText(f) && Clean(close) && close != []
    ensures Clean(f + close)
  {
    forall i: nat ensures !OccursAt(f + close, ItemTag, i) {
      if i + 6 <= |f + close| {
        if i < |f| {
          assert (f + close)[i..i + 6][0] == f[i];
        } else {
          assert (f + close)[i..i + 6] == close[i - |f|..i - |f| + 6];
          assert !OccursAt(close, ItemTag, i - |f|);
        }
      }
    }
    AmpersandsAreEntitiesAppend(f, close);
    NoOpenStructFree(f);
    StructFreeAppend(f, close);
    assert (f + close)[|f + close| - 1] == close[|close| - 1];
  }

  /** A line made of clean literal text around one safe field is clean. */
  lemma CleanField(open: string, f: string, close: string)
    requires Clean(open) && SafeText(f) && Clean(close) && close != []
    ensures Clean(open + f + close)
  {
    SafeThenClean(f, close);
    CleanAppend(open, f + close);
    assert open + f + close == open + (f + close);
  }

  lemma {:induction false} CleanConcat(parts: seq<string>)
    requires forall i :: 0 <= i < |parts| ==> Clean(parts[i])
    ensures Clean(Concat(parts))
    decreases |parts|
  {
    if parts == [] {
      CleanEmpty();
    } else {
      CleanConcat(parts[1..]);
      CleanAppend(parts[0], Concat(parts[1..]));
    }
  }

  // The fixed-arity forms below are needed for cost: they prove the display's per-line
  // facts in a small context of their own instead of in the callers' large ones.

  /** Six clean lines make a clean block. */
  lemma CleanLines6(l0: string, l1: string, l2: string, l3: string, l4: string, l5: string)
    requires Clean(l0) && Clean(l1) && Clean(l2) && Clean(l3) && Clean(l4) && Clean(l5)
    ensures Clean(Concat([l0, l1, l2, l3, l4, l5]))
  {
    CleanConcat([l0, l1, l2, l3, l4, l5]);
  }

  /** Seven clean lines make a clean block. */
  lemma CleanLines7(l0: string, l1: string, l2: string, l3: string, l4: string,
                    l5: string, l6: string)
    requires Clean(l0) && Clean(l1) && Clean(l2) && Clean(l3) && Clean(l4)
    requires Clean(l5) && Clean(l6)
    ensures Clean(Concat([l0, l1, l2, l3, l4, l5, l6]))
  {
    CleanConcat([l0, l1, l2, l3, l4, l5, l6]);
  }

  /** Ten clean lines make a clean block. */
  lemma CleanLines10(l0: string, l1: string, l2: string, l3: string, l4: string,
                     l5: string, l6: string, l7: string, l8: string, l9: string)
    requires Clean(l0) && Clean(l1) && Clean(l2) && Clean(l3) && Clean(l4)
    requires Clean(l5) && Clean(l6) && Clean(l7) && Clean(l8) && Clean(l9)
    ensures Clean(Concat([l0, l1, l2, l3, l4, l5, l6, l7, l8, l9]))
  {
    CleanConcat([l0, l1, l2, l3, l4, l5, l6, l7, l8, l9]);
  }

  lemma DecimalIsPlain(n: nat)
    ensures Plain(DecimalString(n))
  {
    var d := DecimalString(n);
    forall i | 0 <= i < |d| ensures d[i] != '<' && d[i] != '&' {
      assert IsDigit(d[i]);
    }
  }
}
