/** String searching as the feed generator and its tests use it: `String.prototype.includes`,
    the number of matches of a fixed pattern (`s.match(/pattern/g).length`), and the
    concatenation of a list of template lines. */
module Text {

  /** `t` occurs in `s` starting at position `i`. */
  predicate OccursAt(s: string, t: string, i: nat) {
    i + |t| <= |s| && s[i..i + |t|] == t
  }

  /** `s` contains `t` somewhere. */
  ghost predicate Contains(s: string, t: string) {
    exists i: nat :: OccursAt(s, t, i)
  }

  /** `s.includes(t)`, searching from the left. */
  function Includes(s: string, t: string): (r: bool)
    ensures r <==> Contains(s, t)
    decreases |s|
  {
    if t <= s then
      assert OccursAt(s, t, 0);
      true
    else if s == [] then
      assert forall i: nat :: !OccursAt(s, t, i);
      false
    else
      ContainsStep(s, t);
      Includes(s[1..], t)
  }

  /** When `t` does not start `s`, it occurs in `s` exactly when it occurs in `s[1..]`. */
  lemma ContainsStep(s: string, t: string)
    requires s != [] && !(t <= s)
    ensures Contains(s, t) <==> Contains(s[1..], t)
  {
    if Contains(s[1..], t) {
      var j: nat :| OccursAt(s[1..], t, j);
      assert s[j + 1..j + 1 + |t|] == s[1..][j..j + |t|];
      assert OccursAt(s, t, j + 1);
    }
    if Contains(s, t) {
      var i: nat :| OccursAt(s, t, i);
      if i != 0 {
        assert s[1..][i - 1..i - 1 + |t|] == s[i..i + |t|];
        assert OccursAt(s[1..], t, i - 1);
      }
    }
  }

  /** Number of positions of `s` at which `p` starts. For a pattern that cannot overlap
      itself, such as a tag, this is the number of matches of a global regular expression. */
  function Count(p: string, s: string): nat
    decreases |s|
  {
    if s == [] then 0 else (if p <= s then 1 else 0) + Count(p, s[1..])
  }

  /** No occurrence of `p` can begin inside `a` and run past its end: the last character
      of `a` appears nowhere in `p` but at its end. */
  predicate Sealed(p: string, a: string)
    requires p != []
  {
    a == [] || a[|a| - 1] !in p[..|p| - 1]
  }

  /** The concatenation of a list of lines. */
  function Concat(parts: seq<string>): string
  {
    if parts == [] then [] else parts[0] + Concat(parts[1..])
  }

  // ---------------------------------------------------------------------------

  lemma {:induction false} CountAppend(p: string, a: string, b: string)
    requires p != [] && Sealed(p, a)
    ensures Count(p, a + b) == Count(p, a) + Count(p, b)
    decreases |a|
  {
    if a == [] {
      assert a + b == b;
    } else {
      assert (a + b)[1..] == a[1..] + b;
      assert Sealed(p, a[1..]) by {
        if |a| > 1 { assert a[1..][|a[1..]| - 1] == a[|a| - 1]; }
      }
      CountAppend(p, a[1..], b);
      if |a| >= |p| {
        assert p <= a + b <==> p <= a by {
          assert (a + b)[..|p|] == a[..|p|];
        }
      } else {
        SealedBlocksCrossing(p, a, b);
      }
    }
  }

  lemma SealedBlocksCrossing(p: string, a: string, b: string)
    requires p != [] && Sealed(p, a) && 0 < |a| < |p|
    ensures !(p <= a + b)
  {
    var k := |a| - 1;
    assert p[..|p| - 1][k] == p[k];
    assert (a + b)[k] == a[k];
  }

  /** Sealing depends on the last character only. */
  lemma SealedSuffix(p: string, a: string, b: string)
    requires p != [] && b != [] && Sealed(p, b)
    ensures Sealed(p, a + b)
  {
    assert (a + b)[|a + b| - 1] == b[|b| - 1];
  }

  lemma SealedAppend(p: string, a: string, b: string)
    requires p != [] && Sealed(p, a) && Sealed(p, b)
    ensures Sealed(p, a + b)
  {
    if b == [] {
      assert a + b == a;
    } else {
      assert (a + b)[|a + b| - 1] == b[|b| - 1];
    }
  }

  lemma CountAppend3(p: string, a: string, b: string, c: string)
    requires p != [] && Sealed(p, a) && Sealed(p, b)
    ensures Count(p, a + b + c) == Count(p, a) + Count(p, b) + Count(p, c)
  {
    CountAppend(p, a, b);
    SealedAppend(p, a, b);
    CountAppend(p, a + b, c);
  }

  /** Joining keeps a prefix of the first part and ends with the last part. */
  lemma JoinFrame(prefix: string, a: string, b: string, c: string)
    requires prefix <= a
    ensures prefix <= a + b + c
    ensures |c| <= |a + b + c| && (a + b + c)[|a + b + c| - |c|..] == c
  {
    assert (a + b + c)[..|prefix|] == a[..|prefix|];
  }

  lemma ConcatStartsWith(prefix: string, parts: seq<string>)
    requires parts != [] && prefix <= parts[0]
    ensures prefix <= Concat(parts)
  {
    assert Concat(parts) == parts[0] + Concat(parts[1..]);
    assert Concat(parts)[..|prefix|] == parts[0][..|prefix|];
  }

  /** Text without the pattern's first character adds no occurrence in front of what follows. */
  lemma {:induction false} CountSkip(p: string, f: string, s: string)
    requires p != [] && p[0] !in f
    ensures Count(p, f + s) == Count(p, s)
    decreases |f|
  {
    if f == [] {
      assert f + s == s;
    } else {
      assert (f + s)[1..] == f[1..] + s;
      assert f[0] != p[0];
      assert !(p <= f + s);
      CountSkip(p, f[1..], s);
    }
  }

  lemma CountFree(p: string, s: string)
    requires p != [] && p[0] !in s
    ensures Count(p, s) == 0
  {
    CountSkip(p, s, []);
    assert s + [] == s;
  }

  /** A pattern whose first character does not recur counts once at its own start. */
  lemma CountLeading(p: string, s: string)
    requires p != [] && p[0] !in p[1..]
    ensures Count(p, p + s) == 1 + Count(p, s)
  {
    assert (p + s)[1..] == p[1..] + s;
    CountSkip(p, p[1..], s);
  }

  /** Appending is associative. The verifier knows this on its own; the lemma is kept because
      calling it names the one regrouping a caller needs, where the solver otherwise runs out
      of resource on concatenations that hold long string literals. */
  lemma AppendAssociative(a: string, b: string, c: string)
    ensures (a + b) + c == a + (b + c)
  {
  }

  lemma ConcatAppend(a: seq<string>, b: seq<string>)
    ensures Concat(a + b) == Concat(a) + Concat(b)
    decreases |a|
  {
    if a == [] {
      assert a + b == b;
    } else {
      assert (a + b)[1..] == a[1..] + b;
      ConcatAppend(a[1..], b);
    }
  }

  lemma OccursInAppend(a: string, b: string, t: string, i: nat)
    requires OccursAt(a, t, i)
    ensures OccursAt(a + b, t, i) && OccursAt(b + a, t, |b| + i)
  {
    assert (a + b)[i..i + |t|] == a[i..i + |t|];
    assert (b + a)[|b| + i..|b| + i + |t|] == a[i..i + |t|];
  }

  /** Containment is transitive: a piece of a piece is a piece of the whole. */
  lemma ContainsTransitive(s: string, m: string, t: string)
    requires Contains(s, m) && Contains(m, t)
    ensures Contains(s, t)
  {
    var i: nat :| OccursAt(s, m, i);
    var j: nat :| OccursAt(m, t, j);
    forall k | 0 <= k < |t| ensures s[i + j + k] == t[k] {
      assert s[i + j + k] == s[i..i + |m|][j + k];
      assert t[k] == m[j..j + |t|][k];
    }
    assert s[i + j..i + j + |t|] == t;
    assert OccursAt(s, t, i + j);
  }

  /** Each of three joined parts is contained in the join. */
  lemma ContainsJoin(a: string, b: string, c: string)
    ensures Contains(a + b + c, a) && Contains(a + b + c, b) && Contains(a + b + c, c)
  {
    var s := a + b + c;
    assert s[0..|a|] == a;
    assert OccursAt(s, a, 0);
    assert s[|a|..|a| + |b|] == b;
    assert OccursAt(s, b, |a|);
    assert s[|a| + |b|..|s|] == c;
    assert OccursAt(s, c, |a| + |b|);
  }

  lemma ContainsMiddle(a: string, t: string, b: string)
    ensures Contains(a + t + b, t)
  {
    assert (a + t + b)[|a|..|a| + |t|] == t;
    assert OccursAt(a + t + b, t, |a|);
  }

  /** Every line of a list of lines appears in their concatenation. */
  lemma {:induction false} ConcatContainsPart(parts: seq<string>, k: nat)
    requires k < |parts|
    ensures Contains(Concat(parts), parts[k])
    decreases k
  {
    if k == 0 {
      assert OccursAt(parts[0], parts[0], 0);
      OccursInAppend(parts[0], Concat(parts[1..]), parts[0], 0);
    } else {
      ConcatContainsPart(parts[1..], k - 1);
      var i: nat :| OccursAt(Concat(parts[1..]), parts[k], i);
      OccursInAppend(Concat(parts[1..]), parts[0], parts[k], i);
    }
  }
}
