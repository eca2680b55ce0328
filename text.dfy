/** String operations the intake logic relies on, stated over `string` (a `seq<char>`):
    Python's `str.lower()`, the substring test `w in s`, `any(w in s for w in words)`,
    `str.replace`, `' '.join(...)` and the negative slice `xs[-n:]`. */
module Text {

  /** True when `c` is an upper-case ASCII letter. */
  predicate IsUpper(c: char) {
    'A' <= c <= 'Z'
  }

  /** Python's `str.lower()` on one character, restricted to ASCII letters. */
  function LowerChar(c: char): (d: char)
    ensures !IsUpper(d)
    ensures IsUpper(c) ==> d as int == c as int + 32
    ensures !IsUpper(c) ==> d == c
  {
    if IsUpper(c) then (c as int + 32) as char else c
  }

  /** Python's `str.lower()`: every upper-case letter replaced by its lower-case form. */
  function Lower(s: string): (r: string)
    ensures |r| == |s|
    ensures forall i :: 0 <= i < |r| ==> !IsUpper(r[i])
    ensures forall i :: 0 <= i < |s| && IsUpper(s[i]) ==> r[i] as int == s[i] as int + 32
    ensures forall i :: 0 <= i < |s| && !IsUpper(s[i]) ==> r[i] == s[i]
  {
    seq(|s|, i requires 0 <= i < |s| => LowerChar(s[i]))
  }

  lemma LowerIdempotent(s: string)
    ensures Lower(Lower(s)) == Lower(s)
  {
  }

  lemma {:induction false} LowerConcat(a: string, b: string)
    ensures Lower(a + b) == Lower(a) + Lower(b)
  {
    var l, r := Lower(a + b), Lower(a) + Lower(b);
    assert |l| == |r|;
    forall i | 0 <= i < |l| ensures l[i] == r[i] {
      if i < |a| {
        assert (a + b)[i] == a[i];
      } else {
        assert (a + b)[i] == b[i - |a|];
      }
    }
  }

  /** `w` occurs in `s` starting at index `k`. */
  predicate OccursAt(s: string, w: string, k: nat) {
    k + |w| <= |s| && s[k..k + |w|] == w
  }

  /** Python's `w in s` for two strings: `w` is a contiguous substring of `s`
      (the empty string is a substring of every string). */
  predicate Contains(s: string, w: string) {
    exists k | 0 <= k <= |s| :: OccursAt(s, w, k)
  }

  /** Python's `any(w in s for w in words)`, tried word by word from the front. */
  predicate AnyOccurs(words: seq<string>, s: string)
    decreases |words|
  {
    |words| > 0 && (Contains(s, words[0]) || AnyOccurs(words[1..], s))
  }

  /** Some word of the list occurs in `s` exactly when one at some index does. */
  lemma {:induction false} AnyOccursIff(words: seq<string>, s: string)
    ensures AnyOccurs(words, s) <==> exists i | 0 <= i < |words| :: Contains(s, words[i])
    decreases |words|
  {
    if |words| > 0 {
      AnyOccursIff(words[1..], s);
      if exists i | 0 <= i < |words| :: Contains(s, words[i]) {
        var i :| 0 <= i < |words| && Contains(s, words[i]);
        if i > 0 {
          assert words[1..][i - 1] == words[i];
        }
      }
    }
  }

  lemma {:induction false} ContainsInConcat(a: string, b: string, w: string)
    requires Contains(a, w)
    ensures Contains(a + b, w) && Contains(b + a, w)
  {
    var k :| 0 <= k <= |a| && OccursAt(a, w, k);
    assert (a + b)[k..k + |w|] == a[k..k + |w|];
    assert OccursAt(a + b, w, k);
    assert (b + a)[|b| + k..|b| + k + |w|] == a[k..k + |w|];
    assert OccursAt(b + a, w, |b| + k);
  }

  /** A word list that matches a string still matches it with text added on either side. */
  lemma {:induction false} AnyOccursInConcat(words: seq<string>, a: string, b: string)
    requires AnyOccurs(words, a)
    ensures AnyOccurs(words, a + b) && AnyOccurs(words, b + a)
    decreases |words|
  {
    if Contains(a, words[0]) {
      ContainsInConcat(a, b, words[0]);
    } else {
      AnyOccursInConcat(words[1..], a, b);
    }
  }

  /** A string with an upper-case letter never occurs in a lower-cased string. */
  lemma {:induction false} UpperNeverInLower(s: string, w: string, j: nat)
    requires j < |w| && IsUpper(w[j])
    ensures !Contains(Lower(s), w)
  {
    forall k | 0 <= k <= |Lower(s)| ensures !OccursAt(Lower(s), w, k) {
      assert k + j < |Lower(s)| ==> !IsUpper(Lower(s)[k + j]);
    }
  }

  /** Python's `s.replace(pat, rep)` for a non-empty pattern: occurrences are found
      from the left and do not overlap. */
  function Replace(s: string, pat: string, rep: string): string
    requires |pat| > 0
    decreases |s|
  {
    if |s| < |pat| then s
    else if s[..|pat|] == pat then rep + Replace(s[|pat|..], pat, rep)
    else [s[0]] + Replace(s[1..], pat, rep)
  }

  /** Replacing a pattern by itself changes nothing. */
  lemma {:induction false} ReplaceSelf(s: string, pat: string)
    requires |pat| > 0
    ensures Replace(s, pat, pat) == s
    decreases |s|
  {
    if |s| < |pat| {
    } else if s[..|pat|] == pat {
      ReplaceSelf(s[|pat|..], pat);
      assert s == s[..|pat|] + s[|pat|..];
    } else {
      ReplaceSelf(s[1..], pat);
      assert s == [s[0]] + s[1..];
    }
  }

  /** A string in which the pattern does not occur is left as it is. */
  lemma {:induction false} ReplaceAbsent(s: string, pat: string, rep: string)
    requires |pat| > 0
    requires !Contains(s, pat)
    ensures Replace(s, pat, rep) == s
    decreases |s|
  {
    if |s| < |pat| {
    } else {
      assert s[0..|pat|] == s[..|pat|];
      assert !OccursAt(s, pat, 0);
      if Contains(s[1..], pat) {
        var k :| 0 <= k <= |s[1..]| && OccursAt(s[1..], pat, k);
        assert s[1..][k..k + |pat|] == s[k + 1..k + 1 + |pat|];
        assert OccursAt(s, pat, k + 1);
        assert false;
      }
      ReplaceAbsent(s[1..], pat, rep);
      assert s == [s[0]] + s[1..];
    }
  }

  /** Replacing by a string at least as long as the pattern never shortens the text. */
  lemma {:induction false} ReplaceNeverShortens(s: string, pat: string, rep: string)
    requires |pat| > 0 && |rep| >= |pat|
    ensures |Replace(s, pat, rep)| >= |s|
    decreases |s|
  {
    if |s| < |pat| {
    } else if s[..|pat|] == pat {
      ReplaceNeverShortens(s[|pat|..], pat, rep);
    } else {
      ReplaceNeverShortens(s[1..], pat, rep);
    }
  }

  /** Python's `sep.join(parts)`. */
  function Join(sep: string, parts: seq<string>): string
    decreases |parts|
  {
    if |parts| == 0 then ""
    else if |parts| == 1 then parts[0]
    else parts[0] + sep + Join(sep, parts[1..])
  }

  /** Every joined part occurs in the joined string, so a keyword found in one
      part is found in the join. */
  lemma {:induction false} JoinContainsParts(sep: string, parts: seq<string>, i: nat, w: string)
    requires i < |parts| && Contains(parts[i], w)
    ensures Contains(Join(sep, parts), w)
    decreases |parts|
  {
    if |parts| == 1 {
    } else if i == 0 {
      ContainsInConcat(parts[0], sep + Join(sep, parts[1..]), w);
      assert parts[0] + sep + Join(sep, parts[1..]) == parts[0] + (sep + Join(sep, parts[1..]));
    } else {
      JoinContainsParts(sep, parts[1..], i - 1, w);
      ContainsInConcat(Join(sep, parts[1..]), parts[0] + sep, w);
    }
  }

  /** Python's `xs[-n:]` for n > 0: the last `n` elements, or all of them when
      there are fewer. */
  function LastN<T>(xs: seq<T>, n: nat): (r: seq<T>)
    requires n > 0
    ensures |r| == if |xs| <= n then |xs| else n
    ensures r == xs[|xs| - |r|..]
  {
    if |xs| <= n then xs else xs[|xs| - n..]
  }
}
