/**
 * The handful of Python `str` operations the request handlers rely on:
 * `strip()`, `split()` (no separator), `lower()` and the `in` substring test.
 */
module PyText {

  /** The characters Python's `str.isspace()` accepts; `strip()` and `split()` use this set. */
  predicate IsSpace(c: char)
  {
    c == ' ' || ('\t' <= c <= '\r') || ('\U{1c}' <= c <= '\U{1f}')
    || c == '\U{85}' || c == '\U{a0}' || c == '\U{1680}'
    || ('\U{2000}' <= c <= '\U{200a}')
    || c == '\U{2028}' || c == '\U{2029}' || c == '\U{202f}' || c == '\U{205f}' || c == '\U{3000}'
  }

  predicate AllSpace(s: string)
  {
    forall i :: 0 <= i < |s| ==> IsSpace(s[i])
  }

  predicate NoSpace(s: string)
  {
    forall i :: 0 <= i < |s| ==> !IsSpace(s[i])
  }

  /** `s.lstrip()`: the suffix left after dropping leading whitespace. */
  function LStrip(s: string): (r: string)
    ensures |r| <= |s| && r == s[|s| - |r|..]
    ensures r == [] || !IsSpace(r[0])
  {
    if s != [] && IsSpace(s[0]) then LStrip(s[1..]) else s
  }

  /** What `lstrip()` drops is whitespace. */
  lemma {:induction false} LStripDropsSpaces(s: string)
    ensures AllSpace(s[..|s| - |LStrip(s)|])
  {
    if s != [] && IsSpace(s[0]) {
      LStripDropsSpaces(s[1..]);
      var n := |s| - |LStrip(s)|;
      assert s[..n] == [s[0]] + s[1..][..n - 1];
    }
  }

  /** `s.rstrip()`: the prefix left after dropping trailing whitespace. */
  function RStrip(s: string): (r: string)
    ensures |r| <= |s| && r == s[..|r|]
    ensures r == [] || !IsSpace(r[|r| - 1])
  {
    if s != [] && IsSpace(s[|s| - 1]) then RStrip(s[..|s| - 1]) else s
  }

  /** What `rstrip()` drops is whitespace. */
  lemma {:induction false} RStripDropsSpaces(s: string)
    ensures AllSpace(s[|RStrip(s)|..])
    decreases |s|
  {
    if s != [] && IsSpace(s[|s| - 1]) {
      var t := s[..|s| - 1];
      RStripDropsSpaces(t);
      var n := |RStrip(s)|;
      assert s[n..] == t[n..] + [s[|s| - 1]];
    }
  }

  /** `s.strip()`. */
  function Strip(s: string): string
  {
    RStrip(LStrip(s))
  }

  /** `strip()` returns the piece of its input that starts after the leading whitespace,
      and only whitespace surrounds it. */
  lemma StripIsTrimmedSlice(s: string)
    ensures var i, r := |s| - |LStrip(s)|, Strip(s);
      i + |r| <= |s| && r == s[i..i + |r|] && AllSpace(s[..i]) && AllSpace(s[i + |r|..])
  {
    StripSlice(s);
    LStripDropsSpaces(s);
    StripTrailing(s);
    var i, r := |s| - |LStrip(s)|, Strip(s);
    TrimmedSlice(s, i, r);
  }

  /** The four facts about a trimmed slice, joined. */
  lemma TrimmedSlice(s: string, i: nat, r: string)
    requires i + |r| <= |s| && r == s[i..i + |r|]
    requires AllSpace(s[..i]) && AllSpace(s[i + |r|..])
    ensures i + |r| <= |s| && r == s[i..i + |r|] && AllSpace(s[..i]) && AllSpace(s[i + |r|..])
  {
  }

  lemma StripSlice(s: string)
    ensures var i, r := |s| - |LStrip(s)|, Strip(s); i + |r| <= |s| && r == s[i..i + |r|]
  {
    var l := LStrip(s);
    var r := RStrip(l);
    PrefixOfSuffix(s, l, r);
  }

  lemma PrefixOfSuffix(s: string, l: string, r: string)
    requires |l| <= |s| && l == s[|s| - |l|..]
    requires |r| <= |l| && r == l[..|r|]
    ensures r == s[|s| - |l|..|s| - |l| + |r|]
  {
  }

  lemma StripTrailing(s: string)
    ensures var i, r := |s| - |LStrip(s)|, Strip(s); i + |r| <= |s| && AllSpace(s[i + |r|..])
  {
    var l := LStrip(s);
    RStripDropsSpaces(l);
    SliceOfSuffix(s, l, |RStrip(l)|);
  }

  lemma SliceOfSuffix(s: string, l: string, n: nat)
    requires |l| <= |s| && l == s[|s| - |l|..] && n <= |l|
    ensures l[..n] == s[|s| - |l|..|s| - |l| + n]
    ensures l[n..] == s[|s| - |l| + n..]
  {
  }

  /** `strip()` neither starts nor ends with whitespace. */
  lemma StripEnds(s: string)
    ensures Strip(s) == [] || (!IsSpace(Strip(s)[0]) && !IsSpace(Strip(s)[|Strip(s)| - 1]))
  {
    var l := LStrip(s);
    var r := RStrip(l);
    assert r != [] ==> r[0] == l[0];
  }

  lemma {:induction false} LStripOfSpaces(s: string)
    requires AllSpace(s)
    ensures LStrip(s) == []
  {
    if s != [] {
      LStripOfSpaces(s[1..]);
    }
  }

  lemma {:induction false} LStripKeepsWord(s: string, k: nat)
    requires k < |s| && !IsSpace(s[k])
    ensures LStrip(s) != []
  {
    if IsSpace(s[0]) {
      LStripKeepsWord(s[1..], k - 1);
    }
  }

  /** `s.strip()` is empty exactly when `s` is all whitespace. */
  lemma StripEmptyIff(s: string)
    ensures Strip(s) == [] <==> AllSpace(s)
  {
    if AllSpace(s) {
      LStripOfSpaces(s);
    } else {
      var k :| 0 <= k < |s| && !IsSpace(s[k]);
      LStripKeepsWord(s, k);
      RStripKeepsWord(LStrip(s));
    }
  }

  lemma RStripKeepsWord(s: string)
    requires s != [] && !IsSpace(s[0])
    ensures RStrip(s) != []
  {
    RStripDropsSpaces(s);
    assert s[0..] == s;
  }

  /** `c.lower()` for the ASCII letters; every other character is left as it is. */
  function LowerChar(c: char): char
  {
    if 'A' <= c <= 'Z' then (c as int + 32) as char else c
  }

  /** `s.lower()`, character by character. */
  function Lower(s: string): (r: string)
    ensures |r| == |s|
    ensures forall i :: 0 <= i < |s| ==> r[i] == LowerChar(s[i])
  {
    if s == [] then [] else [LowerChar(s[0])] + Lower(s[1..])
  }

  /** Python's `sub in s`. */
  predicate Contains(s: string, sub: string)
  {
    (|sub| <= |s| && s[..|sub|] == sub) || (s != [] && Contains(s[1..], sub))
  }

  /** `sub in s` holds exactly when `sub` occurs in `s` at some position. */
  lemma {:induction false} ContainsIff(s: string, sub: string)
    ensures Contains(s, sub) <==> exists i :: 0 <= i <= |s| - |sub| && s[i..][..|sub|] == sub
  {
    if s != [] {
      ContainsIff(s[1..], sub);
      assert s[0..] == s;
      if Contains(s[1..], sub) {
        var i :| 0 <= i <= |s| - 1 - |sub| && s[1..][i..][..|sub|] == sub;
        assert s[i + 1..] == s[1..][i..];
      }
      forall i | 1 <= i <= |s| - |sub| && s[i..][..|sub|] == sub ensures Contains(s[1..], sub) {
        assert s[1..][i - 1..] == s[i..];
      }
    } else {
      assert s[0..] == s;
    }
  }

  /** The longest whitespace-free prefix of `s`. */
  function TakeWord(s: string): (w: string)
    ensures |w| <= |s| && w == s[..|w|]
    ensures NoSpace(w)
    ensures |w| < |s| ==> IsSpace(s[|w|])
  {
    if s == [] || IsSpace(s[0]) then [] else [s[0]] + TakeWord(s[1..])
  }

  /** `s.split()` with no separator: the maximal runs of non-whitespace characters, in order. */
  function Split(s: string): (words: seq<string>)
    decreases |s|
  {
    var t := LStrip(s);
    if t == [] then []
    else
      var w := TakeWord(t);
      [w] + Split(t[|w|..])
  }

  function Concat(ws: seq<string>): string
  {
    if ws == [] then [] else ws[0] + Concat(ws[1..])
  }

  /** `s` with every whitespace character removed. */
  function RemoveSpaces(s: string): (r: string)
    ensures NoSpace(r)
  {
    if s == [] then [] else (if IsSpace(s[0]) then [] else [s[0]]) + RemoveSpaces(s[1..])
  }

  lemma {:induction false} RemoveSpacesAppend(a: string, b: string)
    ensures RemoveSpaces(a + b) == RemoveSpaces(a) + RemoveSpaces(b)
  {
    if a == [] {
      assert a + b == b;
    } else {
      assert (a + b)[1..] == a[1..] + b;
      RemoveSpacesAppend(a[1..], b);
    }
  }

  lemma {:induction false} RemoveSpacesOfSpaces(s: string)
    requires AllSpace(s)
    ensures RemoveSpaces(s) == []
  {
    if s != [] {
      RemoveSpacesOfSpaces(s[1..]);
    }
  }

  lemma {:induction false} RemoveSpacesOfWord(s: string)
    requires NoSpace(s)
    ensures RemoveSpaces(s) == s
  {
    if s != [] {
      RemoveSpacesOfWord(s[1..]);
    }
  }

  /** Leading whitespace holds nothing `RemoveSpaces` keeps. */
  lemma RemoveSpacesOfLStrip(s: string)
    ensures RemoveSpaces(s) == RemoveSpaces(LStrip(s))
  {
    var t := LStrip(s);
    var pre := s[..|s| - |t|];
    assert s == pre + t;
    LStripDropsSpaces(s);
    RemoveSpacesAppend(pre, t);
    RemoveSpacesOfSpaces(pre);
  }

  /** A word followed by the rest of the text. */
  lemma RemoveSpacesOfTakeWord(t: string)
    ensures RemoveSpaces(t) == TakeWord(t) + RemoveSpaces(t[|TakeWord(t)|..])
  {
    var w := TakeWord(t);
    var rest := t[|w|..];
    assert t == w + rest;
    RemoveSpacesAppend(w, rest);
    RemoveSpacesOfWord(w);
  }

  /** `s.split()` yields non-empty words without whitespace. */
  lemma {:induction false} SplitWords(s: string)
    ensures forall k :: 0 <= k < |Split(s)| ==> Split(s)[k] != [] && NoSpace(Split(s)[k])
    decreases |s|
  {
    var t := LStrip(s);
    if t != [] {
      var w := TakeWord(t);
      var rest := t[|w|..];
      SplitWords(rest);
      var ws := Split(s);
      assert ws == [w] + Split(rest);
      forall k | 0 <= k < |ws| ensures ws[k] != [] && NoSpace(ws[k]) {
        if k > 0 { assert ws[k] == Split(rest)[k - 1]; }
      }
    }
  }

  /** The words of `s.split()`, put together, are `s` without its whitespace. */
  lemma {:induction false} SplitConcat(s: string)
    ensures Concat(Split(s)) == RemoveSpaces(s)
    decreases |s|
  {
    var t := LStrip(s);
    RemoveSpacesOfLStrip(s);
    if t != [] {
      var w := TakeWord(t);
      var rest := t[|w|..];
      RemoveSpacesOfTakeWord(t);
      SplitConcat(rest);
      var ws := Split(s);
      assert ws == [w] + Split(rest);
      assert ws[1..] == Split(rest);
    }
  }

  /** `s.split()` yields non-empty, whitespace-free words whose concatenation is `s` without
      its whitespace. Where the words are cut is fixed by `SplitCuts`. */
  lemma SplitSpec(s: string)
    ensures forall k :: 0 <= k < |Split(s)| ==> Split(s)[k] != [] && NoSpace(Split(s)[k])
    ensures Concat(Split(s)) == RemoveSpaces(s)
  {
    SplitWords(s);
    SplitConcat(s);
  }

  /** `s.split()` is empty exactly when `s` holds no non-whitespace character. */
  lemma SplitEmptyIff(s: string)
    ensures Split(s) == [] <==> AllSpace(s)
  {
    if AllSpace(s) {
      LStripOfSpaces(s);
    } else {
      var k :| 0 <= k < |s| && !IsSpace(s[k]);
      LStripKeepsWord(s, k);
    }
  }

  /** `split()` cuts exactly at whitespace: leading whitespace followed by a whole word, one
      that ends at whitespace or at the end of the text, gives that word and then the words
      of the rest. With `SplitEmptyIff` this fixes `split()` on every text. */
  lemma SplitCuts(a: string, w: string, b: string)
    requires AllSpace(a) && w != [] && NoSpace(w)
    requires b == [] || IsSpace(b[0])
    ensures Split(a + w + b) == [w] + Split(b)
  {
    assert a + w + b == a + (w + b);
    LStripSpacePrefix(a, w + b);
    assert (w + b)[0] == w[0];
    assert LStrip(w + b) == w + b;
    TakeWordOf(w, b);
    assert (w + b)[|w|..] == b;
  }

  /** The first word of a text that starts with a whole word is that word. */
  lemma {:induction false} TakeWordOf(w: string, b: string)
    requires NoSpace(w) && (b == [] || IsSpace(b[0]))
    ensures TakeWord(w + b) == w
  {
    if w == [] {
      assert w + b == b;
    } else {
      assert (w + b)[0] == w[0];
      assert (w + b)[1..] == w[1..] + b;
      TakeWordOf(w[1..], b);
    }
  }

  /** `sub in (a + sub + b)`. */
  lemma {:induction false} ContainsOccurrence(a: string, sub: string, b: string)
    ensures Contains(a + sub + b, sub)
  {
    if a == [] {
      assert (a + sub + b)[..|sub|] == sub;
    } else {
      assert (a + sub + b)[1..] == a[1..] + sub + b;
      ContainsOccurrence(a[1..], sub, b);
    }
  }

  /** `sub` cannot occur in `s` when one of its characters does not occur in `s` at all. */
  lemma {:induction false} MissingCharExcludes(s: string, sub: string, c: char)
    requires c in sub && c !in s
    ensures !Contains(s, sub)
  {
    assert |sub| <= |s| ==> c !in s[..|sub|];
    if s != [] {
      MissingCharExcludes(s[1..], sub, c);
    }
  }

  /** An occurrence at a known position. */
  lemma ContainsAt(s: string, sub: string, i: nat)
    requires i + |sub| <= |s| && s[i..i + |sub|] == sub
    ensures Contains(s, sub)
  {
    assert s[i..][..|sub|] == sub;
    ContainsIff(s, sub);
  }

  /** Some occurrence, by position. */
  lemma OccurrenceOf(s: string, sub: string) returns (i: nat)
    requires Contains(s, sub)
    ensures i + |sub| <= |s| && s[i..i + |sub|] == sub
  {
    ContainsIff(s, sub);
    i :| 0 <= i <= |s| - |sub| && s[i..][..|sub|] == sub;
    assert s[i..][..|sub|] == s[i..i + |sub|];
  }

  lemma {:induction false} LStripKeepsInner(s: string, sub: string)
    requires Contains(s, sub) && sub != [] && !IsSpace(sub[0])
    ensures Contains(LStrip(s), sub)
  {
    if s != [] && IsSpace(s[0]) {
      assert !(|sub| <= |s| && s[..|sub|] == sub) by {
        assert |sub| <= |s| ==> s[..|sub|][0] == s[0];
      }
      LStripKeepsInner(s[1..], sub);
    }
  }

  lemma {:induction false} DropTrailingSpace(s: string, sub: string)
    requires Contains(s, sub) && sub != [] && !IsSpace(sub[|sub| - 1])
    requires s != [] && IsSpace(s[|s| - 1])
    ensures Contains(s[..|s| - 1], sub)
  {
    var t := s[..|s| - 1];
    if |sub| <= |s| && s[..|sub|] == sub {
      assert s[..|sub|][|sub| - 1] == s[|sub| - 1];
      assert |sub| < |s|;
      assert t[..|sub|] == sub;
    } else {
      assert Contains(s[1..], sub);
      assert s[1..] != [];
      DropTrailingSpace(s[1..], sub);
      assert t[1..] == s[1..][..|s[1..]| - 1];
    }
  }

  lemma {:induction false} RStripKeepsInner(s: string, sub: string)
    requires Contains(s, sub) && sub != [] && !IsSpace(sub[|sub| - 1])
    ensures Contains(RStrip(s), sub)
    decreases |s|
  {
    if s != [] && IsSpace(s[|s| - 1]) {
      DropTrailingSpace(s, sub);
      RStripKeepsInner(s[..|s| - 1], sub);
    }
  }

  /** The `k`-th character of `sub` is nowhere in `s`, so neither is `sub`. */
  lemma LacksChar(s: string, sub: string, k: nat)
    requires k < |sub| && sub[k] !in s
    ensures !Contains(s, sub)
  {
    MissingCharExcludes(s, sub, sub[k]);
  }

  /** `strip()` never cuts into an occurrence of a substring that starts and ends with a
      non-whitespace character. */
  lemma StripKeepsInner(s: string, sub: string)
    requires Contains(s, sub) && sub != []
    requires !IsSpace(sub[0]) && !IsSpace(sub[|sub| - 1])
    ensures Contains(Strip(s), sub)
  {
    LStripKeepsInner(s, sub);
    RStripKeepsInner(LStrip(s), sub);
  }

  lemma {:induction false} LStripSpacePrefix(a: string, x: string)
    requires AllSpace(a)
    ensures LStrip(a + x) == LStrip(x)
  {
    if a != [] {
      assert (a + x)[1..] == a[1..] + x;
      LStripSpacePrefix(a[1..], x);
    } else {
      assert a + x == x;
    }
  }

  lemma {:induction false} LStripAppend(x: string, b: string)
    requires !AllSpace(x)
    ensures LStrip(x + b) == LStrip(x) + b
  {
    assert (x + b)[0] == x[0];
    if IsSpace(x[0]) {
      assert (x + b)[1..] == x[1..] + b;
      assert !AllSpace(x[1..]) by {
        var k :| 0 <= k < |x| && !IsSpace(x[k]);
        assert x[1..][k - 1] == x[k];
      }
      LStripAppend(x[1..], b);
    }
  }

  lemma {:induction false} RStripSpaceSuffix(x: string, b: string)
    requires AllSpace(b)
    ensures RStrip(x + b) == RStrip(x)
    decreases |b|
  {
    if b != [] {
      var c := b[..|b| - 1];
      assert (x + b)[..|x + b| - 1] == x + c;
      assert (x + b)[|x + b| - 1] == b[|b| - 1];
      RStripSpaceSuffix(x, c);
    } else {
      assert x + b == x;
    }
  }

  /** Whitespace around the text makes no difference to `strip()`. */
  lemma StripIgnoresPadding(a: string, s: string, b: string)
    requires AllSpace(a) && AllSpace(b)
    ensures Strip(a + s + b) == Strip(s)
  {
    assert a + s + b == a + (s + b);
    LStripSpacePrefix(a, s + b);
    if AllSpace(s) {
      assert AllSpace(s + b) by {
        forall k | 0 <= k < |s + b| ensures IsSpace((s + b)[k]) {
          if k >= |s| { assert (s + b)[k] == b[k - |s|]; }
        }
      }
      LStripOfSpaces(s + b);
      LStripOfSpaces(s);
    } else {
      LStripAppend(s, b);
      RStripSpaceSuffix(LStrip(s), b);
    }
  }
}
