/**
URL templates with a {model} placeholder.  A template matches a path segment by segment,
and matching is the inverse of substituting a model for the placeholder.
*/
module PathPattern {
  import opened Wrappers

  const PLACEHOLDER := "{model}"

  // ---------------------------------------------------------------- strings

  predicate HasPrefix(s: string, p: string) {
    |p| <= |s| && s[..|p|] == p
  }

  predicate HasSuffix(s: string, p: string) {
    |p| <= |s| && s[|s| - |p|..] == p
  }

  /** Where w first occurs in s. */
  function Index(s: string, w: string): (r: Option<nat>)
    ensures r.Some? ==> r.value + |w| <= |s| && HasPrefix(s[r.value..], w)
    ensures forall k :: 0 <= k <= |s| && (r.Some? ==> k < r.value) ==> !HasPrefix(s[k..], w)
  {
    if HasPrefix(s, w) then
      assert s[0..] == s;
      Some(0)
    else if s == [] then None
    else
      var rest := Index(s[1..], w);
      assert forall k :: 0 < k <= |s| ==> s[1..][k - 1..] == s[k..];
      assert s[0..] == s;
      if rest.Some? then Some(rest.value + 1) else None
  }

  predicate Contains(s: string, w: string) {
    Index(s, w).Some?
  }

  /** A string contains whatever one of its parts contains. */
  lemma ContainsParts(x: string, y: string, w: string)
    ensures Contains(x, w) || Contains(y, w) ==> Contains(x + y, w)
  {
    if Contains(x, w) {
      var k := Index(x, w).value;
      assert (x + y)[k..] == x[k..] + y;
      assert HasPrefix((x + y)[k..], w);
    } else if Contains(y, w) {
      var k := Index(y, w).value;
      assert (x + y)[|x| + k..] == y[k..];
    }
  }

  /** `strings.Split` at slashes. */
  function Split(s: string): (r: seq<string>)
    ensures |r| > 0
  {
    if s == [] then [[]]
    else
      var rest := Split(s[1..]);
      if s[0] == '/' then [[]] + rest else [[s[0]] + rest[0]] + rest[1..]
  }

  function Join(parts: seq<string>): string
    requires |parts| > 0
  {
    if |parts| == 1 then parts[0] else parts[0] + "/" + Join(parts[1..])
  }

  lemma {:induction false} JoinSplit(s: string)
    ensures Join(Split(s)) == s
  {
    if s != [] {
      JoinSplit(s[1..]);
      var rest := Split(s[1..]);
      if s[0] == '/' {
        assert ([[]] + rest)[1..] == rest;
      } else if |rest| > 1 {
        assert ([[s[0]] + rest[0]] + rest[1..])[1..] == rest[1..];
      }
    }
  }

  lemma {:induction false} SplitNoSlash(s: string)
    ensures forall i :: 0 <= i < |Split(s)| ==> '/' !in Split(s)[i]
    ensures '/' !in s ==> Split(s) == [s]
  {
    if s != [] {
      SplitNoSlash(s[1..]);
      assert s == [s[0]] + s[1..];
    }
  }

  /** Splitting a concatenation fuses the two parts that meet. */
  function Fuse(a: seq<string>, b: seq<string>): seq<string>
    requires |a| > 0 && |b| > 0
  {
    a[..|a| - 1] + [a[|a| - 1] + b[0]] + b[1..]
  }

  lemma FuseCons(c: char, a: seq<string>, b: seq<string>)
    requires |a| > 0 && |b| > 0
    ensures Fuse([[]] + a, b) == [[]] + Fuse(a, b)
    ensures Fuse([[c] + a[0]] + a[1..], b) == [[c] + Fuse(a, b)[0]] + Fuse(a, b)[1..]
  {
    var a' := [[c] + a[0]] + a[1..];
    assert a'[..|a| - 1] == if |a| == 1 then [] else [[c] + a[0]] + a[1..|a| - 1];
    if |a| == 1 {
      assert [c] + a[0] + b[0] == [c] + (a[0] + b[0]);
    }
  }

  lemma {:induction false} SplitConcat(x: string, y: string)
    ensures Split(x + y) == Fuse(Split(x), Split(y))
  {
    if x == [] {
      assert x + y == y;
      assert [] + Split(y)[0] == Split(y)[0];
      assert Fuse([[]], Split(y)) == Split(y);
    } else {
      SplitConcat(x[1..], y);
      assert (x + y)[1..] == x[1..] + y;
      FuseCons(x[0], Split(x[1..]), Split(y));
    }
  }

  lemma {:induction false} SplitLacks(s: string, w: string)
    requires !Contains(s, w)
    ensures forall i :: 0 <= i < |Split(s)| ==> !Contains(Split(s)[i], w)
  {
    if s != [] {
      ContainsParts(s[..1], s[1..], w);
      assert s == s[..1] + s[1..];
      SplitLacks(s[1..], w);
      FirstSegment(s);
      var first := Split(s)[0];
      assert s == first + s[|first|..];
      ContainsParts(first, s[|first|..], w);
    }
  }

  lemma {:induction false} FirstSegment(s: string)
    ensures HasPrefix(s, Split(s)[0])
  {
    if s != [] {
      FirstSegment(s[1..]);
    }
  }

  // ---------------------------------------------------------------- matching

  /** The text a pattern segment leaves for the model, if the rest of the segment fits. */
  function MatchSegment(pattern: string, actual: string): Option<string>
    requires Contains(pattern, PLACEHOLDER)
  {
    var at := Index(pattern, PLACEHOLDER).value;
    var prefix, suffix := pattern[..at], pattern[at + |PLACEHOLDER|..];
    if !HasPrefix(actual, prefix) || !HasSuffix(actual, suffix) then None
    else if |actual| < |prefix| + |suffix| then None
    else Some(actual[|prefix|..|actual| - |suffix|])
  }

  /** Matching from one segment on; `model` is what the segments before extracted last. */
  function MatchFrom(patterns: seq<string>, actual: seq<string>, model: string): Option<string>
    requires |patterns| == |actual|
    decreases |patterns|
  {
    if patterns == [] then (if model != "" then Some(model) else None)
    else if Contains(patterns[0], PLACEHOLDER) then
      match MatchSegment(patterns[0], actual[0])
      case None => None
      case Some(m) => if m == "" then None else MatchFrom(patterns[1..], actual[1..], m)
    else if actual[0] == patterns[0] then MatchFrom(patterns[1..], actual[1..], model)
    else None
  }

  function MatchSegments(segments: seq<string>, urlPath: string): Option<string> {
    var actual := Split(urlPath);
    if |actual| != |segments| then None else MatchFrom(segments, actual, "")
  }

  /** `pathPattern.match`, with the segments split beforehand. */
  method Match(segments: seq<string>, urlPath: string) returns (r: Option<string>)
    ensures r == MatchSegments(segments, urlPath)
  {
    var urlSegs := Split(urlPath);
    if |urlSegs| != |segments| {
      return None;
    }
    var model := "";
    for i := 0 to |segments|
      invariant MatchFrom(segments, urlSegs, "") == MatchFrom(segments[i..], urlSegs[i..], model)
    {
      var pattern := segments[i];
      assert segments[i..][1..] == segments[i + 1..] && urlSegs[i..][1..] == urlSegs[i + 1..];
      if Contains(pattern, PLACEHOLDER) {
        var m := MatchSegment(pattern, urlSegs[i]);
        if m.None? || m.value == "" {
          return None;
        }
        model := m.value;
      } else if urlSegs[i] != pattern {
        return None;
      }
    }
    r := if model != "" then Some(model) else None;
  }

  // ---------------------------------------------------------------- match and substitution

  /** The template with its only placeholder between `pre` and `suf`. */
  function Template(pre: string, suf: string): string {
    pre + PLACEHOLDER + suf
  }

  function Substitute(pre: string, suf: string, model: string): string {
    pre + model + suf
  }

  lemma PrefixWithin(pre: string, rest: string, k: nat, w: string)
    requires k + |w| <= |pre| && HasPrefix((pre + rest)[k..], w)
    ensures HasPrefix(pre[k..], w)
  {
    assert pre[k..][..|w|] == (pre + rest)[k..][..|w|];
  }

  /** No placeholder starts inside `pre` and ends after it, since braces open a placeholder only. */
  lemma NoOverlap(pre: string, rest: string, k: nat)
    requires k < |pre| < k + |PLACEHOLDER| && rest != "" && rest[0] == '{'
    ensures !HasPrefix((pre + rest)[k..], PLACEHOLDER)
  {
    var t, i := (pre + rest)[k..], |pre| - k;
    assert t[i] == (pre + rest)[|pre|] == '{';
    assert PLACEHOLDER[i] != '{';
    assert |t| >= |PLACEHOLDER| ==> t[..|PLACEHOLDER|][i] == t[i];
  }

  /** A placeholder set between strings without one is the first, and no other overlaps it. */
  lemma PlaceholderAt(pre: string, suf: string)
    requires !Contains(pre, PLACEHOLDER)
    ensures Index(Template(pre, suf), PLACEHOLDER) == Some(|pre|)
  {
    var rest := PLACEHOLDER + suf;
    var t := pre + rest;
    assert t == Template(pre, suf);
    assert rest[0] == '{' && rest[..|PLACEHOLDER|] == PLACEHOLDER;
    assert t[|pre|..] == rest;
    forall k: nat | k < |pre| ensures !HasPrefix(t[k..], PLACEHOLDER) {
      if k + |PLACEHOLDER| <= |pre| {
        if HasPrefix(t[k..], PLACEHOLDER) {
          PrefixWithin(pre, rest, k, PLACEHOLDER);
        }
      } else {
        NoOverlap(pre, rest, k);
      }
    }
  }

  lemma SplitThree(pre: string, mid: string, suf: string)
    requires '/' !in mid
    ensures var (a, b) := (Split(pre), Split(suf));
      Split(pre + mid + suf) == a[..|a| - 1] + [a[|a| - 1] + mid + b[0]] + b[1..]
  {
    SplitConcat(pre + mid, suf);
    SplitConcat(pre, mid);
    SplitNoSlash(mid);
    var a, b := Split(pre), Split(suf);
    assert [mid][1..] == [];
    assert Split(pre + mid) == a[..|a| - 1] + [a[|a| - 1] + mid];
  }

  lemma MatchSegmentExactly(a: string, b: string, actual: string, m: string)
    requires !Contains(a, PLACEHOLDER)
    ensures Contains(Template(a, b), PLACEHOLDER)
    ensures MatchSegment(Template(a, b), actual) == Some(m) <==> actual == a + m + b
  {
    PlaceholderAt(a, b);
    var t := Template(a, b);
    assert t[..|a|] == a && t[|a| + |PLACEHOLDER|..] == b;
    if actual == a + m + b {
      assert actual[..|a|] == a && actual[|actual| - |b|..] == b && actual[|a|..|actual| - |b|] == m;
    }
    if MatchSegment(t, actual) == Some(m) {
      assert actual == actual[..|a|] + actual[|a|..|actual| - |b|] + actual[|actual| - |b|..];
    }
  }

  /** Literal segments must be equal and leave the model as it is. */
  lemma {:induction false} MatchLiterals(literals: seq<string>, patterns: seq<string>,
                                         actual: seq<string>, model: string)
    requires forall i :: 0 <= i < |literals| ==> !Contains(literals[i], PLACEHOLDER)
    requires |actual| == |literals| + |patterns|
    ensures MatchFrom(literals + patterns, actual, model) ==
      if actual[..|literals|] == literals then MatchFrom(patterns, actual[|literals|..], model) else None
    decreases |literals|
  {
    if literals == [] {
      assert literals + patterns == patterns && actual[0..] == actual;
    } else {
      MatchLiterals(literals[1..], patterns, actual[1..], model);
      assert (literals + patterns)[1..] == literals[1..] + patterns;
      assert actual[1..][|literals| - 1..] == actual[|literals|..];
      StartsWith(actual, literals);
    }
  }

  /** Whether a sequence starts with another is decided by its head and its tail. */
  lemma StartsWith(s: seq<string>, t: seq<string>)
    requires t != [] && |t| <= |s|
    ensures s[..|t|] == t <==> s[0] == t[0] && s[1..][..|t| - 1] == t[1..]
  {
    var p := s[..|t|];
    assert p == [p[0]] + p[1..] && t == [t[0]] + t[1..];
    assert p[1..] == s[1..][..|t| - 1];
  }

  /** One placeholder segment followed by literal ones. */
  lemma MatchHead(a: string, b: string, after: seq<string>, actual: seq<string>, m: string)
    requires forall i :: 0 <= i < |after| ==> !Contains(after[i], PLACEHOLDER)
    requires !Contains(a, PLACEHOLDER) && |actual| == 1 + |after|
    ensures MatchFrom([Template(a, b)] + after, actual, "") == Some(m) <==>
      m != "" && actual[0] == a + m + b && actual[1..] == after
  {
    var patterns := [Template(a, b)] + after;
    MatchSegmentExactly(a, b, actual[0], m);
    assert patterns[0] == Template(a, b) && patterns[1..] == after;
    var got := MatchSegment(patterns[0], actual[0]);
    if got.Some? && got.value != "" {
      MatchLiterals(after, [], actual[1..], got.value);
      assert after + [] == after && actual[1..][..|after|] == actual[1..] && actual[1..][|after|..] == [];
    }
  }

  lemma Around<T>(s: seq<T>, before: seq<T>, x: T, after: seq<T>)
    requires |s| == |before| + 1 + |after|
    ensures s == before + [x] + after <==>
      s[..|before|] == before && s[|before|] == x && s[|before| + 1..] == after
  {
    assert s == s[..|before|] + [s[|before|]] + s[|before| + 1..];
    var t := before + [x] + after;
    assert t[..|before|] == before && t[|before| + 1..] == after;
  }

  /** A template of literal segments around one placeholder segment. */
  lemma MatchAround(before: seq<string>, a: string, b: string, after: seq<string>, actual: seq<string>, m: string)
    requires forall i :: 0 <= i < |before| ==> !Contains(before[i], PLACEHOLDER)
    requires forall i :: 0 <= i < |after| ==> !Contains(after[i], PLACEHOLDER)
    requires !Contains(a, PLACEHOLDER)
    requires |actual| == |before| + 1 + |after|
    ensures MatchFrom(before + [Template(a, b)] + after, actual, "") == Some(m) <==>
      m != "" && actual == before + [a + m + b] + after
  {
    var n := |before|;
    var rest := [Template(a, b)] + after;
    assert before + [Template(a, b)] + after == before + rest;
    MatchLiterals(before, rest, actual, "");
    MatchHead(a, b, after, actual[n..], m);
    assert actual[n..][0] == actual[n] && actual[n..][1..] == actual[n + 1..];
    Around(actual, before, a + m + b, after);
  }

  /**
  For a template with one placeholder in one segment, matching and substitution undo each
  other: the template matches a path with model m exactly when m is a non-empty string
  without slashes and the path is the template with m substituted.
  */
  lemma MatchInvertsSubstitution(pre: string, suf: string, urlPath: string, m: string)
    requires !Contains(pre, PLACEHOLDER) && !Contains(suf, PLACEHOLDER)
    ensures MatchSegments(Split(Template(pre, suf)), urlPath) == Some(m) <==>
      m != "" && '/' !in m && urlPath == Substitute(pre, suf, m)
  {
    var a, b := Split(pre), Split(suf);
    var before, after := a[..|a| - 1], b[1..];
    var l, r := a[|a| - 1], b[0];
    var actual := Split(urlPath);
    SplitThree(pre, PLACEHOLDER, suf);
    SplitLacks(pre, PLACEHOLDER);
    SplitLacks(suf, PLACEHOLDER);
    assert l + PLACEHOLDER + r == Template(l, r);
    if |actual| == |before| + 1 + |after| {
      MatchAround(before, l, r, after, actual, m);
    }
    if '/' !in m {
      SplitThree(pre, m, suf);
      JoinSplit(urlPath);
      JoinSplit(Substitute(pre, suf, m));
    } else {
      SplitNoSlash(urlPath);
      assert '/' in l + m + r;
      assert (before + [l + m + r] + after)[|before|] == l + m + r;
    }
  }

  /** With two placeholder segments the last one wins, and substitution is not undone. */
  lemma LastPlaceholderWins(x: string, y: string)
    requires x != "" && y != "" && '/' !in x && '/' !in y
    ensures MatchSegments([PLACEHOLDER, PLACEHOLDER], x + "/" + y) == Some(y)
  {
    SplitAtSlash(x, y);
    MatchTwo(x, y);
  }

  lemma SplitAtSlash(x: string, y: string)
    requires '/' !in x && '/' !in y
    ensures Split(x + "/" + y) == [x, y]
  {
    SplitNoSlash(x);
    SplitNoSlash(y);
    var tail := "/" + y;
    assert tail[1..] == y;
    assert Split(tail) == ["", y];
    SplitConcat(x, tail);
    assert x + tail == x + "/" + y && x + "" == x;
    assert [x][..0] == [] && ["", y][1..] == [y];
  }

  lemma MatchTwo(x: string, y: string)
    requires x != "" && y != ""
    ensures MatchFrom([PLACEHOLDER, PLACEHOLDER], [x, y], "") == Some(y)
  {
    MatchOne(y, x);
    var patterns, actual := [PLACEHOLDER, PLACEHOLDER], [x, y];
    assert patterns[1..] == [PLACEHOLDER] && actual[1..] == [y];
    MatchSegmentExactly("", "", x, x);
    assert Template("", "") == PLACEHOLDER && "" + x + "" == x;
  }

  lemma MatchOne(y: string, model: string)
    requires y != ""
    ensures MatchFrom([PLACEHOLDER], [y], model) == Some(y)
  {
    MatchSegmentExactly("", "", y, y);
    assert Template("", "") == PLACEHOLDER && "" + y + "" == y;
  }
}
