/** What it means to pick elements of a sequence in order, and to lay texts one after the other. */
module Sequences {

  lemma InitAndLast<T>(s: seq<T>)
    requires s != []
    ensures s == s[..|s| - 1] + [s[|s| - 1]]
  {
  }

  predicate Increasing(idx: seq<nat>) {
    forall k, l :: 0 <= k < l < |idx| ==> idx[k] < idx[l]
  }

  /** The indices, in order, of exactly the elements with the property. */
  ghost predicate Selects<T>(idx: seq<nat>, s: seq<T>, p: T -> bool) {
    && Increasing(idx)
    && (forall k :: 0 <= k < |idx| ==> idx[k] < |s| && p(s[idx[k]]))
    && (forall i :: 0 <= i < |s| && p(s[i]) ==> i in idx)
  }

  lemma SelectsNone<T>(p: T -> bool)
    ensures Selects([], [], p)
  {
  }

  lemma SelectsSnoc<T>(idx: seq<nat>, s: seq<T>, x: T, p: T -> bool)
    requires Selects(idx, s, p)
    ensures Selects(if p(x) then idx + [|s|] else idx, s + [x], p)
  {
    var t := s + [x];
    var all := if p(x) then idx + [|s|] else idx;
    forall i | 0 <= i < |t| && p(t[i]) ensures i in all {
      if i < |s| {
        assert t[i] == s[i];
        assert i in idx;
      } else {
        assert all[|idx|] == i;
      }
    }
    forall k | 0 <= k < |all| ensures all[k] < |t| && p(t[all[k]]) {
      assert k < |idx| ==> t[idx[k]] == s[idx[k]];
    }
  }

  /** The selected elements correspond to these, one by one. */
  ghost predicate Yields<T, U>(idx: seq<nat>, s: seq<T>, picked: seq<U>, like: (T, U) -> bool) {
    |picked| == |idx| && forall k :: 0 <= k < |idx| ==> idx[k] < |s| && like(s[idx[k]], picked[k])
  }

  lemma YieldsSnoc<T, U>(idx: seq<nat>, s: seq<T>, x: T, picked: seq<U>, like: (T, U) -> bool)
    requires Yields(idx, s, picked, like)
    ensures Yields(idx, s + [x], picked, like)
    ensures forall y :: like(x, y) ==> Yields(idx + [|s|], s + [x], picked + [y], like)
  {
    forall k | 0 <= k < |idx| ensures idx[k] < |s| && like((s + [x])[idx[k]], picked[k]) {
      assert (s + [x])[idx[k]] == s[idx[k]];
    }
    forall y | like(x, y) ensures Yields(idx + [|s|], s + [x], picked + [y], like) {
      forall k | 0 <= k < |idx| + 1 ensures like((s + [x])[(idx + [|s|])[k]], (picked + [y])[k]) {
        if k < |idx| {
          assert (idx + [|s|])[k] == idx[k] && (picked + [y])[k] == picked[k];
        }
      }
    }
  }

  /** The part begins at this place of the text. */
  predicate Lies(text: string, part: string, at: nat) {
    at + |part| <= |text| && text[at..at + |part|] == part
  }

  /** The text is the parts in order, with the separator between them and nothing else. */
  ghost predicate Laid(text: string, parts: seq<string>, sep: string) {
    exists at: seq<nat> :: Places(at, text, parts, sep)
  }

  ghost predicate Places(at: seq<nat>, text: string, parts: seq<string>, sep: string) {
    && |at| == |parts|
    && (forall k :: 0 <= k < |parts| ==> Lies(text, parts[k], at[k]))
    && (forall k :: 0 <= k < |parts| - 1 ==>
          Lies(text, sep, at[k] + |parts[k]|) && at[k + 1] == at[k] + |parts[k]| + |sep|)
    && (if parts == [] then text == ""
        else at[0] == 0 && at[|parts| - 1] + |parts[|parts| - 1]| == |text|)
  }

  lemma LaidNone(sep: string)
    ensures Laid("", [], sep)
  {
    assert Places([], "", [], sep);
  }

  lemma LaidOne(x: string, sep: string)
    ensures Laid(x, [x], sep)
  {
    assert Places([0], x, [x], sep);
  }

  lemma LaidSnoc(text: string, parts: seq<string>, x: string, sep: string)
    requires Laid(text, parts, sep) && parts != []
    ensures Laid(text + sep + x, parts + [x], sep)
  {
    var at: seq<nat> :| Places(at, text, parts, sep);
    PlacesSnoc(at, text, parts, x, sep);
    assert text + (sep + x) == text + sep + x;
  }

  lemma PlaceKept(at: seq<nat>, text: string, parts: seq<string>, rest: string, sep: string, k: nat)
    requires Places(at, text, parts, sep) && k < |parts|
    ensures Lies(text + rest, parts[k], at[k])
    ensures k < |parts| - 1 ==> Lies(text + rest, sep, at[k] + |parts[k]|)
  {
    LiesLonger(text, rest, parts[k], at[k]);
    if k < |parts| - 1 {
      LiesLonger(text, rest, sep, at[k] + |parts[k]|);
    }
  }

  lemma PlacesSnoc(at: seq<nat>, text: string, parts: seq<string>, x: string, sep: string)
    requires Places(at, text, parts, sep) && parts != []
    ensures Places(at + [|text| + |sep|], text + (sep + x), parts + [x], sep)
  {
    var all, n := text + (sep + x), |parts|;
    LiesAfter(text, sep, x);
    forall k | 0 <= k < n ensures Lies(all, parts[k], at[k]) {
      PlaceKept(at, text, parts, sep + x, sep, k);
    }
    forall k | 0 <= k < n - 1 ensures Lies(all, sep, at[k] + |parts[k]|) {
      PlaceKept(at, text, parts, sep + x, sep, k);
    }
    assert at[n - 1] + |parts[n - 1]| == |text|;
    PlacesExtended(at, all, parts, x, sep, |text|);
  }

  lemma PlacesExtended(at: seq<nat>, all: string, parts: seq<string>, x: string, sep: string, end: nat)
    requires parts != [] && |at| == |parts| && at[0] == 0 && at[|parts| - 1] + |parts[|parts| - 1]| == end
    requires forall k :: 0 <= k < |parts| ==> Lies(all, parts[k], at[k])
    requires forall k :: 0 <= k < |parts| - 1 ==>
               Lies(all, sep, at[k] + |parts[k]|) && at[k + 1] == at[k] + |parts[k]| + |sep|
    requires Lies(all, sep, end) && Lies(all, x, end + |sep|) && end + |sep| + |x| == |all|
    ensures Places(at + [end + |sep|], all, parts + [x], sep)
  {
  }

  lemma LiesAfter(text: string, sep: string, x: string)
    ensures Lies(text + (sep + x), sep, |text|) && Lies(text + (sep + x), x, |text| + |sep|)
  {
    var all := text + (sep + x);
    assert all[|text|..] == sep + x;
    assert all[|text|..|text| + |sep|] == (sep + x)[..|sep|] == sep;
    assert all[|text| + |sep|..|text| + |sep| + |x|] == (sep + x)[|sep|..] == x;
  }

  /** Without a separator. */
  lemma LaidMore(text: string, parts: seq<string>, x: string)
    requires Laid(text, parts, "")
    ensures Laid(text + x, parts + [x], "")
  {
    if parts == [] {
      LaidOne(x, "");
      assert text + x == x && parts + [x] == [x];
    } else {
      LaidSnoc(text, parts, x, "");
      assert text + "" + x == text + x;
    }
  }

  lemma LiesLonger(text: string, rest: string, part: string, at: nat)
    requires Lies(text, part, at)
    ensures Lies(text + rest, part, at)
  {
    assert (text + rest)[at..at + |part|] == text[at..at + |part|];
  }
}
