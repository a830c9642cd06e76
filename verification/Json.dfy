/**
JSON values and the canonical text `json.Marshal` prints for them: object keys sorted,
no blanks.  How numbers and single characters are written is a parameter; that the text
of a whole value determines the value is proved here.
*/
module Json {
  import opened Wrappers

  /** A decoded value (section 3 of RFC 8259); N is what a number decodes to. */
  datatype Json<N> =
    | Null
    | Bool(b: bool)
    | Num(n: N)
    | Str(s: string)
    | Arr(items: seq<Json<N>>)
    | Obj(members: map<string, Json<N>>)

  /** How scalars are written. */
  datatype Scalars<!N> = Scalars(num: N -> string, escape: char -> string)

  const NUMBER_CHARS := "0123456789+-.eE"

  /** Number texts are told apart, and so are escaped characters as they are read from left to right. */
  ghost predicate Readable<N(!new)>(sc: Scalars<N>) {
    && (forall n :: sc.num(n) != "" && forall i :: 0 <= i < |sc.num(n)| ==> sc.num(n)[i] in NUMBER_CHARS)
    && (forall m, n :: sc.num(m) == sc.num(n) ==> m == n)
    && (forall c :: sc.escape(c) != "" && sc.escape(c)[0] != '"')
    && (forall c, d :: sc.escape(c) <= sc.escape(d) ==> c == d)
  }

  /** Escaping quotes and backslashes with a backslash is readable, for one. */
  lemma BackslashEscapes<N(!new)>(num: N -> string) returns (sc: Scalars<N>)
    requires forall n :: num(n) != "" && forall i :: 0 <= i < |num(n)| ==> num(n)[i] in NUMBER_CHARS
    requires forall m, n :: num(m) == num(n) ==> m == n
    ensures Readable(sc) && sc.num == num
  {
    sc := Scalars(num, Backslashed);
    forall c, d | Backslashed(c) <= Backslashed(d) ensures c == d {
      assert Backslashed(c)[|Backslashed(c)| - 1] == c && Backslashed(d)[0] == Backslashed(c)[0];
    }
  }

  /** So are numbers told apart that are written in unary. */
  function Zeros(n: nat): (r: string)
    ensures |r| == n && forall i :: 0 <= i < n ==> r[i] in NUMBER_CHARS
  {
    assert NUMBER_CHARS[0] == '0';
    seq(n, _ => '0')
  }

  function Backslashed(c: char): string {
    if c == '"' || c == '\\' then ['\\', c] else [c]
  }

  // ---------------------------------------------------------------- sorted keys

  /** The byte-wise order of `sort.Strings`. */
  predicate Le(a: string, b: string) {
    a == "" || (b != "" && (a[0] < b[0] || (a[0] == b[0] && Le(a[1..], b[1..]))))
  }

  predicate FirstLess(a: string, b: string, i: nat) {
    i < |a| && i < |b| && a[..i] == b[..i] && a[i] < b[i]
  }

  lemma FirstLessTail(a: string, b: string, i: nat)
    requires a != "" && b != ""
    ensures FirstLess(a, b, i + 1) <==> a[0] == b[0] && FirstLess(a[1..], b[1..], i)
  {
    if i + 1 < |a| && i + 1 < |b| {
      var s, t := a[..i + 1], b[..i + 1];
      assert s == [a[0]] + a[1..][..i] && t == [b[0]] + b[1..][..i];
      assert s[1..] == a[1..][..i] && t[1..] == b[1..][..i];
    }
  }

  lemma PrefixTail(a: string, b: string)
    requires a != "" && b != ""
    ensures a <= b <==> a[0] == b[0] && a[1..] <= b[1..]
  {
    assert a == [a[0]] + a[1..] && b == [b[0]] + b[1..];
  }

  /** Strings compare by their first difference; a prefix comes first. */
  lemma {:induction false} LeIff(a: string, b: string)
    ensures Le(a, b) <==> a <= b || exists i: nat :: FirstLess(a, b, i)
  {
    if a != "" && b != "" {
      LeIff(a[1..], b[1..]);
      PrefixTail(a, b);
      if i: nat :| FirstLess(a[1..], b[1..], i) {
        FirstLessTail(a, b, i);
      }
      if i: nat :| FirstLess(a, b, i) {
        if i > 0 {
          FirstLessTail(a, b, i - 1);
        }
      }
      assert a[0] < b[0] ==> FirstLess(a, b, 0);
    }
  }

  lemma {:induction false} LeTotal(a: string, b: string)
    ensures Le(a, b) || Le(b, a)
    ensures Le(a, b) && Le(b, a) ==> a == b
  {
    if a != "" && b != "" {
      LeTotal(a[1..], b[1..]);
      assert a == [a[0]] + a[1..] && b == [b[0]] + b[1..];
    }
  }

  lemma {:induction false} LeTransitive(a: string, b: string, c: string)
    requires Le(a, b) && Le(b, c)
    ensures Le(a, c)
  {
    if a != "" && b != "" && c != "" && a[0] == b[0] == c[0] {
      LeTransitive(a[1..], b[1..], c[1..]);
    }
  }

  lemma {:induction false} LeastExists(s: set<string>)
    requires s != {}
    ensures exists k :: IsLeast(s, k)
  {
    var k :| k in s;
    LeTotal(k, k);
    if exists x :: x in s && x != k {
      var x :| x in s && x != k;
      assert x in s - {k};
      LeastExists(s - {k});
      var l :| IsLeast(s - {k}, l);
      LeTotal(k, l);
      if Le(k, l) {
        forall x | x in s ensures Le(k, x) {
          if x != k {
            LeTransitive(k, l, x);
          }
        }
        assert IsLeast(s, k);
      } else {
        assert IsLeast(s, l);
      }
    } else {
      assert IsLeast(s, k);
    }
  }

  predicate IsLeast(s: set<string>, k: string) {
    k in s && forall x :: x in s ==> Le(k, x)
  }

  lemma LeastUnique(s: set<string>)
    ensures forall k, l :: IsLeast(s, k) && IsLeast(s, l) ==> k == l
  {
    forall k, l | IsLeast(s, k) && IsLeast(s, l) ensures k == l {
      LeTotal(k, l);
    }
  }

  function Least(s: set<string>): (k: string)
    requires s != {}
    ensures IsLeast(s, k)
  {
    LeastExists(s);
    LeastUnique(s);
    var k :| k in s && IsLeast(s, k);
    k
  }

  function SortedKeys(s: set<string>): (r: seq<string>)
    ensures forall k :: k in r <==> k in s
    decreases |s|
  {
    if s == {} then []
    else
      var k := Least(s);
      [k] + SortedKeys(s - {k})
  }

  lemma {:induction false} KeysAscend(s: set<string>)
    ensures forall i, j :: 0 <= i < j < |SortedKeys(s)| ==>
      Le(SortedKeys(s)[i], SortedKeys(s)[j]) && SortedKeys(s)[i] != SortedKeys(s)[j]
    decreases |s|
  {
    if s != {} {
      var rest := s - {Least(s)};
      KeysAscend(rest);
      assert forall j :: 0 <= j < |SortedKeys(rest)| ==> SortedKeys(rest)[j] in rest;
    }
  }

  // ---------------------------------------------------------------- printing

  function Quoted<N>(sc: Scalars<N>, s: string): string {
    "\"" + Escaped(sc, s)
  }

  /** The escaped characters and the closing quote. */
  function Escaped<N>(sc: Scalars<N>, s: string): string {
    if s == "" then "\"" else sc.escape(s[0]) + Escaped(sc, s[1..])
  }

  function Print<N>(sc: Scalars<N>, j: Json<N>): string
    decreases j, 1, 0
  {
    match j
    case Null => "null"
    case Bool(b) => if b then "true" else "false"
    case Num(n) => sc.num(n)
    case Str(s) => Quoted(sc, s)
    case Arr(items) => "[" + PrintItems(sc, j, 0)
    case Obj(members) => "{" + PrintMembers(sc, j, SortedKeys(members.Keys), true)
  }

  /** The items from index i on, and the closing bracket. */
  function PrintItems<N>(sc: Scalars<N>, j: Json<N>, i: nat): string
    requires j.Arr? && i <= |j.items|
    decreases j, 0, |j.items| - i
  {
    if i == |j.items| then "]"
    else (if i == 0 then "" else ",") + (Print(sc, j.items[i]) + PrintItems(sc, j, i + 1))
  }

  /** The members with the given keys, and the closing brace. */
  function PrintMembers<N>(sc: Scalars<N>, j: Json<N>, keys: seq<string>, first: bool): string
    requires j.Obj? && forall k :: k in keys ==> k in j.members
    decreases j, 0, |keys|, 1
  {
    if keys == [] then "}" else (if first then "" else ",") + Quoted(sc, keys[0]) + PrintMember(sc, j, keys)
  }

  /** A colon, the value of the first key, and the members after it. */
  function PrintMember<N>(sc: Scalars<N>, j: Json<N>, keys: seq<string>): string
    requires j.Obj? && keys != [] && forall k :: k in keys ==> k in j.members
    decreases j, 0, |keys|, 0
  {
    ":" + (Print(sc, j.members[keys[0]]) + PrintMembers(sc, j, keys[1..], false))
  }

  // ---------------------------------------------------------------- the text determines the value

  /** What may follow a printed value. */
  predicate Stop(x: string) {
    x == "" || x[0] in ",]}"
  }

  lemma EscapedStart<N(!new)>(sc: Scalars<N>, s: string)
    requires Readable(sc)
    ensures Escaped(sc, s) != "" && (Escaped(sc, s)[0] == '"' <==> s == "")
  {
  }

  lemma {:induction false} EscapedUnique<N(!new)>(sc: Scalars<N>, s: string, t: string, x: string, y: string)
    requires Readable(sc) && Escaped(sc, s) + x == Escaped(sc, t) + y
    ensures s == t && x == y
  {
    var p, q := Escaped(sc, s), Escaped(sc, t);
    EscapedStart(sc, s);
    EscapedStart(sc, t);
    assert p[0] == (p + x)[0] == (q + y)[0] == q[0];
    if s == "" {
      SameStart(p, x, q, y);
    } else {
      var e, f := sc.escape(s[0]), sc.escape(t[0]);
      var s', t' := Escaped(sc, s[1..]), Escaped(sc, t[1..]);
      Assoc(e, s', x);
      Assoc(f, t', y);
      SameStart(e, s' + x, f, t' + y);
      EscapedUnique(sc, s[1..], t[1..], x, y);
      assert s == [s[0]] + s[1..] && t == [t[0]] + t[1..];
    }
  }

  lemma Assoc(u: string, v: string, x: string)
    ensures (u + v) + x == u + (v + x)
  {
  }

  /** Of two strings that start the same text, one starts the other. */
  lemma SameStart(e: string, s: string, f: string, t: string)
    requires e + s == f + t
    ensures e <= f || f <= e
    ensures e == f ==> s == t
  {
    var a := e + s;
    assert a[..|e|] == e && a[..|f|] == f;
    if e == f {
      assert a[|e|..] == s && a[|f|..] == t;
    }
  }

  lemma NumberUnique(u: string, v: string, x: string, y: string)
    requires forall i :: 0 <= i < |u| ==> u[i] in NUMBER_CHARS
    requires forall i :: 0 <= i < |v| ==> v[i] in NUMBER_CHARS
    requires Stop(x) && Stop(y) && u + x == v + y
    ensures u == v && x == y
  {
    var a, b := u + x, v + y;
    assert forall i :: 0 <= i < |v| ==> a[i] == v[i];
    assert forall i :: 0 <= i < |u| ==> b[i] == u[i];
    assert x != "" ==> a[|u|] == x[0];
    assert y != "" ==> b[|v|] == y[0];
    assert |u| == |v|;
    assert a[..|u|] == u && b[..|v|] == v && a[|u|..] == x && b[|v|..] == y;
  }

  /** The first character of a printed value tells its kind. */
  function Kind<N>(j: Json<N>): nat {
    match j
    case Null => 0
    case Bool(b) => if b then 1 else 2
    case Num(_) => 3
    case Str(_) => 4
    case Arr(_) => 5
    case Obj(_) => 6
  }

  function KindOf(c: char): nat {
    if c == 'n' then 0 else if c == 't' then 1 else if c == 'f' then 2
    else if c == '"' then 4 else if c == '[' then 5 else if c == '{' then 6 else 3
  }

  lemma PrintStarts<N(!new)>(sc: Scalars<N>, j: Json<N>)
    requires Readable(sc)
    ensures Print(sc, j) != "" && KindOf(Print(sc, j)[0]) == Kind(j) && Print(sc, j)[0] !in ",]}"
  {
    if j.Num? {
      assert sc.num(j.n)[0] in NUMBER_CHARS;
    }
  }

  lemma {:induction false} PrintUnique<N(!new)>(sc: Scalars<N>, a: Json<N>, b: Json<N>, x: string, y: string)
    requires Readable(sc) && Stop(x) && Stop(y) && Print(sc, a) + x == Print(sc, b) + y
    ensures a == b && x == y
    decreases a, 1, 0
  {
    var p, q := Print(sc, a), Print(sc, b);
    PrintStarts(sc, a);
    PrintStarts(sc, b);
    assert p[0] == (p + x)[0] == (q + y)[0] == q[0];
    match a
    case Null => SameStart(p, x, q, y);
    case Bool(_) => SameStart(p, x, q, y);
    case Num(_) => NumberUnique(p, q, x, y);
    case Str(s) =>
      DropFirst(p, q, x, y);
      assert p[1..] == Escaped(sc, s) && q[1..] == Escaped(sc, b.s);
      EscapedUnique(sc, s, b.s, x, y);
    case Arr(_) => ArrayUnique(sc, a, b, x, y);
    case Obj(_) => ObjectUnique(sc, a, b, x, y);
  }

  lemma {:induction false} ArrayUnique<N(!new)>(sc: Scalars<N>, a: Json<N>, b: Json<N>, x: string, y: string)
    requires Readable(sc) && a.Arr? && b.Arr? && Print(sc, a) + x == Print(sc, b) + y
    ensures a == b && x == y
    decreases a, 1, 0, 0
  {
    DropHeads("[", PrintItems(sc, a, 0), "[", PrintItems(sc, b, 0), x, y);
    ItemsUnique(sc, a, b, 0, x, y);
    assert a.items == a.items[0..] && b.items == b.items[0..];
  }

  lemma {:induction false} ObjectUnique<N(!new)>(sc: Scalars<N>, a: Json<N>, b: Json<N>, x: string, y: string)
    requires Readable(sc) && a.Obj? && b.Obj? && Print(sc, a) + x == Print(sc, b) + y
    ensures a == b && x == y
    decreases a, 1, 0, 0
  {
    var ks, ls := SortedKeys(a.members.Keys), SortedKeys(b.members.Keys);
    DropHeads("{", PrintMembers(sc, a, ks, true), "{", PrintMembers(sc, b, ls, true), x, y);
    MembersUnique(sc, a, b, ks, ls, true, x, y);
    assert a.members.Keys == b.members.Keys;
    assert a.members == b.members;
  }

  lemma DropFirst(p: string, q: string, x: string, y: string)
    requires p != "" && q != "" && p + x == q + y
    ensures p[1..] + x == q[1..] + y
  {
    assert (p + x)[1..] == p[1..] + x && (q + y)[1..] == q[1..] + y;
  }

  /** Equal texts stay equal when heads of equal length are dropped. */
  lemma DropHeads(c: string, p: string, d: string, q: string, x: string, y: string)
    requires |c| == |d| && (c + p) + x == (d + q) + y
    ensures c == d && p + x == q + y
  {
    Assoc(c, p, x);
    Assoc(d, q, y);
    SameStart(c, p + x, d, q + y);
  }

  lemma {:induction false} ItemsUnique<N(!new)>(sc: Scalars<N>, a: Json<N>, b: Json<N>, i: nat, x: string, y: string)
    requires Readable(sc) && a.Arr? && b.Arr? && i <= |a.items| && i <= |b.items|
    requires PrintItems(sc, a, i) + x == PrintItems(sc, b, i) + y
    ensures a.items[i..] == b.items[i..] && x == y
    decreases a, 0, |a.items| - i
  {
    var p, q := PrintItems(sc, a, i), PrintItems(sc, b, i);
    ItemsStart(sc, a, i);
    ItemsStart(sc, b, i);
    assert p[0] == (p + x)[0] == (q + y)[0] == q[0];
    if i == |a.items| {
      SameStart(p, x, q, y);
    } else {
      var u, v := Print(sc, a.items[i]), Print(sc, b.items[i]);
      var u', v' := PrintItems(sc, a, i + 1), PrintItems(sc, b, i + 1);
      var sep := if i == 0 then "" else ",";
      DropHeads(sep, u + u', sep, v + v', x, y);
      ItemUnique(sc, a, b, i, x, y);
    }
  }

  lemma {:induction false} ItemUnique<N(!new)>(sc: Scalars<N>, a: Json<N>, b: Json<N>, i: nat, x: string, y: string)
    requires Readable(sc) && a.Arr? && b.Arr? && i < |a.items| && i < |b.items|
    requires (Print(sc, a.items[i]) + PrintItems(sc, a, i + 1)) + x ==
      (Print(sc, b.items[i]) + PrintItems(sc, b, i + 1)) + y
    ensures a.items[i..] == b.items[i..] && x == y
    decreases a, 0, |a.items| - i, 0
  {
    var u, v := Print(sc, a.items[i]), Print(sc, b.items[i]);
    var u', v' := PrintItems(sc, a, i + 1), PrintItems(sc, b, i + 1);
    Assoc(u, u', x);
    Assoc(v, v', y);
    ItemsStart(sc, a, i + 1);
    ItemsStart(sc, b, i + 1);
    PrintUnique(sc, a.items[i], b.items[i], u' + x, v' + y);
    ItemsUnique(sc, a, b, i + 1, x, y);
    assert a.items[i..] == [a.items[i]] + a.items[i + 1..] && b.items[i..] == [b.items[i]] + b.items[i + 1..];
  }

  /** Past the first item, the rest starts with a comma or the closing bracket. */
  lemma ItemsStart<N(!new)>(sc: Scalars<N>, a: Json<N>, i: nat)
    requires Readable(sc) && a.Arr? && i <= |a.items|
    ensures PrintItems(sc, a, i) != ""
    ensures PrintItems(sc, a, i)[0] == ']' <==> i == |a.items|
    ensures 0 < i < |a.items| ==> PrintItems(sc, a, i)[0] == ','
  {
    if i < |a.items| {
      PrintStarts(sc, a.items[i]);
    }
  }

  lemma {:induction false} MembersUnique<N(!new)>(sc: Scalars<N>, a: Json<N>, b: Json<N>, ks: seq<string>,
                                                  ls: seq<string>, first: bool, x: string, y: string)
    requires Readable(sc) && a.Obj? && b.Obj?
    requires (forall k :: k in ks ==> k in a.members) && (forall k :: k in ls ==> k in b.members)
    requires PrintMembers(sc, a, ks, first) + x == PrintMembers(sc, b, ls, first) + y
    ensures ks == ls && x == y && forall k :: k in ks ==> a.members[k] == b.members[k]
    decreases a, 0, |ks|
  {
    var p, q := PrintMembers(sc, a, ks, first), PrintMembers(sc, b, ls, first);
    MembersStart(sc, a, ks, first);
    MembersStart(sc, b, ls, first);
    assert p[0] == (p + x)[0] == (q + y)[0] == q[0];
    if ks == [] {
      SameStart(p, x, q, y);
    } else {
      var k, l := ks[0], ls[0];
      var u, v := PrintMember(sc, a, ks), PrintMember(sc, b, ls);
      var sep := if first then "\"" else ",\"";
      MembersText(sc, a, ks, first);
      MembersText(sc, b, ls, first);
      DropHeads(sep, Escaped(sc, k) + u, sep, Escaped(sc, l) + v, x, y);
      Assoc(Escaped(sc, k), u, x);
      Assoc(Escaped(sc, l), v, y);
      EscapedUnique(sc, k, l, u + x, v + y);
      MemberUnique(sc, a, b, ks, ls, x, y);
    }
  }

  lemma MembersText<N>(sc: Scalars<N>, a: Json<N>, ks: seq<string>, first: bool)
    requires a.Obj? && ks != [] && forall k :: k in ks ==> k in a.members
    ensures PrintMembers(sc, a, ks, first) ==
      (if first then "\"" else ",\"") + (Escaped(sc, ks[0]) + PrintMember(sc, a, ks))
  {
  }

  lemma {:induction false} MemberUnique<N(!new)>(sc: Scalars<N>, a: Json<N>, b: Json<N>, ks: seq<string>,
                                                 ls: seq<string>, x: string, y: string)
    requires Readable(sc) && a.Obj? && b.Obj? && ks != [] && ls != [] && ks[0] == ls[0]
    requires (forall k :: k in ks ==> k in a.members) && (forall k :: k in ls ==> k in b.members)
    requires PrintMember(sc, a, ks) + x == PrintMember(sc, b, ls) + y
    ensures ks == ls && x == y && forall k :: k in ks ==> a.members[k] == b.members[k]
    decreases a, 0, |ks|, 0
  {
    var k := ks[0];
    var u, v := Print(sc, a.members[k]), Print(sc, b.members[k]);
    var u', v' := PrintMembers(sc, a, ks[1..], false), PrintMembers(sc, b, ls[1..], false);
    DropHeads(":", u + u', ":", v + v', x, y);
    Assoc(u, u', x);
    Assoc(v, v', y);
    MembersStart(sc, a, ks[1..], false);
    MembersStart(sc, b, ls[1..], false);
    PrintUnique(sc, a.members[k], b.members[k], u' + x, v' + y);
    MembersUnique(sc, a, b, ks[1..], ls[1..], false, x, y);
    assert ks == [k] + ks[1..] && ls == [k] + ls[1..];
  }

  lemma MembersStart<N>(sc: Scalars<N>, a: Json<N>, ks: seq<string>, first: bool)
    requires a.Obj? && forall k :: k in ks ==> k in a.members
    ensures var p := PrintMembers(sc, a, ks, first);
      p != "" && p[0] == if ks == [] then '}' else if first then '"' else ','
  {
  }

  /** Equal texts, equal values. */
  lemma PrintInjective<N(!new)>(sc: Scalars<N>, a: Json<N>, b: Json<N>)
    requires Readable(sc) && Print(sc, a) == Print(sc, b)
    ensures a == b
  {
    assert Print(sc, a) + "" == Print(sc, b) + "";
    PrintUnique(sc, a, b, "", "");
  }

  /** A value that is printed so. */
  ghost function Read<N(!new)>(sc: Scalars<N>, text: string): (r: Option<Json<N>>)
    ensures r.Some? ==> Print(sc, r.value) == text
    ensures r.None? ==> forall j: Json<N> :: Print(sc, j) != text
  {
    if j: Json<N> :| Print(sc, j) == text then Some(j) else None
  }

  lemma ReadPrint<N(!new)>(sc: Scalars<N>, j: Json<N>)
    requires Readable(sc)
    ensures Read(sc, Print(sc, j)) == Some(j)
  {
    PrintInjective(sc, j, Read(sc, Print(sc, j)).value);
  }

  // ---------------------------------------------------------------- sorting values

  /** `sortedValue`: the same value built anew with sorted keys. */
  function SortedValue<N>(j: Json<N>): Json<N>
    decreases j, 1, 0
  {
    match j
    case Obj(members) => Obj(Rebuilt(j, SortedKeys(members.Keys)))
    case Arr(items) => Arr(SortedItems(j, 0))
    case _ => j
  }

  function SortedItems<N>(j: Json<N>, i: nat): seq<Json<N>>
    requires j.Arr? && i <= |j.items|
    decreases j, 0, |j.items| - i
  {
    if i == |j.items| then [] else [SortedValue(j.items[i])] + SortedItems(j, i + 1)
  }

  function Rebuilt<N>(j: Json<N>, keys: seq<string>): map<string, Json<N>>
    requires j.Obj? && forall k :: k in keys ==> k in j.members
    decreases j, 0, |keys|
  {
    if keys == [] then map[] else Rebuilt(j, keys[1..])[keys[0] := SortedValue(j.members[keys[0]])]
  }

  /** Go maps have no order of their own, so sorting leaves the value as it is. */
  lemma {:induction false} SortedValueSame<N>(j: Json<N>)
    ensures SortedValue(j) == j
    decreases j, 1, 0
  {
    match j
    case Obj(members) =>
      RebuiltSame(j, SortedKeys(members.Keys));
      assert Rebuilt(j, SortedKeys(members.Keys)) == members;
    case Arr(items) =>
      SortedItemsSame(j, 0);
      assert items[0..] == items;
    case _ =>
  }

  lemma {:induction false} SortedItemsSame<N>(j: Json<N>, i: nat)
    requires j.Arr? && i <= |j.items|
    ensures SortedItems(j, i) == j.items[i..]
    decreases j, 0, |j.items| - i
  {
    if i < |j.items| {
      SortedValueSame(j.items[i]);
      SortedItemsSame(j, i + 1);
    }
  }

  lemma {:induction false} RebuiltSame<N>(j: Json<N>, keys: seq<string>)
    requires j.Obj? && forall k :: k in keys ==> k in j.members
    ensures var m := Rebuilt(j, keys);
      (forall k :: k in m <==> k in keys) && forall k :: k in keys ==> m[k] == j.members[k]
    decreases j, 0, |keys|
  {
    if keys != [] {
      SortedValueSame(j.members[keys[0]]);
      RebuiltSame(j, keys[1..]);
      assert keys == [keys[0]] + keys[1..];
    }
  }
}
