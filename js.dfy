/**
 * The small part of JavaScript's value and string semantics that the
 * blog front end relies on: truthiness, `a || b`, property reads,
 * string coercion, and the String methods `trim`, `split` and `includes`.
 * Numbers and booleans do not occur among the values modelled here.
 */
module Js {

  datatype Option<+T> = None | Some(value: T)

  /** A JavaScript value as far as the front end inspects it. */
  datatype JsValue =
    | Undefined
    | Null
    | Str(s: string)
    | Arr(items: seq<JsValue>)
    | Obj(props: map<string, JsValue>)

  /** `undefined` or `null`: the values whose properties cannot be read. */
  predicate Nullish(v: JsValue) {
    v.Undefined? || v.Null?
  }

  /** JavaScript truthiness: `undefined`, `null` and `''` are falsy; arrays and objects are truthy. */
  function Truthy(v: JsValue): (r: bool)
    ensures Nullish(v) ==> !r
    ensures v.Str? ==> (r <==> v.s != "")
    ensures v.Arr? || v.Obj? ==> r
  {
    match v
    case Undefined => false
    case Null => false
    case Str(s) => s != ""
    case _ => true
  }

  /** The value of `a || b`. */
  function Or(a: JsValue, b: JsValue): (r: JsValue)
    ensures Truthy(a) ==> r == a
    ensures !Truthy(a) ==> r == b
    ensures Truthy(r) <==> Truthy(a) || Truthy(b)
  {
    if Truthy(a) then a else b
  }

  /** `v?.key`: own properties of an object; anything else has none of the properties read here. */
  function Prop(v: JsValue, key: string): (r: JsValue)
    ensures !v.Obj? ==> r == Undefined
    ensures v.Obj? && key in v.props ==> r == v.props[key]
    ensures v.Obj? && key !in v.props ==> r == Undefined
  {
    if v.Obj? && key in v.props then v.props[key] else Undefined
  }

  /** String coercion, as in template literals and `+` with a string. */
  function ToText(v: JsValue): (r: string)
    ensures v.Undefined? ==> r == "undefined"
    ensures v.Null? ==> r == "null"
    ensures v.Str? ==> r == v.s
    ensures v.Obj? ==> r == "[object Object]"
    ensures v == Arr([]) ==> r == ""
    decreases v
  {
    match v
    case Undefined => "undefined"
    case Null => "null"
    case Str(s) => s
    case Arr(items) => ItemsText(items)
    case Obj(_) => "[object Object]"
  }

  /** `Array.prototype.join(',')` as used by array string coercion: `undefined` and `null` elements become ''. */
  function ItemsText(items: seq<JsValue>): (r: string)
    ensures |items| == 1 && items[0].Str? ==> r == items[0].s
    ensures |items| == 1 && Nullish(items[0]) ==> r == ""
    decreases items
  {
    if items == [] then ""
    else
      (if Nullish(items[0]) then "" else ToText(items[0]))
      + (if |items| == 1 then "" else "," + ItemsText(items[1..]))
  }

  // ---------------------------------------------------------------------
  // String.prototype.trim

  /** The characters `trim` removes: WhiteSpace and LineTerminator of ECMAScript. */
  predicate IsWhitespace(c: char) {
    || ('\t' <= c <= '\r')                 // tab, line feed, vertical tab, form feed, carriage return
    || c == ' ' || c == '\U{00A0}' || c == '\U{1680}'
    || ('\U{2000}' <= c <= '\U{200A}')     // the en quad to hair space block
    || c == '\U{2028}' || c == '\U{2029}' || c == '\U{202F}' || c == '\U{205F}'
    || c == '\U{3000}' || c == '\U{FEFF}'
  }

  /** Every character of `s` is whitespace (also true of the empty string). */
  predicate Blank(s: string) {
    forall i :: 0 <= i < |s| ==> IsWhitespace(s[i])
  }

  /** The first index at or after `i` whose character is not whitespace, or `|s|` when there is none. */
  function SkipLeading(s: string, i: nat): (b: nat)
    requires i <= |s|
    ensures i <= b <= |s|
    ensures forall m :: i <= m < b ==> IsWhitespace(s[m])
    ensures b == |s| || !IsWhitespace(s[b])
    decreases |s| - i
  {
    if i < |s| && IsWhitespace(s[i]) then SkipLeading(s, i + 1) else i
  }

  /** The end of `s[lo..e]` once its trailing whitespace is dropped. */
  function SkipTrailing(s: string, lo: nat, e: nat): (r: nat)
    requires lo <= e <= |s|
    ensures lo <= r <= e
    ensures forall m :: r <= m < e ==> IsWhitespace(s[m])
    ensures r == lo || !IsWhitespace(s[r - 1])
    decreases e
  {
    if lo < e && IsWhitespace(s[e - 1]) then SkipTrailing(s, lo, e - 1) else e
  }

  /**
   * `s.trim()`: the slice of `s` that starts at the first non-whitespace
   * character and has only whitespace after it.
   */
  function Trim(s: string): (r: string)
    ensures var b := SkipLeading(s, 0); b + |r| <= |s| && r == s[b..b + |r|]
    ensures forall m :: 0 <= m < SkipLeading(s, 0) ==> IsWhitespace(s[m])
    ensures forall m :: SkipLeading(s, 0) + |r| <= m < |s| ==> IsWhitespace(s[m])
    ensures r == [] || (!IsWhitespace(r[0]) && !IsWhitespace(r[|r| - 1]))
  {
    var b := SkipLeading(s, 0);
    s[b..SkipTrailing(s, b, |s|)]
  }

  /** `s.trim()` is empty exactly when `s` is empty or whitespace only. */
  lemma TrimEmptyIffBlank(s: string)
    ensures Trim(s) == [] <==> Blank(s)
  {
  }

  /** Trimming twice is trimming once. */
  lemma TrimIdempotent(s: string)
    ensures Trim(Trim(s)) == Trim(s)
  {
    var r := Trim(s);
    if r != [] {
      assert SkipLeading(r, 0) == 0;
      assert SkipTrailing(r, 0, |r|) == |r|;
    }
  }

  /** Every character of `s.trim()` occurs in `s`. */
  lemma TrimKeepsCharacters(s: string, c: char)
    requires c in Trim(s)
    ensures c in s
  {
    var b := SkipLeading(s, 0);
    var r := Trim(s);
    var i :| 0 <= i < |r| && r[i] == c;
    assert s[b + i] == c;
  }

  // ---------------------------------------------------------------------
  // String.prototype.split with a one-character separator, and its inverse

  /** `s.split(sep)`: the pieces between separators, always at least one (`''.split(',')` is `['']`). */
  function Split(s: string, sep: char): (r: seq<string>)
    ensures |r| >= 1
    decreases |s|
  {
    if s == [] then [[]]
    else
      var rest := Split(s[1..], sep);
      if s[0] == sep then [[]] + rest
      else [[s[0]] + rest[0]] + rest[1..]
  }

  /** `ps.join(sep)`. */
  function Join(ps: seq<string>, sep: char): (r: string)
    requires |ps| >= 1
    ensures |ps| == 1 ==> r == ps[0]
    ensures |r| >= |ps| - 1
  {
    if |ps| == 1 then ps[0] else ps[0] + [sep] + Join(ps[1..], sep)
  }

  /** No piece produced by `split` contains the separator. */
  lemma {:induction false} SplitPiecesOmitSeparator(s: string, sep: char)
    ensures forall k :: 0 <= k < |Split(s, sep)| ==> sep !in Split(s, sep)[k]
    decreases |s|
  {
    if s != [] {
      SplitPiecesOmitSeparator(s[1..], sep);
      var rest := Split(s[1..], sep);
      if s[0] != sep {
        assert sep !in rest[0];
        assert sep !in [s[0]] + rest[0];
      }
    }
  }

  lemma JoinPrepend(c: string, ps: seq<string>, sep: char)
    requires |ps| >= 1
    ensures Join([c + ps[0]] + ps[1..], sep) == c + Join(ps, sep)
  {
    var qs := [c + ps[0]] + ps[1..];
    assert qs[1..] == ps[1..];
    if |ps| > 1 {
      assert Join(qs, sep) == (c + ps[0]) + [sep] + Join(ps[1..], sep);
    }
  }

  /** Joining the pieces of a split gives the original string back. */
  lemma {:induction false} JoinSplit(s: string, sep: char)
    ensures Join(Split(s, sep), sep) == s
    decreases |s|
  {
    if s != [] {
      JoinSplit(s[1..], sep);
      var rest := Split(s[1..], sep);
      if s[0] == sep {
        var ps := [[]] + rest;
        assert ps[1..] == rest;
        assert Join(ps, sep) == [] + [sep] + Join(rest, sep);
        assert [sep] + s[1..] == s;
      } else {
        JoinPrepend([s[0]], rest, sep);
        assert [s[0]] + s[1..] == s;
      }
    }
  }

  /** A separator-free prefix fuses with the first piece of what follows it. */
  lemma {:induction false} SplitFreePrefix(x: string, t: string, sep: char)
    requires sep !in x
    ensures Split(x + t, sep) == [x + Split(t, sep)[0]] + Split(t, sep)[1..]
    decreases |x|
  {
    if x == [] {
      assert x + t == t;
      assert x + Split(t, sep)[0] == Split(t, sep)[0];
      assert Split(t, sep) == [Split(t, sep)[0]] + Split(t, sep)[1..];
    } else {
      assert (x + t)[1..] == x[1..] + t;
      SplitFreePrefix(x[1..], t, sep);
      assert [x[0]] + (x[1..] + Split(t, sep)[0]) == x + Split(t, sep)[0];
    }
  }

  /** Splitting a join of separator-free pieces gives the pieces back. */
  lemma {:induction false} SplitJoin(ps: seq<string>, sep: char)
    requires |ps| >= 1
    requires forall k :: 0 <= k < |ps| ==> sep !in ps[k]
    ensures Split(Join(ps, sep), sep) == ps
    decreases |ps|
  {
    if |ps| == 1 {
      SplitFreePrefix(ps[0], [], sep);
      assert ps[0] + [] == ps[0];
      assert Split([], sep) == [[]];
      assert Split(Join(ps, sep), sep) == [ps[0]];
    } else {
      var y := Join(ps[1..], sep);
      SplitJoin(ps[1..], sep);
      SplitFreePrefix(ps[0], [sep] + y, sep);
      assert ps[0] + [sep] + y == ps[0] + ([sep] + y);
      assert ([sep] + y)[1..] == y;
      var q := Split([sep] + y, sep);
      assert q == [[]] + Split(y, sep);
      assert q[0] == [] && q[1..] == ps[1..];
      assert ps[0] + q[0] == ps[0];
      assert Join(ps, sep) == ps[0] + ([sep] + y);
      assert ps == [ps[0]] + ps[1..];
    }
  }

  // ---------------------------------------------------------------------
  // String.prototype.includes

  predicate IsPrefix(t: string, s: string) {
    |t| <= |s| && s[..|t|] == t
  }

  /** `s.includes(t)`: every string includes the empty text, and none includes a longer text. */
  function Contains(s: string, t: string): (r: bool)
    ensures t == [] ==> r
    ensures |t| > |s| ==> !r
    decreases |s|
  {
    IsPrefix(t, s) || (s != [] && Contains(s[1..], t))
  }

  /** `t` occurs in `s` starting at index `i`. */
  predicate OccursAt(s: string, t: string, i: int) {
    0 <= i <= |s| - |t| && s[i..i + |t|] == t
  }

  /** `s.includes(t)` holds exactly when `t` occurs in `s` at some index. */
  lemma {:induction false} ContainsAt(s: string, t: string)
    ensures Contains(s, t) <==> exists i :: OccursAt(s, t, i)
    decreases |s|
  {
    if IsPrefix(t, s) {
      assert OccursAt(s, t, 0);
    }
    if s != [] {
      ContainsAt(s[1..], t);
      if Contains(s[1..], t) {
        var i :| OccursAt(s[1..], t, i);
        assert s[i + 1..i + 1 + |t|] == s[1..][i..i + |t|];
        assert OccursAt(s, t, i + 1);
      }
      if exists i :: OccursAt(s, t, i) {
        var i :| OccursAt(s, t, i);
        if i > 0 {
          assert s[1..][i - 1..i - 1 + |t|] == s[i..i + |t|];
          assert OccursAt(s[1..], t, i - 1);
        } else {
          assert IsPrefix(t, s);
        }
      }
    } else {
      if exists i :: OccursAt(s, t, i) {
        var i :| OccursAt(s, t, i);
        assert IsPrefix(t, s);
      }
    }
  }

  /** A string cannot include a text that has a character the string lacks. */
  lemma MissingCharacterExcludes(s: string, t: string, c: char)
    requires c in t && c !in s
    ensures !Contains(s, t)
  {
    ContainsAt(s, t);
  }
}
