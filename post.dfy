/**
 * The pure helpers of a post card (src/components/home/post/Post.jsx):
 * the picture fallback, `addEllipsis` with the limits the card uses, and
 * `getCategories`, which turns the stored categories into chips.
 */
module PostCard {
  import opened Js

  const DefaultPicture := "https://images.unsplash.com/photo-1498050108023-c5249f4df085?ixid=MnwxMjA3fDB8MHxwaG90by1wYWdlfHx8fGVufDB8fHx8&ixlib=rb-1.2.1&auto=format&fit=crop&w=752&q=80"
  const TitleLimit := 50
  const DescriptionLimit := 120
  const Ellipsis := "..."
  const CategorySeparator := ','

  /** `post.picture || <default>`: the card always has a truthy picture URL. */
  function PictureUrl(picture: JsValue): (r: JsValue)
    ensures Truthy(picture) ==> r == picture
    ensures !Truthy(picture) ==> r == Str(DefaultPicture)
    ensures Truthy(r)
  {
    Or(picture, Str(DefaultPicture))
  }

  /** The end index `substring(0, limit)` uses: `limit` clamped to `[0, |s|]`. */
  function SubstringEnd(limit: int, length: nat): (r: nat)
    ensures r <= length
    ensures 0 <= limit <= length ==> r == limit
    ensures limit < 0 ==> r == 0
    ensures limit > length ==> r == length
  {
    if limit < 0 then 0 else if limit > length then length else limit
  }

  /**
   * `addEllipsis(str, limit)` for a string-or-missing `str` (`None` is
   * `undefined`/`null`): nothing for a missing or empty string, the string
   * itself when it fits, otherwise its first `limit` characters and `...`.
   */
  function AddEllipsis(str: Option<string>, limit: int): (r: string)
    ensures str.None? || str == Some("") ==> r == ""
    ensures str.Some? && |str.value| <= limit ==> r == str.value
    ensures str.Some? && |str.value| > limit && limit >= 0 ==>
              |r| == limit + 3 && r[..limit] == str.value[..limit] && r[limit..] == Ellipsis
    ensures str.Some? && str.value != "" && limit < 0 ==> r == Ellipsis
    ensures limit >= 0 ==> |r| <= limit + 3
  {
    match str
    case None => ""
    case Some(s) =>
      if s == "" then ""
      else if |s| > limit then s[..SubstringEnd(limit, |s|)] + Ellipsis
      else s
  }

  /** The result begins with the first `min(|s|, limit)` characters of the input, and shortening a short text again changes nothing. */
  lemma AddEllipsisKeepsPrefix(s: string, limit: nat)
    ensures var n := if |s| < limit then |s| else limit;
            var r := AddEllipsis(Some(s), limit);
            n <= |r| && r[..n] == s[..n]
    ensures |s| <= limit ==> AddEllipsis(Some(AddEllipsis(Some(s), limit)), limit) == AddEllipsis(Some(s), limit)
  {
  }

  /** The card's title: at most 50 characters and the ellipsis. */
  function CardTitle(title: Option<string>): (r: string)
    ensures |r| <= TitleLimit + |Ellipsis|
    ensures title.Some? && |title.value| <= TitleLimit ==> r == title.value
  {
    AddEllipsis(title, TitleLimit)
  }

  /** The card's excerpt: at most 120 characters of the description and the ellipsis. */
  function CardExcerpt(description: Option<string>): (r: string)
    ensures |r| <= DescriptionLimit + |Ellipsis|
    ensures description.Some? && |description.value| <= DescriptionLimit ==> r == description.value
  {
    AddEllipsis(description, DescriptionLimit)
  }

  // ---------------------------------------------------------------------
  // getCategories

  /** `a` is a subsequence of `b`: `b` with some elements left out, in the same order. */
  predicate IsSubsequence<T(==)>(a: seq<T>, b: seq<T>)
    decreases |b|
  {
    a == [] || (b != [] && ((a[0] == b[0] && IsSubsequence(a[1..], b[1..])) || IsSubsequence(a, b[1..])))
  }

  /** `.map(cat => cat.trim())`. */
  function TrimAll(ps: seq<string>): (r: seq<string>)
    ensures |r| == |ps|
    ensures forall k :: 0 <= k < |ps| ==> r[k] == Trim(ps[k])
  {
    seq(|ps|, k requires 0 <= k < |ps| => Trim(ps[k]))
  }

  /** `.filter(Boolean)` on strings: drops the empty ones and keeps the rest in order. */
  function NonEmpty(xs: seq<string>): (r: seq<string>)
    ensures forall k :: 0 <= k < |r| ==> r[k] != []
    ensures forall k :: 0 <= k < |r| ==> r[k] in xs
    ensures forall k :: 0 <= k < |xs| && xs[k] != [] ==> xs[k] in r
    ensures IsSubsequence(r, xs)
    ensures multiset(r) == multiset(xs)[[] := 0]
  {
    if xs == [] then []
    else
      assert xs == [xs[0]] + xs[1..];
      if xs[0] == [] then NonEmpty(xs[1..])
      else [xs[0]] + NonEmpty(xs[1..])
  }

  /** The category names of a comma-separated string: every trimmed piece that is not empty, each as often as it occurs. */
  function CategoryNames(s: string): (r: seq<string>)
    ensures forall k :: 0 <= k < |r| ==> r[k] != []
    ensures multiset(r) == multiset(TrimAll(Split(s, CategorySeparator)))[[] := 0]
  {
    NonEmpty(TrimAll(Split(s, CategorySeparator)))
  }

  /** `getCategories()`: chips from a string, an array as it is, nothing from anything else. */
  function GetCategories(categories: JsValue): (r: seq<JsValue>)
    ensures !Truthy(categories) || categories.Obj? ==> r == []
    ensures categories.Arr? ==> r == categories.items
    ensures categories.Str? ==>
              |r| == |CategoryNames(categories.s)| &&
              forall k :: 0 <= k < |r| ==> r[k] == Str(CategoryNames(categories.s)[k])
  {
    match categories
    case Str(s) =>
      if s == "" then []
      else
        var names := CategoryNames(s);
        seq(|names|, k requires 0 <= k < |names| => Str(names[k]))
    case Arr(items) => items
    case _ => []
  }

  /** A well-formed category name: non-empty, free of commas and already trimmed. */
  predicate WellFormedName(name: string) {
    name != [] && CategorySeparator !in name && Trim(name) == name
  }

  /** A non-blank piece of a comma split trims to a well-formed name. */
  lemma TrimmedPieceWellFormed(piece: string)
    requires CategorySeparator !in piece && Trim(piece) != []
    ensures WellFormedName(Trim(piece))
  {
    TrimIdempotent(piece);
    if CategorySeparator in Trim(piece) {
      TrimKeepsCharacters(piece, CategorySeparator);
    }
  }

  /** Every category name is well formed. */
  lemma CategoryNamesWellFormed(s: string)
    ensures forall k :: 0 <= k < |CategoryNames(s)| ==> WellFormedName(CategoryNames(s)[k])
  {
    var pieces := Split(s, CategorySeparator);
    SplitPiecesOmitSeparator(s, CategorySeparator);
    var trimmed := TrimAll(pieces);
    var names := NonEmpty(trimmed);
    forall k | 0 <= k < |names|
      ensures WellFormedName(names[k])
    {
      var j :| 0 <= j < |trimmed| && trimmed[j] == names[k];
      TrimmedPieceWellFormed(pieces[j]);
    }
  }

  /**
   * The names keep the order of the pieces, and every non-blank piece is
   * kept, trimmed, as many times as it occurs (`"Tech, Tech"` gives two chips).
   */
  lemma CategoryNamesKeepOrder(s: string)
    ensures IsSubsequence(CategoryNames(s), TrimAll(Split(s, CategorySeparator)))
    ensures forall name :: name != [] ==>
              multiset(CategoryNames(s))[name] == multiset(TrimAll(Split(s, CategorySeparator)))[name]
    ensures forall piece :: piece in Split(s, CategorySeparator) && Trim(piece) != [] ==>
              Trim(piece) in CategoryNames(s)
  {
    var pieces := Split(s, CategorySeparator);
    var trimmed := TrimAll(pieces);
    forall piece | piece in pieces && Trim(piece) != []
      ensures Trim(piece) in CategoryNames(s)
    {
      var j :| 0 <= j < |pieces| && pieces[j] == piece;
      assert trimmed[j] == Trim(piece);
      assert Trim(piece) in multiset(trimmed);
    }
  }

  /** A list with no empty string is its own filter. */
  lemma {:induction false} NonEmptyKeepsAll(xs: seq<string>)
    requires forall k :: 0 <= k < |xs| ==> xs[k] != []
    ensures NonEmpty(xs) == xs
  {
    if xs != [] {
      NonEmptyKeepsAll(xs[1..]);
      assert xs == [xs[0]] + xs[1..];
    }
  }

  /** Comma-joining well-formed names and reading the categories back gives the same names. */
  lemma CategoryNamesRoundTrip(names: seq<string>)
    requires |names| >= 1
    requires forall k :: 0 <= k < |names| ==> WellFormedName(names[k])
    ensures CategoryNames(Join(names, CategorySeparator)) == names
  {
    SplitJoin(names, CategorySeparator);
    assert TrimAll(names) == names;
    NonEmptyKeepsAll(names);
  }
}
