/**
  The text of the daily notification: a dated header with the number of
  movies and of TV series, then one numbered block per item.
 */
module Notification {
  import opened PyValues
  import opened DoubanHot

  const TITLE := "今日热播资源推荐"
  const LINK_PREFIX := "\n豆瓣: https://movie.douban.com/subject/"

  /** The label shown for an item: 电影 for a movie, 剧集 for anything else. */
  function Label(mediaType: string): (shown: string)
    ensures shown == "电影" <==> mediaType == "movie"
    ensures shown == "剧集" <==> mediaType != "movie"
  {
    if mediaType == "movie" then "电影" else "剧集"
  }

  /** `sum(1 for item in items if item['media_type'] == t)`. */
  function CountTagged(items: seq<Item>, t: string): (n: nat)
    ensures n <= |items|
    ensures n == |items| <==> forall i :: 0 <= i < |items| ==> items[i].mediaType == t
    decreases |items|
  {
    if items == [] then 0
    else (if items[0].mediaType == t then 1 else 0) + CountTagged(items[1..], t)
  }

  lemma {:induction false} CountTaggedConcat(a: seq<Item>, b: seq<Item>, t: string)
    ensures CountTagged(a + b, t) == CountTagged(a, t) + CountTagged(b, t)
    decreases |a|
  {
    if a == [] {
      assert a + b == b;
    } else {
      assert (a + b)[1..] == a[1..] + b;
      CountTaggedConcat(a[1..], b, t);
    }
  }

  /** When every item is a movie or a TV series, the two header counts add up
      to the number of items. */
  lemma {:induction false} CountsCoverItems(items: seq<Item>)
    requires forall i :: 0 <= i < |items| ==> items[i].mediaType == "movie" || items[i].mediaType == "tv"
    ensures CountTagged(items, "movie") + CountTagged(items, "tv") == |items|
    decreases |items|
  {
    if items != [] {
      assert forall i :: 0 <= i < |items[1..]| ==> items[1..][i] == items[i + 1];
      CountsCoverItems(items[1..]);
    }
  }

  /** No item of a list tagged all alike is counted under another tag. */
  lemma {:induction false} CountOtherTag(items: seq<Item>, t: string, u: string)
    requires t != u
    requires forall i :: 0 <= i < |items| ==> items[i].mediaType == t
    ensures CountTagged(items, u) == 0
    decreases |items|
  {
    if items != [] {
      assert forall i :: 0 <= i < |items[1..]| ==> items[1..][i] == items[i + 1];
      CountOtherTag(items[1..], t, u);
    }
  }

  /** `🎬 今日热播推荐 (<date>)` and a blank line. */
  function DatedLine(date: string): (line: string) {
    "🎬 今日热播推荐 (" + date + ")\n\n"
  }

  /** `🔥 热门电影: <movies>部`. */
  function MovieCountLine(movies: nat): (line: string) {
    "🔥 热门电影: " + IntToString(movies) + "部\n"
  }

  /** `📺 热门剧集: <tvs>部` and a blank line. */
  function TvCountLine(tvs: nat): (line: string)
    ensures |line| >= 2 && line[|line| - 2..] == "\n\n"
  {
    var line := "📺 热门剧集: " + IntToString(tvs) + "部\n\n";
    SuffixOf("📺 热门剧集: " + IntToString(tvs) + "部", "\n\n");
    ConcatAssoc("📺 热门剧集: " + IntToString(tvs), "部", "\n\n");
    line
  }

  /** The dated title line, then the two count lines. */
  function Header(date: string, movies: nat, tvs: nat): (header: string)
    ensures DatedLine(date) <= header
    ensures |header| >= 2 && header[|header| - 2..] == "\n\n"
  {
    PrefixOf(DatedLine(date), MovieCountLine(movies), TvCountLine(tvs), [], [], []);
    SuffixOf(DatedLine(date) + MovieCountLine(movies), TvCountLine(tvs));
    DatedLine(date) + MovieCountLine(movies) + TvCountLine(tvs)
  }

  /** `<n>. [<label>] `. */
  function Marker(n: int, mediaType: string): (marker: string) {
    IntToString(n) + ". [" + Label(mediaType) + "] "
  }

  /** ` (<year>)`, parentheses included even around an empty year. */
  function YearPart(it: Item): (part: string) {
    " (" + it.year + ")"
  }

  /** The first line of a block: marker, title, year. */
  function Line(n: int, it: Item): (line: string) {
    Marker(n, it.mediaType) + Show(it.title) + YearPart(it)
  }

  /** ` ⭐<rating>`, only for a truthy rating. */
  function RatingPart(it: Item): (part: string) {
    if Truthy(it.rating) then " ⭐" + Show(it.rating) else ""
  }

  /** The Douban link line, only for a truthy id. */
  function LinkPart(it: Item): (part: string) {
    if Truthy(it.doubanId) then LINK_PREFIX + Show(it.doubanId) + "/" else ""
  }

  /** One item's block: its line, the rating, the link, and a blank line. */
  function Block(n: int, it: Item): (block: string)
    ensures Line(n, it) <= block
  {
    PrefixOf(Line(n, it), RatingPart(it), LinkPart(it), "\n\n", [], []);
    Line(n, it) + RatingPart(it) + LinkPart(it) + "\n\n"
  }

  /** `render` applied to each element together with its number, counting
      from `first`, as `enumerate(items, first)` pairs them. */
  function Numbered<T>(render: (int, T) -> string, items: seq<T>, first: int): (parts: seq<string>)
    ensures |parts| == |items|
  {
    seq(|items|, i requires 0 <= i < |items| => render(first + i, items[i]))
  }

  /** The blocks of `items`, numbered from `first` on. */
  function Blocks(items: seq<Item>, first: int): (blocks: seq<string>) {
    Numbered(Block, items, first)
  }

  /** The strings of `parts`, one after the other. */
  function Flatten(parts: seq<string>): (flat: string)
    decreases |parts|
  {
    if parts == [] then "" else parts[0] + Flatten(parts[1..])
  }

  /** The text of the blocks of `items`, numbered from `first` on. */
  function Body(items: seq<Item>, first: int): (body: string) {
    Flatten(Blocks(items, first))
  }

  /** The whole notification text. */
  function NotificationText(items: seq<Item>, date: string): (text: string)
    ensures Header(date, CountTagged(items, "movie"), CountTagged(items, "tv")) <= text
    ensures items == [] ==> text == Header(date, 0, 0)
  {
    assert Blocks([], 1) == [];
    Header(date, CountTagged(items, "movie"), CountTagged(items, "tv")) + Body(items, 1)
  }

  lemma {:induction false} FlattenConcat(a: seq<string>, b: seq<string>)
    ensures Flatten(a + b) == Flatten(a) + Flatten(b)
    decreases |a|
  {
    if a == [] {
      assert a + b == b;
      ConcatEmpty(Flatten(b));
    } else {
      assert (a + b)[0] == a[0];
      assert (a + b)[1..] == a[1..] + b;
      FlattenConcat(a[1..], b);
      ConcatAssoc(a[0], Flatten(a[1..]), Flatten(b));
    }
  }

  lemma FlattenOne(s: string)
    ensures Flatten([s]) == s
  {
    assert [s][1..] == [];
    ConcatEmpty(s);
  }

  /** A sequence that agrees with `x` and then with `y`, index by index, is
      their concatenation. */
  lemma ConcatPointwise<T>(l: seq<T>, x: seq<T>, y: seq<T>)
    requires |l| == |x| + |y|
    requires forall i :: 0 <= i < |x| ==> l[i] == x[i]
    requires forall i :: 0 <= i < |y| ==> l[|x| + i] == y[i]
    ensures l == x + y
  {
    forall i | |x| <= i < |l| ensures l[i] == (x + y)[i] {
      assert l[|x| + (i - |x|)] == y[i - |x|];
    }
  }

  /** Numbering a concatenation numbers the first part, then carries on
      with the second where the first stopped. */
  lemma NumberedConcat<T>(render: (int, T) -> string, a: seq<T>, b: seq<T>, first: int)
    ensures Numbered(render, a + b, first) == Numbered(render, a, first) + Numbered(render, b, first + |a|)
  {
    var l, x, y := Numbered(render, a + b, first), Numbered(render, a, first), Numbered(render, b, first + |a|);
    forall i | 0 <= i < |x| ensures l[i] == x[i] {
      assert (a + b)[i] == a[i];
    }
    forall i | 0 <= i < |y| ensures l[|x| + i] == y[i] {
      assert (a + b)[|a| + i] == b[i];
    }
    ConcatPointwise(l, x, y);
  }

  lemma BlocksConcat(a: seq<Item>, b: seq<Item>, first: int)
    ensures Blocks(a + b, first) == Blocks(a, first) + Blocks(b, first + |a|)
  {
    NumberedConcat(Block, a, b, first);
  }

  /** The blocks of a concatenation are those of the first part followed by
      those of the second, whose numbering carries on where the first stopped. */
  lemma BodyConcat(a: seq<Item>, b: seq<Item>, first: int)
    ensures Body(a + b, first) == Body(a, first) + Body(b, first + |a|)
  {
    BlocksConcat(a, b, first);
    FlattenConcat(Blocks(a, first), Blocks(b, first + |a|));
  }

  /** A single item's text is its block. */
  lemma BodyOne(x: Item, n: int)
    ensures Body([x], n) == Block(n, x)
  {
    assert Blocks([x], n) == [Block(n, x)];
    FlattenOne(Block(n, x));
  }

  /** Appending one item appends its block, numbered after the others. */
  lemma BodySnoc(a: seq<Item>, x: Item, first: int)
    ensures Body(a + [x], first) == Body(a, first) + Block(first + |a|, x)
  {
    BodyConcat(a, [x], first);
    BodyOne(x, first + |a|);
  }

  lemma RatingAppended(text: string, it: Item)
    ensures text + RatingPart(it) == if Truthy(it.rating) then text + (" ⭐" + Show(it.rating)) else text
  {
    if !Truthy(it.rating) {
      ConcatEmpty(text);
    }
  }

  lemma LinkAppended(text: string, it: Item)
    ensures text + LinkPart(it) == if Truthy(it.doubanId) then text + (LINK_PREFIX + Show(it.doubanId) + "/") else text
  {
    if !Truthy(it.doubanId) {
      ConcatEmpty(text);
    }
  }

  /** Appending one block's pieces in turn appends the block. */
  lemma BlockAppended(text: string, n: int, it: Item)
    ensures text + Line(n, it) + RatingPart(it) + LinkPart(it) + "\n\n" == text + Block(n, it)
  {
    var l, r, k := Line(n, it), RatingPart(it), LinkPart(it);
    ConcatAssoc(text, l, r);
    ConcatAssoc(text, l + r, k);
    ConcatAssoc(text, l + r + k, "\n\n");
  }

  /** Appending the block of item `i` to the text of the items before it
      gives the text of the first `i + 1` items. */
  lemma BodyGrows(header: string, items: seq<Item>, i: nat)
    requires i < |items|
    ensures header + Body(items[..i], 1) + Block(i + 1, items[i]) == header + Body(items[..i + 1], 1)
  {
    assert items[..i + 1] == items[..i] + [items[i]];
    BodySnoc(items[..i], items[i], 1);
    ConcatAssoc(header, Body(items[..i], 1), Block(i + 1, items[i]));
  }

  /** The k-th item (from 0) is shown as block number `first + k`, after the
      blocks of the items before it and before those of the items after it. */
  lemma BodyNumbering(items: seq<Item>, first: int, k: nat)
    requires k < |items|
    ensures Body(items, first) ==
      Body(items[..k], first) + Block(first + k, items[k]) + Body(items[k + 1..], first + k + 1)
  {
    var pre, x, post := items[..k], items[k], items[k + 1..];
    assert items == pre + [x] + post;
    BodyConcat(pre + [x], post, first);
    BodySnoc(pre, x, first);
  }

  lemma SuffixOf<T>(x: seq<T>, d: seq<T>)
    ensures (x + d)[|x + d| - |d|..] == d
  {
  }

  lemma PrefixOf<T>(p: seq<T>, q1: seq<T>, q2: seq<T>, q3: seq<T>, q4: seq<T>, q5: seq<T>)
    ensures p <= p + q1 + q2 + q3 + q4 + q5
  {
    assert p + q1 + q2 + q3 + q4 + q5 == p + (q1 + q2 + q3 + q4 + q5);
  }

  lemma MiddleOf<T>(x: seq<T>, y: seq<T>, r1: seq<T>, r2: seq<T>, r3: seq<T>)
    ensures (x + y + r1 + r2 + r3)[|x|..|x| + |y|] == y
  {
    assert x + y + r1 + r2 + r3 == (x + y) + (r1 + r2 + r3);
  }

  /** After the dated title line come the movie count line, then the series
      count line, which ends the header. */
  lemma HeaderCountLines(date: string, movies: nat, tvs: nat)
    ensures var header := Header(date, movies, tvs);
      var k := |DatedLine(date)| + |MovieCountLine(movies)|;
      && |header| == k + |TvCountLine(tvs)|
      && header[|DatedLine(date)|..k] == MovieCountLine(movies)
      && header[k..] == TvCountLine(tvs)
  {
    MiddleOf(DatedLine(date), MovieCountLine(movies), TvCountLine(tvs), [], []);
    SuffixOf(DatedLine(date) + MovieCountLine(movies), TvCountLine(tvs));
  }

  /** Every block ends with a blank line. */
  lemma BlockEndsBlank(n: int, it: Item)
    ensures |Block(n, it)| >= 2 && Block(n, it)[|Block(n, it)| - 2..] == "\n\n"
  {
    SuffixOf(Line(n, it) + RatingPart(it) + LinkPart(it), "\n\n");
  }

  /** Every block starts with its number and its label. */
  lemma BlockStarts(n: int, it: Item)
    ensures IntToString(n) + ". [" + Label(it.mediaType) + "] " + Show(it.title) + " (" <= Block(n, it)
  {
    var head := Marker(n, it.mediaType) + Show(it.title) + " (";
    assert Line(n, it) == head + (it.year + ")");
    PrefixOf(head, it.year + ")", RatingPart(it), LinkPart(it), "\n\n", []);
  }

  /** The year stands in parentheses right after the title, so an empty year
      gives `()`. */
  lemma BlockYearInParens(n: int, it: Item)
    ensures var k := |Marker(n, it.mediaType)| + |Show(it.title)|;
      k + |it.year| + 3 <= |Block(n, it)| && Block(n, it)[k..k + |it.year| + 3] == " (" + it.year + ")"
  {
    MiddleOf(Marker(n, it.mediaType) + Show(it.title), YearPart(it), RatingPart(it), LinkPart(it), "\n\n");
  }

  /** A character that is neither a digit, a sign nor punctuation of the
      line, and that the label, title and year lack, is not in the line. */
  lemma LineLacks(n: int, it: Item, c: char)
    requires !IsDigit(c) && c != '-' && c != '.' && c != ' ' && c != '[' && c != ']' && c != '(' && c != ')'
    requires c !in Label(it.mediaType) && c !in Show(it.title) && c !in it.year
    ensures c !in Line(n, it)
  {
    var s := IntToString(n);
    assert forall k :: 0 <= k < |s| ==> s[k] != c;
    assert c !in ". [" && c !in "] " && c !in " (" && c !in ")";
  }

  lemma LinkPrefixChars()
    ensures '⭐' !in LINK_PREFIX && |LINK_PREFIX| >= 2 && LINK_PREFIX[0] == '\n' && LINK_PREFIX[1] == '豆'
  {
  }

  /** The star appears in a block exactly when the rating is truthy (a rating
      of 0 shows none), provided the other shown fields hold no star. */
  lemma BlockRatingShown(n: int, it: Item)
    requires '⭐' !in Show(it.title) && '⭐' !in it.year && '⭐' !in Show(it.doubanId)
    ensures '⭐' in Block(n, it) <==> Truthy(it.rating)
  {
    LineLacks(n, it, '⭐');
    LinkPrefixChars();
    assert '⭐' !in LinkPart(it);
    assert '⭐' !in "\n\n";
    if Truthy(it.rating) {
      assert RatingPart(it)[1] == '⭐';
    }
  }

  /** The Douban link line appears exactly when the id is truthy, provided the
      other shown fields hold no 豆. */
  lemma BlockLinkShown(n: int, it: Item)
    requires '豆' !in Show(it.title) && '豆' !in it.year && '豆' !in Show(it.rating)
    ensures '豆' in Block(n, it) <==> Truthy(it.doubanId)
  {
    LineLacks(n, it, '豆');
    assert '豆' !in RatingPart(it);
    assert '豆' !in "\n\n";
    if Truthy(it.doubanId) {
      LinkPrefixChars();
      assert LinkPart(it)[1] == '豆';
    }
  }

  /** Right after the first line, a block goes on with `" ⭐"` exactly when
      the rating is truthy, whatever the other fields hold. */
  lemma BlockRatingAt(n: int, it: Item)
    ensures |Line(n, it)| <= |Block(n, it)|
    ensures " ⭐" <= Block(n, it)[|Line(n, it)|..] <==> Truthy(it.rating)
  {
    AfterThree(Line(n, it), RatingPart(it), LinkPart(it), "\n\n");
    RatingLead(it);
  }

  /** What follows the first line starts with `" ⭐"` exactly when the
      rating is truthy. */
  lemma RatingLead(it: Item)
    ensures " ⭐" <= RatingPart(it) + LinkPart(it) + "\n\n" <==> Truthy(it.rating)
  {
    var x := RatingPart(it) + LinkPart(it) + "\n\n";
    if Truthy(it.rating) {
      assert x[0] == ' ' && x[1] == '⭐';
      assert x[..2] == " ⭐";
    } else {
      LinkPrefixChars();
      assert x[0] == '\n';
    }
  }

  /** Right after the first line and the rating, a block goes on with the
      Douban line (`"\n豆"`) exactly when the id is truthy, whatever the
      other fields hold. */
  lemma BlockLinkAt(n: int, it: Item)
    ensures |Line(n, it)| + |RatingPart(it)| <= |Block(n, it)|
    ensures "\n豆" <= Block(n, it)[|Line(n, it)| + |RatingPart(it)|..] <==> Truthy(it.doubanId)
  {
    AfterTwo(Line(n, it) + RatingPart(it), LinkPart(it), "\n\n");
    LinkLead(it);
  }

  /** What follows the rating starts with `"\n豆"` exactly when the id is
      truthy. */
  lemma LinkLead(it: Item)
    ensures "\n豆" <= LinkPart(it) + "\n\n" <==> Truthy(it.doubanId)
  {
    var x := LinkPart(it) + "\n\n";
    if Truthy(it.doubanId) {
      LinkPrefixChars();
      assert x[0] == '\n' && x[1] == '豆';
      assert x[..2] == "\n豆";
    } else {
      assert x[1] == '\n';
    }
  }

  lemma AfterThree<T>(p: seq<T>, a: seq<T>, b: seq<T>, c: seq<T>)
    ensures (p + a + b + c)[|p|..] == a + b + c
  {
    assert p + a + b + c == p + (a + b + c);
  }

  lemma AfterTwo<T>(p: seq<T>, b: seq<T>, c: seq<T>)
    ensures (p + b + c)[|p|..] == b + c
  {
    assert p + b + c == p + (b + c);
  }
}
