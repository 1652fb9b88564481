/**
  Turning the decoded Douban listing into the plugin's item records. The
  HTTP request and the JSON decoding happen outside the model: the request
  either fails or yields a decoded value, and everything after that point is
  modelled, including every way it can raise.
 */
module DoubanHot {
  import opened PyValues

  const MOVIE_ENDPOINT := "https://m.douban.com/rexxar/api/v2/subject_collection/movie_showing/items"
  const TV_ENDPOINT := "https://m.douban.com/rexxar/api/v2/subject_collection/tv_hot/items"

  /** The endpoint for a media type, if the type is one of the two known ones. */
  function Endpoint(mediaType: string): (url: Option<string>)
    ensures url.Some? <==> mediaType == "movie" || mediaType == "tv"
  {
    if mediaType == "movie" then Some(MOVIE_ENDPOINT)
    else if mediaType == "tv" then Some(TV_ENDPOINT)
    else None
  }

  /** `f"{url}?start=0&count={count}"`. */
  function RequestUrl(endpoint: string, count: Value): (url: string)
    ensures endpoint <= url && |url| > |endpoint| && url[|endpoint|] == '?'
    ensures |url| >= |Show(count)| && url[|url| - |Show(count)|..] == Show(count)
    ensures |url| == |endpoint| + 15 + |Show(count)| && url[|endpoint|..|endpoint| + 15] == "?start=0&count="
  {
    var url := endpoint + "?start=0&count=" + Show(count);
    assert url[|url| - |Show(count)|..] == Show(count);
    url
  }

  /** What came back from the request: a network, timeout, HTTP or JSON
      error, or the decoded document. */
  datatype Fetch = Failed | Decoded(data: Value)

  /** One record of the pushed list (`title`, `year`, `rating`, `douban_id`,
      `media_type`). */
  datatype Item = Item(title: Value, year: string, rating: Value, doubanId: Value, mediaType: string)

  /** `parse_year`: a falsy value gives `""`; a string loses every `'年'` and
      its surrounding whitespace; any other value has no `replace`, and the
      bare `except` gives `""`. */
  function ParseYear(v: Value): (y: string)
    ensures !Truthy(v) ==> y == ""
    ensures '年' !in y
    ensures Stripped(y)
  {
    if !Truthy(v) then ""
    else match v
      case Str(s) =>
        StripKeepsOut(RemoveAll(s, '年'), '年');
        Strip(RemoveAll(s, '年'))
      case _ => ""
  }

  /** A year without `'年'` loses only its surrounding whitespace. */
  lemma ParseYearPadded(p: string, s: string, q: string)
    requires AllSpace(p) && AllSpace(q) && Stripped(s) && s != []
    requires '年' !in p + s + q
    ensures ParseYear(Str(p + s + q)) == s
  {
    StripPadded(p, s, q);
  }

  /** `'年'` marks may stand anywhere in the padding, next to the year or
      between spaces: every one is removed before stripping, so only the
      year is left. */
  lemma ParseYearMarks(p: string, s: string, q: string)
    requires AllSpace(RemoveAll(p, '年')) && AllSpace(RemoveAll(q, '年'))
    requires Stripped(s) && s != [] && '年' !in s
    ensures ParseYear(Str(p + s + q)) == s
  {
    RemoveAllConcat(p + s, q, '年');
    RemoveAllConcat(p, s, '年');
    StripPadded(RemoveAll(p, '年'), s, RemoveAll(q, '年'));
  }

  /** A truthy value that is not a string has no `replace`, so the bare
      `except` gives `""`. */
  lemma ParseYearNotString(v: Value)
    requires !v.Str?
    ensures ParseYear(v) == ""
  {
  }

  /** `parse_year` changes nothing the second time. */
  lemma ParseYearIdempotent(v: Value)
    ensures ParseYear(Str(ParseYear(v))) == ParseYear(v)
  {
    var y := ParseYear(v);
    if y != [] {
      StripStripped(y);
    }
  }

  lemma YearMarkRemoved(d: string)
    requires AllDigits(d)
    ensures RemoveAll(d + ['年'], '年') == d
  {
    assert '年' !in d by {
      assert forall k :: 0 <= k < |d| ==> IsDigit(d[k]);
    }
    RemoveAllConcat(d, ['年'], '年');
    assert RemoveAll(['年'], '年') == [] by {
      assert ['年'][1..] == [];
    }
    ConcatEmpty(d);
  }

  /** A year written as digits followed by `'年'` (`"2024年"`, say) comes out
      as the digits (`"2024"`). */
  lemma ParseYearSuffix(d: string)
    requires |d| > 0 && AllDigits(d)
    ensures ParseYear(Str(d + ['年'])) == d
  {
    YearMarkRemoved(d);
    DigitsValid(d);
    StripStripped(d);
  }

  /** `parse_year("2024年") == "2024"`. */
  lemma ParseYear2024()
    ensures ParseYear(Str("2024年")) == "2024"
  {
    assert AllDigits("2024");
    ParseYearSuffix("2024");
    assert "2024" + ['年'] == "2024年";
  }

  /** `parse_year(" 2024 年 ") == "2024"`. */
  lemma ParseYearSpacedMark()
    ensures ParseYear(Str(" 2024 年 ")) == "2024"
  {
    assert " 2024 年 " == " " + "2024" + " 年 ";
    assert RemoveAll(" ", '年') == " ";
    assert RemoveAll(" 年 ", '年') == "  ";
    StripStripped("2024");
    ParseYearMarks(" ", "2024", " 年 ");
  }

  /** The loop body: one raw listing entry mapped to a record, or `None` when
      it raises. An entry that is not a dictionary has no `get`, and a
      `rating` that is present but not a dictionary (null, say) has no `get`
      either. A missing `rating` reads as `{}`, so its value is `None`. */
  function MapItem(raw: Value, mediaType: string): (r: Option<Item>)
    ensures r.Some? ==> r.value.mediaType == mediaType
  {
    match raw
    case Dict(f) =>
      (match Get(f, "rating", Dict(map[]))
       case Dict(rating) =>
         Some(Item(Get(f, "title", Str("")), ParseYear(Get(f, "year", Null)),
                   Get(rating, "value", Null), Get(f, "id", Null), mediaType))
       case _ => None)
    case _ => None
  }

  /** The records the loop appends for the first `k` entries; `None` as
      soon as one of them raises. */
  function MapPrefix(raws: seq<Value>, k: nat, mediaType: string): (r: Option<seq<Item>>)
    requires k <= |raws|
    ensures r.Some? ==> |r.value| == k
    decreases k
  {
    if k == 0 then Some([])
    else
      match MapPrefix(raws, k - 1, mediaType)
      case None => None
      case Some(init) =>
        match MapItem(raws[k - 1], mediaType)
        case None => None
        case Some(it) => Some(init + [it])
  }

  /** The records of all the entries, or `None` when one of them raises. */
  function MapAll(raws: seq<Value>, mediaType: string): (r: Option<seq<Item>>)
    ensures r.Some? ==> |r.value| == |raws|
  {
    MapPrefix(raws, |raws|, mediaType)
  }

  lemma {:induction false} MapPrefixSome(raws: seq<Value>, k: nat, mediaType: string)
    requires k <= |raws|
    ensures MapPrefix(raws, k, mediaType).Some? <==> forall i :: 0 <= i < k ==> MapItem(raws[i], mediaType).Some?
    decreases k
  {
    if k > 0 {
      MapPrefixSome(raws, k - 1, mediaType);
      if MapPrefix(raws, k - 1, mediaType).Some? && MapItem(raws[k - 1], mediaType).Some? {
        assert MapPrefix(raws, k, mediaType).Some?;
      }
    }
  }

  lemma {:induction false} MapPrefixValues(raws: seq<Value>, k: nat, mediaType: string)
    requires k <= |raws| && MapPrefix(raws, k, mediaType).Some?
    ensures forall i :: 0 <= i < k ==> MapItem(raws[i], mediaType) == Some(MapPrefix(raws, k, mediaType).value[i])
    decreases k
  {
    if k > 0 {
      var init := MapPrefix(raws, k - 1, mediaType).value;
      var r := MapPrefix(raws, k, mediaType).value;
      MapPrefixValues(raws, k - 1, mediaType);
      assert r == init + [MapItem(raws[k - 1], mediaType).value];
      forall i | 0 <= i < k ensures MapItem(raws[i], mediaType) == Some(r[i]) {
        if i < k - 1 {
          assert r[i] == init[i];
        }
      }
    }
  }

  /** One entry that raises spoils every longer prefix. */
  lemma {:induction false} MapPrefixFails(raws: seq<Value>, i: nat, k: nat, mediaType: string)
    requires i < k <= |raws| && MapItem(raws[i], mediaType).None?
    ensures MapPrefix(raws, k, mediaType).None?
    decreases k
  {
    if k - 1 > i {
      MapPrefixFails(raws, i, k - 1, mediaType);
    }
  }

  /** The whole list maps exactly when every entry does, and then the i-th
      record is the i-th entry's. */
  lemma MapAllPointwise(raws: seq<Value>, mediaType: string)
    ensures MapAll(raws, mediaType).Some? <==> forall i :: 0 <= i < |raws| ==> MapItem(raws[i], mediaType).Some?
    ensures MapAll(raws, mediaType).Some? ==>
      forall i :: 0 <= i < |raws| ==> MapItem(raws[i], mediaType) == Some(MapAll(raws, mediaType).value[i])
  {
    MapPrefixSome(raws, |raws|, mediaType);
    if MapAll(raws, mediaType).Some? {
      MapPrefixValues(raws, |raws|, mediaType);
    }
  }

  /** Python's stop index for `xs[:k]` on a list of length `n`: a negative
      `k` counts from the end. */
  function SliceStop(k: int, n: nat): (stop: nat)
    ensures stop <= n
    ensures k >= 0 ==> stop == if k < n then k else n
    ensures k < 0 ==> stop == if n + k > 0 then n + k else 0
  {
    if k >= 0 then (if k < n then k else n)
    else if n + k > 0 then n + k else 0
  }

  /** `[:count]` accepts an integer, a boolean (an integer in Python) or
      `None` (no bound); anything else raises `TypeError`. */
  function SliceBound(count: Value, n: nat): (stop: Option<nat>)
    ensures stop.Some? <==> count.Int? || count.Bool? || count.Null?
    ensures stop.Some? ==> stop.value <= n
    ensures count.Int? ==> stop == Some(SliceStop(count.i, n))
    ensures count.Bool? ==> stop == Some(SliceStop(if count.b then 1 else 0, n))
    ensures count.Null? ==> stop == Some(n)
  {
    match count
    case Int(k) => Some(SliceStop(k, n))
    case Bool(b) => Some(SliceStop(if b then 1 else 0, n))
    case Null => Some(n)
    case _ => None
  }

  /** `data.get('subject_collection_items', [])[:count]`, or `None` where
      that raises: a document that is not a dictionary has no `get`, and a
      value other than a list cannot be sliced and iterated into records (a
      string slices, but its characters have no `get`, so it yields no
      record either). */
  function RawItems(data: Value, count: Value): (raws: Option<seq<Value>>)
    ensures !data.Dict? ==> raws.None?
    ensures raws.Some? ==>
      var listing := Get(data.fields, "subject_collection_items", List([]));
      && listing.List?
      && SliceBound(count, |listing.elems|).Some?
      && raws.value == listing.elems[..SliceBound(count, |listing.elems|).value]
    ensures data.Dict? ==>
      var listing := Get(data.fields, "subject_collection_items", List([]));
      listing.List? && SliceBound(count, |listing.elems|).Some? ==> raws.Some?
  {
    match data
    case Dict(f) =>
      (match Get(f, "subject_collection_items", List([]))
       case List(xs) =>
         (match SliceBound(count, |xs|)
          case Some(stop) => Some(xs[..stop])
          case None => None)
       case _ => None)
    case _ => None
  }

  /** `get_douban_hot(media_type, count)` after the request: the records, or
      `[]` for an unknown media type, a failed request, or an exception
      anywhere in the extraction. */
  function FetchHot(mediaType: string, count: Value, response: Fetch): (items: seq<Item>)
    ensures Endpoint(mediaType).None? || response.Failed? ==> items == []
    ensures response.Decoded? && RawItems(response.data, count).None? ==> items == []
  {
    if Endpoint(mediaType).None? then []
    else match response
      case Failed => []
      case Decoded(data) =>
        match RawItems(data, count)
        case None => []
        case Some(raws) =>
          match MapAll(raws, mediaType)
          case None => []
          case Some(items) => items
  }

  /** An unknown media type gives `[]` whatever the response. */
  lemma FetchHotUnknownType(mediaType: string, count: Value, response: Fetch)
    requires mediaType != "movie" && mediaType != "tv"
    ensures FetchHot(mediaType, count, response) == []
  {
  }

  /** Every record carries the requested media type. */
  lemma FetchHotTagged(mediaType: string, count: Value, response: Fetch)
    ensures forall i :: 0 <= i < |FetchHot(mediaType, count, response)| ==>
      FetchHot(mediaType, count, response)[i].mediaType == mediaType
  {
    var r := FetchHot(mediaType, count, response);
    if r != [] {
      var raws := RawItems(response.data, count).value;
      MapAllPointwise(raws, mediaType);
    }
  }

  /** With a known media type and a decoded listing: if every selected entry
      maps, the result is those records, in the listing's order; if any
      entry raises, the whole category is `[]`. */
  lemma FetchHotInOrder(mediaType: string, count: Value, data: Value, raws: seq<Value>)
    requires mediaType == "movie" || mediaType == "tv"
    requires RawItems(data, count) == Some(raws)
    ensures (forall i :: 0 <= i < |raws| ==> MapItem(raws[i], mediaType).Some?) ==>
      && |FetchHot(mediaType, count, Decoded(data))| == |raws|
      && forall i :: 0 <= i < |raws| ==>
           MapItem(raws[i], mediaType) == Some(FetchHot(mediaType, count, Decoded(data))[i])
    ensures (exists i :: 0 <= i < |raws| && MapItem(raws[i], mediaType).None?) ==>
      FetchHot(mediaType, count, Decoded(data)) == []
  {
    MapAllPointwise(raws, mediaType);
  }

  /** A non-negative `count` bounds the number of records; a negative one
      drops that many entries from the end of the listing. */
  lemma FetchHotBound(mediaType: string, k: int, response: Fetch)
    ensures k >= 0 ==> |FetchHot(mediaType, Int(k), response)| <= k
    ensures response.Decoded? && response.data.Dict? && k < 0 ==>
      var listing := Get(response.data.fields, "subject_collection_items", List([]));
      listing.List? ==> |FetchHot(mediaType, Int(k), response)| <= SliceStop(k, |listing.elems|)
  {
    var r := FetchHot(mediaType, Int(k), response);
    if r != [] {
      var raws := RawItems(response.data, Int(k)).value;
      assert |r| == |raws|;
    }
  }

  /** One entry whose `rating` is present but null makes the whole category
      `[]`. */
  lemma FetchHotNullRating(mediaType: string, count: Value, data: Value, raws: seq<Value>, i: nat)
    requires RawItems(data, count) == Some(raws)
    requires i < |raws| && raws[i].Dict? && "rating" in raws[i].fields && raws[i].fields["rating"] == Null
    ensures FetchHot(mediaType, count, Decoded(data)) == []
  {
    MapAllPointwise(raws, mediaType);
    assert MapItem(raws[i], mediaType).None?;
  }

  /** An entry without a `title` gets the title `''`, and one without a
      `rating` gets the rating `None`. */
  lemma MapItemDefaults(f: map<string, Value>, mediaType: string)
    requires "title" !in f && "rating" !in f
    ensures MapItem(Dict(f), mediaType).Some?
    ensures MapItem(Dict(f), mediaType).value.title == Str("")
    ensures MapItem(Dict(f), mediaType).value.rating == Null
  {
  }

  /** An entry whose `rating` is a dictionary, or missing and so read as
      `{}`, gets that dictionary's `value`, with the title and id read as they
      are and the year parsed. */
  lemma MapItemRating(f: map<string, Value>, rating: map<string, Value>, mediaType: string)
    requires Get(f, "rating", Dict(map[])) == Dict(rating)
    ensures MapItem(Dict(f), mediaType) ==
      Some(Item(Get(f, "title", Str("")), ParseYear(Get(f, "year", Null)),
                Get(rating, "value", Null), Get(f, "id", Null), mediaType))
  {
  }

  /** A `rating` that is present but not a dictionary has no `get`. */
  lemma MapItemRatingNotDict(f: map<string, Value>, mediaType: string)
    requires "rating" in f && !f["rating"].Dict?
    ensures MapItem(Dict(f), mediaType).None?
  {
  }

  /** An entry that is not a dictionary has no `get`. */
  lemma MapItemNotDict(raw: Value, mediaType: string)
    requires !raw.Dict?
    ensures MapItem(raw, mediaType).None?
  {
  }

  /** A year given as digits and `'年'` comes out as the digits. */
  lemma MapItemYear(f: map<string, Value>, mediaType: string, d: string)
    requires |d| > 0 && AllDigits(d)
    requires "rating" !in f && "year" in f && f["year"] == Str(d + ['年'])
    ensures MapItem(Dict(f), mediaType) == Some(Item(Get(f, "title", Str("")), d, Null, Get(f, "id", Null), mediaType))
  {
    ParseYearSuffix(d);
  }
}
