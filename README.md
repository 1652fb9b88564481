# HotMediaDaily, modelled in Dafny

HotMediaDaily is a MovieBot plugin. Once a day it fetches the currently
showing movies and the hot TV series from Douban's mobile API. It turns each
entry into a small record and sends one notification listing them all.

This project models the plugin's core as it is written in
`plugins/__init__.py`:

- **Configuration** (`HotMedia.ConfigOf`): the stored configuration, or the
  defaults `push_time = "10:00"`, `max_items = 5`.
- **Push time** (`PushTime`): `"HH:MM"` is split on `':'` and each piece goes
  through Python's `int()`. Any failure falls back to 10:00, and there is no
  range check.
- **Lifecycle** (`HotMedia.HotMediaDaily.Load` / `Unload`): registering and
  removing the daily cron job. Every call into the host scheduler is recorded
  in a ghost log, together with whether the host accepted it. A refusal is
  chosen arbitrarily and swallowed, as the source swallows the exception.
- **Fetcher** (`DoubanHot`): everything `get_douban_hot` does after the HTTP
  response has been decoded. That covers:
  - choosing the endpoint;
  - the `[:count]` slice with Python's slicing rules;
  - the per-entry mapping, including `parse_year`;
  - every way the extraction can raise, each of which turns the whole result
    into `[]`.

  The request and the JSON decoding are an input (`Fetch`). The requested URL
  is recorded in a ghost log.
- **Notifier** (`Notification`, `HotMedia.BuildText`,
  `HotMedia.HotMediaDaily.SendNotification` / `PushHotMedia`): the exact
  notification text (header, counts, numbered lines, optional rating and link
  lines) and the rule that a push sends at most one message, and none when
  both categories are empty. Sent messages are recorded in a ghost log. The
  date is a parameter.

The Python value semantics the plugin depends on are written out in
`PyValues`: truthiness, `str()`, `str.strip()`, `str.split()`,
`str.replace()` and `int()` (surrounding whitespace, sign, underscores
between digits).

Two details of the code that the model keeps:

- `unload` never clears the job handle (lines 70-80). A second `unload`
  therefore asks the scheduler to remove the job again, and that call's
  failure is swallowed (`HotMedia.LifecycleScenario`).
- The year is always written in parentheses (line 131), so an item without a
  year shows `()` (`Notification.BlockYearInParens`).

## Model

| member | source | states |
|---|---|---|
| PushTime.ParsePushTime | plugins/__init__.py:47-51 | a push-time value that is not a string (no `split`) falls back to (10, 0) |
| PushTime.PushTimeExact | plugins/__init__.py:49 | one `':'` with an `int()`-parsable piece on each side gives exactly those two numbers |
| PushTime.PushTimeBadPiece | plugins/__init__.py:49-51 | one `':'` with a piece `int()` rejects on either side falls back to (10, 0) |
| PushTime.PushTimeColonCount | plugins/__init__.py:49-51 | any number of `':'` other than one makes the unpacking fail, giving (10, 0) |
| PushTime.PushTimeShow | plugins/__init__.py:49 | every pair of integers written as `"<h>:<m>"` is parsed back unchanged; negative or out-of-range values are not rejected |
| PushTime.PushTimeDigits | plugins/__init__.py:49 | `"<digits>:<digits>"` gives the two decimal values |
| PushTime.PushTimeNineOhFive | plugins/__init__.py:49 | `"9:05"` gives hour 9, minute 5 |
| PushTime.PushTimeOutOfRange | plugins/__init__.py:49 | `"25:99"` is accepted as (25, 99): there is no range check |
| PushTime.ConfiguredPushTime | plugins/__init__.py:47-51 | a configured `push_time` is parsed; a configuration without the key fires at (10, 0) |
| PushTime.PushTimeDefault | plugins/__init__.py:47-49 | the default text `"10:00"` parses to (10, 0) |
| PushTime.PushTimeMalformed | plugins/__init__.py:48-51 | `"abc"` and `"1:2:3"` fall back to (10, 0) |
| PyValues.Truthy | plugins/__init__.py:85 | `None` is false; a boolean is itself; an integer or float is true exactly when non-zero; a string, list or dictionary exactly when non-empty |
| PyValues.Show | plugins/__init__.py:131-137 | `str()` gives `"None"`, `"True"`/`"False"`, the decimal text of an integer, and a string itself |
| PyValues.ParseInt | plugins/__init__.py:49 | `int()` raises on an empty or all-whitespace text, and on any text holding one of the information separators U+001C-U+001F, which `int()` does not skip |
| PyValues.ParseIntAccepts | plugins/__init__.py:49-51 | `int()` succeeds exactly when the text has no information separator and, once stripped, is digits with single underscores between them, with at most one `+` or `-` in front |
| PyValues.ParseIntSigned | plugins/__init__.py:49 | a `+` before the digits keeps their value and a `-` negates it |
| PyValues.ParseIntRejects | plugins/__init__.py:49-51 | `"abc"`, `"12a"`, `"1__0"`, `"_1"`, `"+"` and a U+001C before a digit all make `int()` raise |
| PyValues.Get | plugins/__init__.py:47 | `dict.get(key, default)`: the stored value when the key is present, the default otherwise |
| PyValues.ParseIntShow | plugins/__init__.py:49 | `int(str(i)) == i` for every integer, negative ones included |
| PyValues.ParseIntPadded | plugins/__init__.py:49 | `int()` ignores surrounding whitespace of the kinds it skips: the ASCII `" \t\n\v\f\r"` and the non-ASCII whitespace |
| PyValues.ParseDigits | plugins/__init__.py:49 | `int()` of a non-empty run of ASCII digits is its decimal value |
| PyValues.IntToString | plugins/__init__.py:125-126 | `str()` of an integer is non-empty, all digits apart from a leading `'-'`, which appears exactly for negative values |
| PyValues.Strip | plugins/__init__.py:196 | `strip()` leaves no whitespace at either end and never lengthens the text |
| PyValues.StripPadded | plugins/__init__.py:196 | `strip()` of a stripped text padded with whitespace on both sides is that text |
| PyValues.StripStripped | plugins/__init__.py:196 | `strip()` leaves an already stripped text unchanged |
| PyValues.StripKeepsOut | plugins/__init__.py:196 | `strip()` introduces no character that was not in its input |
| PyValues.RemoveAll | plugins/__init__.py:196 | `replace(c, '')` leaves no `c`, and leaves a text without `c` unchanged |
| PyValues.RemoveAllConcat | plugins/__init__.py:196 | `replace(c, '')` distributes over concatenation |
| PyValues.Split | plugins/__init__.py:49 | `split(sep)` yields one more piece than there are separators, and no piece contains the separator |
| PyValues.JoinSplit | plugins/__init__.py:49 | joining the pieces of `split(sep)` with `sep` gives the original text back |
| PyValues.SplitOnce | plugins/__init__.py:49 | splitting `a + sep + b` with `sep` in neither part gives exactly `[a, b]` |
| DoubanHot.ParseYear | plugins/__init__.py:192-198 | a falsy year gives `""`; every result is stripped and contains no `'年'` |
| DoubanHot.ParseYearIdempotent | plugins/__init__.py:192-198 | parsing an already parsed year changes nothing |
| DoubanHot.ParseYearSuffix | plugins/__init__.py:196 | `"<digits>年"` gives `"<digits>"` |
| DoubanHot.ParseYear2024 | plugins/__init__.py:196 | `"2024年"` gives `"2024"` |
| DoubanHot.ParseYearMarks | plugins/__init__.py:196 | `'年'` marks anywhere in the whitespace around a year, beside it or between spaces, are all removed and only the year is left |
| DoubanHot.ParseYearSpacedMark | plugins/__init__.py:196 | `" 2024 年 "` gives `"2024"` |
| DoubanHot.ParseYearPadded | plugins/__init__.py:196 | a year without `'年'` comes back without its surrounding whitespace and otherwise unchanged |
| DoubanHot.ParseYearNotString | plugins/__init__.py:195-198 | a value that is not a string has no `replace`, so the result is `""` |
| DoubanHot.Endpoint | plugins/__init__.py:150-156 | an endpoint exists exactly for `"movie"` and `"tv"` |
| DoubanHot.MapItem | plugins/__init__.py:180-186 | a record built from an entry carries the requested media type |
| DoubanHot.MapItemRating | plugins/__init__.py:180-186 | an entry whose `rating` is a dictionary, or missing and so read as `{}`, maps to its title (default `''`), its parsed year, the rating's `value` (default `None`), its `id` and the media type |
| DoubanHot.MapItemRatingNotDict | plugins/__init__.py:183 | a `rating` that is present but not a dictionary makes the entry raise |
| DoubanHot.MapItemNotDict | plugins/__init__.py:181 | an entry that is not a dictionary raises |
| DoubanHot.MapAll | plugins/__init__.py:178-187 | a successful mapping has one record per entry |
| DoubanHot.MapAllPointwise | plugins/__init__.py:178-190 | the loop succeeds exactly when no entry raises, and then record i is the mapping of entry i |
| DoubanHot.SliceStop | plugins/__init__.py:176 | the bound `[:k]` keeps `min(k, n)` entries for `k >= 0` and drops `-k` from the end for `k < 0` |
| DoubanHot.SliceBound | plugins/__init__.py:176 | `[:count]` works exactly for an integer, a boolean or `None`; an integer `k` stops at Python's stop index for `[:k]` (a boolean counts as 0 or 1), and `None` keeps the whole listing |
| DoubanHot.RawItems | plugins/__init__.py:176 | a document that is not a dictionary raises; otherwise, a listing that is a list with a sliceable count is cut to exactly its first `SliceBound` entries, and every other case raises |
| DoubanHot.RequestUrl | plugins/__init__.py:158-160 | the URL is exactly the endpoint, then the query `?start=0&count=`, then `str(count)` |
| DoubanHot.FetchHot | plugins/__init__.py:155-190 | an unknown media type, a failed request, and a document or listing that cannot be sliced all give `[]` |
| DoubanHot.FetchHotUnknownType | plugins/__init__.py:155-156 | an unknown media type gives `[]` whatever the response |
| DoubanHot.FetchHotTagged | plugins/__init__.py:185 | every fetched record carries the requested media type |
| DoubanHot.FetchHotInOrder | plugins/__init__.py:176-190 | when every sliced entry maps, the result is those records in listing order; when one raises, the result is `[]` |
| DoubanHot.FetchHotBound | plugins/__init__.py:176 | a non-negative integer count returns at most that many records; a negative count `k` returns at most `n + k` records for a listing of `n` entries |
| DoubanHot.FetchHotNullRating | plugins/__init__.py:183 | an entry whose `rating` is `null` makes `.get` raise and empties the whole result |
| DoubanHot.MapItemDefaults | plugins/__init__.py:181-183 | an entry without `title` and `rating` maps to title `''` and rating `None` |
| DoubanHot.MapItemYear | plugins/__init__.py:182 | an entry with year `"<digits>年"` maps to year `"<digits>"`, with the other fields taken as they are |
| Notification.Label | plugins/__init__.py:130 | the label is `电影` exactly for `"movie"` and `剧集` for every other type |
| Notification.CountTagged | plugins/__init__.py:121-122 | a category count is at most the number of items, and equals it exactly when every item has that type |
| Notification.CountTaggedConcat | plugins/__init__.py:121-122 | counts add up over concatenated lists |
| Notification.CountsCoverItems | plugins/__init__.py:121-122 | when every item is a movie or a series, the two counts sum to the number of items |
| Notification.CountOtherTag | plugins/__init__.py:121-122 | a list of one type counts zero of any other type |
| Notification.Header | plugins/__init__.py:124-126 | the header starts with the title line carrying the date, then a blank line, and ends with a blank line |
| Notification.TvCountLine | plugins/__init__.py:126 | the series count line ends with a blank line |
| Notification.HeaderCountLines | plugins/__init__.py:124-126 | right after the dated title line comes the movie count line `🔥 热门电影: <movies>部`, then the series count line `📺 热门剧集: <tvs>部` and a blank line, ending the header |
| Notification.Block | plugins/__init__.py:130-139 | an item's block starts with its numbered line (the rest of its makeup is stated by the `Block…` lemmas below) |
| Notification.NotificationText | plugins/__init__.py:121-139 | the text starts with the header and its two counts; an empty list gives the header with zero counts alone |
| Notification.Numbered | plugins/__init__.py:129 | numbering a list gives one rendered part per item |
| Notification.BlocksConcat | plugins/__init__.py:129-139 | the blocks of concatenated lists are the two lists' blocks, the second numbered on from the first |
| Notification.BodyConcat | plugins/__init__.py:129-139 | the body of concatenated lists is the two bodies in order, with the numbering continued |
| Notification.BodySnoc | plugins/__init__.py:129-139 | appending an item appends its block, numbered after the previous ones |
| Notification.BodyNumbering | plugins/__init__.py:129-131 | the k-th item's block, numbered `first + k`, sits between the blocks of the items before it and after it |
| Notification.BlockEndsBlank | plugins/__init__.py:139 | every item's block ends with a blank line |
| Notification.BlockStarts | plugins/__init__.py:130-131 | every block starts with `"<n>. [<label>] "`, then the title and `" ("` |
| Notification.BlockYearInParens | plugins/__init__.py:131 | the year is written in parentheses right after the title, even when it is empty |
| Notification.BlockRatingShown | plugins/__init__.py:133-134 | when no `⭐` occurs in the shown title, year or id, the star glyph appears in a block exactly when the rating is truthy |
| Notification.BlockLinkShown | plugins/__init__.py:136-137 | when no `豆` occurs in the shown title, year or rating, the Douban link line appears in a block exactly when the id is truthy |
| Notification.BlockRatingAt | plugins/__init__.py:131-134 | for every item, the text right after the block's first line starts with `" ⭐"` exactly when the rating is truthy |
| Notification.BlockLinkAt | plugins/__init__.py:133-137 | for every item, the text right after the first line and the rating starts with `"\n豆"` exactly when the id is truthy |
| HotMedia.ConfigOf | plugins/__init__.py:82-93 | a non-empty stored configuration is used as it is; a read failure or an empty one gives the defaults |
| HotMedia.MaxItems | plugins/__init__.py:99 | the configured `max_items`, or 5 when the key is missing |
| HotMedia.JobFor | plugins/__init__.py:47-60 | the job has the fixed id and a cron trigger, fires at the parsed push time, and at 10:00 without a `push_time` key |
| HotMedia.Combined | plugins/__init__.py:102-105 | the movies, then the series: its length is the sum, and its two parts are the two categories |
| HotMedia.PushMessages | plugins/__init__.py:105-113 | at most one message, none exactly when the combined list is empty, always on the plugin channel with the fixed title |
| HotMedia.DefaultConfigValues | plugins/__init__.py:88-93 | the defaults push at 10:00 with five items per category |
| HotMedia.PushSendsAtMostOne | plugins/__init__.py:102-113 | a push sends at most one message, and none exactly when both categories come back empty; the combined list has both categories' items |
| HotMedia.PushHeaderCounts | plugins/__init__.py:102-105 | the movies come first in the combined list, and the header counts are the sizes of the two categories |
| HotMedia.HotMediaDaily.constructor | plugins/__init__.py:38-41 | the configuration comes from `get_config`, no job is held, and nothing has been requested or sent |
| HotMedia.HotMediaDaily.Load | plugins/__init__.py:43-68 | the job with the fixed id and the parsed time is held, and exactly one `add_job` call is logged, whether or not it succeeded |
| HotMedia.HotMediaDaily.Unload | plugins/__init__.py:70-80 | without a job nothing is called; with one, exactly one `remove_job` for its id is logged, and the handle is kept |
| HotMedia.HotMediaDaily.GetDoubanHot | plugins/__init__.py:148-190 | returns `FetchHot` of its inputs, and logs one request exactly when the media type is known |
| HotMedia.HotMediaDaily.SendNotification | plugins/__init__.py:119-146 | exactly one message with the fixed title and the full notification text is sent on the plugin channel |
| HotMedia.HotMediaDaily.PushHotMedia | plugins/__init__.py:95-117 | requests the movie endpoint, then the TV endpoint, with the configured limit, and sends exactly `PushMessages` |
| HotMedia.MapEntries | plugins/__init__.py:178-187 | the loop's result equals `MapAll`: every record in order, or nothing once an entry raises |
| HotMedia.BuildText | plugins/__init__.py:121-139 | the text appended piece by piece equals `NotificationText`: header, counts, then one block per item numbered from 1 |
| HotMedia.AppendBlock | plugins/__init__.py:130-139 | one loop pass appends exactly that item's block |

## Left out

- The HTTP request, its headers, the 15-second timeout and the JSON decoding are not modelled. They are outside the plugin's logic, so the outcome is an input `Fetch`: failed, or a decoded document.
- Logging is not modelled, because it has no effect on behaviour.
- `datetime.now()` is not modelled. The date text is a parameter of the push routine.
- The plugin metadata constants, the configuration form and `create_plugin` are not modelled. They are declarations only.
- The host scheduler, the host notification channel and the MovieBot server are not part of this model. Only the calls made to them are recorded. The job's callback is always the push routine and is not represented as a value.
- The scheduler firing the job each day is not modelled. `PushHotMedia` models one firing.
- PyValues.ParseInt: accepts only ASCII digits, whereas Python's `int()` also accepts other Unicode decimal digits. The plugin's push time is ASCII in practice. It also has no limit on the number of digits, whereas CPython 3.11 and later (and patched earlier releases) raise `ValueError` by default above 4300 digits (`sys.get_int_max_str_digits()`); that limit depends on the interpreter and its settings.
- PyValues.ParseIntAccepts: the "exactly when" holds for ASCII text of at most 4300 digits. Python's `int()` also accepts other Unicode decimal digits, which this lemma counts as failures. Above 4300 digits CPython raises by default on texts this lemma counts as successes.
- PyValues.ParseIntSigned: holds only for digit runs of at most 4300 digits on interpreters with the default digit limit. Above it `int("+" + d)` and `int("-" + d)` raise.
- PyValues.ParseIntShow: holds only for integers of at most 4300 digits on interpreters with the default digit limit. Above it both `str()` and `int()` raise.
- PyValues.ParseDigits: holds only for digit runs of at most 4300 digits on interpreters with the default digit limit. Longer runs make `int()` raise.
- PushTime.PushTimeShow: holds only for values of at most 4300 digits on interpreters with the default digit limit. Above it, line 49 raises and the push time falls back to 10:00.
- PushTime.PushTimeDigits: holds only for digit runs of at most 4300 digits on interpreters with the default digit limit. Above it, line 49 raises and the push time falls back to 10:00.
- PyValues.Show: lists and dictionaries are rendered as a fixed placeholder rather than Python's `repr`, and a float is rendered as the text it carries. `repr` formatting is outside the plugin's logic.
- Floats are opaque: kept as their text and whether they are non-zero. The plugin only prints and tests the truthiness of ratings.
- The configuration is a dictionary. A truthy configuration of another type would make `load` raise, and that case is not modelled.
- `ScheduleJob` objects are taken to be truthy, as plain objects are, so `unload` tests only whether a job is held.
- A `subject_collection_items` value that is a string is folded into the failing extraction. Either way the result is `[]`.
- An exception raised by `send_message` is not modelled. The host channel is outside the model and the push routine swallows such an exception anyway. Every modelled path is total, so no exception escapes the push routine.
