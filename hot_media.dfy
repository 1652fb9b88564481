/**
  The plugin object: its configuration, the daily job handle it keeps
  between `load` and `unload`, and the push routine the job runs. The host's
  scheduler, the Douban endpoints and the notification channel are outside
  the model; what the plugin asks of them is kept in ghost logs.
 */
module HotMedia {
  import opened PyValues
  import opened PushTime
  import opened DoubanHot
  import opened Notification

  /** `f"{plugin_id}_push_job"` for the plugin id `HotMediaDaily`. */
  const JOB_ID := "HotMediaDaily_push_job"
  const DEFAULT_MAX_ITEMS := 5

  /** The job handed to the scheduler: its id, a cron trigger and the time
      of day. (Its callback is always the push routine.) */
  datatype ScheduleJob = ScheduleJob(jobId: string, trigger: string, hour: int, minute: int)

  /** A call into the host scheduler, with whether the host accepted it. */
  datatype SchedulerCall =
    | AddJob(job: ScheduleJob, succeeded: bool)
    | RemoveJob(jobId: string, succeeded: bool)

  /** What `read_default_config()` did: raised, or returned a dictionary. */
  datatype ConfigRead = ReadFailed | ReadOk(stored: map<string, Value>)

  datatype MessageChannel = Plugin

  /** One `send_message(channel, title, text)` call. */
  datatype Message = Message(channel: MessageChannel, title: string, text: string)

  function DefaultConfig(): (config: map<string, Value>) {
    map["push_time" := Str(DEFAULT_PUSH_TIME), "max_items" := Int(DEFAULT_MAX_ITEMS)]
  }

  /** `get_config`: the stored configuration when reading it works and gives
      a non-empty one, the defaults otherwise. */
  function ConfigOf(read: ConfigRead): (config: map<string, Value>)
    ensures read.ReadOk? && read.stored != map[] ==> config == read.stored
    ensures read.ReadFailed? || read.stored == map[] ==> config == DefaultConfig()
  {
    match read
    case ReadOk(stored) => if stored != map[] then stored else DefaultConfig()
    case ReadFailed => DefaultConfig()
  }

  /** `self.config.get('max_items', 5)`. */
  function MaxItems(config: map<string, Value>): (limit: Value)
    ensures "max_items" in config ==> limit == config["max_items"]
    ensures "max_items" !in config ==> limit == Int(DEFAULT_MAX_ITEMS)
  {
    Get(config, "max_items", Int(DEFAULT_MAX_ITEMS))
  }

  /** The defaults push five items per category at 10:00. */
  lemma DefaultConfigValues()
    ensures ConfiguredPushTime(DefaultConfig()) == (10, 0)
    ensures MaxItems(DefaultConfig()) == Int(5)
  {
    PushTimeDefault();
  }

  /** The job `load` registers for a configuration. */
  function JobFor(config: map<string, Value>): (job: ScheduleJob)
    ensures job.jobId == JOB_ID && job.trigger == "cron"
    ensures "push_time" !in config ==> job.hour == 10 && job.minute == 0
    ensures "push_time" in config ==> (job.hour, job.minute) == ParsePushTime(config["push_time"])
  {
    var hm := ConfiguredPushTime(config);
    ScheduleJob(JOB_ID, "cron", hm.0, hm.1)
  }

  /** The push routine's combined list: the movies, then the TV series. */
  function Combined(config: map<string, Value>, movieResponse: Fetch, tvResponse: Fetch): (all: seq<Item>)
    ensures var movies := FetchHot("movie", MaxItems(config), movieResponse);
      var tvs := FetchHot("tv", MaxItems(config), tvResponse);
      && |all| == |movies| + |tvs|
      && all[..|movies|] == movies
      && all[|movies|..] == tvs
  {
    var movies := FetchHot("movie", MaxItems(config), movieResponse);
    var tvs := FetchHot("tv", MaxItems(config), tvResponse);
    assert (movies + tvs)[..|movies|] == movies;
    assert (movies + tvs)[|movies|..] == tvs;
    movies + tvs
  }

  /** The notifications one run of the push routine sends. */
  function PushMessages(config: map<string, Value>, date: string, movieResponse: Fetch, tvResponse: Fetch): (msgs: seq<Message>)
    ensures |msgs| <= 1
    ensures msgs == [] <==> Combined(config, movieResponse, tvResponse) == []
    ensures forall m :: m in msgs ==> m.channel == Plugin && m.title == TITLE
  {
    var all := Combined(config, movieResponse, tvResponse);
    if all == [] then [] else [Message(Plugin, TITLE, NotificationText(all, date))]
  }

  /** One run sends at most one notification, and none exactly when both
      categories came back empty. */
  lemma PushSendsAtMostOne(config: map<string, Value>, date: string, movieResponse: Fetch, tvResponse: Fetch)
    ensures |PushMessages(config, date, movieResponse, tvResponse)| <= 1
    ensures PushMessages(config, date, movieResponse, tvResponse) == [] <==>
      FetchHot("movie", MaxItems(config), movieResponse) == [] && FetchHot("tv", MaxItems(config), tvResponse) == []
    ensures |Combined(config, movieResponse, tvResponse)| ==
      |FetchHot("movie", MaxItems(config), movieResponse)| + |FetchHot("tv", MaxItems(config), tvResponse)|
  {
  }

  /** In the combined list the movies come first, and the header counts are
      the sizes of the two categories. */
  lemma PushHeaderCounts(config: map<string, Value>, movieResponse: Fetch, tvResponse: Fetch)
    ensures var movies := FetchHot("movie", MaxItems(config), movieResponse);
      var tvs := FetchHot("tv", MaxItems(config), tvResponse);
      var all := Combined(config, movieResponse, tvResponse);
      && all[..|movies|] == movies
      && CountTagged(all, "movie") == |movies|
      && CountTagged(all, "tv") == |tvs|
  {
    var movies := FetchHot("movie", MaxItems(config), movieResponse);
    var tvs := FetchHot("tv", MaxItems(config), tvResponse);
    FetchHotTagged("movie", MaxItems(config), movieResponse);
    FetchHotTagged("tv", MaxItems(config), tvResponse);
    CountTaggedConcat(movies, tvs, "movie");
    CountTaggedConcat(movies, tvs, "tv");
    CountOtherTag(movies, "movie", "tv");
    CountOtherTag(tvs, "tv", "movie");
    assert (movies + tvs)[..|movies|] == movies;
  }

  lemma AppendTwo<T>(s: seq<T>, a: T, b: T)
    ensures s + [a] + [b] == s + [a, b]
  {
  }

  class HotMediaDaily {
    var config: map<string, Value>
    var scheduleJob: Option<ScheduleJob>
    /** Every call made into the host scheduler, in order. */
    ghost var schedulerCalls: seq<SchedulerCall>
    /** Every URL requested from Douban, in order. */
    ghost var requests: seq<string>
    /** Every notification handed to the host, in order. */
    ghost var sent: seq<Message>

    constructor (read: ConfigRead)
      ensures config == ConfigOf(read) && scheduleJob == None
      ensures schedulerCalls == [] && requests == [] && sent == []
    {
      config := ConfigOf(read);
      scheduleJob := None;
      schedulerCalls, requests, sent := [], [], [];
    }

    /** `load`: the job is built and kept whether or not the scheduler takes
        it; a refusal is swallowed. */
    method Load()
      modifies this`scheduleJob, this`schedulerCalls
      ensures scheduleJob == Some(JobFor(config)) && scheduleJob.value.jobId == JOB_ID
      ensures |schedulerCalls| == |old(schedulerCalls)| + 1
      ensures schedulerCalls == old(schedulerCalls) + [AddJob(JobFor(config), schedulerCalls[|old(schedulerCalls)|].succeeded)]
    {
      var job := JobFor(config);
      scheduleJob := Some(job);
      // add_job's outcome is the host's; a failure is logged and swallowed
      var succeeded: bool :| true;
      schedulerCalls := schedulerCalls + [AddJob(job, succeeded)];
    }

    /** `unload`: asks the scheduler to remove the job only when one is held;
        a failure is swallowed. The handle itself is kept. */
    method Unload()
      modifies this`schedulerCalls
      ensures old(scheduleJob).None? ==> schedulerCalls == old(schedulerCalls)
      ensures old(scheduleJob).Some? ==>
        && |schedulerCalls| == |old(schedulerCalls)| + 1
        && schedulerCalls == old(schedulerCalls) +
             [RemoveJob(old(scheduleJob).value.jobId, schedulerCalls[|old(schedulerCalls)|].succeeded)]
    {
      if scheduleJob.Some? {
        // remove_job's outcome is the host's; a failure is logged and swallowed
        var succeeded: bool :| true;
        schedulerCalls := schedulerCalls + [RemoveJob(scheduleJob.value.jobId, succeeded)];
      }
    }

    /** `get_douban_hot`: no request for an unknown media type; otherwise one
        request, then the records built entry by entry, all dropped as soon
        as one entry raises. */
    method GetDoubanHot(mediaType: string, count: Value, response: Fetch) returns (result: seq<Item>)
      modifies this`requests
      ensures result == FetchHot(mediaType, count, response)
      ensures requests == old(requests) +
        (if Endpoint(mediaType).Some? then [RequestUrl(Endpoint(mediaType).value, count)] else [])
    {
      var endpoint := Endpoint(mediaType);
      if endpoint.None? {
        return [];
      }
      requests := requests + [RequestUrl(endpoint.value, count)];
      if response.Failed? {
        return [];
      }
      var selected := RawItems(response.data, count);
      if selected.None? {
        return [];
      }
      var mapped := MapEntries(selected.value, mediaType);
      result := if mapped.Some? then mapped.value else [];
    }

    /** `send_notification`: the text built by `NotificationText`, sent as
        one message on the plugin channel. */
    method SendNotification(items: seq<Item>, date: string)
      modifies this`sent
      ensures sent == old(sent) + [Message(Plugin, TITLE, NotificationText(items, date))]
    {
      var text := BuildText(items, date);
      sent := sent + [Message(Plugin, TITLE, text)];
    }

    /** `push_hot_media`: fetch both categories with the configured limit,
        movies first; send nothing for an empty list, one notification
        otherwise. */
    method PushHotMedia(date: string, movieResponse: Fetch, tvResponse: Fetch)
      modifies this`requests, this`sent
      ensures sent == old(sent) + PushMessages(config, date, movieResponse, tvResponse)
      ensures requests == old(requests) +
        [RequestUrl(MOVIE_ENDPOINT, MaxItems(config)), RequestUrl(TV_ENDPOINT, MaxItems(config))]
    {
      ghost var requested := requests;
      var maxItems := MaxItems(config);
      var movies := GetDoubanHot("movie", maxItems, movieResponse);
      var tvs := GetDoubanHot("tv", maxItems, tvResponse);
      assert requests == requested + [RequestUrl(MOVIE_ENDPOINT, maxItems)] + [RequestUrl(TV_ENDPOINT, maxItems)];
      AppendTwo(requested, RequestUrl(MOVIE_ENDPOINT, maxItems), RequestUrl(TV_ENDPOINT, maxItems));
      var allItems := movies + tvs;
      assert allItems == Combined(config, movieResponse, tvResponse);
      if allItems == [] {
        assert PushMessages(config, date, movieResponse, tvResponse) == [];
        ConcatEmpty(sent);
        return;
      }
      assert PushMessages(config, date, movieResponse, tvResponse) ==
        [Message(Plugin, TITLE, NotificationText(allItems, date))];
      SendNotification(allItems, date);
    }
  }

  /** The loop of `get_douban_hot`: the records built entry by entry, or
      `None` as soon as one entry raises. */
  method MapEntries(raws: seq<Value>, mediaType: string) returns (mapped: Option<seq<Item>>)
    ensures mapped == MapAll(raws, mediaType)
  {
    var result := [];
    var i := 0;
    while i < |raws|
      invariant 0 <= i <= |raws|
      invariant MapPrefix(raws, i, mediaType) == Some(result)
    {
      var item := MapItem(raws[i], mediaType);
      if item.None? {
        MapPrefixFails(raws, i, |raws|, mediaType);
        return None;
      }
      result := result + [item.value];
      i := i + 1;
    }
    return Some(result);
  }

  /** The text `send_notification` builds: the header with the two counts,
      then each item's pieces appended in turn. */
  method BuildText(items: seq<Item>, date: string) returns (text: string)
    ensures text == NotificationText(items, date)
  {
    var movieCount := CountTagged(items, "movie");
    var tvCount := CountTagged(items, "tv");
    var header := Header(date, movieCount, tvCount);
    text := header;
    var i := 0;
    while i < |items|
      invariant 0 <= i <= |items|
      invariant text == header + Body(items[..i], 1)
    {
      text := AppendBlock(text, i + 1, items[i]);
      BodyGrows(header, items, i);
      i := i + 1;
    }
    assert items[..i] == items;
  }

  /** One pass of the loop of `send_notification`: the item's line, its
      rating if truthy, its link if the id is truthy, and a blank line. */
  method AppendBlock(text: string, n: int, item: Item) returns (extended: string)
    ensures extended == text + Block(n, item)
  {
    extended := text + Line(n, item);
    ghost var withLine := extended;
    if Truthy(item.rating) {
      extended := extended + (" ⭐" + Show(item.rating));
    }
    RatingAppended(withLine, item);
    ghost var withRating := extended;
    if Truthy(item.doubanId) {
      extended := extended + (LINK_PREFIX + Show(item.doubanId) + "/");
    }
    LinkAppended(withRating, item);
    extended := extended + "\n\n";
    BlockAppended(text, n, item);
  }

  /** Load, unload and unload again: the job is registered under its fixed
      id, and the second unload asks the scheduler to remove it once more. */
  method LifecycleScenario(read: ConfigRead) {
    var plugin := new HotMediaDaily(read);
    plugin.Load();
    assert plugin.scheduleJob == Some(JobFor(plugin.config));
    plugin.Unload();
    plugin.Unload();
    assert |plugin.schedulerCalls| == 3;
    assert plugin.schedulerCalls[0].AddJob? && plugin.schedulerCalls[0].job.jobId == JOB_ID;
    assert plugin.schedulerCalls[1] == RemoveJob(JOB_ID, plugin.schedulerCalls[1].succeeded);
    assert plugin.schedulerCalls[2] == RemoveJob(JOB_ID, plugin.schedulerCalls[2].succeeded);
  }
}
