/** The home-screen campaign feed (`campaignItemsAlgorithm`): the live stream's message,
    then up to two recent messages, then the upcoming live stream, windowed by `skip` and
    `limit`.

    The adapter results are inputs: `streams` is what the live-stream source returned,
    `latest` the message page fetched with the tag filter, `streamCover` the live-stream
    adapter's cover image for the chosen stream. Time is explicit: see `Clock`. */
module Campaign {
  import opened Common
  import opened JsArray
  import opened Content
  import LiveStreamSource
  import Feeds

  /** What the feed reads from the clock and calendar: `now`, the start of the server-local
      day containing a timestamp, and a timestamp's America/Chicago weekday (`ddd`, such as
      `Thu`) and hour (`ha`, such as `7pm`). */
  datatype Clock = Clock(now: int, startOfDay: int -> int, weekdayOf: int -> string, hourOf: int -> string)

  /** `moment().isSame(t, 'day')`: `t` falls on the server-local day of now. A missing `t`
      is `moment(undefined)`, which is now, so it is always today. */
  function IsToday(clock: Clock, t: Option<int>): (r: bool)
    ensures t.None? ==> r
    ensures t.Some? ==> (r <==> clock.startOfDay(t.value) == clock.startOfDay(clock.now))
  {
    clock.startOfDay(clock.now) == clock.startOfDay(t.GetOr(clock.now))
  }

  /** `moment(item.date)`: the message's date, or now when it has none. */
  function MessageTime(clock: Clock, m: Message): int {
    m.date.GetOr(clock.now)
  }

  /** `tzDate`: the stream's start, or now when it has none. */
  function StartTime(clock: Clock, s: LiveStream): int {
    s.eventStartTime.GetOr(clock.now)
  }

  /** The label of the live stream's message: today, else last if already started, else next. */
  function MessageLabel(clock: Clock, at: int, today: bool): (r: string)
    ensures today <==> "Today at " <= r
    ensures !today && at < clock.now <==> "Last " <= r
    ensures !today && clock.now <= at <==> "Next " <= r
    ensures today ==> r == "Today at " + clock.hourOf(at) + " CT"
    ensures !today && at < clock.now ==> r == "Last " + clock.weekdayOf(at)
    ensures !today && clock.now <= at ==> r == "Next " + clock.weekdayOf(at) + " at " + clock.hourOf(at) + " CT"
  {
    var day := clock.weekdayOf(at);
    var time := clock.hourOf(at) + " CT";
    var r := if today then "Today at " + time
             else if at < clock.now then "Last " + day
             else "Next " + day + " at " + time;
    assert r[0] == (if today then 'T' else if at < clock.now then 'L' else 'N');
    r
  }

  /** The label of the upcoming-live card: last or next by the start time, never today. */
  function StreamLabel(clock: Clock, at: int): (r: string)
    ensures "Last " <= r <==> at < clock.now
    ensures "Next " <= r <==> clock.now <= at
    ensures !("Today" <= r)
    ensures |r| >= 5 && r[5..] == clock.weekdayOf(at) + " at " + clock.hourOf(at) + " CT"
  {
    var r := (if at < clock.now then "Last" else "Next") + " " + clock.weekdayOf(at) + " at " + clock.hourOf(at) + " CT";
    assert r[0] == (if at < clock.now then 'L' else 'N');
    assert r[..5] == (if at < clock.now then "Last " else "Next ");
    r
  }

  /** `streams.find(async ...)`: the callback returns a promise, which is always truthy, so
      the first stream is chosen whatever it holds. */
  function ChosenStream(streams: seq<LiveStream>): (r: Option<LiveStream>)
    ensures r.None? <==> |streams| == 0
    ensures r.Some? ==> r.value == streams[0]
  {
    if |streams| == 0 then None else Some(streams[0])
  }

  /** Stage 1: the chosen stream's message, shown when it is dated today or later or the
      stream is today. Reading the date of a missing message throws. */
  function StageOne(live: Option<LiveStream>, clock: Clock): (r: Result<Option<Card>, JsError>)
    ensures r.Failure? <==> live.Some? && live.value.contentItem.None?
    ensures r.Success? && r.value.Some? <==>
      && live.Some? && live.value.contentItem.Some?
      && (clock.startOfDay(MessageTime(clock, live.value.contentItem.value)) >= clock.startOfDay(clock.now)
          || IsToday(clock, live.value.eventStartTime))
    ensures r.Success? && r.value.Some? ==>
      var s := live.value;
      && r.value.value.relatedNode == MessageNode(s.contentItem.value)
      && r.value.value.id == CardId(s.contentItem.value.id, 0)
      && r.value.value.hasAction.None?
      && r.value.value.labelText == Some(MessageLabel(clock, StartTime(clock, s), IsToday(clock, s.eventStartTime)))
  {
    match live
    case None => Success(None)
    case Some(s) =>
      match s.contentItem
      case None => Failure(TypeError("date"))
      case Some(m) =>
        var todayOrLater := clock.startOfDay(MessageTime(clock, m)) >= clock.startOfDay(clock.now);
        var today := IsToday(clock, s.eventStartTime);
        if todayOrLater || today then
          Success(Some(MessageCard(m, 0, Some(MessageLabel(clock, StartTime(clock, s), today)))))
        else Success(None)
  }

  /** The messages of `ms` dated strictly before the start of today, in their order. */
  function Recent(ms: seq<Message>, clock: Clock): (r: seq<Message>)
    ensures |r| <= |ms|
    ensures forall m :: m in r <==> m in ms && MessageTime(clock, m) < clock.startOfDay(clock.now)
    decreases |ms|
  {
    if |ms| == 0 then []
    else (if MessageTime(clock, ms[0]) < clock.startOfDay(clock.now) then [ms[0]] else []) + Recent(ms[1..], clock)
  }

  /** Filtering distributes over concatenation, so `Recent` keeps the relative order. */
  lemma {:induction false} RecentAppend(a: seq<Message>, b: seq<Message>, clock: Clock)
    ensures Recent(a + b, clock) == Recent(a, clock) + Recent(b, clock)
    decreases |a|
  {
    if |a| > 0 {
      assert (a + b)[1..] == a[1..] + b;
      RecentAppend(a[1..], b, clock);
    } else {
      assert a + b == b;
    }
  }

  /** Stage 2: the fetched messages dated before the start of today, as "Latest Message"
      cards numbered after the `offset` cards already collected. */
  function StageTwo(latest: seq<Message>, clock: Clock, offset: nat): (r: seq<Card>)
    ensures var kept := Recent(latest, clock);
      && |r| == |kept|
      && forall i :: 0 <= i < |r| ==>
        && r[i].relatedNode == MessageNode(kept[i])
        && r[i].labelText == Some("Latest Message")
        && r[i].id == CardId(kept[i].id, i + offset)
        && r[i].hasAction.None?
  {
    var kept := Recent(latest, clock);
    seq(|kept|, i requires 0 <= i < |kept| => MessageCard(kept[i], i + offset, Some("Latest Message")))
  }

  /** Every stage-2 card shows a fetched message dated before the start of today. */
  lemma StageTwoIsRecent(latest: seq<Message>, clock: Clock, offset: nat)
    ensures var r := StageTwo(latest, clock, offset);
      forall i :: 0 <= i < |r| ==>
        && r[i].relatedNode.MessageNode?
        && r[i].relatedNode.message in latest
        && MessageTime(clock, r[i].relatedNode.message) < clock.startOfDay(clock.now)
  {
    var kept := Recent(latest, clock);
    var r := StageTwo(latest, clock, offset);
    forall i | 0 <= i < |r|
      ensures r[i].relatedNode.MessageNode? && r[i].relatedNode.message in latest
      ensures MessageTime(clock, r[i].relatedNode.message) < clock.startOfDay(clock.now)
    {
      assert r[i].relatedNode.message == kept[i] && kept[i] in kept;
    }
  }

  /** The request stage 2 sends to the message adapter: a page of two, the `the_porch`
      target and the tag with id 40. The page `latest` the feed functions take is the
      adapter's answer to it; the request itself is not an argument of theirs, so this
      constant records it and `LatestAtMostTwo` states what its page size bounds. */
  const LatestQuery: Feeds.MessageQuery :=
    Feeds.MessageQuery(2, map["target" := "the_porch", "filter[tag_id][]" := "40"])

  /** An adapter that honours the page size of the stage-2 request yields at most two
      "Latest Message" cards, so the feed never has more than three candidates. */
  lemma LatestAtMostTwo(streams: seq<LiveStream>, latest: seq<Message>, clock: Clock,
                        streamCover: Option<Image>, offset: nat)
    requires |latest| <= LatestQuery.first
    ensures |StageTwo(latest, clock, offset)| <= 2
    ensures var cs := Candidates(streams, latest, clock, streamCover);
      cs.Success? ==> |cs.value| <= 3
  {
    assert |Recent(latest, clock)| <= |latest|;
  }

  /** A message without a date is dated now: as the stream's message it always passes
      stage 1, and stage 2 never keeps it, on a calendar whose day starts no later than now. */
  lemma UndatedMessage(s: LiveStream, m: Message, latest: seq<Message>, clock: Clock)
    requires s.contentItem == Some(m) && m.date.None?
    requires clock.startOfDay(clock.now) <= clock.now
    ensures var first := StageOne(Some(s), clock);
      first.Success? && first.value.Some? && first.value.value.relatedNode == MessageNode(m)
    ensures forall u :: u in Recent(latest, clock) ==> u.date.Some?
  {
    assert MessageTime(clock, m) == clock.now;
  }

  /** Stage 3: the chosen stream itself, unless stage 1 showed its message. */
  function StageThree(live: Option<LiveStream>, shown: bool, clock: Clock, streamCover: Option<Image>, offset: nat): (r: Option<Card>)
    ensures r.Some? <==> live.Some? && !shown
    ensures r.Some? ==>
      && r.value.relatedNode == StreamNode(live.value)
      && r.value.hasAction == Some(false)
      && r.value.labelText == Some(StreamLabel(clock, StartTime(clock, live.value)))
      && r.value.id == CardId(Interpolate(live.value.id), offset)
  {
    if live.Some? && !shown then
      var s := live.value;
      Some(Card(CardId(Interpolate(s.id), offset), s.title, None,
                Some(StreamLabel(clock, StartTime(clock, s))), s.description, streamCover,
                StreamNode(s), ReadContent, Some(false)))
    else None
  }

  /** The cards an optional card contributes. */
  function Cards(c: Option<Card>): (r: seq<Card>)
    ensures |r| == if c.Some? then 1 else 0
  {
    if c.Some? then [c.value] else []
  }

  /** Every candidate in stage order, with no window applied. */
  function Candidates(streams: seq<LiveStream>, latest: seq<Message>, clock: Clock, streamCover: Option<Image>): (r: Result<seq<Card>, JsError>)
    ensures r.Failure? <==> |streams| > 0 && streams[0].contentItem.None?
    ensures r.Success? ==> |r.value| <= |latest| + 1
  {
    var live := ChosenStream(streams);
    match StageOne(live, clock)
    case Failure(e) => Failure(e)
    case Success(first) =>
      var one := Cards(first);
      var two := one + StageTwo(latest, clock, |one|);
      Success(two + Cards(StageThree(live, first.Some?, clock, streamCover, |two|)))
  }

  /** `campaignItemsAlgorithm` as written: `limit` defaults to 1 and `skip` to 0, and each of
      the first two stages returns early once it holds `limit + skip` cards. */
  function CampaignItems(streams: seq<LiveStream>, latest: seq<Message>, clock: Clock, streamCover: Option<Image>,
                         limit: Option<int>, skip: Option<int>): (r: Result<seq<Card>, JsError>)
    ensures r.Failure? <==> |streams| > 0 && streams[0].contentItem.None?
    ensures r.Success? && 0 <= limit.GetOr(1) && 0 <= skip.GetOr(0) ==> |r.value| <= limit.GetOr(1)
  {
    var lim := limit.GetOr(1);
    var sk := skip.GetOr(0);
    var live := ChosenStream(streams);
    match StageOne(live, clock)
    case Failure(e) => Failure(e)
    case Success(first) =>
      var one := Cards(first);
      if lim + sk <= |one| then Success(Slice(one, sk, sk + lim))
      else
        var two := one + StageTwo(latest, clock, |one|);
        if lim + sk <= |two| then Success(Slice(two, sk, sk + lim))
        else Success(Slice(two + Cards(StageThree(live, first.Some?, clock, streamCover, |two|)), sk, sk + lim))
  }

  /** For a non-negative window the early returns change nothing: the feed is the window
      `[skip, skip + limit)` of the full candidate list, so later stages only append. */
  lemma CampaignIsWindow(streams: seq<LiveStream>, latest: seq<Message>, clock: Clock, streamCover: Option<Image>,
                         limit: Option<int>, skip: Option<int>)
    requires 0 <= limit.GetOr(1) && 0 <= skip.GetOr(0)
    ensures var cands := Candidates(streams, latest, clock, streamCover);
      var r := CampaignItems(streams, latest, clock, streamCover, limit, skip);
      && (r.Success? <==> cands.Success?)
      && (r.Success? ==> r.value == Window(cands.value, skip.GetOr(0), limit.GetOr(1)))
  {
    var lim := limit.GetOr(1);
    var sk := skip.GetOr(0);
    var live := ChosenStream(streams);
    var cands := Candidates(streams, latest, clock, streamCover);
    if cands.Success? {
      var first := StageOne(live, clock).value;
      var one := Cards(first);
      var two := one + StageTwo(latest, clock, |one|);
      var three := Cards(StageThree(live, first.Some?, clock, streamCover, |two|));
      assert cands.value == two + three;
      assert two + three == one + (StageTwo(latest, clock, |one|) + three);
      SliceIsWindow(two + three, sk, lim);
      if lim + sk <= |one| {
        SliceOfPrefix(one, StageTwo(latest, clock, |one|) + three, sk, lim);
      } else if lim + sk <= |two| {
        SliceOfPrefix(two, three, sk, lim);
      }
    }
  }

  /** An early return with a negative `limit` cuts from the end of a shorter list, so it
      differs from slicing the full candidate list. */
  lemma NegativeLimitEarlyExit(m1: Message, m2: Message, clock: Clock, streamCover: Option<Image>)
    requires MessageTime(clock, m1) < clock.startOfDay(clock.now) && MessageTime(clock, m2) < clock.startOfDay(clock.now)
    ensures CampaignItems([], [m1, m2], clock, streamCover, Some(-1), Some(0)) == Success([])
    ensures var cands := Candidates([], [m1, m2], clock, streamCover).value;
      |cands| == 2 && Slice(cands, 0, -1) == [cands[0]]
  {
    assert Recent([m1, m2], clock) == [m1, m2] by {
      assert [m1, m2][1..] == [m2];
    }
  }

  /** The stage-1 card and the upcoming-live card exclude each other: the stream is shown
      at most once, last, without an action, and only when it is not today. */
  lemma StreamShownOnce(streams: seq<LiveStream>, latest: seq<Message>, clock: Clock, streamCover: Option<Image>)
    requires Candidates(streams, latest, clock, streamCover).Success?
    ensures var cs := Candidates(streams, latest, clock, streamCover).value;
      var first := StageOne(ChosenStream(streams), clock).value;
      && (first.Some? ==> |cs| > 0 && cs[0] == first.value && forall i :: 0 <= i < |cs| ==> !cs[i].relatedNode.StreamNode?)
      && (forall i :: 0 <= i < |cs| && cs[i].relatedNode.StreamNode? ==>
            && i == |cs| - 1
            && first.None?
            && cs[i].relatedNode.stream == streams[0]
            && !IsToday(clock, streams[0].eventStartTime)
            && cs[i].hasAction == Some(false)
            && cs[i].labelText.Some?
            && ("Last " <= cs[i].labelText.value || "Next " <= cs[i].labelText.value)
            && !("Today" <= cs[i].labelText.value))
  {
    var live := ChosenStream(streams);
    var first := StageOne(live, clock).value;
    var one := Cards(first);
    var second := StageTwo(latest, clock, |one|);
    var two := one + second;
    var third := StageThree(live, first.Some?, clock, streamCover, |two|);
    var cs := two + Cards(third);
    assert Candidates(streams, latest, clock, streamCover).value == cs;
    if third.Some? {
      var s := live.value;
      assert s.contentItem.Some?;
    }
  }

  /** A campaign card is a message card with no explicit action flag or a stream card
      flagged without action. */
  predicate CampaignCardShape(c: Card) {
    || (c.relatedNode.MessageNode? && c.hasAction.None?)
    || (c.relatedNode.StreamNode? && c.hasAction == Some(false))
  }

  /** Every candidate has the campaign card shape. */
  lemma CandidateShapes(streams: seq<LiveStream>, latest: seq<Message>, clock: Clock, streamCover: Option<Image>)
    requires Candidates(streams, latest, clock, streamCover).Success?
    ensures var cs := Candidates(streams, latest, clock, streamCover).value;
      forall i :: 0 <= i < |cs| ==> CampaignCardShape(cs[i])
  {
    var live := ChosenStream(streams);
    var first := StageOne(live, clock).value;
    var one := Cards(first);
    var second := StageTwo(latest, clock, |one|);
    var two := one + second;
    var third := StageThree(live, first.Some?, clock, streamCover, |two|);
    var cs := two + Cards(third);
    assert Candidates(streams, latest, clock, streamCover).value == cs;
    forall i | 0 <= i < |cs|
      ensures CampaignCardShape(cs[i])
    {
      if i < |one| {
        assert cs[i] == first.value;
      } else if i < |two| {
        assert cs[i] == second[i - |one|];
      } else {
        assert cs[i] == third.value;
      }
    }
  }

  /** With a type resolver that reads the node discriminator, every message card of the feed
      resolves `hasAction` to `true` and the stream card to `false`. */
  lemma CampaignActions(streams: seq<LiveStream>, latest: seq<Message>, clock: Clock,
                        streamCover: Option<Image>, resolveType: Node -> Option<string>)
    requires Candidates(streams, latest, clock, streamCover).Success?
    requires forall n: Node :: Feeds.ReadsTag(resolveType, n)
    ensures var cs := Candidates(streams, latest, clock, streamCover).value;
      forall i :: 0 <= i < |cs| ==> Feeds.HasAction(cs[i], resolveType) == Some(!cs[i].relatedNode.StreamNode?)
  {
    var cs := Candidates(streams, latest, clock, streamCover).value;
    CandidateShapes(streams, latest, clock, streamCover);
    forall i | 0 <= i < |cs|
      ensures Feeds.HasAction(cs[i], resolveType) == Some(!cs[i].relatedNode.StreamNode?)
    {
      assert CampaignCardShape(cs[i]);
      assert Feeds.ReadsTag(resolveType, cs[i].relatedNode);
    }
  }

  /** When the stream is today but its message is older, stage 1 and stage 2 can both show
      that message: only the stream itself is guarded against repetition. */
  lemma MessageCanRepeat(s: LiveStream, m: Message, clock: Clock, streamCover: Option<Image>)
    requires s.contentItem == Some(m)
    requires IsToday(clock, s.eventStartTime)
    requires MessageTime(clock, m) < clock.startOfDay(clock.now)
    ensures var cs := Candidates([s], [m], clock, streamCover);
      cs.Success? && |cs.value| == 2
      && cs.value[0].relatedNode == cs.value[1].relatedNode == MessageNode(m)
  {
    assert Recent([m], clock) == [m];
  }

  /** A message shown in stage 1 because it is dated today or later is not repeated by
      stage 2, provided each day starts no later than any of its instants. */
  lemma TodaysMessageNotRepeated(streams: seq<LiveStream>, latest: seq<Message>, clock: Clock, streamCover: Option<Image>)
    requires forall t :: clock.startOfDay(t) <= t
    requires |streams| > 0 && streams[0].contentItem.Some?
    requires clock.startOfDay(MessageTime(clock, streams[0].contentItem.value)) >= clock.startOfDay(clock.now)
    ensures var cs := Candidates(streams, latest, clock, streamCover);
      && cs.Success? && |cs.value| > 0
      && forall i :: 1 <= i < |cs.value| ==> cs.value[i].relatedNode != cs.value[0].relatedNode
  {
    var live := ChosenStream(streams);
    var first := StageOne(live, clock).value;
    var one := Cards(first);
    var second := StageTwo(latest, clock, |one|);
    var two := one + second;
    var third := StageThree(live, first.Some?, clock, streamCover, |two|);
    var cs := two + Cards(third);
    assert Candidates(streams, latest, clock, streamCover).value == cs;
    var m := streams[0].contentItem.value;
    assert clock.startOfDay(MessageTime(clock, m)) <= MessageTime(clock, m);
    forall i | 1 <= i < |cs|
      ensures cs[i].relatedNode != cs[0].relatedNode
    {
      if i < |two| {
        assert cs[i] == second[i - 1];
      }
    }
  }

  /** The live-stream source never attaches a message to a stream, so with at least one
      stream the campaign feed always throws at stage 1. */
  lemma LiveStreamsBreakCampaign(raws: seq<LiveStreamSource.RawStream>, latest: seq<Message>, clock: Clock,
                                 streamCover: Option<Image>, limit: Option<int>, skip: Option<int>)
    requires LiveStreamSource.LiveStreams(raws).Success?
    requires |raws| > 0
    ensures CampaignItems(LiveStreamSource.LiveStreams(raws).value, latest, clock, streamCover, limit, skip).Failure?
  {
    assert LiveStreamSource.LiveStreams(raws).value[0].contentItem.None?;
  }
}
