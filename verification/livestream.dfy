/** The live-stream source: turns the raw stream records of the streaming API into the
    `LiveStream` records the feeds read. The HTTP request itself is left out; its
    `streams` array is the input. */
module LiveStreamSource {
  import opened Common
  import opened JsString
  import opened Content

  /** One scheduled event of a raw stream: `starts_at`, `stream_url` and `embed_code`. */
  datatype Event = Event(startsAt: Option<int>, streamUrl: Option<string>, embedCode: Option<string>)

  /** A raw stream as the API returns it: `current_event` and `next_event`, either missing. */
  datatype RawStream = RawStream(currentEvent: Option<Event>, nextEvent: Option<Event>)

  /** `event?.stream_url`. */
  function StreamUrlOf(e: Option<Event>): Option<string> {
    if e.Some? then e.value.streamUrl else None
  }

  /** `event?.embed_code`. */
  function EmbedCodeOf(e: Option<Event>): Option<string> {
    if e.Some? then e.value.embedCode else None
  }

  /** `event?.starts_at`. */
  function StartsAtOf(e: Option<Event>): Option<int> {
    if e.Some? then e.value.startsAt else None
  }

  /** `getMediaUrl`: the current event's stream URL, falling back to the next event's;
      no image at all when neither is a non-empty string. */
  function MediaUrl(raw: RawStream): (r: Option<Image>)
    ensures r.None? <==> !Truthy(StreamUrlOf(raw.currentEvent)) && !Truthy(StreamUrlOf(raw.nextEvent))
    ensures Truthy(StreamUrlOf(raw.currentEvent)) ==>
      r == Some(Image([StreamUrlOf(raw.currentEvent).value]))
    ensures !Truthy(StreamUrlOf(raw.currentEvent)) && Truthy(StreamUrlOf(raw.nextEvent)) ==>
      r == Some(Image([StreamUrlOf(raw.nextEvent).value]))
  {
    var url := Or(StreamUrlOf(raw.currentEvent), StreamUrlOf(raw.nextEvent));
    if Truthy(url) then Some(Image([url.value])) else None
  }

  /** The characters the regular-expression `.` does not match. */
  predicate IsLineTerminator(c: char) {
    c == '\n' || c == '\r' || c == '\U{2028}' || c == '\U{2029}'
  }

  const SrcOpen: string := "src=\""

  /** `src="` starts at `p` and the quote at `j` can end the group `(.*?)"` begun after it:
      no line terminator lies between. */
  predicate SrcMatch(s: string, p: nat, j: nat) {
    && OccursAt(s, SrcOpen, p)
    && p + |SrcOpen| <= j < |s|
    && s[j] == '"'
    && forall m :: p + |SrcOpen| <= m < j ==> !IsLineTerminator(s[m])
  }

  /** The lazy group's end when the group starts at `k`: the first quote reached before
      any line terminator. */
  function ClosingQuote(s: string, k: nat): (r: Option<nat>)
    requires k <= |s|
    ensures r.Some? ==> k <= r.value < |s| && s[r.value] == '"'
    ensures r.Some? ==> forall m :: k <= m < r.value ==> s[m] != '"' && !IsLineTerminator(s[m])
    ensures r.None? ==> forall j :: k <= j < |s| && s[j] == '"' ==>
      exists m :: k <= m < j && IsLineTerminator(s[m])
    decreases |s| - k
  {
    if k == |s| then None
    else if s[k] == '"' then Some(k)
    else if IsLineTerminator(s[k]) then None
    else ClosingQuote(s, k + 1)
  }

  /** The leftmost match of `/src="(.*?)"/` starting at or after `p`, as the match start and
      the index of its closing quote. */
  function MatchFrom(s: string, p: nat): (r: Option<(nat, nat)>)
    requires p <= |s|
    ensures r.Some? ==> p <= r.value.0 && SrcMatch(s, r.value.0, r.value.1)
    ensures r.Some? ==> forall j: nat :: j < r.value.1 ==> !SrcMatch(s, r.value.0, j)
    ensures r.Some? ==> forall q: nat, j: nat :: p <= q < r.value.0 ==> !SrcMatch(s, q, j)
    ensures r.None? ==> forall q: nat, j: nat :: p <= q ==> !SrcMatch(s, q, j)
    decreases |s| - p
  {
    if p + |SrcOpen| > |s| then None
    else if OccursAt(s, SrcOpen, p) && ClosingQuote(s, p + |SrcOpen|).Some? then
      Some((p, ClosingQuote(s, p + |SrcOpen|).value))
    else
      MatchFrom(s, p + 1)
  }

  /** `p` and `j` delimit the match `exec` reports: the leftmost `src="` that has a closing
      quote, and the nearest such quote after it. */
  ghost predicate FirstMatch(s: string, p: nat, j: nat) {
    && SrcMatch(s, p, j)
    && (forall q: nat, j': nat :: q < p ==> !SrcMatch(s, q, j'))
    && (forall j': nat :: j' < j ==> !SrcMatch(s, p, j'))
  }

  /** `/src="(.*?)"/.exec(s)[1]`, with `None` where `exec` returns null. */
  function SrcValue(s: string): (r: Option<string>)
    ensures r.None? <==> forall p: nat, j: nat :: !SrcMatch(s, p, j)
    ensures r.Some? ==> exists p: nat, j: nat :: FirstMatch(s, p, j) && r.value == s[p + |SrcOpen|..j]
  {
    match MatchFrom(s, 0)
    case None => None
    case Some((p, j)) =>
      assert FirstMatch(s, p, j);
      Some(s[p + |SrcOpen|..j])
  }

  /** `getWebviewUrl`: the `src` value of the current event's embed code, falling back to
      the next event's; no URL when neither has an embed code, and a `TypeError` when the
      chosen embed code has no `src="..."`. */
  function WebviewUrl(raw: RawStream): (r: Result<Option<string>, JsError>)
    ensures var code := Or(EmbedCodeOf(raw.currentEvent), EmbedCodeOf(raw.nextEvent));
      && (r == Success(None) <==> !Truthy(code))
      && (r.Failure? <==> Truthy(code) && SrcValue(code.value).None?)
      && (r.Success? && r.value.Some? ==> Truthy(code) && r.value == SrcValue(code.value))
  {
    var code := Or(EmbedCodeOf(raw.currentEvent), EmbedCodeOf(raw.nextEvent));
    if !Truthy(code) then Success(None)
    else match SrcValue(code.value)
      case None => Failure(TypeError("1"))
      case Some(v) => Success(Some(v))
  }

  /** The current event comes first: when it has a stream URL (an embed code), the next
      event cannot change the media (webview) URL; when it has none, the stream behaves as
      if it had only its next event. */
  lemma CurrentEventFirst(raw: RawStream, next: Option<Event>)
    ensures Truthy(StreamUrlOf(raw.currentEvent)) ==> MediaUrl(raw) == MediaUrl(raw.(nextEvent := next))
    ensures !Truthy(StreamUrlOf(raw.currentEvent)) ==> MediaUrl(raw) == MediaUrl(RawStream(None, raw.nextEvent))
    ensures Truthy(EmbedCodeOf(raw.currentEvent)) ==> WebviewUrl(raw) == WebviewUrl(raw.(nextEvent := next))
    ensures !Truthy(EmbedCodeOf(raw.currentEvent)) ==> WebviewUrl(raw) == WebviewUrl(RawStream(None, raw.nextEvent))
  {
  }

  /** The record `getLiveStreams` builds for one raw stream. */
  function ToLiveStream(raw: RawStream): (r: Result<LiveStream, JsError>)
    ensures r.Success? <==> WebviewUrl(raw).Success?
  {
    match WebviewUrl(raw)
    case Failure(e) => Failure(e)
    case Success(web) =>
      var start := if StartsAtOf(raw.currentEvent).Some? then StartsAtOf(raw.currentEvent)
                   else StartsAtOf(raw.nextEvent);
      Success(LiveStream(raw.currentEvent.Some?, start, MediaUrl(raw), web, None, None, None, None))
  }

  /** `getLiveStreams` after the fetch: one record per raw stream, in order; the first
      stream whose embed code has no `src` makes the whole call throw. */
  function LiveStreams(raws: seq<RawStream>): (r: Result<seq<LiveStream>, JsError>)
    ensures r.Success? <==> forall i :: 0 <= i < |raws| ==> WebviewUrl(raws[i]).Success?
    ensures r.Success? ==> |r.value| == |raws|
    ensures r.Success? ==> forall i :: 0 <= i < |raws| ==>
      && (r.value[i].isLive <==> raws[i].currentEvent.Some?)
      && r.value[i].media == MediaUrl(raws[i])
      && r.value[i].webViewUrl == WebviewUrl(raws[i]).value
      && r.value[i].contentItem.None?
      && r.value[i].eventStartTime == (if StartsAtOf(raws[i].currentEvent).Some?
                                       then StartsAtOf(raws[i].currentEvent)
                                       else StartsAtOf(raws[i].nextEvent))
    decreases |raws|
  {
    if |raws| == 0 then Success([])
    else match ToLiveStream(raws[0])
      case Failure(e) => Failure(e)
      case Success(head) =>
        match LiveStreams(raws[1..])
        case Failure(e) => Failure(e)
        case Success(tail) => Success([head] + tail)
  }
}
