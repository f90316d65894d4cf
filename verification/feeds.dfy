/** The card-list features other than the campaign feed, and the `hasAction` field resolver
    of `CardListItem`. Each adapter page the source fetches is an input sequence. */
module Feeds {
  import opened Common
  import opened Content

  /** The page a message request asks the adapter for: `pagination.first` and `filters`. */
  datatype MessageQuery = MessageQuery(first: int, filters: map<string, string>)

  /** The request `mediaMessages` sends: `limit` defaults to 3, and the `the_porch` target is
      a default that a caller's `target` filter overrides. */
  function MediaMessagesQuery(limit: Option<int>, filters: map<string, string>): (q: MessageQuery)
    ensures limit.None? ==> q.first == 3
    ensures limit.Some? ==> q.first == limit.value
    ensures q.filters.Keys == filters.Keys + {"target"}
    ensures forall k :: k in filters ==> q.filters[k] == filters[k]
    ensures "target" !in filters ==> q.filters["target"] == "the_porch"
  {
    MessageQuery(limit.GetOr(3), map["target" := "the_porch"] + filters)
  }

  /** `mediaMessages` after the fetch: one unlabelled message card per message, in order. */
  function MediaMessages(page: seq<Message>): (r: seq<Card>)
    ensures |r| == |page|
    ensures forall i :: 0 <= i < |r| ==>
      r[i].relatedNode == MessageNode(page[i]) && r[i].id == CardId(page[i].id, i) && r[i].labelText.None?
  {
    seq(|page|, i requires 0 <= i < |page| => MessageCard(page[i], i, None))
  }

  /** `mediaSeries({ seriesId })`: `seriesId.toString()` throws when no id is given; the
      series adapter's lookup is the parameter `lookup`; nothing for a missing series, else
      its one card. */
  function MediaSeries(seriesId: Option<string>, lookup: string -> Option<SeriesItem>): (r: Result<seq<Card>, JsError>)
    ensures r.Failure? <==> seriesId.None?
    ensures r.Success? ==> (r.value == [] <==> lookup(seriesId.value).None?)
    ensures r.Success? && lookup(seriesId.value).Some? ==>
      var item := lookup(seriesId.value).value;
      && |r.value| == 1 && r.value[0].relatedNode == SeriesNode(item)
      && r.value[0].labelText == Some("Series") && r.value[0].summary == item.subtitle
      && r.value[0].id == GlobalId(item.id, "ActionListAction")
  {
    match seriesId
    case None => Failure(TypeError("toString"))
    case Some(key) =>
      match lookup(key)
      case None => Success([])
      case Some(s) =>
        Success([Card(GlobalId(s.id, "ActionListAction"), s.title, None, Some("Series"), s.subtitle,
                      s.cover, SeriesNode(s), ReadContent, None)])
  }

  /** The card a blog post becomes at position `index`. */
  function BlogCard(b: Blog, index: nat): Card {
    Card(CardId(b.id, index), b.title, None, Some("From the Blog"), b.subtitle, b.cover,
         BlogNode(b), ReadContent, None)
  }

  /** The feed's cards for the blog page. */
  function BlogCards(blogs: seq<Blog>): (r: seq<Card>)
    ensures |r| == |blogs|
  {
    seq(|blogs|, i requires 0 <= i < |blogs| => BlogCard(blogs[i], i))
  }

  /** The feed's cards for the message page, labelled with each message's series title;
      reading the title of a missing series throws. */
  function SeriesMessageCards(messages: seq<Message>): (r: Result<seq<Card>, JsError>)
    ensures r.Success? <==> forall m :: m in messages ==> m.series.Some?
    ensures r.Success? ==> |r.value| == |messages|
  {
    if forall m :: m in messages ==> m.series.Some? then
      Success(seq(|messages|, i requires 0 <= i < |messages| =>
        MessageCard(messages[i], i, messages[i].series.value.title)))
    else Failure(TypeError("title"))
  }

  /** `userFeedAlgorithm` after the two fetches: every blog card, then every message card,
      each block in source order. `limit` only sizes the adapter pages. */
  function UserFeed(blogs: seq<Blog>, messages: seq<Message>): (r: Result<seq<Card>, JsError>)
    ensures r.Success? <==> forall m :: m in messages ==> m.series.Some?
    ensures r.Success? ==> |r.value| == |blogs| + |messages|
    ensures r.Success? ==> forall i :: 0 <= i < |blogs| ==>
      r.value[i].relatedNode == BlogNode(blogs[i]) && r.value[i].labelText == Some("From the Blog")
    ensures r.Success? ==> forall i :: 0 <= i < |messages| ==>
      && r.value[|blogs| + i].relatedNode == MessageNode(messages[i])
      && r.value[|blogs| + i].labelText == messages[i].series.value.title
  {
    match SeriesMessageCards(messages)
    case Failure(e) => Failure(e)
    case Success(cards) => Success(BlogCards(blogs) + cards)
  }

  /** Blog and message cards are both numbered from 0, so a blog and a message that share an
      id share a card id. */
  lemma UserFeedIdsCanCollide(b: Blog, m: Message)
    requires b.id == m.id && m.series.Some?
    ensures var r := UserFeed([b], [m]);
      r.Success? && |r.value| == 2 && r.value[0].id == r.value[1].id
  {
  }

  /** `campusItemsAlgorithm` after the fetch: nothing without a campus scope; otherwise one
      card per campus item, in order, subtitled with its content channel's name. */
  function CampusItems(campusId: Option<string>, items: seq<ContentItem>): (r: seq<Card>)
    ensures !Truthy(campusId) ==> r == []
    ensures Truthy(campusId) ==> |r| == |items|
    ensures Truthy(campusId) ==> forall i :: 0 <= i < |r| ==>
      && r[i].relatedNode == CampusNode(items[i])
      && r[i].subtitle == items[i].channelName
      && r[i].id == CardId(items[i].id, i)
  {
    if !Truthy(campusId) then []
    else CampusCards(items)
  }

  /** One campus card per item, subtitled with the item's content channel name. */
  function CampusCards(items: seq<ContentItem>): seq<Card> {
    seq(|items|, i requires 0 <= i < |items| =>
      Card(CardId(items[i].id, i), items[i].title, items[i].channelName, None, items[i].summary,
           items[i].cover, CampusNode(items[i]), ReadContent, None))
  }

  /** `connectScreenAlgorithm` after the fetch: one card per list item of the CMS page.
      `startCase` is lodash's, outside this model. */
  function ConnectScreen(listItems: seq<CmsEntry>, startCase: string -> string): (r: seq<Card>)
    ensures |r| == |listItems|
    ensures forall i :: 0 <= i < |r| ==>
      && (r[i].action == OpenUrl <==> startCase(listItems[i].contentTypeId) == "Link")
      && (r[i].image.None? <==> !Truthy(listItems[i].mediaUrl))
      && (r[i].image.Some? ==> r[i].image.value == Image([listItems[i].mediaUrl.value]))
      && r[i].relatedNode == CmsNode(listItems[i], listItems[i].sysId, startCase(listItems[i].contentTypeId))
      && r[i].id == CardId(Interpolate(listItems[i].id), i)
  {
    seq(|listItems|, i requires 0 <= i < |listItems| =>
      var e := listItems[i];
      var kind := startCase(e.contentTypeId);
      Card(CardId(Interpolate(e.id), i), e.title, e.summary, None, None,
           if Truthy(e.mediaUrl) then Some(Image([e.mediaUrl.value])) else None,
           CmsNode(e, e.sysId, kind), if kind == "Link" then OpenUrl else ReadContent, None))
  }

  /** The `CardListItem.hasAction` resolver: an explicit value wins; otherwise `true` for a
      node the type resolver calls `WCCMessage`, `false` when it throws (`None` here), and
      undefined (`None` in the result) for any other type. */
  function HasAction(card: Card, resolveType: Node -> Option<string>): (r: Option<bool>)
    ensures card.hasAction.Some? ==> r == card.hasAction
    ensures card.hasAction.None? ==>
      && (r == Some(true) <==> resolveType(card.relatedNode) == Some("WCCMessage"))
      && (r == Some(false) <==> resolveType(card.relatedNode).None?)
  {
    if card.hasAction.Some? then card.hasAction
    else match resolveType(card.relatedNode)
      case None => Some(false)
      case Some(t) => if t == "WCCMessage" then Some(true) else None
  }

  /** A type resolver that reads the discriminator the feeds put on each node. */
  predicate ReadsTag(resolveType: Node -> Option<string>, n: Node) {
    resolveType(n) == Some(n.TypeTag())
  }

  /** With a resolver that reads the node discriminator, exactly the user-feed cards for
      messages resolve `hasAction` to `true`; blog cards leave it undefined. */
  lemma {:induction false} UserFeedActions(blogs: seq<Blog>, messages: seq<Message>, resolveType: Node -> Option<string>)
    requires UserFeed(blogs, messages).Success?
    requires forall n: Node :: ReadsTag(resolveType, n)
    ensures var cards := UserFeed(blogs, messages).value;
      forall i :: 0 <= i < |cards| ==>
        (HasAction(cards[i], resolveType) == Some(true) <==> i >= |blogs|)
  {
    var cards := UserFeed(blogs, messages).value;
    forall i | 0 <= i < |cards|
      ensures HasAction(cards[i], resolveType) == Some(true) <==> i >= |blogs|
    {
      assert ReadsTag(resolveType, cards[i].relatedNode);
      if i >= |blogs| {
        assert cards[i].relatedNode == MessageNode(messages[i - |blogs|]);
      } else {
        assert cards[i].relatedNode == BlogNode(blogs[i]);
      }
    }
  }

  /** The message block of the user feed is `mediaMessages` of the same page, with each card
      labelled by its message's series title. */
  lemma UserFeedMessagesAreMediaMessages(blogs: seq<Blog>, messages: seq<Message>)
    requires UserFeed(blogs, messages).Success?
    ensures var cards := UserFeed(blogs, messages).value;
      var media := MediaMessages(messages);
      forall i :: 0 <= i < |messages| ==>
        cards[|blogs| + i] == media[i].(labelText := messages[i].series.value.title)
  {
    var cards := UserFeed(blogs, messages).value;
    var media := MediaMessages(messages);
    forall i | 0 <= i < |messages|
      ensures cards[|blogs| + i] == media[i].(labelText := messages[i].series.value.title)
    {
      assert cards[|blogs| + i] == SeriesMessageCards(messages).value[i];
    }
  }

  /** With a resolver that reads the node discriminator, every `mediaMessages` card resolves
      `hasAction` to `true`. */
  lemma MediaMessagesActions(page: seq<Message>, resolveType: Node -> Option<string>)
    requires forall n: Node :: ReadsTag(resolveType, n)
    ensures var cards := MediaMessages(page);
      forall i :: 0 <= i < |cards| ==> HasAction(cards[i], resolveType) == Some(true)
  {
    var cards := MediaMessages(page);
    forall i | 0 <= i < |cards|
      ensures HasAction(cards[i], resolveType) == Some(true)
    {
      assert ReadsTag(resolveType, cards[i].relatedNode);
    }
  }

  /** With a resolver that reads the node discriminator, the series card and every campus
      card leave `hasAction` undefined. */
  lemma SeriesAndCampusActions(seriesId: Option<string>, lookup: string -> Option<SeriesItem>,
                               campusId: Option<string>, items: seq<ContentItem>,
                               resolveType: Node -> Option<string>)
    requires forall n: Node :: ReadsTag(resolveType, n)
    ensures var series := MediaSeries(seriesId, lookup);
      series.Success? ==> forall i :: 0 <= i < |series.value| ==> HasAction(series.value[i], resolveType).None?
    ensures var cards := CampusItems(campusId, items);
      forall i :: 0 <= i < |cards| ==> HasAction(cards[i], resolveType).None?
  {
    var series := MediaSeries(seriesId, lookup);
    if series.Success? && |series.value| > 0 {
      assert ReadsTag(resolveType, series.value[0].relatedNode);
    }
    var cards := CampusItems(campusId, items);
    forall i | 0 <= i < |cards|
      ensures HasAction(cards[i], resolveType).None?
    {
      assert ReadsTag(resolveType, cards[i].relatedNode);
    }
  }

  /** With a resolver that reads the node discriminator, a connect-screen card resolves
      `hasAction` to `true` exactly when its start-cased content type is `WCCMessage`, and
      leaves it undefined otherwise. */
  lemma ConnectScreenActions(listItems: seq<CmsEntry>, startCase: string -> string, resolveType: Node -> Option<string>)
    requires forall n: Node :: ReadsTag(resolveType, n)
    ensures var cards := ConnectScreen(listItems, startCase);
      forall i :: 0 <= i < |cards| ==>
        && (HasAction(cards[i], resolveType) == Some(true) <==> startCase(listItems[i].contentTypeId) == "WCCMessage")
        && HasAction(cards[i], resolveType) != Some(false)
  {
    var cards := ConnectScreen(listItems, startCase);
    forall i | 0 <= i < |cards|
      ensures HasAction(cards[i], resolveType) == Some(true) <==> startCase(listItems[i].contentTypeId) == "WCCMessage"
      ensures HasAction(cards[i], resolveType) != Some(false)
    {
      assert ReadsTag(resolveType, cards[i].relatedNode);
    }
  }
}
