/** The records the feeds are built from and the card every feed returns.

    Adapter calls the feeds make per item (`getCoverImage`, `createSummary`) are code outside
    this model; their answers are carried on the items as `cover` and `summary`.
    `createGlobalId(localId, type)` is the free constructor `GlobalId`, hence injective. */
module Content {
  import opened Common
  import opened JsString

  /** `{ sources: [{ uri }] }`: an image given by its source URIs. */
  datatype Image = Image(sources: seq<string>)

  /** The result of `createGlobalId(localId, typeName)`. */
  datatype GlobalId = GlobalId(localId: string, typeName: string)

  /** The series a message belongs to, as far as the feeds read it. */
  datatype Series = Series(title: Option<string>)

  /** A sermon message from the message adapter; `date` is its publish date as a timestamp,
      missing when the adapter gives none. */
  datatype Message = Message(
    id: string, title: Option<string>, date: Option<int>, series: Option<Series>,
    cover: Option<Image>, summary: Option<string>)

  /** A blog post from the blog adapter. */
  datatype Blog = Blog(id: string, title: Option<string>, subtitle: Option<string>, cover: Option<Image>)

  /** A message series from the series adapter. */
  datatype SeriesItem = SeriesItem(
    id: string, title: Option<string>, subtitle: Option<string>, cover: Option<Image>)

  /** A campus-scoped content item; `channelName` is `contentChannel.name`. */
  datatype ContentItem = ContentItem(
    id: string, title: Option<string>, channelName: Option<string>,
    cover: Option<Image>, summary: Option<string>)

  /** One of the CMS connect page's `listItems`: `contentTypeId` is `sys.contentType.sys.id`,
      the other fields are `fields.title`, `fields.summary` and `fields.mediaUrl`. */
  datatype CmsEntry = CmsEntry(
    id: Option<string>, sysId: string, contentTypeId: string,
    title: Option<string>, summary: Option<string>, mediaUrl: Option<string>)

  /** A live stream as the live-stream source hands it to the feeds. `id`, `title` and
      `description` are read by the campaign feed but never set by that source. */
  datatype LiveStream = LiveStream(
    isLive: bool, eventStartTime: Option<int>, media: Option<Image>,
    webViewUrl: Option<string>, contentItem: Option<Message>,
    id: Option<string>, title: Option<string>, description: Option<string>)

  /** A card's `relatedNode`: the item it opens, with its type discriminator. */
  datatype Node =
    | MessageNode(message: Message)
    | BlogNode(blog: Blog)
    | SeriesNode(seriesItem: SeriesItem)
    | StreamNode(stream: LiveStream)
    | CampusNode(item: ContentItem)
    | CmsNode(entry: CmsEntry, nodeId: string, nodeType: string)
  {
    /** The discriminator the node carries (`__type`, or `__typename` for a stream). */
    function TypeTag(): string {
      match this
      case MessageNode(_) => "WCCMessage"
      case BlogNode(_) => "WCCBlog"
      case SeriesNode(_) => "WCCSeries"
      case StreamNode(_) => "WCCLiveStream"
      case CampusNode(_) => "UniversalContentItem"
      case CmsNode(_, _, t) => t
    }
  }

  /** The action a card triggers. */
  datatype Action = ReadContent | OpenUrl

  /** A `CardListItem`; `hasAction` is `None` where the source leaves the field undefined. */
  datatype Card = Card(
    id: GlobalId, title: Option<string>, subtitle: Option<string>,
    labelText: Option<string>, summary: Option<string>, image: Option<Image>,
    relatedNode: Node, action: Action, hasAction: Option<bool>)

  /** The card id every feed uses: `createGlobalId(`${itemId}${index}`, 'ActionListAction')`. */
  function CardId(itemId: string, index: nat): (r: GlobalId)
    ensures r.typeName == "ActionListAction"
    ensures itemId <= r.localId
  {
    GlobalId(itemId + DecimalString(index), "ActionListAction")
  }

  /** The same item at two different positions gets two different ids. */
  lemma CardIdSeparatesPositions(itemId: string, i: nat, j: nat)
    requires i != j
    ensures CardId(itemId, i) != CardId(itemId, j)
  {
    DecimalInjective(i, j);
    assert (itemId + DecimalString(i))[|itemId|..] == DecimalString(i);
    assert (itemId + DecimalString(j))[|itemId|..] == DecimalString(j);
  }

  /** Ids are not unique within one source either: item "1" at position 11 and item "11" at
      position 1 both get the local id "111". */
  lemma CardIdsCollideAcrossItems()
    ensures CardId("1", 11) == CardId("11", 1)
  {
    assert DecimalString(11) == DecimalString(1) + [Digit(1)];
  }

  /** The card a message becomes at position `index`, under the label `caption`. */
  function MessageCard(m: Message, index: nat, caption: Option<string>): (c: Card)
    ensures c.relatedNode == MessageNode(m) && c.labelText == caption
    ensures c.id == CardId(m.id, index) && c.action == ReadContent && c.hasAction.None?
  {
    Card(CardId(m.id, index), m.title, None, caption, m.summary, m.cover,
         MessageNode(m), ReadContent, None)
  }
}
