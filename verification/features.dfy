/** Feature ids and the features built from them: the Spotify setlist embed, the dispatch of
    a feature id to its `create<Type>` method, and the campus scope carried inside a feature id.

    `JSON.parse` is a parameter of the dispatch, and `JSON.stringify` one of the lemma that
    reads a created feature id back; a `FeatureId` holds the argument object whose JSON
    text is its local id. */
module Features {
  import opened Common
  import opened JsString
  import opened Content

  const PlaylistMarker: string := "playlist/"
  const SpotifyEmbedPrefix: string := "https://open.spotify.com/embed/playlist/"

  /** The text between the first `playlist/` of `url` and the next one (or the end). */
  function PlaylistSegment(url: string): string
    requires !Lacks(url, PlaylistMarker)
  {
    var i := IndexOf(url, PlaylistMarker).value;
    TextBefore(url[i + |PlaylistMarker|..], PlaylistMarker)
  }

  /** `getSpotifyEmbed`: the embed URL for the playlist a Spotify link names, or `None` when
      nothing follows the first `playlist/`. */
  function SpotifyEmbed(url: string): (r: Option<string>)
    ensures r.None? <==> Lacks(url, PlaylistMarker) || PlaylistSegment(url) == ""
    ensures r.Some? ==> r.value == SpotifyEmbedPrefix + TextBefore(PlaylistSegment(url), "?")
    ensures r.Some? ==> '?' !in r.value[|SpotifyEmbedPrefix|..]
  {
    var parts := Split(url, PlaylistMarker);
    if |parts| < 2 || parts[1] == "" then None
    else
      var playlistId := Split(parts[1], "?")[0];
      SpotifyEmbedFacts(url);
      Some(SpotifyEmbedPrefix + playlistId)
  }

  /** What `SpotifyEmbed` reads from the two splits, stated without `split`. */
  lemma SpotifyEmbedFacts(url: string)
    ensures var parts := Split(url, PlaylistMarker);
      && (|parts| >= 2 <==> !Lacks(url, PlaylistMarker))
      && (|parts| >= 2 ==> parts[1] == PlaylistSegment(url))
      && (|parts| >= 2 ==> '?' !in Split(parts[1], "?")[0])
  {
    var parts := Split(url, PlaylistMarker);
    if |parts| >= 2 {
      SplitSecond(url, PlaylistMarker);
      LacksChar(Split(parts[1], "?")[0], '?');
    }
  }

  /** A setlist webview feature (`createWebviewFeature`). */
  datatype WebviewFeature = WebviewFeature(title: string, url: Option<string>, id: GlobalId)

  /** A speaker feature (`createSpeakerFeature`). */
  datatype SpeakerFeature = SpeakerFeature(name: string, id: GlobalId)

  /** `createWebviewFeature({ id, external_playlist })`; `split` on a missing playlist link
      throws. */
  function CreateWebviewFeature(id: string, externalPlaylist: Option<string>): (r: Result<WebviewFeature, JsError>)
    ensures r.Failure? <==> externalPlaylist.None?
    ensures r.Success? ==> r.value.title == "Setlist" && r.value.id == GlobalId(id, "WebviewFeature")
    ensures r.Success? ==> r.value.url == SpotifyEmbed(externalPlaylist.value)
    ensures r.Success? ==>
      (r.value.url.Some? <==> !Lacks(externalPlaylist.value, PlaylistMarker) && PlaylistSegment(externalPlaylist.value) != "")
  {
    match externalPlaylist
    case None => Failure(TypeError("split"))
    case Some(url) => Success(WebviewFeature("Setlist", SpotifyEmbed(url), GlobalId(id, "WebviewFeature")))
  }

  /** `createSpeakerFeature({ name, id })`. */
  function CreateSpeakerFeature(name: string, id: string): (f: SpeakerFeature)
    ensures f.name == name && f.id == GlobalId(id, "SpeakerFeature")
  {
    SpeakerFeature(name, GlobalId(id, "SpeakerFeature"))
  }

  /** The per-request context the features read: the campus scope of the request. */
  datatype Context = Context(campusId: Option<string>)

  /** A feature's arguments, with their values as strings. */
  type Args = map<string, string>

  /** `createFeatureId`: the id carries the feature type and its arguments, with the context's
      campus folded in (`{ campusId: context.campusId, ...args }`); an argument named
      `campusId` wins over the context, and a missing context campus adds no key. */
  datatype FeatureId = FeatureId(args: Args, typeName: string)

  function CreateFeatureId(ctx: Context, args: Args, typeName: string): (r: FeatureId)
    ensures r.typeName == typeName
    ensures r.args.Keys == args.Keys + (if ctx.campusId.Some? then {"campusId"} else {})
    ensures forall k :: k in args ==> r.args[k] == args[k]
    ensures "campusId" !in args && ctx.campusId.Some? ==> r.args["campusId"] == ctx.campusId.value
  {
    var scope: Args := if ctx.campusId.Some? then map["campusId" := ctx.campusId.value] else map[];
    FeatureId(scope + args, typeName)
  }

  /** The `create<Type>` methods a feature id can name. Those of the base data source are
      outside this model and are identified by name. */
  datatype Creator = SpeakerCreator | WebviewCreator | SocialIconsCreator | FeatureIdCreator | Inherited(name: string)

  /** The creator `this[`create${type}`]` finds, if any; `inherited` are the `create...`
      method names of the base data source, without the prefix. */
  function CreatorFor(typeName: string, inherited: set<string>): (r: Option<Creator>)
    ensures r.None? <==> typeName !in {"SpeakerFeature", "WebviewFeature", "SocialIconsFeature", "FeatureId"} + inherited
    ensures r == Some(SpeakerCreator) <==> typeName == "SpeakerFeature"
    ensures r == Some(WebviewCreator) <==> typeName == "WebviewFeature"
    ensures r == Some(SocialIconsCreator) <==> typeName == "SocialIconsFeature"
    ensures r == Some(FeatureIdCreator) <==> typeName == "FeatureId"
    ensures r.Some? && r.value.Inherited? ==> r.value.name == typeName && typeName in inherited
  {
    if typeName == "SpeakerFeature" then Some(SpeakerCreator)
    else if typeName == "WebviewFeature" then Some(WebviewCreator)
    else if typeName == "SocialIconsFeature" then Some(SocialIconsCreator)
    else if typeName == "FeatureId" then Some(FeatureIdCreator)
    else if typeName in inherited then Some(Inherited(typeName))
    else None
  }

  /** What `JSON.parse` can give for a feature's argument text, as far as `getFromId`
      reads it: `null`, an object with string-valued keys, or any other value (a number,
      string, boolean or array), whose `campusId` is undefined. */
  datatype Json = JsonNull | JsonObject(fields: Args) | JsonOther

  /** The outcome of `getFromId`: the creator it calls, the context it calls it in and the
      parsed arguments it passes. */
  datatype Dispatch = Dispatch(creator: Creator, context: Context, funcArgs: Json)

  /** `getFromId(args, id)`: the type is the text of `id` before its first `:`; `JSON.parse`
      is the parameter `parse`, with `None` for text that is not JSON. Not JSON throws
      first; then a type with no `create<Type>` method throws; then `null` arguments throw
      on reading `campusId`; a truthy `campusId` argument is installed into the context. */
  function GetFromId(args: string, id: string, ctx: Context, inherited: set<string>,
                     parse: string -> Option<Json>): (r: Result<Dispatch, JsError>)
    ensures r == Failure(SyntaxError) <==> parse(args).None?
    ensures r == Failure(TypeError("bind")) <==>
      parse(args).Some? && CreatorFor(TextBefore(id, ":"), inherited).None?
    ensures r == Failure(TypeError("campusId")) <==>
      parse(args) == Some(JsonNull) && CreatorFor(TextBefore(id, ":"), inherited).Some?
    ensures r.Success? <==>
      parse(args).Some? && parse(args).value != JsonNull && CreatorFor(TextBefore(id, ":"), inherited).Some?
    ensures r.Success? ==>
      && r.value.creator == CreatorFor(TextBefore(id, ":"), inherited).value
      && r.value.funcArgs == parse(args).value
    ensures r.Success? ==> match r.value.funcArgs
      case JsonObject(fields) =>
        if "campusId" in fields && fields["campusId"] != "" then r.value.context.campusId == Some(fields["campusId"])
        else r.value.context == ctx
      case _ => r.value.context == ctx
  {
    var typeName := Split(id, ":")[0];
    match parse(args)
    case None => Failure(SyntaxError)
    case Some(funcArgs) =>
      match CreatorFor(typeName, inherited)
      case None => Failure(TypeError("bind"))
      case Some(creator) =>
        match funcArgs
        case JsonNull => Failure(TypeError("campusId"))
        case JsonObject(fields) =>
          var scoped := if "campusId" in fields && fields["campusId"] != "" then Context(Some(fields["campusId"])) else ctx;
          Success(Dispatch(creator, scoped, funcArgs))
        case JsonOther => Success(Dispatch(creator, ctx, funcArgs))
  }

  /** A feature id built in a campus-scoped request restores that campus when it is
      dispatched in another request, unless its own arguments name a campus. Its text is
      `JSON.stringify` of its arguments, which `JSON.parse` reads back. */
  lemma FeatureIdCarriesCampus(ctx: Context, args: Args, typeName: string, other: Context, inherited: set<string>,
                               parse: string -> Option<Json>, stringify: Args -> string)
    requires Truthy(ctx.campusId)
    requires "campusId" !in args
    requires Lacks(typeName, ":")
    requires typeName in {"SpeakerFeature", "WebviewFeature", "SocialIconsFeature", "FeatureId"} + inherited
    requires forall a: Args :: parse(stringify(a)) == Some(JsonObject(a))
    ensures var fid := CreateFeatureId(ctx, args, typeName);
      var r := GetFromId(stringify(fid.args), fid.typeName, other, inherited, parse);
      r.Success? && r.value.context == ctx && r.value.funcArgs == JsonObject(fid.args)
  {
    var fid := CreateFeatureId(ctx, args, typeName);
    assert parse(stringify(fid.args)) == Some(JsonObject(fid.args));
    assert fid.args["campusId"] == ctx.campusId.value;
  }

  /** The type a created speaker or webview feature's id carries names the creator that
      builds it: dispatching its raw local id as the argument text, under an id text
      `Type:…` with that type, calls the same creator, and fails exactly when that local
      id is not JSON or is `null`. */
  lemma CreatedFeaturesDispatch(name: string, id: string, playlist: Option<string>, rest: string,
                                ctx: Context, inherited: set<string>, parse: string -> Option<Json>)
    ensures var f := CreateSpeakerFeature(name, id);
      var r := GetFromId(f.id.localId, f.id.typeName + ":" + rest, ctx, inherited, parse);
      && (r.Success? <==> parse(id).Some? && parse(id).value != JsonNull)
      && (r.Success? ==> r.value.creator == SpeakerCreator)
    ensures var w := CreateWebviewFeature(id, playlist);
      w.Success? ==>
        var r := GetFromId(w.value.id.localId, w.value.id.typeName + ":" + rest, ctx, inherited, parse);
        && (r.Success? <==> parse(id).Some? && parse(id).value != JsonNull)
        && (r.Success? ==> r.value.creator == WebviewCreator)
  {
    assert "SpeakerFeature" == ['S', 'p', 'e', 'a', 'k', 'e', 'r', 'F', 'e', 'a', 't', 'u', 'r', 'e'];
    assert "WebviewFeature" == ['W', 'e', 'b', 'v', 'i', 'e', 'w', 'F', 'e', 'a', 't', 'u', 'r', 'e'];
    TextBeforeFirst("SpeakerFeature", ':', rest);
    TextBeforeFirst("WebviewFeature", ':', rest);
  }
}
