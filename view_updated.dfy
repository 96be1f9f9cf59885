/** The revised gallery page. It shares the fetch handling, the like
    counters and the reading-time estimate with the first gallery (module
    View) and differs in how it embeds videos and in the details it shows
    on each card. */
module ViewUpdated {
  import opened Values
  import opened Text
  import View
  import AddPage
  import ContentRoute

  // ---------------------------------------------------------------------
  // Inline embed address

  const WatchMarker := "watch?v="
  const EmbedMarker := "embed/"

  /** The iframe source of a video card: only for a non-empty URL that
      contains `youtube`; the first `watch?v=` becomes `embed/` and the
      result is cut at the first `&`. Otherwise the card shows a placeholder. */
  function InlineEmbedSrc(url: Val): (src: Option<string>)
    ensures src.Some? <==> url.Str? && url.s != "" && Contains(url.s, "youtube")
    ensures src.Some? ==> '&' !in src.value
    ensures src.Some? && !Contains(url.s, WatchMarker) ==> src.value <= url.s
    ensures src.Some? && !Contains(url.s, WatchMarker) && '&' !in url.s ==> src.value == url.s
    ensures src.Some? && !Contains(url.s, WatchMarker) ==> src.value == BeforeFirst(url.s, '&')
    ensures src.Some? && Contains(url.s, WatchMarker) ==>
      var i := IndexOf(url.s, WatchMarker).value;
      src.value == BeforeFirst(url.s[..i] + EmbedMarker + url.s[i + |WatchMarker|..], '&')
  {
    if Truthy(url) && url.Str? && Contains(url.s, "youtube") then
      Some(BeforeFirst(ReplaceFirst(url.s, WatchMarker, EmbedMarker), '&'))
    else None
  }

  /** A watch link with no `&` before its `watch?v=` keeps everything up to
      the marker, then `embed/`, then the rest of the link up to its first `&`. */
  lemma WatchLinkBecomesEmbed(u: string, i: nat)
    requires Contains(u, "youtube")
    requires IndexOf(u, WatchMarker) == Some(i)
    requires '&' !in u[..i]
    ensures InlineEmbedSrc(Str(u)) == Some(u[..i] + EmbedMarker + BeforeFirst(u[i + |WatchMarker|..], '&'))
  {
    var a := u[..i] + EmbedMarker;
    assert '&' !in EmbedMarker;
    assert '&' !in a;
    BeforeFirstAppend(a, u[i + |WatchMarker|..], '&');
  }

  // ---------------------------------------------------------------------
  // Card details

  /** "Last updated" line: `updatedAt` is truthy and differs from `createdAt`,
      so a record never edited, or one whose two stamps agree, shows none. */
  function ShowLastUpdated(c: Row): (shown: bool)
    ensures shown ==> "updatedAt" in c && Present(c["updatedAt"]) && c["updatedAt"] != Str("")
    ensures shown ==> Field(c, "updatedAt") != Field(c, "createdAt")
    ensures Field(c, "updatedAt") == Field(c, "createdAt") ==> !shown
    ensures Truthy(Field(c, "updatedAt")) && "createdAt" !in c ==> shown
    ensures (Field(c, "updatedAt").Str? && Field(c, "updatedAt").s != ""
             && Field(c, "updatedAt") != Field(c, "createdAt")) ==> shown
  {
    Truthy(Field(c, "updatedAt")) && Field(c, "updatedAt") != Field(c, "createdAt")
  }

  /** The type label, `contentType || 'Post'`. */
  function TypeLabel(c: Row): (shown: Val)
    ensures Truthy(shown)
    ensures Truthy(Field(c, "contentType")) ==> shown == Field(c, "contentType")
    ensures !Truthy(Field(c, "contentType")) ==> shown == Str("Post")
  {
    Or(Field(c, "contentType"), Str("Post"))
  }

  /** The platform row appears when `platform` is truthy: never for a
      record without one, nor for an empty platform name. */
  function ShowPlatform(c: Row): (shown: bool)
    ensures shown ==> "platform" in c && Present(c["platform"])
    ensures Field(c, "platform") == Str("") ==> !shown
    ensures "platform" in c && c["platform"].Str? && c["platform"].s != "" ==> shown
  {
    Truthy(Field(c, "platform"))
  }

  /** A record appended to the local file: no "Last updated" line (it has
      no `updatedAt`), its type as label unless that is falsy, and a
      platform row exactly when its platform is truthy. */
  lemma LocalCard(d: ContentRoute.Draft, clock: ContentRoute.Clock)
    ensures var item := Serialize(ContentRoute.NewLocalItem(d, clock));
      && !ShowLastUpdated(item)
      && TypeLabel(item) == Or(d.contentType, Str("Post"))
      && (ShowPlatform(item) <==> Truthy(d.platform))
  {
    var built := ContentRoute.NewLocalItem(d, clock);
    var item := Serialize(built);
    SerializeKeepsFields(built, "contentType");
    SerializeKeepsFields(built, "platform");
    SerializeKeepsFields(built, "updatedAt");
    assert Field(item, "contentType") == d.contentType;
    assert Field(item, "platform") == d.platform;
  }

  /** A submission from the add form, once in the local file, is labelled
      with its type ('Post' for an empty type) and shows a platform row only
      for a video or a post with a platform chosen. */
  lemma SubmittedLocalCard(title: string, text: string, contentType: string,
                           image: string, externalUrl: string, platform: string,
                           clock: ContentRoute.Clock)
    ensures var d := ContentRoute.MapBody(AddPage.PayloadBody(
              AddPage.BuildPayload(title, text, contentType, image, externalUrl, platform)));
      var item := Serialize(ContentRoute.NewLocalItem(d, clock));
      && !ShowLastUpdated(item)
      && TypeLabel(item) == (if contentType != "" then Str(contentType) else Str("Post"))
      && (ShowPlatform(item) <==> AddPage.LinksOut(contentType) && platform != "")
  {
    var d := ContentRoute.MapBody(AddPage.PayloadBody(
      AddPage.BuildPayload(title, text, contentType, image, externalUrl, platform)));
    AddPage.SubmittedPlatform(title, text, contentType, image, externalUrl, platform);
    LocalCard(d, clock);
  }

  // ---------------------------------------------------------------------
  // Page state

  /** The revised page keeps no loading flag. */
  class PublicView {
    var contents: seq<Row>
    var likes: map<Val, nat>

    constructor ()
      ensures contents == [] && likes == map[]
    {
      contents, likes := [], map[];
    }

    method OnFetch(f: View.Fetched)
      modifies this
      ensures contents == View.AcceptFetched(f) && likes == old(likes)
    {
      contents := View.AcceptFetched(f);
    }

    method HandleLike(id: Val)
      modifies this
      ensures likes == View.Bump(old(likes), id) && contents == old(contents)
    {
      likes := View.Bump(likes, id);
    }
  }
}
