/** The public gallery page: accepting the fetched list, the like
    counters, the reading-time estimate, the YouTube embed address and the
    choice of media panel. */
module View {
  import opened Values
  import opened Text
  import YouTube
  import AddPage
  import ContentRoute

  // ---------------------------------------------------------------------
  // Fetching the list

  /** The outcome of `fetch('/api/content').then(res => res.json())`: the
      request or the parse failed, the JSON is an array, or it is anything else. */
  datatype Fetched = FetchFailed | JsonArray(items: seq<Row>) | JsonOther

  /** The list the page keeps: the array itself, otherwise nothing. */
  function AcceptFetched(f: Fetched): (contents: seq<Row>)
    ensures f.JsonArray? ==> contents == f.items
    ensures !f.JsonArray? ==> contents == []
  {
    match f
    case JsonArray(items) => items
    case _ => []
  }

  /** A GET response body as the page parses it. */
  function ParseBody(b: ContentRoute.Body): (f: Fetched)
    ensures (b.Contents? || b.Rows?) <==> f.JsonArray?
  {
    match b
    case Contents(items) => JsonArray(seq(|items|, i requires 0 <= i < |items| => ContentRoute.ContentJson(items[i])))
    case Rows(rows) => JsonArray(rows)
    case _ => JsonOther
  }

  /** Whatever backend answers, the page shows every record of the GET
      response, in order: the route never answers with a non-array body. */
  lemma GetResponseIsAccepted(env: ContentRoute.Env, stored: seq<Row>)
    ensures var body := ContentRoute.GetResponse(env, stored).body;
      var shown := AcceptFetched(ParseBody(body));
      && (body.Rows? ==> shown == body.rows)
      && (body.Contents? ==> |shown| == |body.items|)
      && (body.Contents? ==> forall i :: 0 <= i < |shown| ==> shown[i] == ContentRoute.ContentJson(body.items[i]))
  {
  }

  // ---------------------------------------------------------------------
  // Likes

  /** The count shown for `id` (`likes[id] || 0`). */
  function LikeCount(likes: map<Val, nat>, id: Val): (n: nat)
    ensures id !in likes ==> n == 0
  {
    if id in likes then likes[id] else 0
  }

  /** `{...prev, [id]: (prev[id] || 0) + 1}`. */
  function Bump(likes: map<Val, nat>, id: Val): (r: map<Val, nat>)
    ensures r.Keys == likes.Keys + {id}
    ensures LikeCount(r, id) == LikeCount(likes, id) + 1
    ensures forall k :: k in likes && k != id ==> k in r && r[k] == likes[k]
  {
    likes[id := LikeCount(likes, id) + 1]
  }

  /** The counters after a run of clicks, oldest first. */
  function ApplyLikes(likes: map<Val, nat>, clicks: seq<Val>): map<Val, nat>
    decreases |clicks|
  {
    if clicks == [] then likes else ApplyLikes(Bump(likes, clicks[0]), clicks[1..])
  }

  /** The number of times `id` occurs in `clicks`. */
  function Occurrences(clicks: seq<Val>, id: Val): nat {
    if clicks == [] then 0 else (if clicks[0] == id then 1 else 0) + Occurrences(clicks[1..], id)
  }

  /** Every counter grows by exactly the number of clicks on its record,
      whatever the order of the clicks. */
  lemma {:induction false} LikesCountClicks(likes: map<Val, nat>, clicks: seq<Val>, id: Val)
    ensures LikeCount(ApplyLikes(likes, clicks), id) == LikeCount(likes, id) + Occurrences(clicks, id)
    decreases |clicks|
  {
    if clicks != [] {
      LikesCountClicks(Bump(likes, clicks[0]), clicks[1..], id);
    }
  }

  /** Two likes on different records commute. */
  lemma BumpCommutes(likes: map<Val, nat>, a: Val, b: Val)
    ensures Bump(Bump(likes, a), b) == Bump(Bump(likes, b), a)
  {
  }

  // ---------------------------------------------------------------------
  // Reading time

  const WordsPerMinute := 200

  /** `Math.ceil(text.split(' ').length / 200)`. */
  function EstimateReadingTime(text: string): (minutes: nat)
    ensures minutes >= 1
    ensures (minutes - 1) * WordsPerMinute < CountChar(text, ' ') + 1 <= minutes * WordsPerMinute
  {
    SplitCount(text, ' ');
    (|Split(text, ' ')| + WordsPerMinute - 1) / WordsPerMinute
  }

  // ---------------------------------------------------------------------
  // YouTube embed address

  const EmbedBase := "https://www.youtube.com/embed/"

  /** A URL value as a string the patterns can run on: a falsy value (or
      one that is not a string) yields nothing. */
  function UrlText(url: Val): (u: Option<string>)
    ensures u.Some? <==> url.Str? && url.s != ""
    ensures u.Some? ==> u.value == url.s
  {
    if url.Str? && url.s != "" then Some(url.s) else None
  }

  /** `getYouTubeEmbedUrl(url)`: the embed address of the first pattern's
      capture, else the second's, else null. */
  function EmbedUrl(url: Val): (r: Option<string>)
    ensures UrlText(url).None? ==> r.None?
    ensures r.Some? ==> |r.value| == |EmbedBase| + YouTube.IdLength
    ensures r.Some? ==> r.value[..|EmbedBase|] == EmbedBase && YouTube.IsVideoId(r.value[|EmbedBase|..])
    ensures UrlText(url).Some? && YouTube.Capture(url.s, 0).Some? ==>
      r == Some(EmbedBase + YouTube.Capture(url.s, 0).value)
    ensures UrlText(url).Some? && YouTube.Capture(url.s, 0).None? ==>
      r == (if YouTube.Capture(url.s, 1).Some? then Some(EmbedBase + YouTube.Capture(url.s, 1).value) else None)
  {
    match UrlText(url)
    case None => None
    case Some(u) =>
      if YouTube.Capture(u, 0).Some? then Some(EmbedBase + YouTube.Capture(u, 0).value)
      else if YouTube.Capture(u, 1).Some? then Some(EmbedBase + YouTube.Capture(u, 1).value)
      else None
  }

  /** The page's loop over the two patterns. */
  method GetYouTubeEmbedUrl(url: Val) returns (embed: Option<string>)
    ensures embed == EmbedUrl(url)
  {
    if !Truthy(url) || !url.Str? {
      return None;
    }
    var u := url.s;
    var k := 0;
    while k < |YouTube.Patterns|
      invariant 0 <= k <= |YouTube.Patterns|
      invariant forall j :: 0 <= j < k ==> YouTube.Capture(u, j).None?
    {
      var m := YouTube.Exec(u, YouTube.Patterns[k]);
      if m.Some? {
        return Some(EmbedBase + m.value);
      }
      k := k + 1;
    }
    return None;
  }

  /** The gallery embeds a video exactly when the add form would have
      accepted its URL: both use the same two patterns. */
  lemma EmbedIffValid(u: string)
    ensures EmbedUrl(Str(u)).Some? <==> AddPage.IsValidYouTubeUrl(u)
  {
  }

  // ---------------------------------------------------------------------
  // Media panel

  datatype Panel = ImagePanel | VideoPanel | PostPanel

  /** The three independent `contentType === ...` blocks of a card. */
  function MediaPanels(contentType: Val): (panels: seq<Panel>)
    ensures |panels| <= 1
    ensures panels == [ImagePanel] <==> contentType == Str("image")
    ensures panels == [VideoPanel] <==> contentType == Str("video")
    ensures panels == [PostPanel] <==> contentType == Str("post")
    ensures panels == [] <==> contentType !in {Str("image"), Str("video"), Str("post")}
  {
    var panels :=
      (if contentType == Str("image") then [ImagePanel] else [])
      + (if contentType == Str("video") then [VideoPanel] else [])
      + (if contentType == Str("post") then [PostPanel] else []);
    assert panels != [] ==> panels[0] == (if contentType == Str("image") then ImagePanel
      else if contentType == Str("video") then VideoPanel else PostPanel);
    panels
  }

  // ---------------------------------------------------------------------
  // Page state

  class PublicView {
    var contents: seq<Row>
    var loading: bool
    var likes: map<Val, nat>

    constructor ()
      ensures contents == [] && loading && likes == map[]
    {
      contents, loading, likes := [], true, map[];
    }

    /** The fetch callback (and its `catch`). */
    method OnFetch(f: Fetched)
      modifies this
      ensures contents == AcceptFetched(f) && !loading && likes == old(likes)
    {
      contents := AcceptFetched(f);
      loading := false;
    }

    /** `handleLike(id)`: only the counter update; the animation is left out. */
    method HandleLike(id: Val)
      modifies this
      ensures likes == Bump(old(likes), id)
      ensures contents == old(contents) && loading == old(loading)
    {
      likes := Bump(likes, id);
    }
  }
}
