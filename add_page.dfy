/** The admin "add content" form: its state, the YouTube URL check, the
    submit validation and the payload it sends. */
module AddPage {
  import opened Values
  import YouTube
  import ContentRoute

  /** `isValidYouTubeUrl(url)`: a URL is accepted exactly when it is
      non-empty and some link prefix followed by eleven characters of
      `[a-zA-Z0-9_-]` occurs in it. */
  function IsValidYouTubeUrl(url: string): (ok: bool)
    ensures url == "" ==> !ok
    ensures ok <==> url != "" && YouTube.HasVideoLink(url)
    ensures ok ==> YouTube.Capture(url, 0).Some? || YouTube.Capture(url, 1).Some?
  {
    url != "" && YouTube.AnyPatternMatches(url)
  }

  /** Why a submission is refused before any request is sent. */
  datatype Rejection = MissingImage | MissingUrl | InvalidYouTubeUrl

  /** The JSON body sent to the content route; a None field is absent. */
  datatype Payload = Payload(
    title: string, text: string, contentType: string,
    image: Option<string>, externalUrl: Option<string>, platform: Option<string>)

  datatype SubmitOutcome = Rejected(reason: Rejection) | Sent(payload: Payload)

  predicate LinksOut(contentType: string) {
    contentType == "video" || contentType == "post"
  }

  /** The payload: always title, text and type; the image only for images;
      the URL and platform only for videos and posts. */
  function BuildPayload(title: string, text: string, contentType: string,
                        image: string, externalUrl: string, platform: string): (p: Payload)
    ensures p.title == title && p.text == text && p.contentType == contentType
    ensures p.image.Some? <==> contentType == "image"
    ensures p.image.Some? ==> p.image.value == image
    ensures p.externalUrl.Some? <==> LinksOut(contentType)
    ensures p.platform.Some? <==> LinksOut(contentType)
    ensures p.externalUrl.Some? ==> p.externalUrl.value == externalUrl && p.platform == Some(platform)
    ensures !(p.image.Some? && p.externalUrl.Some?)
  {
    Payload(
      title, text, contentType,
      if contentType == "image" then Some(image) else None,
      if LinksOut(contentType) then Some(externalUrl) else None,
      if LinksOut(contentType) then Some(platform) else None)
  }

  /** The payload as the request body the route receives: the three text
      fields always, each optional field exactly when the payload has it. */
  function PayloadBody(p: Payload): (body: Row)
    ensures body.Keys <= {"title", "text", "contentType", "image", "externalUrl", "platform"}
    ensures Field(body, "title") == Str(p.title) && Field(body, "text") == Str(p.text)
    ensures Field(body, "contentType") == Str(p.contentType)
    ensures "image" in body <==> p.image.Some?
    ensures "externalUrl" in body <==> p.externalUrl.Some?
    ensures "platform" in body <==> p.platform.Some?
    ensures p.image.Some? ==> body["image"] == Str(p.image.value)
    ensures p.externalUrl.Some? ==> body["externalUrl"] == Str(p.externalUrl.value)
    ensures p.platform.Some? ==> body["platform"] == Str(p.platform.value)
  {
    map["title" := Str(p.title), "text" := Str(p.text), "contentType" := Str(p.contentType)]
    + (if p.image.Some? then map["image" := Str(p.image.value)] else map[])
    + (if p.externalUrl.Some? then map["externalUrl" := Str(p.externalUrl.value)] else map[])
    + (if p.platform.Some? then map["platform" := Str(p.platform.value)] else map[])
  }

  /** The form's state. */
  class AddForm {
    var title: string
    var text: string
    var contentType: string
    var image: string
    var externalUrl: string
    var platform: string

    /** The initial state: an image post with every text field empty. */
    constructor ()
      ensures title == "" && text == "" && image == "" && externalUrl == ""
      ensures contentType == "image" && platform == "none"
    {
      title, text, contentType := "", "", "image";
      image, externalUrl, platform := "", "", "none";
    }

    /** The type selector's change handler: it also clears the image and the URL. */
    method SelectContentType(value: string)
      modifies this
      ensures contentType == value && image == "" && externalUrl == ""
      ensures title == old(title) && text == old(text) && platform == old(platform)
    {
      contentType := value;
      image := "";
      externalUrl := "";
    }

    /** `handleSubmit`: three checks in order, the first failing one stops
      the submission; otherwise the payload is sent. */
    method HandleSubmit() returns (outcome: SubmitOutcome)
      ensures contentType == "image" && image == "" ==> outcome == Rejected(MissingImage)
      ensures LinksOut(contentType) && externalUrl == "" ==> outcome == Rejected(MissingUrl)
      ensures contentType == "video" && externalUrl != "" && !IsValidYouTubeUrl(externalUrl) ==>
        outcome == Rejected(InvalidYouTubeUrl)
      ensures contentType == "post" && externalUrl != "" ==> outcome.Sent?
      ensures contentType == "image" && image != "" ==> outcome.Sent?
      ensures contentType == "video" && IsValidYouTubeUrl(externalUrl) ==> outcome.Sent?
      ensures !LinksOut(contentType) && contentType != "image" ==> outcome.Sent?
      ensures outcome.Sent? ==>
        outcome.payload == BuildPayload(title, text, contentType, image, externalUrl, platform)
    {
      if contentType == "image" && image == "" {
        return Rejected(MissingImage);
      }
      if (contentType == "video" || contentType == "post") && externalUrl == "" {
        return Rejected(MissingUrl);
      }
      if contentType == "video" && !IsValidYouTubeUrl(externalUrl) {
        return Rejected(InvalidYouTubeUrl);
      }
      outcome := Sent(BuildPayload(title, text, contentType, image, externalUrl, platform));
    }
  }

  /** What the route stores for a submission that passed the checks: an
      image post carries its image and a null URL, a video or post carries
      its URL and a null image; an empty text leaves the description unset. */
  lemma SubmittedMediaReachesRoute(title: string, text: string, contentType: string,
                                   image: string, externalUrl: string, platform: string)
    requires contentType == "image" ==> image != ""
    requires LinksOut(contentType) ==> externalUrl != ""
    ensures var d := ContentRoute.MapBody(PayloadBody(BuildPayload(title, text, contentType, image, externalUrl, platform)));
      && d.title == Str(title) && d.contentType == Str(contentType)
      && d.description == (if text != "" then Str(text) else Undefined)
      && (contentType == "image" ==> d.image == Str(image) && d.externalUrl == Null && d.platform == Null)
      && (LinksOut(contentType) ==> d.image == Null && d.externalUrl == Str(externalUrl))
  {
    var p := BuildPayload(title, text, contentType, image, externalUrl, platform);
    var body := PayloadBody(p);
    assert Field(body, "title") == Str(title);
    assert Field(body, "text") == Str(text);
    assert Field(body, "contentType") == Str(contentType);
    assert "description" !in body;
    if contentType == "image" {
      assert Field(body, "image") == Str(image);
      assert "externalUrl" !in body && "platform" !in body;
    }
    if LinksOut(contentType) {
      assert "image" !in body;
      assert Field(body, "externalUrl") == Str(externalUrl);
    }
  }

  /** The platform the route stores for a submission: the chosen one for a
      video or a post (null when none was chosen), null for anything else. */
  lemma SubmittedPlatform(title: string, text: string, contentType: string,
                          image: string, externalUrl: string, platform: string)
    ensures var d := ContentRoute.MapBody(PayloadBody(BuildPayload(title, text, contentType, image, externalUrl, platform)));
      && d.contentType == Str(contentType)
      && d.platform == (if LinksOut(contentType) && platform != "" then Str(platform) else Null)
  {
    var body := PayloadBody(BuildPayload(title, text, contentType, image, externalUrl, platform));
    assert Field(body, "contentType") == Str(contentType);
    assert Field(body, "platform") == if LinksOut(contentType) then Str(platform) else Undefined;
  }
}
