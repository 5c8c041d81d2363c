/** The body of the WordPress post: the people tagged "with" the user, the
    tallest image of a photo checkin, and the checkin template. */
module Rendering {
  import opened Text
  import opened Checkins

  /** `post.get('with_tags', {}).get('data', [])`. */
  function TagList(withTags: Option<seq<Fields>>): seq<Fields>
  {
    match withTags
    case None => []
    case Some(ts) => ts
  }

  const CardStart := "<a class=\"h-card\" href=\"" + FacebookRoot

  /** One tagged person as an `h-card` link to their profile; Python's
      `%(id)s ... %(name)s` formatting raises on the first missing key. */
  function Anchor(tag: Fields): (r: Result<string, Error>)
    ensures r.Ok? <==> "id" in tag && "name" in tag
    ensures r.Err? ==> r.error == MissingKey(if "id" in tag then "name" else "id")
  {
    if "id" !in tag then Err(MissingKey("id"))
    else if "name" !in tag then Err(MissingKey("name"))
    else Ok(CardStart + tag["id"] + "\">" + tag["name"] + "</a>")
  }

  /** The anchors of all tags, in tag order; the first tag that lacks a key
      decides the error. */
  function Anchors(tags: seq<Fields>): (r: Result<seq<string>, Error>)
    ensures r.Ok? <==> forall i :: 0 <= i < |tags| ==> Anchor(tags[i]).Ok?
    ensures r.Ok? ==> |r.value| == |tags| && forall i :: 0 <= i < |tags| ==> r.value[i] == Anchor(tags[i]).value
    ensures r.Err? ==> exists i :: 0 <= i < |tags| && Anchor(tags[i]) == Err(r.error)
                                   && forall j :: 0 <= j < i ==> Anchor(tags[j]).Ok?
  {
    if |tags| == 0 then Ok([])
    else
      assert forall i :: 0 < i < |tags| ==> tags[i] == tags[1..][i - 1];
      match Anchor(tags[0])
      case Err(e) => Err(e)
      case Ok(a) =>
        match Anchors(tags[1..])
        case Err(e) => Err(e)
        case Ok(rest) => Ok([a] + rest)
  }

  /** The people string: empty without tags, otherwise ` with ` and the
      anchors joined by commas. */
  function People(withTags: Option<seq<Fields>>): (r: Result<string, Error>)
    ensures r == Ok("") <==> |TagList(withTags)| == 0
    ensures r.Ok? <==> forall i :: 0 <= i < |TagList(withTags)| ==> Anchor(TagList(withTags)[i]).Ok?
    ensures r.Err? ==> Anchors(TagList(withTags)) == Err(r.error)
  {
    var tags := TagList(withTags);
    if |tags| == 0 then Ok("")
    else
      match Anchors(tags)
      case Err(e) => Err(e)
      case Ok(anchors) => Ok(" with " + Join(anchors, ','))
  }

  /** Reading the people string back: after ` with `, splitting on commas
      gives exactly one anchor per tag, in tag order, provided no id or name
      holds a comma. */
  lemma PeopleAnchors(withTags: Option<seq<Fields>>)
    requires People(withTags).Ok? && |TagList(withTags)| > 0
    requires forall i :: 0 <= i < |TagList(withTags)| && "id" in TagList(withTags)[i] ==> ',' !in TagList(withTags)[i]["id"]
    requires forall i :: 0 <= i < |TagList(withTags)| && "name" in TagList(withTags)[i] ==> ',' !in TagList(withTags)[i]["name"]
    ensures var s, tags := People(withTags).value, TagList(withTags);
      |s| >= 6 && s[..6] == " with "
      && |Split(s[6..], ',')| == |tags|
      && forall i :: 0 <= i < |tags| ==> Split(s[6..], ',')[i] == Anchor(tags[i]).value
  {
    var tags := TagList(withTags);
    var anchors := Anchors(tags).value;
    AnchorsCommaFree(tags);
    var s := People(withTags).value;
    assert s == " with " + Join(anchors, ',');
    assert s[6..] == Join(anchors, ',');
    SplitJoin(anchors, ',');
  }

  /** The anchors of tags whose ids and names hold no comma hold none. */
  lemma AnchorsCommaFree(tags: seq<Fields>)
    requires Anchors(tags).Ok?
    requires forall i :: 0 <= i < |tags| && "id" in tags[i] ==> ',' !in tags[i]["id"]
    requires forall i :: 0 <= i < |tags| && "name" in tags[i] ==> ',' !in tags[i]["name"]
    ensures forall i :: 0 <= i < |tags| ==> ',' !in Anchors(tags).value[i]
  {
    forall i | 0 <= i < |tags|
      ensures ',' !in Anchors(tags).value[i]
    {
      AnchorCommaFree(tags[i]);
    }
  }

  /** The anchor of a tag whose id and name hold no comma holds none. */
  lemma AnchorCommaFree(tag: Fields)
    requires "id" in tag && "name" in tag
    requires ',' !in tag["id"] && ',' !in tag["name"]
    ensures ',' !in Anchor(tag).value
  {
    assert ',' !in "<a class=\"h-card\" href=\"" && ',' !in FacebookRoot;
    assert ',' !in "\">" && ',' !in "</a>";
  }

  /** One entry of a photo object's `images` list. */
  datatype Image = Image(height: int, source: string)

  /** `k` is what `max(images, key=height)` picks: a greatest height, and
      the first such one. */
  predicate IsTallest(images: seq<Image>, k: int)
  {
    && 0 <= k < |images|
    && (forall j :: 0 <= j < |images| ==> images[j].height <= images[k].height)
    && (forall j :: 0 <= j < k ==> images[j].height < images[k].height)
  }

  /** Python's `max`: scan left to right and replace the best so far only
      on a strictly greater height. */
  function Tallest(images: seq<Image>): (k: nat)
    requires |images| > 0
    ensures IsTallest(images, k)
  {
    if |images| == 1 then 0
    else
      var last := |images| - 1;
      var k := Tallest(images[..last]);
      assert forall j :: 0 <= j < last ==> images[j] == images[..last][j];
      if images[last].height > images[k].height then last else k
  }

  /** There is only one tallest-first image. */
  lemma TallestUnique(images: seq<Image>, k: int)
    requires IsTallest(images, k)
    ensures k == Tallest(images)
  {
  }

  /** Whether `post()` fetches the photo object: a `photo` post with a
      non-empty `object_id`. */
  predicate IsPhoto(post: Post)
  {
    post.kind == Some("photo") && post.objectId.Some? && post.objectId.value != ""
  }

  /** The `media_urls[]` value. `photo` is the fetched object's `images`
      list (missing reads as empty), or `None` when the fetch raised; it is
      only consulted for photo posts. */
  function ImageUrl(post: Post, photo: Option<seq<Image>>): (r: Result<string, Error>)
    ensures !IsPhoto(post) ==> r == Ok("")
    ensures IsPhoto(post) && photo.None? ==> r == Err(FetchFailed)
    ensures IsPhoto(post) && photo.Some? ==> (r.Err? <==> |photo.value| == 0)
    ensures IsPhoto(post) && photo.Some? && r.Err? ==> r.error == NoImages
    ensures IsPhoto(post) && r.Ok? ==>
      photo.Some? && exists k :: IsTallest(photo.value, k) && r.value == photo.value[k].source
  {
    if !IsPhoto(post) then Ok("")
    else
      match photo
      case None => Err(FetchFailed)
      case Some(images) =>
        if |images| == 0 then Err(NoImages)
        else Ok(images[Tallest(images)].source)
  }

  /** The keywords `substitute()` receives explicitly. */
  const Explicit: set<string> := {"message", "post_url", "people"}

  /** Python's `'%s' % value` for an optional string: `None` reads `None`. */
  function Str(v: Option<string>): string
  {
    match v
    case None => "None"
    case Some(s) => s
  }

  /** `message=..., post_url=..., people=..., **place` as one keyword map; a
      place key equal to an explicit keyword raises `TypeError`. */
  function Keywords(message: Option<string>, people: string, url: string, place: Fields): (r: Result<map<string, string>, Error>)
    ensures r.Err? <==> Explicit * place.Keys != {}
    ensures r.Err? ==> r.error == DuplicateKeywords(Explicit * place.Keys)
    ensures r.Ok? ==> r.value.Keys == Explicit + place.Keys
    ensures r.Ok? ==> r.value["message"] == Str(message) && r.value["post_url"] == url && r.value["people"] == people
    ensures r.Ok? ==> forall k :: k in place ==> r.value[k] == place[k]
  {
    if "message" in place || "post_url" in place || "people" in place then
      assert Explicit * place.Keys != {} by {
        var k :| k in place && k in Explicit;
        assert k in Explicit * place.Keys;
      }
      Err(DuplicateKeywords(Explicit * place.Keys))
    else
      Ok(map["message" := Str(message), "post_url" := url, "people" := people] + place)
  }

  const BlockquoteStart := "<blockquote class=\"h-as-checkin\">\nAt <a class=\"h-card p-location\"\n      href=\"" + FacebookRoot
  const BlockquoteEnd := ".\n</blockquote>\n"
  const SyndicationStart := "<a class=\"u-syndication\" href=\""
  const LinkEnd := "\"></a>\n"

  /** A placeholder followed by literal text. */
  function Then(name: string, text: string): seq<Piece>
  {
    [Placeholder(name), Literal(text)]
  }

  /** The checkin template of `post()`, parsed into pieces. */
  const CheckinTemplate: seq<Piece> :=
    Then("message", "\n" + BlockquoteStart)
    + Then("id", "\">")
    + Then("name", "</a>")
    + Then("people", BlockquoteEnd + SyndicationStart)
    + Then("post_url", LinkEnd)

  /** The `h-as-checkin` blockquote: a location link to the place's page
      with its name, then the people string and a period. */
  function CheckinBlock(placeId: string, placeName: string, people: string): string
  {
    BlockquoteStart + placeId + "\">" + placeName + "</a>" + people + BlockquoteEnd
  }

  /** The `u-syndication` link back to the Facebook post. */
  function SyndicationLink(url: string): string
  {
    SyndicationStart + url + LinkEnd
  }

  /** The post content: the template filled from the keywords. A repeated
      keyword raises first, then a missing place `id`, then a missing place
      `name`; nothing else can fail. */
  function Content(message: Option<string>, place: Fields, people: string, url: string): (r: Result<string, Error>)
    ensures Explicit * place.Keys != {} ==> r == Err(DuplicateKeywords(Explicit * place.Keys))
    ensures Explicit * place.Keys == {} && "id" !in place ==> r == Err(MissingKey("id"))
    ensures Explicit * place.Keys == {} && "id" in place && "name" !in place ==> r == Err(MissingKey("name"))
  {
    match Keywords(message, people, url, place)
    case Err(e) => Err(e)
    case Ok(values) =>
      var t := CheckinTemplate;
      // the first placeholders are `message`, `id` and `name`, in that order
      assert !Missing(t[0], values);
      assert "id" !in place ==> Missing(t[2], values) && forall j :: 0 <= j < 2 ==> !Missing(t[j], values);
      assert "id" in place ==> forall j :: 0 <= j < 4 ==> !Missing(t[j], values);
      assert "name" !in place ==> Missing(t[4], values);
      match Substitute(t, values)
      case Err(key) => Err(MissingKey(key))
      case Ok(s) => Ok(s)
  }

  /** Regrouping the pieces of the filled template. */
  lemma Regroup(m: string, nl: string, bs: string, id: string, q: string, name: string, a: string,
                people: string, be: string, ss: string, url: string, le: string)
    ensures ((((m + (nl + bs)) + (id + q)) + (name + a)) + (people + (be + ss))) + (url + le)
            == m + nl + (bs + id + q + name + a + people + be) + (ss + url + le)
  {
  }

  /** With `id` and `name` supplied, the content is the message, a line
      break, the checkin blockquote and the syndication link, in that order. */
  lemma ContentLayout(message: Option<string>, place: Fields, people: string, url: string)
    ensures Explicit * place.Keys == {} && "id" in place && "name" in place ==>
      Content(message, place, people, url)
      == Ok(Str(message) + "\n" + CheckinBlock(place["id"], place["name"], people) + SyndicationLink(url))
  {
    if Explicit * place.Keys == {} && "id" in place && "name" in place {
      var values := Keywords(message, people, url, place).value;
      var p1, p2, p3 := Then("message", "\n" + BlockquoteStart), Then("id", "\">"), Then("name", "</a>");
      var p4, p5 := Then("people", BlockquoteEnd + SyndicationStart), Then("post_url", LinkEnd);
      SubstitutePair("message", "\n" + BlockquoteStart, values);
      SubstitutePair("id", "\">", values);
      SubstitutePair("name", "</a>", values);
      SubstitutePair("people", BlockquoteEnd + SyndicationStart, values);
      SubstitutePair("post_url", LinkEnd, values);
      SubstituteAppend(p1, p2, values);
      SubstituteAppend(p1 + p2, p3, values);
      SubstituteAppend(p1 + p2 + p3, p4, values);
      SubstituteAppend(p1 + p2 + p3 + p4, p5, values);
      Regroup(Str(message), "\n", BlockquoteStart, place["id"], "\">", place["name"], "</a>",
              people, BlockquoteEnd, SyndicationStart, url, LinkEnd);
    }
  }

  /** Filling a placeholder and the text after it. */
  lemma SubstitutePair(name: string, text: string, values: map<string, string>)
    requires name in values
    ensures Substitute(Then(name, text), values) == Ok(values[name] + text)
  {
    var t := Then(name, text);
    assert t[1..] == [Literal(text)];
    assert t[1..][1..] == [];
    assert Substitute(t[1..], values) == Ok(text + "");
    assert text + "" == text;
  }

  /** What `post()` sends to WordPress. */
  datatype PublishRequest = PublishRequest(content: string, mediaUrl: string)

  /** Everything between storing the record and calling WordPress: the
      people string, then the image (fetching the photo only for photo
      posts), then the template; the first of them to raise decides. */
  function Render(post: Post, url: string, photo: Option<seq<Image>>): (r: Result<PublishRequest, Error>)
    requires post.place.Some?
    ensures People(post.withTags).Err? ==> r == Err(People(post.withTags).error)
    ensures People(post.withTags).Ok? && ImageUrl(post, photo).Err? ==> r == Err(ImageUrl(post, photo).error)
    ensures r.Ok? <==>
      People(post.withTags).Ok? && ImageUrl(post, photo).Ok?
      && Explicit * post.place.value.Keys == {} && "id" in post.place.value && "name" in post.place.value
    ensures r.Err? ==> r.error.MissingKey? || r.error.DuplicateKeywords? || r.error in {FetchFailed, NoImages}
    ensures People(post.withTags).Ok? && ImageUrl(post, photo).Ok? ==>
      var c := Content(post.message, post.place.value, People(post.withTags).value, url);
      (r.Err? <==> c.Err?) && (r.Err? ==> r.error == c.error)
    ensures r.Ok? ==> r.value.mediaUrl == ImageUrl(post, photo).value
    ensures r.Ok? ==>
      r.value.content == Str(post.message) + "\n"
                         + CheckinBlock(post.place.value["id"], post.place.value["name"], People(post.withTags).value)
                         + SyndicationLink(url)
  {
    match People(post.withTags)
    case Err(e) => Err(e)
    case Ok(people) =>
      match ImageUrl(post, photo)
      case Err(e) => Err(e)
      case Ok(image) => Request(post, url, people, image)
  }

  /** The last rendering step: the content from the template, sent with the
      media URL. */
  function Request(post: Post, url: string, people: string, image: string): (r: Result<PublishRequest, Error>)
    requires post.place.Some?
    ensures var c := Content(post.message, post.place.value, people, url);
      (r.Err? <==> c.Err?) && (r.Err? ==> r.error == c.error)
    ensures r.Ok? <==> Explicit * post.place.value.Keys == {} && "id" in post.place.value && "name" in post.place.value
    ensures r.Err? ==> r.error.MissingKey? || r.error.DuplicateKeywords?
    ensures r.Ok? ==>
      r.value == PublishRequest(Str(post.message) + "\n" + CheckinBlock(post.place.value["id"], post.place.value["name"], people)
                                + SyndicationLink(url), image)
  {
    ContentLayout(post.message, post.place.value, people, url);
    match Content(post.message, post.place.value, people, url)
    case Err(e) => Err(e)
    case Ok(content) => Ok(PublishRequest(content, image))
  }
}
