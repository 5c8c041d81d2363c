/** The relay itself: the `Checkin` datastore records keyed by Facebook post
    URL, the handler that turns a feed notification into at most one
    WordPress post per checkin, and the subscription verification echo. */
module Relay {
  import opened Text
  import opened Checkins
  import opened Rendering

  /** A record's lifecycle: `started` when first seen, `complete` once the
      WordPress call has returned. */
  datatype Status = Started | Complete

  /** One datastore record, keyed by the checkin's Facebook URL. */
  datatype Checkin = Checkin(checkinJson: string, postJson: Option<string>, status: Status)

  /** How the WordPress call ended: its response, serialized, or an
      exception. An exception does not tell whether WordPress created the
      post: a timeout or a non-JSON reply can come after it did. */
  datatype Publish = Accepted(responseJson: string) | Raised

  /** How one notification was handled. */
  datatype Outcome =
    | Ignored                                     // not a change to the user's feed
    | NoRecentCheckin                             // no checkin in the last day
    | AlreadyPosted(url: string)                  // the record is complete
    | Posted(url: string, request: PublishRequest) // the WordPress call returned
    | Failed(error: Error)                        // an exception ended the request

  /** The store right after `post()` has made sure a record exists: an
      existing record is kept as it is, a missing one is created `started`. */
  function Opened(checkins: map<string, Checkin>, url: string, checkinJson: string): (m: map<string, Checkin>)
    ensures url in m && m.Keys == checkins.Keys + {url}
    ensures url in checkins ==> m == checkins
    ensures url !in checkins ==> m[url] == Checkin(checkinJson, None, Started)
    ensures forall u :: u in checkins ==> m[u] == checkins[u]
  {
    if url in checkins then checkins else checkins[url := Checkin(checkinJson, None, Started)]
  }

  /** The ledger invariant over the records and the ghost history of URLs
      whose WordPress call returned: a record is complete exactly when its
      URL is in that history, it then holds the response, and no URL is in
      it twice. */
  ghost predicate Consistent(checkins: map<string, Checkin>, published: seq<string>)
  {
    && (forall i, j :: 0 <= i < j < |published| ==> published[i] != published[j])
    && (forall i :: 0 <= i < |published| ==> published[i] in checkins && checkins[published[i]].status == Complete)
    && (forall u :: u in checkins && checkins[u].status == Complete ==> u in published)
    && (forall u :: u in checkins ==> (checkins[u].status == Complete <==> checkins[u].postJson.Some?))
  }

  /** Creating a missing record keeps the invariant. */
  lemma OpenedConsistent(checkins: map<string, Checkin>, published: seq<string>, url: string, checkinJson: string)
    requires Consistent(checkins, published)
    ensures Consistent(Opened(checkins, url, checkinJson), published)
  {
  }

  /** Completing a started record, and recording its URL as published,
      keeps the invariant; the URL had not been published before. */
  lemma CompletedConsistent(checkins: map<string, Checkin>, published: seq<string>, url: string, response: string)
    requires Consistent(checkins, published)
    requires url in checkins && checkins[url].status == Started
    ensures url !in published
    ensures Consistent(checkins[url := Checkin(checkins[url].checkinJson, Some(response), Complete)], published + [url])
  {
    var c := checkins[url := Checkin(checkins[url].checkinJson, Some(response), Complete)];
    var p := published + [url];
    assert url !in published;
    forall u | u in c && c[u].status == Complete
      ensures u in p
    {
      if u != url {
        assert checkins[u] == c[u];
      }
    }
  }

  /** How one request leaves things: its outcome, the records and the
      history of URLs whose WordPress call returned. */
  datatype Step = Step(outcome: Outcome, checkins: map<string, Checkin>, published: seq<string>)

  /** The second half of `post()`, once the checkin `post` and its URL are
      known: stop if the record is complete; otherwise make sure a record
      exists, render the WordPress post, publish it, and only when the WordPress
      call returns mark the record complete with the response. */
  function Delivery(checkins: map<string, Checkin>, published: seq<string>, post: Post, url: string,
                    photo: Option<seq<Image>>, publish: Publish): (s: Step)
    requires post.place.Some?
    ensures url in s.checkins
    ensures s.checkins[url].status == Complete <==> s.outcome.Posted? || s.outcome.AlreadyPosted?
    ensures s.outcome.Posted? || s.outcome.AlreadyPosted? ==> s.outcome.url == url
    ensures s.outcome.Posted? || s.outcome.AlreadyPosted? || s.outcome.Failed?
    ensures !(url in checkins && checkins[url].status == Complete) && Render(post, url, photo).Err? ==>
              s.outcome == Failed(Render(post, url, photo).error)
  {
    if url in checkins && checkins[url].status == Complete then
      Step(AlreadyPosted(url), checkins, published)
    else
      var stored := Opened(checkins, url, post.json);
      match Render(post, url, photo)
      case Err(e) => Step(Failed(e), stored, published)
      case Ok(request) =>
        match publish
        case Raised => Step(Failed(PublishFailed), stored, published)
        case Accepted(response) =>
          Step(Posted(url, request), stored[url := Checkin(stored[url].checkinJson, Some(response), Complete)],
               published + [url])
  }

  /** A complete record stops the request before anything is rendered or
      published, and nothing changes. */
  lemma DeliverySkipsComplete(checkins: map<string, Checkin>, published: seq<string>, post: Post, url: string,
                              photo: Option<seq<Image>>, publish: Publish)
    requires post.place.Some?
    ensures var s := Delivery(checkins, published, post, url, photo, publish);
      (s.outcome == AlreadyPosted(url) <==> url in checkins && checkins[url].status == Complete)
      && (s.outcome.AlreadyPosted? ==> s.checkins == checkins && s.published == published)
  {
  }

  /** WordPress is only called once the post has rendered; when the request
      fails, the record for `url` is left created (with the checkin's JSON) or
      as it was, and `started`. */
  lemma DeliveryFailureLeavesStarted(checkins: map<string, Checkin>, published: seq<string>, post: Post, url: string,
                                     photo: Option<seq<Image>>, publish: Publish)
    requires post.place.Some?
    ensures var s := Delivery(checkins, published, post, url, photo, publish);
      (s.outcome == Failed(PublishFailed) <==>
         !(url in checkins && checkins[url].status == Complete)
         && Render(post, url, photo).Ok? && publish.Raised?)
    ensures var s := Delivery(checkins, published, post, url, photo, publish);
      s.outcome.Failed? ==>
        && s.checkins == Opened(checkins, url, post.json)
        && s.checkins[url].status == Started
        && s.published == published
  {
  }

  /** The post goes through exactly when the record is not complete, the
      rendering succeeds and the WordPress call returns. The record then
      keeps the `checkin_json` it was first stored with (the checkin's own,
      when it was created by this request), holds the response and is
      complete; no other record changes, and its URL joins the history. */
  lemma DeliveryPosts(checkins: map<string, Checkin>, published: seq<string>, post: Post, url: string,
                      photo: Option<seq<Image>>, publish: Publish)
    requires post.place.Some?
    ensures var s := Delivery(checkins, published, post, url, photo, publish);
      && (s.outcome.Posted? <==>
            !(url in checkins && checkins[url].status == Complete)
            && Render(post, url, photo).Ok? && publish.Accepted?)
      && (s.outcome.Posted? ==>
            && s.outcome == Posted(url, Render(post, url, photo).value)
            && s.checkins[url].status == Complete
            && s.checkins[url].postJson == Some(publish.responseJson)
            && s.checkins[url].checkinJson == (if url in checkins then checkins[url].checkinJson else post.json)
            && s.checkins == Opened(checkins, url, post.json)[url := s.checkins[url]]
            && s.published == published + [url])
  {
  }

  /** Delivery keeps the ledger invariant, and never publishes a URL
      twice. */
  lemma DeliveryConsistent(checkins: map<string, Checkin>, published: seq<string>, post: Post, url: string,
                           photo: Option<seq<Image>>, publish: Publish)
    requires post.place.Some?
    requires Consistent(checkins, published)
    ensures var s := Delivery(checkins, published, post, url, photo, publish);
      Consistent(s.checkins, s.published) && (s.outcome.Posted? ==> url !in published)
  {
    if !(url in checkins && checkins[url].status == Complete) {
      var stored := Opened(checkins, url, post.json);
      OpenedConsistent(checkins, published, url, post.json);
      if Render(post, url, photo).Ok? && publish.Accepted? {
        CompletedConsistent(stored, published, url, publish.responseJson);
      }
    }
  }

  /** What every delivery keeps: no record is deleted, only the record for
      `url` can change, its `checkin_json` stays, and a complete record never
      changes. */
  lemma DeliveryAdvances(checkins: map<string, Checkin>, published: seq<string>, post: Post, url: string,
                         photo: Option<seq<Image>>, publish: Publish)
    requires post.place.Some?
    ensures var s := Delivery(checkins, published, post, url, photo, publish);
      && checkins.Keys <= s.checkins.Keys <= checkins.Keys + {url}
      && (forall u :: u in checkins && u != url ==> s.checkins[u] == checkins[u])
      && (forall u :: u in checkins ==> s.checkins[u].checkinJson == checkins[u].checkinJson)
      && (forall u :: u in checkins && checkins[u].status == Complete ==> s.checkins[u] == checkins[u])
  {
  }

  class UpdateHandler {
    /** The datastore's `Checkin` records. */
    var checkins: map<string, Checkin>
    /** Every URL whose WordPress call returned, in order. */
    ghost var published: seq<string>

    ghost predicate Valid()
      reads this
    {
      Consistent(checkins, published)
    }

    constructor ()
      ensures Valid() && checkins == map[] && published == []
    {
      checkins := map[];
      published := [];
    }

    /** `post()`: handle one real-time update notification. `feed` is the
        fetched `me/feed` (its `data` list, `None` when missing), `now` the
        current time in seconds, `photo` the fetched photo object's images
        (`None` when that fetch raised) and `publish` how the WordPress call
        ends. Nothing is stored unless a checkin was selected. */
    method HandleUpdate(n: Notification, feed: Option<seq<Post>>, now: int, photo: Option<seq<Image>>, publish: Publish)
      returns (outcome: Outcome)
      requires Valid()
      modifies this
      ensures Valid()
      ensures match Select(n, feed, now)
        case NotFeedUpdate => outcome == Ignored && unchanged(this)
        case NoCheckin => outcome == NoRecentCheckin && unchanged(this)
        case Rejected(e) => outcome == Failed(e) && unchanged(this)
        case Selected(post, url) =>
          Step(outcome, checkins, published) == Delivery(old(checkins), old(published), post, url, photo, publish)
    {
      ghost var selection := Select(n, feed, now);
      var isFeed := IsFeedUpdate(n);
      if isFeed.Err? {
        assert selection == Rejected(isFeed.error);
        return Failed(isFeed.error);
      }
      if !isFeed.value {
        assert selection == NotFeedUpdate;
        return Ignored;
      }
      var posts := FeedPosts(feed);
      var scan := FindCheckin(posts, now);
      if scan.NotFound? {
        assert selection == NoCheckin;
        return NoRecentCheckin;
      } else if scan.BadTime? {
        assert selection == Rejected(BadCreatedTime);
        return Failed(BadCreatedTime);
      }
      var post := posts[scan.index];
      if post.id.None? {
        assert selection == Rejected(MissingKey("id"));
        return Failed(MissingKey("id"));
      }
      var postUrl := PostUrl(post.id.value);
      if postUrl.Err? {
        assert selection == Rejected(postUrl.error);
        return Failed(postUrl.error);
      }
      assert selection == Selected(post, postUrl.value);
      outcome := Deliver(post, postUrl.value, photo, publish);
    }

    /** `Delivery`, on the datastore. */
    method Deliver(post: Post, url: string, photo: Option<seq<Image>>, publish: Publish)
      returns (outcome: Outcome)
      requires Valid() && post.place.Some?
      modifies this
      ensures Valid()
      ensures Step(outcome, checkins, published) == Delivery(old(checkins), old(published), post, url, photo, publish)
    {
      DeliveryConsistent(checkins, published, post, url, photo, publish);
      if url in checkins && checkins[url].status == Complete {
        return AlreadyPosted(url);
      } else if url !in checkins {
        checkins := checkins[url := Checkin(post.json, None, Started)];
      }
      assert checkins == Opened(old(checkins), url, post.json);

      var request := Render(post, url, photo);
      if request.Err? {
        return Failed(request.error);
      }
      match publish
      case Raised =>
        return Failed(PublishFailed);
      case Accepted(response) =>
        checkins := checkins[url := Checkin(checkins[url].checkinJson, Some(response), Complete)];
        published := published + [url];
        return Posted(url, request.value);
    }

    /** Facebook redelivering the same notification: once a checkin has
        been posted, handling the notification again posts nothing. */
    method Redeliver(n: Notification, feed: Option<seq<Post>>, now: int, photo: Option<seq<Image>>, publish: Publish)
      returns (first: Outcome, second: Outcome)
      requires Valid()
      modifies this
      ensures Valid()
      ensures first.Posted? ==> second == AlreadyPosted(first.url) && published == old(published) + [first.url]
    {
      ghost var before, history := checkins, published;
      first := HandleUpdate(n, feed, now, photo, publish);
      ghost var middle, history' := checkins, published;
      second := HandleUpdate(n, feed, now, photo, publish);
      if first.Posted? {
        var Selected(post, url) := Select(n, feed, now);
        DeliveryPosts(before, history, post, url, photo, publish);
        DeliverySkipsComplete(middle, history', post, url, photo, publish);
      }
    }

    /** A request that failed at the WordPress call leaves its record
        `started`, so the next notification for the same checkin posts it. */
    method Retry(n: Notification, feed: Option<seq<Post>>, now: int, photo: Option<seq<Image>>, response: string)
      returns (first: Outcome, second: Outcome)
      requires Valid()
      modifies this
      ensures Valid()
      ensures first == Failed(PublishFailed) ==> second.Posted? && published == old(published) + [second.url]
    {
      ghost var before, history := checkins, published;
      first := HandleUpdate(n, feed, now, photo, Raised);
      ghost var middle, history' := checkins, published;
      second := HandleUpdate(n, feed, now, photo, Accepted(response));
      if first == Failed(PublishFailed) {
        var Selected(post, url) := Select(n, feed, now);
        DeliveryFailureLeavesStarted(before, history, post, url, photo, Raised);
        DeliveryPosts(middle, history', post, url, photo, Accepted(response));
      }
    }
  }

  const VerifyToken := "fluffernutter"

  /** A response: its content type and body. */
  datatype Response = Response(contentType: string, body: string)

  /** webapp2's response before the handler writes anything. */
  const DefaultResponse := Response("text/html; charset=utf-8", "")

  /** `request.get(name)`: a missing parameter reads as empty. */
  function Param(params: map<string, string>, name: string): string
  {
    if name in params then params[name] else ""
  }

  /** `get()`: the subscription verification request. The challenge and a
      line break are written as plain text exactly when the verify token
      matches, and the challenge can be read back from the body by dropping
      the line break; otherwise the response is left untouched. */
  function Verify(params: map<string, string>): (r: Response)
    ensures r.contentType == "text/plain" <==> Param(params, "hub.verify_token") == VerifyToken
    ensures r.body != "" <==> Param(params, "hub.verify_token") == VerifyToken
    ensures r.body != "" ==>
      |r.body| >= 2 && r.body[|r.body| - 2..] == "\r\n" && r.body[..|r.body| - 2] == Param(params, "hub.challenge")
    ensures r.body == "" ==> r == DefaultResponse
  {
    if Param(params, "hub.verify_token") == VerifyToken then
      Response("text/plain", Param(params, "hub.challenge") + "\r\n")
    else DefaultResponse
  }
}
