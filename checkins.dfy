/** The Graph API payloads the relay reads, the filter on real-time update
    notifications, the search of the feed for a recent checkin, and the
    Facebook post URL that keys the datastore. */
module Checkins {
  import opened Text

  /** One day, in seconds. */
  const Day := 86400

  const FacebookRoot := "https://www.facebook.com/"

  /** A JSON object whose values are used as text. */
  type Fields = map<string, string>

  /** The exceptions the handler can raise. */
  datatype Error =
    | NoEntry                          // IndexError: the notification's `entry` list is empty
    | MissingKey(key: string)          // KeyError
    | PostIdParts(count: nat)          // TypeError: the id does not give the URL format its two values
    | BadCreatedTime                   // ValueError: `created_time` does not parse
    | NoImages                         // ValueError: `max()` of an empty image list
    | DuplicateKeywords(keys: set<string>) // TypeError: the place repeats a keyword of `substitute()`
    | FetchFailed                      // the photo object could not be fetched
    | PublishFailed                    // the WordPress call raised

  /** One element of the notification's `entry` list. */
  datatype Entry = Entry(changedFields: Option<seq<string>>)

  /** The decoded body of a real-time update notification. */
  datatype Notification = Notification(obj: Option<string>, entry: Option<seq<Entry>>)

  /** A post's `created_time`: missing (or empty), a parsed UTC instant in
      seconds, or text that does not parse. */
  datatype CreatedTime = Absent | At(seconds: int) | Unparseable

  /** One post of the user's feed. `withTags` is the `data` list of
      `with_tags`, `None` when either is missing; `json` is the post's
      serialized form, stored verbatim. */
  datatype Post = Post(
    id: Option<string>,
    place: Option<Fields>,
    created: CreatedTime,
    message: Option<string>,
    withTags: Option<seq<Fields>>,
    kind: Option<string>,
    objectId: Option<string>,
    json: string)

  /** `req.get('entry', [{}])`: a missing list reads as one empty entry. */
  function Entries(n: Notification): seq<Entry>
  {
    match n.entry
    case None => [Entry(None)]
    case Some(es) => es
  }

  /** `entry.get('changed_fields', [])`. */
  function ChangedFields(e: Entry): seq<string>
  {
    match e.changedFields
    case None => []
    case Some(fs) => fs
  }

  /** Whether a notification announces a change to the user's feed. The
      entry list is only looked at once the object is `user`, and then an
      empty list raises. */
  function IsFeedUpdate(n: Notification): (r: Result<bool, Error>)
    ensures n.obj != Some("user") ==> r == Ok(false)
    ensures r.Err? <==> n.obj == Some("user") && n.entry == Some([])
    ensures r.Err? ==> r.error == NoEntry
    ensures r == Ok(true) <==>
      n.obj == Some("user") && |Entries(n)| > 0 && "feed" in ChangedFields(Entries(n)[0])
  {
    if n.obj != Some("user") then Ok(false)
    else if |Entries(n)| == 0 then Err(NoEntry)
    else Ok("feed" in ChangedFields(Entries(n)[0]))
  }

  /** Only the first entry of a notification decides. */
  lemma FirstEntryDecides(obj: Option<string>, e: Entry, rest: seq<Entry>)
    ensures IsFeedUpdate(Notification(obj, Some([e] + rest))) == IsFeedUpdate(Notification(obj, Some([e])))
  {
  }

  /** `feed.get('data', [])`. */
  function FeedPosts(feed: Option<seq<Post>>): seq<Post>
  {
    match feed
    case None => []
    case Some(ps) => ps
  }

  /** A place is present when it is a non-empty object. */
  predicate HasPlace(p: Post)
  {
    p.place.Some? && |p.place.value| > 0
  }

  /** What the feed loop makes of one post. */
  datatype Verdict = Skip | Match | Raise

  /** A post is the checkin when it has a place and was created no earlier
      than one day before `now`; a post with a place whose creation time
      does not parse stops the loop with an error. */
  function Examine(p: Post, now: int): (v: Verdict)
    ensures v == Match <==> HasPlace(p) && p.created.At? && p.created.seconds >= now - Day
    ensures v == Raise <==> HasPlace(p) && p.created.Unparseable?
  {
    if !HasPlace(p) then Skip
    else
      match p.created
      case Absent => Skip
      case At(t) => if t >= now - Day then Match else Skip
      case Unparseable => Raise
  }

  /** How the feed loop ends: no checkin, the checkin's index, or the index
      of the post whose creation time raised. */
  datatype Scan = NotFound | Found(index: nat) | BadTime(index: nat)

  /** The result of scanning `posts` in order and stopping at the first
      post that is not skipped. */
  function FirstCheckin(posts: seq<Post>, now: int): (r: Scan)
    ensures !r.NotFound? ==> r.index < |posts| && forall j :: 0 <= j < r.index ==> Examine(posts[j], now) == Skip
    ensures r.Found? ==> Examine(posts[r.index], now) == Match
    ensures r.BadTime? ==> Examine(posts[r.index], now) == Raise
    ensures r.NotFound? <==> forall j :: 0 <= j < |posts| ==> Examine(posts[j], now) == Skip
  {
    if |posts| == 0 then NotFound
    else
      match Examine(posts[0], now)
      case Match => Found(0)
      case Raise => BadTime(0)
      case Skip =>
        assert forall j :: 0 < j < |posts| ==> posts[j] == posts[1..][j - 1];
        match FirstCheckin(posts[1..], now)
        case NotFound => NotFound
        case Found(k) => Found(k + 1)
        case BadTime(k) => BadTime(k + 1)
  }

  /** The `for ... else` loop over the feed: break on the first checkin. */
  method FindCheckin(posts: seq<Post>, now: int) returns (r: Scan)
    ensures r == FirstCheckin(posts, now)
    ensures r.Found? ==> r.index < |posts| && HasPlace(posts[r.index])
  {
    var i := 0;
    while i < |posts|
      invariant 0 <= i <= |posts|
      invariant forall j :: 0 <= j < i ==> Examine(posts[j], now) == Skip
    {
      var v := Examine(posts[i], now);
      if v == Match {
        r := Found(i);
        Unique(posts, now, r);
        return;
      } else if v == Raise {
        r := BadTime(i);
        Unique(posts, now, r);
        return;
      }
      i := i + 1;
    }
    r := NotFound;
  }

  /** A scan result is determined by the posts: whatever satisfies the
      description of `FirstCheckin` is `FirstCheckin`. */
  lemma Unique(posts: seq<Post>, now: int, r: Scan)
    requires !r.NotFound? ==> r.index < |posts| && forall j :: 0 <= j < r.index ==> Examine(posts[j], now) == Skip
    requires r.Found? ==> Examine(posts[r.index], now) == Match
    requires r.BadTime? ==> Examine(posts[r.index], now) == Raise
    requires r.NotFound? <==> forall j :: 0 <= j < |posts| ==> Examine(posts[j], now) == Skip
    ensures r == FirstCheckin(posts, now)
  {
  }

  /** `'https://www.facebook.com/%s/posts/%s' % tuple(id.split('_'))`:
      defined exactly when the id holds one underscore. */
  function PostUrl(id: string): (r: Result<string, Error>)
    ensures r.Ok? <==> multiset(id)['_'] == 1
    ensures r.Err? ==> r.error == PostIdParts(multiset(id)['_'] + 1)
  {
    var parts := Split(id, '_');
    if |parts| == 2 then Ok(FacebookRoot + parts[0] + "/posts/" + parts[1])
    else Err(PostIdParts(|parts|))
  }

  /** The URL of post `A_B` is the root, `A`, `/posts/`, `B`. */
  lemma PostUrlOf(a: string, b: string)
    requires '_' !in a && '_' !in b
    ensures PostUrl(a + "_" + b) == Ok(FacebookRoot + a + "/posts/" + b)
  {
    assert Join([a, b], '_') == a + "_" + b;
    SplitJoin([a, b], '_');
  }

  /** Every post URL comes from some `A_B`. */
  lemma PostUrlShape(id: string)
    requires PostUrl(id).Ok?
    ensures exists a, b :: '_' !in a && '_' !in b && id == a + "_" + b
                           && PostUrl(id) == Ok(FacebookRoot + a + "/posts/" + b)
  {
    var parts := Split(id, '_');
    assert id == Join(parts, '_') == parts[0] + "_" + parts[1];
  }

  /** Text before and after the first separator is recovered uniquely. */
  lemma SplitAtFirst(x1: string, y1: string, x2: string, y2: string, sep: char)
    requires sep !in x1 && sep !in x2
    requires x1 + [sep] + y1 == x2 + [sep] + y2
    ensures x1 == x2 && y1 == y2
  {
    var s := x1 + [sep] + y1;
    FirstSeparator(x1, y1, sep);
    FirstSeparator(x2, y2, sep);
    assert |x1| == |x2|;
    assert x1 == s[..|x1|] == x2;
    assert y1 == s[|x1| + 1..] == y2;
  }

  /** A well-formed id is its two underscore-free parts around one `_`. */
  lemma PostUrlParts(id: string)
    requires PostUrl(id).Ok?
    ensures var p := Split(id, '_');
      |p| == 2 && id == p[0] + "_" + p[1] && PostUrl(id) == Ok(FacebookRoot + p[0] + "/posts/" + p[1])
  {
    var p := Split(id, '_');
    assert Join(p[1..], '_') == p[1];
  }

  /** The URL of `A_B` gives back `A` and `B` when `A` holds no slash. */
  lemma UrlPartsRecovered(a1: string, b1: string, a2: string, b2: string)
    requires '/' !in a1 && '/' !in a2
    requires FacebookRoot + a1 + "/posts/" + b1 == FacebookRoot + a2 + "/posts/" + b2
    ensures a1 == a2 && b1 == b2
  {
    var t1, t2 := a1 + ['/'] + ("posts/" + b1), a2 + ['/'] + ("posts/" + b2);
    assert FacebookRoot + t1 == FacebookRoot + a1 + "/posts/" + b1;
    assert FacebookRoot + t2 == FacebookRoot + a2 + "/posts/" + b2;
    assert t1 == (FacebookRoot + t1)[|FacebookRoot|..] == t2;
    SplitAtFirst(a1, "posts/" + b1, a2, "posts/" + b2, '/');
    assert b1 == ("posts/" + b1)[6..] == b2;
  }

  /** A character absent from `x + [d] + y` is absent from `x`. */
  lemma AbsentFromPrefix(x: string, y: string, d: char, c: char)
    requires c !in x + [d] + y
    ensures c !in x
  {
    assert forall k :: 0 <= k < |x| ==> x[k] == (x + [d] + y)[k];
  }

  /** Distinct slash-free ids (Facebook's are digits) get distinct URLs, so
      two checkins never share a datastore record. */
  lemma PostUrlInjective(id1: string, id2: string)
    requires '/' !in id1 && '/' !in id2
    requires PostUrl(id1).Ok? && PostUrl(id1) == PostUrl(id2)
    ensures id1 == id2
  {
    var p1, p2 := Split(id1, '_'), Split(id2, '_');
    PostUrlParts(id1);
    PostUrlParts(id2);
    AbsentFromPrefix(p1[0], p1[1], '_', '/');
    AbsentFromPrefix(p2[0], p2[1], '_', '/');
    UrlPartsRecovered(p1[0], p1[1], p2[0], p2[1]);
  }

  /** What the handler has to work with before it touches the datastore. */
  datatype Selection =
    | NotFeedUpdate
    | NoCheckin
    | Rejected(error: Error)
    | Selected(post: Post, url: string)

  /** Everything `post()` does before the datastore lookup: filter the
      notification, find the checkin in the feed, and build its URL. */
  function Select(n: Notification, feed: Option<seq<Post>>, now: int): (r: Selection)
    ensures r.Selected? ==> IsFeedUpdate(n) == Ok(true) && HasPlace(r.post)
    ensures r.Selected? ==>
      exists k :: 0 <= k < |FeedPosts(feed)| && FeedPosts(feed)[k] == r.post
                  && FirstCheckin(FeedPosts(feed), now) == Found(k)
    ensures r.Selected? ==> r.post.id.Some? && PostUrl(r.post.id.value) == Ok(r.url)
    ensures r.Rejected? ==>
      r.error in {NoEntry, BadCreatedTime, MissingKey("id")} || r.error.PostIdParts?
    ensures r == NoCheckin <==>
      IsFeedUpdate(n) == Ok(true) && forall p :: p in FeedPosts(feed) ==> Examine(p, now) == Skip
    ensures IsFeedUpdate(n).Err? ==> r == Rejected(IsFeedUpdate(n).error)
    ensures r == NotFeedUpdate <==> IsFeedUpdate(n) == Ok(false)
    ensures IsFeedUpdate(n) == Ok(true) && FirstCheckin(FeedPosts(feed), now).BadTime? ==> r == Rejected(BadCreatedTime)
    ensures IsFeedUpdate(n) == Ok(true) && FirstCheckin(FeedPosts(feed), now).Found? ==>
      r == Pick(FeedPosts(feed)[FirstCheckin(FeedPosts(feed), now).index])
  {
    match IsFeedUpdate(n)
    case Err(e) => Rejected(e)
    case Ok(false) => NotFeedUpdate
    case Ok(true) =>
      var posts := FeedPosts(feed);
      match FirstCheckin(posts, now)
      case NotFound => NoCheckin
      case BadTime(_) => Rejected(BadCreatedTime)
      case Found(k) => Pick(posts[k])
  }

  /** The found checkin's URL: its id must be present and well formed. */
  function Pick(post: Post): (r: Selection)
    ensures post.id.None? ==> r == Rejected(MissingKey("id"))
    ensures post.id.Some? ==> (r.Selected? <==> PostUrl(post.id.value).Ok?)
    ensures post.id.Some? && PostUrl(post.id.value).Err? ==> r == Rejected(PostUrl(post.id.value).error)
    ensures r.Selected? ==> r.post == post && post.id.Some? && PostUrl(post.id.value) == Ok(r.url)
    ensures r.Rejected? ==> r.error == MissingKey("id") || r.error.PostIdParts?
    ensures !r.NotFeedUpdate? && !r.NoCheckin?
  {
    if post.id.None? then Rejected(MissingKey("id"))
    else
      match PostUrl(post.id.value)
      case Err(e) => Rejected(e)
      case Ok(url) => Selected(post, url)
  }
}
