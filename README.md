# OwnYourCheckin relay, modelled in Dafny

OwnYourCheckin receives Facebook Real Time Update notifications for a user's
feed. For each notification it looks for a checkin posted in the last day and
republishes it as a WordPress post. A datastore of `Checkin` records is keyed
by the checkin's Facebook post URL. Once a checkin's WordPress call has
returned, its record is `complete`, and the checkin is never sent again. A
call that raised leaves the record `started`, so a later notification that
selects the same checkin sends it again. The same endpoint also answers
Facebook's subscription verification request.

The model has four modules:

- `Text` (text.dfy): the Python library behaviour the handler relies on.
  This is `str.split` and `str.join` with a one-character separator, and
  `string.Template.substitute` over a template already parsed into literal
  and placeholder pieces.
- `Checkins` (checkins.dfy): the Graph API payloads and the exceptions the
  handler can raise, here as an `Error` datatype. It also holds:
  - the notification filter;
  - the `for ... else` search of the feed, as a function and as a method
    with a loop;
  - the post URL built from an `A_B` id;
  - `Select`, everything `post()` does before it touches the datastore.
- `Rendering` (render.dfy): the WordPress post.
  - The people string holds one `h-card` anchor per tagged person.
  - The media URL is taken from the tallest image of a photo checkin.
  - The content comes from the checkin template.
- `Relay` (relay.dfy): the `Checkin` record and its `started`/`complete`
  lifecycle, and the GET verification echo.
  - The class `UpdateHandler` holds the datastore as a map field, plus a
    ghost history of the URLs whose WordPress call returned.
  - `HandleUpdate` handles one notification, and `Deliver` is its datastore
    half.
    Both are proved against `Delivery`, a function that states the outcome
    and the new ledger; the lifecycle properties are lemmas about it.
  - Its invariant ties the two together. A record is `complete` exactly
    when its URL is in the history, and no URL is in it twice.

The network calls are inputs of `HandleUpdate`:
- the fetched feed;
- the fetched photo object's images;
- how the WordPress call ends.

The clock is an integer `now` in seconds. A post's `created_time` is given
already parsed, or as text that does not parse.

## Model

| member | source | states |
|---|---|---|
| Text.Split | app.py:104 | `id.split('_')` has one more part than there are separators, no part holds the separator, and joining the parts gives the text back |
| Text.Join | app.py:118 | `','.join(anchors)` starts with the first anchor |
| Text.JoinCount | app.py:118 | joining separator-free parts gives one separator fewer than there are parts |
| Text.JoinInjective | app.py:118 | joining separator-free parts with `,` loses nothing: equal joins come from equal part lists |
| Text.SplitJoin | app.py:118 | splitting a join of separator-free parts gives the parts back |
| Text.Substitute | app.py:132-139 | `Template.substitute` fails exactly when some placeholder has no value, and then names the first such placeholder |
| Text.SubstituteAppend | app.py:132-139 | substituting into a concatenated template gives the concatenation of the substituted pieces |
| Checkins.IsFeedUpdate | app.py:83-85 | a notification counts only when `object` is `user` and the first entry's `changed_fields` holds `feed`; an empty entry list raises, but only once the object is `user` |
| Checkins.FirstEntryDecides | app.py:84 | entries after the first never change the filter's verdict |
| Checkins.Examine | app.py:91-95 | a post matches exactly when it has a non-empty place and was created no earlier than one day before `now`; with a place, an unparseable time raises |
| Checkins.FirstCheckin | app.py:89-101 | the scan stops at the first post that matches or raises, every earlier post being skipped; it finds nothing exactly when every post is skipped |
| Checkins.FindCheckin | app.py:89-101 | the loop breaks at the same index as `FirstCheckin`, and the post it finds has a place |
| Checkins.Unique | app.py:89-101 | any result satisfying the description of the first match is `FirstCheckin`'s result |
| Checkins.PostUrl | app.py:104 | the URL is defined exactly when the id holds one `_`; otherwise the format raises, with the number of parts the split produced |
| Checkins.PostUrlOf | app.py:104 | the URL for `A_B` is `https://www.facebook.com/` + A + `/posts/` + B |
| Checkins.PostUrlShape | app.py:104 | every id that gives a URL is some underscore-free `A_B`, and its URL is built from that A and B |
| Checkins.PostUrlParts | app.py:104 | a well-formed id is its two split parts around one `_`, and the URL is made from them |
| Checkins.PostUrlInjective | app.py:104-105 | distinct slash-free ids give distinct datastore keys |
| Checkins.Select | app.py:80-104 | a selected post passed the filter, has a place, is the first match in feed order and has an id whose URL is the one returned. A filter error rejects with that error, and a filter saying no gives `NotFeedUpdate` (both ways). Nothing is found exactly when the filter passes and every post is skipped. An unparseable time first in the scan rejects with `BadCreatedTime`, and a found checkin goes to `Pick` |
| Checkins.Pick | app.py:104 | a missing id raises `KeyError('id')`; otherwise the checkin is selected exactly when its id gives a URL, with that URL, and a malformed id rejects with the split's part count |
| Rendering.Anchor | app.py:119-120 | an anchor exists exactly when the tag has `id` and `name`; otherwise a `KeyError` for the first key missing |
| Rendering.Anchors | app.py:118-121 | the anchors, one per tag in tag order, or the error of the first tag lacking a key |
| Rendering.People | app.py:115-121 | the people string is empty exactly when there are no tags; it fails exactly when a tag lacks a key, and then with that tag's error |
| Rendering.PeopleAnchors | app.py:115-121 | the people string starts with ` with `, and splitting the rest on `,` gives one anchor per tag, in tag order, when no id or name holds a comma |
| Rendering.Tallest | app.py:127-128 | `max` by height picks an image of greatest height, and the first of those |
| Rendering.TallestUnique | app.py:127-128 | only one index is first among the tallest |
| Rendering.ImageUrl | app.py:123-128 | the media URL is empty unless the post is a photo with an `object_id`; then it is the source of the first tallest image, a failed fetch raises, and an empty image list raises |
| Rendering.Keywords | app.py:139 | the keyword map holds `message` (a missing message reads `None`), `post_url`, `people` and the place's own keys; a place key repeating an explicit keyword raises |
| Rendering.Content | app.py:132-139 | a repeated keyword raises first, then a missing place `id`, then a missing place `name` |
| Rendering.ContentLayout | app.py:132-139 | the content is the message, a line break, the `h-as-checkin` blockquote (location link to the place page with its name, the people string and a period), then the `u-syndication` link to the post URL |
| Rendering.Render | app.py:114-150 | the request exists exactly when the people string, the image and the template all succeed. The first of them to fail decides the error: the people error, then the image error, then `Content`'s error. It is always a missing key, a repeated keyword, a failed fetch or an empty image list. The request carries the laid-out content and the media URL |
| Rendering.Request | app.py:132-150 | fails exactly when `Content` fails, with its error; the place must repeat no explicit keyword and supply `id` and `name`; otherwise the request is the laid-out content with the media URL |
| Relay.Opened | app.py:105-112 | an existing record is kept as it is, including its `checkin_json`; a missing one is created `started` with the checkin's JSON; no other record changes |
| Relay.OpenedConsistent | app.py:109-112 | creating a missing record keeps the ledger invariant |
| Relay.CompletedConsistent | app.py:154-159 | completing a `started` record and recording its URL as published keeps the invariant, and that URL had not been published before |
| Relay.UpdateHandler.constructor | app.py:40-46 | the datastore starts empty and consistent |
| Relay.Delivery | app.py:103-159 | afterwards the checkin's record exists, and it is `complete` exactly when the outcome is posted or already posted, both for the checkin's URL; any other outcome is a failure. When the record is not complete and rendering fails, the request fails with `Render`'s error, the exception the source lets escape |
| Relay.DeliverySkipsComplete | app.py:105-108 | a request stops as already posted exactly when the checkin's record is complete, and then nothing changes |
| Relay.DeliveryFailureLeavesStarted | app.py:114-159 | WordPress is called only after the post rendered, and its failure is reported exactly then; a failed request leaves the record created-if-missing, `started`, and the history unchanged |
| Relay.DeliveryPosts | app.py:109-159 | a post goes through exactly when the record is not complete, rendering succeeds and the WordPress call returns. The record then is `complete` with the response as `post_json`. It keeps the `checkin_json` it was stored with, which is the checkin's own JSON when this request created it. No other record changes, and the URL joins the history |
| Relay.DeliveryConsistent | app.py:103-159 | delivery keeps the ledger invariant (complete exactly when published, never published twice), and a URL that is posted had not been published |
| Relay.DeliveryAdvances | app.py:103-159 | no record is deleted, only the checkin's own record can change, `checkin_json` is never overwritten, and a complete record never changes |
| Relay.UpdateHandler.HandleUpdate | app.py:61-159 | a notification the filter drops, a feed with no recent checkin, or an exception before the lookup leaves the store unchanged; for a selected checkin the outcome and the new store are `Delivery`'s; the ledger invariant holds after every request |
| Relay.UpdateHandler.Deliver | app.py:103-159 | the lookup, create-if-absent, render, publish and completion steps on the datastore give exactly `Delivery`'s outcome and new state, and keep the invariant |
| Relay.UpdateHandler.Redeliver | app.py:103-108 | handling the same notification after a successful post posts nothing more |
| Relay.UpdateHandler.Retry | app.py:146-159 | after a WordPress call that raised, the next notification for the same checkin posts it |
| Relay.Verify | app.py:51-59 | the challenge and `\r\n` are written as plain text exactly when the verify token matches; otherwise the response is untouched |

## Left out

- `urlopen_json` and `fb_get` (app.py:161-180) are not part of this model.
  The feed, the photo object and the WordPress result are inputs of
  `HandleUpdate`.
  A feed fetch that raises happens before any state change, so it is not
  modelled separately.
- The `logging.info` calls (app.py:56, 80, 97, 100, 107, 110, 152) are not
  modelled. They change neither the outcome nor the datastore.
- JSON `loads`/`dumps` are not modelled.
  - The notification and the feed are given already decoded.
  - A post's serialized form and the WordPress response are opaque strings.
  - Values that are not objects, where the code expects one, are outside
    the payload datatypes.
- `datetime.now` and `strptime`: times are integer seconds. A
  `created_time` is either parsed, missing, or unparseable. The model does
  not check the exact `%Y-%m-%dT%H:%M:%S+0000` format.
- Reading credentials at import time, the authorization header, the
  endpoint URLs and the webapp2 routing are configuration and framework
  plumbing.
- The datastore is an in-memory map.
  - `put()` always succeeds.
  - The `created`/`updated` timestamps (`auto_now_add`/`auto_now`) are not
    modelled.
- The missing transaction between the WordPress call and the final `put()`
  is left out, and so are overlapping requests.
  - `HandleUpdate` handles one notification at a time, atomically.
  - The model does not capture a crash after WordPress accepted the post
    but before the record was marked `complete`.
- A `Raised` WordPress call may already have created the post. For example,
  `urlopen_json` times out reading the reply, or the reply is not JSON.
  - The record then stays `started`, and a later notification that selects
    the same checkin posts it again (`Retry`).
  - The ghost history therefore records calls that returned, not posts
    WordPress created.
  - "No URL twice in the history" covers recorded successes only. It does
    not cover posts on WordPress.
- Rendering.PeopleAnchors: the content of the people string is described
  only for tags whose `id` and `name` hold no comma. For other tags,
  `People` states only when the string is empty and when it fails. With a
  comma, splitting on `,` no longer recovers the anchors. Facebook ids are
  digits, so only a name with a comma falls outside.
- Rendering.ImageUrl: every image is taken to have `height` and `source`.
  The `KeyError` for an image lacking one is not modelled.
- Relay.UpdateHandler.HandleUpdate: `now` is one value for the whole feed,
  where the code reads the clock again for every post.
- The commented-out image markup and request fields (app.py:129-130, 144,
  147-148) are not modelled.
