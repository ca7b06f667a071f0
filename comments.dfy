/**
 * The ad comments the comment workflow passes around, as the Graph API
 * delivers them (`id`, `message`, `from`, `created_time`) and as the
 * dashboard enriches them (`sentiment`, `status`, `adId`).
 */
module Comments {
  import opened Wrappers

  datatype Sentiment = Positive | Negative | Neutral | Spam

  datatype Status = Pending | Handled

  /** A comment as fetched: `created_time` is taken as already parsed to milliseconds. */
  datatype RawComment = RawComment(id: string, message: string, fromName: string, createdTime: int)

  /** An enriched comment; the optional fields are None until set. */
  datatype Comment = Comment(id: string, message: string, fromName: string, createdTime: int,
                             sentiment: Option<Sentiment>, status: Option<Status>, adId: Option<string>)

  /** An ad of the `/ads` response: `comments.data` is None when the ad has no comments block. */
  datatype Ad = Ad(id: string, comments: Option<seq<RawComment>>)

  /** A fetched comment with the id of the ad it was found on. */
  datatype Item = Item(raw: RawComment, adId: string)

  /** What a POST to the Graph API answered: success, or a body (or fetch) error with its message. */
  datatype Posted = Posted | Refused(message: string)

  /** The comments of one ad, each paired with the ad's id; an ad without `comments.data` has none. */
  function ItemsOf(ad: Ad): (r: seq<Item>)
    ensures ad.comments.None? ==> r == []
    ensures ad.comments.Some? ==> |r| == |ad.comments.value|
    ensures ad.comments.Some? ==> forall k :: 0 <= k < |r| ==> r[k] == Item(ad.comments.value[k], ad.id)
  {
    match ad.comments
    case None => []
    case Some(cs) => seq(|cs|, k requires 0 <= k < |cs| => Item(cs[k], ad.id))
  }

  /** All comments of all ads, ad by ad, in the order the nested loops visit them. */
  function Flatten(ads: seq<Ad>): seq<Item> {
    if ads == [] then [] else Flatten(ads[..|ads| - 1]) + ItemsOf(ads[|ads| - 1])
  }

  /** The comment with its status set to `'handled'`. */
  function MarkHandled(c: Comment): (r: Comment)
    ensures r.status == Some(Handled)
    ensures r.id == c.id && r.message == c.message && r.sentiment == c.sentiment && r.adId == c.adId
  {
    c.(status := Some(Handled))
  }
}
