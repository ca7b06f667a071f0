/**
 * The `useMetaComments` hook: fetches the comments of the selected account's
 * ads, tags each with a keyword sentiment, orders them newest first, and
 * lets the user reply to or hide a comment. The hook's React state is a
 * class; the Graph API's answers are parameters.
 */
module MetaComments {
  import opened Wrappers
  import opened Comments
  import Text
  import Sorting

  // ---------------------------------------------------------------- keyword sentiment

  const PositiveWords: seq<string> := ["bagus", "enak", "mantap", "suka", "recommended", "top", "\U{1F44D}", "\U{1F60B}", "\U{1F924}"]
  const NegativeWords: seq<string> := ["mahal", "kurang", "kecewa", "lama", "buruk", "jelek", "\U{1F44E}"]

  /** `words.some(word => message.includes(word))`. */
  predicate MentionsAny(message: string, words: seq<string>) {
    exists k :: 0 <= k < |words| && Text.Contains(message, words[k])
  }

  /** Positive if any positive word occurs in the lower-cased message, else negative if any negative word does, else neutral. */
  function KeywordSentiment(message: string): (s: Sentiment)
    ensures s == Positive <==> MentionsAny(Text.Lower(message), PositiveWords)
    ensures s == Negative <==> !MentionsAny(Text.Lower(message), PositiveWords) && MentionsAny(Text.Lower(message), NegativeWords)
    ensures s != Spam
  {
    var m := Text.Lower(message);
    if MentionsAny(m, PositiveWords) then Positive
    else if MentionsAny(m, NegativeWords) then Negative
    else Neutral
  }

  /** Every positive keyword is already lower case. */
  lemma PositiveWordLower(p: nat)
    requires p < |PositiveWords|
    ensures Text.Lower(PositiveWords[p]) == PositiveWords[p]
  {
    var w := PositiveWords[p];
    if p == 0 { Text.LowerKeeps("bagus"); }
    else if p == 1 { Text.LowerKeeps("enak"); }
    else if p == 2 { Text.LowerKeeps("mantap"); }
    else if p == 3 { Text.LowerKeeps("suka"); }
    else if p == 4 { Text.LowerKeeps("recommended"); }
    else if p == 5 { Text.LowerKeeps("top"); }
    else { Text.LowerKeeps(w); }
  }

  /** Positive words win ties: a message holding a positive word is positive, whatever negative words it also holds. */
  lemma PositiveWins(before: string, p: nat, after: string)
    requires p < |PositiveWords|
    ensures KeywordSentiment(before + PositiveWords[p] + after) == Positive
  {
    var w := PositiveWords[p];
    Text.LowerAppend(before + w, after);
    Text.LowerAppend(before, w);
    PositiveWordLower(p);
    var l := Text.Lower(before + w + after);
    assert l == Text.Lower(before) + w + Text.Lower(after);
    assert l[|before|..|before| + |w|] == w;
    Text.ContainsAt(l, w, |before|);
  }

  // ---------------------------------------------------------------- flattening and ordering

  /** A fetched comment as the hook stores it: keyword sentiment, pending, tagged with its ad. */
  function Tag(item: Item): (c: Comment)
    ensures c.id == item.raw.id && c.status == Some(Pending) && c.adId == Some(item.adId)
    ensures c.sentiment == Some(KeywordSentiment(item.raw.message))
  {
    Comment(item.raw.id, item.raw.message, item.raw.fromName, item.raw.createdTime,
            Some(KeywordSentiment(item.raw.message)), Some(Pending), Some(item.adId))
  }

  function TagAll(items: seq<Item>): (r: seq<Comment>)
    ensures |r| == |items|
    ensures forall k :: 0 <= k < |items| ==> r[k] == Tag(items[k])
  {
    if items == [] then [] else TagAll(items[..|items| - 1]) + [Tag(items[|items| - 1])]
  }

  /** `b.time - a.time` as a comparator: `a` may stand before `b` when it is at least as recent. */
  predicate NewerOrSame(a: Comment, b: Comment) {
    a.createdTime >= b.createdTime
  }

  /** The fetch's loops: every comment of every ad that has a comments block, tagged and pushed in order. */
  method PushAll(ads: seq<Ad>) returns (pushed: seq<Comment>)
    ensures pushed == TagAll(Flatten(ads))
  {
    pushed := [];
    var i := 0;
    while i < |ads|
      invariant 0 <= i <= |ads|
      invariant pushed == TagAll(Flatten(ads[..i]))
    {
      assert ads[..i + 1][..i] == ads[..i];
      TagAllAppend(Flatten(ads[..i]), ItemsOf(ads[i]));
      pushed := PushAd(pushed, ads[i]);
      i := i + 1;
    }
    assert ads[..i] == ads;
  }

  /** The inner loop over one ad's comments: each is tagged and appended. */
  method PushAd(pushed: seq<Comment>, ad: Ad) returns (after: seq<Comment>)
    ensures after == pushed + TagAll(ItemsOf(ad))
  {
    after := pushed;
    match ad.comments {
      case None =>
        assert pushed + [] == pushed;
      case Some(cs) =>
        ghost var items := ItemsOf(ad);
        for j := 0 to |cs|
          invariant after == pushed + TagAll(items[..j])
        {
          assert items[..j + 1] == items[..j] + [items[j]];
          TagAllAppend(items[..j], [items[j]]);
          after := after + [Tag(Item(cs[j], ad.id))];
        }
        assert items[..|cs|] == items;
    }
  }

  lemma TagAllAppend(xs: seq<Item>, ys: seq<Item>)
    ensures TagAll(xs + ys) == TagAll(xs) + TagAll(ys)
  {
    var l, r := TagAll(xs + ys), TagAll(xs) + TagAll(ys);
    assert |l| == |r|;
    forall k | 0 <= k < |l|
      ensures l[k] == r[k]
    {
      if k < |xs| { assert (xs + ys)[k] == xs[k]; } else { assert (xs + ys)[k] == ys[k - |xs|]; }
    }
  }

  /**
   * `all` holds exactly the tagged comments of `ads`, each as often as
   * fetched, newest first; comments with the same time keep their fetched order.
   */
  ghost predicate NewestFirst(all: seq<Comment>, ads: seq<Ad>) {
    multiset(all) == multiset(TagAll(Flatten(ads))) && Sorting.SortedBy(all, NewerOrSame)
    && Sorting.KeepsTies(all, TagAll(Flatten(ads)), NewerOrSame)
  }

  /** The fetched comments, sorted newest first in place. */
  method CollectComments(ads: seq<Ad>) returns (all: seq<Comment>)
    ensures NewestFirst(all, ads)
  {
    var pushed := PushAll(ads);
    var a := new Comment[|pushed|](k requires 0 <= k < |pushed| => pushed[k]);
    assert a[..] == pushed;
    Sorting.SortInPlace(a, NewerOrSame);
    all := a[..];
  }

  /** Every fetched comment is pending and carries its ad's id, and only ads with a comments block contribute. */
  lemma {:induction false} FlattenTagged(ads: seq<Ad>)
    ensures forall c :: c in TagAll(Flatten(ads)) ==> c.status == Some(Pending) && c.adId.Some?
    ensures |Flatten(ads)| == SumCounts(ads)
  {
    if ads != [] {
      FlattenTagged(ads[..|ads| - 1]);
    }
  }

  /** The number of comments the ads carry; an ad without a comments block carries none. */
  function SumCounts(ads: seq<Ad>): nat {
    if ads == [] then 0
    else SumCounts(ads[..|ads| - 1]) + (match ads[|ads| - 1].comments case None => 0 case Some(cs) => |cs|)
  }

  // ---------------------------------------------------------------- replies and hiding

  /** `prev.map(c => c.id === id ? {...c, status: 'handled'} : c)`. */
  function MarkHandledWhere(cs: seq<Comment>, id: string): (r: seq<Comment>)
    ensures |r| == |cs|
    ensures forall k :: 0 <= k < |cs| ==> r[k] == if cs[k].id == id then MarkHandled(cs[k]) else cs[k]
  {
    if cs == [] then []
    else MarkHandledWhere(cs[..|cs| - 1], id) + [if cs[|cs| - 1].id == id then MarkHandled(cs[|cs| - 1]) else cs[|cs| - 1]]
  }

  /** The filter's test `c => c.id !== id`. */
  function OtherId(id: string): Comment -> bool {
    (c: Comment) => c.id != id
  }

  /** `prev.filter(c => c.id !== id)`: the comments with another id, in order and with their repeats. */
  function RemoveId(cs: seq<Comment>, id: string): (r: seq<Comment>)
    ensures r == Sorting.Keep(cs, OtherId(id))
    ensures forall c :: c in r <==> c in cs && c.id != id
    ensures |r| <= |cs|
  {
    if cs == [] then []
    else
      var init, last := cs[..|cs| - 1], cs[|cs| - 1];
      assert cs == init + [last];
      Sorting.KeepAppend(init, [last], OtherId(id));
      RemoveId(init, id) + (if last.id == id then [] else [last])
  }

  /** Removing a comment id twice is the same as removing it once. */
  lemma {:induction false} RemoveIdTwice(cs: seq<Comment>, id: string)
    ensures RemoveId(RemoveId(cs, id), id) == RemoveId(cs, id)
  {
    if cs != [] {
      var init := cs[..|cs| - 1];
      RemoveIdTwice(init, id);
      var last := cs[|cs| - 1];
      var r := RemoveId(init, id) + (if last.id == id then [] else [last]);
      assert RemoveId(cs, id) == r;
      if last.id != id {
        assert r[..|r| - 1] == RemoveId(init, id);
      } else {
        assert r == RemoveId(init, id);
      }
    }
  }

  datatype Action = Reply | Hide

  /** What the fetch of the ads answered. */
  datatype Fetched = Ads(ads: seq<Ad>) | FetchFailed(message: string)

  /** The hook's state. */
  class CommentsHook {
    const accessToken: Option<string>
    const selectedAccount: Option<string>
    var comments: seq<Comment>
    var isLoading: bool
    var error: Option<string>
    var hasMore: bool
    var page: nat
    var isFetchingMore: bool

    constructor (accessToken: Option<string>, selectedAccount: Option<string>)
      ensures this.accessToken == accessToken && this.selectedAccount == selectedAccount
      ensures comments == [] && isLoading && error == None && !hasMore && page == 1 && !isFetchingMore
    {
      this.accessToken := accessToken;
      this.selectedAccount := selectedAccount;
      comments, isLoading, error, hasMore, page, isFetchingMore := [], true, None, false, 1, false;
    }

    /** The fetch effect. */
    method FetchComments(response: Fetched)
      modifies this
      ensures !isLoading && page == old(page) && isFetchingMore == old(isFetchingMore)
      ensures hasMore == (if accessToken.Some? && selectedAccount.Some? && response.Ads? then false else old(hasMore))
      ensures accessToken.None? || selectedAccount.None? ==>
                error == Some("Please connect your Meta account and select an ad account") && comments == old(comments)
      ensures accessToken.Some? && selectedAccount.Some? && response.FetchFailed? ==>
                error == Some(response.message) && comments == old(comments)
      ensures accessToken.Some? && selectedAccount.Some? && response.Ads? ==>
                error == None && NewestFirst(comments, response.ads)
    {
      if accessToken.None? || selectedAccount.None? {
        error := Some("Please connect your Meta account and select an ad account");
        isLoading := false;
        return;
      }
      isLoading := true;
      error := None;
      match response {
        case FetchFailed(message) =>
          error := Some(message);
        case Ads(ads) =>
          var all := CollectComments(ads);
          comments := all;
          hasMore := false;
      }
      isLoading := false;
    }

    /** `loadMore`: nothing happens while fetching or when there is nothing more. */
    method LoadMore()
      modifies this
      ensures old(isFetchingMore) || !old(hasMore) ==> page == old(page)
      ensures !old(isFetchingMore) && old(hasMore) ==> page == old(page) + 1
      ensures comments == old(comments) && error == old(error) && hasMore == old(hasMore) && isLoading == old(isLoading)
      ensures isFetchingMore == old(isFetchingMore)
    {
      if isFetchingMore || !hasMore {
        return;
      }
      isFetchingMore := true;
      page := page + 1;
      isFetchingMore := false;
    }

    /** `handleComment(id, action, response)`, with `answer` standing for the Graph API's answer. */
    method HandleComment(commentId: string, action: Action, response: Option<string>, answer: Posted)
      returns (r: Result<()>)
      modifies this
      ensures isLoading == old(isLoading) && error == old(error) && page == old(page)
      ensures hasMore == old(hasMore) && isFetchingMore == old(isFetchingMore)
      ensures accessToken.None? ==> r == Err("Authentication required") && comments == old(comments)
      ensures accessToken.Some? ==> r == HandleOutcome(action, response, answer)
      ensures accessToken.Some? ==> comments == HandledComments(old(comments), commentId, action, response, answer)
    {
      if accessToken.None? {
        return Err("Authentication required");
      }
      if action == Reply && response.Some? && response.value != "" {
        if answer.Refused? {
          return Err(answer.message);
        }
        comments := MarkHandledWhere(comments, commentId);
      } else if action == Hide {
        if answer.Refused? {
          return Err(answer.message);
        }
        comments := RemoveId(comments, commentId);
      }
      r := Ok(());
    }
  }

  /** A reply is sent only with non-empty text. */
  predicate Sends(action: Action, response: Option<string>) {
    action == Hide || (response.Some? && response.value != "")
  }

  /** What `handleComment` reports once authenticated: the API's refusal when a request was sent, success otherwise. */
  function HandleOutcome(action: Action, response: Option<string>, answer: Posted): (r: Result<()>)
    ensures r.Err? <==> Sends(action, response) && answer.Refused?
  {
    if Sends(action, response) && answer.Refused? then Err(answer.message) else Ok(())
  }

  /** The comment list after `handleComment` once authenticated. */
  function HandledComments(cs: seq<Comment>, id: string, action: Action, response: Option<string>, answer: Posted): (r: seq<Comment>)
    ensures !Sends(action, response) || answer.Refused? ==> r == cs
  {
    if !Sends(action, response) || answer.Refused? then cs
    else if action == Reply then MarkHandledWhere(cs, id)
    else RemoveId(cs, id)
  }

  /** A successful reply with text marks exactly the comments with that id as handled and leaves the rest alone. */
  lemma ReplyMarksOnlyThatComment(cs: seq<Comment>, id: string, text: string)
    requires text != ""
    ensures var r := HandledComments(cs, id, Reply, Some(text), Posted);
            |r| == |cs|
            && (forall k :: 0 <= k < |cs| && cs[k].id == id ==> r[k].status == Some(Handled) && r[k].message == cs[k].message)
            && (forall k :: 0 <= k < |cs| && cs[k].id != id ==> r[k] == cs[k])
  {
  }

  /** A successful hide removes exactly the comments with that id; the others stay, in order and with their repeats. */
  lemma HideRemovesOnlyThatComment(cs: seq<Comment>, id: string, response: Option<string>)
    ensures var r := HandledComments(cs, id, Hide, response, Posted);
            r == Sorting.Keep(cs, OtherId(id))
            && (forall c :: c in r ==> c.id != id) && (forall c :: c in cs && c.id != id ==> c in r)
  {
  }
}
