/**
 * `MetaCommentService`: a poller that caches every new ad comment by id,
 * classifies its sentiment with a language model, and announces it to the
 * registered handlers; plus replying to and hiding comments. The network
 * answers and the model's replies are parameters; the polling timer is left
 * out, so each poll is one call of `FetchNewComments`.
 */
module CommentService {
  import opened Wrappers
  import opened Comments
  import Text
  import Sorting

  // ---------------------------------------------------------------- sentiment from the model's reply

  function Word(s: Sentiment): string {
    match s
    case Positive => "positive"
    case Negative => "negative"
    case Neutral => "neutral"
    case Spam => "spam"
  }

  /** The label whose word starts at position `i`, if any (the words start differently, so at most one does, except for the two `n` words, which differ at the second letter). */
  function LabelAt(s: string, i: nat): (r: Option<Sentiment>)
    ensures r.Some? ==> Text.At(s, Word(r.value), i)
    ensures r.None? ==> forall l :: !Text.At(s, Word(l), i)
  {
    if Text.At(s, "positive", i) then Some(Positive)
    else if Text.At(s, "negative", i) then Some(Negative)
    else if Text.At(s, "neutral", i) then Some(Neutral)
    else if Text.At(s, "spam", i) then Some(Spam)
    else None
  }

  /** `/(positive|negative|neutral|spam)/` from position `i`: the leftmost label word. */
  function FirstLabel(s: string, i: nat): (r: Option<Sentiment>)
    ensures r.Some? ==> exists k :: i <= k && Text.At(s, Word(r.value), k) && forall j, l :: i <= j < k ==> !Text.At(s, Word(l), j)
    ensures r.None? ==> forall j, l :: i <= j ==> !Text.At(s, Word(l), j)
    decreases |s| - i
  {
    if i >= |s| then
      assert forall j, l :: i <= j ==> !Text.At(s, Word(l), j) by {
        forall j, l | i <= j ensures !Text.At(s, Word(l), j) {
          assert |Word(l)| > 0;
        }
      }
      None
    else
      match LabelAt(s, i)
      case Some(l) => Some(l)
      case None => FirstLabel(s, i + 1)
  }

  /**
   * `processComment`'s sentiment: the first label word in the lower-cased
   * reply, or `'neutral'` when there is none or the model call failed (None).
   */
  function SentimentOf(reply: Option<string>): Sentiment {
    match reply
    case None => Neutral
    case Some(text) => FirstLabel(Text.Lower(text), 0).GetOr(Neutral)
  }

  /** The label words are lower case. */
  lemma WordLower(l: Sentiment)
    ensures forall i :: 0 <= i < |Word(l)| ==> !('A' <= Word(l)[i] <= 'Z')
  {
  }

  /** Text starting with a label word is read as that label (no word checked earlier starts it). */
  lemma LabelAtWord(s: string, l: Sentiment)
    requires Text.At(s, Word(l), 0)
    ensures LabelAt(s, 0) == Some(l)
  {
    assert s[..|Word(l)|] == Word(l);
    assert s[0] == Word(l)[0] && s[2] == Word(l)[2];
    assert Text.At(s, "positive", 0) ==> s[0] == 'p';
    assert Text.At(s, "negative", 0) ==> s[2] == 'g';
    assert Text.At(s, "neutral", 0) ==> s[2] == 'u';
  }

  /** A reply naming exactly one label gets that label. */
  lemma SentimentOfWord(l: Sentiment)
    ensures SentimentOf(Some(Word(l))) == l
  {
    var w := Word(l);
    WordLower(l);
    Text.LowerKeeps(w);
    assert w[..|w|] == w;
    LabelAtWord(w, l);
  }

  // ---------------------------------------------------------------- polls, as a specification

  /** One handler call: which registered handler received which comment. */
  datatype Notice = Notice(handler: nat, comment: Comment)

  /** `commentCache` (with its insertion order) and the handler calls made so far. */
  datatype Store = Store(cache: map<string, Comment>, order: seq<string>, notices: seq<Notice>)

  /** `notifyHandlers(c)`: each handler, in registration order, receives `c`. */
  function Announce(handlers: seq<nat>, c: Comment): (r: seq<Notice>)
    ensures |r| == |handlers|
    ensures forall k :: 0 <= k < |r| ==> r[k] == Notice(handlers[k], c)
  {
    if handlers == [] then [] else Announce(handlers[..|handlers| - 1], c) + [Notice(handlers[|handlers| - 1], c)]
  }

  /** The enriched comment: pending, tagged with its ad, classified by the model's reply to its message. */
  function Enrich(item: Item, classifier: string -> Option<string>): (c: Comment)
    ensures c.id == item.raw.id && c.status == Some(Pending) && c.adId == Some(item.adId)
    ensures c.sentiment == Some(SentimentOf(classifier(item.raw.message)))
  {
    var raw := item.raw;
    Comment(raw.id, raw.message, raw.fromName, raw.createdTime,
            Some(SentimentOf(classifier(raw.message))), Some(Pending), Some(item.adId))
  }

  /** One visit of the inner loop: a comment whose id is cached is skipped. */
  function Absorb(st: Store, handlers: seq<nat>, item: Item, classifier: string -> Option<string>): Store {
    if item.raw.id in st.cache then st
    else
      var c := Enrich(item, classifier);
      Store(st.cache[item.raw.id := c], st.order + [item.raw.id], st.notices + Announce(handlers, c))
  }

  /** A whole poll over the flattened comments. */
  function AbsorbAll(st: Store, handlers: seq<nat>, items: seq<Item>, classifier: string -> Option<string>): Store {
    if items == [] then st
    else Absorb(AbsorbAll(st, handlers, items[..|items| - 1], classifier), handlers, items[|items| - 1], classifier)
  }

  /** The cache and its insertion order agree: each cached id once, filed under its own id. */
  ghost predicate Coherent(st: Store) {
    (forall i, j :: 0 <= i < j < |st.order| ==> st.order[i] != st.order[j])
    && (forall id :: id in st.cache <==> id in st.order)
    && (forall id :: id in st.cache ==> st.cache[id].id == id)
  }

  /** The comments announced for the ids `ids`, each to every handler. */
  function AnnounceEach(handlers: seq<nat>, cache: map<string, Comment>, ids: seq<string>): seq<Notice>
    requires forall id :: id in ids ==> id in cache
  {
    if ids == [] then []
    else AnnounceEach(handlers, cache, ids[..|ids| - 1]) + Announce(handlers, cache[ids[|ids| - 1]])
  }

  lemma {:induction false} AnnounceEachFrame(handlers: seq<nat>, cache: map<string, Comment>, id: string, c: Comment, ids: seq<string>)
    requires forall x :: x in ids ==> x in cache && x != id
    ensures AnnounceEach(handlers, cache[id := c], ids) == AnnounceEach(handlers, cache, ids)
  {
    if ids != [] {
      forall x | x in ids[..|ids| - 1] ensures x in cache && x != id {
        var k :| 0 <= k < |ids| - 1 && ids[..|ids| - 1][k] == x;
        assert ids[k] == x;
      }
      AnnounceEachFrame(handlers, cache, id, c, ids[..|ids| - 1]);
    }
  }

  /** One visit keeps the store coherent, extends the order, and keeps every cached entry. */
  lemma AbsorbKeeps(p: Store, handlers: seq<nat>, item: Item, classifier: string -> Option<string>)
    requires Coherent(p)
    ensures var r := Absorb(p, handlers, item, classifier);
            Coherent(r)
            && |p.order| <= |r.order| && r.order[..|p.order|] == p.order
            && (forall id :: id in p.cache ==> id in r.cache && r.cache[id] == p.cache[id])
            && (forall id :: id in r.cache <==> id in p.cache || id == item.raw.id)
            && (forall id :: id in r.cache && id !in p.cache ==> r.cache[id].status == Some(Pending) && r.cache[id].adId.Some?)
  {
    var r := Absorb(p, handlers, item, classifier);
    if item.raw.id !in p.cache {
      assert r.order[..|p.order|] == p.order;
    }
  }

  /** The ids of the fetched items, in order. */
  function ItemIds(items: seq<Item>): (r: seq<string>)
    ensures |r| == |items| && forall k :: 0 <= k < |items| ==> r[k] == items[k].raw.id
  {
    seq(|items|, k requires 0 <= k < |items| => items[k].raw.id)
  }

  /**
   * A poll keeps the store coherent, never touches a cached comment, and
   * files each new id once, pending and tagged with its ad.
   */
  lemma {:induction false} PollKeeps(st: Store, handlers: seq<nat>, items: seq<Item>, classifier: string -> Option<string>)
    requires Coherent(st)
    ensures var r := AbsorbAll(st, handlers, items, classifier);
            Coherent(r)
            && |st.order| <= |r.order| && r.order[..|st.order|] == st.order
            && (forall id :: id in st.cache ==> id in r.cache && r.cache[id] == st.cache[id])
            && (forall id :: id in r.cache && id !in st.cache ==> r.cache[id].status == Some(Pending) && r.cache[id].adId.Some?)
    decreases |items|
  {
    if items != [] {
      var init := items[..|items| - 1];
      PollKeeps(st, handlers, init, classifier);
      var p := AbsorbAll(st, handlers, init, classifier);
      AbsorbKeeps(p, handlers, items[|items| - 1], classifier);
      var r := AbsorbAll(st, handlers, items, classifier);
      assert r.order[..|st.order|] == p.order[..|st.order|];
    }
  }

  lemma AbsorbAllSnoc(st: Store, handlers: seq<nat>, items: seq<Item>, item: Item, classifier: string -> Option<string>)
    ensures AbsorbAll(st, handlers, items + [item], classifier) == Absorb(AbsorbAll(st, handlers, items, classifier), handlers, item, classifier)
  {
    assert (items + [item])[..|items|] == items;
  }

  lemma {:induction false} AbsorbAllAppend(st: Store, handlers: seq<nat>, xs: seq<Item>, ys: seq<Item>, classifier: string -> Option<string>)
    ensures AbsorbAll(st, handlers, xs + ys, classifier) == AbsorbAll(AbsorbAll(st, handlers, xs, classifier), handlers, ys, classifier)
    decreases |ys|
  {
    if ys == [] {
      assert xs + ys == xs;
    } else {
      AbsorbAllAppend(st, handlers, xs, ys[..|ys| - 1], classifier);
      assert (xs + ys)[..|xs + ys| - 1] == xs + ys[..|ys| - 1];
    }
  }

  /** After a poll the cache holds exactly the ids it held and the ids fetched. */
  lemma {:induction false} PollCaches(st: Store, handlers: seq<nat>, items: seq<Item>, classifier: string -> Option<string>)
    ensures forall id :: id in AbsorbAll(st, handlers, items, classifier).cache <==> id in st.cache || id in ItemIds(items)
    decreases |items|
  {
    if items != [] {
      var init := items[..|items| - 1];
      PollCaches(st, handlers, init, classifier);
      assert ItemIds(items) == ItemIds(init) + [items[|items| - 1].raw.id];
    }
  }

  lemma AnnouncesStep(st: Store, p: Store, handlers: seq<nat>, item: Item, classifier: string -> Option<string>)
    requires |st.order| <= |p.order| && forall x :: x in p.order ==> x in p.cache
    requires p.notices == st.notices + AnnounceEach(handlers, p.cache, p.order[|st.order|..])
    ensures var r := Absorb(p, handlers, item, classifier);
            r.notices == st.notices + AnnounceEach(handlers, r.cache, r.order[|st.order|..])
  {
    var id := item.raw.id;
    if id !in p.cache {
      var c := Enrich(item, classifier);
      var r := Absorb(p, handlers, item, classifier);
      assert r == Store(p.cache[id := c], p.order + [id], p.notices + Announce(handlers, c));
      NoticesGrow(st.notices, handlers, p.cache, p.order[|st.order|..], id, c);
      assert (p.order + [id])[|st.order|..] == p.order[|st.order|..] + [id];
    }
  }

  /** The notices after a new comment is filed under an id not cached before. */
  lemma NoticesGrow(before: seq<Notice>, handlers: seq<nat>, cache: map<string, Comment>, added: seq<string>, id: string, c: Comment)
    requires id !in cache && forall x :: x in added ==> x in cache
    ensures before + AnnounceEach(handlers, cache, added) + Announce(handlers, c)
         == before + AnnounceEach(handlers, cache[id := c], added + [id])
  {
    forall x | x in added ensures x in cache && x != id {
    }
    AnnounceEachFrame(handlers, cache, id, c, added);
    AnnounceEachSnoc(handlers, cache[id := c], added, id);
  }

  /** Announcing one more id appends that comment's notices. */
  lemma AnnounceEachSnoc(handlers: seq<nat>, cache: map<string, Comment>, ids: seq<string>, id: string)
    requires forall x :: x in ids ==> x in cache
    requires id in cache
    ensures AnnounceEach(handlers, cache, ids + [id]) == AnnounceEach(handlers, cache, ids) + Announce(handlers, cache[id])
  {
    assert (ids + [id])[..|ids|] == ids;
  }

  /** A poll announces exactly the new comments, each once to every handler, in the order they were first seen. */
  lemma {:induction false} PollAnnounces(st: Store, handlers: seq<nat>, items: seq<Item>, classifier: string -> Option<string>)
    requires Coherent(st)
    ensures var r := AbsorbAll(st, handlers, items, classifier);
            |st.order| <= |r.order|
            && (forall id :: id in r.order ==> id in r.cache)
            && r.notices == st.notices + AnnounceEach(handlers, r.cache, r.order[|st.order|..])
    decreases |items|
  {
    PollKeeps(st, handlers, items, classifier);
    if items == [] {
      assert st.order[|st.order|..] == [];
    } else {
      var init := items[..|items| - 1];
      PollAnnounces(st, handlers, init, classifier);
      PollKeeps(st, handlers, init, classifier);
      AnnouncesStep(st, AbsorbAll(st, handlers, init, classifier), handlers, items[|items| - 1], classifier);
    }
  }

  /** A comment already cached is neither re-processed nor re-announced, however often it is fetched again. */
  lemma {:induction false} CachedNeverReannounced(st: Store, handlers: seq<nat>, items: seq<Item>, classifier: string -> Option<string>)
    requires forall k :: 0 <= k < |items| ==> items[k].raw.id in st.cache
    ensures AbsorbAll(st, handlers, items, classifier) == st
    decreases |items|
  {
    if items != [] {
      CachedNeverReannounced(st, handlers, items[..|items| - 1], classifier);
    }
  }

  /** In a coherent store the order lists the cached ids exactly once, so it is as long as the cache. */
  lemma OrderMatchesDomain(st: Store)
    requires Coherent(st)
    ensures |st.order| == |st.cache.Keys|
  {
    DistinctCard(st.order);
    assert st.cache.Keys == set id | id in st.order;
  }

  lemma {:induction false} DistinctCard(s: seq<string>)
    requires forall i, j :: 0 <= i < j < |s| ==> s[i] != s[j]
    ensures |set id | id in s| == |s|
  {
    if s != [] {
      var init := s[..|s| - 1];
      DistinctCard(init);
      assert (set id | id in s) == (set id | id in init) + {s[|s| - 1]};
      assert s[|s| - 1] !in (set id | id in init);
    }
  }

  // ---------------------------------------------------------------- the service

  /** What a poll fetched: the ads, or a failure (an error body or a thrown fetch), which is only logged. */
  datatype Fetched = Ads(ads: seq<Ad>) | FetchFailed(message: string)

  /** `getComments`' filter: each given field must match. */
  datatype Filter = Filter(status: Option<Status>, sentiment: Option<Sentiment>)

  predicate Matches(c: Comment, f: Filter) {
    (f.status.None? || c.status == f.status) && (f.sentiment.None? || c.sentiment == f.sentiment)
  }

  /** `Array.filter` with the filter's fields: the matching comments, in their order and with their repeats. */
  function Keep(cs: seq<Comment>, f: Filter): (r: seq<Comment>)
    ensures r == Sorting.Keep(cs, c => Matches(c, f))
    ensures forall c :: c in r <==> c in cs && Matches(c, f)
    ensures |r| <= |cs|
  {
    if cs == [] then [] else (if Matches(cs[0], f) then [cs[0]] else []) + Keep(cs[1..], f)
  }

  class MetaCommentService {
    var cache: map<string, Comment>
    var order: seq<string>
    var handlers: seq<nat>
    ghost var notices: seq<Notice>

    ghost predicate Valid()
      reads this
    {
      Coherent(Store(cache, order, notices))
      && NoRepeats(handlers)
    }

    constructor ()
      ensures Valid()
      ensures cache == map[] && order == [] && handlers == [] && notices == []
    {
      cache, order, handlers, notices := map[], [], [], [];
    }

    /** `notifyHandlers(c)`. */
    method NotifyHandlers(c: Comment)
      modifies this
      ensures notices == old(notices) + Announce(handlers, c)
      ensures cache == old(cache) && order == old(order) && handlers == old(handlers)
    {
      for k := 0 to |handlers|
        invariant notices == old(notices) + Announce(handlers[..k], c)
        invariant cache == old(cache) && order == old(order) && handlers == old(handlers)
      {
        assert handlers[..k + 1][..k] == handlers[..k];
        notices := notices + [Notice(handlers[k], c)];
      }
      assert handlers[..|handlers|] == handlers;
    }

    /** The inner loop's body: a comment not yet cached is enriched, cached and announced. */
    method Ingest(item: Item, classifier: string -> Option<string>, ghost start: Store, ghost seen: seq<Item>)
      requires Store(cache, order, notices) == AbsorbAll(start, handlers, seen, classifier)
      modifies this
      ensures handlers == old(handlers)
      ensures Store(cache, order, notices) == Absorb(Store(old(cache), old(order), old(notices)), handlers, item, classifier)
      ensures Store(cache, order, notices) == AbsorbAll(start, handlers, seen + [item], classifier)
    {
      AbsorbAllSnoc(start, handlers, seen, item, classifier);
      if item.raw.id !in cache {
        var c := Enrich(item, classifier);
        cache := cache[item.raw.id := c];
        order := order + [item.raw.id];
        NotifyHandlers(c);
      }
    }

    /** One poll, `fetchNewComments`, with `classifier` standing for the model's reply to each message. */
    method FetchNewComments(response: Fetched, classifier: string -> Option<string>)
      requires Valid()
      modifies this
      ensures Valid()
      ensures handlers == old(handlers)
      ensures response.FetchFailed? ==> cache == old(cache) && order == old(order) && notices == old(notices)
      ensures response.Ads? ==>
                Store(cache, order, notices) == AbsorbAll(Store(old(cache), old(order), old(notices)), handlers, Flatten(response.ads), classifier)
    {
      if response.FetchFailed? {
        return;
      }
      ghost var start := Store(cache, order, notices);
      ghost var done: seq<Item> := [];
      var ads := response.ads;
      var i := 0;
      while i < |ads|
        invariant 0 <= i <= |ads|
        invariant handlers == old(handlers)
        invariant done == Flatten(ads[..i])
        invariant Store(cache, order, notices) == AbsorbAll(start, handlers, done, classifier)
      {
        assert ads[..i + 1][..i] == ads[..i];
        IngestAd(ads[i], classifier);
        AbsorbAllAppend(start, handlers, done, ItemsOf(ads[i]), classifier);
        done := done + ItemsOf(ads[i]);
        i := i + 1;
      }
      assert ads[..i] == ads;
      PollKeeps(start, handlers, done, classifier);
    }

    /** The inner loop of `fetchNewComments`: every comment of one ad, in order. */
    method IngestAd(ad: Ad, classifier: string -> Option<string>)
      modifies this
      ensures handlers == old(handlers)
      ensures Store(cache, order, notices) == AbsorbAll(Store(old(cache), old(order), old(notices)), handlers, ItemsOf(ad), classifier)
    {
      ghost var s0 := Store(cache, order, notices);
      match ad.comments {
        case None =>
        case Some(cs) =>
          ghost var items := ItemsOf(ad);
          assert items[..0] == [];
          for j := 0 to |cs|
            invariant handlers == old(handlers)
            invariant Store(cache, order, notices) == AbsorbAll(s0, handlers, items[..j], classifier)
          {
            var item := Item(cs[j], ad.id);
            Ingest(item, classifier, s0, items[..j]);
            assert items[..j + 1] == items[..j] + [item];
          }
          assert items[..|cs|] == items;
      }
    }

    /** `replyToComment(id, message)`: on success the cached comment, if any, becomes handled. */
    method ReplyToComment(commentId: string, answer: Posted) returns (r: Result<()>)
      requires Valid()
      modifies this
      ensures Valid()
      ensures handlers == old(handlers) && order == old(order) && notices == old(notices)
      ensures answer.Refused? ==> r == Err(answer.message) && cache == old(cache)
      ensures answer.Posted? ==> r.Ok? && cache == (if commentId in old(cache) then old(cache)[commentId := MarkHandled(old(cache)[commentId])] else old(cache))
    {
      if answer.Refused? {
        return Err(answer.message);
      }
      if commentId in cache {
        cache := cache[commentId := MarkHandled(cache[commentId])];
      }
      r := Ok(());
    }

    /** `hideComment(id)`: reports the API's answer and leaves the cache alone. */
    method HideComment(commentId: string, answer: Posted) returns (r: Result<()>)
      ensures answer.Refused? <==> r.Err?
      ensures answer.Refused? ==> r.message == answer.message
    {
      if answer.Refused? {
        return Err(answer.message);
      }
      r := Ok(());
    }

    /** `onNewComment(handler)`: registers the handler (a `Set`, so once). */
    method OnNewComment(handler: nat)
      requires Valid()
      modifies this
      ensures Valid()
      ensures handlers == Subscribe(old(handlers), handler)
      ensures cache == old(cache) && order == old(order) && notices == old(notices)
    {
      if handler !in handlers {
        handlers := handlers + [handler];
      }
    }

    /** The unsubscribe function `onNewComment` returns: deletes exactly that handler. */
    method Unsubscribe(handler: nat)
      requires Valid()
      modifies this
      ensures Valid()
      ensures handlers == Unsubscribed(old(handlers), handler)
      ensures cache == old(cache) && order == old(order) && notices == old(notices)
    {
      UnsubscribedNoRepeats(handlers, handler);
      handlers := Unsubscribed(handlers, handler);
    }

    /** The cached comments in insertion order: `Array.from(commentCache.values())`. */
    function Values(): (r: seq<Comment>)
      reads this
      requires Valid()
      ensures |r| == |order|
      ensures forall k :: 0 <= k < |order| ==> r[k] == cache[order[k]]
    {
      seq(|order|, k reads this requires 0 <= k < |order| && Valid() => cache[order[k]])
    }

    /** `getComments(filter)`. */
    function GetComments(filter: Option<Filter>): (r: seq<Comment>)
      reads this
      requires Valid()
      ensures filter.None? ==> r == Values()
      ensures filter.Some? ==> r == Sorting.Keep(Values(), c => Matches(c, filter.value))
      ensures filter.Some? ==> forall c :: c in r <==> c in Values() && Matches(c, filter.value)
    {
      match filter
      case None => Values()
      case Some(f) => Keep(Values(), f)
    }
  }

  predicate NoRepeats(hs: seq<nat>) {
    forall i, j :: 0 <= i < j < |hs| ==> hs[i] != hs[j]
  }

  /** Adding a handler to the `Set`: no change if it is already there. */
  function Subscribe(hs: seq<nat>, h: nat): (r: seq<nat>)
    ensures h in r
    ensures forall x :: x in r <==> x in hs || x == h
  {
    if h in hs then hs else hs + [h]
  }

  /** Deleting a handler from the `Set`. */
  function Unsubscribed(hs: seq<nat>, h: nat): (r: seq<nat>)
    ensures forall x :: x in r <==> x in hs && x != h
  {
    if hs == [] then []
    else (if hs[0] == h then [] else [hs[0]]) + Unsubscribed(hs[1..], h)
  }

  lemma {:induction false} UnsubscribedNoRepeats(hs: seq<nat>, h: nat)
    requires NoRepeats(hs)
    ensures NoRepeats(Unsubscribed(hs, h))
  {
    if hs != [] {
      UnsubscribedNoRepeats(hs[1..], h);
      assert hs[0] !in hs[1..];
      assert hs[0] !in Unsubscribed(hs[1..], h);
    }
  }

  /** Unsubscribing right after subscribing a new handler restores the handler set exactly. */
  lemma {:induction false} SubscribeThenUnsubscribe(hs: seq<nat>, h: nat)
    requires h !in hs
    ensures Unsubscribed(Subscribe(hs, h), h) == hs
  {
    UnsubscribedAbsent(hs, h);
    UnsubscribedAppend(hs, h);
  }

  lemma {:induction false} UnsubscribedAbsent(hs: seq<nat>, h: nat)
    requires h !in hs
    ensures Unsubscribed(hs, h) == hs
  {
    if hs != [] {
      UnsubscribedAbsent(hs[1..], h);
      assert hs == [hs[0]] + hs[1..];
    }
  }

  lemma {:induction false} UnsubscribedAppend(hs: seq<nat>, h: nat)
    ensures Unsubscribed(hs + [h], h) == Unsubscribed(hs, h)
  {
    if hs == [] {
      assert Unsubscribed([h], h) == [] + Unsubscribed([], h);
    } else {
      assert (hs + [h])[1..] == hs[1..] + [h];
      UnsubscribedAppend(hs[1..], h);
    }
  }
}
