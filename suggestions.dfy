/**
 * `OpenAIService`: interest suggestions and interest exploration through a
 * language model, behind a shared five-minute cache. The completion the
 * model returns is a parameter; what is modelled is the guarding, the cache
 * keys and freshness, the extraction of `[...]` groups from the reply, and
 * the wrapping of every error.
 */
module Suggestions {
  import opened Wrappers
  import Text
  import Sorting

  /** `CACHE_DURATION`: five minutes in milliseconds. */
  const CacheDuration: int := 5 * 60 * 1000

  /** The most suggestions kept: `.slice(0, 5)`. */
  const MaxSuggestions: nat := 5

  // ---------------------------------------------------------------- errors

  /** What the wrapped operation threw: an `Error` with a message, or some other value. */
  datatype Thrown = ErrorWith(message: string) | NonError

  /** The error `makeRequest` rethrows. */
  function Wrap(t: Thrown): (m: string)
    ensures t.ErrorWith? ==> m == "OpenAI API Error: " + t.message
    ensures t.NonError? ==> m == "An unexpected error occurred while calling OpenAI API"
  {
    match t
    case ErrorWith(message) => "OpenAI API Error: " + message
    case NonError => "An unexpected error occurred while calling OpenAI API"
  }

  const KeyMissing := ErrorWith("OpenAI API key is not configured")
  const NoInterests := ErrorWith("At least one interest is required")
  const NoSuggestions := ErrorWith("No valid suggestions could be generated")

  /** What the completion call gave: the reply's content (None for `null`), or a thrown value. */
  datatype Completion = Replied(content: Option<string>) | Threw(thrown: Thrown)

  // ---------------------------------------------------------------- extracting `[...]` groups

  /** The characters `.` does not match in a JavaScript regular expression. */
  predicate IsLineTerminator(c: char) {
    c == '\n' || c == '\r' || c == '\U{2028}' || c == '\U{2029}'
  }

  /** The first `]` at or after `from`, provided no line terminator comes before it. */
  function CloseAt(s: string, from: nat): (r: Option<nat>)
    ensures r.Some? ==> from <= r.value < |s| && s[r.value] == ']'
    ensures r.Some? ==> forall k :: from <= k < r.value ==> s[k] != ']' && !IsLineTerminator(s[k])
    ensures r.None? ==> forall k :: from <= k < |s| && s[k] == ']' ==>
                          exists m :: from <= m < k && IsLineTerminator(s[m])
    decreases |s| - from
  {
    if from >= |s| then None
    else if s[from] == ']' then Some(from)
    else if IsLineTerminator(s[from]) then None
    else CloseAt(s, from + 1)
  }

  /**
   * `s.match(/\[(.*?)\]/g)?.map(m => m.slice(1, -1)) || []`: each `[`
   * followed, on the same line, by a `]` yields the text between them, and
   * the search resumes after that `]`.
   */
  function Brackets(s: string): seq<string>
    decreases |s|
  {
    if s == [] then []
    else if s[0] == '[' then
      match CloseAt(s, 1)
      case Some(j) => [s[1..j]] + Brackets(s[j + 1..])
      case None => Brackets(s[1..])
    else Brackets(s[1..])
  }

  /** The filter's test `s => s && !currentInterests.includes(s)`. */
  function IsNew(interests: seq<string>): string -> bool {
    (g: string) => g != "" && g !in interests
  }

  /** `.filter(s => s && !currentInterests.includes(s))`: the new non-empty groups, in reply order and with their repeats. */
  function KeepNew(groups: seq<string>, interests: seq<string>): (r: seq<string>)
    ensures r == Sorting.Keep(groups, IsNew(interests))
    ensures forall k :: 0 <= k < |r| ==> r[k] != "" && r[k] !in interests
    ensures forall g :: g in groups && g != "" && g !in interests ==> g in r
    ensures forall x :: x in r ==> x in groups
    ensures |r| <= |groups|
  {
    if groups == [] then []
    else
      var rest := KeepNew(groups[1..], interests);
      if groups[0] != "" && groups[0] !in interests then [groups[0]] + rest else rest
  }

  /** The suggestions extracted from a reply: new, non-empty bracket groups, at most five, in order. */
  function Extract(content: Option<string>, interests: seq<string>): (r: seq<string>)
    ensures |r| <= MaxSuggestions
    ensures forall k :: 0 <= k < |r| ==> r[k] != "" && r[k] !in interests
    ensures content.None? ==> r == []
  {
    match content
    case None => []
    case Some(text) =>
      var kept := KeepNew(Brackets(text), interests);
      if |kept| <= MaxSuggestions then kept else kept[..MaxSuggestions]
  }

  /** The reply format the prompt asks for: each interest in brackets on its own line. */
  function Render(names: seq<string>): string {
    if names == [] then "" else "[" + names[0] + "]\n" + Render(names[1..])
  }

  /** A name that fits between brackets on one line. */
  predicate Bracketable(name: string) {
    forall k :: 0 <= k < |name| ==> name[k] != ']' && !IsLineTerminator(name[k])
  }

  /** Extraction reads back every name rendered in the requested format. */
  lemma {:induction false} BracketsOfRender(names: seq<string>)
    requires forall i :: 0 <= i < |names| ==> Bracketable(names[i])
    ensures Brackets(Render(names)) == names
  {
    if names != [] {
      var n := names[0];
      var rest := Render(names[1..]);
      var s := Render(names);
      assert s == "[" + n + "]\n" + rest;
      assert CloseAt(s, 1) == Some(|n| + 1) by {
        CloseAtSkips(s, 1, |n| + 1);
      }
      assert s[1..|n| + 1] == n;
      assert s[|n| + 2..] == "\n" + rest;
      assert ("\n" + rest)[1..] == rest;
      BracketsOfRender(names[1..]);
    }
  }

  lemma {:induction false} CloseAtSkips(s: string, from: nat, j: nat)
    requires from <= j < |s| && s[j] == ']'
    requires forall k :: from <= k < j ==> s[k] != ']' && !IsLineTerminator(s[k])
    ensures CloseAt(s, from) == Some(j)
    decreases j - from
  {
    if from < j {
      CloseAtSkips(s, from + 1, j);
    }
  }

  /** A reply in the requested format, with new and distinct names, yields the first five of them. */
  lemma ExtractRendered(names: seq<string>, interests: seq<string>)
    requires forall i :: 0 <= i < |names| ==> Bracketable(names[i]) && names[i] != "" && names[i] !in interests
    ensures Extract(Some(Render(names)), interests)
            == if |names| <= MaxSuggestions then names else names[..MaxSuggestions]
  {
    BracketsOfRender(names);
    KeepNewKeepsAll(names, interests);
  }

  lemma {:induction false} KeepNewKeepsAll(groups: seq<string>, interests: seq<string>)
    requires forall i :: 0 <= i < |groups| ==> groups[i] != "" && groups[i] !in interests
    ensures KeepNew(groups, interests) == groups
  {
    if groups != [] {
      KeepNewKeepsAll(groups[1..], interests);
      assert groups == [groups[0]] + groups[1..];
    }
  }

  // ---------------------------------------------------------------- the cache

  datatype Cached = Cached(data: seq<string>, timestamp: int)

  /** `Date.now() - cached.timestamp < CACHE_DURATION`. */
  predicate Fresh(c: Cached, now: int) {
    now - c.timestamp < CacheDuration
  }

  /** The cache key of a suggestion request: the interests sorted and joined with commas. */
  function SuggestionKey(sorted: seq<string>): string {
    Text.Join(sorted, ",")
  }

  /** The cache key of an exploration. */
  function ExploreKey(interest: string): string {
    "explore_" + interest
  }

  /** Every cached list holds one to five entries, so `cached.data[0]` always exists. */
  ghost predicate CacheValid(cache: map<string, Cached>) {
    forall k :: k in cache ==> 0 < |cache[k].data| <= MaxSuggestions
  }

  /** The outcome of `generateInterestSuggestions` on already-sorted interests, and the cache after it. */
  datatype Step<T> = Step(result: Result<T>, cache: map<string, Cached>)

  function SuggestStep(keyConfigured: bool, cache: map<string, Cached>, sorted: seq<string>, now: int, completion: Completion): (s: Step<seq<string>>)
    ensures !keyConfigured ==> s == Step(Err(Wrap(KeyMissing)), cache)
    ensures keyConfigured && sorted == [] ==> s == Step(Err(Wrap(NoInterests)), cache)
    ensures CacheValid(cache) && s.result.Ok? ==> 0 < |s.result.value| <= MaxSuggestions
    ensures s.result.Err? ==> s.cache == cache
    ensures CacheValid(cache) ==> CacheValid(s.cache)
  {
    if !keyConfigured then Step(Err(Wrap(KeyMissing)), cache)
    else if sorted == [] then Step(Err(Wrap(NoInterests)), cache)
    else
      var key := SuggestionKey(sorted);
      if key in cache && Fresh(cache[key], now) then
        Step(Ok(cache[key].data), cache)
      else
        match completion
        case Threw(t) => Step(Err(Wrap(t)), cache)
        case Replied(content) =>
          var suggestions := Extract(content, sorted);
          if suggestions == [] then Step(Err(Wrap(NoSuggestions)), cache)
          else Step(Ok(suggestions), cache[key := Cached(suggestions, now)])
  }

  /** The outcome of `exploreInterest`, and the cache after it. */
  function ExploreStep(keyConfigured: bool, cache: map<string, Cached>, interest: string, now: int, completion: Completion): (s: Step<string>)
    requires CacheValid(cache)
    ensures !keyConfigured ==> s == Step(Err(Wrap(KeyMissing)), cache)
    ensures s.result.Err? ==> s.cache == cache
    ensures CacheValid(s.cache)
  {
    if !keyConfigured then Step(Err(Wrap(KeyMissing)), cache)
    else
      var key := ExploreKey(interest);
      if key in cache && Fresh(cache[key], now) then Step(Ok(cache[key].data[0]), cache)
      else
        match completion
        case Threw(t) => Step(Err(Wrap(t)), cache)
        case Replied(content) =>
          var result := if content == None || content == Some("") then "No recommendations available." else content.value;
          Step(Ok(result), cache[key := Cached([result], now)])
  }

  /** The service: its static suggestion cache as a field, and whether an API key is configured. */
  class SuggestionService {
    const keyConfigured: bool
    var cache: map<string, Cached>

    ghost predicate Valid()
      reads this
    {
      CacheValid(cache)
    }

    constructor (keyConfigured: bool)
      ensures Valid() && cache == map[] && this.keyConfigured == keyConfigured
    {
      this.keyConfigured := keyConfigured;
      cache := map[];
    }

    /**
     * `generateInterestSuggestions(currentInterests)` at time `now`; the
     * caller's array is sorted in place before the key is built.
     */
    method GenerateInterestSuggestions(currentInterests: array<string>, now: int, completion: Completion)
      returns (r: Result<seq<string>>)
      requires Valid()
      modifies this, currentInterests
      ensures Valid()
      ensures keyConfigured && currentInterests.Length > 0 ==>
                Sorting.SortedBy(currentInterests[..], Text.StrLe)
                && multiset(currentInterests[..]) == multiset(old(currentInterests[..]))
      ensures !(keyConfigured && currentInterests.Length > 0) ==> currentInterests[..] == old(currentInterests[..])
      ensures Step(r, cache) == SuggestStep(keyConfigured, old(cache), currentInterests[..], now, completion)
    {
      if !keyConfigured {
        return Err(Wrap(KeyMissing));
      }
      if currentInterests.Length == 0 {
        return Err(Wrap(NoInterests));
      }
      Text.StrLeTotalOrder();
      Sorting.SortInPlace(currentInterests, Text.StrLe);
      var key := SuggestionKey(currentInterests[..]);
      if key in cache && now - cache[key].timestamp < CacheDuration {
        return Ok(cache[key].data);
      }
      match completion {
        case Threw(t) =>
          r := Err(Wrap(t));
        case Replied(content) =>
          var suggestions := Extract(content, currentInterests[..]);
          if |suggestions| == 0 {
            return Err(Wrap(NoSuggestions));
          }
          cache := cache[key := Cached(suggestions, now)];
          r := Ok(suggestions);
      }
    }

    /** `exploreInterest(interest)` at time `now`. */
    method ExploreInterest(interest: string, now: int, completion: Completion) returns (r: Result<string>)
      requires Valid()
      modifies this
      ensures Valid()
      ensures Step(r, cache) == ExploreStep(keyConfigured, old(cache), interest, now, completion)
    {
      if !keyConfigured {
        return Err(Wrap(KeyMissing));
      }
      var key := ExploreKey(interest);
      if key in cache && now - cache[key].timestamp < CacheDuration {
        return Ok(cache[key].data[0]);
      }
      match completion {
        case Threw(t) =>
          r := Err(Wrap(t));
        case Replied(content) =>
          var result := if content == None || content == Some("") then "No recommendations available." else content.value;
          cache := cache[key := Cached([result], now)];
          r := Ok(result);
      }
    }
  }

  // ---------------------------------------------------------------- what the service promises

  /** The same interests in any order give the same cache key once sorted. */
  lemma SameInterestsSameKey(s: seq<string>, t: seq<string>)
    requires Sorting.SortedBy(s, Text.StrLe) && Sorting.SortedBy(t, Text.StrLe)
    requires multiset(s) == multiset(t)
    ensures SuggestionKey(s) == SuggestionKey(t)
  {
    Text.StrLeTotalOrder();
    Sorting.SortedUnique(s, t, Text.StrLe);
  }

  /** Suggestions fetched and stored at `t` are served, whatever the model would say, until just before `t + CACHE_DURATION`. */
  lemma SuggestionsServedWhileFresh(cache: map<string, Cached>, sorted: seq<string>, t: int, later: int,
                                    completion: Completion, next: Completion)
    requires CacheValid(cache)
    requires SuggestionKey(sorted) !in cache || !Fresh(cache[SuggestionKey(sorted)], t)
    requires SuggestStep(true, cache, sorted, t, completion).result.Ok?
    requires t <= later < t + CacheDuration
    ensures var first := SuggestStep(true, cache, sorted, t, completion);
            SuggestStep(true, first.cache, sorted, later, next) == first
  {
  }

  /** At exactly `t + CACHE_DURATION` the stored suggestions are stale and the model is asked again. */
  lemma SuggestionsStaleAtBoundary(cache: map<string, Cached>, sorted: seq<string>, t: int, completion: Completion)
    requires sorted != []
    requires SuggestionKey(sorted) in cache && cache[SuggestionKey(sorted)].timestamp == t
    ensures SuggestStep(true, cache, sorted, t + CacheDuration, Threw(NonError)).result
            == Err("An unexpected error occurred while calling OpenAI API")
  {
  }

  /** A failed request is never cached: asking again consults the model again. */
  lemma FailureNotCached(cache: map<string, Cached>, sorted: seq<string>, now: int, completion: Completion)
    requires SuggestStep(true, cache, sorted, now, completion).result.Err?
    ensures SuggestStep(true, cache, sorted, now, completion).cache == cache
  {
  }

  /** An exploration fetched at `t` is served from the cache, unchanged, while it is fresh. */
  lemma ExplorationServedWhileFresh(cache: map<string, Cached>, interest: string, t: int, later: int,
                                    completion: Completion, next: Completion)
    requires CacheValid(cache)
    requires ExploreKey(interest) !in cache || !Fresh(cache[ExploreKey(interest)], t)
    requires ExploreStep(true, cache, interest, t, completion).result.Ok?
    requires t <= later < t + CacheDuration
    ensures var first := ExploreStep(true, cache, interest, t, completion);
            ExploreStep(true, first.cache, interest, later, next) == first
  {
  }

  /** Every error the service reports carries the `makeRequest` prefix, or is the generic message. */
  lemma ErrorsAreWrapped(cache: map<string, Cached>, sorted: seq<string>, now: int, completion: Completion, keyConfigured: bool)
    requires SuggestStep(keyConfigured, cache, sorted, now, completion).result.Err?
    ensures var m := SuggestStep(keyConfigured, cache, sorted, now, completion).result.message;
            Text.StartsWith(m, "OpenAI API Error: ") || m == "An unexpected error occurred while calling OpenAI API"
  {
  }
}
