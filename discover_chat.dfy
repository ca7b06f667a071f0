/**
 * The Discover chat of the workforce area: a transcript with the language
 * model, an "enhance" button that rewrites the input, and a prompt library
 * with stars, a search box and a category filter. The model's answer (or
 * its failure) and the clock readings are parameters of the actions.
 */
module DiscoverChat {
  import opened Wrappers
  import Text
  import Sorting
  import Stores

  datatype ChatMessage = ChatMessage(id: string, role: Stores.Role, content: string)

  datatype Prompt = Prompt(id: string, category: string, text: string)

  datatype PromptCategory = PromptCategory(id: string, name: string, prompts: seq<Prompt>)

  // ---------------------------------------------------------------- stars

  /** The starred set after `toggleStarPrompt(id)`: that id's membership flips, every other id keeps it. */
  function Starred(starred: set<string>, id: string): (r: set<string>)
    ensures id in r <==> id !in starred
    ensures forall other :: other != id ==> (other in r <==> other in starred)
  {
    if id in starred then starred - {id} else starred + {id}
  }

  /** Starring the same prompt twice restores the original set. */
  lemma StarTwice(starred: set<string>, id: string)
    ensures Starred(Starred(starred, id), id) == starred
  {
  }

  // ---------------------------------------------------------------- library

  /** The search test: the lower-cased prompt text contains the lower-cased search. */
  predicate PromptMatches(p: Prompt, search: string) {
    Text.Contains(Text.Lower(p.text), Text.Lower(search))
  }

  /** The search test as a function. */
  function MatchesSearch(search: string): Prompt -> bool {
    (p: Prompt) => PromptMatches(p, search)
  }

  /** `prompts.filter(...)`: the matching prompts, in their order and with their repeats. */
  function MatchingPrompts(prompts: seq<Prompt>, search: string): (r: seq<Prompt>)
    ensures r == Sorting.Keep(prompts, MatchesSearch(search))
    ensures |r| <= |prompts|
  {
    if prompts == [] then []
    else
      var init, last := prompts[..|prompts| - 1], prompts[|prompts| - 1];
      assert prompts == init + [last];
      Sorting.KeepAppend(init, [last], MatchesSearch(search));
      MatchingPrompts(init, search) + (if PromptMatches(last, search) then [last] else [])
  }

  /** A category with only its matching prompts. */
  function Narrowed(c: PromptCategory, search: string): PromptCategory {
    c.(prompts := MatchingPrompts(c.prompts, search))
  }

  predicate Shown(c: PromptCategory, selected: Option<string>) {
    selected.None? || c.id == selected.value
  }

  /** `filteredPrompts`: every category narrowed to its matching prompts, then only the selected one if any. */
  function FilteredPrompts(categories: seq<PromptCategory>, search: string, selected: Option<string>): (r: seq<PromptCategory>)
    ensures |r| <= |categories|
    ensures forall k :: 0 <= k < |r| ==> Shown(r[k], selected)
  {
    if categories == [] then []
    else
      var init, last := categories[..|categories| - 1], Narrowed(categories[|categories| - 1], search);
      FilteredPrompts(init, search, selected) + (if Shown(last, selected) then [last] else [])
  }

  /** A prompt is listed in its category exactly when its text contains the search, case aside. */
  lemma {:induction false} MatchingMembers(prompts: seq<Prompt>, search: string, p: Prompt)
    ensures p in MatchingPrompts(prompts, search) <==> p in prompts && PromptMatches(p, search)
  {
    if prompts != [] {
      var init, last := prompts[..|prompts| - 1], prompts[|prompts| - 1];
      MatchingMembers(init, search, p);
      assert prompts == init + [last];
    }
  }

  /** Every prompt matches an empty search, so an empty search box shows the whole library. */
  lemma {:induction false} EmptySearchKeepsAll(prompts: seq<Prompt>)
    ensures MatchingPrompts(prompts, "") == prompts
  {
    if prompts != [] {
      var init, last := prompts[..|prompts| - 1], prompts[|prompts| - 1];
      EmptySearchKeepsAll(init);
      Text.ContainsEmpty(Text.Lower(last.text));
      assert Text.Lower("") == "";
      assert MatchingPrompts(prompts, "") == init + [last];
      assert init + [last] == prompts;
    }
  }

  /**
   * With no category selected every category stays, in order, each narrowed
   * to its matching prompts; a category with no matching prompt is still listed.
   */
  lemma {:induction false} AllCategoriesListed(categories: seq<PromptCategory>, search: string)
    ensures |FilteredPrompts(categories, search, None)| == |categories|
    ensures forall k :: 0 <= k < |categories| ==>
              FilteredPrompts(categories, search, None)[k] == Narrowed(categories[k], search)
  {
    if categories != [] {
      AllCategoriesListed(categories[..|categories| - 1], search);
    }
  }

  /** With a category selected the list holds exactly the narrowed categories carrying that id. */
  lemma OnlySelectedListed(categories: seq<PromptCategory>, search: string, id: string, c: PromptCategory)
    ensures c in FilteredPrompts(categories, search, Some(id)) <==>
              c.id == id && exists k :: 0 <= k < |categories| && c == Narrowed(categories[k], search)
  {
    if c in FilteredPrompts(categories, search, Some(id)) {
      SelectedFromData(categories, search, id, c);
    }
    if c.id == id && exists k :: 0 <= k < |categories| && c == Narrowed(categories[k], search) {
      var k :| 0 <= k < |categories| && c == Narrowed(categories[k], search);
      SelectedKept(categories, search, id, k);
    }
  }

  lemma {:induction false} SelectedFromData(categories: seq<PromptCategory>, search: string, id: string, c: PromptCategory)
    requires c in FilteredPrompts(categories, search, Some(id))
    ensures c.id == id && exists k :: 0 <= k < |categories| && c == Narrowed(categories[k], search)
  {
    var init, last := categories[..|categories| - 1], categories[|categories| - 1];
    if c in FilteredPrompts(init, search, Some(id)) {
      SelectedFromData(init, search, id, c);
      var k :| 0 <= k < |init| && c == Narrowed(init[k], search);
      assert categories[k] == init[k];
    } else {
      assert c == Narrowed(categories[|categories| - 1], search);
    }
  }

  lemma {:induction false} SelectedKept(categories: seq<PromptCategory>, search: string, id: string, k: nat)
    requires k < |categories| && categories[k].id == id
    ensures Narrowed(categories[k], search) in FilteredPrompts(categories, search, Some(id))
  {
    var init := categories[..|categories| - 1];
    if k < |init| {
      assert categories[k] == init[k];
      SelectedKept(init, search, id, k);
    }
  }

  // ---------------------------------------------------------------- chat

  /** The component's state. */
  class Chat {
    var messages: seq<ChatMessage>
    var input: string
    var isLoading: bool
    var showEnhanceMenu: bool
    var starredPrompts: set<string>

    constructor ()
      ensures messages == [] && input == "" && !isLoading && !showEnhanceMenu && starredPrompts == {}
    {
      messages := [];
      input := "";
      isLoading := false;
      showEnhanceMenu := false;
      starredPrompts := {};
    }

    /**
     * `handleSubmit`: blank input or a request in flight does nothing and
     * sends nothing. Otherwise the trimmed input is sent, the box is emptied,
     * the user's message is appended before the answer is awaited, and the
     * answer is appended only when the request succeeds. `sent` and
     * `answered` are the two `Date.now()` readings, `answer` the model's reply.
     */
    method HandleSubmit(sent: nat, answered: nat, answer: Result<string>) returns (request: Option<string>)
      modifies this
      ensures Text.IsBlank(old(input)) || old(isLoading) ==>
                request.None? && messages == old(messages) && input == old(input) && isLoading == old(isLoading)
      ensures !Text.IsBlank(old(input)) && !old(isLoading) ==>
                var question := Text.Trim(old(input));
                var asked := old(messages) + [ChatMessage(Text.NatToString(sent), Stores.User, question)];
                && request == Some(question) && input == "" && !isLoading
                && messages == if answer.Ok? then asked + [ChatMessage(Text.NatToString(answered + 1), Stores.Assistant, answer.value)]
                               else asked
      ensures showEnhanceMenu == old(showEnhanceMenu) && starredPrompts == old(starredPrompts)
    {
      if Text.IsBlank(input) || isLoading {
        return None;
      }
      var question := Text.Trim(input);
      input := "";
      isLoading := true;
      messages := messages + [ChatMessage(Text.NatToString(sent), Stores.User, question)];
      request := Some(question);
      if answer.Ok? {
        messages := messages + [ChatMessage(Text.NatToString(answered + 1), Stores.Assistant, answer.value)];
      }
      isLoading := false;
    }

    /**
     * `handleEnhance`: blank input returns without a request; otherwise the
     * input is replaced by the rewrite when the request succeeds and kept
     * when it fails, and the menu closes.
     */
    method HandleEnhance(answer: Result<string>) returns (requested: bool)
      modifies this
      ensures requested <==> !Text.IsBlank(old(input))
      ensures !requested ==> input == old(input) && isLoading == old(isLoading) && showEnhanceMenu == old(showEnhanceMenu)
      ensures requested ==> input == (if answer.Ok? then answer.value else old(input)) && !isLoading && !showEnhanceMenu
      ensures messages == old(messages) && starredPrompts == old(starredPrompts)
    {
      if Text.IsBlank(input) {
        return false;
      }
      isLoading := true;
      if answer.Ok? {
        input := answer.value;
      }
      isLoading := false;
      showEnhanceMenu := false;
      return true;
    }

    method ToggleStarPrompt(id: string)
      modifies this
      ensures starredPrompts == Starred(old(starredPrompts), id)
      ensures messages == old(messages) && input == old(input) && isLoading == old(isLoading)
      ensures showEnhanceMenu == old(showEnhanceMenu)
    {
      if id in starredPrompts {
        starredPrompts := starredPrompts - {id};
      } else {
        starredPrompts := starredPrompts + {id};
      }
    }
  }
}
