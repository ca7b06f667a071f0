/**
 * The application's four global stores: the editor text, the three AI chat
 * transcripts, the audience analysis filters with the chosen interests, and
 * the Meta sign-in state. Each store is an object whose actions replace some
 * of its fields and leave the others as they were. Persistence to local
 * storage is not modelled; random ids and `Date.now()` are parameters.
 */
module Stores {
  import opened Wrappers

  // ---------------------------------------------------------------- editor

  /** The separator `appendContent` puts between the old and the new text. */
  const Paragraph: string := "\n\n"

  /** The content after `appendContent(added)`: the new text alone on an empty editor, else after a blank line. */
  function Appended(content: string, added: string): (r: string)
    ensures |content| == 0 ==> r == added
    ensures |content| > 0 ==> |r| == |content| + 2 + |added|
    ensures |content| > 0 ==> r[..|content|] == content && r[|content|..|content| + 2] == Paragraph
    ensures r[|r| - |added|..] == added
  {
    if content == "" then added else content + Paragraph + added
  }

  /** Clearing and then appending leaves exactly the appended text. */
  lemma AppendToCleared(added: string)
    ensures Appended("", added) == added
  {
  }

  /** Appending never loses what was there: the old content stays a prefix. */
  lemma AppendKeepsContent(content: string, added: string)
    ensures Appended(content, added)[..|content|] == content
  {
  }

  /** `useEditorStore`. */
  class EditorStore {
    var content: string
    var isSaved: bool

    /** The initial state: no content, not saved. */
    constructor ()
      ensures content == "" && !isSaved
    {
      content := "";
      isSaved := false;
    }

    method SetContent(c: string)
      modifies this
      ensures content == c && !isSaved
    {
      content := c;
      isSaved := false;
    }

    method AppendContent(added: string)
      modifies this
      ensures content == Appended(old(content), added) && !isSaved
    {
      content := if content == "" then added else content + Paragraph + added;
      isSaved := false;
    }

    method ClearContent()
      modifies this
      ensures content == "" && !isSaved
    {
      content := "";
      isSaved := false;
    }

    /** Changes the saved flag and nothing else. */
    method SetSaved(saved: bool)
      modifies this
      ensures isSaved == saved && content == old(content)
    {
      isSaved := saved;
    }
  }

  // ---------------------------------------------------------------- AI chat

  datatype Role = User | Assistant

  /** What a caller passes to `add*Message`: everything but the id and the time. */
  datatype Draft = Draft(role: Role, content: string, replyTo: Option<string>, context: Option<string>)

  datatype Message = Message(id: string, role: Role, content: string, replyTo: Option<string>,
                             context: Option<string>, timestamp: int)

  /** The stored message: the draft's fields with the random id and the current time added. */
  function Stamped(d: Draft, id: string, now: int): (m: Message)
    ensures m.role == d.role && m.content == d.content && m.replyTo == d.replyTo && m.context == d.context
    ensures m.id == id && m.timestamp == now
  {
    Message(id, d.role, d.content, d.replyTo, d.context, now)
  }

  /** `useAIChatStore`: one transcript per assistant. */
  class AIChatStore {
    var audienceMessages: seq<Message>
    var analyticsMessages: seq<Message>
    var workforceMessages: seq<Message>

    constructor ()
      ensures audienceMessages == [] && analyticsMessages == [] && workforceMessages == []
    {
      audienceMessages := [];
      analyticsMessages := [];
      workforceMessages := [];
    }

    method AddAudienceMessage(d: Draft, id: string, now: int)
      modifies this
      ensures audienceMessages == old(audienceMessages) + [Stamped(d, id, now)]
      ensures analyticsMessages == old(analyticsMessages) && workforceMessages == old(workforceMessages)
    {
      audienceMessages := audienceMessages + [Stamped(d, id, now)];
    }

    method AddAnalyticsMessage(d: Draft, id: string, now: int)
      modifies this
      ensures analyticsMessages == old(analyticsMessages) + [Stamped(d, id, now)]
      ensures audienceMessages == old(audienceMessages) && workforceMessages == old(workforceMessages)
    {
      analyticsMessages := analyticsMessages + [Stamped(d, id, now)];
    }

    method AddWorkforceMessage(d: Draft, id: string, now: int)
      modifies this
      ensures workforceMessages == old(workforceMessages) + [Stamped(d, id, now)]
      ensures audienceMessages == old(audienceMessages) && analyticsMessages == old(analyticsMessages)
    {
      workforceMessages := workforceMessages + [Stamped(d, id, now)];
    }

    method ClearAudienceMessages()
      modifies this
      ensures audienceMessages == []
      ensures analyticsMessages == old(analyticsMessages) && workforceMessages == old(workforceMessages)
    {
      audienceMessages := [];
    }

    method ClearAnalyticsMessages()
      modifies this
      ensures analyticsMessages == []
      ensures audienceMessages == old(audienceMessages) && workforceMessages == old(workforceMessages)
    {
      analyticsMessages := [];
    }

    method ClearWorkforceMessages()
      modifies this
      ensures workforceMessages == []
      ensures audienceMessages == old(audienceMessages) && analyticsMessages == old(analyticsMessages)
    {
      workforceMessages := [];
    }
  }

  // ---------------------------------------------------------------- analysis

  /** One entry of an audience's demographic breakdown. */
  datatype Demographic = Demographic(kind: string, percentage: real, value: string)

  /** An interest audience as the Meta search returns it (the fields the model uses). */
  datatype MetaAudience = MetaAudience(id: string, name: string, size: real,
                                       demographics: Option<seq<Demographic>>)

  /** The filter record, all values text. */
  type FilterRecord = map<string, string>

  /** The filters the store starts with and `clearAnalysis` restores. */
  const DefaultFilters: FilterRecord := map["age_min" := "18", "age_max" := "24", "budget_min" := "10",
                                            "budget_max" := "50", "gender" := "all", "objective" := "CONVERSIONS"]

  /** `{ ...current, ...given }`: the given keys win, every other key keeps its value. */
  function Merged(current: FilterRecord, given: FilterRecord): (r: FilterRecord)
    ensures r.Keys == current.Keys + given.Keys
    ensures forall k :: k in given ==> r[k] == given[k]
    ensures forall k :: k in current && k !in given ==> r[k] == current[k]
  {
    current + given
  }

  /** Merging an empty record changes nothing, and merging the same record twice is merging it once. */
  lemma MergeIdempotent(current: FilterRecord, given: FilterRecord)
    ensures Merged(current, map[]) == current
    ensures Merged(Merged(current, given), given) == Merged(current, given)
  {
  }

  /** `useAnalysisStore`. */
  class AnalysisStore {
    var activeFilters: FilterRecord
    var selectedInterests: seq<MetaAudience>

    constructor ()
      ensures activeFilters == DefaultFilters && selectedInterests == []
    {
      activeFilters := DefaultFilters;
      selectedInterests := [];
    }

    method SetActiveFilters(filters: FilterRecord)
      modifies this
      ensures activeFilters == Merged(old(activeFilters), filters)
      ensures selectedInterests == old(selectedInterests)
    {
      activeFilters := activeFilters + filters;
    }

    /** Replaces the list wholesale; the filters are untouched. */
    method SetSelectedInterests(interests: seq<MetaAudience>)
      modifies this
      ensures selectedInterests == interests && activeFilters == old(activeFilters)
    {
      selectedInterests := interests;
    }

    /**
     * Back to the initial state whatever the state before, so a second call
     * finds the defaults and leaves them as they are.
     */
    method ClearAnalysis()
      modifies this
      ensures activeFilters == DefaultFilters && selectedInterests == []
    {
      selectedInterests := [];
      activeFilters := DefaultFilters;
    }
  }

  /** Clearing twice leaves the same state as clearing once. */
  method ClearTwice(store: AnalysisStore)
    modifies store
    ensures store.activeFilters == DefaultFilters && store.selectedInterests == []
  {
    store.ClearAnalysis();
    var filters, interests := store.activeFilters, store.selectedInterests;
    store.ClearAnalysis();
    assert store.activeFilters == filters && store.selectedInterests == interests;
  }

  // ---------------------------------------------------------------- sign-in

  /** An ad account the user can pick (the fields the model uses). */
  datatype MetaAccount = MetaAccount(id: string, name: string)

  /** `useAuthStore`. */
  class AuthStore {
    var accessToken: Option<string>
    var isAuthenticated: bool
    var selectedAccount: Option<MetaAccount>
    var isInitializing: bool
    var error: Option<string>

    /** The initial state: signed in with the built-in token, no account, initialising, no error. */
    constructor (builtInToken: string)
      ensures accessToken == Some(builtInToken) && isAuthenticated
      ensures selectedAccount.None? && isInitializing && error.None?
    {
      accessToken := Some(builtInToken);
      isAuthenticated := true;
      selectedAccount := None;
      isInitializing := true;
      error := None;
    }

    /** Signs in with the token and clears the error; the chosen account stays. */
    method Login(token: string)
      modifies this
      ensures accessToken == Some(token) && isAuthenticated && error.None?
      ensures selectedAccount == old(selectedAccount) && isInitializing == old(isInitializing)
    {
      accessToken := Some(token);
      isAuthenticated := true;
      error := None;
    }

    /** Signs out: no token, no account, no error. */
    method Logout()
      modifies this
      ensures accessToken.None? && !isAuthenticated && selectedAccount.None? && error.None?
      ensures isInitializing == old(isInitializing)
    {
      accessToken := None;
      isAuthenticated := false;
      selectedAccount := None;
      error := None;
    }

    method SetSelectedAccount(account: Option<MetaAccount>)
      modifies this
      ensures selectedAccount == account
      ensures accessToken == old(accessToken) && isAuthenticated == old(isAuthenticated)
      ensures isInitializing == old(isInitializing) && error == old(error)
    {
      selectedAccount := account;
    }

    method SetError(e: Option<string>)
      modifies this
      ensures error == e
      ensures accessToken == old(accessToken) && isAuthenticated == old(isAuthenticated)
      ensures selectedAccount == old(selectedAccount) && isInitializing == old(isInitializing)
    {
      error := e;
    }

    method SetInitializing(initializing: bool)
      modifies this
      ensures isInitializing == initializing
      ensures accessToken == old(accessToken) && isAuthenticated == old(isAuthenticated)
      ensures selectedAccount == old(selectedAccount) && error == old(error)
    {
      isInitializing := initializing;
    }
  }

  /** Signing out and in again does not bring the old account back. */
  method Relogin(store: AuthStore, token: string)
    modifies store
    ensures store.accessToken == Some(token) && store.isAuthenticated && store.error.None?
    ensures store.selectedAccount.None?
  {
    store.Logout();
    store.Login(token);
  }
}
