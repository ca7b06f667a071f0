/**
 * The comment screens: the report (`CommentReport`, fed by `useComments`,
 * which reads `MetaCommentService.getComments()`: filter, sort, CSV export,
 * sort headers) and the reply desk built on `useMetaComments`
 * (`AICustomerService`, and `CommentList`, which repeats its logic): status
 * and search filter, sentiment templates and the per-comment draft replies.
 */
module CommentViews {
  import opened Wrappers
  import opened Comments
  import Text
  import Sorting
  import MetaComments

  // ---------------------------------------------------------------- report filters

  /** The report's status selector: `'all'`, `'replied'` or `'pending'`. */
  datatype StatusFilter = AnyStatus | Replied | PendingOnly

  /** The report's sentiment selector: `'all'` or one sentiment. */
  datatype SentimentFilter = AnySentiment | Only(sentiment: Sentiment)

  /** `comment.adId.startsWith(campaignId)` when a (non-empty) campaign is given; a comment without an ad id never matches. */
  predicate InCampaign(c: Comment, campaign: string) {
    campaign == "" || (c.adId.Some? && Text.StartsWith(c.adId.value, campaign))
  }

  /** `'replied'` selects handled comments, `'pending'` pending ones. */
  predicate StatusPasses(c: Comment, f: StatusFilter) {
    match f
    case AnyStatus => true
    case Replied => c.status == Some(Handled)
    case PendingOnly => c.status == Some(Pending)
  }

  predicate SentimentPasses(c: Comment, f: SentimentFilter) {
    f.AnySentiment? || c.sentiment == Some(f.sentiment)
  }

  predicate Passes(c: Comment, campaign: string, st: StatusFilter, sf: SentimentFilter) {
    InCampaign(c, campaign) && StatusPasses(c, st) && SentimentPasses(c, sf)
  }

  /** The three filters as one test. */
  function PassesAll(campaign: string, st: StatusFilter, sf: SentimentFilter): Comment -> bool {
    (c: Comment) => Passes(c, campaign, st, sf)
  }

  /** The three `filter` calls: the passing comments, in the list's order and with their repeats. */
  function Filtered(cs: seq<Comment>, campaign: string, st: StatusFilter, sf: SentimentFilter): (r: seq<Comment>)
    ensures r == Sorting.Keep(cs, PassesAll(campaign, st, sf))
    ensures forall c :: c in r <==> c in cs && Passes(c, campaign, st, sf)
    ensures multiset(r) <= multiset(cs)
  {
    if cs == [] then []
    else
      var init := cs[..|cs| - 1];
      var last := cs[|cs| - 1];
      assert cs == init + [last];
      Sorting.KeepAppend(init, [last], PassesAll(campaign, st, sf));
      Sorting.KeepMembers(cs, PassesAll(campaign, st, sf));
      Filtered(init, campaign, st, sf) + (if Passes(last, campaign, st, sf) then [last] else [])
  }

  // ---------------------------------------------------------------- report order

  datatype SortField = Date | SentimentField

  datatype Direction = Asc | Desc

  /** `sentimentOrder[a.sentiment || 'neutral']`. */
  function Rank(s: Option<Sentiment>): (r: int)
    ensures 0 <= r <= 3
    ensures r == 2 <==> s == None || s == Some(Neutral)
  {
    match s
    case None => 2
    case Some(Positive) => 3
    case Some(Neutral) => 2
    case Some(Negative) => 1
    case Some(Spam) => 0
  }

  /** The sort key of the chosen column. */
  function SortKey(c: Comment, field: SortField): int {
    if field == Date then c.createdTime else Rank(c.sentiment)
  }

  /** The comparator as "a may stand before b": ascending or descending by the column's key. */
  function Before(field: SortField, dir: Direction): (Comment, Comment) -> bool {
    (a: Comment, b: Comment) =>
      if dir == Asc then SortKey(a, field) <= SortKey(b, field) else SortKey(a, field) >= SortKey(b, field)
  }

  lemma BeforeTotalPreorder(field: SortField, dir: Direction)
    ensures Sorting.TotalPreorder(Before(field, dir))
  {
  }

  /** `processedComments`: a filtered, sorted copy of the comments. */
  function Processed(cs: seq<Comment>, campaign: string, st: StatusFilter, sf: SentimentFilter,
                     field: SortField, dir: Direction): (r: seq<Comment>)
    ensures multiset(r) == multiset(Filtered(cs, campaign, st, sf))
  {
    BeforeTotalPreorder(field, dir);
    Sorting.SortBy(Filtered(cs, campaign, st, sf), Before(field, dir))
  }

  /** The report lists exactly the passing comments, each as often as in the list, and nothing else. */
  lemma ProcessedIsFilteredSubList(cs: seq<Comment>, campaign: string, st: StatusFilter, sf: SentimentFilter,
                                   field: SortField, dir: Direction)
    ensures var r := Processed(cs, campaign, st, sf, field, dir);
            multiset(r) == multiset(Sorting.Keep(cs, PassesAll(campaign, st, sf)))
            && multiset(r) <= multiset(cs)
            && (forall c :: c in r <==> c in cs && Passes(c, campaign, st, sf))
  {
    var r := Processed(cs, campaign, st, sf, field, dir);
    var f := Filtered(cs, campaign, st, sf);
    forall c
      ensures c in r <==> c in f
    {
      assert c in r <==> c in multiset(r);
      assert c in f <==> c in multiset(f);
    }
  }

  /** Selects the comments whose key in the chosen column is `v`. */
  function WithKey(field: SortField, v: int): Comment -> bool {
    (c: Comment) => SortKey(c, field) == v
  }

  /** The sort is stable: comments sharing a key in the chosen column keep the order the filter left them in. */
  lemma ProcessedStable(cs: seq<Comment>, campaign: string, st: StatusFilter, sf: SentimentFilter,
                        field: SortField, dir: Direction, v: int)
    ensures Sorting.Keep(Processed(cs, campaign, st, sf, field, dir), WithKey(field, v))
            == Sorting.Keep(Filtered(cs, campaign, st, sf), WithKey(field, v))
  {
    BeforeTotalPreorder(field, dir);
    assert Sorting.Tied(WithKey(field, v), Before(field, dir));
    Sorting.SortByStable(Filtered(cs, campaign, st, sf), Before(field, dir), WithKey(field, v));
  }

  /** The report is ordered by the chosen column in the chosen direction. */
  lemma ProcessedOrdered(cs: seq<Comment>, campaign: string, st: StatusFilter, sf: SentimentFilter,
                         field: SortField, dir: Direction, i: int, j: int)
    requires 0 <= i < j < |Processed(cs, campaign, st, sf, field, dir)|
    ensures var r := Processed(cs, campaign, st, sf, field, dir);
            if dir == Asc then SortKey(r[i], field) <= SortKey(r[j], field)
            else SortKey(r[i], field) >= SortKey(r[j], field)
  {
    BeforeTotalPreorder(field, dir);
    var r := Processed(cs, campaign, st, sf, field, dir);
    assert Sorting.SortedBy(r, Before(field, dir));
    assert Before(field, dir)(r[i], r[j]);
  }

  // ---------------------------------------------------------------- CSV export

  const Header: string := "Date,User,Comment,Sentiment,Status,URL"

  /** What a template literal prints for the sentiment; a missing one prints `undefined`. */
  function SentimentText(s: Option<Sentiment>): string {
    match s
    case None => "undefined"
    case Some(Positive) => "positive"
    case Some(Negative) => "negative"
    case Some(Neutral) => "neutral"
    case Some(Spam) => "spam"
  }

  function StatusText(s: Option<Status>): string {
    match s
    case None => "undefined"
    case Some(Pending) => "pending"
    case Some(Handled) => "handled"
  }

  /** `"${cell}"`: the cell between double quotes, embedded quotes left as they are. */
  function Quote(cell: string): (r: string)
    ensures |r| == |cell| + 2 && r[0] == '"' && r[|r| - 1] == '"' && r[1..|r| - 1] == cell
  {
    "\"" + cell + "\""
  }

  /** The six cells of a comment's row; `date` stands for `toLocaleString` of its time. */
  function Cells(c: Comment, date: int -> string): seq<string> {
    [date(c.createdTime), c.fromName, c.message, SentimentText(c.sentiment), StatusText(c.status),
     "https://facebook.com/" + c.id]
  }

  function Row(c: Comment, date: int -> string): string {
    Text.Join(seq(6, k requires 0 <= k < 6 => Quote(Cells(c, date)[k])), ",")
  }

  function Rows(cs: seq<Comment>, date: int -> string): (r: seq<string>)
    ensures |r| == |cs| && forall k :: 0 <= k < |cs| ==> r[k] == Row(cs[k], date)
  {
    seq(|cs|, k requires 0 <= k < |cs| => Row(cs[k], date))
  }

  /** `generateCSV`'s text: the header line, then one line per listed comment. */
  function Csv(cs: seq<Comment>, date: int -> string): string {
    Text.Join([Header] + Rows(cs, date), "\n")
  }

  /** No cell of the comment's row holds a line break. */
  predicate SingleLine(c: Comment, date: int -> string) {
    forall k :: 0 <= k < 6 ==> '\n' !in Cells(c, date)[k]
  }

  lemma {:induction false} JoinNoBreak(parts: seq<string>, sep: string)
    requires '\n' !in sep
    requires forall k :: 0 <= k < |parts| ==> '\n' !in parts[k]
    ensures '\n' !in Text.Join(parts, sep)
  {
    if |parts| > 1 {
      JoinNoBreak(parts[1..], sep);
    }
  }

  /** When no cell holds a line break, the CSV's lines are exactly the header and one row per comment, in order. */
  lemma CsvLines(cs: seq<Comment>, date: int -> string)
    requires forall k :: 0 <= k < |cs| ==> SingleLine(cs[k], date)
    ensures Text.Split(Csv(cs, date), "\n") == [Header] + Rows(cs, date)
    ensures |Text.Split(Csv(cs, date), "\n")| == |cs| + 1
  {
    var lines := [Header] + Rows(cs, date);
    forall k | 0 <= k < |lines|
      ensures '\n' !in lines[k]
    {
      if k > 0 {
        RowSingleLine(cs[k - 1], date);
      } else {
        assert forall i :: 0 <= i < |Header| ==> Header[i] != '\n';
      }
    }
    Text.SplitJoin(lines, '\n');
  }

  /** A row whose cells hold no line break is one line. */
  lemma RowSingleLine(c: Comment, date: int -> string)
    requires SingleLine(c, date)
    ensures '\n' !in Row(c, date)
  {
    var quoted := seq(6, i requires 0 <= i < 6 => Quote(Cells(c, date)[i]));
    forall i | 0 <= i < 6
      ensures '\n' !in quoted[i]
    {
      assert Quote(Cells(c, date)[i]) == "\"" + Cells(c, date)[i] + "\"";
    }
    JoinNoBreak(quoted, ",");
  }

  // ---------------------------------------------------------------- sort headers

  datatype SortState = SortState(field: SortField, direction: Direction)

  function Flip(d: Direction): Direction {
    if d == Asc then Desc else Asc
  }

  /** The header-button rule: the active column flips its direction, another column becomes active descending. */
  function Clicked(s: SortState, f: SortField): (r: SortState)
    ensures r.field == f
    ensures s.field == f ==> r.direction != s.direction
    ensures s.field != f ==> r.direction == Desc
  {
    if s.field == f then SortState(f, Flip(s.direction)) else SortState(f, Desc)
  }

  /** Two clicks on the active column restore the order; two clicks on another column leave it active ascending. */
  lemma ClickTwice(s: SortState, f: SortField)
    ensures s.field == f ==> Clicked(Clicked(s, f), f) == s
    ensures s.field != f ==> Clicked(Clicked(s, f), f) == SortState(f, Asc)
  {
  }

  /** The report's sort state: newest first by date to begin with. */
  class ReportSort {
    var field: SortField
    var direction: Direction

    constructor ()
      ensures field == Date && direction == Desc
    {
      field, direction := Date, Desc;
    }

    /** The `onClick` of the Date and Sentiment header buttons. */
    method ClickHeader(f: SortField)
      modifies this
      ensures SortState(field, direction) == Clicked(old(SortState(field, direction)), f)
    {
      if field == f {
        direction := if direction == Asc then Desc else Asc;
      } else {
        field := f;
        direction := Desc;
      }
    }
  }

  // ---------------------------------------------------------------- reply desk

  /** The desk's tabs: `'all'`, `'pending'` or `'handled'`. */
  datatype DeskFilter = All | Just(status: Status)

  /** Shown iff the tab is `'all'` or the status equals it, and a non-empty search term occurs in the message, both lower-cased. */
  predicate Shown(c: Comment, tab: DeskFilter, term: string) {
    (tab.All? || c.status == Some(tab.status))
    && (term == "" || Text.Contains(Text.Lower(c.message), Text.Lower(term)))
  }

  /** The desk's tab and search as one test. */
  function ShownBy(tab: DeskFilter, term: string): Comment -> bool {
    (c: Comment) => Shown(c, tab, term)
  }

  /** `filteredComments`: the shown comments, in the list's order and with their repeats. */
  function Visible(cs: seq<Comment>, tab: DeskFilter, term: string): (r: seq<Comment>)
    ensures r == Sorting.Keep(cs, ShownBy(tab, term))
    ensures forall c :: c in r <==> c in cs && Shown(c, tab, term)
    ensures multiset(r) <= multiset(cs)
  {
    if cs == [] then []
    else
      var init := cs[..|cs| - 1];
      var last := cs[|cs| - 1];
      assert cs == init + [last];
      Sorting.KeepAppend(init, [last], ShownBy(tab, term));
      Sorting.KeepMembers(cs, ShownBy(tab, term));
      Visible(init, tab, term) + (if Shown(last, tab, term) then [last] else [])
  }

  /** The `'all'` tab with an empty search shows every comment in order. */
  lemma VisibleAll(cs: seq<Comment>)
    ensures Visible(cs, All, "") == cs
  {
    assert forall k :: 0 <= k < |cs| ==> ShownBy(All, "")(cs[k]);
    Sorting.KeepEvery(cs, ShownBy(All, ""));
  }

  const ThanksTemplate: string := "Thank you for your positive feedback! We're glad you're enjoying our product/service. Your support means a lot to us."
  const ApologyTemplate: string := "We apologize for any inconvenience. We take your feedback seriously and would like to help resolve your concerns. Please DM us with more details."
  const GenericTemplate: string := "Thank you for your comment. We appreciate your feedback and are here to help if you have any questions."

  /** The `switch` on the sentiment. */
  function Template(s: Option<Sentiment>): (r: string)
    ensures s == Some(Positive) ==> r == ThanksTemplate
    ensures s == Some(Negative) ==> r == ApologyTemplate
    ensures s != Some(Positive) && s != Some(Negative) ==> r == GenericTemplate
    ensures r != ""
  {
    match s
    case Some(Positive) => ThanksTemplate
    case Some(Negative) => ApologyTemplate
    case _ => GenericTemplate
  }

  /** The position of the first comment with that id. */
  function FirstIndex(cs: seq<Comment>, id: string): (r: Option<nat>)
    ensures r.None? <==> forall k :: 0 <= k < |cs| ==> cs[k].id != id
    ensures r.Some? ==> r.value < |cs| && cs[r.value].id == id && forall j :: 0 <= j < r.value ==> cs[j].id != id
  {
    if cs == [] then None
    else if cs[0].id == id then Some(0)
    else match FirstIndex(cs[1..], id)
      case None => None
      case Some(i) => Some(i + 1)
  }

  /** `comments.find(c => c.id === id)`. */
  function Find(cs: seq<Comment>, id: string): (r: Option<Comment>)
    ensures r.None? <==> forall k :: 0 <= k < |cs| ==> cs[k].id != id
    ensures r.Some? ==> exists k :: 0 <= k < |cs| && cs[k] == r.value && r.value.id == id
                                    && forall j :: 0 <= j < k ==> cs[j].id != id
  {
    match FirstIndex(cs, id)
    case None => None
    case Some(k) => Some(cs[k])
  }

  /** The draft generated for `id`: the template of the first comment with that id, or `''` when there is none. */
  function DraftFor(cs: seq<Comment>, id: string): (r: string)
    ensures r == "" <==> forall k :: 0 <= k < |cs| ==> cs[k].id != id
  {
    match Find(cs, id)
    case None => ""
    case Some(c) => Template(c.sentiment)
  }

  /** The `responseText` record of drafted replies. */
  class DraftBoard {
    var drafts: map<string, string>

    constructor ()
      ensures drafts == map[]
    {
      drafts := map[];
    }

    /** `handleGenerateResponse(id)`: stores the template for the comment, `''` for an unknown id. */
    method GenerateResponse(comments: seq<Comment>, id: string)
      modifies this
      ensures drafts == old(drafts)[id := DraftFor(comments, id)]
    {
      var found := Find(comments, id);
      var response := "";
      if found.Some? {
        response := Template(found.value.sentiment);
      }
      drafts := drafts[id := response];
    }

    /**
     * `handleSendResponse(id)`: with no draft or an empty one nothing is sent;
     * otherwise the draft is sent as a reply and dropped only if that succeeded.
     */
    method SendResponse(id: string, hook: MetaComments.CommentsHook, answer: Posted)
      modifies this, hook
      ensures id !in old(drafts) || old(drafts)[id] == "" ==>
                drafts == old(drafts) && hook.comments == old(hook.comments)
      ensures id in old(drafts) && old(drafts)[id] != "" ==>
                var outcome := if hook.accessToken.None? then Err("Authentication required")
                               else MetaComments.HandleOutcome(MetaComments.Reply, Some(old(drafts)[id]), answer);
                drafts == if outcome.Ok? then old(drafts) - {id} else old(drafts)
      ensures id in old(drafts) && old(drafts)[id] != "" && hook.accessToken.Some? ==>
                hook.comments == MetaComments.HandledComments(old(hook.comments), id, MetaComments.Reply, Some(old(drafts)[id]), answer)
    {
      if id !in drafts || drafts[id] == "" {
        return;
      }
      var r := hook.HandleComment(id, MetaComments.Reply, Some(drafts[id]), answer);
      if r.Ok? {
        drafts := drafts - {id};
      }
    }

    /** The dismiss button: removes that comment's draft and no other. */
    method Dismiss(id: string)
      modifies this
      ensures drafts == old(drafts) - {id}
    {
      drafts := drafts - {id};
    }
  }

  /** Generating for an unknown id stores an empty draft, which the send button then ignores. */
  lemma UnknownIdEmptyDraft(cs: seq<Comment>, id: string)
    requires forall k :: 0 <= k < |cs| ==> cs[k].id != id
    ensures DraftFor(cs, id) == ""
  {
  }

  /** A known comment always gets a non-empty draft, chosen by its sentiment. */
  lemma KnownIdDraft(cs: seq<Comment>, k: int)
    requires 0 <= k < |cs|
    requires forall j :: 0 <= j < k ==> cs[j].id != cs[k].id
    ensures DraftFor(cs, cs[k].id) == Template(cs[k].sentiment)
  {
    var r := Find(cs, cs[k].id);
    var i :| 0 <= i < |cs| && cs[i] == r.value && r.value.id == cs[k].id && forall j :: 0 <= j < i ==> cs[j].id != cs[k].id;
    assert i == k;
  }
}
