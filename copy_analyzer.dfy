/**
 * `CopywritingAnalyzer`: the line-by-line parsers that turn a language
 * model's reply into a copy analysis (`analyzeCopy`) or an A/B comparison
 * (`compareVariations`), and the score labels and colours. The reply is an
 * input string; the prompt and the model call are left out.
 *
 * Each parser is split in two: what a line is (`Classify`, the `if` chain's
 * tests in order) and what a line of that kind does to the parser's
 * variables (`Apply`); the loop classifies and applies line by line.
 */
module CopyAnalyzer {
  import opened Wrappers
  import Text

  // ---------------------------------------------------------------- line helpers

  /** `line.split(':')[k]`, or `''` past the last piece. */
  function Field(line: string, k: nat): string {
    var parts := Text.Split(line, ":");
    if k < |parts| then parts[k] else ""
  }

  /** `s.slice(2)`: everything after the first two characters. */
  function Drop2(s: string): (r: string)
    ensures |s| >= 2 ==> r == s[2..]
    ensures |s| < 2 ==> r == ""
  {
    if |s| >= 2 then s[2..] else ""
  }

  /** `line.trim().startsWith('-')`. */
  predicate IsBullet(line: string) {
    Text.StartsWith(Text.Trim(line), "-")
  }

  // ---------------------------------------------------------------- analyzeCopy

  datatype Section = Section(score: int, feedback: seq<string>)

  datatype CopyAnalysis = CopyAnalysis(score: int, persuasiveness: Section, engagement: Section,
                                       relevance: Section, suggestions: seq<string>)

  /** The parser's variables: `scores` (None is NaN), `feedback`, `suggestions` and `currentSection`. */
  datatype Reading = Reading(scores: map<string, Option<int>>, feedback: map<string, seq<string>>,
                             suggestions: seq<string>, current: string)

  const Start: Reading := Reading(map[], map[], [], "")

  /** `feedback[key] || []`. */
  function FeedbackOf(r: Reading, key: string): seq<string> {
    if key in r.feedback then r.feedback[key] else []
  }

  /** What a reply line is, checked in the parser's order: score entry, feedback header, suggestions header, bullet. */
  datatype LineKind = ScoreEntry(key: string, value: Option<int>) | FeedbackHeader(section: string)
                    | SuggestionsHeader | Point(text: string) | Other

  function Classify(line: string): LineKind {
    if Text.Contains(line, "score:") then ScoreEntry(Text.Trim(Field(line, 0)), Text.ParseInt(Text.Trim(Field(line, 1))))
    else if Text.Contains(line, "feedback:") then FeedbackHeader(Text.Trim(Field(line, 0)))
    else if Text.Contains(line, "suggestions:") then SuggestionsHeader
    else if IsBullet(line) then Point(Drop2(Text.Trim(line)))
    else Other
  }

  /** The effect of a line of the given kind; a bullet read outside any section is dropped. */
  function Apply(r: Reading, k: LineKind): Reading {
    match k
    case ScoreEntry(key, value) => r.(scores := r.scores[key := value])
    case FeedbackHeader(section) => r.(current := section, feedback := r.feedback[section := []])
    case SuggestionsHeader => r.(current := "suggestions")
    case Point(p) =>
      if r.current == "" then r
      else if r.current == "suggestions" then r.(suggestions := r.suggestions + [p])
      else r.(feedback := r.feedback[r.current := FeedbackOf(r, r.current) + [p]])
    case Other => r
  }

  function Kinds(lines: seq<string>): (ks: seq<LineKind>)
    ensures |ks| == |lines| && forall k :: 0 <= k < |lines| ==> ks[k] == Classify(lines[k])
  {
    seq(|lines|, k requires 0 <= k < |lines| => Classify(lines[k]))
  }

  /** The `forEach` over lines of the given kinds. */
  function Fold(r: Reading, ks: seq<LineKind>): Reading {
    if ks == [] then r else Apply(Fold(r, ks[..|ks| - 1]), ks[|ks| - 1])
  }

  /** `scores[key] || 0`: a missing, NaN or zero score reads as 0. */
  function ScoreOf(r: Reading, key: string): int {
    if key in r.scores && r.scores[key].Some? then r.scores[key].value else 0
  }

  /** The returned object. */
  function Assemble(r: Reading): CopyAnalysis {
    CopyAnalysis(ScoreOf(r, "score"),
                 Section(ScoreOf(r, "persuasiveness_score"), FeedbackOf(r, "persuasiveness_feedback")),
                 Section(ScoreOf(r, "engagement_score"), FeedbackOf(r, "engagement_feedback")),
                 Section(ScoreOf(r, "relevance_score"), FeedbackOf(r, "relevance_feedback")),
                 r.suggestions)
  }

  /** What `analyzeCopy` makes of a reply. */
  function Analysis(reply: string): CopyAnalysis {
    Assemble(Fold(Start, Kinds(Text.Split(reply, "\n"))))
  }

  /** `analyzeCopy`'s parsing loop over the reply's lines. */
  method AnalyzeReply(reply: string) returns (a: CopyAnalysis)
    ensures a == Analysis(reply)
  {
    var lines := Text.Split(reply, "\n");
    ghost var ks := Kinds(lines);
    var r := Start;
    var i := 0;
    while i < |lines|
      invariant 0 <= i <= |lines|
      invariant r == Fold(Start, ks[..i])
    {
      FoldStep(Start, ks, i);
      r := Apply(r, Classify(lines[i]));
      i := i + 1;
    }
    assert ks[..i] == ks;
    a := Assemble(r);
  }

  lemma FoldStep(r: Reading, ks: seq<LineKind>, i: nat)
    requires i < |ks|
    ensures Fold(r, ks[..i + 1]) == Apply(Fold(r, ks[..i]), ks[i])
  {
    assert ks[..i + 1][..i] == ks[..i];
  }

  /** The score test comes first: a line holding `score:` is a score entry even when it is a bullet, and touches nothing else. */
  lemma ScoreLineFirst(r: Reading, line: string)
    requires Text.Contains(line, "score:")
    ensures var s := Apply(r, Classify(line));
            s.feedback == r.feedback && s.suggestions == r.suggestions && s.current == r.current
            && Text.Trim(Field(line, 0)) in s.scores
            && s.scores[Text.Trim(Field(line, 0))] == Text.ParseInt(Text.Trim(Field(line, 1)))
  {
  }

  /** A feedback header opens a fresh, empty list for its section, discarding earlier points of the same name. */
  lemma FeedbackHeaderResets(r: Reading, line: string)
    requires !Text.Contains(line, "score:") && Text.Contains(line, "feedback:")
    ensures var s := Apply(r, Classify(line));
            s.current == Text.Trim(Field(line, 0)) && FeedbackOf(s, s.current) == []
            && s.scores == r.scores && s.suggestions == r.suggestions
  {
  }

  /** Lines that hold no header or score keyword leave a fresh parser as it is: bullets before any header are dropped. */
  lemma {:induction false} NothingRecognised(lines: seq<string>)
    requires forall k :: 0 <= k < |lines| ==>
               !Text.Contains(lines[k], "score:") && !Text.Contains(lines[k], "feedback:") && !Text.Contains(lines[k], "suggestions:")
    ensures Fold(Start, Kinds(lines)) == Start
    ensures Assemble(Fold(Start, Kinds(lines))) == CopyAnalysis(0, Section(0, []), Section(0, []), Section(0, []), [])
  {
    FoldIgnores(lines);
    assert Assemble(Start) == CopyAnalysis(0, Section(0, []), Section(0, []), Section(0, []), []);
  }

  lemma {:induction false} FoldIgnores(lines: seq<string>)
    requires forall k :: 0 <= k < |lines| ==>
               !Text.Contains(lines[k], "score:") && !Text.Contains(lines[k], "feedback:") && !Text.Contains(lines[k], "suggestions:")
    ensures Fold(Start, Kinds(lines)) == Start
  {
    if lines != [] {
      var init := lines[..|lines| - 1];
      FoldIgnores(init);
      var ks := Kinds(lines);
      assert ks[..|lines| - 1] == Kinds(init);
      assert Fold(Start, ks) == Apply(Start, Classify(lines[|lines| - 1]));
      StartIgnores(lines[|lines| - 1]);
    }
  }

  /** A fresh parser ignores a line holding none of the three keywords. */
  lemma StartIgnores(line: string)
    requires !Text.Contains(line, "score:") && !Text.Contains(line, "feedback:") && !Text.Contains(line, "suggestions:")
    ensures Apply(Start, Classify(line)) == Start
  {
  }

  // ---------------------------------------------------------------- facts about single lines

  /** Text with no colon holds no colon-terminated word. */
  lemma NoColon(s: string, w: string)
    requires ':' !in s && |w| > 0 && w[|w| - 1] == ':'
    ensures !Text.Contains(s, w)
  {
    forall i
      ensures !Text.At(s, w, i)
    {
      if 0 <= i && i + |w| <= |s| {
        assert s[i..i + |w|][|w| - 1] == s[i + |w| - 1];
      }
    }
  }

  /** Splitting `key + ":" + rest` on colons gives the two sides back when neither holds a colon. */
  lemma SplitAtColon(key: string, rest: string)
    requires ':' !in key && ':' !in rest
    ensures Text.Split(key + ":" + rest, ":") == [key, rest]
  {
    var s := key + ":" + rest;
    forall j | 0 <= j < |key|
      ensures !Text.At(s, ":", j)
    {
      assert s[j..j + 1][0] == key[j];
    }
    Text.SplitFirst(key, ":", rest);
    NoColon(rest, ":");
    Text.SplitNoSep(rest, ":");
  }

  /** A colon-terminated word occurs in `key + ":"` (key without colons) exactly when `key` ends with the word's text. */
  lemma ColonWord(key: string, w: string)
    requires ':' !in key && |w| > 0 && w[|w| - 1] == ':' && ':' !in w[..|w| - 1]
    ensures Text.Contains(key + ":", w) <==> |w| - 1 <= |key| && key[|key| - (|w| - 1)..] == w[..|w| - 1]
  {
    var s := key + ":";
    var n := |w| - 1;
    forall j | 0 <= j < |key|
      ensures s[j] != ':'
    {
      assert s[j] == key[j];
    }
    forall i
      ensures Text.At(s, w, i) <==> n <= |key| && i == |key| - n && key[|key| - n..] == w[..n]
    {
      if 0 <= i && i + |w| <= |s| {
        assert s[i..i + |w|][n] == s[i + n];
        if i == |key| - n {
          assert s[i..i + |w|] == key[|key| - n..] + ":";
          assert w == w[..n] + ":";
        }
      }
    }
    if n <= |key| && key[|key| - n..] == w[..n] {
      Text.ContainsAt(s, w, |key| - n);
    }
  }

  lemma DigitsPlain(d: string)
    requires |d| > 0 && forall k :: 0 <= k < |d| ==> Text.IsDigit(d[k])
    ensures Text.Trim(" " + d) == d
    ensures ':' !in d && '\n' !in d
  {
    forall k | 0 <= k < |d|
      ensures d[k] != ':' && d[k] != '\n' && !Text.IsSpace(d[k])
    {
      assert Text.IsDigit(d[k]);
    }
    assert (" " + d)[1..] == d;
    assert Text.TrimStart(" " + d) == d;
    Text.TrimTrimmed(d);
  }

  function NumberLine(key: string, n: nat): string {
    key + ": " + Text.NatToString(n)
  }

  /** A line holding `score:` is a score entry, whatever else it holds. */
  lemma ClassifiedScore(line: string)
    requires Text.Contains(line, "score:")
    ensures Classify(line) == ScoreEntry(Text.Trim(Field(line, 0)), Text.ParseInt(Text.Trim(Field(line, 1))))
  {
  }

  lemma NumberLineContains(key: string, n: nat)
    requires |key| >= 5 && key[|key| - 5..] == "score"
    ensures Text.Contains(NumberLine(key, n), "score:")
  {
    var line := NumberLine(key, n);
    assert line[|key| - 5..|key| + 1] == "score:";
    Text.ContainsAt(line, "score:", |key| - 5);
  }

  /** The two pieces of a score line around its one colon. */
  lemma NumberLineFields(key: string, n: nat)
    requires ':' !in key
    ensures Field(NumberLine(key, n), 0) == key && Field(NumberLine(key, n), 1) == " " + Text.NatToString(n)
  {
    var d := Text.NatToString(n);
    assert NumberLine(key, n) == key + ":" + (" " + d);
    DigitsPlain(d);
    SplitAtColon(key, " " + d);
  }

  lemma NumberReadsBack(n: nat)
    ensures Text.ParseInt(Text.Trim(" " + Text.NatToString(n))) == Some(n)
  {
    DigitsPlain(Text.NatToString(n));
    Text.ParseIntNatToString(n);
  }

  /** A score line `key: n` is the score entry of `n` under `key`. */
  lemma ClassifyScoreLine(key: string, n: nat)
    requires ':' !in key && Text.IsTrimmed(key) && |key| >= 5 && key[|key| - 5..] == "score"
    ensures Classify(NumberLine(key, n)) == ScoreEntry(key, Some(n))
  {
    NumberLineContains(key, n);
    ClassifiedScore(NumberLine(key, n));
    NumberLineFields(key, n);
    Text.TrimTrimmed(key);
    NumberReadsBack(n);
  }

  /** A header line `key:`. */
  function Header(key: string): string {
    key + ":"
  }

  /** A header `key:` whose key ends in `feedback` opens that section. */
  lemma ClassifyHeader(key: string)
    requires ':' !in key && Text.IsTrimmed(key) && |key| >= 8 && key[|key| - 8..] == "feedback"
    ensures Classify(Header(key)) == FeedbackHeader(key)
  {
    ColonWord(key, "score:");
    assert key[|key| - 1] == 'k';
    ColonWord(key, "feedback:");
    assert Header(key) == key + ":" + "";
    SplitAtColon(key, "");
    Text.TrimTrimmed(key);
  }

  lemma ClassifySuggestions(key: string)
    requires key == "suggestions"
    ensures Classify(Header(key)) == SuggestionsHeader
  {
    assert ':' !in key;
    assert key[|key| - 1] == 's';
    var score, feedback, suggestions := "score:", "feedback:", "suggestions:";
    assert ':' !in score[..5] && ':' !in feedback[..8] && ':' !in suggestions[..11];
    assert score[4] == 'e' && feedback[7] == 'k';
    assert suggestions[..11] == key;
    ColonWord(key, score);
    ColonWord(key, feedback);
    ColonWord(key, suggestions);
  }

  /** A point the format can carry: one non-empty, trimmed line without a colon. */
  predicate PlainPoint(p: string) {
    p != "" && Text.IsTrimmed(p) && ':' !in p && '\n' !in p
  }

  /** A line holding none of the three keywords that is a bullet is a point: what follows the dash and one more character. */
  lemma ClassifiedPoint(line: string)
    requires !Text.Contains(line, "score:") && !Text.Contains(line, "feedback:") && !Text.Contains(line, "suggestions:")
    requires IsBullet(line)
    ensures Classify(line) == Point(Drop2(Text.Trim(line)))
  {
  }

  /** Text without a colon holds none of the three keywords. */
  lemma NoKeywords(line: string)
    requires ':' !in line
    ensures !Text.Contains(line, "score:") && !Text.Contains(line, "feedback:") && !Text.Contains(line, "suggestions:")
  {
    NoColon(line, "score:");
    NoColon(line, "feedback:");
    NoColon(line, "suggestions:");
  }

  lemma BulletShape(p: string)
    requires PlainPoint(p)
    ensures var line := "- " + p;
            line[..1] == "-" && line[2..] == p && ':' !in line && '\n' !in line
            && !Text.IsSpace(line[0]) && !Text.IsSpace(line[|line| - 1])
  {
    var line := "- " + p;
    assert line[|line| - 1] == p[|p| - 1];
    assert line[2..] == p;
    assert ':' !in "- " && '\n' !in "- ";
  }

  /** The bullet line `- p` of a plain point is already trimmed and drops back to `p`. */
  lemma BulletTrimmed(p: string)
    requires PlainPoint(p)
    ensures Text.Trim("- " + p) == "- " + p && IsBullet("- " + p) && Drop2("- " + p) == p
    ensures ':' !in "- " + p && '\n' !in "- " + p
  {
    BulletShape(p);
    Text.TrimTrimmed("- " + p);
  }

  /** The bullet line `- p` of a plain point holds no keyword and reads back as the point `p`. */
  lemma ClassifyBullet(p: string)
    requires PlainPoint(p)
    ensures Classify("- " + p) == Point(p)
    ensures '\n' !in "- " + p
  {
    BulletTrimmed(p);
    NoKeywords("- " + p);
    ClassifiedPoint("- " + p);
  }

  // ---------------------------------------------------------------- rendering and the round trip

  /** An analysis the requested format can express: non-negative scores and plain points. */
  predicate Expressible(a: CopyAnalysis) {
    a.score >= 0 && a.persuasiveness.score >= 0 && a.engagement.score >= 0 && a.relevance.score >= 0
    && (forall p :: p in a.persuasiveness.feedback ==> PlainPoint(p))
    && (forall p :: p in a.engagement.feedback ==> PlainPoint(p))
    && (forall p :: p in a.relevance.feedback ==> PlainPoint(p))
    && (forall p :: p in a.suggestions ==> PlainPoint(p))
  }

  function Bullets(ps: seq<string>): (r: seq<string>)
    ensures |r| == |ps| && forall k :: 0 <= k < |ps| ==> r[k] == "- " + ps[k]
  {
    seq(|ps|, k requires 0 <= k < |ps| => "- " + ps[k])
  }

  function Points(ps: seq<string>): (r: seq<LineKind>)
    ensures |r| == |ps| && forall k :: 0 <= k < |ps| ==> r[k] == Point(ps[k])
  {
    seq(|ps|, k requires 0 <= k < |ps| => Point(ps[k]))
  }

  /** A score line, a feedback header and its bullets. */
  function Block(name: string, sec: Section): seq<string>
    requires sec.score >= 0
  {
    [NumberLine(name + "_score", sec.score), Header(name + "_feedback")] + Bullets(sec.feedback)
  }

  /** The lines of a reply written in the format the prompt asks for. */
  function Lines(a: CopyAnalysis): seq<string>
    requires Expressible(a)
  {
    [NumberLine("score", a.score)]
    + Block("persuasiveness", a.persuasiveness)
    + Block("engagement", a.engagement)
    + Block("relevance", a.relevance)
    + ([Header("suggestions")] + Bullets(a.suggestions))
  }

  function Render(a: CopyAnalysis): string
    requires Expressible(a)
  {
    Text.Join(Lines(a), "\n")
  }

  lemma KindsAppend(xs: seq<string>, ys: seq<string>)
    ensures Kinds(xs + ys) == Kinds(xs) + Kinds(ys)
  {
    assert forall k :: 0 <= k < |xs + ys| ==> (xs + ys)[k] == if k < |xs| then xs[k] else ys[k - |xs|];
  }

  lemma KindsBullets(ps: seq<string>)
    requires forall p :: p in ps ==> PlainPoint(p)
    ensures Kinds(Bullets(ps)) == Points(ps)
    ensures NoBreaks(Bullets(ps))
  {
    forall k | 0 <= k < |ps|
      ensures Classify(Bullets(ps)[k]) == Point(ps[k]) && '\n' !in Bullets(ps)[k]
    {
      assert ps[k] in ps;
      ClassifyBullet(ps[k]);
    }
  }

  lemma {:induction false} FoldAppend(r: Reading, xs: seq<LineKind>, ys: seq<LineKind>)
    ensures Fold(r, xs + ys) == Fold(Fold(r, xs), ys)
  {
    if ys == [] {
      assert xs + ys == xs;
    } else {
      var zs := xs + ys;
      FoldAppend(r, xs, ys[..|ys| - 1]);
      assert zs[..|zs| - 1] == xs + ys[..|ys| - 1];
      assert zs[|zs| - 1] == ys[|ys| - 1];
    }
  }

  /**
   * The parser's current section, when there is one, is either the
   * suggestions or a feedback list that exists: `feedback[currentSection].push`
   * always finds its array.
   */
  predicate SectionOpen(r: Reading) {
    r.current == "" || r.current == "suggestions" || r.current in r.feedback
  }

  lemma {:induction false} FoldKeepsSectionOpen(ks: seq<LineKind>)
    ensures SectionOpen(Fold(Start, ks))
  {
    if ks != [] {
      FoldKeepsSectionOpen(ks[..|ks| - 1]);
    }
  }

  /** Feeding points to an open section appends them all, in order. */
  lemma {:induction false} PointsStep(r: Reading, ps: seq<string>)
    requires r.current != "" && SectionOpen(r)
    ensures Fold(r, Points(ps)) ==
              if r.current == "suggestions" then r.(suggestions := r.suggestions + ps)
              else r.(feedback := r.feedback[r.current := FeedbackOf(r, r.current) + ps])
  {
    if ps == [] {
      if r.current != "suggestions" {
        assert FeedbackOf(r, r.current) + ps == FeedbackOf(r, r.current);
        assert r.feedback[r.current := r.feedback[r.current]] == r.feedback;
      }
    } else {
      var init := ps[..|ps| - 1];
      var p := ps[|ps| - 1];
      PointsStep(r, init);
      assert Points(ps)[..|ps| - 1] == Points(init);
      var mid := Fold(r, Points(init));
      assert init + [p] == ps;
      if r.current != "suggestions" {
        assert FeedbackOf(mid, r.current) == FeedbackOf(r, r.current) + init;
        assert FeedbackOf(r, r.current) + init + [p] == FeedbackOf(r, r.current) + ps;
      }
    }
  }

  /** The three section names of the format. */
  predicate SectionName(name: string) {
    name == "persuasiveness" || name == "engagement" || name == "relevance"
  }

  /** A section's score key and feedback header are plain keys ending in their keyword. */
  lemma SectionKeys(name: string)
    requires SectionName(name)
    ensures var key := name + "_score";
            ':' !in key && '\n' !in key && Text.IsTrimmed(key) && |key| >= 5 && key[|key| - 5..] == "score"
    ensures var sect := name + "_feedback";
            ':' !in sect && '\n' !in sect && Text.IsTrimmed(sect) && |sect| >= 8 && sect[|sect| - 8..] == "feedback"
            && sect != "" && sect != "suggestions"
  {
    PlainName(name);
    Suffixed(name, "_score");
    Suffixed(name, "_feedback");
    var sect := name + "_feedback";
    assert sect[|sect| - 1] == 'k';
  }

  lemma PlainName(name: string)
    requires SectionName(name)
    ensures ':' !in name && '\n' !in name && |name| > 0 && !Text.IsSpace(name[0])
  {
    if name == "persuasiveness" {
      assert ':' !in name && '\n' !in name && name[0] == 'p';
    } else if name == "engagement" {
      assert ':' !in name && '\n' !in name && name[0] == 'e';
    } else {
      assert ':' !in name && '\n' !in name && name[0] == 'r';
    }
  }

  lemma Suffixed(name: string, suffix: string)
    requires ':' !in name && '\n' !in name && |name| > 0 && !Text.IsSpace(name[0])
    requires ':' !in suffix && '\n' !in suffix && |suffix| > 0 && !Text.IsSpace(suffix[|suffix| - 1])
    ensures var key := name + suffix;
            ':' !in key && '\n' !in key && Text.IsTrimmed(key) && key[|key| - |suffix|..] == suffix
  {
    var key := name + suffix;
    assert key[0] == name[0] && key[|key| - 1] == suffix[|suffix| - 1];
    assert key[|key| - |suffix|..] == suffix;
  }

  /** No line holds a line break. */
  predicate NoBreaks(lines: seq<string>) {
    forall k :: 0 <= k < |lines| ==> '\n' !in lines[k]
  }

  lemma KindsPair(l1: string, l2: string, k1: LineKind, k2: LineKind)
    requires Classify(l1) == k1 && Classify(l2) == k2
    ensures Kinds([l1, l2]) == [k1, k2]
  {
  }

  lemma HeadScoreClassified(name: string, score: nat)
    requires SectionName(name)
    ensures Classify(NumberLine(name + "_score", score)) == ScoreEntry(name + "_score", Some(score))
  {
    SectionKeys(name);
    ClassifyScoreLine(name + "_score", score);
  }

  lemma HeadHeaderClassified(name: string)
    requires SectionName(name)
    ensures Classify(Header(name + "_feedback")) == FeedbackHeader(name + "_feedback")
  {
    SectionKeys(name);
    ClassifyHeader(name + "_feedback");
  }

  lemma HeadNoBreaks(name: string, score: nat)
    requires SectionName(name)
    ensures NoBreaks([NumberLine(name + "_score", score), Header(name + "_feedback")])
  {
    var l1 := NumberLine(name + "_score", score);
    var l2 := Header(name + "_feedback");
    SectionKeys(name);
    NumberLineNoBreak(name + "_score", score);
    HeaderNoBreak(name + "_feedback");
    assert [l1, l2][0] == l1 && [l1, l2][1] == l2;
  }

  /** The kinds of a block's score line and header. */
  lemma KindsHead(name: string, score: nat)
    requires SectionName(name)
    ensures Kinds([NumberLine(name + "_score", score), Header(name + "_feedback")])
            == [ScoreEntry(name + "_score", Some(score)), FeedbackHeader(name + "_feedback")]
    ensures NoBreaks([NumberLine(name + "_score", score), Header(name + "_feedback")])
  {
    HeadScoreClassified(name, score);
    HeadHeaderClassified(name);
    KindsPair(NumberLine(name + "_score", score), Header(name + "_feedback"),
              ScoreEntry(name + "_score", Some(score)), FeedbackHeader(name + "_feedback"));
    HeadNoBreaks(name, score);
  }

  lemma NumberLineNoBreak(key: string, n: nat)
    requires '\n' !in key
    ensures '\n' !in NumberLine(key, n)
  {
    var d := Text.NatToString(n);
    DigitsPlain(d);
    assert '\n' !in ": ";
    assert NumberLine(key, n) == key + ": " + d;
  }

  lemma HeaderNoBreak(key: string)
    requires '\n' !in key
    ensures '\n' !in Header(key)
  {
  }

  /** The kinds a block's lines are read as. */
  function BlockKinds(name: string, sec: Section): seq<LineKind> {
    [ScoreEntry(name + "_score", Some(sec.score)), FeedbackHeader(name + "_feedback")] + Points(sec.feedback)
  }

  /** The kinds of a block's lines: its score, its header, then its points. */
  lemma KindsBlock(name: string, sec: Section)
    requires SectionName(name)
    requires sec.score >= 0 && forall p :: p in sec.feedback ==> PlainPoint(p)
    ensures Kinds(Block(name, sec)) == BlockKinds(name, sec)
    ensures NoBreaks(Block(name, sec))
  {
    KindsHead(name, sec.score);
    KindsAppend([NumberLine(name + "_score", sec.score), Header(name + "_feedback")], Bullets(sec.feedback));
    KindsBullets(sec.feedback);
  }

  /** Reading a score entry and a header sets the score and opens a fresh section. */
  lemma FoldHead(r: Reading, key: string, score: int, sect: string)
    ensures Fold(r, [ScoreEntry(key, Some(score)), FeedbackHeader(sect)])
            == r.(scores := r.scores[key := Some(score)], current := sect, feedback := r.feedback[sect := []])
  {
    var head := [ScoreEntry(key, Some(score)), FeedbackHeader(sect)];
    assert head[..1] == [head[0]] && head[..1][..0] == [];
    assert Fold(r, head[..1]) == Apply(r, head[0]);
  }

  /** Reading a score entry, a feedback header and points: the section holds exactly those points and stays open. */
  lemma FoldSection(r: Reading, key: string, score: int, sect: string, ps: seq<string>)
    requires sect != "" && sect != "suggestions"
    ensures Fold(r, [ScoreEntry(key, Some(score)), FeedbackHeader(sect)] + Points(ps))
            == r.(scores := r.scores[key := Some(score)], feedback := r.feedback[sect := ps], current := sect)
  {
    var r2 := r.(scores := r.scores[key := Some(score)], current := sect, feedback := r.feedback[sect := []]);
    HeadThenPoints(r, key, score, sect, ps);
    PointsFresh(r2, ps);
    assert r.feedback[sect := []][sect := ps] == r.feedback[sect := ps];
  }

  lemma HeadThenPoints(r: Reading, key: string, score: int, sect: string, ps: seq<string>)
    ensures Fold(r, [ScoreEntry(key, Some(score)), FeedbackHeader(sect)] + Points(ps))
            == Fold(r.(scores := r.scores[key := Some(score)], current := sect, feedback := r.feedback[sect := []]), Points(ps))
  {
    FoldAppend(r, [ScoreEntry(key, Some(score)), FeedbackHeader(sect)], Points(ps));
    FoldHead(r, key, score, sect);
  }

  /** Points read into a freshly opened feedback section become its whole list. */
  lemma PointsFresh(r: Reading, ps: seq<string>)
    requires r.current != "" && r.current != "suggestions" && r.current in r.feedback && r.feedback[r.current] == []
    ensures Fold(r, Points(ps)) == r.(feedback := r.feedback[r.current := ps])
  {
    PointsStep(r, ps);
    assert [] + ps == ps;
  }

  lemma FeedbackKeyOpen(name: string)
    requires SectionName(name)
    ensures name + "_feedback" != "" && name + "_feedback" != "suggestions"
  {
    SectionKeys(name);
  }

  /** Reading a block sets its score, replaces its section's points and leaves that section open. */
  lemma FoldBlock(r: Reading, name: string, sec: Section)
    requires SectionName(name)
    ensures Fold(r, BlockKinds(name, sec))
            == r.(scores := r.scores[name + "_score" := Some(sec.score)],
                  feedback := r.feedback[name + "_feedback" := sec.feedback],
                  current := name + "_feedback")
  {
    FeedbackKeyOpen(name);
    FoldSection(r, name + "_score", sec.score, name + "_feedback", sec.feedback);
  }

  /** The kinds of all the lines of a rendered analysis. */
  function RenderedKinds(a: CopyAnalysis): seq<LineKind> {
    [ScoreEntry("score", Some(a.score))]
    + BlockKinds("persuasiveness", a.persuasiveness)
    + BlockKinds("engagement", a.engagement)
    + BlockKinds("relevance", a.relevance)
    + ([SuggestionsHeader] + Points(a.suggestions))
  }

  lemma KindsSingle(l: string, k: LineKind)
    requires Classify(l) == k
    ensures Kinds([l]) == [k]
  {
  }

  lemma SuggestionsNoBreak()
    ensures NoBreaks([Header("suggestions")])
  {
    assert '\n' !in Header("suggestions");
  }

  lemma KindsLast(ps: seq<string>)
    requires forall p :: p in ps ==> PlainPoint(p)
    ensures Kinds([Header("suggestions")] + Bullets(ps)) == [SuggestionsHeader] + Points(ps)
    ensures NoBreaks([Header("suggestions")] + Bullets(ps))
  {
    ClassifySuggestions("suggestions");
    KindsSingle(Header("suggestions"), SuggestionsHeader);
    KindsAppend([Header("suggestions")], Bullets(ps));
    KindsBullets(ps);
    SuggestionsNoBreak();
    NoBreaksAppend([Header("suggestions")], Bullets(ps));
  }

  lemma ScoreKey()
    ensures var key := "score"; ':' !in key && '\n' !in key && Text.IsTrimmed(key) && |key| >= 5 && key[|key| - 5..] == "score"
  {
  }

  lemma KindsFirst(n: nat)
    ensures Kinds([NumberLine("score", n)]) == [ScoreEntry("score", Some(n))]
    ensures NoBreaks([NumberLine("score", n)])
  {
    ScoreKey();
    KindsScoreLine("score", n);
  }

  lemma KindsScoreLine(key: string, n: nat)
    requires ':' !in key && '\n' !in key && Text.IsTrimmed(key) && |key| >= 5 && key[|key| - 5..] == "score"
    ensures Kinds([NumberLine(key, n)]) == [ScoreEntry(key, Some(n))]
    ensures NoBreaks([NumberLine(key, n)])
  {
    ClassifyScoreLine(key, n);
    KindsSingle(NumberLine(key, n), ScoreEntry(key, Some(n)));
    NumberLineNoBreak(key, n);
  }

  lemma NoBreaksAppend(xs: seq<string>, ys: seq<string>)
    requires NoBreaks(xs) && NoBreaks(ys)
    ensures NoBreaks(xs + ys)
  {
    assert forall k :: 0 <= k < |xs + ys| ==> (xs + ys)[k] == if k < |xs| then xs[k] else ys[k - |xs|];
  }

  lemma KindsOfLines(a: CopyAnalysis)
    requires Expressible(a)
    ensures Kinds(Lines(a)) == RenderedKinds(a)
    ensures NoBreaks(Lines(a))
  {
    var first := [NumberLine("score", a.score)];
    var p := Block("persuasiveness", a.persuasiveness);
    var e := Block("engagement", a.engagement);
    var v := Block("relevance", a.relevance);
    var last := [Header("suggestions")] + Bullets(a.suggestions);
    KindsFirst(a.score);
    KindsBlock("persuasiveness", a.persuasiveness);
    KindsBlock("engagement", a.engagement);
    KindsBlock("relevance", a.relevance);
    KindsLast(a.suggestions);
    KindsAppend(first + p + e + v, last);
    KindsAppend(first + p + e, v);
    KindsAppend(first + p, e);
    KindsAppend(first, p);
    NoBreaksAppend(first, p);
    NoBreaksAppend(first + p, e);
    NoBreaksAppend(first + p + e, v);
    NoBreaksAppend(first + p + e + v, last);
  }

  /** The reading a rendered analysis leaves behind. */
  function Final(a: CopyAnalysis): Reading {
    Reading(map["score" := Some(a.score),
                "persuasiveness" + "_score" := Some(a.persuasiveness.score),
                "engagement" + "_score" := Some(a.engagement.score),
                "relevance" + "_score" := Some(a.relevance.score)],
            map["persuasiveness" + "_feedback" := a.persuasiveness.feedback,
                "engagement" + "_feedback" := a.engagement.feedback,
                "relevance" + "_feedback" := a.relevance.feedback],
            a.suggestions, "suggestions")
  }

  lemma FoldRenderedFinal(a: CopyAnalysis)
    ensures Fold(Start, RenderedKinds(a)) == Final(a)
  {
    var first := [ScoreEntry("score", Some(a.score))];
    var p := BlockKinds("persuasiveness", a.persuasiveness);
    var e := BlockKinds("engagement", a.engagement);
    var v := BlockKinds("relevance", a.relevance);
    var last := [SuggestionsHeader] + Points(a.suggestions);
    FoldAppend(Start, first + p + e + v, last);
    FoldAppend(Start, first + p + e, v);
    FoldAppend(Start, first + p, e);
    FoldAppend(Start, first, p);
    assert first[..0] == [];
    var r0 := Fold(Start, first);
    FoldBlock(r0, "persuasiveness", a.persuasiveness);
    var r1 := Fold(r0, p);
    FoldBlock(r1, "engagement", a.engagement);
    var r2 := Fold(r1, e);
    FoldBlock(r2, "relevance", a.relevance);
    var r3 := Fold(r2, v);
    FoldAppend(r3, [SuggestionsHeader], Points(a.suggestions));
    assert [SuggestionsHeader][..0] == [];
    PointsStep(r3.(current := "suggestions"), a.suggestions);
  }

  lemma AssembleFinal(a: CopyAnalysis)
    ensures Assemble(Final(a)) == a
  {
    assert "persuasiveness" + "_score" == "persuasiveness_score";
    assert "engagement" + "_score" == "engagement_score";
    assert "relevance" + "_score" == "relevance_score";
    assert "persuasiveness" + "_feedback" == "persuasiveness_feedback";
    assert "engagement" + "_feedback" == "engagement_feedback";
    assert "relevance" + "_feedback" == "relevance_feedback";
  }

  /** Parsing a reply written in the requested format gives back the analysis it was written from. */
  lemma AnalysisOfRender(a: CopyAnalysis)
    requires Expressible(a)
    ensures Analysis(Render(a)) == a
  {
    KindsOfLines(a);
    Text.SplitJoin(Lines(a), '\n');
    FoldRenderedFinal(a);
    AssembleFinal(a);
  }

  // ---------------------------------------------------------------- compareVariations

  /** The comparison: `winner` as the reply's text (None is `null`), `confidence` None when `parseInt` gave NaN. */
  datatype Comparison = Comparison(winner: Option<string>, confidence: Option<int>, recommendations: seq<string>)

  const Unread: Comparison := Comparison(None, Some(0), [])

  /** What a comparison line is, checked in the parser's order. */
  datatype CompareKind = WinnerLine(text: string) | ConfidenceLine(number: Option<int>) | Recommendation(point: string) | Ignored

  function ClassifyCompare(line: string): CompareKind {
    if Text.StartsWith(line, "winner:") then WinnerLine(Text.Trim(Field(line, 1)))
    else if Text.StartsWith(line, "confidence:") then ConfidenceLine(Text.ParseInt(Text.Trim(Field(line, 1))))
    else if IsBullet(line) then Recommendation(Drop2(Text.Trim(line)))
    else Ignored
  }

  /** The effect of a comparison line: the text `null` clears the winner. */
  function ApplyCompare(c: Comparison, k: CompareKind): Comparison {
    match k
    case WinnerLine(value) => c.(winner := if value == "null" then None else Some(value))
    case ConfidenceLine(value) => c.(confidence := value)
    case Recommendation(p) => c.(recommendations := c.recommendations + [p])
    case Ignored => c
  }

  function CompareKinds(lines: seq<string>): (ks: seq<CompareKind>)
    ensures |ks| == |lines| && forall k :: 0 <= k < |lines| ==> ks[k] == ClassifyCompare(lines[k])
  {
    seq(|lines|, k requires 0 <= k < |lines| => ClassifyCompare(lines[k]))
  }

  function CompareFold(c: Comparison, ks: seq<CompareKind>): Comparison {
    if ks == [] then c else ApplyCompare(CompareFold(c, ks[..|ks| - 1]), ks[|ks| - 1])
  }

  function ComparisonOf(reply: string): Comparison {
    CompareFold(Unread, CompareKinds(Text.Split(reply, "\n")))
  }

  /** `compareVariations`' parsing loop. */
  method CompareReply(reply: string) returns (c: Comparison)
    ensures c == ComparisonOf(reply)
  {
    var lines := Text.Split(reply, "\n");
    ghost var ks := CompareKinds(lines);
    c := Unread;
    var i := 0;
    while i < |lines|
      invariant 0 <= i <= |lines|
      invariant c == CompareFold(Unread, ks[..i])
    {
      CompareFoldStep(Unread, ks, i);
      c := ApplyCompare(c, ClassifyCompare(lines[i]));
      i := i + 1;
    }
    assert ks[..i] == ks;
  }

  lemma CompareFoldStep(c: Comparison, ks: seq<CompareKind>, i: nat)
    requires i < |ks|
    ensures CompareFold(c, ks[..i + 1]) == ApplyCompare(CompareFold(c, ks[..i]), ks[i])
  {
    assert ks[..i + 1][..i] == ks[..i];
  }

  datatype Variant = A | B

  /** How the format writes a winner: `A`, `B` or `null`. */
  function VariantText(v: Option<Variant>): (t: string)
    ensures |t| > 0 && ':' !in t && '\n' !in t && Text.IsTrimmed(t)
    ensures t == "null" <==> v.None?
  {
    match v
    case None => "null"
    case Some(A) => "A"
    case Some(B) => "B"
  }

  /** A comparison reply in the requested format. */
  function ComparisonLines(winner: Option<Variant>, confidence: nat, recommendations: seq<string>): seq<string> {
    ["winner: " + VariantText(winner), NumberLine("confidence", confidence)] + Bullets(recommendations)
  }

  lemma {:induction false} CompareFoldAppend(c: Comparison, xs: seq<CompareKind>, ys: seq<CompareKind>)
    ensures CompareFold(c, xs + ys) == CompareFold(CompareFold(c, xs), ys)
  {
    if ys == [] {
      assert xs + ys == xs;
    } else {
      var zs := xs + ys;
      CompareFoldAppend(c, xs, ys[..|ys| - 1]);
      assert zs[..|zs| - 1] == xs + ys[..|ys| - 1];
      assert zs[|zs| - 1] == ys[|ys| - 1];
    }
  }

  /** `winner: t` reads as the winner `t`, and `null` as none. */
  lemma ClassifyWinner(v: Option<Variant>)
    ensures ClassifyCompare("winner: " + VariantText(v)) == WinnerLine(VariantText(v))
  {
    var t := VariantText(v);
    var line := "winner: " + t;
    assert line[..7] == "winner:";
    assert line == "winner" + ":" + (" " + t);
    SplitAtColon("winner", " " + t);
    assert (" " + t)[1..] == t;
    assert Text.TrimStart(" " + t) == t;
    Text.TrimTrimmed(t);
  }

  /** A line starting with `confidence:` (and not `winner:`) sets the confidence to what `parseInt` makes of its second piece. */
  lemma ClassifiedConfidence(line: string)
    requires !Text.StartsWith(line, "winner:") && Text.StartsWith(line, "confidence:")
    ensures ClassifyCompare(line) == ConfidenceLine(Text.ParseInt(Text.Trim(Field(line, 1))))
  {
  }

  /** Any other line whose trimmed text starts with a dash is a recommendation. */
  lemma ClassifiedRecommendation(line: string)
    requires !Text.StartsWith(line, "winner:") && !Text.StartsWith(line, "confidence:") && IsBullet(line)
    ensures ClassifyCompare(line) == Recommendation(Drop2(Text.Trim(line)))
  {
  }

  lemma ConfidenceStarts(n: nat)
    ensures !Text.StartsWith(NumberLine("confidence", n), "winner:")
    ensures Text.StartsWith(NumberLine("confidence", n), "confidence:")
  {
    var line := NumberLine("confidence", n);
    assert line[0] == 'c';
    assert line[..11] == "confidence:";
  }

  lemma ConfidenceField(n: nat)
    ensures Field(NumberLine("confidence", n), 1) == " " + Text.NatToString(n)
  {
    assert ':' !in "confidence";
    NumberLineFields("confidence", n);
  }

  /** `confidence: n` reads as the confidence `n`. */
  lemma ClassifyConfidence(n: nat)
    ensures ClassifyCompare(NumberLine("confidence", n)) == ConfidenceLine(Some(n))
  {
    ConfidenceStarts(n);
    ClassifiedConfidence(NumberLine("confidence", n));
    ConfidenceField(n);
    NumberReadsBack(n);
  }

  lemma BulletUnlabelled(p: string)
    ensures !Text.StartsWith("- " + p, "winner:") && !Text.StartsWith("- " + p, "confidence:")
  {
    assert ("- " + p)[0] == '-';
  }

  /** The bullet line `- p` of a plain point reads back as the recommendation `p`. */
  lemma ClassifyRecommendation(p: string)
    requires PlainPoint(p)
    ensures ClassifyCompare("- " + p) == Recommendation(p)
  {
    BulletTrimmed(p);
    BulletUnlabelled(p);
    ClassifiedRecommendation("- " + p);
  }

  function Recommendations(ps: seq<string>): (r: seq<CompareKind>)
    ensures |r| == |ps| && forall k :: 0 <= k < |ps| ==> r[k] == Recommendation(ps[k])
  {
    seq(|ps|, k requires 0 <= k < |ps| => Recommendation(ps[k]))
  }

  lemma CompareKindsAppend(xs: seq<string>, ys: seq<string>)
    ensures CompareKinds(xs + ys) == CompareKinds(xs) + CompareKinds(ys)
  {
    assert forall k :: 0 <= k < |xs + ys| ==> (xs + ys)[k] == if k < |xs| then xs[k] else ys[k - |xs|];
  }

  lemma CompareKindsBullets(ps: seq<string>)
    requires forall p :: p in ps ==> PlainPoint(p)
    ensures CompareKinds(Bullets(ps)) == Recommendations(ps)
  {
    forall k | 0 <= k < |ps|
      ensures ClassifyCompare(Bullets(ps)[k]) == Recommendation(ps[k])
    {
      assert ps[k] in ps;
      ClassifyRecommendation(ps[k]);
    }
  }

  lemma CompareKindsPair(l1: string, l2: string, k1: CompareKind, k2: CompareKind)
    requires ClassifyCompare(l1) == k1 && ClassifyCompare(l2) == k2
    ensures CompareKinds([l1, l2]) == [k1, k2]
  {
    CompareKindsTwo([l1, l2]);
  }

  lemma CompareKindsTwo(ls: seq<string>)
    requires |ls| == 2
    ensures CompareKinds(ls) == [ClassifyCompare(ls[0]), ClassifyCompare(ls[1])]
  {
    var ks, e := CompareKinds(ls), [ClassifyCompare(ls[0]), ClassifyCompare(ls[1])];
    assert |ks| == |e| == 2;
    assert ks[0] == e[0] && ks[1] == e[1];
  }

  /** Reading recommendations appends them all, in order. */
  lemma {:induction false} RecommendationsStep(c: Comparison, ps: seq<string>)
    ensures CompareFold(c, Recommendations(ps)) == c.(recommendations := c.recommendations + ps)
  {
    if ps == [] {
      assert c.recommendations + ps == c.recommendations;
    } else {
      var init := ps[..|ps| - 1];
      var p := ps[|ps| - 1];
      RecommendationsStep(c, init);
      assert Recommendations(ps)[..|ps| - 1] == Recommendations(init);
      assert c.recommendations + init + [p] == c.recommendations + ps;
    }
  }

  /** The kinds of a comparison reply's lines. */
  lemma CompareKindsOfLines(winner: Option<Variant>, confidence: nat, recommendations: seq<string>)
    requires forall p :: p in recommendations ==> PlainPoint(p)
    ensures CompareKinds(ComparisonLines(winner, confidence, recommendations))
            == [WinnerLine(VariantText(winner)), ConfidenceLine(Some(confidence))] + Recommendations(recommendations)
  {
    var w := "winner: " + VariantText(winner);
    var k := NumberLine("confidence", confidence);
    ClassifyWinner(winner);
    ClassifyConfidence(confidence);
    CompareKindsPair(w, k, WinnerLine(VariantText(winner)), ConfidenceLine(Some(confidence)));
    CompareKindsBullets(recommendations);
    CompareKindsAppend([w, k], Bullets(recommendations));
  }

  lemma WinnerNoBreak(v: Option<Variant>)
    ensures '\n' !in "winner: " + VariantText(v)
  {
    assert '\n' !in "winner: ";
  }

  lemma ComparisonNoBreaks(winner: Option<Variant>, confidence: nat, recommendations: seq<string>)
    requires forall p :: p in recommendations ==> PlainPoint(p)
    ensures NoBreaks(ComparisonLines(winner, confidence, recommendations))
  {
    var w := "winner: " + VariantText(winner);
    var k := NumberLine("confidence", confidence);
    WinnerNoBreak(winner);
    assert '\n' !in "confidence";
    NumberLineNoBreak("confidence", confidence);
    assert [w, k][0] == w && [w, k][1] == k;
    KindsBullets(recommendations);
    NoBreaksAppend([w, k], Bullets(recommendations));
  }

  lemma CompareFoldHead(text: string, confidence: nat)
    ensures CompareFold(Unread, [WinnerLine(text), ConfidenceLine(Some(confidence))])
            == Comparison(if text == "null" then None else Some(text), Some(confidence), [])
  {
    var head := [WinnerLine(text), ConfidenceLine(Some(confidence))];
    assert head[..1] == [head[0]] && head[..1][..0] == [];
    assert CompareFold(Unread, head[..1]) == ApplyCompare(Unread, head[0]);
  }

  /** The lines of a comparison reply come back from the text and are read as a winner, a confidence and recommendations. */
  lemma ComparisonKindsOfText(winner: Option<Variant>, confidence: nat, recommendations: seq<string>)
    requires forall p :: p in recommendations ==> PlainPoint(p)
    ensures ComparisonOf(Text.Join(ComparisonLines(winner, confidence, recommendations), "\n"))
            == CompareFold(Unread, [WinnerLine(VariantText(winner)), ConfidenceLine(Some(confidence))] + Recommendations(recommendations))
  {
    ComparisonNoBreaks(winner, confidence, recommendations);
    Text.SplitJoin(ComparisonLines(winner, confidence, recommendations), '\n');
    CompareKindsOfLines(winner, confidence, recommendations);
  }

  lemma CompareFoldAll(text: string, confidence: nat, recommendations: seq<string>)
    ensures CompareFold(Unread, [WinnerLine(text), ConfidenceLine(Some(confidence))] + Recommendations(recommendations))
            == Comparison(if text == "null" then None else Some(text), Some(confidence), recommendations)
  {
    var head := [WinnerLine(text), ConfidenceLine(Some(confidence))];
    CompareFoldAppend(Unread, head, Recommendations(recommendations));
    CompareFoldHead(text, confidence);
    RecommendationsStep(CompareFold(Unread, head), recommendations);
    assert [] + recommendations == recommendations;
  }

  /** Reading a comparison reply written in the requested format gives back its winner, confidence and recommendations. */
  lemma ComparisonRoundTrip(winner: Option<Variant>, confidence: nat, recommendations: seq<string>)
    requires forall p :: p in recommendations ==> PlainPoint(p)
    ensures ComparisonOf(Text.Join(ComparisonLines(winner, confidence, recommendations), "\n"))
            == Comparison(if winner.None? then None else Some(VariantText(winner)), Some(confidence), recommendations)
  {
    ComparisonKindsOfText(winner, confidence, recommendations);
    CompareFoldAll(VariantText(winner), confidence, recommendations);
  }

  // ---------------------------------------------------------------- score labels

  function ScoreLabel(score: int): string {
    if score >= 90 then "Excellent"
    else if score >= 80 then "Very Good"
    else if score >= 70 then "Good"
    else if score >= 60 then "Fair"
    else "Needs Improvement"
  }

  function ScoreColor(score: int): string {
    if score >= 90 then "text-green-600 bg-green-50"
    else if score >= 80 then "text-blue-600 bg-blue-50"
    else if score >= 70 then "text-yellow-600 bg-yellow-50"
    else if score >= 60 then "text-orange-600 bg-orange-50"
    else "text-red-600 bg-red-50"
  }

  /** The position of a label from worst (0) to best (4). */
  function LabelRank(text: string): int {
    if text == "Excellent" then 4
    else if text == "Very Good" then 3
    else if text == "Good" then 2
    else if text == "Fair" then 1
    else 0
  }

  /** A higher score never gets a worse label, and the colours change at exactly the label's cut points. */
  lemma LabelsMonotone(s: int, t: int)
    requires s <= t
    ensures LabelRank(ScoreLabel(s)) <= LabelRank(ScoreLabel(t))
    ensures ScoreLabel(s) == ScoreLabel(t) <==> ScoreColor(s) == ScoreColor(t)
  {
  }
}
