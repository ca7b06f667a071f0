/**
 * `AICopywriting`: the ad-copy workspace. A generated reply is cut into
 * `Label:\ncontent` sections that fill the four fields of an ad copy; the
 * fields are edited under per-field character limits; the copy is sent for
 * analysis as four lines. The language model and the analyser's network call
 * are parameters (their replies, or the error they fail with); the editor
 * panel the workspace writes into is left out.
 */
module AdCopy {
  import opened Wrappers
  import Text
  import CopyAnalyzer

  /** The four fields of an ad copy. */
  datatype Field = Headline | Subheadline | Description | Cta

  datatype Copy = Copy(headline: string, subheadline: string, description: string, cta: string)

  /** The copy the workspace starts with, and each parse starts from. */
  const Blank := Copy("", "", "", "")

  /** `characterLimits[field]`. */
  function Limit(f: Field): nat {
    match f
    case Headline => 40
    case Subheadline => 30
    case Description => 125
    case Cta => 20
  }

  function Get(c: Copy, f: Field): string {
    match f
    case Headline => c.headline
    case Subheadline => c.subheadline
    case Description => c.description
    case Cta => c.cta
  }

  /** `{ ...c, [f]: v }`. */
  function With(c: Copy, f: Field, v: string): (r: Copy)
    ensures Get(r, f) == v
    ensures forall g :: g != f ==> Get(r, g) == Get(c, g)
  {
    match f
    case Headline => c.(headline := v)
    case Subheadline => c.(subheadline := v)
    case Description => c.(description := v)
    case Cta => c.(cta := v)
  }

  /** The property name of a field. */
  function Key(f: Field): string {
    match f
    case Headline => "headline"
    case Subheadline => "subheadline"
    case Description => "description"
    case Cta => "cta"
  }

  /** The field a lower-cased label names, if any. */
  function FieldOf(key: string): (r: Option<Field>)
    ensures r.Some? ==> Key(r.value) == key
    ensures r.None? ==> forall f :: Key(f) != key
  {
    if key == "headline" then Some(Headline)
    else if key == "subheadline" then Some(Subheadline)
    else if key == "description" then Some(Description)
    else if key == "cta" then Some(Cta)
    else None
  }

  lemma FieldOfKey(f: Field)
    ensures FieldOf(Key(f)) == Some(f)
  {
  }

  // ---------------------------------------------------------------- parsing a generated reply

  /** What one `\n\n`-separated section of the reply does to the copy. */
  datatype Entry = Sets(field: Field, value: string) | Ignored

  /**
   * `const [label, content] = section.split(':\n')`: a section whose text after
   * the first `:\n` is non-empty and whose label lower-cases to a field's name
   * sets that field to the trimmed text; any other section changes nothing.
   */
  function EntryOf(section: string): Entry {
    var pieces := Text.Split(section, ":\n");
    var content := if |pieces| > 1 then pieces[1] else "";
    if content == "" then Ignored
    else match FieldOf(Text.Lower(pieces[0]))
      case Some(f) => Sets(f, Text.Trim(content))
      case None => Ignored
  }

  function Entries(sections: seq<string>): (es: seq<Entry>)
    ensures |es| == |sections|
    ensures forall k :: 0 <= k < |sections| ==> es[k] == EntryOf(sections[k])
  {
    seq(|sections|, k requires 0 <= k < |sections| => EntryOf(sections[k]))
  }

  function Apply(c: Copy, e: Entry): Copy {
    match e
    case Sets(f, v) => With(c, f, v)
    case Ignored => c
  }

  /** The copy after the entries, first to last. */
  function Fold(c: Copy, es: seq<Entry>): Copy {
    if es == [] then c else Apply(Fold(c, es[..|es| - 1]), es[|es| - 1])
  }

  /** The copy `handleGenerate` builds from the model's reply. */
  function Parse(reply: string): Copy {
    Fold(Blank, Entries(Text.Split(reply, "\n\n")))
  }

  /** The `sections.forEach` loop of `handleGenerate`. */
  method ParseReply(reply: string) returns (c: Copy)
    ensures c == Parse(reply)
  {
    var sections := Text.Split(reply, "\n\n");
    ghost var es := Entries(sections);
    c := Blank;
    var i := 0;
    while i < |sections|
      invariant 0 <= i <= |sections|
      invariant c == Fold(Blank, es[..i])
    {
      var e := EntryOf(sections[i]);
      if e.Sets? {
        c := With(c, e.field, e.value);
      }
      FoldStep(Blank, es, i);
      i := i + 1;
    }
    assert es[..|sections|] == es;
  }

  lemma {:induction false} FoldAppend(c: Copy, xs: seq<Entry>, ys: seq<Entry>)
    ensures Fold(c, xs + ys) == Fold(Fold(c, xs), ys)
    decreases |ys|
  {
    if ys == [] {
      assert xs + ys == xs;
    } else {
      assert (xs + ys)[..|xs + ys| - 1] == xs + ys[..|ys| - 1];
      FoldAppend(c, xs, ys[..|ys| - 1]);
    }
  }

  /** A field no section names keeps the value it had. */
  lemma {:induction false} Untouched(c: Copy, es: seq<Entry>, f: Field)
    requires forall k :: 0 <= k < |es| ==> es[k] != Ignored ==> es[k].field != f
    ensures Get(Fold(c, es), f) == Get(c, f)
  {
    if es != [] {
      Untouched(c, es[..|es| - 1], f);
    }
  }

  /** The last section that names a field decides its value: a later section overrides an earlier one. */
  lemma LastWins(c: Copy, es: seq<Entry>, k: nat)
    requires k < |es| && es[k].Sets?
    requires forall j :: k < j < |es| ==> es[j] != Ignored ==> es[j].field != es[k].field
    ensures Get(Fold(c, es), es[k].field) == es[k].value
  {
    assert es == es[..k + 1] + es[k + 1..];
    FoldAppend(c, es[..k + 1], es[k + 1..]);
    assert es[..k + 1][..k] == es[..k];
    Untouched(Fold(c, es[..k + 1]), es[k + 1..], es[k].field);
  }

  /** A field that no section of the reply names stays empty. */
  lemma UnnamedStaysEmpty(reply: string, f: Field)
    requires forall s :: s in Text.Split(reply, "\n\n") ==> EntryOf(s) != Ignored ==> EntryOf(s).field != f
    ensures Get(Parse(reply), f) == ""
  {
    var sections := Text.Split(reply, "\n\n");
    var es := Entries(sections);
    forall k | 0 <= k < |es|
      ensures es[k] != Ignored ==> es[k].field != f
    {
      assert sections[k] in sections;
    }
    Untouched(Blank, es, f);
  }

  /** A section with no `:\n` in it is ignored, whatever it says. */
  lemma NoSeparatorIgnored(section: string)
    requires !Text.Contains(section, ":\n")
    ensures EntryOf(section) == Ignored
  {
    Text.SplitNoSep(section, ":\n");
  }

  /** A section whose label names no field is ignored, whatever follows it. */
  lemma UnknownLabelIgnored(name: string, v: string)
    requires ':' !in name && '\n' !in name
    requires FieldOf(Text.Lower(name)) == None
    ensures EntryOf(name + ":\n" + v) == Ignored
  {
    NoSepInLabel(name, v, ":\n");
    Text.SplitFirst(name, ":\n", v);
  }

  // ---------------------------------------------------------------- the editor text round trip

  /** A field value the generated text can carry: non-empty, trimmed, with no section break and no `:\n`. */
  predicate Plain(v: string) {
    v != "" && Text.IsTrimmed(v) && !Text.Contains(v, "\n\n") && !Text.Contains(v, ":\n")
  }

  predicate PlainCopy(c: Copy) {
    Plain(c.headline) && Plain(c.subheadline) && Plain(c.description) && Plain(c.cta)
  }

  /** The label `handleGenerate` writes a field under in the editor. */
  function Label(f: Field): string {
    match f
    case Headline => "Headline"
    case Subheadline => "Subheadline"
    case Description => "Description"
    case Cta => "CTA"
  }

  function Section(f: Field, v: string): string {
    Label(f) + ":\n" + v
  }

  /** The first section of the editor text, which names no field. */
  const Title := "Generated Copy:"

  /** The sections `handleGenerate` writes into the editor after a generation. */
  function EditorParts(c: Copy): seq<string> {
    [Title, Section(Headline, c.headline), Section(Subheadline, c.subheadline),
     Section(Description, c.description), Section(Cta, c.cta)]
  }

  function EditorText(c: Copy): string {
    Text.Join(EditorParts(c), "\n\n")
  }

  /** Text that lacks one of the characters of `sep` cannot contain `sep`. */
  lemma MissingChar(s: string, sep: string, i: nat)
    requires i < |sep| && sep[i] !in s
    ensures !Text.Contains(s, sep)
  {
    forall j ensures !Text.At(s, sep, j) {
      if 0 <= j && j + |sep| <= |s| {
        assert s[j..j + |sep|][i] == s[j + i];
      }
    }
  }

  /** Lower-casing maps `s` to `t` when it maps each character of `s` to the one of `t` at the same place. */
  lemma LowerEach(s: string, t: string)
    requires |s| == |t| && forall i :: 0 <= i < |s| ==> Text.LowerChar(s[i]) == t[i]
    ensures Text.Lower(s) == t
  {
  }

  lemma LabelLower(f: Field)
    ensures Text.Lower(Label(f)) == Key(f)
  {
    match f
    case Headline => LowerEach("Headline", "headline");
    case Subheadline => LowerEach("Subheadline", "subheadline");
    case Description => LowerEach("Description", "description");
    case Cta => LowerEach("CTA", "cta");
  }

  lemma LabelPlain(f: Field)
    ensures ':' !in Label(f) && '\n' !in Label(f)
  {
  }

  /** A label with no `:` or newline in it cannot hold or start a separator. */
  lemma NoSepInLabel(name: string, v: string, sep: string)
    requires ':' !in name && '\n' !in name
    requires |sep| == 2 && (sep[0] == ':' || sep[0] == '\n')
    ensures forall j :: 0 <= j < |name| ==> !Text.At(name + sep + v, sep, j)
  {
    var s := name + sep + v;
    forall j | 0 <= j < |name|
      ensures !Text.At(s, sep, j)
    {
      assert s[j] == name[j];
      assert j + |sep| <= |s| ==> s[j..j + |sep|][0] == s[j];
    }
  }

  lemma SplitSection(f: Field, v: string)
    requires Plain(v)
    ensures Text.Split(Section(f, v), ":\n") == [Label(f), v]
  {
    LabelPlain(f);
    NoSepInLabel(Label(f), v, ":\n");
    Text.SplitFirst(Label(f), ":\n", v);
    Text.SplitNoSep(v, ":\n");
  }

  lemma EntryOfSection(f: Field, v: string)
    requires Plain(v)
    ensures EntryOf(Section(f, v)) == Sets(f, v)
  {
    SplitSection(f, v);
    LabelLower(f);
    FieldOfKey(f);
    Text.TrimTrimmed(v);
  }

  lemma TitleHasNoNewline()
    ensures '\n' !in Title
  {
  }

  lemma EntryOfTitle()
    ensures EntryOf(Title) == Ignored
  {
    TitleHasNoNewline();
    MissingChar(Title, ":\n", 1);
    NoSeparatorIgnored(Title);
  }

  /** The text of a section straddling position `j`, `j + 1`. */
  lemma PairAt(s: string, j: nat)
    requires j + 2 <= |s|
    ensures Text.At(s, "\n\n", j) <==> s[j] == '\n' && s[j + 1] == '\n'
  {
    assert s[j..j + 2] == [s[j], s[j + 1]];
  }

  /** No section break inside a section, and none straddling its end. */
  lemma SectionNoBreak(f: Field, v: string)
    requires Plain(v)
    ensures !Text.Contains(Section(f, v), "\n\n")
    ensures Section(f, v)[|Section(f, v)| - 1] != '\n'
  {
    var name := Label(f);
    var s := Section(f, v);
    LabelPlain(f);
    forall j ensures !Text.At(s, "\n\n", j) {
      if 0 <= j && j + 2 <= |s| {
        PairAt(s, j);
        if j < |name| {
          assert s[j] == name[j];
        } else if j == |name| {
          assert s[j] == ':';
        } else if j == |name| + 1 {
          assert s[j + 1] == v[0];
        } else {
          var i := j - |name| - 2;
          assert s[j] == v[i] && s[j + 1] == v[i + 1];
          PairAt(v, i);
        }
      }
    }
    assert s[|s| - 1] == v[|v| - 1];
  }

  /** Splitting five sections joined by section breaks gives them back. */
  lemma SplitFive(p0: string, p1: string, p2: string, p3: string, p4: string)
    requires !Text.Contains(p0, "\n\n") && !Text.Contains(p1, "\n\n") && !Text.Contains(p2, "\n\n")
    requires !Text.Contains(p3, "\n\n") && !Text.Contains(p4, "\n\n")
    requires p0 != [] && p0[|p0| - 1] != '\n' && p1 != [] && p1[|p1| - 1] != '\n'
    requires p2 != [] && p2[|p2| - 1] != '\n' && p3 != [] && p3[|p3| - 1] != '\n'
    ensures Text.Split(Text.Join([p0, p1, p2, p3, p4], "\n\n"), "\n\n") == [p0, p1, p2, p3, p4]
  {
    var parts := [p0, p1, p2, p3, p4];
    assert forall k :: 0 <= k < |parts| ==> !Text.Contains(parts[k], ['\n', '\n']);
    assert forall k :: 0 <= k < |parts| - 1 ==> parts[k] == [] || parts[k][|parts[k]| - 1] != '\n';
    Text.SplitJoinDouble(parts, '\n');
  }

  lemma SplitEditorText(c: Copy)
    requires PlainCopy(c)
    ensures Text.Split(EditorText(c), "\n\n") == EditorParts(c)
  {
    TitleHasNoNewline();
    MissingChar(Title, "\n\n", 0);
    SectionNoBreak(Headline, c.headline);
    SectionNoBreak(Subheadline, c.subheadline);
    SectionNoBreak(Description, c.description);
    SectionNoBreak(Cta, c.cta);
    SplitFive(Title, Section(Headline, c.headline), Section(Subheadline, c.subheadline),
              Section(Description, c.description), Section(Cta, c.cta));
  }

  lemma EntriesFive(parts: seq<string>)
    requires |parts| == 5
    ensures Entries(parts) == [EntryOf(parts[0]), EntryOf(parts[1]), EntryOf(parts[2]), EntryOf(parts[3]), EntryOf(parts[4])]
  {
  }

  /** The entries the editor sections produce. */
  function Filled(c: Copy): seq<Entry> {
    [Ignored, Sets(Headline, c.headline), Sets(Subheadline, c.subheadline),
     Sets(Description, c.description), Sets(Cta, c.cta)]
  }

  lemma EntriesOfEditorParts(c: Copy)
    requires PlainCopy(c)
    ensures Entries(EditorParts(c)) == Filled(c)
  {
    EntriesFive(EditorParts(c));
    EntryOfTitle();
    EntryOfSection(Headline, c.headline);
    EntryOfSection(Subheadline, c.subheadline);
    EntryOfSection(Description, c.description);
    EntryOfSection(Cta, c.cta);
  }

  lemma FoldStep(c: Copy, es: seq<Entry>, i: nat)
    requires i < |es|
    ensures Fold(c, es[..i + 1]) == Apply(Fold(c, es[..i]), es[i])
  {
    assert es[..i + 1][..i] == es[..i];
  }

  lemma FoldFilled(c: Copy)
    ensures Fold(Blank, Filled(c)) == c
  {
    var es := Filled(c);
    assert es[..0] == [];
    FoldStep(Blank, es, 0);
    FoldStep(Blank, es, 1);
    FoldStep(Blank, es, 2);
    FoldStep(Blank, es, 3);
    FoldStep(Blank, es, 4);
    assert es[..5] == es;
  }

  /** Parsing the text a generation writes into the editor gives back the generated copy. */
  lemma EditorTextRoundTrip(c: Copy)
    requires PlainCopy(c)
    ensures Parse(EditorText(c)) == c
  {
    SplitEditorText(c);
    EntriesOfEditorParts(c);
    FoldFilled(c);
  }

  // ---------------------------------------------------------------- editing and counting

  /** Every field fits its limit, counted in UTF-16 code units as `.length` counts. */
  predicate WithinLimits(c: Copy) {
    forall f :: Text.Utf16Length(Get(c, f)) <= Limit(f)
  }

  /** `handleInputChange(f, value)`: the field takes the value only when its `.length` fits the field's limit. */
  function Edited(c: Copy, f: Field, value: string): (r: Copy)
    ensures Get(r, f) == (if Text.Utf16Length(value) <= Limit(f) then value else Get(c, f))
    ensures forall g :: g != f ==> Get(r, g) == Get(c, g)
  {
    if Text.Utf16Length(value) <= Limit(f) then With(c, f, value) else c
  }

  /** Edits never take a field past its limit. */
  lemma EditKeepsLimits(c: Copy, f: Field, value: string)
    requires WithinLimits(c)
    ensures WithinLimits(Edited(c, f, value))
  {
    var r := Edited(c, f, value);
    forall g ensures Text.Utf16Length(Get(r, g)) <= Limit(g) {
      if g != f {
        assert Get(r, g) == Get(c, g);
      }
    }
  }

  /** `getCharacterCount(f)`: `length/limit`, the length in UTF-16 code units. */
  function CharacterCount(c: Copy, f: Field): string {
    Text.NatToString(Text.Utf16Length(Get(c, f))) + "/" + Text.NatToString(Limit(f))
  }

  /** The counter reads back, on either side of its `/`, as the field's length and its limit. */
  lemma CharacterCountReadsBack(c: Copy, f: Field)
    ensures var parts := Text.Split(CharacterCount(c, f), "/");
            |parts| == 2
            && Text.ParseInt(parts[0]) == Some(Text.Utf16Length(Get(c, f)))
            && Text.ParseInt(parts[1]) == Some(Limit(f))
  {
    var a := Text.NatToString(Text.Utf16Length(Get(c, f)));
    var b := Text.NatToString(Limit(f));
    assert '/' !in a && '/' !in b by {
      assert forall i :: 0 <= i < |a| ==> Text.IsDigit(a[i]);
      assert forall i :: 0 <= i < |b| ==> Text.IsDigit(b[i]);
    }
    assert Text.Join([a, b], "/") == CharacterCount(c, f);
    Text.SplitJoin([a, b], '/');
    Text.ParseIntNatToString(Text.Utf16Length(Get(c, f)));
    Text.ParseIntNatToString(Limit(f));
  }

  /** The text `handleAnalyze` sends to the analyser: the four fields, one per line. */
  function FullCopy(c: Copy): string {
    c.headline + "\n" + c.subheadline + "\n" + c.description + "\n" + c.cta
  }

  /** Fields without line breaks come back from the analysed text line by line. */
  lemma FullCopyLines(c: Copy)
    requires forall f :: '\n' !in Get(c, f)
    ensures Text.Split(FullCopy(c), "\n") == [c.headline, c.subheadline, c.description, c.cta]
  {
    var parts := [c.headline, c.subheadline, c.description, c.cta];
    assert Get(c, Headline) == c.headline && Get(c, Subheadline) == c.subheadline;
    assert Get(c, Description) == c.description && Get(c, Cta) == c.cta;
    assert parts[3..] == [c.cta] && parts[2..][1..] == parts[3..] && parts[1..][1..] == parts[2..];
    assert Text.Join(parts[2..], "\n") == c.description + "\n" + c.cta;
    assert Text.Join(parts[1..], "\n") == c.subheadline + "\n" + (c.description + "\n" + c.cta);
    assert Text.Join(parts, "\n") == c.headline + "\n" + (c.subheadline + "\n" + (c.description + "\n" + c.cta));
    assert FullCopy(c) == c.headline + "\n" + (c.subheadline + "\n" + (c.description + "\n" + c.cta));
    Text.SplitJoin(parts, '\n');
  }

  // ---------------------------------------------------------------- the workspace

  const BlankDescriptionError := "Please enter a business description"
  const GenerateError := "Failed to generate copy. Please try again."
  const NoCopyError := "Please generate or enter copy first"
  const AnalyzeError := "Failed to analyze copy. Please try again."

  /** The state of the `AICopywriting` component. */
  class Workspace {
    var copy: Copy
    var error: Option<string>
    var analysis: Option<CopyAnalyzer.CopyAnalysis>

    constructor ()
      ensures copy == Blank && error == None && analysis == None
    {
      copy := Blank;
      error := None;
      analysis := None;
    }

    method InputChange(f: Field, value: string)
      modifies this
      ensures copy == Edited(old(copy), f, value)
      ensures error == old(error) && analysis == old(analysis)
    {
      if Text.Utf16Length(value) <= Limit(f) {
        copy := With(copy, f, value);
      }
    }

    /** The counter shown under field `f`. */
    function CharacterCountOf(f: Field): (r: string)
      reads this
      ensures r == CharacterCount(copy, f)
    {
      CharacterCount(copy, f)
    }

    /**
     * `handleGenerate`: a blank business description is refused before any
     * request; otherwise `reply` is what the model answered, or the error the
     * request failed with. `requested` tells whether the model was asked.
     */
    method Generate(businessDescription: string, reply: Result<string>) returns (requested: bool)
      modifies this
      ensures requested == !Text.IsBlank(businessDescription)
      ensures !requested ==> copy == old(copy) && error == Some(BlankDescriptionError)
      ensures requested && reply.Ok? ==> copy == Parse(reply.value) && error == None
      ensures requested && reply.Err? ==> copy == old(copy) && error == Some(GenerateError)
      ensures analysis == old(analysis)
    {
      if Text.IsBlank(businessDescription) {
        error := Some(BlankDescriptionError);
        return false;
      }
      error := None;
      match reply {
        case Ok(text) =>
          copy := ParseReply(text);
        case Err(_) =>
          error := Some(GenerateError);
      }
      return true;
    }

    /**
     * `handleAnalyze`: refused while the headline or the description is empty;
     * otherwise `reply` is the analyser's answer to `FullCopy(copy)`, or the
     * error the request failed with.
     */
    method Analyze(reply: Result<string>) returns (requested: bool)
      modifies this
      ensures requested == (old(copy).headline != "" && old(copy).description != "")
      ensures !requested ==> error == Some(NoCopyError) && analysis == old(analysis)
      ensures requested && reply.Ok? ==> analysis == Some(CopyAnalyzer.Analysis(reply.value)) && error == None
      ensures requested && reply.Err? ==> analysis == old(analysis) && error == Some(AnalyzeError)
      ensures copy == old(copy)
    {
      if copy.headline == "" || copy.description == "" {
        error := Some(NoCopyError);
        return false;
      }
      error := None;
      match reply {
        case Ok(text) =>
          var a := CopyAnalyzer.AnalyzeReply(text);
          analysis := Some(a);
        case Err(_) =>
          error := Some(AnalyzeError);
      }
      return true;
    }
  }
}
