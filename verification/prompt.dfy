/**
 The grading prompt that `grade_essay` assembles before calling the model.

 The prompt is described twice. `Layout` lists its sections in order and
 `Render` turns them into text; `BuildPrompt` follows the source's
 `prompt += ...` statements one by one, and is proved to produce
 `Render(w, Layout(w, ...))`. The lemmas about `Layout` state the section
 order the language model receives.

 Every fixed string of the prompt (its titles, the band names, the
 expectation bullets, the grading guidance, the opening and closing
 paragraphs) is part of a `Wording` value rather than a literal here, so
 the structural properties below hold whatever those strings say.
 `EssayWording.Source` holds the source's strings and the facts that depend
 on their exact text.
 */
module Prompt {
  import opened Outcomes
  import opened Text

  /** The eight educational stages the grade-level selector offers, in the source's test order. */
  datatype GradeBand =
    | ElementaryK2 | Elementary35 | Middle68 | High910 | High1112
    | CollegeLower | CollegeUpper | Graduate

  /** The position of a band in the order the source tests the names. */
  function BandRank(b: GradeBand): (k: nat)
    ensures k < 8
  {
    match b
    case ElementaryK2 => 0
    case Elementary35 => 1
    case Middle68 => 2
    case High910 => 3
    case High1112 => 4
    case CollegeLower => 5
    case CollegeUpper => 6
    case Graduate => 7
  }

  /** Different bands have different ranks. */
  lemma BandRankInjective(a: GradeBand, b: GradeBand)
    requires BandRank(a) == BandRank(b)
    ensures a == b
  {
  }

  /** The five grading approaches the leniency dial selects between. */
  datatype Leniency = VeryStrict | Strict | Balanced | Lenient | VeryLenient

  /** The approach for a leniency setting; any integer falls in exactly one range. */
  function BucketOf(leniency: int): (b: Leniency)
    ensures b == VeryStrict <==> leniency <= 2
    ensures b == Strict <==> 3 <= leniency <= 4
    ensures b == Balanced <==> 5 <= leniency <= 6
    ensures b == Lenient <==> 7 <= leniency <= 8
    ensures b == VeryLenient <==> 9 <= leniency
  {
    if leniency <= 2 then VeryStrict
    else if leniency <= 4 then Strict
    else if leniency <= 6 then Balanced
    else if leniency <= 8 then Lenient
    else VeryLenient
  }

  /** How generous an approach is, from 0 (very strict) to 4 (very lenient). */
  function Generosity(b: Leniency): nat {
    match b
    case VeryStrict => 0
    case Strict => 1
    case Balanced => 2
    case Lenient => 3
    case VeryLenient => 4
  }

  /** Turning the dial up never selects a stricter approach. */
  lemma BucketMonotone(a: int, b: int)
    requires a <= b
    ensures Generosity(BucketOf(a)) <= Generosity(BucketOf(b))
  {
  }

  /**
   The fixed strings of one band: the name that selects it, its expectation
   bullets, and its last line, which names what not to expect or, for the
   graduate band, the standard it is held to.
   */
  datatype BandWording = BandWording(name: string, bullets: seq<string>, limit: string)

  /** The fixed strings of one approach: the name in its header and its guidance bullets. */
  datatype ApproachWording = ApproachWording(name: string, bullets: seq<string>)

  /** The fixed strings of the prompt. */
  datatype Wording = Wording(
    preamble: string,
    gradeTitle: string,
    expectationsTitle: string,
    band: GradeBand -> BandWording,
    generic: string,
    approachTitle: string,
    approach: Leniency -> ApproachWording,
    instructionsTitle: string,
    rubricTitle: string,
    closing: string)

  /** The bands in the order the source tests their names. */
  const TestOrder: seq<GradeBand> :=
    [ElementaryK2, Elementary35, Middle68, High910, High1112, CollegeLower, CollegeUpper, Graduate]

  /** Each band sits in the test order at its rank. */
  lemma TestOrderRanks(b: GradeBand)
    ensures |TestOrder| == 8 && TestOrder[BandRank(b)] == b
  {
  }

  /** The band at each position of the test order has that position as its rank. */
  lemma RanksOfTestOrder()
    ensures |TestOrder| == 8
    ensures forall i :: 0 <= i < 8 ==> BandRank(TestOrder[i]) == i
  {
  }

  /** The first of `bands` whose name occurs in the grade level. */
  function FirstNamed(w: Wording, level: string, bands: seq<GradeBand>): Option<GradeBand>
    decreases |bands|
  {
    if |bands| == 0 then None
    else if Contains(level, w.band(bands[0]).name) then Some(bands[0])
    else FirstNamed(w, level, bands[1..])
  }

  /**
   `FirstNamed` finds a band exactly when one of the names occurs, and then
   the first such one in the list.
   */
  lemma {:induction false} FirstNamedFinds(w: Wording, level: string, bands: seq<GradeBand>)
    ensures var r := FirstNamed(w, level, bands);
      && (r.None? <==> forall i :: 0 <= i < |bands| ==> !Contains(level, w.band(bands[i]).name))
      && (r.Some? ==> exists k :: 0 <= k < |bands| && bands[k] == r.value && Contains(level, w.band(r.value).name)
                        && forall i :: 0 <= i < k ==> !Contains(level, w.band(bands[i]).name))
    decreases |bands|
  {
    if |bands| > 0 && !Contains(level, w.band(bands[0]).name) {
      var rest := bands[1..];
      FirstNamedFinds(w, level, rest);
      var r := FirstNamed(w, level, rest);
      if r.Some? {
        var k :| 0 <= k < |rest| && rest[k] == r.value && Contains(level, w.band(r.value).name)
                 && forall i :: 0 <= i < k ==> !Contains(level, w.band(rest[i]).name);
        assert bands[k + 1] == r.value;
        forall i | 0 <= i < k + 1 ensures !Contains(level, w.band(bands[i]).name) {
          if i > 0 {
            assert bands[i] == rest[i - 1];
          }
        }
      } else {
        forall i | 0 <= i < |bands| ensures !Contains(level, w.band(bands[i]).name) {
          if i > 0 {
            assert bands[i] == rest[i - 1];
          }
        }
      }
    }
  }

  /**
   The band whose expectations are added for a grade level: the first band,
   in the source's test order, whose name occurs in it; `None` when no name
   occurs.
   */
  function SelectBand(w: Wording, level: string): Option<GradeBand> {
    FirstNamed(w, level, TestOrder)
  }

  /**
   `SelectBand` finds a band exactly when some band name occurs in the grade
   level, and then the first such band in the test order.
   */
  lemma SelectBandFirstMatch(w: Wording, level: string)
    ensures var r := SelectBand(w, level);
      && (r.None? <==> forall b :: !Contains(level, w.band(b).name))
      && (r.Some? ==> Contains(level, w.band(r.value).name))
      && (r.Some? ==> forall b :: BandRank(b) < BandRank(r.value) ==> !Contains(level, w.band(b).name))
  {
    FirstNamedFinds(w, level, TestOrder);
    RanksOfTestOrder();
    var r := SelectBand(w, level);
    if r.None? {
      forall b ensures !Contains(level, w.band(b).name) {
        TestOrderRanks(b);
      }
    } else {
      var k :| 0 <= k < 8 && TestOrder[k] == r.value
               && forall i :: 0 <= i < k ==> !Contains(level, w.band(TestOrder[i]).name);
      assert BandRank(r.value) == k;
      forall b | BandRank(b) < k ensures !Contains(level, w.band(b).name) {
        TestOrderRanks(b);
      }
    }
  }

  /** `SelectBand` written out as the source's chain of tests. */
  lemma SelectBandChain(w: Wording, level: string)
    ensures SelectBand(w, level)
         == if Contains(level, w.band(ElementaryK2).name) then Some(ElementaryK2)
            else if Contains(level, w.band(Elementary35).name) then Some(Elementary35)
            else if Contains(level, w.band(Middle68).name) then Some(Middle68)
            else if Contains(level, w.band(High910).name) then Some(High910)
            else if Contains(level, w.band(High1112).name) then Some(High1112)
            else if Contains(level, w.band(CollegeLower).name) then Some(CollegeLower)
            else if Contains(level, w.band(CollegeUpper).name) then Some(CollegeUpper)
            else if Contains(level, w.band(Graduate).name) then Some(Graduate)
            else None
  {
    var t := TestOrder;
    assert t[1..][1..][1..][1..][1..][1..][1..][1..] == [];
    assert FirstNamed(w, level, t[1..][1..][1..][1..][1..][1..][1..][1..]) == None;
  }

  /** No band's name occurs inside the name of a band tested after it. */
  predicate NamesIndependent(w: Wording) {
    forall a, b :: BandRank(a) < BandRank(b) ==> !Contains(w.band(b).name, w.band(a).name)
  }

  /**
   When no name occurs inside a later one, each exact band name, as the
   selector offers it, selects its own band.
   */
  lemma ExactBandSelectsItself(w: Wording, b: GradeBand)
    requires NamesIndependent(w)
    ensures SelectBand(w, w.band(b).name) == Some(b)
  {
    var name := w.band(b).name;
    assert Contains(name, name);
    SelectBandFirstMatch(w, name);
    var r := SelectBand(w, name);
    if BandRank(r.value) == BandRank(b) {
      BandRankInjective(r.value, b);
    }
  }

  /** A paragraph of the prompt: each line followed by a newline. */
  function Lines(lines: seq<string>): string
    decreases |lines|
  {
    if |lines| == 0 then "" else lines[0] + "\n" + Lines(lines[1..])
  }

  /** A block of lines followed by a blank line. */
  function Paragraph(lines: seq<string>): string {
    Lines(lines) + "\n"
  }

  /** A bullet line of a fixed block. */
  function Bullet(text: string): string {
    "- " + text
  }

  /** Each item as a bullet line, in order. */
  function Bullets(items: seq<string>): (lines: seq<string>)
    ensures |lines| == |items|
    ensures forall i :: 0 <= i < |items| ==> lines[i] == Bullet(items[i])
  {
    seq(|items|, i requires 0 <= i < |items| => Bullet(items[i]))
  }

  /** The expectations block of a band: the title, one bullet per expectation, then its last line. */
  function BandLines(w: Wording, b: GradeBand): seq<string> {
    [w.expectationsTitle] + Bullets(w.band(b).bullets) + [w.band(b).limit]
  }

  /**
   A band's block opens with the title, lists every expectation of the band
   as a `- ` line in order, and ends with the band's limit line.
   */
  lemma BandBlockShape(w: Wording, b: GradeBand)
    ensures var lines := BandLines(w, b);
      && |lines| == |w.band(b).bullets| + 2
      && lines[0] == w.expectationsTitle
      && (forall i :: 1 <= i < |lines| - 1 ==> lines[i] == Bullet(w.band(b).bullets[i - 1]) && "- " <= lines[i])
      && lines[|lines| - 1] == w.band(b).limit
  {
  }

  /** The header line that opens an approach's block. */
  function ApproachHeader(w: Wording, b: Leniency): string {
    w.approachTitle + " " + w.approach(b).name
  }

  /** The instruction block of an approach: its header line, then its guidance bullets. */
  function ApproachLines(w: Wording, b: Leniency): seq<string> {
    [ApproachHeader(w, b)] + Bullets(w.approach(b).bullets)
  }

  /** An approach's block is its one header, then its guidance as `- ` lines in order. */
  lemma ApproachBlockShape(w: Wording, b: Leniency)
    ensures var lines := ApproachLines(w, b);
      && |lines| == 1 + |w.approach(b).bullets|
      && lines[0] == ApproachHeader(w, b)
      && (forall i :: 1 <= i < |lines| ==> lines[i] == Bullet(w.approach(b).bullets[i - 1]) && "- " <= lines[i])
  {
  }

  /** One rubric criterion: its name (which carries the score range) and its description. */
  datatype Criterion = Criterion(name: string, description: string)

  /** The rubric in the insertion order of the source's dictionary. */
  type Rubric = seq<Criterion>

  /** The sections of a prompt. */
  datatype Section =
    | Preamble
    | GradeHeader(level: string)
    | Expectations(band: GradeBand)
    | GenericExpectations
    | Approach(bucket: Leniency)
    | Instructions(text: string)
    | RubricHeader
    | CriterionLine(criterion: Criterion)
    | Closing

  /** The opening paragraph that sets the language model's role. */
  function PreambleText(w: Wording): string {
    Paragraph([w.preamble])
  }

  /** The line naming the grade level. */
  function GradeHeaderText(w: Wording, level: string): string {
    w.gradeTitle + " " + level + "\n"
  }

  /** The block following the grade-level line: the band's expectations or the generic line. */
  function ExpectationsText(w: Wording, band: Option<GradeBand>): string {
    match band
    case Some(b) => Paragraph(BandLines(w, b))
    case None => Paragraph([w.generic])
  }

  /** The text of an approach's block. */
  function ApproachText(w: Wording, b: Leniency): string {
    Paragraph(ApproachLines(w, b))
  }

  /** The instructions block: nothing for empty instructions. */
  function InstructionsText(w: Wording, instructions: string): string {
    if instructions == "" then "" else w.instructionsTitle + "\n" + instructions + "\n\n"
  }

  /** The line that opens the rubric. */
  function RubricHeaderText(w: Wording): string {
    w.rubricTitle + "\n"
  }

  /** The rubric line of one criterion. */
  function CriterionText(c: Criterion): string {
    "- " + c.name + ": " + c.description + "\n"
  }

  /** The closing paragraph; the prompt ends without a newline. */
  function ClosingText(w: Wording): string {
    "\n" + w.closing
  }

  /** The text of one section. */
  function RenderSection(w: Wording, s: Section): string {
    match s
    case Preamble => PreambleText(w)
    case GradeHeader(level) => GradeHeaderText(w, level)
    case Expectations(band) => ExpectationsText(w, Some(band))
    case GenericExpectations => ExpectationsText(w, None)
    case Approach(bucket) => ApproachText(w, bucket)
    case Instructions(text) => InstructionsText(w, text)
    case RubricHeader => RubricHeaderText(w)
    case CriterionLine(c) => CriterionText(c)
    case Closing => ClosingText(w)
  }

  /** The text of a sequence of sections, in order. */
  function Render(w: Wording, sections: seq<Section>): string
    decreases |sections|
  {
    if |sections| == 0 then "" else RenderSection(w, sections[0]) + Render(w, sections[1..])
  }

  /** A single section renders as its own text. */
  lemma RenderSingle(w: Wording, s: Section)
    ensures Render(w, [s]) == RenderSection(w, s)
  {
    assert [s][1..] == [];
    assert Render(w, [s]) == RenderSection(w, s) + "";
  }

  /** Rendering distributes over concatenation of section lists. */
  lemma {:induction false} RenderAppend(w: Wording, a: seq<Section>, b: seq<Section>)
    ensures Render(w, a + b) == Render(w, a) + Render(w, b)
    decreases |a|
  {
    if |a| > 0 {
      assert (a + b)[1..] == a[1..] + b;
      RenderAppend(w, a[1..], b);
    } else {
      assert a + b == b;
    }
  }

  /** The section after the grade-level header, as `GradeSections` chooses it. */
  function ExpectationsSection(band: Option<GradeBand>): Section {
    match band
    case Some(b) => Expectations(b)
    case None => GenericExpectations
  }

  /** The grade-level sections: none for an empty level, else a header and the band's block or the generic line. */
  function GradeSections(w: Wording, level: string): seq<Section> {
    if level == "" then [] else [GradeHeader(level), ExpectationsSection(SelectBand(w, level))]
  }

  /** The grade-level sections are a header and an expectations block, and nothing else. */
  lemma GradeSectionKinds(w: Wording, level: string)
    ensures forall s :: s in GradeSections(w, level) ==> s.GradeHeader? || s.Expectations? || s.GenericExpectations?
  {
    if level != "" {
      var e := ExpectationsSection(SelectBand(w, level));
      assert e.Expectations? || e.GenericExpectations?;
    }
  }

  /** The instructions section, present only for non-empty instructions. */
  function InstructionSections(instructions: string): seq<Section> {
    if instructions == "" then [] else [Instructions(instructions)]
  }

  /** One bullet per criterion, in rubric order. */
  function CriterionSections(rubric: Rubric): (ss: seq<Section>)
    ensures |ss| == |rubric|
    ensures forall k :: 0 <= k < |rubric| ==> ss[k] == CriterionLine(rubric[k])
  {
    seq(|rubric|, k requires 0 <= k < |rubric| => CriterionLine(rubric[k]))
  }

  /** The sections of the prompt for a request, in the order `grade_essay` appends them. */
  function Layout(w: Wording, rubric: Rubric, instructions: string, level: string, leniency: int): seq<Section> {
    [Preamble] + GradeSections(w, level) + [Approach(BucketOf(leniency))] + InstructionSections(instructions)
    + [RubricHeader] + CriterionSections(rubric) + [Closing]
  }

  /** Positions in a list built from four single elements and three runs between them. */
  lemma SevenPositions<T>(a: T, g: seq<T>, b: T, ins: seq<T>, c: T, cs: seq<T>, d: T)
    ensures var L := [a] + g + [b] + ins + [c] + cs + [d];
      && |L| == 4 + |g| + |ins| + |cs|
      && L[0] == a
      && (forall i :: 1 <= i < 1 + |g| ==> L[i] == g[i - 1])
      && L[1 + |g|] == b
      && (forall i :: 2 + |g| <= i < 2 + |g| + |ins| ==> L[i] == ins[i - 2 - |g|])
      && L[2 + |g| + |ins|] == c
      && (forall i :: 3 + |g| + |ins| <= i < |L| - 1 ==> L[i] == cs[i - 3 - |g| - |ins|])
      && L[|L| - 1] == d
  {
  }

  /** The same positions counted from the end of the list. */
  lemma SevenTail<T>(a: T, g: seq<T>, b: T, ins: seq<T>, c: T, cs: seq<T>, d: T)
    ensures var L := [a] + g + [b] + ins + [c] + cs + [d];
      && |L| >= 4 + |cs|
      && L[|L| - 2 - |cs|] == c
      && (forall k :: 0 <= k < |cs| ==> L[|L| - 1 - |cs| + k] == cs[k])
  {
    SevenPositions(a, g, b, ins, c, cs, d);
  }

  /** Where each part of the layout sits. */
  lemma LayoutPositions(w: Wording, rubric: Rubric, instructions: string, level: string, leniency: int)
    ensures var L := Layout(w, rubric, instructions, level, leniency);
      var g := |GradeSections(w, level)|;
      var n := |InstructionSections(instructions)|;
      && |L| == 4 + g + n + |rubric|
      && L[0] == Preamble
      && (forall i :: 1 <= i < 1 + g ==> L[i] == GradeSections(w, level)[i - 1])
      && L[1 + g] == Approach(BucketOf(leniency))
      && (forall i :: 2 + g <= i < 2 + g + n ==> L[i] == InstructionSections(instructions)[i - 2 - g])
      && L[2 + g + n] == RubricHeader
      && (forall i :: 3 + g + n <= i < |L| - 1 ==> L[i] == CriterionLine(rubric[i - 3 - g - n]))
      && L[|L| - 1] == Closing
  {
    SevenPositions(Preamble, GradeSections(w, level), Approach(BucketOf(leniency)), InstructionSections(instructions),
                   RubricHeader, CriterionSections(rubric), Closing);
  }

  /**
   The kind of section at each position of a list shaped like a layout: the
   approach only at its own slot, instructions and criterion lines only in
   their runs, grade headers only in the grade-level run.
   */
  lemma ShapeKindAt(gs: seq<Section>, ap: Section, ins: seq<Section>, cs: seq<Section>, i: int)
    requires forall s :: s in gs ==> s.GradeHeader? || s.Expectations? || s.GenericExpectations?
    requires ap.Approach?
    requires forall s :: s in ins ==> s.Instructions?
    requires forall s :: s in cs ==> s.CriterionLine?
    requires 0 <= i < 4 + |gs| + |ins| + |cs|
    ensures var L := [Preamble] + gs + [ap] + ins + [RubricHeader] + cs + [Closing];
      && (L[i].Approach? <==> i == 1 + |gs|)
      && (L[i].Instructions? <==> 2 + |gs| <= i < 2 + |gs| + |ins|)
      && (L[i].CriterionLine? <==> 3 + |gs| + |ins| <= i < |L| - 1)
      && (L[i].GradeHeader? ==> 1 <= i < 1 + |gs|)
  {
    SevenPositions(Preamble, gs, ap, ins, RubricHeader, cs, Closing);
    if 1 <= i < 1 + |gs| {
      assert gs[i - 1] in gs;
    } else if 2 + |gs| <= i < 2 + |gs| + |ins| {
      assert ins[i - 2 - |gs|] in ins;
    } else if 3 + |gs| + |ins| <= i < 3 + |gs| + |ins| + |cs| {
      assert cs[i - 3 - |gs| - |ins|] in cs;
    }
  }

  /** The kind of section at a position of the layout. */
  lemma LayoutKindAt(w: Wording, rubric: Rubric, instructions: string, level: string, leniency: int, i: int)
    requires 0 <= i < |Layout(w, rubric, instructions, level, leniency)|
    ensures var L := Layout(w, rubric, instructions, level, leniency);
      var g := |GradeSections(w, level)|;
      var n := |InstructionSections(instructions)|;
      && (L[i].Approach? <==> i == 1 + g)
      && (L[i].Instructions? <==> 2 + g <= i < 2 + g + n)
      && (L[i].CriterionLine? <==> 3 + g + n <= i < |L| - 1)
      && (L[i].GradeHeader? ==> 1 <= i < 1 + g)
  {
    GradeSectionKinds(w, level);
    var cs := CriterionSections(rubric);
    forall s | s in cs ensures s.CriterionLine? {
      var k :| 0 <= k < |cs| && cs[k] == s;
    }
    ShapeKindAt(GradeSections(w, level), Approach(BucketOf(leniency)), InstructionSections(instructions), cs, i);
  }

  /**
   The grade-level part of the prompt: a header exactly when the grade level
   is non-empty, followed by the block of the band `SelectBand` finds or,
   when it finds none, the generic line; the approach comes right after.
   */
  lemma LayoutGradeLevel(w: Wording, rubric: Rubric, instructions: string, level: string, leniency: int)
    ensures var L := Layout(w, rubric, instructions, level, leniency);
      && ((exists i :: 0 <= i < |L| && L[i].GradeHeader?) <==> level != "")
      && (level == "" ==> L[1] == Approach(BucketOf(leniency)))
      && (level != "" ==> L[1] == GradeHeader(level) && L[3] == Approach(BucketOf(leniency)))
      && (level != "" && SelectBand(w, level).Some? ==> L[2] == Expectations(SelectBand(w, level).value))
      && (level != "" && SelectBand(w, level).None? ==> L[2] == GenericExpectations)
  {
    LayoutPositions(w, rubric, instructions, level, leniency);
    var L := Layout(w, rubric, instructions, level, leniency);
    if level != "" {
      assert L[1].GradeHeader?;
    } else {
      forall i | 0 <= i < |L| ensures !L[i].GradeHeader? {
        LayoutKindAt(w, rubric, instructions, level, leniency, i);
      }
    }
  }

  /** Exactly one approach section, the one of the leniency's bucket. */
  lemma LayoutOneApproach(w: Wording, rubric: Rubric, instructions: string, level: string, leniency: int)
    ensures var L := Layout(w, rubric, instructions, level, leniency);
      && (exists k :: 0 <= k < |L| && L[k] == Approach(BucketOf(leniency)))
      && (forall i, j :: 0 <= i < |L| && 0 <= j < |L| && L[i].Approach? && L[j].Approach? ==> i == j)
  {
    LayoutPositions(w, rubric, instructions, level, leniency);
    var L := Layout(w, rubric, instructions, level, leniency);
    var k := 1 + |GradeSections(w, level)|;
    forall i | 0 <= i < |L| && L[i].Approach? ensures i == k {
      LayoutKindAt(w, rubric, instructions, level, leniency, i);
    }
  }

  /** The instruction run is empty or the one section holding the instructions. */
  lemma InstructionAt(instructions: string)
    ensures |InstructionSections(instructions)| == (if instructions == "" then 0 else 1)
    ensures instructions != "" ==> InstructionSections(instructions)[0] == Instructions(instructions)
  {
  }

  /** The instructions section appears iff the instructions are non-empty, right after the approach and right before the rubric. */
  lemma LayoutInstructions(w: Wording, rubric: Rubric, instructions: string, level: string, leniency: int)
    ensures var L := Layout(w, rubric, instructions, level, leniency);
      && ((exists i :: 0 <= i < |L| && L[i].Instructions?) <==> instructions != "")
      && (forall i :: 0 <= i < |L| && L[i].Instructions? ==>
            L[i].text == instructions && 0 < i < |L| - 1 && L[i - 1].Approach? && L[i + 1] == RubricHeader)
  {
    LayoutPositions(w, rubric, instructions, level, leniency);
    var g := |GradeSections(w, level)|;
    var L := Layout(w, rubric, instructions, level, leniency);
    forall i | 0 <= i < |L| && L[i].Instructions?
      ensures L[i].text == instructions && 0 < i < |L| - 1 && L[i - 1].Approach? && L[i + 1] == RubricHeader
    {
      LayoutKindAt(w, rubric, instructions, level, leniency, i);
      InstructionAt(instructions);
      assert i == 2 + g;
      assert L[i] == InstructionSections(instructions)[0];
      assert L[i + 1] == L[2 + g + 1];
    }
    if instructions != "" {
      assert L[2 + g].Instructions?;
    }
  }

  /** The rubric header, then one criterion line per rubric entry in rubric order, then the closing. */
  lemma LayoutRubric(w: Wording, rubric: Rubric, instructions: string, level: string, leniency: int)
    ensures var L := Layout(w, rubric, instructions, level, leniency);
      && |L| >= 4 && L[0] == Preamble && L[|L| - 1] == Closing
      && L[|L| - 2 - |rubric|] == RubricHeader
      && (forall k :: 0 <= k < |rubric| ==> L[|L| - 1 - |rubric| + k] == CriterionLine(rubric[k]))
  {
    var gs, ins, cs := GradeSections(w, level), InstructionSections(instructions), CriterionSections(rubric);
    SevenPositions(Preamble, gs, Approach(BucketOf(leniency)), ins, RubricHeader, cs, Closing);
    SevenTail(Preamble, gs, Approach(BucketOf(leniency)), ins, RubricHeader, cs, Closing);
  }

  /** Criterion lines occur nowhere else. */
  lemma LayoutCriteriaOnly(w: Wording, rubric: Rubric, instructions: string, level: string, leniency: int)
    ensures var L := Layout(w, rubric, instructions, level, leniency);
      forall i :: 0 <= i < |L| && L[i].CriterionLine? ==> |L| - 1 - |rubric| <= i < |L| - 1
  {
    LayoutPositions(w, rubric, instructions, level, leniency);
    var L := Layout(w, rubric, instructions, level, leniency);
    forall i | 0 <= i < |L| && L[i].CriterionLine? ensures |L| - 1 - |rubric| <= i < |L| - 1 {
      LayoutKindAt(w, rubric, instructions, level, leniency, i);
    }
  }

  /** The rubric as prompt text: one `- name: description` line per criterion. */
  function RubricLines(rubric: Rubric): string
    decreases |rubric|
  {
    if |rubric| == 0 then "" else CriterionText(rubric[0]) + RubricLines(rubric[1..])
  }

  /** The criterion sections render as the rubric's lines. */
  lemma {:induction false} CriterionSectionsRender(w: Wording, rubric: Rubric)
    ensures Render(w, CriterionSections(rubric)) == RubricLines(rubric)
    decreases |rubric|
  {
    if |rubric| > 0 {
      assert CriterionSections(rubric)[1..] == CriterionSections(rubric[1..]);
      CriterionSectionsRender(w, rubric[1..]);
    }
  }

  /** Rubric lines of a longer rubric extend those of its prefix by the new criterion's line. */
  lemma {:induction false} RubricLinesSnoc(rubric: Rubric, c: Criterion)
    ensures RubricLines(rubric + [c]) == RubricLines(rubric) + CriterionText(c)
    decreases |rubric|
  {
    if |rubric| > 0 {
      assert (rubric + [c])[1..] == rubric[1..] + [c];
      RubricLinesSnoc(rubric[1..], c);
    }
  }

  /** The text of the grade-level sections. */
  function GradeText(w: Wording, level: string): string {
    Render(w, GradeSections(w, level))
  }

  /** Two sections render as the header text followed by the other's text. */
  lemma RenderHeaderPair(w: Wording, level: string, e: Section)
    ensures Render(w, [GradeHeader(level)] + [e]) == GradeHeaderText(w, level) + RenderSection(w, e)
  {
    RenderAppend(w, [GradeHeader(level)], [e]);
    RenderSingle(w, GradeHeader(level));
    RenderSingle(w, e);
  }

  /** A non-empty grade level renders as its header line followed by the selected block. */
  lemma GradeTextParts(w: Wording, level: string)
    requires level != ""
    ensures GradeText(w, level) == GradeHeaderText(w, level) + ExpectationsText(w, SelectBand(w, level))
  {
    var e := ExpectationsSection(SelectBand(w, level));
    assert GradeSections(w, level) == [GradeHeader(level)] + [e];
    RenderHeaderPair(w, level, e);
  }

  /** Rendering seven consecutive parts renders each part in turn. */
  lemma RenderSeven(w: Wording, p1: seq<Section>, p2: seq<Section>, p3: seq<Section>, p4: seq<Section>,
                    p5: seq<Section>, p6: seq<Section>, p7: seq<Section>)
    ensures Render(w, p1 + p2 + p3 + p4 + p5 + p6 + p7)
         == Render(w, p1) + Render(w, p2) + Render(w, p3) + Render(w, p4)
            + Render(w, p5) + Render(w, p6) + Render(w, p7)
  {
    RenderAppend(w, p1, p2);
    RenderAppend(w, p1 + p2, p3);
    RenderAppend(w, p1 + p2 + p3, p4);
    RenderAppend(w, p1 + p2 + p3 + p4, p5);
    RenderAppend(w, p1 + p2 + p3 + p4 + p5, p6);
    RenderAppend(w, p1 + p2 + p3 + p4 + p5 + p6, p7);
  }

  /** Rendering the layout's shape renders each part in turn. */
  lemma RenderShape(w: Wording, a: Section, g: seq<Section>, b: Section, ins: seq<Section>,
                    c: Section, cs: seq<Section>, d: Section)
    ensures Render(w, [a] + g + [b] + ins + [c] + cs + [d])
         == RenderSection(w, a) + Render(w, g) + RenderSection(w, b) + Render(w, ins)
            + RenderSection(w, c) + Render(w, cs) + RenderSection(w, d)
  {
    RenderSeven(w, [a], g, [b], ins, [c], cs, [d]);
    RenderSingle(w, a);
    RenderSingle(w, b);
    RenderSingle(w, c);
    RenderSingle(w, d);
  }

  /** The instruction sections render as the instructions text. */
  lemma InstructionSectionsRender(w: Wording, instructions: string)
    ensures Render(w, InstructionSections(instructions)) == InstructionsText(w, instructions)
  {
    if instructions != "" {
      RenderSingle(w, Instructions(instructions));
    }
  }

  /** The layout renders part by part. */
  lemma LayoutRender(w: Wording, rubric: Rubric, instructions: string, level: string, leniency: int)
    ensures Render(w, Layout(w, rubric, instructions, level, leniency))
         == RenderSection(w, Preamble) + Render(w, GradeSections(w, level))
            + RenderSection(w, Approach(BucketOf(leniency))) + Render(w, InstructionSections(instructions))
            + RenderSection(w, RubricHeader) + Render(w, CriterionSections(rubric)) + RenderSection(w, Closing)
  {
    RenderShape(w, Preamble, GradeSections(w, level), Approach(BucketOf(leniency)), InstructionSections(instructions),
                RubricHeader, CriterionSections(rubric), Closing);
  }

  /** The texts of the sections that occur exactly once in every prompt (only unfolds `RenderSection`, to keep `PromptText` cheap). */
  lemma FixedSectionTexts(w: Wording, bucket: Leniency)
    ensures RenderSection(w, Preamble) == PreambleText(w)
    ensures RenderSection(w, Approach(bucket)) == ApproachText(w, bucket)
    ensures RenderSection(w, RubricHeader) == RubricHeaderText(w)
    ensures RenderSection(w, Closing) == ClosingText(w)
  {
  }

  /**
   The prompt text as the concatenation of its parts, in the source's order;
   the rubric lines are followed directly by the closing paragraph.
   */
  lemma PromptText(w: Wording, rubric: Rubric, instructions: string, level: string, leniency: int)
    ensures Render(w, Layout(w, rubric, instructions, level, leniency))
         == PreambleText(w) + GradeText(w, level) + ApproachText(w, BucketOf(leniency))
            + InstructionsText(w, instructions) + RubricHeaderText(w) + RubricLines(rubric) + ClosingText(w)
  {
    LayoutRender(w, rubric, instructions, level, leniency);
    FixedSectionTexts(w, BucketOf(leniency));
    InstructionSectionsRender(w, instructions);
    CriterionSectionsRender(w, rubric);
  }

  /** Every line of a paragraph occurs in its text, followed by its newline. */
  lemma {:induction false} LinesContain(lines: seq<string>, k: nat)
    requires k < |lines|
    ensures Contains(Lines(lines), lines[k] + "\n")
    decreases k
  {
    var head := lines[0] + "\n";
    assert Lines(lines) == head + Lines(lines[1..]);
    if k == 0 {
      assert Lines(lines)[..|head|] == head;
    } else {
      LinesContain(lines[1..], k - 1);
      ContainsInContext(head, Lines(lines[1..]), "", lines[k] + "\n");
      assert head + Lines(lines[1..]) + "" == Lines(lines);
    }
  }

  /** Every guidance bullet of an approach occurs in the approach's text as a line of its own. */
  lemma ApproachTextContains(w: Wording, b: Leniency, i: nat)
    requires i < |w.approach(b).bullets|
    ensures Contains(ApproachText(w, b), Bullet(w.approach(b).bullets[i]) + "\n")
  {
    var needle := Bullet(w.approach(b).bullets[i]) + "\n";
    ApproachBlockShape(w, b);
    LinesContain(ApproachLines(w, b), i + 1);
    ContainsInContext([], Lines(ApproachLines(w, b)), "\n", needle);
    assert [] + Lines(ApproachLines(w, b)) + "\n" == ApproachText(w, b);
  }

  /** What occurs in the third of seven parts occurs in their concatenation. */
  lemma ContainsThirdOfSeven(p1: string, p2: string, p3: string, p4: string, p5: string, p6: string, p7: string,
                             needle: string)
    requires Contains(p3, needle)
    ensures Contains(p1 + p2 + p3 + p4 + p5 + p6 + p7, needle)
  {
    ContainsInContext(p1 + p2, p3, p4 + p5 + p6 + p7, needle);
    assert p1 + p2 + p3 + p4 + p5 + p6 + p7 == (p1 + p2) + p3 + (p4 + p5 + p6 + p7);
  }

  /** Every guidance bullet of the leniency's approach occurs in the prompt as a line of its own. */
  lemma ApproachBulletInPrompt(w: Wording, rubric: Rubric, instructions: string, level: string, leniency: int, i: nat)
    requires i < |w.approach(BucketOf(leniency)).bullets|
    ensures Contains(Render(w, Layout(w, rubric, instructions, level, leniency)),
                     Bullet(w.approach(BucketOf(leniency)).bullets[i]) + "\n")
  {
    var b := BucketOf(leniency);
    ApproachTextContains(w, b, i);
    PromptText(w, rubric, instructions, level, leniency);
    ContainsThirdOfSeven(PreambleText(w), GradeText(w, level), ApproachText(w, b), InstructionsText(w, instructions),
                         RubricHeaderText(w), RubricLines(rubric), ClosingText(w), Bullet(w.approach(b).bullets[i]) + "\n");
  }

  /**
   The source's `elif` chain over the band names, tested in order, with the
   generic line when no name occurs: it adds the block of the band
   `SelectBand` finds.
   */
  method ExpectationsBlock(w: Wording, level: string) returns (block: string)
    ensures block == ExpectationsText(w, SelectBand(w, level))
  {
    SelectBandChain(w, level);
    var band: Option<GradeBand>;
    if Contains(level, w.band(ElementaryK2).name) {
      band := Some(ElementaryK2);
    } else if Contains(level, w.band(Elementary35).name) {
      band := Some(Elementary35);
    } else if Contains(level, w.band(Middle68).name) {
      band := Some(Middle68);
    } else if Contains(level, w.band(High910).name) {
      band := Some(High910);
    } else if Contains(level, w.band(High1112).name) {
      band := Some(High1112);
    } else if Contains(level, w.band(CollegeLower).name) {
      band := Some(CollegeLower);
    } else if Contains(level, w.band(CollegeUpper).name) {
      band := Some(CollegeUpper);
    } else if Contains(level, w.band(Graduate).name) {
      band := Some(Graduate);
    } else {
      band := None;
    }
    block := ExpectationsText(w, band);
  }

  /** The source's leniency thresholds, compared in turn: the block of the leniency's bucket. */
  method ApproachBlock(w: Wording, leniency: int) returns (approach: string)
    ensures approach == ApproachText(w, BucketOf(leniency))
  {
    if leniency <= 2 {
      approach := ApproachText(w, VeryStrict);
    } else if leniency <= 4 {
      approach := ApproachText(w, Strict);
    } else if leniency <= 6 {
      approach := ApproachText(w, Balanced);
    } else if leniency <= 8 {
      approach := ApproachText(w, Lenient);
    } else {
      approach := ApproachText(w, VeryLenient);
    }
  }

  /** The `if grade_level:` statement: nothing for an empty level, else the header line and the band's block. */
  method GradeLevelBlock(w: Wording, level: string) returns (text: string)
    ensures text == GradeText(w, level)
  {
    if level != "" {
      text := GradeHeaderText(w, level);
      var block := ExpectationsBlock(w, level);
      text := text + block;
      GradeTextParts(w, level);
    } else {
      text := "";
    }
  }

  /** The `for criterion, description in rubric_criteria.items()` loop: one line per criterion, in order. */
  method AppendRubric(head: string, rubric: Rubric) returns (prompt: string)
    ensures prompt == head + RubricLines(rubric)
  {
    prompt := head;
    for i := 0 to |rubric|
      invariant prompt == head + RubricLines(rubric[..i])
    {
      RubricLinesSnoc(rubric[..i], rubric[i]);
      assert rubric[..i + 1] == rubric[..i] + [rubric[i]];
      prompt := prompt + CriterionText(rubric[i]);
    }
    assert rubric[..|rubric|] == rubric;
  }

  /**
   `grade_essay`'s prompt construction, statement by statement: the grade
   bands tested in the source's `elif` order, the leniency thresholds
   compared in turn, and the rubric appended entry by entry. The result is
   the rendering of the layout.
   */
  method BuildPrompt(w: Wording, rubric: Rubric, instructions: string, level: string, leniency: int)
    returns (prompt: string)
    ensures prompt == Render(w, Layout(w, rubric, instructions, level, leniency))
  {
    var grade := GradeLevelBlock(w, level);
    prompt := PreambleText(w) + grade;
    var approach := ApproachBlock(w, leniency);
    prompt := prompt + approach;
    if instructions != "" {
      prompt := prompt + InstructionsText(w, instructions);
    } else {
      assert prompt == prompt + InstructionsText(w, instructions);
    }
    prompt := AppendRubric(prompt + RubricHeaderText(w), rubric);
    prompt := prompt + ClosingText(w);
    PromptText(w, rubric, instructions, level, leniency);
  }

  /** A concatenation of seven strings starts with the first and ends with the last three. */
  lemma SevenEnds(p1: string, p2: string, p3: string, p4: string, p5: string, p6: string, p7: string)
    ensures var s := p1 + p2 + p3 + p4 + p5 + p6 + p7;
      && p1 <= s
      && |p5 + p6 + p7| <= |s|
      && s[|s| - |p5 + p6 + p7|..] == p5 + p6 + p7
  {
    var s := p1 + p2 + p3 + p4 + p5 + p6 + p7;
    var front := p1 + p2 + p3 + p4;
    assert s == front + (p5 + p6 + p7);
  }

  /**
   The prompt opens with the preamble and ends with the rubric header, the
   rubric's lines in order and the closing paragraph, whatever the grade
   level, leniency and instructions.
   */
  lemma PromptEnds(w: Wording, rubric: Rubric, instructions: string, level: string, leniency: int)
    ensures var p := Render(w, Layout(w, rubric, instructions, level, leniency));
      var tail := RubricHeaderText(w) + RubricLines(rubric) + ClosingText(w);
      && PreambleText(w) <= p
      && |tail| <= |p|
      && p[|p| - |tail|..] == tail
  {
    PromptText(w, rubric, instructions, level, leniency);
    SevenEnds(PreambleText(w), GradeText(w, level), ApproachText(w, BucketOf(leniency)),
              InstructionsText(w, instructions), RubricHeaderText(w), RubricLines(rubric), ClosingText(w));
  }
}
