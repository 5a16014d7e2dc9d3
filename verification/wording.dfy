/**
 The fixed sentences of the prompt `grade_essay` builds, exactly as the
 source writes them. Long sentences are split into shorter literals joined
 with `+`; the joined text is the source's.
 */
module EssayWording {
  import opened Outcomes
  import opened Text
  import opened Prompt

  /** The names the grade-level selector offers, one per band. */
  const ElementaryK2Name: string := "Elementary School (K-2)"
  const Elementary35Name: string := "Elementary School (3-5)"
  const Middle68Name: string := "Middle School (6-8)"
  const High910Name: string := "High School (9-10)"
  const High1112Name: string := "High School (11-12)"
  const CollegeLowerName: string := "College Freshman/Sophomore"
  const CollegeUpperName: string := "College Junior/Senior"
  const GraduateName: string := "Graduate Level"

  /** The opening sentence, which sets the language model's role. */
  const PreambleLine: string :=
    "You are an experienced essay "
      + "grader with expertise in "
      + "teaching across all "
      + "educational levels. Grade the "
      + "handwritten essay in the "
      + "image based on the following "
      + "information:"

  // The expectation bullets of each band, without their `- ` marker.
  const ElementaryK2Bullets: seq<string> := [
    "Simple sentence structure "
      + "with basic vocabulary",
    "Basic understanding of "
      + "beginning, middle, and end",
    "Emerging spelling and grammar skills",
    "Simple ideas expressed clearly",
    "Basic handwriting development"]
  const Elementary35Bullets: seq<string> := [
    "Complete sentences and "
      + "developing paragraphs",
    "Basic organizational structure",
    "Growing vocabulary with some "
      + "descriptive language",
    "Developing understanding of "
      + "punctuation and grammar",
    "Simple but logical supporting details"]
  const Middle68Bullets: seq<string> := [
    "Clear paragraph structure "
      + "with topic sentences",
    "Developing thesis statements",
    "Introduction to argumentative writing",
    "More varied vocabulary and "
      + "sentence structures",
    "Basic citations or evidence"]
  const High910Bullets: seq<string> := [
    "Clear thesis statements",
    "Structured essays with "
      + "introduction, body, conclusion",
    "Developing analytical thinking",
    "Use of textual evidence and "
      + "basic citations",
    "More varied rhetorical strategies"]
  const High1112Bullets: seq<string> := [
    "Well-developed thesis statements",
    "Logical organization with "
      + "effective transitions",
    "More sophisticated analysis "
      + "and arguments",
    "Understanding of rhetorical strategies",
    "Stronger evidence and citations"]
  const CollegeLowerBullets: seq<string> := [
    "Clear, analytical thesis statements",
    "Well-organized essays with "
      + "effective transitions",
    "Critical thinking and analysis",
    "Integration of sources and "
      + "proper citations",
    "Command of academic writing conventions"]
  const CollegeUpperBullets: seq<string> := [
    "Sophisticated thesis statements",
    "Advanced critical thinking and analysis",
    "Strong command of academic "
      + "writing conventions",
    "Well-integrated research and citations",
    "Awareness of disciplinary conventions"]
  const GraduateBullets: seq<string> := [
    "Sophisticated and original "
      + "thesis statements",
    "Advanced research integration",
    "Mastery of academic writing conventions",
    "Advanced critical analysis and synthesis",
    "Disciplinary expertise and awareness"]

  /** The opening of the last line of every band's block but the graduate one. */
  const NotExpected: string := "DO NOT expect "

  // What each band's block tells the language model not to expect, after `NotExpected`.
  const ElementaryK2Ceiling: string :=
    "complex vocabulary, perfect "
      + "spelling, advanced grammar, "
      + "or sophisticated reasoning"
  const Elementary35Ceiling: string :=
    "sophisticated arguments, "
      + "complex sentence structures, "
      + "perfect grammar, or advanced "
      + "analysis"
  const Middle68Ceiling: string :=
    "college-level reasoning, "
      + "sophisticated syntax, perfect "
      + "consistency, or advanced "
      + "rhetorical strategies"
  const High910Ceiling: string :=
    "undergraduate-level analysis, "
      + "perfect grammar, or highly "
      + "sophisticated arguments"
  const High1112Ceiling: string :=
    "college-level writing "
      + "proficiency, perfect "
      + "mechanics, or graduate-level "
      + "critical thinking"
  const CollegeLowerCeiling: string :=
    "graduate-level "
      + "sophistication, perfect "
      + "mechanics, or "
      + "professional-level insights"
  const CollegeUpperCeiling: string :=
    "graduate-level mastery or "
      + "professional publication "
      + "quality"

  /** The line closing the graduate block, which sets a standard instead of a ceiling. */
  const GraduateClosingLine: string := "Hold to high academic "
    + "standards while recognizing "
    + "this is still student work"

  /** The name the selector offers for each band. */
  function SourceName(b: GradeBand): string {
    match b
    case ElementaryK2 => ElementaryK2Name
    case Elementary35 => Elementary35Name
    case Middle68 => Middle68Name
    case High910 => High910Name
    case High1112 => High1112Name
    case CollegeLower => CollegeLowerName
    case CollegeUpper => CollegeUpperName
    case Graduate => GraduateName
  }

  /** The expectation bullets of each band. */
  function SourceBullets(b: GradeBand): seq<string> {
    match b
    case ElementaryK2 => ElementaryK2Bullets
    case Elementary35 => Elementary35Bullets
    case Middle68 => Middle68Bullets
    case High910 => High910Bullets
    case High1112 => High1112Bullets
    case CollegeLower => CollegeLowerBullets
    case CollegeUpper => CollegeUpperBullets
    case Graduate => GraduateBullets
  }

  /** The last line of each band's block. */
  function SourceLimit(b: GradeBand): string {
    match b
    case ElementaryK2 => NotExpected + ElementaryK2Ceiling
    case Elementary35 => NotExpected + Elementary35Ceiling
    case Middle68 => NotExpected + Middle68Ceiling
    case High910 => NotExpected + High910Ceiling
    case High1112 => NotExpected + High1112Ceiling
    case CollegeLower => NotExpected + CollegeLowerCeiling
    case CollegeUpper => NotExpected + CollegeUpperCeiling
    case Graduate => GraduateClosingLine
  }

  /** Everything a band's block needs. */
  function SourceBand(b: GradeBand): BandWording {
    BandWording(SourceName(b), SourceBullets(b), SourceLimit(b))
  }

  /** The one line added for a grade level that names no band. */
  const GenericLine: string := "Consider age-appropriate "
    + "expectations for this "
    + "educational level."

  /** The openings of the score adjustment bullet that ends every approach but the balanced one. */
  const DeductLead: string := "Deduct "
  const AddLead: string := "Add "

  /** The phrase closing an adjustment bullet. */
  const NormalScoreTail: string := " what you would normally score the essay"

  // The guidance bullets of each approach, without their `- ` marker.
  const VeryStrictGuidance: seq<string> := [
    "Be extremely critical in your "
      + "assessment and deduct points "
      + "for even minor issues",
    "For each criterion, score in "
      + "the lower 30-40% of the "
      + "possible range when there are "
      + "any flaws",
    "For letter grades, consider "
      + "an A to be nearly "
      + "unattainable and reserve B "
      + "grades only for exceptional "
      + "work",
    "Apply the highest possible "
      + "standards and focus primarily "
      + "on weaknesses",
    DeductLead + "15-25% from" + NormalScoreTail]
  const StrictGuidance: seq<string> := [
    "Be quite critical in your "
      + "assessment and emphasize "
      + "areas for improvement",
    "For each criterion, score in "
      + "the lower 40-50% of the "
      + "possible range when there are "
      + "flaws",
    "Hold the student to high "
      + "standards and be sparing with "
      + "top scores",
    DeductLead + "5-15% from" + NormalScoreTail]
  const BalancedGuidance: seq<string> := [
    "Use a balanced approach that "
      + "considers both strengths and "
      + "weaknesses equally",
    "For each criterion, use the "
      + "full scoring range "
      + "appropriately, scoring in the "
      + "middle 50-70% of the possible "
      + "range when there are some "
      + "strengths",
    "Evaluate the essay "
      + "objectively against the "
      + "rubric criteria without bias "
      + "towards strictness or leniency"]
  const LenientGuidance: seq<string> := [
    "Be generous in your "
      + "assessment and focus more on "
      + "strengths than weaknesses",
    "For each criterion, score in "
      + "the upper 70-100% of the "
      + "possible range when there are "
      + "some strengths",
    "Give the student the benefit "
      + "of the doubt in ambiguous "
      + "cases",
    AddLead + "5-15% to" + NormalScoreTail]
  const VeryLenientGuidance: seq<string> := [
    "Be extremely generous and "
      + "primarily focus on the "
      + "positive aspects of the work",
    "For each criterion, score in "
      + "the upper 70-80% of the "
      + "possible range as long as "
      + "basic requirements are met",
    "For letter grades, avoid "
      + "grades below a C unless "
      + "requirements are completely "
      + "missed",
    "Highlight even small "
      + "successes and minimize "
      + "criticism of weaknesses",
    AddLead + "15-25% to" + NormalScoreTail]

  /** The header name and the guidance bullets of each approach. */
  function SourceApproach(b: Leniency): ApproachWording {
    match b
    case VeryStrict => ApproachWording("VERY STRICT", VeryStrictGuidance)
    case Strict => ApproachWording("STRICT", StrictGuidance)
    case Balanced => ApproachWording("BALANCED", BalancedGuidance)
    case Lenient => ApproachWording("LENIENT", LenientGuidance)
    case VeryLenient => ApproachWording("VERY LENIENT", VeryLenientGuidance)
  }

  /** The closing paragraph, after the newline that separates it from the rubric. */
  const ClosingLine: string :=
    "For each criterion, provide "
      + "a score and brief "
      + "explanation. Also provide an "
      + "overall grade and summary "
      + "feedback. IMPORTANT: Both the "
      + "grade level AND leniency "
      + "level should significantly "
      + "influence your grading. "
      + "First, adjust your baseline "
      + "expectations according to the "
      + "student's educational level "
      + "(do not expect college-level "
      + "work from elementary "
      + "students), then apply the "
      + "leniency adjustment to that "
      + "grade-appropriate baseline. "
      + "Your feedback should be "
      + "appropriate for the student's "
      + "educational level in both "
      + "content and tone."

  /** The wording of `grade_essay`'s prompt. */
  const Source: Wording := Wording(
    PreambleLine,
    "GRADE LEVEL:",
    "GRADE LEVEL EXPECTATIONS:",
    SourceBand,
    GenericLine,
    "GRADING APPROACH:",
    SourceApproach,
    "ASSIGNMENT INSTRUCTIONS:",
    "RUBRIC CRITERIA:",
    ClosingLine)

  /** Every band's block lists five expectations, so it is seven lines long. */
  lemma FiveExpectations(b: GradeBand)
    ensures |Source.band(b).bullets| == 5
    ensures |BandLines(Source, b)| == 7
  {
    BandBlockShape(Source, b);
  }

  /**
   Every band's block but the graduate one ends by naming what not to
   expect; the graduate block ends with its standard instead.
   */
  lemma BandLimits(b: GradeBand)
    ensures b != Graduate ==> NotExpected <= Source.band(b).limit
    ensures b == Graduate ==> Source.band(b).limit == GraduateClosingLine && !(NotExpected <= Source.band(b).limit)
  {
    if b == Graduate {
      assert GraduateClosingLine[0] == 'H';
    } else {
      var c := Source.band(b).limit[|NotExpected|..];
      assert Source.band(b).limit == NotExpected + c;
    }
  }

  /**
   The strict approaches end with a bullet that deducts from the normal
   score and the lenient ones with a bullet that adds to it; the balanced
   approach has neither.
   */
  lemma Adjustments(b: Leniency)
    ensures var g := Source.approach(b).bullets;
      && |g| > 0
      && (b in {VeryStrict, Strict} ==> DeductLead <= g[|g| - 1])
      && (b in {Lenient, VeryLenient} ==> AddLead <= g[|g| - 1])
      && (b == Balanced ==> forall i :: 0 <= i < |g| ==> !(DeductLead <= g[i]) && !(AddLead <= g[i]))
  {
    var g := Source.approach(b).bullets;
    if b == Balanced {
      forall i | 0 <= i < |g| ensures !(DeductLead <= g[i]) && !(AddLead <= g[i]) {
        assert g[i][0] in {'U', 'F', 'E'};
      }
    }
  }

  // The score adjustment line of each unbalanced approach occurs in the prompt
  // sent at the leniencies that select it.

  lemma VeryStrictInPrompt(rubric: Rubric, instructions: string, level: string, leniency: int)
    requires leniency <= 2
    ensures Contains(Render(Source, Layout(Source, rubric, instructions, level, leniency)),
                     Bullet(DeductLead + "15-25% from" + NormalScoreTail) + "\n")
  {
    assert BucketOf(leniency) == VeryStrict;
    assert Source.approach(VeryStrict).bullets == VeryStrictGuidance;
    ApproachBulletInPrompt(Source, rubric, instructions, level, leniency, 4);
  }

  lemma StrictInPrompt(rubric: Rubric, instructions: string, level: string, leniency: int)
    requires 3 <= leniency <= 4
    ensures Contains(Render(Source, Layout(Source, rubric, instructions, level, leniency)),
                     Bullet(DeductLead + "5-15% from" + NormalScoreTail) + "\n")
  {
    assert BucketOf(leniency) == Strict;
    assert Source.approach(Strict).bullets == StrictGuidance;
    ApproachBulletInPrompt(Source, rubric, instructions, level, leniency, 3);
  }

  lemma LenientInPrompt(rubric: Rubric, instructions: string, level: string, leniency: int)
    requires 7 <= leniency <= 8
    ensures Contains(Render(Source, Layout(Source, rubric, instructions, level, leniency)),
                     Bullet(AddLead + "5-15% to" + NormalScoreTail) + "\n")
  {
    assert BucketOf(leniency) == Lenient;
    assert Source.approach(Lenient).bullets == LenientGuidance;
    ApproachBulletInPrompt(Source, rubric, instructions, level, leniency, 3);
  }

  lemma VeryLenientInPrompt(rubric: Rubric, instructions: string, level: string, leniency: int)
    requires 9 <= leniency
    ensures Contains(Render(Source, Layout(Source, rubric, instructions, level, leniency)),
                     Bullet(AddLead + "15-25% to" + NormalScoreTail) + "\n")
  {
    assert BucketOf(leniency) == VeryLenient;
    assert Source.approach(VeryLenient).bullets == VeryLenientGuidance;
    ApproachBulletInPrompt(Source, rubric, instructions, level, leniency, 4);
  }

  /**
   The prompt sent at each leniency carries that approach's score adjustment
   as a line of its own: 15-25% off at the very strict end, 5-15% off when
   strict, 5-15% on when lenient and 15-25% on at the very lenient end.
   */
  lemma AdjustmentInPrompt(rubric: Rubric, instructions: string, level: string, leniency: int)
    ensures var p := Render(Source, Layout(Source, rubric, instructions, level, leniency));
      && (leniency <= 2 ==> Contains(p, Bullet(DeductLead + "15-25% from" + NormalScoreTail) + "\n"))
      && (3 <= leniency <= 4 ==> Contains(p, Bullet(DeductLead + "5-15% from" + NormalScoreTail) + "\n"))
      && (7 <= leniency <= 8 ==> Contains(p, Bullet(AddLead + "5-15% to" + NormalScoreTail) + "\n"))
      && (9 <= leniency ==> Contains(p, Bullet(AddLead + "15-25% to" + NormalScoreTail) + "\n"))
  {
    if leniency <= 2 {
      VeryStrictInPrompt(rubric, instructions, level, leniency);
    } else if leniency <= 4 {
      StrictInPrompt(rubric, instructions, level, leniency);
    } else if 7 <= leniency <= 8 {
      LenientInPrompt(rubric, instructions, level, leniency);
    } else if 9 <= leniency {
      VeryLenientInPrompt(rubric, instructions, level, leniency);
    }
  }

  /**
   The very strict and very lenient approaches give five guidance bullets,
   the balanced one three, and the other two four.
   */
  lemma GuidanceCounts(b: Leniency)
    ensures |Source.approach(b).bullets| == (if b in {VeryStrict, VeryLenient} then 5 else if b == Balanced then 3 else 4)
  {
  }

  // Why no band name occurs inside a later one: for each pair, either the
  // earlier name is the longer, or it holds a character the later one lacks.
  // Each pair is its own lemma, which keeps every proof about the literals small.

  lemma ElementaryK2NotInElementary35()
    ensures !Contains(Elementary35Name, ElementaryK2Name)
  {
    NotContainedByWitness(Elementary35Name, ElementaryK2Name, 'K');
  }

  lemma ElementaryK2NotInMiddle68()
    ensures !Contains(Middle68Name, ElementaryK2Name)
  {
    LongerNotContained(Middle68Name, ElementaryK2Name);
  }

  lemma Elementary35NotInMiddle68()
    ensures !Contains(Middle68Name, Elementary35Name)
  {
    LongerNotContained(Middle68Name, Elementary35Name);
  }

  lemma ElementaryK2NotInHigh910()
    ensures !Contains(High910Name, ElementaryK2Name)
  {
    LongerNotContained(High910Name, ElementaryK2Name);
  }

  lemma Elementary35NotInHigh910()
    ensures !Contains(High910Name, Elementary35Name)
  {
    LongerNotContained(High910Name, Elementary35Name);
  }

  lemma Middle68NotInHigh910()
    ensures !Contains(High910Name, Middle68Name)
  {
    LongerNotContained(High910Name, Middle68Name);
  }

  lemma ElementaryK2NotInHigh1112()
    ensures !Contains(High1112Name, ElementaryK2Name)
  {
    LongerNotContained(High1112Name, ElementaryK2Name);
  }

  lemma Elementary35NotInHigh1112()
    ensures !Contains(High1112Name, Elementary35Name)
  {
    LongerNotContained(High1112Name, Elementary35Name);
  }

  lemma Middle68NotInHigh1112()
    ensures !Contains(High1112Name, Middle68Name)
  {
    NotContainedByWitness(High1112Name, Middle68Name, 'M');
  }

  lemma High910NotInHigh1112()
    ensures !Contains(High1112Name, High910Name)
  {
    NotContainedByWitness(High1112Name, High910Name, '9');
  }

  lemma ElementaryK2NotInCollegeLower()
    ensures !Contains(CollegeLowerName, ElementaryK2Name)
  {
    NotContainedByWitness(CollegeLowerName, ElementaryK2Name, 'K');
  }

  lemma Elementary35NotInCollegeLower()
    ensures !Contains(CollegeLowerName, Elementary35Name)
  {
    NotContainedByWitness(CollegeLowerName, Elementary35Name, '3');
  }

  lemma Middle68NotInCollegeLower()
    ensures !Contains(CollegeLowerName, Middle68Name)
  {
    NotContainedByWitness(CollegeLowerName, Middle68Name, 'M');
  }

  lemma High910NotInCollegeLower()
    ensures !Contains(CollegeLowerName, High910Name)
  {
    NotContainedByWitness(CollegeLowerName, High910Name, '9');
  }

  lemma High1112NotInCollegeLower()
    ensures !Contains(CollegeLowerName, High1112Name)
  {
    NotContainedByWitness(CollegeLowerName, High1112Name, '1');
  }

  lemma ElementaryK2NotInCollegeUpper()
    ensures !Contains(CollegeUpperName, ElementaryK2Name)
  {
    LongerNotContained(CollegeUpperName, ElementaryK2Name);
  }

  lemma Elementary35NotInCollegeUpper()
    ensures !Contains(CollegeUpperName, Elementary35Name)
  {
    LongerNotContained(CollegeUpperName, Elementary35Name);
  }

  lemma Middle68NotInCollegeUpper()
    ensures !Contains(CollegeUpperName, Middle68Name)
  {
    NotContainedByWitness(CollegeUpperName, Middle68Name, 'M');
  }

  lemma High910NotInCollegeUpper()
    ensures !Contains(CollegeUpperName, High910Name)
  {
    NotContainedByWitness(CollegeUpperName, High910Name, '9');
  }

  lemma High1112NotInCollegeUpper()
    ensures !Contains(CollegeUpperName, High1112Name)
  {
    NotContainedByWitness(CollegeUpperName, High1112Name, '1');
  }

  lemma CollegeLowerNotInCollegeUpper()
    ensures !Contains(CollegeUpperName, CollegeLowerName)
  {
    LongerNotContained(CollegeUpperName, CollegeLowerName);
  }

  lemma ElementaryK2NotInGraduate()
    ensures !Contains(GraduateName, ElementaryK2Name)
  {
    LongerNotContained(GraduateName, ElementaryK2Name);
  }

  lemma Elementary35NotInGraduate()
    ensures !Contains(GraduateName, Elementary35Name)
  {
    LongerNotContained(GraduateName, Elementary35Name);
  }

  lemma Middle68NotInGraduate()
    ensures !Contains(GraduateName, Middle68Name)
  {
    LongerNotContained(GraduateName, Middle68Name);
  }

  lemma High910NotInGraduate()
    ensures !Contains(GraduateName, High910Name)
  {
    LongerNotContained(GraduateName, High910Name);
  }

  lemma High1112NotInGraduate()
    ensures !Contains(GraduateName, High1112Name)
  {
    LongerNotContained(GraduateName, High1112Name);
  }

  lemma CollegeLowerNotInGraduate()
    ensures !Contains(GraduateName, CollegeLowerName)
  {
    LongerNotContained(GraduateName, CollegeLowerName);
  }

  lemma CollegeUpperNotInGraduate()
    ensures !Contains(GraduateName, CollegeUpperName)
  {
    LongerNotContained(GraduateName, CollegeUpperName);
  }

  /** No band tested before Elementary35 has its name inside Elementary35's name. */
  lemma NameBeforeElementary35(a: GradeBand)
    requires BandRank(a) < BandRank(Elementary35)
    ensures !Contains(Elementary35Name, SourceName(a))
  {
    match a
    case ElementaryK2 => ElementaryK2NotInElementary35();
    case _ => assert false;
  }

  /** No band tested before Middle68 has its name inside Middle68's name. */
  lemma NameBeforeMiddle68(a: GradeBand)
    requires BandRank(a) < BandRank(Middle68)
    ensures !Contains(Middle68Name, SourceName(a))
  {
    match a
    case ElementaryK2 => ElementaryK2NotInMiddle68();
    case Elementary35 => Elementary35NotInMiddle68();
    case _ => assert false;
  }

  /** No band tested before High910 has its name inside High910's name. */
  lemma NameBeforeHigh910(a: GradeBand)
    requires BandRank(a) < BandRank(High910)
    ensures !Contains(High910Name, SourceName(a))
  {
    match a
    case ElementaryK2 => ElementaryK2NotInHigh910();
    case Elementary35 => Elementary35NotInHigh910();
    case Middle68 => Middle68NotInHigh910();
    case _ => assert false;
  }

  /** No band tested before High1112 has its name inside High1112's name. */
  lemma NameBeforeHigh1112(a: GradeBand)
    requires BandRank(a) < BandRank(High1112)
    ensures !Contains(High1112Name, SourceName(a))
  {
    match a
    case ElementaryK2 => ElementaryK2NotInHigh1112();
    case Elementary35 => Elementary35NotInHigh1112();
    case Middle68 => Middle68NotInHigh1112();
    case High910 => High910NotInHigh1112();
    case _ => assert false;
  }

  /** No band tested before CollegeLower has its name inside CollegeLower's name. */
  lemma NameBeforeCollegeLower(a: GradeBand)
    requires BandRank(a) < BandRank(CollegeLower)
    ensures !Contains(CollegeLowerName, SourceName(a))
  {
    match a
    case ElementaryK2 => ElementaryK2NotInCollegeLower();
    case Elementary35 => Elementary35NotInCollegeLower();
    case Middle68 => Middle68NotInCollegeLower();
    case High910 => High910NotInCollegeLower();
    case High1112 => High1112NotInCollegeLower();
    case _ => assert false;
  }

  /** No band tested before CollegeUpper has its name inside CollegeUpper's name. */
  lemma NameBeforeCollegeUpper(a: GradeBand)
    requires BandRank(a) < BandRank(CollegeUpper)
    ensures !Contains(CollegeUpperName, SourceName(a))
  {
    match a
    case ElementaryK2 => ElementaryK2NotInCollegeUpper();
    case Elementary35 => Elementary35NotInCollegeUpper();
    case Middle68 => Middle68NotInCollegeUpper();
    case High910 => High910NotInCollegeUpper();
    case High1112 => High1112NotInCollegeUpper();
    case CollegeLower => CollegeLowerNotInCollegeUpper();
    case _ => assert false;
  }

  /** No band tested before Graduate has its name inside Graduate's name. */
  lemma NameBeforeGraduate(a: GradeBand)
    requires BandRank(a) < BandRank(Graduate)
    ensures !Contains(GraduateName, SourceName(a))
  {
    match a
    case ElementaryK2 => ElementaryK2NotInGraduate();
    case Elementary35 => Elementary35NotInGraduate();
    case Middle68 => Middle68NotInGraduate();
    case High910 => High910NotInGraduate();
    case High1112 => High1112NotInGraduate();
    case CollegeLower => CollegeLowerNotInGraduate();
    case CollegeUpper => CollegeUpperNotInGraduate();
  }

  /** The names of the bands tested before `b` do not occur in `b`'s name. */
  lemma NamesBefore(b: GradeBand)
    ensures forall a :: BandRank(a) < BandRank(b) ==> !Contains(SourceName(b), SourceName(a))
  {
    forall a | BandRank(a) < BandRank(b) ensures !Contains(SourceName(b), SourceName(a)) {
      match b
      case Elementary35 => NameBeforeElementary35(a);
      case Middle68 => NameBeforeMiddle68(a);
      case High910 => NameBeforeHigh910(a);
      case High1112 => NameBeforeHigh1112(a);
      case CollegeLower => NameBeforeCollegeLower(a);
      case CollegeUpper => NameBeforeCollegeUpper(a);
      case Graduate => NameBeforeGraduate(a);
    }
  }

  /** No band name of the source occurs inside the name of a band tested after it. */
  lemma SourceNamesIndependent()
    ensures NamesIndependent(Source)
  {
    forall a, b | BandRank(a) < BandRank(b) ensures !Contains(Source.band(b).name, Source.band(a).name) {
      NamesBefore(b);
    }
  }

  /** Choosing a grade level from the selector's list selects that band's expectations. */
  lemma SelectedLevelSelectsItsBand(b: GradeBand)
    ensures SelectBand(Source, Source.band(b).name) == Some(b)
  {
    SourceNamesIndependent();
    ExactBandSelectsItself(Source, b);
  }
}
