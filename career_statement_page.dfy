/**
 * The career statement (`CareerContent`): the same records as the résumé, in a
 * different section order, without an introduction or durations, and with the
 * education section left out until it is chosen.
 */
module CareerStatementPage {
  import opened Wrappers
  import Profile
  import opened Sections
  import SkillGrouping
  import ResumePage

  /** Basic, career, skills and projects start chosen; education does not; there is no introduction checkbox. */
  function Defaults(): (f: Flags)
    ensures f.Keys == {Basic, Career, Skills, Education, Projects}
    ensures Chosen(f, Basic) && Chosen(f, Career) && Chosen(f, Skills) && Chosen(f, Projects)
    ensures !Chosen(f, Education) && !Chosen(f, Introduce)
  {
    map[Basic := true, Career := true, Skills := true, Education := false, Projects := true]
  }

  /** Position of a section in the statement; the introduction, which it never shows, comes last. */
  function Rank(s: Section): nat {
    match s
    case Basic => 0
    case Career => 1
    case Projects => 2
    case Skills => 3
    case Education => 4
    case Introduce => 5
  }

  /** A career in the statement: its record and how its date range ends. */
  datatype CareerEntry = CareerEntry(career: Profile.Career, end: ResumePage.EndLabel)

  datatype Block =
    | BasicBlock(heading: ResumePage.Heading)
    | CareerBlock(entries: seq<CareerEntry>)
    | ProjectsBlock(projects: seq<Profile.Project>)
    | SkillsBlock(groups: seq<SkillGrouping.Group>)
    | EducationBlock(educations: seq<Profile.Education>)

  /** The section a block belongs to. */
  function SectionOf(b: Block): Section {
    match b
    case BasicBlock(_) => Basic
    case CareerBlock(_) => Career
    case ProjectsBlock(_) => Projects
    case SkillsBlock(_) => Skills
    case EducationBlock(_) => Education
  }

  /** `startDate ~ (current ? "현재" : endDate)`. */
  function EntryOf(c: Profile.Career): (e: CareerEntry)
    ensures e.career == c
    ensures e.end.Present? <==> c.current
    ensures !c.current ==> e.end == ResumePage.Until(c.endDate)
  {
    CareerEntry(c, if c.current then ResumePage.Present else ResumePage.Until(c.endDate))
  }

  function Entries(careers: seq<Profile.Career>): (r: seq<CareerEntry>)
    ensures |r| == |careers|
    ensures forall i :: 0 <= i < |careers| ==> r[i] == EntryOf(careers[i])
  {
    if careers == [] then [] else [EntryOf(careers[0])] + Entries(careers[1..])
  }

  /** Whether a section is shown: its flag, and for all but the header, something to show. */
  predicate Visible(flags: Flags, d: Profile.ResumeData, s: Section) {
    Chosen(flags, s) &&
    match s
    case Basic => true
    case Introduce => false
    case Career => d.careers != []
    case Skills => SkillGrouping.Grouped(d.skills) != []
    case Education => d.educations != []
    case Projects => d.projects != []
  }

  function Shown(flags: Flags, d: Profile.ResumeData): Section -> bool {
    s => Visible(flags, d, s)
  }

  /**
   * The block each section renders. The statement has no introduction block;
   * `Introduce` is never visible and is not in `Order`, so its case is never
   * laid out and only completes the match.
   */
  function BlockOf(d: Profile.ResumeData, s: Section): Block {
    match s
    case Basic => BasicBlock(ResumePage.HeadingOf(d.basicInfo))
    case Introduce => BasicBlock(ResumePage.HeadingOf(d.basicInfo))
    case Career => CareerBlock(Entries(d.careers))
    case Projects => ProjectsBlock(d.projects)
    case Skills => SkillsBlock(SkillGrouping.Grouped(d.skills))
    case Education => EducationBlock(d.educations)
  }

  function Blocks(d: Profile.ResumeData): Section -> Block {
    s => BlockOf(d, s)
  }

  /** The statement's sections, top to bottom. */
  const Order: seq<Section> := [Basic, Career, Projects, Skills, Education]

  lemma OrderByRank()
    ensures forall s :: s != Introduce ==> Rank(s) < |Order| && Order[Rank(s)] == s
    ensures Introduce !in Order
    ensures Climbs(Order, Rank)
  {
    forall i | 0 <= i < |Order|
      ensures Rank(Order[i]) == i
    {
    }
  }

  /** `CareerContent`: the visible sections' blocks, in `Order`. */
  function Document(flags: Flags, d: Profile.ResumeData): seq<Block> {
    Layout(Order, Shown(flags, d), Blocks(d))
  }

  /**
   * A section is in the statement exactly when it is visible, which the
   * introduction never is; the sections come in the order header, career,
   * projects, skills, education, each at most once.
   */
  lemma DocumentSections(flags: Flags, d: Profile.ResumeData)
    ensures forall s :: s in SectionsOf(Document(flags, d), SectionOf) <==> Visible(flags, d, s)
    ensures Introduce !in SectionsOf(Document(flags, d), SectionOf)
    ensures Climbs(SectionsOf(Document(flags, d), SectionOf), Rank)
  {
    var ss := SectionsOf(Document(flags, d), SectionOf);
    DocumentPicks(flags, d);
    PickedFromOrder(Shown(flags, d));
    forall s
      ensures s in ss <==> Visible(flags, d, s)
    {
      assert Shown(flags, d)(s) == Visible(flags, d, s);
    }
  }

  /** Picking from `Order` keeps the admitted sections other than the introduction, in rank order. */
  lemma PickedFromOrder(shown: Section -> bool)
    ensures forall s :: s in Picked(Order, shown) <==> s != Introduce && shown(s)
    ensures Climbs(Picked(Order, shown), Rank)
  {
    OrderByRank();
    PickedSpec(Order, shown, Rank);
    forall s | s != Introduce && shown(s)
      ensures s in Picked(Order, shown)
    {
      assert Order[Rank(s)] == s;
    }
  }

  /** Every section of `Order` renders a block of that section. */
  lemma BlocksNamed(d: Profile.ResumeData)
    ensures forall s :: s in Order ==> SectionOf(Blocks(d)(s)) == s
  {
    forall s | s in Order
      ensures SectionOf(Blocks(d)(s)) == s
    {
      assert Blocks(d)(s) == BlockOf(d, s);
    }
  }

  /** The statement's blocks name the sections `Picked` keeps from `Order`. */
  lemma DocumentPicks(flags: Flags, d: Profile.ResumeData)
    ensures SectionsOf(Document(flags, d), SectionOf) == Picked(Order, Shown(flags, d))
  {
    BlocksNamed(d);
    LayoutSections(Order, Shown(flags, d), Blocks(d), SectionOf);
  }

  /** With the defaults the statement has no education section, whatever the data. */
  lemma DefaultsHideEducation(d: Profile.ResumeData)
    ensures Education !in SectionsOf(Document(Defaults(), d), SectionOf)
    ensures Page(Defaults(), d).Some? ==> Education !in SectionsOf(Page(Defaults(), d).value, SectionOf)
  {
    DocumentSections(Defaults(), d);
  }

  /**
   * The page as it renders. The grouping reduce runs in the component body before
   * any section is drawn, whichever sections are chosen, so data it throws on
   * leaves no page (`None`); otherwise the page is the statement.
   */
  function Page(flags: Flags, d: Profile.ResumeData): Option<seq<Block>> {
    if SkillGrouping.Accepts(d.skills) then Some(Document(flags, d)) else None
  }

  /**
   * The page renders exactly when no skill's category names an `Object.prototype`
   * member, and the choice of sections cannot change that; a rendered page shows
   * exactly the visible sections, never the introduction, in rank order.
   */
  lemma PageSections(flags: Flags, other: Flags, d: Profile.ResumeData)
    ensures Page(flags, d).Some? <==>
      forall i :: 0 <= i < |d.skills| ==> !SkillGrouping.Throws(d.skills[i].category)
    ensures Page(flags, d).None? <==> Page(other, d).None?
    ensures Page(flags, d).Some? ==>
      && (forall s :: s in SectionsOf(Page(flags, d).value, SectionOf) <==> Visible(flags, d, s))
      && Introduce !in SectionsOf(Page(flags, d).value, SectionOf)
      && Climbs(SectionsOf(Page(flags, d).value, SectionOf), Rank)
  {
    if SkillGrouping.Accepts(d.skills) {
      DocumentSections(flags, d);
    }
  }
}
