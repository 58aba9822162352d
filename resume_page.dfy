/**
 * The résumé (`ResumeContent`): which sections it shows, in which order, and the
 * career durations it prints. Dates are month values and "now" is a parameter.
 */
module ResumePage {
  import opened Wrappers
  import Js
  import Tenure
  import Profile
  import opened Sections
  import SkillGrouping

  // ---------------------------------------------------------------------------
  // Section selection

  /** All six sections start included. */
  function Defaults(): (f: Flags)
    ensures f.Keys == {Basic, Introduce, Career, Skills, Education, Projects}
    ensures forall s :: s in f ==> f[s]
  {
    map[Basic := true, Introduce := true, Career := true, Skills := true,
        Education := true, Projects := true]
  }

  /** Position of a section in the résumé. */
  function Rank(s: Section): nat {
    match s
    case Basic => 0
    case Introduce => 1
    case Career => 2
    case Skills => 3
    case Education => 4
    case Projects => 5
  }

  // ---------------------------------------------------------------------------
  // Durations

  /** The end month of a career: now while current, otherwise its end date. */
  function EndOf(c: Profile.Career, now: Tenure.YearMonth): Tenure.DateField {
    if c.current then Tenure.Valid(now) else c.endDate
  }

  /**
   * Months of one career, `(endY - startY) * 12 + (endM - startM)`, not clamped;
   * NaN (None) when a date is missing or unreadable.
   */
  function CareerMonths(c: Profile.Career, now: Tenure.YearMonth): (r: Option<int>)
    ensures r.Some? <==> c.startDate.Valid? && EndOf(c, now).Valid?
    ensures r.Some? ==> r.value == Tenure.Index(EndOf(c, now).date) - Tenure.Index(c.startDate.date)
  {
    match (Tenure.Parse(c.startDate), Tenure.Parse(EndOf(c, now)))
    case (Some(start), Some(end)) => Some(Tenure.MonthsBetween(start, end))
    case _ => None
  }

  /** The per-career month counts, in list order. */
  function MonthsOf(careers: seq<Profile.Career>, now: Tenure.YearMonth): (r: seq<Option<int>>)
    ensures |r| == |careers|
    ensures forall i :: 0 <= i < |careers| ==> r[i] == CareerMonths(careers[i], now)
  {
    if careers == [] then [] else [CareerMonths(careers[0], now)] + MonthsOf(careers[1..], now)
  }

  /** `totalCareerMonths`: the sum over all careers, whatever sections are chosen. */
  function TotalMonths(careers: seq<Profile.Career>, now: Tenure.YearMonth): Option<int> {
    Tenure.Sum(MonthsOf(careers, now))
  }

  /** A career that ends no earlier than it starts and whose dates are readable. */
  predicate WellDated(c: Profile.Career, now: Tenure.YearMonth) {
    && c.startDate.Valid? && EndOf(c, now).Valid?
    && Tenure.ValidMonth(c.startDate.date) && Tenure.ValidMonth(EndOf(c, now).date)
    && Tenure.NotAfter(c.startDate.date, EndOf(c, now).date)
  }

  /**
   * When every career is well dated the total is a number that is not negative,
   * and the badge's years and months recombine to it, with 0 to 11 months.
   */
  lemma TotalSplit(careers: seq<Profile.Career>, now: Tenure.YearMonth)
    requires forall i :: 0 <= i < |careers| ==> WellDated(careers[i], now)
    ensures TotalMonths(careers, now).Some? && TotalMonths(careers, now).value >= 0
    ensures var r := Tenure.SplitMonths(TotalMonths(careers, now));
      && r.years.Some? && r.months.Some?
      && r.years.value * 12 + r.months.value == TotalMonths(careers, now).value
      && 0 <= r.months.value < 12
  {
    var ms := MonthsOf(careers, now);
    forall i | 0 <= i < |ms|
      ensures ms[i].Some? && ms[i].value >= 0
    {
      var c := careers[i];
      Tenure.MonthsBetweenSign(c.startDate.date, EndOf(c, now).date);
    }
    Tenure.SumNonNegative(ms);
    Tenure.SplitNonNegative(TotalMonths(careers, now).value);
  }

  /** One career with an unreadable or missing date makes the total NaN. */
  lemma TotalNaN(careers: seq<Profile.Career>, now: Tenure.YearMonth, i: nat)
    requires i < |careers| && CareerMonths(careers[i], now).None?
    ensures TotalMonths(careers, now).None?
  {
    Tenure.SumDefined(MonthsOf(careers, now));
  }

  /** The total of a concatenation adds the totals. */
  lemma TotalAppend(a: seq<Profile.Career>, b: seq<Profile.Career>, now: Tenure.YearMonth)
    ensures TotalMonths(a + b, now) == Tenure.Add(TotalMonths(a, now), TotalMonths(b, now))
  {
    assert MonthsOf(a + b, now) == MonthsOf(a, now) + MonthsOf(b, now);
    Tenure.SumAppend(MonthsOf(a, now), MonthsOf(b, now));
  }

  /** `${years}년 ${months}개월`, as the résumé prints a duration. */
  function DurationText(d: Tenure.Split): string {
    Js.NumberText(d.years) + "년 " + Js.NumberText(d.months) + "개월"
  }

  // ---------------------------------------------------------------------------
  // Skill levels

  /** `getLevelText(level)`: the description of levels 1 to 3, "" for anything else. */
  function LevelText(level: int): (r: string)
    ensures r != "" <==> 1 <= level <= 3
  {
    if level == 1 then "기본적인 사용 경험과 협업에 필요한 지식 보유"
    else if level == 2 then "매우 능숙하지는 않지만 업무 수행 가능"
    else if level == 3 then "관련 지식과 경험이 풍부하며 능숙하게 업무 진행 가능"
    else ""
  }

  /** The three level descriptions differ from one another. */
  lemma LevelTextsDistinct(a: int, b: int)
    requires 1 <= a <= 3 && 1 <= b <= 3 && a != b
    ensures LevelText(a) != LevelText(b)
  {
    assert LevelText(1)[0] != LevelText(2)[0];
    assert LevelText(1)[0] != LevelText(3)[0];
    assert LevelText(2)[0] != LevelText(3)[0];
  }

  // ---------------------------------------------------------------------------
  // The document

  /** How a career's date range ends: "현재" while current, else its end date. */
  datatype EndLabel = Present | Until(date: Tenure.DateField)

  datatype CareerEntry = CareerEntry(career: Profile.Career, end: EndLabel, duration: Tenure.Split)

  /** The name block: the name, and each of the other fields only when it is set. */
  datatype Heading = Heading(name: string, nameEn: Option<string>, email: Option<string>, phone: Option<string>)

  /** `value && ...`: present when the text is not empty. */
  function IfSet(s: string): (r: Option<string>)
    ensures r.Some? <==> s != ""
    ensures r.Some? ==> r.value == s
  {
    if s != "" then Some(s) else None
  }

  /** `name || "이름 없음"`, with the English name, e-mail and phone when set. */
  function HeadingOf(b: Profile.BasicInfo): (h: Heading)
    ensures h.name != ""
    ensures b.name != "" ==> h.name == b.name
    ensures h.nameEn == IfSet(b.nameEn) && h.email == IfSet(b.email) && h.phone == IfSet(b.phone)
  {
    Heading(if b.name != "" then b.name else "이름 없음", IfSet(b.nameEn), IfSet(b.email), IfSet(b.phone))
  }

  datatype Block =
    | BasicBlock(heading: Heading)
    | IntroduceBlock(text: string)
    | CareerBlock(total: Tenure.Split, entries: seq<CareerEntry>)
    | SkillsBlock(legend: seq<string>, groups: seq<SkillGrouping.Group>)
    | EducationBlock(educations: seq<Profile.Education>)
    | ProjectsBlock(projects: seq<Profile.Project>)

  /** The section a block belongs to. */
  function SectionOf(b: Block): Section {
    match b
    case BasicBlock(_) => Basic
    case IntroduceBlock(_) => Introduce
    case CareerBlock(_, _) => Career
    case SkillsBlock(_, _) => Skills
    case EducationBlock(_) => Education
    case ProjectsBlock(_) => Projects
  }

  function Entry(c: Profile.Career, now: Tenure.YearMonth): CareerEntry {
    CareerEntry(c, if c.current then Present else Until(c.endDate),
      Tenure.SplitMonths(CareerMonths(c, now)))
  }

  function Entries(careers: seq<Profile.Career>, now: Tenure.YearMonth): (r: seq<CareerEntry>)
    ensures |r| == |careers|
    ensures forall i :: 0 <= i < |careers| ==> r[i] == Entry(careers[i], now)
  {
    if careers == [] then [] else [Entry(careers[0], now)] + Entries(careers[1..], now)
  }

  /** Whether a section is shown: its flag, and for all but the header, something to show. */
  predicate Visible(flags: Flags, d: Profile.ResumeData, s: Section) {
    Chosen(flags, s) &&
    match s
    case Basic => true
    case Introduce => d.basicInfo.introduce != ""
    case Career => d.careers != []
    case Skills => SkillGrouping.Grouped(d.skills) != []
    case Education => d.educations != []
    case Projects => d.projects != []
  }

  /** `Visible` as a test on sections. */
  function Shown(flags: Flags, d: Profile.ResumeData): Section -> bool {
    s => Visible(flags, d, s)
  }

  /** The block each section renders. */
  function BlockOf(d: Profile.ResumeData, now: Tenure.YearMonth, s: Section): (b: Block)
    ensures SectionOf(b) == s
  {
    match s
    case Basic => BasicBlock(HeadingOf(d.basicInfo))
    case Introduce => IntroduceBlock(d.basicInfo.introduce)
    case Career => CareerBlock(Tenure.SplitMonths(TotalMonths(d.careers, now)), Entries(d.careers, now))
    case Skills => SkillsBlock([LevelText(3), LevelText(2), LevelText(1)], SkillGrouping.Grouped(d.skills))
    case Education => EducationBlock(d.educations)
    case Projects => ProjectsBlock(d.projects)
  }

  function Blocks(d: Profile.ResumeData, now: Tenure.YearMonth): Section -> Block {
    s => BlockOf(d, now, s)
  }

  /** The résumé's sections, top to bottom. */
  const Order: seq<Section> := [Basic, Introduce, Career, Skills, Education, Projects]

  /** Each section sits at its rank in `Order`. */
  lemma OrderByRank()
    ensures |Order| == 6
    ensures forall s :: Rank(s) < 6 && Order[Rank(s)] == s
    ensures Climbs(Order, Rank)
  {
    forall i | 0 <= i < 6
      ensures Rank(Order[i]) == i
    {
    }
  }

  /** `ResumeContent`: the visible sections' blocks, in `Order`. */
  function Document(flags: Flags, d: Profile.ResumeData, now: Tenure.YearMonth): seq<Block> {
    Layout(Order, Shown(flags, d), Blocks(d, now))
  }

  /**
   * A section is in the résumé exactly when it is visible; the sections come in
   * the order header, introduction, career, skills, education, projects, each at
   * most once.
   */
  lemma DocumentSections(flags: Flags, d: Profile.ResumeData, now: Tenure.YearMonth)
    ensures forall s :: s in SectionsOf(Document(flags, d, now), SectionOf) <==> Visible(flags, d, s)
    ensures Climbs(SectionsOf(Document(flags, d, now), SectionOf), Rank)
  {
    var ss := SectionsOf(Document(flags, d, now), SectionOf);
    DocumentPicks(flags, d, now);
    OrderByRank();
    PickedSpec(Order, Shown(flags, d), Rank);
    forall s
      ensures s in ss <==> Visible(flags, d, s)
    {
      assert Order[Rank(s)] == s;
      assert Shown(flags, d)(s) == Visible(flags, d, s);
    }
  }

  /** Every section of `Order` renders a block of that section. */
  lemma BlocksNamed(d: Profile.ResumeData, now: Tenure.YearMonth)
    ensures forall s :: s in Order ==> SectionOf(Blocks(d, now)(s)) == s
  {
    forall s | s in Order
      ensures SectionOf(Blocks(d, now)(s)) == s
    {
      assert Blocks(d, now)(s) == BlockOf(d, now, s);
    }
  }

  /** The résumé's blocks name the sections `Picked` keeps from `Order`. */
  lemma DocumentPicks(flags: Flags, d: Profile.ResumeData, now: Tenure.YearMonth)
    ensures SectionsOf(Document(flags, d, now), SectionOf) == Picked(Order, Shown(flags, d))
  {
    BlocksNamed(d, now);
    LayoutSections(Order, Shown(flags, d), Blocks(d, now), SectionOf);
  }

  /** The header is shown whenever it is chosen, with "이름 없음" for an empty name. */
  lemma HeaderShown(flags: Flags, d: Profile.ResumeData, now: Tenure.YearMonth)
    requires Chosen(flags, Basic)
    ensures Document(flags, d, now) != []
    ensures Document(flags, d, now)[0] == BasicBlock(HeadingOf(d.basicInfo))
    ensures Document(flags, d, now)[0].heading.name == if d.basicInfo.name == "" then "이름 없음" else d.basicInfo.name
  {
    assert Shown(flags, d)(Basic);
    assert Order[0] == Basic;
  }

  /** With the defaults, the skills section is shown exactly when there is a skill. */
  lemma DefaultSkillsShown(d: Profile.ResumeData)
    ensures Visible(Defaults(), d, Skills) <==> d.skills != []
  {
    SkillGrouping.GroupedEmpty(d.skills);
  }

  /**
   * With the defaults a rendered page has the skills section exactly when there
   * are skills; a page that does not render has skills.
   */
  lemma DefaultSkillsOnPage(d: Profile.ResumeData, now: Tenure.YearMonth)
    ensures Page(Defaults(), d, now).Some? ==>
      (Skills in SectionsOf(Page(Defaults(), d, now).value, SectionOf) <==> d.skills != [])
    ensures Page(Defaults(), d, now).None? ==> d.skills != []
  {
    DefaultSkillsShown(d);
    PageSections(Defaults(), Defaults(), d, now);
  }

  /**
   * The page as it renders. The grouping reduce runs in the component body before
   * any section is drawn, whichever sections are chosen, so data it throws on
   * leaves no page (`None`); otherwise the page is the document.
   */
  function Page(flags: Flags, d: Profile.ResumeData, now: Tenure.YearMonth): Option<seq<Block>> {
    if SkillGrouping.Accepts(d.skills) then Some(Document(flags, d, now)) else None
  }

  /**
   * The page renders exactly when no skill's category names an `Object.prototype`
   * member, and the choice of sections cannot change that; a rendered page shows
   * exactly the visible sections, in rank order.
   */
  lemma PageSections(flags: Flags, other: Flags, d: Profile.ResumeData, now: Tenure.YearMonth)
    ensures Page(flags, d, now).Some? <==>
      forall i :: 0 <= i < |d.skills| ==> !SkillGrouping.Throws(d.skills[i].category)
    ensures Page(flags, d, now).None? <==> Page(other, d, now).None?
    ensures Page(flags, d, now).Some? ==>
      && (forall s :: s in SectionsOf(Page(flags, d, now).value, SectionOf) <==> Visible(flags, d, s))
      && Climbs(SectionsOf(Page(flags, d, now).value, SectionOf), Rank)
  {
    if SkillGrouping.Accepts(d.skills) {
      DocumentSections(flags, d, now);
    }
  }
}
