/** `Professional2Template` (Modern Sidebar): a sidebar with the name, a
    headline, the contact details, the skills and the certifications, and a
    main column with the summary, experience, education, projects and
    achievements. */
module Professional2 {
  import opened Wrappers
  import opened Strings
  import opened BaseTemplate
  import opened ResumeTypes
  import opened Document
  import opened Sequences

  const DefaultPrimaryColor := "#0ea5e9"
  const DefaultSecondaryColor := "#475569"

  const ContactTitle := "Contact"
  const SkillsTitle := "Skills"
  const CertificationsTitle := "Certifications"

  const SummaryTitle := "Professional Summary"
  const ExperienceTitle := "Experience"
  const EducationTitle := "Education"
  const ProjectsTitle := "Projects"
  const AchievementsTitle := "Achievements"

  /** The sidebar's section headings, in order. */
  const SidebarTitles: seq<string> := [ContactTitle, SkillsTitle, CertificationsTitle]

  /** The main column's section headings, in order. */
  const MainTitles: seq<string> := [SummaryTitle, ExperienceTitle, EducationTitle, ProjectsTitle, AchievementsTitle]

  // ---------------------------------------------------------------------------
  // Style
  // ---------------------------------------------------------------------------

  /** Full width with a letter-page minimum height for print, `850px` wide
      with no minimum height on screen. */
  function PageFor(isPrint: bool): Page {
    if isPrint then FullHeight("100%", "11in") else FullHeight("850px", "auto")
  }

  /** The template's style: its own colour defaults and page geometry. */
  function StyleOf(config: Option<TemplateConfig>, isPrint: bool): Style {
    ConfiguredStyle(config, DefaultPrimaryColor, DefaultSecondaryColor, PageFor(isPrint))
  }

  // ---------------------------------------------------------------------------
  // Sidebar
  // ---------------------------------------------------------------------------

  /** The name, and under it the first line of the description when there is one. */
  function HeaderBlock(r: Resume): Block {
    Header(r.name, if Present(r.description) then [[[Text(FirstLine(r.description.value))]]] else [])
  }

  /** One contact entry: a bold label, then the value on its own line. */
  function ContactEntry(name: string, value: Node): Item {
    [[Text(name)], [value]]
  }

  /** The website's caption: the URL without its first `http://` or `https://`. */
  function WebsiteCaption(website: string): string {
    StripProtocol(website)
  }

  /** The contact entries, in order, each only when its field is truthy. */
  function ContactItems(r: Resume): seq<Item> {
    (if r.email != "" then [ContactEntry("Email:", Link("mailto:" + r.email, r.email))] else [])
    + (if Present(r.phone) then [ContactEntry("Phone:", Text(r.phone.value))] else [])
    + (if Present(r.location) then [ContactEntry("Location:", Text(r.location.value))] else [])
    + (if Present(r.linkedin) then [ContactEntry("LinkedIn:", Link(r.linkedin.value, "Profile"))] else [])
    + (if Present(r.github) then [ContactEntry("GitHub:", Link(r.github.value, "Profile"))] else [])
    + (if Present(r.website) then [ContactEntry("Website:", Link(r.website.value, WebsiteCaption(r.website.value)))] else [])
  }

  /** One line per skill, each prefixed with `• `. */
  function BulletLines(items: seq<string>): (lines: seq<Line>)
    ensures |lines| == |items|
    ensures forall i :: 0 <= i < |items| ==> lines[i] == [Text("• " + items[i])]
  {
    seq(|items|, i requires 0 <= i < |items| => [Text("• " + items[i])])
  }

  /** A skill category: its name, then one bulleted line per skill. */
  function SkillItem(s: SkillCategory): Item {
    [[Text(s.category)]] + BulletLines(s.items)
  }

  /** A certification: name, issuer, and the issue date when present. */
  function CertificationItem(c: Certification): Item {
    [[Text(c.name)], [Text(c.issuer)]] + LineIf(c.issueDate)
  }

  function ContactSection(r: Resume): Block {
    Section(ContactTitle, ContactItems(r))
  }

  function SkillsSection(r: Resume): Block {
    Section(SkillsTitle, MapItems(SkillItem, r.skills))
  }

  function CertificationsSection(r: Resume): Block {
    Section(CertificationsTitle, MapItems(CertificationItem, r.certifications))
  }

  /** The sidebar's sections: the contact section always, the others when non-empty. */
  function SidebarCandidates(r: Resume): seq<(bool, Block)> {
    [(true, ContactSection(r)),
     (|r.skills| > 0, SkillsSection(r)),
     (|r.certifications| > 0, CertificationsSection(r))]
  }

  function Sidebar(r: Resume): seq<Block> {
    [HeaderBlock(r)] + Keep(SidebarCandidates(r))
  }

  // ---------------------------------------------------------------------------
  // Main column
  // ---------------------------------------------------------------------------

  /** A job: role, company (with `" • "` and the location when present), date, description. */
  function WorkItem(w: WorkHistory): Item {
    [[Text(w.role)],
     [Text(w.companyName)] + Suffix(w.location, " • "),
     [Text(w.dateOfWork)],
     [Text(w.description)]]
  }

  /** A degree: degree (and field), institution (and location), date range
      (and GPA), then the description when present. */
  function EducationItem(e: Education): Item {
    [[Text(e.degree)] + Suffix(e.field, " in "),
     [Text(e.institution)] + Suffix(e.location, " • "),
     [Text(FormatDateRange(e.startDate, e.endDate))] + Suffix(e.gpa, " • GPA: ")]
    + LineIf(e.description)
  }

  /** A project: name with a `[Link]`, the technologies joined with `" • "`, description. */
  function ProjectItem(p: Project): Item {
    [[Text(p.projectName)] + LinkIf(p.projectUrl, "[Link]")]
    + (if HasTechnologies(p) then [[Text(Join(p.technologies.value, " • "))]] else [])
    + [[Text(p.projectDescription)]]
  }

  /** An achievement: name, the date when present, description. */
  function AchievementItem(a: Achievement): Item {
    [[Text(a.achievementName)]] + LineIf(a.date) + [[Text(a.achievementDescription)]]
  }

  /** `resume.description && resume.description.includes('\n')`. */
  predicate HasSummary(r: Resume) {
    Present(r.description) && '\n' in r.description.value
  }

  function SummarySection(r: Resume): Block {
    Section(SummaryTitle, [[[Text(Or(r.description, ""))]]])
  }

  function ExperienceSection(r: Resume): Block {
    Section(ExperienceTitle, MapItems(WorkItem, r.workHistory))
  }

  function EducationSection(r: Resume): Block {
    Section(EducationTitle, MapItems(EducationItem, r.education))
  }

  function ProjectsSection(r: Resume): Block {
    Section(ProjectsTitle, MapItems(ProjectItem, r.projects))
  }

  function AchievementsSection(r: Resume): Block {
    Section(AchievementsTitle, MapItems(AchievementItem, r.achievements))
  }

  /** The main column's sections, each with the condition under which it is shown. */
  function MainCandidates(r: Resume): seq<(bool, Block)> {
    [(HasSummary(r), SummarySection(r)),
     (|r.workHistory| > 0, ExperienceSection(r)),
     (|r.education| > 0, EducationSection(r)),
     (|r.projects| > 0, ProjectsSection(r)),
     (|r.achievements| > 0, AchievementsSection(r))]
  }

  function MainColumn(r: Resume): seq<Block> {
    Keep(MainCandidates(r))
  }

  /** `Professional2Template({resume, config, isPrint})`; `isPreview` is never read. */
  function Professional2Template(r: Resume, config: Option<TemplateConfig>, isPrint: bool): (d: Doc)
    ensures |d.columns| == 2
    ensures 1 <= |d.columns[0]| <= 1 + |SidebarTitles| && |d.columns[1]| <= |MainTitles|
    ensures d.columns[0][0].Header? && d.columns[0][0].name == r.name
    ensures d.style.primaryColor == Or(Get(config, PrimaryColorKey), DefaultPrimaryColor)
    ensures d.style.secondaryColor == Or(Get(config, SecondaryColorKey), DefaultSecondaryColor)
    ensures d.style.page == PageFor(isPrint)
    ensures ResolvedStyle(d.style, config, DefaultPrimaryColor, DefaultSecondaryColor, PageFor(isPrint))
  {
    ConfiguredStyleFields(config, DefaultPrimaryColor, DefaultSecondaryColor, PageFor(isPrint));
    Doc(StyleOf(config, isPrint), [Sidebar(r), MainColumn(r)])
  }

  // ---------------------------------------------------------------------------
  // Sections: which appear, in which order, with what
  // ---------------------------------------------------------------------------

  lemma TitlesDistinct()
    ensures Distinct(SidebarTitles) && Distinct(MainTitles)
  {
    assert |ContactTitle| == 7 && |SkillsTitle| == 6 && |CertificationsTitle| == 14;
    assert |SummaryTitle| == 20 && |ExperienceTitle| == 10 && |EducationTitle| == 9;
    assert |ProjectsTitle| == 8 && |AchievementsTitle| == 12;
  }

  lemma CandidatesTitled(r: Resume)
    ensures Titled(SidebarCandidates(r), SidebarTitles)
    ensures Titled(MainCandidates(r), MainTitles)
  {
  }

  /** Two columns: the sidebar opens with the name block and the main column
      has sections only; in each, the headings follow the template's order. */
  lemma SectionOrder(r: Resume, config: Option<TemplateConfig>, isPrint: bool)
    ensures Professional2Template(r, config, isPrint).columns == [Sidebar(r), MainColumn(r)]
    ensures Sidebar(r)[0] == HeaderBlock(r)
    ensures forall b :: b in Sidebar(r)[1..] ==> b.Section?
    ensures IsSubsequence(Headings(Sidebar(r)[1..]), SidebarTitles)
    ensures forall b :: b in MainColumn(r) ==> b.Section?
    ensures IsSubsequence(Headings(MainColumn(r)), MainTitles)
  {
    assert Sidebar(r)[1..] == Keep(SidebarCandidates(r));
    CandidatesTitled(r);
    KeepTitled(SidebarCandidates(r), SidebarTitles);
    KeepTitled(MainCandidates(r), MainTitles);
  }

  /** The sidebar section titled `SidebarTitles[k]` is shown exactly when
      candidate `k`'s condition holds. */
  lemma SidebarSectionShown(r: Resume, k: nat)
    requires k < |SidebarTitles|
    ensures FindSection(Sidebar(r), SidebarTitles[k])
         == if SidebarCandidates(r)[k].0 then Some(SidebarCandidates(r)[k].1) else None
  {
    FindAfterHeader(HeaderBlock(r), Keep(SidebarCandidates(r)), SidebarTitles[k]);
    CandidatesTitled(r);
    TitlesDistinct();
    FindTitled(SidebarCandidates(r), SidebarTitles, k);
  }

  /** The main section titled `MainTitles[k]` is shown exactly when candidate `k`'s condition holds. */
  lemma MainSectionShown(r: Resume, k: nat)
    requires k < |MainTitles|
    ensures FindSection(MainColumn(r), MainTitles[k])
         == if MainCandidates(r)[k].0 then Some(MainCandidates(r)[k].1) else None
  {
    CandidatesTitled(r);
    TitlesDistinct();
    FindTitled(MainCandidates(r), MainTitles, k);
  }

  /** The contact section is always shown, even with no entry; skills and
      certifications live in the sidebar and are shown exactly when non-empty. */
  lemma SidebarSections(r: Resume)
    ensures FindSection(Sidebar(r), ContactTitle) == Some(Section(ContactTitle, ContactItems(r)))
    ensures FindSection(Sidebar(r), SkillsTitle)
         == (if |r.skills| > 0 then Some(Section(SkillsTitle, MapItems(SkillItem, r.skills))) else None)
    ensures FindSection(Sidebar(r), CertificationsTitle)
         == (if |r.certifications| > 0
             then Some(Section(CertificationsTitle, MapItems(CertificationItem, r.certifications))) else None)
  {
    SidebarSectionShown(r, 0);
    SidebarSectionShown(r, 1);
    SidebarSectionShown(r, 2);
  }

  /** The main column shows each section exactly when its collection is
      non-empty, and the summary only for a description of several lines. */
  lemma MainSections(r: Resume)
    ensures FindSection(MainColumn(r), SummaryTitle)
         == (if HasSummary(r) then Some(Section(SummaryTitle, [[[Text(r.description.value)]]])) else None)
    ensures FindSection(MainColumn(r), ExperienceTitle)
         == (if |r.workHistory| > 0 then Some(Section(ExperienceTitle, MapItems(WorkItem, r.workHistory))) else None)
    ensures FindSection(MainColumn(r), EducationTitle)
         == (if |r.education| > 0 then Some(Section(EducationTitle, MapItems(EducationItem, r.education))) else None)
    ensures FindSection(MainColumn(r), ProjectsTitle)
         == (if |r.projects| > 0 then Some(Section(ProjectsTitle, MapItems(ProjectItem, r.projects))) else None)
    ensures FindSection(MainColumn(r), AchievementsTitle)
         == (if |r.achievements| > 0
             then Some(Section(AchievementsTitle, MapItems(AchievementItem, r.achievements))) else None)
  {
    MainSectionShown(r, 0);
    MainSectionShown(r, 1);
    MainSectionShown(r, 2);
    MainSectionShown(r, 3);
    MainSectionShown(r, 4);
  }

  /** The document has two columns, and the sidebar shows a Skills section
      exactly when the resume has skill categories; the main column never does. */
  lemma SkillsPlacement(r: Resume, config: Option<TemplateConfig>, isPrint: bool)
    ensures var d := Professional2Template(r, config, isPrint);
      && |d.columns| == 2
      && (FindSection(d.columns[0], SkillsTitle).Some? <==> |r.skills| > 0)
      && FindSection(d.columns[1], SkillsTitle).None?
  {
    assert FindSection(Sidebar(r), SkillsTitle).Some? <==> |r.skills| > 0 by {
      SidebarSectionShown(r, 1);
      assert SidebarCandidates(r)[1] == (|r.skills| > 0, SkillsSection(r));
    }
    assert FindSection(MainColumn(r), SkillsTitle).None? by {
      ColumnsDisjoint(r);
    }
  }

  /** Skills and certifications never appear in the main column, and the main
      column's sections never appear in the sidebar. */
  lemma ColumnsDisjoint(r: Resume)
    ensures FindSection(MainColumn(r), SkillsTitle).None? && FindSection(MainColumn(r), CertificationsTitle).None?
    ensures forall t :: t in MainTitles ==> FindSection(Sidebar(r), t).None?
  {
    TitlesApart();
    assert forall b :: b in MainColumn(r) ==> b.Section? && b.title in MainTitles by {
      CandidatesTitled(r);
      KeptTitles(MainCandidates(r), MainTitles);
    }
    assert forall b :: b in Sidebar(r) && b.Section? ==> b.title in SidebarTitles by {
      CandidatesTitled(r);
      KeptTitles(SidebarCandidates(r), SidebarTitles);
    }
  }

  /** No heading is used in both columns. */
  lemma TitlesApart()
    ensures forall t :: t in MainTitles ==> t !in SidebarTitles
  {
    assert |ContactTitle| == 7 && |SkillsTitle| == 6 && |CertificationsTitle| == 14;
    assert |SummaryTitle| == 20 && |ExperienceTitle| == 10 && |EducationTitle| == 9;
    assert |ProjectsTitle| == 8 && |AchievementsTitle| == 12;
  }

  // ---------------------------------------------------------------------------
  // The description: headline and summary
  // ---------------------------------------------------------------------------

  /** A truthy description shows its first line under the name; the summary
      repeats it in full exactly when it has a second line. So the description
      is never lost: it is either the whole headline or shown in the summary. */
  lemma DescriptionShown(r: Resume)
    requires Present(r.description)
    ensures var headline := FirstLine(r.description.value);
      && HeaderBlock(r).items == [[[Text(headline)]]]
      && headline <= r.description.value
      && '\n' !in headline
      && (headline == r.description.value <==> FindSection(MainColumn(r), SummaryTitle).None?)
      && (headline != r.description.value
          ==> FindSection(MainColumn(r), SummaryTitle) == Some(Section(SummaryTitle, [[[Text(r.description.value)]]])))
  {
    MainSectionShown(r, 0);
  }

  /** Without a description there is neither a headline nor a summary. */
  lemma NoDescription(r: Resume)
    requires !Present(r.description)
    ensures HeaderBlock(r).items == []
    ensures FindSection(MainColumn(r), SummaryTitle).None?
  {
    MainSectionShown(r, 0);
  }

  // ---------------------------------------------------------------------------
  // Entries
  // ---------------------------------------------------------------------------

  /** The entry a truthy contact field gives: its label and its value. */
  predicate ContactOf(r: Resume, name: string, value: Node) {
    || (name == "Email:" && r.email != "" && value == Link("mailto:" + r.email, r.email))
    || (name == "Phone:" && Present(r.phone) && value == Text(r.phone.value))
    || (name == "Location:" && Present(r.location) && value == Text(r.location.value))
    || (name == "LinkedIn:" && Present(r.linkedin) && value == Link(r.linkedin.value, "Profile"))
    || (name == "GitHub:" && Present(r.github) && value == Link(r.github.value, "Profile"))
    || (name == "Website:" && Present(r.website) && value == Link(r.website.value, WebsiteCaption(r.website.value)))
  }

  /** Each truthy contact field gives one entry with its own label, and
      there is no other entry. */
  lemma ContactEntries(r: Resume)
    ensures |ContactItems(r)| == (if r.email != "" then 1 else 0) + (if Present(r.phone) then 1 else 0)
                                 + (if Present(r.location) then 1 else 0) + (if Present(r.linkedin) then 1 else 0)
                                 + (if Present(r.github) then 1 else 0) + (if Present(r.website) then 1 else 0)
    ensures r.email != "" ==> ContactItems(r)[0] == [[Text("Email:")], [Link("mailto:" + r.email, r.email)]]
    ensures forall it :: it in ContactItems(r) ==> |it| == 2
    ensures Present(r.phone) ==> ContactEntry("Phone:", Text(r.phone.value)) in ContactItems(r)
    ensures Present(r.location) ==> ContactEntry("Location:", Text(r.location.value)) in ContactItems(r)
    ensures Present(r.linkedin) ==> ContactEntry("LinkedIn:", Link(r.linkedin.value, "Profile")) in ContactItems(r)
    ensures Present(r.github) ==> ContactEntry("GitHub:", Link(r.github.value, "Profile")) in ContactItems(r)
    ensures Present(r.website)
            ==> ContactEntry("Website:", Link(r.website.value, WebsiteCaption(r.website.value))) in ContactItems(r)
  {
    var email := if r.email != "" then [ContactEntry("Email:", Link("mailto:" + r.email, r.email))] else [];
    var phone := if Present(r.phone) then [ContactEntry("Phone:", Text(r.phone.value))] else [];
    var location := if Present(r.location) then [ContactEntry("Location:", Text(r.location.value))] else [];
    var linkedin := if Present(r.linkedin) then [ContactEntry("LinkedIn:", Link(r.linkedin.value, "Profile"))] else [];
    var github := if Present(r.github) then [ContactEntry("GitHub:", Link(r.github.value, "Profile"))] else [];
    var website := if Present(r.website)
      then [ContactEntry("Website:", Link(r.website.value, WebsiteCaption(r.website.value)))] else [];
    assert ContactItems(r) == email + phone + location + linkedin + github + website;
  }

  /** A job's company line uses `" • "` before the location. */
  lemma WorkItemText(w: WorkHistory)
    ensures |WorkItem(w)| == 4
    ensures LineText(WorkItem(w)[1]) == w.companyName + (if Present(w.location) then " • " + w.location.value else "")
  {
    LineTextAppend([Text(w.companyName)], Suffix(w.location, " • "));
  }

  /** A degree uses `" in "` before the field, `" • "` before the location and `" • GPA: "` before the GPA. */
  lemma EducationItemText(e: Education)
    ensures |EducationItem(e)| == if Present(e.description) then 4 else 3
    ensures LineText(EducationItem(e)[0]) == e.degree + (if Present(e.field) then " in " + e.field.value else "")
    ensures LineText(EducationItem(e)[1]) == e.institution + (if Present(e.location) then " • " + e.location.value else "")
    ensures LineText(EducationItem(e)[2])
         == FormatDateRange(e.startDate, e.endDate) + (if Present(e.gpa) then " • GPA: " + e.gpa.value else "")
  {
    LineTextAppend([Text(e.degree)], Suffix(e.field, " in "));
    LineTextAppend([Text(e.institution)], Suffix(e.location, " • "));
    LineTextAppend([Text(FormatDateRange(e.startDate, e.endDate))], Suffix(e.gpa, " • GPA: "));
  }

  /** A skill category shows its name, then exactly one bulleted line per skill, in order. */
  lemma SkillItemLines(s: SkillCategory)
    ensures |SkillItem(s)| == 1 + |s.items|
    ensures SkillItem(s)[0] == [Text(s.category)]
    ensures forall i :: 0 <= i < |s.items| ==> SkillItem(s)[i + 1] == [Text("• " + s.items[i])]
  {
  }

  /** A project never shows its dates; the technologies line, joined with
      `" • "`, appears exactly when the list is non-empty. */
  lemma ProjectItemLines(p: Project, start: Option<string>, end: Option<string>)
    ensures ProjectItem(p.(startDate := start, endDate := end)) == ProjectItem(p)
    ensures |ProjectItem(p)| == if HasTechnologies(p) then 3 else 2
    ensures HasTechnologies(p) ==> ProjectItem(p)[1] == [Text(Join(p.technologies.value, " • "))]
    ensures (exists n :: n in ProjectItem(p)[0] && n.Link?) <==> Present(p.projectUrl)
  {
    assert ProjectItem(p)[0] == [Text(p.projectName)] + LinkIf(p.projectUrl, "[Link]");
    if Present(p.projectUrl) {
      assert ProjectItem(p)[0][1].Link?;
    }
  }

  /** The sidebar shows a certification's name, issuer and issue date only:
      its expiry date, credential id and credential URL change nothing. */
  lemma CertificationFieldsIgnored(c: Certification, expiry: Option<string>, id: Option<string>, url: Option<string>)
    ensures CertificationItem(c.(expiryDate := expiry, credentialId := id, credentialUrl := url)) == CertificationItem(c)
    ensures |CertificationItem(c)| == if Present(c.issueDate) then 3 else 2
    ensures forall n :: InItem(n, CertificationItem(c)) ==> n.Text?
  {
  }

  /** An achievement shows no link, whatever its URL. */
  lemma AchievementUrlIgnored(a: Achievement, url: Option<string>)
    ensures AchievementItem(a.(achievementUrl := url)) == AchievementItem(a)
    ensures forall n :: InItem(n, AchievementItem(a)) ==> n.Text?
    ensures |AchievementItem(a)| == if Present(a.date) then 3 else 2
  {
  }

  // ---------------------------------------------------------------------------
  // Links
  // ---------------------------------------------------------------------------

  /** The links the template may show. */
  predicate LinkOf(r: Resume, n: Node) {
    || (r.email != "" && n == Link("mailto:" + r.email, r.email))
    || (Present(r.linkedin) && n == Link(r.linkedin.value, "Profile"))
    || (Present(r.github) && n == Link(r.github.value, "Profile"))
    || (Present(r.website) && n == Link(r.website.value, WebsiteCaption(r.website.value)))
    || (exists p :: p in r.projects && Present(p.projectUrl) && n == Link(p.projectUrl.value, "[Link]"))
  }

  /** A link among the contact entries is one of the contact links. */
  lemma ContactLinks(r: Resume, n: Node)
    requires InBlock(n, ContactSection(r)) && n.Link?
    ensures LinkOf(r, n)
  {
    var it :| it in ContactItems(r) && InItem(n, it);
    var name, value := ContactEntryOf(r, it);
    assert it == [[Text(name)], [value]];
    var l :| l in it && n in l;
    assert l == [Text(name)] || l == [value];
  }

  /** Every contact entry is a name followed by one of the contact values,
      and a link among them is one of the contact links. */
  lemma ContactEntryOf(r: Resume, it: Item) returns (name: string, value: Node)
    requires it in ContactItems(r)
    ensures it == ContactEntry(name, value)
    ensures ContactOf(r, name, value)
    ensures value.Link? ==> LinkOf(r, value)
  {
    var email := if r.email != "" then [ContactEntry("Email:", Link("mailto:" + r.email, r.email))] else [];
    var phone := if Present(r.phone) then [ContactEntry("Phone:", Text(r.phone.value))] else [];
    var location := if Present(r.location) then [ContactEntry("Location:", Text(r.location.value))] else [];
    var linkedin := if Present(r.linkedin) then [ContactEntry("LinkedIn:", Link(r.linkedin.value, "Profile"))] else [];
    var github := if Present(r.github) then [ContactEntry("GitHub:", Link(r.github.value, "Profile"))] else [];
    var website := if Present(r.website)
      then [ContactEntry("Website:", Link(r.website.value, WebsiteCaption(r.website.value)))] else [];
    assert ContactItems(r) == email + phone + location + linkedin + github + website;
    if it in email {
      name, value := "Email:", Link("mailto:" + r.email, r.email);
    } else if it in phone {
      name, value := "Phone:", Text(r.phone.value);
    } else if it in location {
      name, value := "Location:", Text(r.location.value);
    } else if it in linkedin {
      name, value := "LinkedIn:", Link(r.linkedin.value, "Profile");
    } else if it in github {
      name, value := "GitHub:", Link(r.github.value, "Profile");
    } else {
      assert it in website;
      name, value := "Website:", Link(r.website.value, WebsiteCaption(r.website.value));
    }
  }

  /** Skill categories and certifications show no link. */
  lemma PlainSidebarSections(r: Resume, n: Node)
    requires n.Link?
    ensures !InBlock(n, SkillsSection(r)) && !InBlock(n, CertificationsSection(r))
  {
    PlainSidebarItems(n);
    assert !InBlock(n, SkillsSection(r)) by {
      if InBlock(n, SkillsSection(r)) {
        NodeOfMappedItem(n, SkillItem, r.skills, SkillsSection(r));
        assert false;
      }
    }
    assert !InBlock(n, CertificationsSection(r)) by {
      if InBlock(n, CertificationsSection(r)) {
        NodeOfMappedItem(n, CertificationItem, r.certifications, CertificationsSection(r));
        assert false;
      }
    }
  }

  /** Skill categories and certifications hold text only. */
  lemma PlainSidebarItems(n: Node)
    requires n.Link?
    ensures forall s :: !InItem(n, SkillItem(s))
    ensures forall c :: !InItem(n, CertificationItem(c))
  {
  }

  /** The sidebar's only links are the contact entries' links. */
  lemma SidebarLinks(r: Resume, n: Node, b: Block)
    requires b in Sidebar(r) && InBlock(n, b) && n.Link?
    ensures LinkOf(r, n)
  {
    if b == HeaderBlock(r) {
      assert false;
    } else {
      assert b in Keep(SidebarCandidates(r));
      var cs := SidebarCandidates(r);
      var k :| 0 <= k < |cs| && cs[k].0 && cs[k].1 == b;
      PlainSidebarSections(r, n);
      if k == 0 {
        ContactLinks(r, n);
      } else {
        assert false;
      }
    }
  }

  /** Jobs, degrees and achievements show no link. */
  lemma PlainItems(n: Node)
    requires n.Link?
    ensures forall w :: !InItem(n, WorkItem(w))
    ensures forall e :: !InItem(n, EducationItem(e))
    ensures forall a :: !InItem(n, AchievementItem(a))
  {
    forall w ensures !InItem(n, WorkItem(w)) {
      PlainWorkItem(n, w);
    }
    forall e ensures !InItem(n, EducationItem(e)) {
      PlainEducationItem(n, e);
    }
    forall a ensures !InItem(n, AchievementItem(a)) {
      PlainAchievementItem(n, a);
    }
  }

  lemma PlainWorkItem(n: Node, w: WorkHistory)
    requires n.Link?
    ensures !InItem(n, WorkItem(w))
  {
  }

  lemma PlainEducationItem(n: Node, e: Education)
    requires n.Link?
    ensures !InItem(n, EducationItem(e))
  {
  }

  lemma PlainAchievementItem(n: Node, a: Achievement)
    requires n.Link?
    ensures !InItem(n, AchievementItem(a))
  {
  }

  /** The summary, experience, education and achievements show no link. */
  lemma PlainMainSections(r: Resume, n: Node)
    requires n.Link?
    ensures !InBlock(n, SummarySection(r)) && !InBlock(n, ExperienceSection(r))
    ensures !InBlock(n, EducationSection(r)) && !InBlock(n, AchievementsSection(r))
  {
    PlainItems(n);
    if InBlock(n, ExperienceSection(r)) {
      NodeOfMappedItem(n, WorkItem, r.workHistory, ExperienceSection(r));
      assert false;
    }
    if InBlock(n, EducationSection(r)) {
      NodeOfMappedItem(n, EducationItem, r.education, EducationSection(r));
      assert false;
    }
    if InBlock(n, AchievementsSection(r)) {
      NodeOfMappedItem(n, AchievementItem, r.achievements, AchievementsSection(r));
      assert false;
    }
  }

  /** A link of the projects section is one project's own URL. */
  lemma ProjectsLinks(r: Resume, n: Node)
    requires InBlock(n, ProjectsSection(r)) && n.Link?
    ensures LinkOf(r, n)
  {
    NodeOfMappedItem(n, ProjectItem, r.projects, ProjectsSection(r));
    var i :| 0 <= i < |r.projects| && InItem(n, ProjectItem(r.projects[i]));
    ProjectLink(n, r.projects[i]);
    assert r.projects[i] in r.projects;
  }

  /** The only link of a project is its own URL, captioned `[Link]`. */
  lemma ProjectLink(n: Node, p: Project)
    requires n.Link? && InItem(n, ProjectItem(p))
    ensures Present(p.projectUrl) && n == Link(p.projectUrl.value, "[Link]")
  {
  }

  /** The main column's only links are the projects' `[Link]`s. */
  lemma MainLinks(r: Resume, n: Node, b: Block)
    requires b in MainColumn(r) && InBlock(n, b) && n.Link?
    ensures LinkOf(r, n)
  {
    var cs := MainCandidates(r);
    var k :| 0 <= k < |cs| && cs[k].0 && cs[k].1 == b;
    PlainMainSections(r, n);
    if k == 3 {
      assert b == ProjectsSection(r);
      ProjectsLinks(r, n);
    } else {
      assert false;
    }
  }

  /** Every link comes from a truthy contact or project URL field: the email
      as a `mailto:` link captioned with the address, LinkedIn and GitHub as
      `Profile`, the website captioned with its own URL less the protocol. */
  lemma LinksComeFromUrlFields(r: Resume, config: Option<TemplateConfig>, isPrint: bool, n: Node)
    requires InDoc(n, Professional2Template(r, config, isPrint)) && n.Link?
    ensures LinkOf(r, n)
  {
    var col :| col in [Sidebar(r), MainColumn(r)] && InColumn(n, col);
    var b :| b in col && InBlock(n, b);
    if col == Sidebar(r) {
      SidebarLinks(r, n, b);
    } else {
      MainLinks(r, n, b);
    }
  }

  /** For a resume the schema accepts, every link points at a valid URL or is
      the `mailto:` link of a valid email address. */
  lemma ValidResumeLinks(r: Resume, isUrl: string -> bool, isEmail: string -> bool,
                         config: Option<TemplateConfig>, isPrint: bool, n: Node)
    requires ResumeValid(r, isUrl, isEmail)
    requires InDoc(n, Professional2Template(r, config, isPrint)) && n.Link?
    ensures isUrl(n.href) || (n.href == "mailto:" + n.caption && isEmail(n.caption))
  {
    LinksComeFromUrlFields(r, config, isPrint, n);
  }

  /** The website caption drops a leading `https://` or `http://`, and leaves
      a URL with neither anywhere unchanged. */
  lemma WebsiteCaptionStrips(website: string)
    ensures StartsWith(website, "https://") ==> WebsiteCaption(website) == website[8..]
    ensures StartsWith(website, "http://") && !StartsWith(website, "https://") ==> WebsiteCaption(website) == website[7..]
    ensures (forall j :: 0 <= j <= |website| ==> ProtocolAt(website, j) == 0) ==> WebsiteCaption(website) == website
  {
    if forall j :: 0 <= j <= |website| ==> ProtocolAt(website, j) == 0 {
      StripProtocolNone(website);
    }
  }

  // ---------------------------------------------------------------------------
  // Style
  // ---------------------------------------------------------------------------

  /** Without a config (or with one whose fields are all falsy) the template
      uses `#0ea5e9` and `#475569`, the `Inter` stack, `medium` sizes and
      `normal` spacing; `accentStyle` changes nothing. */
  lemma StyleDefaults(r: Resume, c: TemplateConfig, accent: Option<string>, isPrint: bool)
    ensures Professional2Template(r, None, isPrint).style
         == Style("Inter, sans-serif", FontSize("1rem", "1.5rem", "1.125rem"), Spacing("1.5rem", "0.75rem"),
                  "#0ea5e9", "#475569", PageFor(isPrint))
    ensures (forall key: ConfigKey :: !Present(Get(Some(c), key)))
         ==> Professional2Template(r, Some(c), isPrint) == Professional2Template(r, None, isPrint)
    ensures Professional2Template(r, Some(c.(accentStyle := accent)), isPrint)
         == Professional2Template(r, Some(c), isPrint)
  {
    ConfiguredStyleFields(None, DefaultPrimaryColor, DefaultSecondaryColor, PageFor(isPrint));
    ConfiguredStyleIgnores(c, accent, DefaultPrimaryColor, DefaultSecondaryColor, PageFor(isPrint));
  }

  /** `isPrint` changes the page geometry and nothing else. */
  lemma PrintOnlyChangesPage(r: Resume, config: Option<TemplateConfig>)
    ensures var screen := Professional2Template(r, config, false);
      var printed := Professional2Template(r, config, true);
      && screen.columns == printed.columns
      && screen.style.(page := printed.style.page) == printed.style
      && printed.style.page == FullHeight("100%", "11in")
      && screen.style.page == FullHeight("850px", "auto")
  {
  }
}
