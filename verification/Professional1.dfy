/** `Professional1Template` (Classic Professional): one column, a centred
    header with the contact details, then the sections stacked in a fixed order. */
module Professional1 {
  import opened Wrappers
  import opened Strings
  import opened BaseTemplate
  import opened ResumeTypes
  import opened Document
  import opened Sequences

  const DefaultPrimaryColor := "#1e40af"
  const DefaultSecondaryColor := "#64748b"

  const SummaryTitle := "Professional Summary"
  const ExperienceTitle := "Professional Experience"
  const EducationTitle := "Education"
  const SkillsTitle := "Skills"
  const ProjectsTitle := "Projects"
  const CertificationsTitle := "Certifications"
  const AchievementsTitle := "Achievements & Awards"

  /** The section headings in the order the template writes them. */
  const SectionTitles: seq<string> :=
    [SummaryTitle, ExperienceTitle, EducationTitle, SkillsTitle, ProjectsTitle, CertificationsTitle, AchievementsTitle]

  // ---------------------------------------------------------------------------
  // Style
  // ---------------------------------------------------------------------------

  /** Container width and padding: full width with `0.5in` padding for print,
      `850px` wide with `2rem` padding on screen. */
  function PageFor(isPrint: bool): Page {
    if isPrint then Padded("100%", "0.5in") else Padded("850px", "2rem")
  }

  /** The template's style: its own colour defaults and page geometry. */
  function StyleOf(config: Option<TemplateConfig>, isPrint: bool): Style {
    ConfiguredStyle(config, DefaultPrimaryColor, DefaultSecondaryColor, PageFor(isPrint))
  }

  // ---------------------------------------------------------------------------
  // Header
  // ---------------------------------------------------------------------------

  /** The optional contact entries that follow the email, in order: phone,
      location, then the LinkedIn, GitHub and Website links. */
  function ContactFields(r: Resume): (fields: seq<Node>)
    ensures Present(r.linkedin) <==> exists n :: n in fields && n.Link? && n.caption == "LinkedIn"
    ensures Present(r.github) <==> exists n :: n in fields && n.Link? && n.caption == "GitHub"
    ensures Present(r.website) <==> exists n :: n in fields && n.Link? && n.caption == "Website"
    ensures forall n :: n in fields && n.Text? ==>
              (Present(r.phone) && n.s == r.phone.value) || (Present(r.location) && n.s == r.location.value)
    ensures Present(r.phone) ==> Text(r.phone.value) in fields
    ensures Present(r.location) ==> Text(r.location.value) in fields
  {
    ContactTexts(r) + ContactLinks(r)
  }

  /** The phone and the location, each when truthy. */
  function ContactTexts(r: Resume): (texts: seq<Node>)
    ensures forall n :: n in texts ==>
              && n.Text?
              && ((Present(r.phone) && n.s == r.phone.value) || (Present(r.location) && n.s == r.location.value))
    ensures Present(r.phone) ==> Text(r.phone.value) in texts
    ensures Present(r.location) ==> Text(r.location.value) in texts
  {
    (if Present(r.phone) then [Text(r.phone.value)] else [])
    + (if Present(r.location) then [Text(r.location.value)] else [])
  }

  /** The LinkedIn, GitHub and website links, each when truthy. */
  function ContactLinks(r: Resume): (links: seq<Node>)
    ensures forall n :: n in links ==> n.Link? && LinkOf(r, n)
    ensures Present(r.linkedin) <==> exists n :: n in links && n.caption == "LinkedIn"
    ensures Present(r.github) <==> exists n :: n in links && n.caption == "GitHub"
    ensures Present(r.website) <==> exists n :: n in links && n.caption == "Website"
  {
    LinkIf(r.linkedin, "LinkedIn") + LinkIf(r.github, "GitHub") + LinkIf(r.website, "Website")
  }

  /** Each entry preceded by its own `•` separator. */
  function Bulleted(fields: seq<Node>): (line: Line)
    ensures |line| == 2 * |fields|
    ensures forall k :: 0 <= k < |fields| ==> line[2 * k] == Text("•") && line[2 * k + 1] == fields[k]
    ensures forall n :: n in line ==> n == Text("•") || n in fields
  {
    seq(2 * |fields|, i requires 0 <= i < 2 * |fields| => if i % 2 == 0 then Text("•") else fields[i / 2])
  }

  /** The contact line: the email as plain text, then a `•` before each
      present optional entry. */
  function ContactLine(r: Resume): Line {
    (if r.email != "" then [Text(r.email)] else []) + Bulleted(ContactFields(r))
  }

  function HeaderBlock(r: Resume): Block {
    Header(r.name, [[ContactLine(r)]])
  }

  /** The header: the name, then the email as plain text, then a separator
      before every present entry and only before a present entry, so the
      separators never stand side by side or at the end. */
  lemma HeaderLayout(r: Resume)
    ensures var e := if r.email != "" then 1 else 0;
      var line := ContactLine(r);
      && HeaderBlock(r).name == r.name
      && (r.email != "" ==> line[0] == Text(r.email))
      && |line| == e + 2 * |ContactFields(r)|
      && (forall k :: 0 <= k < |ContactFields(r)| ==>
            line[e + 2 * k] == Text("•") && line[e + 2 * k + 1] == ContactFields(r)[k])
  {
    var head: Line := if r.email != "" then [Text(r.email)] else [];
    assert ContactLine(r) == head + Bulleted(ContactFields(r));
    BulletedAfter(head, ContactFields(r));
  }

  /** After any prefix, the bulleted entries keep their positions. */
  lemma BulletedAfter(head: Line, fields: seq<Node>)
    ensures |head + Bulleted(fields)| == |head| + 2 * |fields|
    ensures forall k :: 0 <= k < |fields| ==>
      (head + Bulleted(fields))[|head| + 2 * k] == Text("•") && (head + Bulleted(fields))[|head| + 2 * k + 1] == fields[k]
  {
  }

  // ---------------------------------------------------------------------------
  // Entries
  // ---------------------------------------------------------------------------

  /** A job: role, company (with `" - "` and the location when present), date, description. */
  function WorkItem(w: WorkHistory): Item {
    [[Text(w.role)],
     [Text(w.companyName)] + Suffix(w.location, " - "),
     [Text(w.dateOfWork)],
     [Text(w.description)]]
  }

  /** A degree: degree (and field), institution (and location), date range
      (and GPA), then the description when present. */
  function EducationItem(e: Education): Item {
    [[Text(e.degree)] + Suffix(e.field, " in "),
     [Text(e.institution)] + Suffix(e.location, " - "),
     [Text(FormatDateRange(e.startDate, e.endDate))] + Suffix(e.gpa, " | GPA: ")]
    + LineIf(e.description)
  }

  /** A skill category on one line: `<category>: <item>, <item>, ...`. */
  function SkillItem(s: SkillCategory): Item {
    [[Text(s.category), Text(": "), Text(Join(s.items, ", "))]]
  }

  /** A project: name with a `[Link]`, technologies, date range, description. */
  function ProjectItem(p: Project): Item {
    [[Text(p.projectName)] + LinkIf(p.projectUrl, "[Link]")]
    + (if HasTechnologies(p) then [[Text("Technologies: "), Text(Join(p.technologies.value, ", "))]] else [])
    + (if Present(p.startDate) || Present(p.endDate) then [[Text(FormatDateRange(p.startDate, p.endDate))]] else [])
    + [[Text(p.projectDescription)]]
  }

  /** The date line of a certification that has an issue date. */
  function DateLine(c: Certification): Line
    requires Present(c.issueDate)
  {
    [Text("Issued: "), Text(c.issueDate.value)] + Suffix(c.expiryDate, " | Expires: ") + Suffix(c.credentialId, " | ID: ")
  }

  /** A certification: name with a `[Verify]` link, issuer, and, only when
      there is an issue date, the line with the dates and the credential id. */
  function CertificationItem(c: Certification): Item {
    [[Text(c.name)] + LinkIf(c.credentialUrl, "[Verify]"),
     [Text(c.issuer)]]
    + (if Present(c.issueDate)
       then [DateLine(c)]
       else [])
  }

  /** An achievement: name with a `[Link]`, the date when present, description. */
  function AchievementItem(a: Achievement): Item {
    [[Text(a.achievementName)] + LinkIf(a.achievementUrl, "[Link]")]
    + LineIf(a.date)
    + [[Text(a.achievementDescription)]]
  }

  // ---------------------------------------------------------------------------
  // The document
  // ---------------------------------------------------------------------------

  function SummarySection(r: Resume): Block {
    Section(SummaryTitle, [[[Text(Or(r.description, ""))]]])
  }

  function ExperienceSection(r: Resume): Block {
    Section(ExperienceTitle, MapItems(WorkItem, r.workHistory))
  }

  function EducationSection(r: Resume): Block {
    Section(EducationTitle, MapItems(EducationItem, r.education))
  }

  function SkillsSection(r: Resume): Block {
    Section(SkillsTitle, MapItems(SkillItem, r.skills))
  }

  function ProjectsSection(r: Resume): Block {
    Section(ProjectsTitle, MapItems(ProjectItem, r.projects))
  }

  function CertificationsSection(r: Resume): Block {
    Section(CertificationsTitle, MapItems(CertificationItem, r.certifications))
  }

  function AchievementsSection(r: Resume): Block {
    Section(AchievementsTitle, MapItems(AchievementItem, r.achievements))
  }

  /** The seven sections in the template's order, each with the condition under which it is shown. */
  function SectionCandidates(r: Resume): seq<(bool, Block)> {
    [(Present(r.description), SummarySection(r)),
     (|r.workHistory| > 0, ExperienceSection(r)),
     (|r.education| > 0, EducationSection(r)),
     (|r.skills| > 0, SkillsSection(r)),
     (|r.projects| > 0, ProjectsSection(r)),
     (|r.certifications| > 0, CertificationsSection(r)),
     (|r.achievements| > 0, AchievementsSection(r))]
  }

  /** The sections shown below the header. */
  function Body(r: Resume): seq<Block> {
    Keep(SectionCandidates(r))
  }

  /** `Professional1Template({resume, config, isPrint})`; `isPreview` is never read. */
  function Professional1Template(r: Resume, config: Option<TemplateConfig>, isPrint: bool): (d: Doc)
    ensures |d.columns| == 1 && 1 <= |d.columns[0]| <= 1 + |SectionTitles|
    ensures d.columns[0][0].Header? && d.columns[0][0].name == r.name
    ensures d.style.primaryColor == Or(Get(config, PrimaryColorKey), DefaultPrimaryColor)
    ensures d.style.secondaryColor == Or(Get(config, SecondaryColorKey), DefaultSecondaryColor)
    ensures d.style.page == PageFor(isPrint)
    ensures ResolvedStyle(d.style, config, DefaultPrimaryColor, DefaultSecondaryColor, PageFor(isPrint))
  {
    ConfiguredStyleFields(config, DefaultPrimaryColor, DefaultSecondaryColor, PageFor(isPrint));
    Doc(StyleOf(config, isPrint), [[HeaderBlock(r)] + Body(r)])
  }

  /** The single column of the document. */
  function Column(r: Resume, config: Option<TemplateConfig>, isPrint: bool): seq<Block>
  {
    Professional1Template(r, config, isPrint).columns[0]
  }

  // ---------------------------------------------------------------------------
  // Sections: which appear, in which order, with what
  // ---------------------------------------------------------------------------

  /** No two sections share a heading. */
  lemma TitlesDistinct()
    ensures Distinct(SectionTitles)
  {
    assert |SummaryTitle| == 20 && |ExperienceTitle| == 23 && |EducationTitle| == 9 && |SkillsTitle| == 6;
    assert |ProjectsTitle| == 8 && |CertificationsTitle| == 14 && |AchievementsTitle| == 21;
  }

  /** Candidate `k` is the section titled `SectionTitles[k]`, and it has an
      item whenever it is shown. */
  lemma CandidatesTitled(r: Resume)
    ensures Titled(SectionCandidates(r), SectionTitles)
    ensures forall k :: 0 <= k < |SectionCandidates(r)| && SectionCandidates(r)[k].0 ==> |SectionCandidates(r)[k].1.items| > 0
  {
  }

  /** One column; the header first, then sections whose headings follow the
      template's fixed order with the absent ones left out. */
  lemma SectionOrder(r: Resume, config: Option<TemplateConfig>, isPrint: bool)
    ensures |Professional1Template(r, config, isPrint).columns| == 1
    ensures Column(r, config, isPrint)[0] == HeaderBlock(r)
    ensures forall b :: b in Column(r, config, isPrint)[1..] ==> b.Section?
    ensures IsSubsequence(Headings(Column(r, config, isPrint)[1..]), SectionTitles)
  {
    assert Column(r, config, isPrint)[1..] == Body(r);
    CandidatesTitled(r);
    KeepTitled(SectionCandidates(r), SectionTitles);
  }

  /** The section titled `SectionTitles[k]` is in the column exactly when
      candidate `k`'s condition holds, and then it is that candidate's section. */
  lemma SectionShown(r: Resume, config: Option<TemplateConfig>, isPrint: bool, k: nat)
    requires k < |SectionTitles|
    ensures FindSection(Column(r, config, isPrint), SectionTitles[k])
         == if SectionCandidates(r)[k].0 then Some(SectionCandidates(r)[k].1) else None
  {
    FindAfterHeader(HeaderBlock(r), Body(r), SectionTitles[k]);
    CandidatesTitled(r);
    TitlesDistinct();
    FindTitled(SectionCandidates(r), SectionTitles, k);
  }

  /** Each section is present exactly when its collection is non-empty (the
      summary: when the description is truthy), and lists one item per entry,
      in the collection's order. */
  lemma SectionsPresent(r: Resume, config: Option<TemplateConfig>, isPrint: bool)
    ensures var col := Column(r, config, isPrint);
      && FindSection(col, SummaryTitle)
         == (if Present(r.description) then Some(Section(SummaryTitle, [[[Text(r.description.value)]]])) else None)
      && FindSection(col, ExperienceTitle)
         == (if |r.workHistory| > 0 then Some(Section(ExperienceTitle, MapItems(WorkItem, r.workHistory))) else None)
      && FindSection(col, EducationTitle)
         == (if |r.education| > 0 then Some(Section(EducationTitle, MapItems(EducationItem, r.education))) else None)
      && FindSection(col, SkillsTitle)
         == (if |r.skills| > 0 then Some(Section(SkillsTitle, MapItems(SkillItem, r.skills))) else None)
      && FindSection(col, ProjectsTitle)
         == (if |r.projects| > 0 then Some(Section(ProjectsTitle, MapItems(ProjectItem, r.projects))) else None)
      && FindSection(col, CertificationsTitle)
         == (if |r.certifications| > 0
             then Some(Section(CertificationsTitle, MapItems(CertificationItem, r.certifications))) else None)
      && FindSection(col, AchievementsTitle)
         == (if |r.achievements| > 0
             then Some(Section(AchievementsTitle, MapItems(AchievementItem, r.achievements))) else None)
  {
    SectionShown(r, config, isPrint, 0);
    SectionShown(r, config, isPrint, 1);
    SectionShown(r, config, isPrint, 2);
    SectionShown(r, config, isPrint, 3);
    SectionShown(r, config, isPrint, 4);
    SectionShown(r, config, isPrint, 5);
    SectionShown(r, config, isPrint, 6);
  }

  /** The document has one column, and it shows a Skills section exactly
      when the resume has skill categories. */
  lemma SkillsPlacement(r: Resume, config: Option<TemplateConfig>, isPrint: bool)
    ensures var d := Professional1Template(r, config, isPrint);
      && |d.columns| == 1
      && (FindSection(d.columns[0], SkillsTitle).Some? <==> |r.skills| > 0)
  {
    var shown := SectionCandidates(r)[3].0;
    assert shown == (|r.skills| > 0);
    assert FindSection(Column(r, config, isPrint), SkillsTitle).Some? <==> shown by {
      SectionShown(r, config, isPrint, 3);
      assert SectionTitles[3] == SkillsTitle;
    }
  }

  /** No section is ever shown without content. */
  lemma NoEmptySection(r: Resume, config: Option<TemplateConfig>, isPrint: bool)
    ensures forall b :: b in Column(r, config, isPrint) && b.Section? ==> |b.items| > 0
  {
    var cs := SectionCandidates(r);
    assert Column(r, config, isPrint) == [HeaderBlock(r)] + Body(r);
    CandidatesTitled(r);
    forall b | b in Column(r, config, isPrint) && b.Section? ensures |b.items| > 0 {
      assert b in Keep(cs);
      var k :| 0 <= k < |cs| && cs[k].0 && cs[k].1 == b;
    }
  }

  // ---------------------------------------------------------------------------
  // Entries: separators, labels and omitted fields
  // ---------------------------------------------------------------------------

  /** A job shows four lines; the company line gains `" - <location>"` only
      when the location is present. */
  lemma WorkItemText(w: WorkHistory)
    ensures |WorkItem(w)| == 4
    ensures LineText(WorkItem(w)[0]) == w.role
    ensures LineText(WorkItem(w)[1]) == w.companyName + (if Present(w.location) then " - " + w.location.value else "")
    ensures LineText(WorkItem(w)[2]) == w.dateOfWork
    ensures LineText(WorkItem(w)[3]) == w.description
  {
    LineTextAppend([Text(w.companyName)], Suffix(w.location, " - "));
  }

  /** A degree line reads `<degree>[ in <field>]`, then `<institution>[ - <location>]`,
      then the date range with `" | GPA: <gpa>"` when there is a GPA; a fourth
      line holds the description exactly when it is present. */
  lemma EducationItemText(e: Education)
    ensures |EducationItem(e)| == if Present(e.description) then 4 else 3
    ensures LineText(EducationItem(e)[0]) == e.degree + (if Present(e.field) then " in " + e.field.value else "")
    ensures LineText(EducationItem(e)[1]) == e.institution + (if Present(e.location) then " - " + e.location.value else "")
    ensures LineText(EducationItem(e)[2])
         == FormatDateRange(e.startDate, e.endDate) + (if Present(e.gpa) then " | GPA: " + e.gpa.value else "")
    ensures Present(e.description) ==> EducationItem(e)[3] == [Text(e.description.value)]
  {
    LineTextAppend([Text(e.degree)], Suffix(e.field, " in "));
    LineTextAppend([Text(e.institution)], Suffix(e.location, " - "));
    LineTextAppend([Text(FormatDateRange(e.startDate, e.endDate))], Suffix(e.gpa, " | GPA: "));
  }

  /** A skill category reads `<category>: ` followed by its items joined with `", "`. */
  lemma SkillItemText(s: SkillCategory)
    ensures |SkillItem(s)| == 1
    ensures LineText(SkillItem(s)[0]) == s.category + ": " + Join(s.items, ", ")
  {
    LineTextPair(Text(": "), Text(Join(s.items, ", ")));
    LineTextAppend([Text(s.category)], [Text(": "), Text(Join(s.items, ", "))]);
    assert [Text(s.category)][1..] == [];
  }

  /** A project shows `[Link]` exactly when it has a URL, the technologies line
      exactly when the list is non-empty, and the date line exactly when either
      date is present; the description is always last. */
  lemma ProjectItemLines(p: Project)
    ensures (exists n :: n in ProjectItem(p)[0] && n.Link?) <==> Present(p.projectUrl)
    ensures Present(p.projectUrl) ==> ProjectItem(p)[0] == [Text(p.projectName), Link(p.projectUrl.value, "[Link]")]
    ensures |ProjectItem(p)| == 2 + (if HasTechnologies(p) then 1 else 0)
                                  + (if Present(p.startDate) || Present(p.endDate) then 1 else 0)
    ensures HasTechnologies(p) ==> LineText(ProjectItem(p)[1]) == "Technologies: " + Join(p.technologies.value, ", ")
    ensures !HasTechnologies(p) ==>
      ProjectItem(p)[1] == (if Present(p.startDate) || Present(p.endDate)
                            then [Text(FormatDateRange(p.startDate, p.endDate))] else [Text(p.projectDescription)])
    ensures Present(p.startDate) || Present(p.endDate) ==>
      ProjectItem(p)[|ProjectItem(p)| - 2] == [Text(FormatDateRange(p.startDate, p.endDate))]
    ensures ProjectItem(p)[|ProjectItem(p)| - 1] == [Text(p.projectDescription)]
  {
    assert ProjectItem(p)[0] == [Text(p.projectName)] + LinkIf(p.projectUrl, "[Link]");
    if Present(p.projectUrl) {
      assert ProjectItem(p)[0][1].Link?;
    }
    if HasTechnologies(p) {
      assert ProjectItem(p)[1] == [Text("Technologies: "), Text(Join(p.technologies.value, ", "))];
      LineTextPair(Text("Technologies: "), Text(Join(p.technologies.value, ", ")));
    }
  }

  /** A certification shows `[Verify]` exactly when it has a credential URL; its
      date line exists only with an issue date, so the expiry date and the
      credential id never show without one. */
  lemma CertificationItemLines(c: Certification)
    ensures (exists n :: n in CertificationItem(c)[0] && n.Link?) <==> Present(c.credentialUrl)
    ensures |CertificationItem(c)| == if Present(c.issueDate) then 3 else 2
    ensures CertificationItem(c)[1] == [Text(c.issuer)]
    ensures Present(c.issueDate) ==>
      LineText(CertificationItem(c)[2])
        == "Issued: " + c.issueDate.value
           + (if Present(c.expiryDate) then " | Expires: " + c.expiryDate.value else "")
           + (if Present(c.credentialId) then " | ID: " + c.credentialId.value else "")
  {
    assert CertificationItem(c)[0] == [Text(c.name)] + LinkIf(c.credentialUrl, "[Verify]");
    if Present(c.credentialUrl) {
      assert CertificationItem(c)[0][1].Link?;
    }
    if Present(c.issueDate) {
      assert CertificationItem(c)[2] == DateLine(c);
      DateLineText(c);
    }
  }

  /** The date line reads `Issued: `, then the expiry and the id when present. */
  lemma DateLineText(c: Certification)
    requires Present(c.issueDate)
    ensures LineText(DateLine(c))
         == "Issued: " + c.issueDate.value
            + (if Present(c.expiryDate) then " | Expires: " + c.expiryDate.value else "")
            + (if Present(c.credentialId) then " | ID: " + c.credentialId.value else "")
  {
    var head: Line := [Text("Issued: "), Text(c.issueDate.value)];
    LineTextPair(Text("Issued: "), Text(c.issueDate.value));
    LineTextAppend(head, Suffix(c.expiryDate, " | Expires: "));
    LineTextAppend(head + Suffix(c.expiryDate, " | Expires: "), Suffix(c.credentialId, " | ID: "));
  }

  /** An achievement shows `[Link]` exactly when it has a URL and a date line
      exactly when it has a date. */
  lemma AchievementItemLines(a: Achievement)
    ensures (exists n :: n in AchievementItem(a)[0] && n.Link?) <==> Present(a.achievementUrl)
    ensures |AchievementItem(a)| == if Present(a.date) then 3 else 2
    ensures Present(a.date) ==> AchievementItem(a)[1] == [Text(a.date.value)]
  {
    assert AchievementItem(a)[0] == [Text(a.achievementName)] + LinkIf(a.achievementUrl, "[Link]");
    if Present(a.achievementUrl) {
      assert AchievementItem(a)[0][1].Link?;
    }
  }

  /** A resume whose one job has only the required fields shows role, company,
      date and description, with no location separator. */
  lemma RequiredOnlyJob(r: Resume, w: WorkHistory, config: Option<TemplateConfig>, isPrint: bool)
    requires r.workHistory == [w] && w.location.None?
    ensures FindSection(Column(r, config, isPrint), ExperienceTitle)
         == Some(Section(ExperienceTitle, [[[Text(w.role)], [Text(w.companyName)], [Text(w.dateOfWork)], [Text(w.description)]]]))
  {
    SectionShown(r, config, isPrint, 1);
    OneJobSection(r, w);
  }

  /** The experience section of a resume with one location-less job. */
  lemma OneJobSection(r: Resume, w: WorkHistory)
    requires r.workHistory == [w] && w.location.None?
    ensures SectionCandidates(r)[1]
         == (true, Section(ExperienceTitle, [[[Text(w.role)], [Text(w.companyName)], [Text(w.dateOfWork)], [Text(w.description)]]]))
  {
    assert MapItems(WorkItem, r.workHistory) == [WorkItem(w)];
    assert [Text(w.companyName)] + Suffix(w.location, " - ") == [Text(w.companyName)];
  }

  /** A valid job never renders an empty line. */
  lemma ValidJobHasNoBlankLine(w: WorkHistory)
    requires WorkHistoryValid(w)
    ensures forall k :: 0 <= k < |WorkItem(w)| ==> LineText(WorkItem(w)[k]) != ""
  {
    WorkItemText(w);
  }

  // ---------------------------------------------------------------------------
  // Links
  // ---------------------------------------------------------------------------

  /** The links the template may show: each comes from a truthy URL field and
      carries that field's fixed caption. */
  predicate LinkOf(r: Resume, n: Node) {
    || (Present(r.linkedin) && n == Link(r.linkedin.value, "LinkedIn"))
    || (Present(r.github) && n == Link(r.github.value, "GitHub"))
    || (Present(r.website) && n == Link(r.website.value, "Website"))
    || (exists p :: p in r.projects && Present(p.projectUrl) && n == Link(p.projectUrl.value, "[Link]"))
    || (exists c :: c in r.certifications && Present(c.credentialUrl) && n == Link(c.credentialUrl.value, "[Verify]"))
    || (exists a :: a in r.achievements && Present(a.achievementUrl) && n == Link(a.achievementUrl.value, "[Link]"))
  }

  /** Jobs, degrees and skill categories show no link. */
  lemma PlainItems(n: Node)
    requires n.Link?
    ensures forall w :: !InItem(n, WorkItem(w))
    ensures forall e :: !InItem(n, EducationItem(e))
    ensures forall s :: !InItem(n, SkillItem(s))
  {
  }

  /** The experience, education and skills sections show no link. */
  lemma PlainSections(r: Resume, n: Node)
    requires n.Link?
    ensures !InBlock(n, ExperienceSection(r)) && !InBlock(n, EducationSection(r)) && !InBlock(n, SkillsSection(r))
  {
    PlainItems(n);
    if InBlock(n, ExperienceSection(r)) {
      NodeOfMappedItem(n, WorkItem, r.workHistory, ExperienceSection(r));
    }
    if InBlock(n, EducationSection(r)) {
      NodeOfMappedItem(n, EducationItem, r.education, EducationSection(r));
    }
    if InBlock(n, SkillsSection(r)) {
      NodeOfMappedItem(n, SkillItem, r.skills, SkillsSection(r));
    }
  }

  /** The only link of a project is its own URL, captioned `[Link]`. */
  lemma ProjectLink(n: Node, p: Project)
    requires n.Link? && InItem(n, ProjectItem(p))
    ensures Present(p.projectUrl) && n == Link(p.projectUrl.value, "[Link]")
  {
  }

  /** The only link of a certification is its credential URL, captioned `[Verify]`. */
  lemma CertificationLink(n: Node, c: Certification)
    requires n.Link? && InItem(n, CertificationItem(c))
    ensures Present(c.credentialUrl) && n == Link(c.credentialUrl.value, "[Verify]")
  {
  }

  /** The only link of an achievement is its own URL, captioned `[Link]`. */
  lemma AchievementLink(n: Node, a: Achievement)
    requires n.Link? && InItem(n, AchievementItem(a))
    ensures Present(a.achievementUrl) && n == Link(a.achievementUrl.value, "[Link]")
  {
  }

  /** A link below the header comes from a project, certification or achievement URL. */
  lemma BodyLinks(r: Resume, n: Node, b: Block)
    requires b in Body(r) && InBlock(n, b) && n.Link?
    ensures LinkOf(r, n)
  {
    var cs := SectionCandidates(r);
    var k :| 0 <= k < |cs| && cs[k].0 && cs[k].1 == b;
    if k == 0 {
      assert false;
    } else if k == 1 || k == 2 || k == 3 {
      assert b == ExperienceSection(r) || b == EducationSection(r) || b == SkillsSection(r);
      PlainSections(r, n);
      assert false;
    } else if k == 4 {
      assert b == ProjectsSection(r);
      NodeOfMappedItem(n, ProjectItem, r.projects, b);
      var i :| 0 <= i < |r.projects| && InItem(n, ProjectItem(r.projects[i]));
      ProjectLink(n, r.projects[i]);
      assert r.projects[i] in r.projects;
    } else if k == 5 {
      assert b == CertificationsSection(r);
      NodeOfMappedItem(n, CertificationItem, r.certifications, b);
      var i :| 0 <= i < |r.certifications| && InItem(n, CertificationItem(r.certifications[i]));
      CertificationLink(n, r.certifications[i]);
      assert r.certifications[i] in r.certifications;
    } else {
      assert b == AchievementsSection(r);
      NodeOfMappedItem(n, AchievementItem, r.achievements, b);
      var i :| 0 <= i < |r.achievements| && InItem(n, AchievementItem(r.achievements[i]));
      AchievementLink(n, r.achievements[i]);
      assert r.achievements[i] in r.achievements;
    }
  }

  /** A link in the header is the LinkedIn, GitHub or website link. */
  lemma HeaderLinks(r: Resume, n: Node)
    requires InBlock(n, HeaderBlock(r)) && n.Link?
    ensures LinkOf(r, n)
  {
    var it :| it in HeaderBlock(r).items && InItem(n, it);
    assert it == [ContactLine(r)];
    assert n in Bulleted(ContactFields(r));
    assert n in ContactLinks(r);
  }

  /** Every link in the document is one of the resume's truthy URL fields
      under its fixed caption; no other link is ever produced. */
  lemma LinksComeFromUrlFields(r: Resume, config: Option<TemplateConfig>, isPrint: bool, n: Node)
    requires InDoc(n, Professional1Template(r, config, isPrint)) && n.Link?
    ensures LinkOf(r, n)
  {
    assert Professional1Template(r, config, isPrint).columns == [[HeaderBlock(r)] + Body(r)];
    var b :| b in [HeaderBlock(r)] + Body(r) && InBlock(n, b);
    if b == HeaderBlock(r) {
      HeaderLinks(r, n);
    } else {
      BodyLinks(r, n, b);
    }
  }

  /** Links show one of five fixed captions, never the raw URL. */
  lemma LinkCaptions(r: Resume, config: Option<TemplateConfig>, isPrint: bool, n: Node)
    requires InDoc(n, Professional1Template(r, config, isPrint)) && n.Link?
    ensures n.caption in {"LinkedIn", "GitHub", "Website", "[Link]", "[Verify]"}
  {
    LinksComeFromUrlFields(r, config, isPrint, n);
  }

  /** For a resume the schema accepts, every link points at a valid URL: the
      empty string the schema also admits is never turned into a link. */
  lemma ValidResumeLinksAreUrls(r: Resume, isUrl: string -> bool, isEmail: string -> bool,
                                config: Option<TemplateConfig>, isPrint: bool, n: Node)
    requires ResumeValid(r, isUrl, isEmail)
    requires InDoc(n, Professional1Template(r, config, isPrint)) && n.Link?
    ensures isUrl(n.href)
  {
    LinksComeFromUrlFields(r, config, isPrint, n);
    LinkOfValid(r, isUrl, isEmail, n);
  }

  /** In a resume the schema accepts, every URL field that can become a link
      holds a valid URL. */
  lemma LinkOfValid(r: Resume, isUrl: string -> bool, isEmail: string -> bool, n: Node)
    requires ResumeValid(r, isUrl, isEmail) && LinkOf(r, n)
    ensures isUrl(n.href)
  {
  }

  // ---------------------------------------------------------------------------
  // Style
  // ---------------------------------------------------------------------------

  /** Without a config (or with one whose fields are all falsy) the template
      uses `#1e40af` and `#64748b`, the `Inter` stack, `medium` sizes and
      `normal` spacing; `accentStyle` changes nothing. */
  lemma StyleDefaults(r: Resume, c: TemplateConfig, accent: Option<string>, isPrint: bool)
    ensures Professional1Template(r, None, isPrint).style
         == Style("Inter, sans-serif", FontSize("1rem", "1.5rem", "1.125rem"), Spacing("1.5rem", "0.75rem"),
                  "#1e40af", "#64748b", PageFor(isPrint))
    ensures (forall key: ConfigKey :: !Present(Get(Some(c), key)))
         ==> Professional1Template(r, Some(c), isPrint) == Professional1Template(r, None, isPrint)
    ensures Professional1Template(r, Some(c.(accentStyle := accent)), isPrint)
         == Professional1Template(r, Some(c), isPrint)
  {
    ConfiguredStyleFields(None, DefaultPrimaryColor, DefaultSecondaryColor, PageFor(isPrint));
    ConfiguredStyleIgnores(c, accent, DefaultPrimaryColor, DefaultSecondaryColor, PageFor(isPrint));
  }

  /** `isPrint` changes the page geometry and nothing else. */
  lemma PrintOnlyChangesPage(r: Resume, config: Option<TemplateConfig>)
    ensures var screen := Professional1Template(r, config, false);
      var printed := Professional1Template(r, config, true);
      && screen.columns == printed.columns
      && screen.style.(page := printed.style.page) == printed.style
      && printed.style.page == Padded("100%", "0.5in")
      && screen.style.page == Padded("850px", "2rem")
  {
  }
}
