/** The resume data model of `src/types/resume.ts`: the six entry kinds, the
    resume itself, the style configuration and the template metadata, with the
    constraints of their zod schemas as predicates and the schemas' `.default`
    values as completion functions.

    zod's `url()` and `email()` checks are library calls: every predicate that
    needs them takes them as the parameters `isUrl` and `isEmail`. */
module ResumeTypes {
  import opened Wrappers
  import opened Sequences

  datatype WorkHistory = WorkHistory(
    id: Option<string>,
    companyName: string,
    role: string,
    dateOfWork: string,
    description: string,
    location: Option<string>)

  datatype Project = Project(
    id: Option<string>,
    projectName: string,
    projectUrl: Option<string>,
    projectDescription: string,
    technologies: Option<seq<string>>,
    startDate: Option<string>,
    endDate: Option<string>)

  /** `project.technologies && project.technologies.length > 0`. */
  predicate HasTechnologies(p: Project) {
    p.technologies.Some? && |p.technologies.value| > 0
  }

  datatype Achievement = Achievement(
    id: Option<string>,
    achievementName: string,
    achievementUrl: Option<string>,
    achievementDescription: string,
    date: Option<string>)

  datatype Education = Education(
    id: Option<string>,
    institution: string,
    degree: string,
    field: Option<string>,
    startDate: Option<string>,
    endDate: Option<string>,
    gpa: Option<string>,
    description: Option<string>,
    location: Option<string>)

  datatype SkillCategory = SkillCategory(
    id: Option<string>,
    category: string,
    items: seq<string>)

  datatype Certification = Certification(
    id: Option<string>,
    name: string,
    issuer: string,
    issueDate: Option<string>,
    expiryDate: Option<string>,
    credentialId: Option<string>,
    credentialUrl: Option<string>)

  /** A style configuration as a renderer receives it. Every field may be
      missing: the renderers read each one as `config?.field || default`. */
  datatype TemplateConfig = TemplateConfig(
    primaryColor: Option<string>,
    secondaryColor: Option<string>,
    fontFamily: Option<string>,
    fontSize: Option<string>,
    spacing: Option<string>,
    accentStyle: Option<string>)

  /** The six fields of a configuration. */
  datatype ConfigKey = PrimaryColorKey | SecondaryColorKey | FontFamilyKey | FontSizeKey | SpacingKey | AccentStyleKey

  /** `config?.<key>`: missing when there is no configuration or no such field. */
  function Get(config: Option<TemplateConfig>, key: ConfigKey): Option<string> {
    if config.None? then None
    else
      match key
      case PrimaryColorKey => config.value.primaryColor
      case SecondaryColorKey => config.value.secondaryColor
      case FontFamilyKey => config.value.fontFamily
      case FontSizeKey => config.value.fontSize
      case SpacingKey => config.value.spacing
      case AccentStyleKey => config.value.accentStyle
  }

  /** The configuration with no field set (`{}`). */
  const EmptyConfig := TemplateConfig(None, None, None, None, None, None)

  const FontFamilyNames: seq<string> := ["inter", "roboto", "open-sans", "lato", "montserrat", "playfair"]
  const FontSizeNames: seq<string> := ["small", "medium", "large"]
  const SpacingNames: seq<string> := ["compact", "normal", "relaxed"]
  const AccentStyleNames: seq<string> := ["none", "underline", "sidebar", "header"]

  /** An enum field of the schema: absent, or one of its members. */
  predicate EnumOk(o: Option<string>, members: seq<string>) {
    o.None? || o.value in members
  }

  /** A configuration the schema accepts and has completed: every field set,
      and each enum field one of its members. */
  predicate ConfigValid(c: TemplateConfig) {
    && c.primaryColor.Some? && c.secondaryColor.Some?
    && c.fontFamily.Some? && c.fontFamily.value in FontFamilyNames
    && c.fontSize.Some? && c.fontSize.value in FontSizeNames
    && c.spacing.Some? && c.spacing.value in SpacingNames
    && c.accentStyle.Some? && c.accentStyle.value in AccentStyleNames
  }

  /** A field with a zod `.default(d)`: the default replaces only a missing value. */
  function Default(o: Option<string>, d: string): Option<string> {
    if o.Some? then o else Some(d)
  }

  /** The schema's `.default(...)` on each field: a missing field takes its
      default, a given one is kept. */
  function FillDefaults(c: TemplateConfig): (f: TemplateConfig)
    ensures f.primaryColor.Some? && f.secondaryColor.Some? && f.fontFamily.Some?
    ensures f.fontSize.Some? && f.spacing.Some? && f.accentStyle.Some?
    ensures c.primaryColor.Some? ==> f.primaryColor == c.primaryColor
    ensures c.primaryColor.None? ==> f.primaryColor == Some("#0ea5e9")
    ensures c.secondaryColor.Some? ==> f.secondaryColor == c.secondaryColor
    ensures c.secondaryColor.None? ==> f.secondaryColor == Some("#64748b")
    ensures c.fontFamily.Some? ==> f.fontFamily == c.fontFamily
    ensures c.fontFamily.None? ==> f.fontFamily == Some("inter")
    ensures c.fontSize.Some? ==> f.fontSize == c.fontSize
    ensures c.fontSize.None? ==> f.fontSize == Some("medium")
    ensures c.spacing.Some? ==> f.spacing == c.spacing
    ensures c.spacing.None? ==> f.spacing == Some("normal")
    ensures c.accentStyle.Some? ==> f.accentStyle == c.accentStyle
    ensures c.accentStyle.None? ==> f.accentStyle == Some("none")
  {
    TemplateConfig(
      Default(c.primaryColor, "#0ea5e9"),
      Default(c.secondaryColor, "#64748b"),
      Default(c.fontFamily, "inter"),
      Default(c.fontSize, "medium"),
      Default(c.spacing, "normal"),
      Default(c.accentStyle, "none"))
  }

  /** Filling defaults only fills gaps: a configuration with every field set
      is left alone, so filling twice is filling once. */
  lemma FillDefaultsFixed(c: TemplateConfig)
    ensures c.primaryColor.Some? && c.secondaryColor.Some? && c.fontFamily.Some?
            && c.fontSize.Some? && c.spacing.Some? && c.accentStyle.Some?
            ==> FillDefaults(c) == c
    ensures FillDefaults(FillDefaults(c)) == FillDefaults(c)
  {
  }

  /** `TemplateConfigSchema.parse(c)`: `None` when an enum field holds a value
      outside its enum, otherwise the configuration with every missing field
      set to its default. */
  function CompleteConfig(c: TemplateConfig): (r: Option<TemplateConfig>)
    ensures r.Some? <==> EnumOk(c.fontFamily, FontFamilyNames) && EnumOk(c.fontSize, FontSizeNames)
                         && EnumOk(c.spacing, SpacingNames) && EnumOk(c.accentStyle, AccentStyleNames)
    ensures r.Some? ==> ConfigValid(r.value)
    ensures r.Some? ==> r.value == FillDefaults(c)
  {
    if EnumOk(c.fontFamily, FontFamilyNames) && EnumOk(c.fontSize, FontSizeNames)
       && EnumOk(c.spacing, SpacingNames) && EnumOk(c.accentStyle, AccentStyleNames)
    then Some(FillDefaults(c))
    else None
  }

  /** Completing `{}` yields the schema's six defaults. */
  lemma CompleteEmptyConfig()
    ensures CompleteConfig(EmptyConfig) == Some(TemplateConfig(
      Some("#0ea5e9"), Some("#64748b"), Some("inter"), Some("medium"), Some("normal"), Some("none")))
  {
  }

  /** Completion is idempotent: a completed configuration is its own completion. */
  lemma CompleteConfigIdempotent(c: TemplateConfig)
    ensures ConfigValid(c) ==> CompleteConfig(c) == Some(c)
    ensures CompleteConfig(c).Some? ==> CompleteConfig(CompleteConfig(c).value) == CompleteConfig(c)
  {
  }

  /** The seven names `SectionOrderSchema` admits. */
  const SectionNames: seq<string> :=
    ["summary", "experience", "education", "skills", "projects", "certifications", "achievements"]

  /** Every element of a section order is one of the seven section names. */
  predicate SectionOrderValid(order: seq<string>) {
    forall k :: 0 <= k < |order| ==> order[k] in SectionNames
  }

  /** The section names are seven distinct strings, so a valid order names at
      most seven different sections. */
  lemma SectionNamesDistinct(order: seq<string>)
    ensures |set n | n in SectionNames| == 7
    ensures SectionOrderValid(order) ==> (set n | n in order) <= (set n | n in SectionNames)
  {
    assert forall i, j :: 0 <= i < j < |SectionNames| ==> |SectionNames[i]| != |SectionNames[j]|;
    DistinctCardinality(SectionNames);
  }

  /** A resume after parsing: `templateId` and the six collections carry their defaults. */
  datatype Resume = Resume(
    id: Option<string>,
    userId: Option<string>,
    title: string,
    name: string,
    email: string,
    phone: Option<string>,
    github: Option<string>,
    linkedin: Option<string>,
    website: Option<string>,
    location: Option<string>,
    description: Option<string>,
    templateId: Option<string>,
    templateConfig: Option<TemplateConfig>,
    sectionOrder: Option<seq<string>>,
    workHistory: seq<WorkHistory>,
    projects: seq<Project>,
    achievements: seq<Achievement>,
    education: seq<Education>,
    skills: seq<SkillCategory>,
    certifications: seq<Certification>)

  /** A resume as supplied to the schema, before its defaults are applied. */
  datatype ResumeInput = ResumeInput(
    id: Option<string>,
    userId: Option<string>,
    title: string,
    name: string,
    email: string,
    phone: Option<string>,
    github: Option<string>,
    linkedin: Option<string>,
    website: Option<string>,
    location: Option<string>,
    description: Option<string>,
    templateId: Option<string>,
    templateConfig: Option<TemplateConfig>,
    sectionOrder: Option<seq<string>>,
    workHistory: Option<seq<WorkHistory>>,
    projects: Option<seq<Project>>,
    achievements: Option<seq<Achievement>>,
    education: Option<seq<Education>>,
    skills: Option<seq<SkillCategory>>,
    certifications: Option<seq<Certification>>)

  /** A collection with `.default([])`. */
  function OrEmpty<T>(o: Option<seq<T>>): seq<T> {
    if o.Some? then o.value else []
  }

  /** The defaults `ResumeSchema` applies: `templateId` becomes `'professional-1'`
      and each of the six collections `[]` when missing; nothing else changes. */
  function CompleteResume(r: ResumeInput): (c: Resume)
    ensures c.templateId.Some?
    ensures r.templateId.None? ==> c.templateId == Some("professional-1")
    ensures r.templateId.Some? ==> c.templateId == r.templateId
    ensures r.workHistory.None? ==> c.workHistory == []
    ensures r.workHistory.Some? ==> c.workHistory == r.workHistory.value
    ensures r.projects.None? ==> c.projects == []
    ensures r.projects.Some? ==> c.projects == r.projects.value
    ensures r.achievements.None? ==> c.achievements == []
    ensures r.achievements.Some? ==> c.achievements == r.achievements.value
    ensures r.education.None? ==> c.education == []
    ensures r.education.Some? ==> c.education == r.education.value
    ensures r.skills.None? ==> c.skills == []
    ensures r.skills.Some? ==> c.skills == r.skills.value
    ensures r.certifications.None? ==> c.certifications == []
    ensures r.certifications.Some? ==> c.certifications == r.certifications.value
    ensures (c.id, c.userId, c.title, c.name, c.email) == (r.id, r.userId, r.title, r.name, r.email)
    ensures (c.phone, c.github, c.linkedin, c.website, c.location, c.description)
         == (r.phone, r.github, r.linkedin, r.website, r.location, r.description)
    ensures c.sectionOrder == r.sectionOrder
    ensures r.templateConfig.None? ==> c.templateConfig.None?
    ensures r.templateConfig.Some? ==> c.templateConfig == Some(FillDefaults(r.templateConfig.value))
    ensures r.templateConfig.Some? && CompleteConfig(r.templateConfig.value).Some?
            ==> c.templateConfig == CompleteConfig(r.templateConfig.value) && ConfigValid(c.templateConfig.value)
  {
    Resume(r.id, r.userId, r.title, r.name, r.email, r.phone, r.github, r.linkedin,
      r.website, r.location, r.description,
      Default(r.templateId, "professional-1"),
      if r.templateConfig.Some? then Some(FillDefaults(r.templateConfig.value)) else None, r.sectionOrder,
      OrEmpty(r.workHistory), OrEmpty(r.projects), OrEmpty(r.achievements),
      OrEmpty(r.education), OrEmpty(r.skills), OrEmpty(r.certifications))
  }

  /** The input that a parsed resume came from when every default was written out. */
  function AsInput(r: Resume): ResumeInput {
    ResumeInput(r.id, r.userId, r.title, r.name, r.email, r.phone, r.github, r.linkedin,
      r.website, r.location, r.description, r.templateId, r.templateConfig, r.sectionOrder,
      Some(r.workHistory), Some(r.projects), Some(r.achievements),
      Some(r.education), Some(r.skills), Some(r.certifications))
  }

  /** A nested configuration gets its own defaults: `{primaryColor: '#111'}`
      completes to a full, valid configuration that keeps `#111`. */
  lemma CompletePartialConfig(input: ResumeInput)
    requires input.templateConfig == Some(TemplateConfig(Some("#111"), None, None, None, None, None))
    ensures CompleteResume(input).templateConfig
         == Some(TemplateConfig(Some("#111"), Some("#64748b"), Some("inter"), Some("medium"), Some("normal"), Some("none")))
    ensures ConfigValid(CompleteResume(input).templateConfig.value)
  {
  }

  /** Completion only fills gaps: a resume that already has a template id and,
      if it has a configuration, a valid one, is its own completion; and
      completing twice changes nothing. */
  lemma CompleteResumeRoundTrip(r: Resume, input: ResumeInput)
    ensures r.templateId.Some? && (r.templateConfig.Some? ==> ConfigValid(r.templateConfig.value))
            ==> CompleteResume(AsInput(r)) == r
    ensures CompleteResume(AsInput(CompleteResume(input))) == CompleteResume(input)
  {
    if r.templateConfig.Some? {
      FillDefaultsFixed(r.templateConfig.value);
    }
    if input.templateConfig.Some? {
      FillDefaultsFixed(input.templateConfig.value);
    }
  }

  /** `z.string().min(1)`. */
  predicate Required(s: string) {
    s != ""
  }

  /** `z.string().url().optional().or(z.literal(''))`: missing, exactly `""`, or a URL. */
  predicate UrlOrEmpty(o: Option<string>, isUrl: string -> bool) {
    o.None? || o.value == "" || isUrl(o.value)
  }

  /** `WorkHistorySchema`: four required strings; `location` optional. */
  predicate WorkHistoryValid(w: WorkHistory) {
    Required(w.companyName) && Required(w.role) && Required(w.dateOfWork) && Required(w.description)
  }

  /** `ProjectSchema`. */
  predicate ProjectValid(p: Project, isUrl: string -> bool) {
    Required(p.projectName) && UrlOrEmpty(p.projectUrl, isUrl) && Required(p.projectDescription)
  }

  /** `AchievementSchema`. */
  predicate AchievementValid(a: Achievement, isUrl: string -> bool) {
    Required(a.achievementName) && UrlOrEmpty(a.achievementUrl, isUrl) && Required(a.achievementDescription)
  }

  /** `EducationSchema`: institution and degree required, the rest optional. */
  predicate EducationValid(e: Education) {
    Required(e.institution) && Required(e.degree)
  }

  /** `SkillCategorySchema`: a category name and at least one item. */
  predicate SkillCategoryValid(s: SkillCategory) {
    Required(s.category) && |s.items| >= 1
  }

  /** `CertificationSchema`: name and issuer required, the URL a URL or `""`. */
  predicate CertificationValid(c: Certification, isUrl: string -> bool) {
    Required(c.name) && Required(c.issuer) && UrlOrEmpty(c.credentialUrl, isUrl)
  }

  /** `ResumeSchema` on a parsed resume: every constraint of every field and entry. */
  predicate ResumeValid(r: Resume, isUrl: string -> bool, isEmail: string -> bool) {
    && Required(r.title) && Required(r.name) && isEmail(r.email)
    && UrlOrEmpty(r.github, isUrl) && UrlOrEmpty(r.linkedin, isUrl) && UrlOrEmpty(r.website, isUrl)
    && (r.templateConfig.Some? ==> ConfigValid(r.templateConfig.value))
    && (r.sectionOrder.Some? ==> SectionOrderValid(r.sectionOrder.value))
    && (forall w :: w in r.workHistory ==> WorkHistoryValid(w))
    && (forall p :: p in r.projects ==> ProjectValid(p, isUrl))
    && (forall a :: a in r.achievements ==> AchievementValid(a, isUrl))
    && (forall e :: e in r.education ==> EducationValid(e))
    && (forall s :: s in r.skills ==> SkillCategoryValid(s))
    && (forall c :: c in r.certifications ==> CertificationValid(c, isUrl))
  }

  /** A URL field is accepted exactly when it is missing, `""` or a URL; in
      particular a present (truthy) value that passes is a URL. */
  lemma UrlFieldAccepts(o: Option<string>, isUrl: string -> bool)
    ensures UrlOrEmpty(o, isUrl) && Present(o) ==> isUrl(o.value)
    ensures UrlOrEmpty(Some(""), isUrl) && UrlOrEmpty(None, isUrl)
  {
  }

  /** A skill category with an empty `items` list is rejected, whatever its name. */
  lemma SkillCategoryNeedsItems(s: SkillCategory)
    ensures s.items == [] ==> !SkillCategoryValid(s)
    ensures SkillCategoryValid(s) ==> s.category != "" && |s.items| > 0
  {
  }

  /** Only the required fields decide whether a work, education or
      certification entry is valid: the optional fields may hold anything. */
  lemma RequiredFieldsOnly(w: WorkHistory, e: Education, c: Certification,
                           isUrl: string -> bool, s: Option<string>)
    ensures WorkHistoryValid(w)
      <==> w.companyName != "" && w.role != "" && w.dateOfWork != "" && w.description != ""
    ensures WorkHistoryValid(w) <==> WorkHistoryValid(w.(location := s))
    ensures EducationValid(e) <==> e.institution != "" && e.degree != ""
    ensures EducationValid(e)
      <==> EducationValid(e.(field := s, startDate := s, endDate := s, gpa := s, description := s, location := s))
    ensures CertificationValid(c, isUrl)
      <==> CertificationValid(c.(issueDate := s, expiryDate := s, credentialId := s), isUrl)
  {
  }

  // ---------------------------------------------------------------------------
  // Template metadata
  // ---------------------------------------------------------------------------

  datatype TemplateCategory = Professional | Creative | Technical | Executive

  datatype TemplateMetadata = TemplateMetadata(
    id: string,
    name: string,
    category: TemplateCategory,
    description: string,
    thumbnail: string,
    isPremium: Option<bool>,
    tags: seq<string>,
    defaultConfig: TemplateConfig)

  /** JavaScript truthiness of the optional `isPremium` flag. */
  predicate IsPremium(t: TemplateMetadata) {
    t.isPremium == Some(true)
  }
}
