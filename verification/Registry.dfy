/** The template catalog: eleven constant entries and the lookups over them. */
module Registry {
  import opened Wrappers
  import opened Sequences
  import opened ResumeTypes

  function Config(primary: string, secondary: string, font: string, size: string, spacing: string, accent: string)
    : TemplateConfig
  {
    TemplateConfig(Some(primary), Some(secondary), Some(font), Some(size), Some(spacing), Some(accent))
  }

  const Professional1Entry := TemplateMetadata(
    "professional-1", "Classic Professional", Professional,
    "Clean, traditional layout perfect for corporate roles. ATS-optimized.",
    "/templates/professional-1.png", None, ["traditional", "corporate", "ats-friendly"],
    Config("#1e40af", "#64748b", "inter", "medium", "normal", "underline"))

  const Professional2Entry := TemplateMetadata(
    "professional-2", "Modern Sidebar", Professional,
    "Contemporary design with sidebar for contact info and skills.",
    "/templates/professional-2.png", None, ["modern", "sidebar", "clean"],
    Config("#0ea5e9", "#475569", "inter", "medium", "normal", "sidebar"))

  const Professional3Entry := TemplateMetadata(
    "professional-3", "Executive Minimal", Professional,
    "Minimalist design emphasizing experience and achievements.",
    "/templates/professional-3.png", None, ["minimal", "executive", "clean"],
    Config("#334155", "#64748b", "inter", "medium", "relaxed", "none"))

  const Professional4Entry := TemplateMetadata(
    "professional-4", "Corporate Blue", Professional,
    "Professional template with blue accents, ideal for business roles.",
    "/templates/professional-4.png", None, ["corporate", "blue", "traditional"],
    Config("#2563eb", "#475569", "roboto", "medium", "normal", "header"))

  const Professional5Entry := TemplateMetadata(
    "professional-5", "Two Column Classic", Professional,
    "Balanced two-column layout for comprehensive information.",
    "/templates/professional-5.png", None, ["two-column", "balanced", "comprehensive"],
    Config("#059669", "#64748b", "inter", "medium", "compact", "sidebar"))

  const Creative1Entry := TemplateMetadata(
    "creative-1", "Bold Designer", Creative,
    "Eye-catching design for creative professionals and designers.",
    "/templates/creative-1.png", Some(true), ["bold", "colorful", "designer"],
    Config("#7c3aed", "#ec4899", "montserrat", "medium", "relaxed", "header"))

  const Creative2Entry := TemplateMetadata(
    "creative-2", "Portfolio Focus", Creative,
    "Showcases projects and portfolio work prominently.",
    "/templates/creative-2.png", None, ["portfolio", "visual", "projects"],
    Config("#f59e0b", "#64748b", "playfair", "medium", "relaxed", "sidebar"))

  const Technical1Entry := TemplateMetadata(
    "technical-1", "Developer Standard", Technical,
    "Optimized for software engineers with emphasis on tech skills.",
    "/templates/technical-1.png", None, ["developer", "tech", "skills-focused"],
    Config("#059669", "#64748b", "roboto", "medium", "compact", "none"))

  const Technical2Entry := TemplateMetadata(
    "technical-2", "GitHub Style", Technical,
    "Clean monochrome design inspired by developer platforms.",
    "/templates/technical-2.png", None, ["github", "monochrome", "developer"],
    Config("#1f2937", "#6b7280", "inter", "medium", "normal", "underline"))

  const Executive1Entry := TemplateMetadata(
    "executive-1", "Senior Leadership", Executive,
    "Sophisticated design for C-level and senior management.",
    "/templates/executive-1.png", Some(true), ["executive", "leadership", "premium"],
    Config("#1e293b", "#64748b", "playfair", "large", "relaxed", "header"))

  const Executive2Entry := TemplateMetadata(
    "executive-2", "Distinguished Professional", Executive,
    "Elegant layout emphasizing career progression and impact.",
    "/templates/executive-2.png", Some(true), ["distinguished", "elegant", "executive"],
    Config("#7c2d12", "#78716c", "lato", "medium", "relaxed", "sidebar"))

  const ProfessionalTemplates: seq<TemplateMetadata> :=
    [Professional1Entry, Professional2Entry, Professional3Entry, Professional4Entry, Professional5Entry]

  const CreativeTemplates: seq<TemplateMetadata> := [Creative1Entry, Creative2Entry]

  const TechnicalTemplates: seq<TemplateMetadata> := [Technical1Entry, Technical2Entry]

  const ExecutiveTemplates: seq<TemplateMetadata> := [Executive1Entry, Executive2Entry]

  /** `TEMPLATE_REGISTRY`, in its declared order: the professional, creative,
      technical and executive entries one group after the other. */
  const TemplateRegistry: seq<TemplateMetadata> :=
    ProfessionalTemplates + CreativeTemplates + TechnicalTemplates + ExecutiveTemplates

  /** The registry's ids, in order. */
  const RegistryIds: seq<string> := [
    "professional-1", "professional-2", "professional-3", "professional-4", "professional-5",
    "creative-1", "creative-2", "technical-1", "technical-2", "executive-1", "executive-2"]

  // ---------------------------------------------------------------------------
  // Lookups
  // ---------------------------------------------------------------------------

  /** `templates.find(t => t.id === id)`: the first entry with that id. */
  function FindById(templates: seq<TemplateMetadata>, id: string): (r: Option<TemplateMetadata>)
    ensures r.Some? ==> r.value in templates && r.value.id == id
    ensures r.None? <==> forall t :: t in templates ==> t.id != id
  {
    if |templates| == 0 then None
    else if templates[0].id == id then Some(templates[0])
    else FindById(templates[1..], id)
  }

  /** `getTemplateById`: the catalog entry with that id, or nothing for an unknown id. */
  function GetTemplateById(id: string): (r: Option<TemplateMetadata>)
    ensures r.Some? ==> r.value in TemplateRegistry && r.value.id == id
    ensures r.None? <==> id !in RegistryIds
  {
    IdInRegistry(id);
    FindById(TemplateRegistry, id)
  }

  predicate InCategory(category: TemplateCategory, t: TemplateMetadata) {
    t.category == category
  }

  predicate IsFree(t: TemplateMetadata) {
    !IsPremium(t)
  }

  /** `getTemplatesByCategory`: the entries of that category, in catalog order. */
  function GetTemplatesByCategory(category: TemplateCategory): (r: seq<TemplateMetadata>)
    ensures forall t :: t in r <==> t in TemplateRegistry && t.category == category
    ensures IsSubsequence(r, TemplateRegistry)
  {
    FilterIsSubsequence(t => InCategory(category, t), TemplateRegistry);
    FilterMembers(t => InCategory(category, t), TemplateRegistry);
    Filter(t => InCategory(category, t), TemplateRegistry)
  }

  /** `getAllTemplates`: the catalog itself, all eleven entries in order. */
  function GetAllTemplates(): (r: seq<TemplateMetadata>)
    ensures r == TemplateRegistry
    ensures |r| == 11
    ensures forall k :: 0 <= k < |r| ==> r[k].id == RegistryIds[k]
  {
    TemplateRegistry
  }

  /** `getFreeTemplates`: the entries whose `isPremium` is not `true`, unset included. */
  function GetFreeTemplates(): (r: seq<TemplateMetadata>)
    ensures forall t :: t in r <==> t in TemplateRegistry && !IsPremium(t)
    ensures IsSubsequence(r, TemplateRegistry)
  {
    FilterIsSubsequence(IsFree, TemplateRegistry);
    FilterMembers(IsFree, TemplateRegistry);
    Filter(IsFree, TemplateRegistry)
  }

  /** `getPremiumTemplates`: the entries whose `isPremium` is `true`. */
  function GetPremiumTemplates(): (r: seq<TemplateMetadata>)
    ensures forall t :: t in r <==> t in TemplateRegistry && IsPremium(t)
    ensures IsSubsequence(r, TemplateRegistry)
  {
    FilterIsSubsequence(IsPremium, TemplateRegistry);
    FilterMembers(IsPremium, TemplateRegistry);
    Filter(IsPremium, TemplateRegistry)
  }

  /** One row of `TEMPLATE_CATEGORIES`. */
  datatype CategoryInfo = CategoryInfo(id: TemplateCategory, name: string, description: string)

  function CategoryIds(infos: seq<CategoryInfo>): seq<TemplateCategory> {
    seq(|infos|, i requires 0 <= i < |infos| => infos[i].id)
  }

  const TemplateCategories: seq<CategoryInfo> := [
    CategoryInfo(Professional, "Professional", "Clean, corporate-appropriate designs for traditional roles"),
    CategoryInfo(Creative, "Creative", "Visually distinctive layouts for design and creative fields"),
    CategoryInfo(Technical, "Technical", "Structured formats emphasizing skills and technical projects"),
    CategoryInfo(Executive, "Executive", "Sophisticated designs for senior roles and leadership positions")]

  // ---------------------------------------------------------------------------
  // Properties of the catalog
  // ---------------------------------------------------------------------------

  /** The registry's ids are `RegistryIds`. */
  lemma IdsOfRegistry()
    ensures |TemplateRegistry| == |RegistryIds|
    ensures forall k :: 0 <= k < |TemplateRegistry| ==> TemplateRegistry[k].id == RegistryIds[k]
  {
  }

  /** An id is in `RegistryIds` exactly when some entry has it. */
  lemma IdInRegistry(id: string)
    ensures (exists t :: t in TemplateRegistry && t.id == id) <==> id in RegistryIds
  {
    IdsOfRegistry();
    if id in RegistryIds {
      var k :| 0 <= k < |RegistryIds| && RegistryIds[k] == id;
      assert TemplateRegistry[k] in TemplateRegistry;
    }
    if exists t :: t in TemplateRegistry && t.id == id {
      var t :| t in TemplateRegistry && t.id == id;
      var k :| 0 <= k < |TemplateRegistry| && TemplateRegistry[k] == t;
      assert RegistryIds[k] == id;
    }
  }

  /** No two entries share an id. */
  lemma IdsDistinct()
    ensures forall i, j :: 0 <= i < j < |RegistryIds| ==> RegistryIds[i] != RegistryIds[j]
  {
    forall i, j | 0 <= i < j < |RegistryIds| ensures RegistryIds[i] != RegistryIds[j] {
      var a, b := RegistryIds[i], RegistryIds[j];
      assert a[0] != b[0] || a[|a| - 1] != b[|b| - 1];
    }
  }

  /** With distinct ids, the first entry with an id is the only one. */
  lemma {:induction false} FindByIdUnique(templates: seq<TemplateMetadata>, k: nat)
    requires k < |templates|
    requires forall i, j :: 0 <= i < j < |templates| ==> templates[i].id != templates[j].id
    ensures FindById(templates, templates[k].id) == Some(templates[k])
  {
    if k > 0 {
      assert templates[0].id != templates[k].id;
      FindByIdUnique(templates[1..], k - 1);
    }
  }

  /** `getTemplateById` returns entry `k` for its id, and only that entry. */
  lemma LookupEveryEntry(k: nat)
    requires k < |TemplateRegistry|
    ensures GetTemplateById(RegistryIds[k]) == Some(TemplateRegistry[k])
    ensures forall t :: t in TemplateRegistry && t.id == RegistryIds[k] ==> t == TemplateRegistry[k]
  {
    IdsOfRegistry();
    IdsDistinct();
    FindByIdUnique(TemplateRegistry, k);
    forall t | t in TemplateRegistry && t.id == RegistryIds[k] ensures t == TemplateRegistry[k] {
      var j :| 0 <= j < |TemplateRegistry| && TemplateRegistry[j] == t;
      assert RegistryIds[j] == RegistryIds[k];
    }
  }

  /** `getTemplateById('professional-3')` is the third professional entry,
      whose default primary colour is `#334155`. */
  lemma LookupProfessional3()
    ensures GetTemplateById("professional-3") == Some(Professional3Entry)
    ensures Professional3Entry.defaultConfig.primaryColor == Some("#334155")
  {
    LookupEveryEntry(2);
    assert RegistryIds[2] == "professional-3";
    assert TemplateRegistry[2] == ProfessionalTemplates[2] == Professional3Entry;
  }

  /** Free and premium entries split the catalog: every entry is in exactly
      one of the two lists, and together they hold all eleven. */
  lemma FreePremiumPartition()
    ensures multiset(GetFreeTemplates()) + multiset(GetPremiumTemplates()) == multiset(TemplateRegistry)
    ensures |GetFreeTemplates()| + |GetPremiumTemplates()| == 11
    ensures forall t :: t in GetFreeTemplates() ==> t !in GetPremiumTemplates()
  {
    FilterPartition(IsPremium, IsFree, TemplateRegistry);
  }

  /** The category of every entry of each group. */
  lemma GroupCategories()
    ensures forall t :: t in ProfessionalTemplates ==> t.category == Professional
    ensures forall t :: t in CreativeTemplates ==> t.category == Creative
    ensures forall t :: t in TechnicalTemplates ==> t.category == Technical
    ensures forall t :: t in ExecutiveTemplates ==> t.category == Executive
  {
  }

  /** Which entries of each group are flagged premium. */
  lemma GroupPremium()
    ensures forall t :: t in ProfessionalTemplates ==> !IsPremium(t)
    ensures forall t :: t in TechnicalTemplates ==> !IsPremium(t)
    ensures IsPremium(Creative1Entry) && !IsPremium(Creative2Entry)
    ensures forall t :: t in ExecutiveTemplates ==> IsPremium(t)
  {
  }

  /** Filtering the catalog filters each of its four groups, in order. */
  lemma {:induction false} FilterGroups(p: TemplateMetadata -> bool, g1: seq<TemplateMetadata>, g2: seq<TemplateMetadata>,
                                        g3: seq<TemplateMetadata>, g4: seq<TemplateMetadata>)
    ensures Filter(p, g1 + g2 + g3 + g4) == Filter(p, g1) + Filter(p, g2) + Filter(p, g3) + Filter(p, g4)
  {
    FilterAppend(p, g1 + g2 + g3, g4);
    FilterAppend(p, g1 + g2, g3);
    FilterAppend(p, g1, g2);
  }

  /** Filtering a group keeps all of it when its entries all pass and none of
      it when they all fail. */
  lemma GroupFilter(p: TemplateMetadata -> bool, g: seq<TemplateMetadata>, pass: bool)
    requires forall t :: t in g ==> p(t) == pass
    ensures Filter(p, g) == if pass then g else []
  {
    if pass {
      FilterAll(p, g);
    } else {
      FilterNone(p, g);
    }
  }

  /** Filtering four groups, of which only the first entry of the second and
      all of the fourth pass, keeps exactly those. */
  lemma PremiumOfGroups(p: TemplateMetadata -> bool, g1: seq<TemplateMetadata>, g2: seq<TemplateMetadata>,
                        g3: seq<TemplateMetadata>, g4: seq<TemplateMetadata>)
    requires forall t :: t in g1 ==> !p(t)
    requires |g2| == 2 && p(g2[0]) && !p(g2[1])
    requires forall t :: t in g3 ==> !p(t)
    requires forall t :: t in g4 ==> p(t)
    ensures Filter(p, g1 + g2 + g3 + g4) == [g2[0]] + g4
  {
    GroupFilter(p, g1, false);
    GroupFilter(p, g3, false);
    GroupFilter(p, g4, true);
    FilterPair(p, g2);
    calc {
      Filter(p, g1 + g2 + g3 + g4);
      { FilterGroups(p, g1, g2, g3, g4); }
      Filter(p, g1) + Filter(p, g2) + Filter(p, g3) + Filter(p, g4);
      [] + [g2[0]] + [] + g4;
      { assert [] + [g2[0]] + [] == [g2[0]]; }
      [g2[0]] + g4;
    }
  }

  /** Filtering a pair whose first element passes and second fails. */
  lemma FilterPair(p: TemplateMetadata -> bool, g: seq<TemplateMetadata>)
    requires |g| == 2 && p(g[0]) && !p(g[1])
    ensures Filter(p, g) == [g[0]]
  {
    assert g[1..][1..] == [];
    assert Filter(p, g[1..][1..]) == [];
  }

  /** The premium templates are the premium creative entry and both executive ones. */
  lemma PremiumEntries()
    ensures GetPremiumTemplates() == [Creative1Entry, Executive1Entry, Executive2Entry]
  {
    GroupPremium();
    PremiumOfGroups(IsPremium, ProfessionalTemplates, CreativeTemplates, TechnicalTemplates, ExecutiveTemplates);
  }

  /** Eight of the eleven templates are free. */
  lemma FreeCount()
    ensures |GetFreeTemplates()| == 8
  {
    PremiumEntries();
    FreePremiumPartition();
  }

  /** Filtering four groups by a category that is each group's own category
      keeps one group whole and drops the other three. */
  lemma CategoryOfGroups(c: TemplateCategory, g1: seq<TemplateMetadata>, g2: seq<TemplateMetadata>,
                         g3: seq<TemplateMetadata>, g4: seq<TemplateMetadata>)
    requires forall t :: t in g1 ==> t.category == Professional
    requires forall t :: t in g2 ==> t.category == Creative
    requires forall t :: t in g3 ==> t.category == Technical
    requires forall t :: t in g4 ==> t.category == Executive
    ensures Filter(t => InCategory(c, t), g1 + g2 + g3 + g4) == match c
      case Professional => g1
      case Creative => g2
      case Technical => g3
      case Executive => g4
  {
    var p := t => InCategory(c, t);
    GroupFilter(p, g1, c == Professional);
    GroupFilter(p, g2, c == Creative);
    GroupFilter(p, g3, c == Technical);
    GroupFilter(p, g4, c == Executive);
    calc {
      Filter(p, g1 + g2 + g3 + g4);
      { FilterGroups(p, g1, g2, g3, g4); }
      Filter(p, g1) + Filter(p, g2) + Filter(p, g3) + Filter(p, g4);
    }
    match c
    case Professional => assert g1 + [] + [] + [] == g1;
    case Creative => assert [] + g2 + [] + [] == g2;
    case Technical => assert [] + [] + g3 + [] == g3;
    case Executive => assert [] + [] + [] + g4 == g4;
  }

  /** Each category's list is its group, whole and in catalog order. */
  lemma CategoryFilter(c: TemplateCategory)
    ensures GetTemplatesByCategory(c) == match c
      case Professional => ProfessionalTemplates
      case Creative => CreativeTemplates
      case Technical => TechnicalTemplates
      case Executive => ExecutiveTemplates
  {
    GroupCategories();
    CategoryOfGroups(c, ProfessionalTemplates, CreativeTemplates, TechnicalTemplates, ExecutiveTemplates);
  }

  /** The four categories hold 5, 2, 2 and 2 entries and together, in order,
      make up the whole catalog. */
  lemma CategoryCounts()
    ensures |GetTemplatesByCategory(Professional)| == 5 && |GetTemplatesByCategory(Creative)| == 2
    ensures |GetTemplatesByCategory(Technical)| == 2 && |GetTemplatesByCategory(Executive)| == 2
    ensures GetTemplatesByCategory(Professional) + GetTemplatesByCategory(Creative)
          + GetTemplatesByCategory(Technical) + GetTemplatesByCategory(Executive) == TemplateRegistry
  {
    CategoryFilter(Professional);
    CategoryFilter(Creative);
    CategoryFilter(Technical);
    CategoryFilter(Executive);
  }

  /** Every category has exactly one row in `TEMPLATE_CATEGORIES`, so every
      entry's category is listed there. */
  lemma CategoriesListed()
    ensures forall c: TemplateCategory :: c in CategoryIds(TemplateCategories)
    ensures forall i, j :: 0 <= i < j < |TemplateCategories| ==> TemplateCategories[i].id != TemplateCategories[j].id
  {
    var ids := CategoryIds(TemplateCategories);
    assert ids == [Professional, Creative, Technical, Executive];
    forall c: TemplateCategory ensures c in ids {
      match c
      case Professional => assert ids[0] == c;
      case Creative => assert ids[1] == c;
      case Technical => assert ids[2] == c;
      case Executive => assert ids[3] == c;
    }
  }

  /** Every default configuration sets all six fields, each enum field to one of its members. */
  lemma DefaultConfigsValid()
    ensures forall t :: t in TemplateRegistry ==> ConfigValid(t.defaultConfig)
    ensures forall t :: t in TemplateRegistry ==> CompleteConfig(t.defaultConfig) == Some(t.defaultConfig)
  {
    forall t | t in TemplateRegistry ensures ConfigValid(t.defaultConfig) {
    }
    forall t | t in TemplateRegistry ensures CompleteConfig(t.defaultConfig) == Some(t.defaultConfig) {
      CompleteConfigIdempotent(t.defaultConfig);
    }
  }
}
