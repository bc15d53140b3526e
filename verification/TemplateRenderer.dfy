/** `TemplateRenderer`: picks the template component for an id, picks the
    configuration, and renders the resume with them. */
module TemplateRenderer {
  import opened Wrappers
  import opened ResumeTypes
  import opened Document
  import opened BaseTemplate
  import Registry
  import Professional1
  import Professional2

  /** The two template components that exist. */
  datatype Component = Professional1Component | Professional2Component

  /** `TEMPLATE_COMPONENTS`: every catalog id has a component, and all but
      `professional-2` reuse the first professional layout. */
  const TemplateComponents: map<string, Component> := map[
    "professional-1" := Professional1Component,
    "professional-2" := Professional2Component,
    "professional-3" := Professional1Component,
    "professional-4" := Professional1Component,
    "professional-5" := Professional1Component,
    "creative-1" := Professional1Component,
    "creative-2" := Professional1Component,
    "technical-1" := Professional1Component,
    "technical-2" := Professional1Component,
    "executive-1" := Professional1Component,
    "executive-2" := Professional1Component]

  const DefaultTemplateId := "professional-1"

  /** The props a renderer hands to its component. */
  datatype Invocation = Invocation(
    component: Component,
    resume: Resume,
    config: Option<TemplateConfig>,
    isPreview: bool,
    isPrint: bool)

  /** `templateId || resume.templateId || 'professional-1'`: the first truthy id. */
  function SelectedTemplateId(templateId: Option<string>, r: Resume): (id: string)
    ensures id != ""
    ensures Present(templateId) ==> id == templateId.value
    ensures !Present(templateId) && Present(r.templateId) ==> id == r.templateId.value
    ensures !Present(templateId) && !Present(r.templateId) ==> id == DefaultTemplateId
  {
    Or(templateId, Or(r.templateId, DefaultTemplateId))
  }

  /** `TEMPLATE_COMPONENTS[id] || Professional1Template`: an unknown id falls
      back to the first professional layout. */
  function ComponentFor(id: string): (c: Component)
    ensures c == Professional2Component <==> id == "professional-2"
  {
    if id in TemplateComponents then TemplateComponents[id] else Professional1Component
  }

  /** The members every plain JavaScript object inherits from `Object.prototype`. */
  const InheritedKeys: set<string> := {
    "constructor", "hasOwnProperty", "isPrototypeOf", "propertyIsEnumerable",
    "toLocaleString", "toString", "valueOf", "__proto__",
    "__defineGetter__", "__defineSetter__", "__lookupGetter__", "__lookupSetter__"}

  /** What indexing the object literal `TEMPLATE_COMPONENTS` yields in
      JavaScript: one of its own entries, a member inherited from
      `Object.prototype` (a function, or `Object.prototype` itself for
      `__proto__`; truthy either way), or `undefined`. */
  datatype Lookup = Own(component: Component) | Inherited(key: string) | Missing

  function IndexComponents(id: string): (v: Lookup)
    ensures v.Own? <==> id in TemplateComponents
    ensures v.Inherited? <==> id !in TemplateComponents && id in InheritedKeys
    ensures v.Own? ==> v.component == TemplateComponents[id]
  {
    if id in TemplateComponents then Own(TemplateComponents[id])
    else if id in InheritedKeys then Inherited(id)
    else Missing
  }

  /** `TEMPLATE_COMPONENTS[id] || Professional1Template` as written: only
      `undefined` falls back, so an inherited member is kept as the
      "component". */
  function ComponentForAsWritten(id: string): (v: Lookup)
    ensures !v.Missing?
    ensures v.Inherited? <==> id !in TemplateComponents && id in InheritedKeys
    ensures !v.Inherited? ==> v == Own(ComponentFor(id))
  {
    var found := IndexComponents(id);
    if found.Missing? then Own(Professional1Component) else found
  }

  /** The id `constructor` is not a catalog id, yet the lookup as written
      does not fall back to the first professional layout for it; the
      own-key lookup `ComponentFor` does. */
  lemma InheritedKeyEscapesFallback()
    ensures "constructor" !in Registry.RegistryIds
    ensures ComponentForAsWritten("constructor") == Inherited("constructor")
    ensures ComponentFor("constructor") == Professional1Component
  {
    ComponentsCoverRegistry();
    assert "constructor" !in TemplateComponents;
  }

  /** `config || resume.templateConfig`: any config object, even an empty
      one, replaces the resume's own configuration as a whole. */
  function FinalConfig(config: Option<TemplateConfig>, r: Resume): (c: Option<TemplateConfig>)
    ensures config.Some? ==> c == config
    ensures config.None? ==> c == r.templateConfig
  {
    if config.Some? then config else r.templateConfig
  }

  /** What `TemplateRenderer` passes to its component, with the `false`
      defaults of `isPreview` and `isPrint` applied. */
  function Invoke(r: Resume, templateId: Option<string>, config: Option<TemplateConfig>,
                  isPreview: Option<bool>, isPrint: Option<bool>): (inv: Invocation)
    ensures inv.resume == r
    ensures inv.component == Professional2Component <==> SelectedTemplateId(templateId, r) == "professional-2"
    ensures inv.config == (if config.Some? then config else r.templateConfig)
    ensures inv.isPreview <==> isPreview == Some(true)
    ensures inv.isPrint <==> isPrint == Some(true)
  {
    Invocation(ComponentFor(SelectedTemplateId(templateId, r)), r, FinalConfig(config, r),
               FlagOr(isPreview, false), FlagOr(isPrint, false))
  }

  /** Rendering the component with its props; neither layout reads `isPreview`. */
  function Render(inv: Invocation): (d: Doc)
    ensures |d.columns| == if inv.component == Professional2Component then 2 else 1
    ensures |d.columns[0]| >= 1 && d.columns[0][0].Header? && d.columns[0][0].name == inv.resume.name
    ensures inv.component == Professional1Component ==>
      ResolvedStyle(d.style, inv.config, Professional1.DefaultPrimaryColor, Professional1.DefaultSecondaryColor,
                    Professional1.PageFor(inv.isPrint))
    ensures inv.component == Professional2Component ==>
      ResolvedStyle(d.style, inv.config, Professional2.DefaultPrimaryColor, Professional2.DefaultSecondaryColor,
                    Professional2.PageFor(inv.isPrint))
  {
    match inv.component
    case Professional1Component => Professional1.Professional1Template(inv.resume, inv.config, inv.isPrint)
    case Professional2Component => Professional2.Professional2Template(inv.resume, inv.config, inv.isPrint)
  }

  /** `<TemplateRenderer resume templateId config isPreview isPrint />`. */
  function RenderTemplate(r: Resume, templateId: Option<string>, config: Option<TemplateConfig>,
                          isPreview: Option<bool>, isPrint: Option<bool>): (d: Doc)
    ensures |d.columns| == if SelectedTemplateId(templateId, r) == "professional-2" then 2 else 1
    ensures |d.columns[0]| >= 1 && d.columns[0][0].Header? && d.columns[0][0].name == r.name
    ensures SelectedTemplateId(templateId, r) != "professional-2" ==>
      ResolvedStyle(d.style, FinalConfig(config, r), Professional1.DefaultPrimaryColor,
                    Professional1.DefaultSecondaryColor, Professional1.PageFor(FlagOr(isPrint, false)))
    ensures SelectedTemplateId(templateId, r) == "professional-2" ==>
      ResolvedStyle(d.style, FinalConfig(config, r), Professional2.DefaultPrimaryColor,
                    Professional2.DefaultSecondaryColor, Professional2.PageFor(FlagOr(isPrint, false)))
  {
    Render(Invoke(r, templateId, config, isPreview, isPrint))
  }

  // ---------------------------------------------------------------------------
  // Properties
  // ---------------------------------------------------------------------------

  /** An explicit config wins over the resume's own: each of its truthy
      fields reaches the rendered document, whichever layout is chosen. */
  lemma ExplicitConfigReachesDocument(r: Resume, templateId: Option<string>, c: TemplateConfig,
                                      isPreview: Option<bool>, isPrint: Option<bool>)
    ensures var d := RenderTemplate(r, templateId, Some(c), isPreview, isPrint);
      && (Present(c.primaryColor) ==> d.style.primaryColor == c.primaryColor.value)
      && (Present(c.secondaryColor) ==> d.style.secondaryColor == c.secondaryColor.value)
      && (Present(c.fontFamily) ==> d.style.fontFamily == GetFontFamily(c.fontFamily.value))
      && (Present(c.fontSize) ==> d.style.fontSize == GetFontSize(c.fontSize.value))
      && (Present(c.spacing) ==> d.style.spacing == GetSpacing(c.spacing.value))
  {
    var d := RenderTemplate(r, templateId, Some(c), isPreview, isPrint);
    if SelectedTemplateId(templateId, r) == "professional-2" {
      ExplicitFieldsWin(d.style, c, Professional2.DefaultPrimaryColor,
                        Professional2.DefaultSecondaryColor, Professional2.PageFor(FlagOr(isPrint, false)));
    } else {
      ExplicitFieldsWin(d.style, c, Professional1.DefaultPrimaryColor,
                        Professional1.DefaultSecondaryColor, Professional1.PageFor(FlagOr(isPrint, false)));
    }
  }

  /** The print flag reaches the page box of the chosen layout. */
  lemma PrintFlagReachesDocument(r: Resume, templateId: Option<string>, config: Option<TemplateConfig>,
                                 isPreview: Option<bool>)
    ensures var d := RenderTemplate(r, templateId, config, isPreview, Some(true));
      d.style.page == (if SelectedTemplateId(templateId, r) == "professional-2"
                       then Professional2.PageFor(true) else Professional1.PageFor(true))
    ensures var d := RenderTemplate(r, templateId, config, isPreview, None);
      d.style.page == (if SelectedTemplateId(templateId, r) == "professional-2"
                       then Professional2.PageFor(false) else Professional1.PageFor(false))
  {
  }

  /** The component table has exactly the catalog's ids as keys. */
  lemma ComponentsCoverRegistry()
    ensures forall id :: id in TemplateComponents <==> id in Registry.RegistryIds
  {
    assert TemplateComponents.Keys == {
      "professional-1", "professional-2", "professional-3", "professional-4", "professional-5",
      "creative-1", "creative-2", "technical-1", "technical-2", "executive-1", "executive-2"};
  }

  /** The selected template decides the layout: the sidebar layout for
      `professional-2`, the first professional layout for every other id,
      catalog ids and unknown ids alike. */
  lemma Dispatch(r: Resume, templateId: Option<string>, config: Option<TemplateConfig>,
                 isPreview: Option<bool>, isPrint: Option<bool>)
    ensures var id := SelectedTemplateId(templateId, r);
      var inv := Invoke(r, templateId, config, isPreview, isPrint);
      && inv.component == (if id == "professional-2" then Professional2Component else Professional1Component)
      && (id !in Registry.RegistryIds ==> inv.component == Professional1Component)
  {
    assert "professional-2" == Registry.RegistryIds[1];
  }

  /** `isPreview` changes nothing in the rendered document. */
  lemma PreviewIgnored(r: Resume, templateId: Option<string>, config: Option<TemplateConfig>,
                       p1: Option<bool>, p2: Option<bool>, isPrint: Option<bool>)
    ensures RenderTemplate(r, templateId, config, p1, isPrint) == RenderTemplate(r, templateId, config, p2, isPrint)
  {
  }

  /** An explicit config is not merged with the resume's: a colour it leaves
      unset takes the layout's own default, never the resume's colour. */
  lemma ConfigNotMerged(r: Resume, templateId: Option<string>, c: TemplateConfig,
                        isPreview: Option<bool>, isPrint: Option<bool>)
    requires !Present(c.primaryColor)
    ensures var d := RenderTemplate(r, templateId, Some(c), isPreview, isPrint);
      d.style.primaryColor
        == if SelectedTemplateId(templateId, r) == "professional-2"
           then Professional2.DefaultPrimaryColor else Professional1.DefaultPrimaryColor
  {
  }

  /** Without an explicit config the resume's own configuration is used, and
      the catalog's default configuration is never consulted: a resume that
      selects `professional-3` and has no configuration is drawn in
      `#1e40af`, not in the `#334155` the catalog lists for it. */
  lemma CatalogDefaultsUnused(r: Resume, isPreview: Option<bool>, isPrint: Option<bool>)
    requires r.templateId == Some("professional-3") && r.templateConfig.None?
    ensures RenderTemplate(r, None, None, isPreview, isPrint).style.primaryColor == "#1e40af"
    ensures Registry.GetTemplateById("professional-3") == Some(Registry.Professional3Entry)
    ensures Registry.Professional3Entry.defaultConfig.primaryColor == Some("#334155")
  {
    Registry.LookupProfessional3();
    var inv := Invoke(r, None, None, isPreview, isPrint);
    assert inv.component == Professional1Component && inv.config.None?;
  }

  /** Whatever the template, a Skills section appears in some column exactly
      when the resume has skill categories. */
  lemma SkillsShownIffAny(r: Resume, templateId: Option<string>, config: Option<TemplateConfig>,
                          isPreview: Option<bool>, isPrint: Option<bool>)
    ensures ShowsSection(RenderTemplate(r, templateId, config, isPreview, isPrint), "Skills") <==> |r.skills| > 0
  {
    var inv := Invoke(r, templateId, config, isPreview, isPrint);
    var d := Render(inv);
    if inv.component == Professional2Component {
      assert |d.columns| == 2 && (FindSection(d.columns[0], "Skills").Some? <==> |r.skills| > 0)
        && FindSection(d.columns[1], "Skills").None? by {
        Professional2.SkillsPlacement(r, inv.config, inv.isPrint);
      }
    } else {
      assert |d.columns| == 1 && (FindSection(d.columns[0], "Skills").Some? <==> |r.skills| > 0) by {
        Professional1.SkillsPlacement(r, inv.config, inv.isPrint);
      }
    }
    ShowsSectionColumns(d, "Skills");
  }
}
