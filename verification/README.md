# Resume renderer model

This project models the rendering core of a resume builder written in
TypeScript and React. A resume is a record with contact fields and six
lists of entries: work history, projects, achievements, education, skill
categories and certifications. A `TemplateRenderer` picks one of two layout
components by template id and renders the resume with an optional style
configuration:

- `Professional1` draws a single column.
- `Professional2` draws a sidebar and a main column.

A constant catalog of eleven templates describes the ids the product offers.

The React output is abstracted as a document value:

- `Doc(style, columns)` has one column or two.
- Each column is a list of blocks: a `Header` (the name and the line under it) or a titled `Section`.
- Each section holds items, an item holds lines, and a line holds nodes.
- A node is `Text(s)` or `Link(href, caption)`.

JavaScript truthiness is modelled throughout. An optional string is
`Option<string>`, and `Present(o)` holds when it is set and non-empty,
because every `x && …` and `x || d` in the templates treats `""` as missing.

Modules:

- `Wrappers`: `Option`, `Present`, and the `||` and default-parameter forms.
- `Strings`: `join`, `split('\n')[0]`, and the `/https?:\/\//` replacement.
- `Sequences`: `filter` and its laws.
- `ResumeTypes`: the data model of `src/types/resume.ts`. It has schema predicates and default completion. zod's `url()` and `email()` checks are the function parameters `isUrl` and `isEmail`.
- `BaseTemplate`: the font, size and spacing tables and the date formatters.
- `Document`: the document shape, plus the section filtering shared by both layouts.
- `Registry`: the template catalog and its queries.
- `Professional1` and `Professional2`: the two layouts.
- `TemplateRenderer`: choosing the id, the component and the configuration.

The catalog gives each template a `defaultConfig`
(src/lib/templates/registry.ts), but `TemplateRenderer` never reads it.
Without a configuration, each layout applies its own hard-coded defaults;
`TemplateRenderer.CatalogDefaultsUnused` states this.

## Model

| member | source | states |
|---|---|---|
| ResumeTypes.FillDefaults | src/types/resume.ts:66-73 | every field ends up set: a given field is kept and a missing one takes its default (`#0ea5e9`, `#64748b`, `inter`, `medium`, `normal`, `none`) |
| ResumeTypes.FillDefaultsFixed | src/types/resume.ts:66-73 | a configuration with every field set is left unchanged, so filling defaults twice equals filling once |
| ResumeTypes.CompleteConfig | src/types/resume.ts:66-73 | parsing a configuration succeeds exactly when every enum field is absent or one of its 6/3/3/4 members; the result is valid and is the input with its defaults filled |
| ResumeTypes.CompleteEmptyConfig | src/types/resume.ts:66-73 | completing `{}` gives `#0ea5e9`, `#64748b`, `inter`, `medium`, `normal`, `none` |
| ResumeTypes.CompleteConfigIdempotent | src/types/resume.ts:66-73 | a complete valid configuration is its own completion, and completing twice equals completing once |
| ResumeTypes.SectionNamesDistinct | src/types/resume.ts:75-83 | the seven section names are distinct, and a valid section order only names them |
| ResumeTypes.CompleteResume | src/types/resume.ts:105-115 | a missing template id becomes `professional-1` and each of the six missing collections becomes `[]`; a given template id or collection is kept; a given configuration gets its own field defaults (valid when its enum fields are); every other field passes through unchanged |
| ResumeTypes.CompleteResumeRoundTrip | src/types/resume.ts:89-120 | completion only fills gaps: a parsed resume with a template id and no or a valid configuration completes to itself, and completion is idempotent |
| ResumeTypes.CompletePartialConfig | src/types/resume.ts:66-73 | a resume whose configuration sets only `primaryColor: '#111'` completes to the full valid configuration that keeps `#111` |
| ResumeTypes.UrlFieldAccepts | src/types/resume.ts:19 | a URL field accepts a missing value, `""` or a URL, so a truthy accepted value is a URL |
| ResumeTypes.SkillCategoryNeedsItems | src/types/resume.ts:46-50 | a skill category with no items is rejected; a valid one has a non-empty name and at least one item |
| ResumeTypes.RequiredFieldsOnly | src/types/resume.ts:7-60 | a work entry is valid iff its four required strings are non-empty, and education iff institution and degree are; changing optional fields never changes validity (work, education, certification) |
| BaseTemplate.GetFontFamily | src/components/resume/templates/BaseTemplate.tsx:19-28 | each of the six keys maps to its font stack; any other key, `""` included, gives `Inter, sans-serif` |
| BaseTemplate.GetFontSize | src/components/resume/templates/BaseTemplate.tsx:31-37 | `small` and `large` give their triples; every other key gives the medium triple |
| BaseTemplate.GetSpacing | src/components/resume/templates/BaseTemplate.tsx:40-46 | `compact` and `relaxed` give their pairs; every other key gives `1.5rem`/`0.75rem` |
| BaseTemplate.UnknownKeysFallBack | src/components/resume/templates/BaseTemplate.tsx:28-46 | an unknown key resolves exactly as `inter`, `medium` or `normal` does |
| BaseTemplate.SpacingScaleOrdered | src/components/resume/templates/BaseTemplate.tsx:41-45 | as rem lengths, every entry's item gap is below its section gap, and both gaps grow compact, normal, relaxed |
| BaseTemplate.SpacingLengths | src/components/resume/templates/BaseTemplate.tsx:41-45 | the spacing table's lengths read as 0.5, 0.75, 1, 1.5 and 2 rem |
| BaseTemplate.FormatDate | src/components/resume/templates/BaseTemplate.tsx:78-81 | the result is never empty: the date itself when truthy, otherwise `Present` |
| BaseTemplate.FormatDateRange | src/components/resume/templates/BaseTemplate.tsx:83-87 | the range is the formatted start, then ` - `, then the formatted end |
| BaseTemplate.DateRangeExamples | src/components/resume/templates/BaseTemplate.tsx:78-87 | a missing or empty date is `Present`; no dates give `Present - Present` |
| Registry.GetTemplateById | src/lib/templates/registry.ts:208-210 | a found entry is in the catalog and has that id; the result is "not found" exactly when the id is not a catalog id |
| Registry.FindById | src/lib/templates/registry.ts:208-210 | `find` returns a member with that id, or nothing exactly when no member has it |
| Registry.FindByIdUnique | src/lib/templates/registry.ts:208-210 | over entries with distinct ids, looking up an entry's id finds that entry |
| Registry.IdsDistinct | src/lib/templates/registry.ts:7-202 | the eleven catalog ids are pairwise distinct |
| Registry.LookupEveryEntry | src/lib/templates/registry.ts:7-210 | looking up the k-th id returns the k-th entry, the only entry with that id |
| Registry.LookupProfessional3 | src/lib/templates/registry.ts:43-58 | `professional-3` is found, and its catalog primary colour is `#334155` |
| Registry.GetTemplatesByCategory | src/lib/templates/registry.ts:212-214 | exactly the catalog entries of that category, in catalog order |
| Registry.CategoryFilter | src/lib/templates/registry.ts:212-214 | each category's query returns its own run of catalog entries |
| Registry.CategoryCounts | src/lib/templates/registry.ts:212-214 | the four categories hold 5, 2, 2 and 2 templates, and together they are the whole catalog in order |
| Registry.GetAllTemplates | src/lib/templates/registry.ts:216-218 | the catalog itself, unchanged: its eleven entries in catalog order |
| Registry.GetFreeTemplates | src/lib/templates/registry.ts:220-222 | exactly the entries whose premium flag is not `true` (unset counts as free), in catalog order |
| Registry.GetPremiumTemplates | src/lib/templates/registry.ts:224-226 | exactly the entries flagged premium, in catalog order |
| Registry.FreePremiumPartition | src/lib/templates/registry.ts:220-226 | free and premium entries are disjoint and together form the catalog as a multiset |
| Registry.PremiumEntries | src/lib/templates/registry.ts:224-226 | the premium templates are exactly creative-1, executive-1 and executive-2 |
| Registry.FreeCount | src/lib/templates/registry.ts:220-222 | eight templates are free |
| Registry.CategoriesListed | src/lib/templates/registry.ts:229-250 | the category list names every category once |
| Registry.DefaultConfigsValid | src/lib/templates/registry.ts:18-25 | every catalog default configuration sets all six fields with enum members, and completes to itself |
| TemplateRenderer.SelectedTemplateId | src/components/resume/templates/TemplateRenderer.tsx:40 | the explicit id if truthy, else the resume's id if truthy, else `professional-1`; never empty |
| TemplateRenderer.ComponentFor | src/components/resume/templates/TemplateRenderer.tsx:41 | the sidebar layout exactly for `professional-2`; every other id, unknown ids included, gets the first layout |
| TemplateRenderer.ComponentsCoverRegistry | src/components/resume/templates/TemplateRenderer.tsx:19-31 | the component table's keys are exactly the catalog's ids |
| TemplateRenderer.Dispatch | src/components/resume/templates/TemplateRenderer.tsx:40-41 | the rendered component is the sidebar layout iff the selected id is `professional-2`; an id outside the catalog gets the first layout |
| TemplateRenderer.FinalConfig | src/components/resume/templates/TemplateRenderer.tsx:43 | an explicit configuration replaces the resume's as a whole, otherwise the resume's is used |
| TemplateRenderer.Render | src/components/resume/templates/TemplateRenderer.tsx:45-51 | the sidebar layout gives two columns and the first layout one; either way the first block is the header with the resume's name, and the style is resolved from the passed configuration (truthy fields through the resolvers, otherwise that layout's defaults) with that layout's page box for the passed print flag |
| TemplateRenderer.RenderTemplate | src/components/resume/templates/TemplateRenderer.tsx:33-53 | the document has two columns exactly when the selected id is `professional-2`, and opens with a header holding the resume's name; its style is resolved from `config \|\| resume.templateConfig` by the selected layout, and its page box follows `isPrint` (default `false`) |
| TemplateRenderer.ExplicitConfigReachesDocument | src/components/resume/templates/TemplateRenderer.tsx:37-51 | with an explicit config, each of its truthy colours, font family, size and spacing appears in the rendered document whichever layout is selected |
| TemplateRenderer.PrintFlagReachesDocument | src/components/resume/templates/TemplateRenderer.tsx:37-51 | `isPrint: true` gives the selected layout's print page box, and an omitted flag its screen page box |
| TemplateRenderer.Invoke | src/components/resume/templates/TemplateRenderer.tsx:37-51 | the component gets the resume unchanged and the chosen configuration; the preview and print flags are `false` unless passed as `true` |
| TemplateRenderer.PreviewIgnored | src/components/resume/templates/TemplateRenderer.tsx:45-51 | the preview flag never changes the rendered document |
| TemplateRenderer.ConfigNotMerged | src/components/resume/templates/TemplateRenderer.tsx:43 | an explicit configuration without a primary colour yields the layout's default colour, never the resume's |
| TemplateRenderer.CatalogDefaultsUnused | src/components/resume/templates/TemplateRenderer.tsx:40-51 | a resume on `professional-3` with no configuration is drawn in `#1e40af`, although the catalog lists `#334155` for it |
| TemplateRenderer.SkillsShownIffAny | src/components/resume/templates/TemplateRenderer.tsx:41-51 | whatever the template, some column shows a Skills section iff the resume has skill categories |
| TemplateRenderer.IndexComponents | src/components/resume/templates/TemplateRenderer.tsx:19-31 | indexing the table as a JavaScript object: own entries for catalog ids, an inherited member for `Object.prototype` names, otherwise undefined |
| TemplateRenderer.ComponentForAsWritten | src/components/resume/templates/TemplateRenderer.tsx:41 | only undefined falls back to the first layout; for every id that is not an inherited name it agrees with `ComponentFor` |
| TemplateRenderer.InheritedKeyEscapesFallback | src/components/resume/templates/TemplateRenderer.tsx:41 | `constructor` is no catalog id, yet the lookup as written yields the inherited member; `ComponentFor` gives the first layout |
| Document.ExplicitFieldsWin | src/components/resume/templates/Professional1.tsx:16-31 | under a present config, each truthy colour, font family, size and spacing field decides its style value |
| Document.ConfiguredStyleFields | src/components/resume/templates/Professional1.tsx:16-31 | each truthy config field decides its style value through the resolvers; a falsy or missing font, size or spacing field resolves as `inter`, `medium` or `normal`, and a falsy colour takes the layout's colour |
| Document.ConfiguredStyleIgnores | src/components/resume/templates/Professional2.tsx:16-32 | the accent style is never read, and a configuration with no truthy field styles exactly like no configuration |
| Document.KeepPreservesOrder | src/components/resume/templates/Professional1.tsx:141-309 | dropping absent sections never reorders the rest |
| Document.FindTitled | src/components/resume/templates/Professional1.tsx:141-309 | with distinct titles, a section is shown iff its condition holds, and it is then exactly the candidate section |
| Professional1.Professional1Template | src/components/resume/templates/Professional1.tsx:15-312 | one column that opens with the name's header and holds at most the seven sections; colours come from truthy config fields or `#1e40af`/`#64748b`; a truthy font family, size or spacing goes through its resolver and a falsy one gives `inter`, `medium` or `normal`; the page box follows the print flag |
| Professional1.ContactFields | src/components/resume/templates/Professional1.tsx:101-138 | a LinkedIn, GitHub or Website link appears iff that field is truthy; a truthy phone or location appears as text, and every text field is one of those two |
| Professional1.ContactLinks | src/components/resume/templates/Professional1.tsx:106-138 | every header link points at the resume's LinkedIn, GitHub or website URL with its caption |
| Professional1.HeaderLayout | src/components/resume/templates/Professional1.tsx:98-139 | the header shows the name and the email first, then a `•` before each present contact field, in order |
| Professional1.SectionOrder | src/components/resume/templates/Professional1.tsx:98-309 | one column: the header, then sections in the order Summary, Experience, Education, Skills, Projects, Certifications, Achievements |
| Professional1.SectionsPresent | src/components/resume/templates/Professional1.tsx:143-309 | Summary appears iff the description is truthy; each list section appears iff its list is non-empty, holding one item per entry in input order |
| Professional1.NoEmptySection | src/components/resume/templates/Professional1.tsx:141-309 | no section is shown without items |
| Professional1.SkillsPlacement | src/components/resume/templates/Professional1.tsx:193-203 | the single column shows Skills iff the resume has skill categories |
| Professional1.WorkItemText | src/components/resume/templates/Professional1.tsx:151-166 | a job shows its role, its company with ` - location` only when present, its date and its description |
| Professional1.EducationItemText | src/components/resume/templates/Professional1.tsx:169-190 | degree with ` in field`, institution with ` - location`, the date range with ` \| GPA: gpa`, each suffix only when present; the description line only when present |
| Professional1.SkillItemText | src/components/resume/templates/Professional1.tsx:196-201 | a skill line reads category, `: `, then the items joined by `, ` |
| Professional1.ProjectItemLines | src/components/resume/templates/Professional1.tsx:210-239 | `[Link]` appears iff the project URL is truthy; line 1 is the `Technologies: ` line when technologies are non-empty, otherwise the date line or the description; the date range sits just before the description iff a start or end date is truthy; the description comes last |
| Professional1.CertificationItemLines | src/components/resume/templates/Professional1.tsx:248-276 | `[Verify]` appears iff the credential URL is truthy; the issuer follows; an `Issued:` line, with ` \| Expires:` and ` \| ID:` only when present, appears iff the issue date is truthy |
| Professional1.AchievementItemLines | src/components/resume/templates/Professional1.tsx:285-307 | `[Link]` appears iff the achievement URL is truthy, and the date line iff the date is truthy |
| Professional1.RequiredOnlyJob | src/components/resume/templates/Professional1.tsx:151-166 | a resume with one job without a location shows an Experience section of exactly the job's four texts |
| Professional1.ValidJobHasNoBlankLine | src/components/resume/templates/Professional1.tsx:151-166 | a job the schema accepts renders no blank line |
| Professional1.LinksComeFromUrlFields | src/components/resume/templates/Professional1.tsx:98-309 | every link in the document carries one of the resume's URL fields, with that field's caption |
| Professional1.LinkCaptions | src/components/resume/templates/Professional1.tsx:98-309 | every link caption is `LinkedIn`, `GitHub`, `Website`, `[Link]` or `[Verify]` |
| Professional1.ValidResumeLinksAreUrls | src/components/resume/templates/Professional1.tsx:98-309 | for a resume the schema accepts, every link target is a URL |
| Professional1.StyleDefaults | src/components/resume/templates/Professional1.tsx:16-31 | with no configuration the style is Inter, medium, normal, `#1e40af` and `#64748b`; a configuration of only falsy fields changes nothing, nor does the accent style |
| Professional1.PrintOnlyChangesPage | src/components/resume/templates/Professional1.tsx:16-31 | print mode changes only the page box, `100%`/`0.5in` instead of `850px`/`2rem` |
| Professional2.Professional2Template | src/components/resume/templates/Professional2.tsx:15-357 | a sidebar opening with the name's header and at most three sections, and a main column of at most five; colours come from truthy config fields or `#0ea5e9`/`#475569`; a truthy font family, size or spacing goes through its resolver and a falsy one gives `inter`, `medium` or `normal`; the page box follows the print flag |
| Professional2.SectionOrder | src/components/resume/templates/Professional2.tsx:130-354 | two columns: the sidebar holds the header, then Contact, Skills and Certifications; the main column holds Summary, Experience, Education, Projects and Achievements, in order |
| Professional2.SidebarSections | src/components/resume/templates/Professional2.tsx:140-251 | Contact always appears; Skills and Certifications appear iff their lists are non-empty |
| Professional2.MainSections | src/components/resume/templates/Professional2.tsx:257-353 | Summary appears iff the description holds a line break; each list section appears iff its list is non-empty |
| Professional2.ColumnsDisjoint | src/components/resume/templates/Professional2.tsx:130-354 | no section of one column appears in the other |
| Professional2.SkillsPlacement | src/components/resume/templates/Professional2.tsx:213-229 | the sidebar shows Skills iff the resume has skill categories, and the main column never does |
| Professional2.DescriptionShown | src/components/resume/templates/Professional2.tsx:134-136 | the headline is the description up to its first line break; Summary appears, with the whole description, exactly when the headline is shorter |
| Professional2.NoDescription | src/components/resume/templates/Professional2.tsx:134-136 | without a description there is no headline and no Summary |
| Professional2.ContactEntries | src/components/resume/templates/Professional2.tsx:140-210 | one entry per truthy field: the email first as a `mailto:` link captioned with the address, then `Phone:`/`Location:` with the text, `LinkedIn:`/`GitHub:` linked as `Profile`, `Website:` captioned with the stripped URL; each entry is a label line and a value line |
| Professional2.ContactEntryOf | src/components/resume/templates/Professional2.tsx:140-210 | every contact entry is the label and value of one truthy contact field, so no other entry appears; a linked value is one of the resume's contact URLs with its caption |
| Professional2.WebsiteCaptionStrips | src/components/resume/templates/Professional2.tsx:206 | the website caption drops a leading `https://` or `http://`, and leaves a URL with no such match unchanged |
| Professional2.WorkItemText | src/components/resume/templates/Professional2.tsx:268-278 | the company line adds ` • location` only when the location is truthy |
| Professional2.EducationItemText | src/components/resume/templates/Professional2.tsx:286-302 | the degree adds ` in field`, the institution adds ` • location`, and the date range adds ` • GPA: gpa`, each only when present |
| Professional2.SkillItemLines | src/components/resume/templates/Professional2.tsx:216-227 | a category shows its name, then one `• item` line per item in order |
| Professional2.BulletLines | src/components/resume/templates/Professional2.tsx:219-225 | one `• item` line per item, in order |
| Professional2.ProjectItemLines | src/components/resume/templates/Professional2.tsx:310-337 | project dates never show; `[Link]` iff the URL is truthy; technologies joined by ` • ` iff non-empty |
| Professional2.CertificationFieldsIgnored | src/components/resume/templates/Professional2.tsx:237-248 | expiry date, credential ID and credential URL never change the item; it has no link and a date line only with an issue date |
| Professional2.AchievementUrlIgnored | src/components/resume/templates/Professional2.tsx:345-351 | the achievement URL never changes the item, which has no link and a date line iff the date is truthy |
| Professional2.LinksComeFromUrlFields | src/components/resume/templates/Professional2.tsx:130-354 | every link in the document carries the email, a contact URL or a project URL, with its caption |
| Professional2.ValidResumeLinks | src/components/resume/templates/Professional2.tsx:130-354 | for a resume the schema accepts, every link target is a URL or `mailto:` of a valid email |
| Professional2.StyleDefaults | src/components/resume/templates/Professional2.tsx:16-32 | with no configuration the style is Inter, medium, normal, `#0ea5e9` and `#475569`; falsy fields and the accent style change nothing |
| Professional2.PrintOnlyChangesPage | src/components/resume/templates/Professional2.tsx:16-32 | print mode changes only the page box, `100%`/`11in` instead of `850px`/`auto` |
| Strings.JoinAppend | src/components/resume/templates/Professional1.tsx:199 | `join` puts exactly one separator between two joined runs and nothing at the ends |
| Strings.FirstLine | src/components/resume/templates/Professional2.tsx:135 | the first line is a prefix with no line break, and it is shorter than the text iff the text contains a line break |
| Strings.StripProtocolPrefix | src/components/resume/templates/Professional2.tsx:206 | the first `http://` or `https://` match at the start is removed |

## Left out

- zod parsing mechanics and error messages are not modelled. Validity is a predicate, and `url()`/`email()` are the parameters `isUrl`/`isEmail`, because those checks live in a library.
- `createdAt`/`updatedAt` (src/types/resume.ts:118-119) are not modelled. They are dates that no layout reads.
- `TemplateSection` (src/components/resume/templates/BaseTemplate.tsx:53-76) is not modelled. Neither layout uses it.
- React element keys, `target`/`rel` attributes, and the fixed neutral CSS (greys, borders, 35%/65% widths) are left out. Only style values that depend on the configuration or the print flag are kept.
- `isPreview` is accepted and passed on but never read by either layout. The model passes it and proves it has no effect.
- `sectionOrder` is stored and validated but never used to order sections. No reordering is modelled.
- `accentStyle` is validated but no layout reads it.
- The ATS, score and export type declarations (src/types/resume.ts:157-195) are not modelled. They carry no logic.
- The database layer (src/lib/db/) is not part of this model. It is I/O and persistence.
- Plain-object lookups in the font, size and spacing tables have the same inherited-name issue as the component table. The model keeps the corrected own-key lookup for them and records the issue once, for the component table.
- Professional1.ContactFields: states which fields appear, as text or with which captions; their relative order (phone, location, LinkedIn, GitHub, website) follows from the definition but is not a separate clause.
- Professional2.ContactEntries: states which entries appear, with which labels and values, and that the email comes first; the relative order of the other five follows from the definition but is not a separate clause.

## Findings

| source | as written | input that shows it | evidently intended | confidence | as-written member | corrected member |
|---|---|---|---|---|---|---|
| src/components/resume/templates/TemplateRenderer.tsx:41 | `TEMPLATE_COMPONENTS[id] \|\| Professional1Template` indexes a plain object, so names inherited from `Object.prototype` are truthy and skip the fallback | a resume whose `templateId` is `constructor` (the schema allows any string) | an id that is not a table key falls back to the first professional layout | not executed; medium | TemplateRenderer.InheritedKeyEscapesFallback | TemplateRenderer.ComponentFor |
