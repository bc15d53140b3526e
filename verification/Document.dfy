/** The abstract document a template renders: what the JSX tree shows, without
    element keys, link targets/rel attributes or fixed neutral CSS.

    A document is a style plus columns; a column is a list of blocks; a block
    is the name header or a titled section; a section lists items (one per
    entry, the `div` that `.map` produces); an item is a list of lines (the
    inner `div`s); a line is a list of text and link nodes. */
module Document {
  import opened Wrappers
  import opened BaseTemplate
  import opened ResumeTypes
  import opened Sequences

  datatype Node = Text(s: string) | Link(href: string, caption: string)

  type Line = seq<Node>

  type Item = seq<Line>

  datatype Block =
    | Header(name: string, items: seq<Item>)
    | Section(title: string, items: seq<Item>)

  /** The page geometry a template switches on `isPrint`. */
  datatype Page =
    | Padded(maxWidth: string, padding: string)
    | FullHeight(maxWidth: string, minHeight: string)

  /** Every configurable style value a template uses. */
  datatype Style = Style(
    fontFamily: string,
    fontSize: FontSize,
    spacing: Spacing,
    primaryColor: string,
    secondaryColor: string,
    page: Page)

  datatype Doc = Doc(style: Style, columns: seq<seq<Block>>)

  /** The style a template computes from `config`: the font, size and spacing
      keys go through the resolvers (falling back to `inter`, `medium` and
      `normal` when falsy), each colour is the config's when truthy and the
      template's own default otherwise. */
  function ConfiguredStyle(config: Option<TemplateConfig>, primary: string, secondary: string, page: Page): Style {
    Style(
      GetFontFamily(Or(Get(config, FontFamilyKey), "inter")),
      GetFontSize(Or(Get(config, FontSizeKey), "medium")),
      GetSpacing(Or(Get(config, SpacingKey), "normal")),
      Or(Get(config, PrimaryColorKey), primary),
      Or(Get(config, SecondaryColorKey), secondary),
      page)
  }

  /** How a template resolves its style: a truthy config field goes through
      its resolver, a falsy or missing one takes the default key or the
      template's own colour; the page box is the template's. */
  predicate ResolvedStyle(s: Style, config: Option<TemplateConfig>, primary: string, secondary: string, page: Page) {
    && (Present(Get(config, FontFamilyKey)) ==> s.fontFamily == GetFontFamily(Get(config, FontFamilyKey).value))
    && (!Present(Get(config, FontFamilyKey)) ==> s.fontFamily == GetFontFamily("inter"))
    && (Present(Get(config, FontSizeKey)) ==> s.fontSize == GetFontSize(Get(config, FontSizeKey).value))
    && (!Present(Get(config, FontSizeKey)) ==> s.fontSize == GetFontSize("medium"))
    && (Present(Get(config, SpacingKey)) ==> s.spacing == GetSpacing(Get(config, SpacingKey).value))
    && (!Present(Get(config, SpacingKey)) ==> s.spacing == GetSpacing("normal"))
    && (Present(Get(config, PrimaryColorKey)) ==> s.primaryColor == Get(config, PrimaryColorKey).value)
    && (!Present(Get(config, PrimaryColorKey)) ==> s.primaryColor == primary)
    && (Present(Get(config, SecondaryColorKey)) ==> s.secondaryColor == Get(config, SecondaryColorKey).value)
    && (!Present(Get(config, SecondaryColorKey)) ==> s.secondaryColor == secondary)
    && s.page == page
  }

  /** Under a present config, each of its truthy fields decides its style value. */
  lemma ExplicitFieldsWin(s: Style, c: TemplateConfig, primary: string, secondary: string, page: Page)
    requires ResolvedStyle(s, Some(c), primary, secondary, page)
    ensures Present(c.primaryColor) ==> s.primaryColor == c.primaryColor.value
    ensures Present(c.secondaryColor) ==> s.secondaryColor == c.secondaryColor.value
    ensures Present(c.fontFamily) ==> s.fontFamily == GetFontFamily(c.fontFamily.value)
    ensures Present(c.fontSize) ==> s.fontSize == GetFontSize(c.fontSize.value)
    ensures Present(c.spacing) ==> s.spacing == GetSpacing(c.spacing.value)
  {
  }

  /** A truthy config field decides its style value; without a config every
      value is a default, whatever the resolvers' fallback keys give. */
  lemma ConfiguredStyleFields(config: Option<TemplateConfig>, primary: string, secondary: string, page: Page)
    ensures ResolvedStyle(ConfiguredStyle(config, primary, secondary, page), config, primary, secondary, page)
    ensures ConfiguredStyle(None, primary, secondary, page)
         == Style("Inter, sans-serif", FontSize("1rem", "1.5rem", "1.125rem"), Spacing("1.5rem", "0.75rem"),
                  primary, secondary, page)
  {
  }

  /** `accentStyle` is never read, and a config whose fields are all missing
      or `""` styles exactly as no config at all. */
  lemma ConfiguredStyleIgnores(c: TemplateConfig, accent: Option<string>, primary: string, secondary: string, page: Page)
    ensures ConfiguredStyle(Some(c.(accentStyle := accent)), primary, secondary, page)
         == ConfiguredStyle(Some(c), primary, secondary, page)
    ensures (forall key: ConfigKey :: !Present(Get(Some(c), key)))
         ==> ConfiguredStyle(Some(c), primary, secondary, page) == ConfiguredStyle(None, primary, secondary, page)
  {
    if forall key: ConfigKey :: !Present(Get(Some(c), key)) {
      assert !Present(Get(Some(c), FontFamilyKey)) && !Present(Get(Some(c), FontSizeKey));
      assert !Present(Get(Some(c), SpacingKey)) && !Present(Get(Some(c), PrimaryColorKey));
      assert !Present(Get(Some(c), SecondaryColorKey));
    }
  }

  /** The text a node shows: a link shows its caption. */
  function NodeText(n: Node): string {
    match n
    case Text(s) => s
    case Link(_, caption) => caption
  }

  /** The text of a line, its nodes' texts side by side. */
  function LineText(l: Line): string {
    if |l| == 0 then "" else NodeText(l[0]) + LineText(l[1..])
  }

  /** The text of two lines written one after the other. */
  lemma {:induction false} LineTextAppend(a: Line, b: Line)
    ensures LineText(a + b) == LineText(a) + LineText(b)
  {
    if |a| > 0 {
      assert (a + b)[0] == a[0];
      assert (a + b)[1..] == a[1..] + b;
      LineTextAppend(a[1..], b);
    } else {
      assert a + b == b;
    }
  }

  /** The text of a line of two nodes. */
  lemma LineTextPair(x: Node, y: Node)
    ensures LineText([x, y]) == NodeText(x) + NodeText(y)
  {
    assert [y][1..] == [];
    assert LineText([y]) == NodeText(y);
    assert [x, y][1..] == [y];
  }

  /** `{o && `${prefix}${o}`}`: one text node when `o` is truthy, nothing otherwise. */
  function Suffix(o: Option<string>, prefix: string): Line {
    if Present(o) then [Text(prefix + o.value)] else []
  }

  /** `{o && <a href={o}>{caption}</a>}`. */
  function LinkIf(o: Option<string>, caption: string): Line {
    if Present(o) then [Link(o.value, caption)] else []
  }

  /** `{o && <div>{o}</div>}`: a line of its own when `o` is truthy. */
  function LineIf(o: Option<string>): seq<Line> {
    if Present(o) then [[Text(o.value)]] else []
  }

  /** `xs.map(f)`: one item per entry, in the entries' order. */
  function MapItems<T>(f: T -> Item, xs: seq<T>): (items: seq<Item>)
    ensures |items| == |xs|
    ensures forall i :: 0 <= i < |xs| ==> items[i] == f(xs[i])
  {
    if |xs| == 0 then [] else [f(xs[0])] + MapItems(f, xs[1..])
  }

  /** `{cond && <section/>}` for a list of candidates: the blocks whose
      condition holds, in the candidates' order. */
  function Keep(candidates: seq<(bool, Block)>): (blocks: seq<Block>)
    ensures |blocks| <= |candidates|
    ensures forall b :: b in blocks ==> exists k :: 0 <= k < |candidates| && candidates[k].0 && candidates[k].1 == b
  {
    if |candidates| == 0 then []
    else (if candidates[0].0 then [candidates[0].1] else []) + Keep(candidates[1..])
  }

  /** The heading a block shows: the name for the header, the title for a section. */
  function Heading(b: Block): string {
    match b
    case Header(name, _) => name
    case Section(title, _) => title
  }

  function Headings(blocks: seq<Block>): seq<string> {
    seq(|blocks|, i requires 0 <= i < |blocks| => Heading(blocks[i]))
  }

  function Candidates(candidates: seq<(bool, Block)>): seq<Block> {
    seq(|candidates|, i requires 0 <= i < |candidates| => candidates[i].1)
  }

  /** Keeping candidates never reorders them. */
  lemma {:induction false} KeepPreservesOrder(candidates: seq<(bool, Block)>)
    ensures IsSubsequence(Headings(Keep(candidates)), Headings(Candidates(candidates)))
  {
    if |candidates| > 0 {
      var rest := candidates[1..];
      KeepPreservesOrder(rest);
      assert Candidates(candidates)[1..] == Candidates(rest);
      assert Headings(Candidates(candidates))[1..] == Headings(Candidates(rest));
      if candidates[0].0 {
        assert Keep(candidates) == [candidates[0].1] + Keep(rest);
        assert Headings(Keep(candidates))[1..] == Headings(Keep(rest));
      } else {
        assert Keep(candidates) == Keep(rest);
      }
    }
  }

  /** `titles` names no heading twice. */
  predicate Distinct(titles: seq<string>) {
    forall i, j :: 0 <= i < j < |titles| ==> titles[i] != titles[j]
  }

  /** Candidate `k` is a section titled `titles[k]`. */
  predicate Titled(candidates: seq<(bool, Block)>, titles: seq<string>) {
    && |candidates| == |titles|
    && forall k :: 0 <= k < |candidates| ==> candidates[k].1.Section? && candidates[k].1.title == titles[k]
  }

  /** Kept sections are sections, and their headings follow the candidates' titles in order. */
  lemma KeepTitled(candidates: seq<(bool, Block)>, titles: seq<string>)
    requires Titled(candidates, titles)
    ensures forall b :: b in Keep(candidates) ==> b.Section?
    ensures IsSubsequence(Headings(Keep(candidates)), titles)
  {
    KeepPreservesOrder(candidates);
    assert Headings(Candidates(candidates)) == titles;
  }

  /** Every kept block is a section bearing one of the candidates' titles. */
  lemma KeptTitles(candidates: seq<(bool, Block)>, titles: seq<string>)
    requires Titled(candidates, titles)
    ensures forall b :: b in Keep(candidates) ==> b.Section? && b.title in titles
  {
    forall b | b in Keep(candidates) ensures b.Section? && b.title in titles {
      var k :| 0 <= k < |candidates| && candidates[k].0 && candidates[k].1 == b;
      assert b.title == titles[k];
    }
  }

  /** The first section titled `t`, if any. */
  function FindSection(blocks: seq<Block>, t: string): (r: Option<Block>)
    ensures r.Some? ==> r.value in blocks && r.value.Section? && r.value.title == t
    ensures r.None? <==> forall b :: b in blocks ==> !(b.Section? && b.title == t)
  {
    if |blocks| == 0 then None
    else if blocks[0].Section? && blocks[0].title == t then Some(blocks[0])
    else FindSection(blocks[1..], t)
  }

  /** When exactly one candidate is a section titled `t`, that section is
      found in the kept blocks exactly when its condition holds. */
  lemma {:induction false} FindKept(candidates: seq<(bool, Block)>, k: nat, t: string)
    requires k < |candidates| && candidates[k].1.Section? && candidates[k].1.title == t
    requires forall j :: 0 <= j < |candidates| && j != k ==> !(candidates[j].1.Section? && candidates[j].1.title == t)
    ensures FindSection(Keep(candidates), t) == if candidates[k].0 then Some(candidates[k].1) else None
  {
    var rest := candidates[1..];
    if k == 0 {
      assert forall j :: 0 <= j < |rest| ==> !(rest[j].1.Section? && rest[j].1.title == t) by {
        forall j | 0 <= j < |rest| ensures !(rest[j].1.Section? && rest[j].1.title == t) {
          assert rest[j] == candidates[j + 1];
        }
      }
      if candidates[0].0 {
        assert Keep(candidates) == [candidates[0].1] + Keep(rest);
      } else {
        assert Keep(candidates) == Keep(rest);
        assert FindSection(Keep(rest), t).None?;
      }
    } else {
      forall j | 0 <= j < |rest| && j != k - 1
        ensures !(rest[j].1.Section? && rest[j].1.title == t)
      {
        assert rest[j] == candidates[j + 1];
      }
      FindKept(rest, k - 1, t);
      if candidates[0].0 {
        assert Keep(candidates) == [candidates[0].1] + Keep(rest);
        assert !(candidates[0].1.Section? && candidates[0].1.title == t);
        assert Keep(candidates)[1..] == Keep(rest);
      } else {
        assert Keep(candidates) == Keep(rest);
      }
    }
  }

  /** With distinct titles, the section titled `titles[k]` is shown exactly
      when candidate `k`'s condition holds, and it is that candidate's section. */
  lemma FindTitled(candidates: seq<(bool, Block)>, titles: seq<string>, k: nat)
    requires Titled(candidates, titles) && Distinct(titles) && k < |titles|
    ensures FindSection(Keep(candidates), titles[k]) == if candidates[k].0 then Some(candidates[k].1) else None
  {
    forall j | 0 <= j < |candidates| && j != k
      ensures !(candidates[j].1.Section? && candidates[j].1.title == titles[k])
    {
      if j < k { assert titles[j] != titles[k]; } else { assert titles[k] != titles[j]; }
    }
    FindKept(candidates, k, titles[k]);
  }

  /** A header in front of the sections is never found as a section. */
  lemma FindAfterHeader(h: Block, blocks: seq<Block>, t: string)
    requires h.Header?
    ensures FindSection([h] + blocks, t) == FindSection(blocks, t)
  {
    assert ([h] + blocks)[1..] == blocks;
  }

  /** Some column of the document shows a section titled `t`. */
  predicate ShowsSection(d: Doc, t: string) {
    exists col :: col in d.columns && FindSection(col, t).Some?
  }

  /** In a document of one or two columns, a section is shown exactly when
      one of those columns has it. */
  lemma ShowsSectionColumns(d: Doc, t: string)
    requires 1 <= |d.columns| <= 2
    ensures ShowsSection(d, t) <==> FindSection(d.columns[0], t).Some?
                                    || (|d.columns| == 2 && FindSection(d.columns[1], t).Some?)
  {
    if FindSection(d.columns[0], t).Some? {
      assert d.columns[0] in d.columns;
    }
    if |d.columns| == 2 && FindSection(d.columns[1], t).Some? {
      assert d.columns[1] in d.columns;
    }
  }

  // ---------------------------------------------------------------------------
  // Where a node occurs
  // ---------------------------------------------------------------------------

  predicate InItem(n: Node, it: Item) {
    exists l :: l in it && n in l
  }

  predicate InBlock(n: Node, b: Block) {
    exists it :: it in b.items && InItem(n, it)
  }

  predicate InColumn(n: Node, col: seq<Block>) {
    exists b :: b in col && InBlock(n, b)
  }

  predicate InDoc(n: Node, d: Doc) {
    exists col :: col in d.columns && InColumn(n, col)
  }

  /** A node in a mapped section comes from one entry's item. */
  lemma NodeOfMappedItem<T>(n: Node, f: T -> Item, xs: seq<T>, b: Block)
    requires b.items == MapItems(f, xs) && InBlock(n, b)
    ensures exists i :: 0 <= i < |xs| && InItem(n, f(xs[i]))
  {
    var it :| it in b.items && InItem(n, it);
    var i :| 0 <= i < |b.items| && b.items[i] == it;
  }
}
