/** The shared helpers of `BaseTemplate.tsx`: three style lookup tables with a
    fallback key, and the two date formatters. */
module BaseTemplate {
  import opened Wrappers

  /** The three sizes `getFontSize` returns: body text, headings, sub-headings. */
  datatype FontSize = FontSize(base: string, heading: string, subheading: string)

  /** The two gaps `getSpacing` returns: between sections and between items. */
  datatype Spacing = Spacing(section: string, item: string)

  const Fonts: map<string, string> := map[
    "inter" := "Inter, sans-serif",
    "roboto" := "Roboto, sans-serif",
    "open-sans" := "Open Sans, sans-serif",
    "lato" := "Lato, sans-serif",
    "montserrat" := "Montserrat, sans-serif",
    "playfair" := "Playfair Display, serif"]

  const Sizes: map<string, FontSize> := map[
    "small" := FontSize("0.875rem", "1.25rem", "1rem"),
    "medium" := FontSize("1rem", "1.5rem", "1.125rem"),
    "large" := FontSize("1.125rem", "1.75rem", "1.25rem")]

  const Spacings: map<string, Spacing> := map[
    "compact" := Spacing("1rem", "0.5rem"),
    "normal" := Spacing("1.5rem", "0.75rem"),
    "relaxed" := Spacing("2rem", "1rem")]

  /** `getFontFamily`: the font stack of a known key, the `inter` stack otherwise. */
  function GetFontFamily(family: string): (stack: string)
    ensures family == "inter" ==> stack == "Inter, sans-serif"
    ensures family == "roboto" ==> stack == "Roboto, sans-serif"
    ensures family == "open-sans" ==> stack == "Open Sans, sans-serif"
    ensures family == "lato" ==> stack == "Lato, sans-serif"
    ensures family == "montserrat" ==> stack == "Montserrat, sans-serif"
    ensures family == "playfair" ==> stack == "Playfair Display, serif"
    ensures family !in Fonts ==> stack == "Inter, sans-serif"
  {
    if family in Fonts then Fonts[family] else Fonts["inter"]
  }

  /** `getFontSize`: the triple of a known key, the `medium` triple otherwise. */
  function GetFontSize(size: string): (s: FontSize)
    ensures size == "small" ==> s == FontSize("0.875rem", "1.25rem", "1rem")
    ensures size == "large" ==> s == FontSize("1.125rem", "1.75rem", "1.25rem")
    ensures size != "small" && size != "large" ==> s == FontSize("1rem", "1.5rem", "1.125rem")
  {
    if size in Sizes then Sizes[size] else Sizes["medium"]
  }

  /** `getSpacing`: the pair of a known key, the `normal` pair otherwise. */
  function GetSpacing(spacing: string): (s: Spacing)
    ensures spacing == "compact" ==> s == Spacing("1rem", "0.5rem")
    ensures spacing == "relaxed" ==> s == Spacing("2rem", "1rem")
    ensures spacing != "compact" && spacing != "relaxed" ==> s == Spacing("1.5rem", "0.75rem")
  {
    if spacing in Spacings then Spacings[spacing] else Spacings["normal"]
  }

  /** Every unrecognised key, the empty string included, resolves exactly as
      the designated default key does. */
  lemma UnknownKeysFallBack(key: string)
    ensures key !in Fonts ==> GetFontFamily(key) == GetFontFamily("inter")
    ensures key !in Sizes ==> GetFontSize(key) == GetFontSize("medium")
    ensures key !in Spacings ==> GetSpacing(key) == GetSpacing("normal")
    ensures GetFontFamily("") == "Inter, sans-serif"
  {
  }

  // ---------------------------------------------------------------------------
  // Reading the CSS lengths of the spacing table as numbers
  // ---------------------------------------------------------------------------

  /** `s` is a string of decimal digits. */
  predicate AllDigits(s: string) {
    |s| == 0 || ('0' <= s[0] <= '9' && AllDigits(s[1..]))
  }

  /** The value of `s` read as decimal digits. */
  function DigitsValue(s: string): int {
    if |s| == 0 then 0 else DigitsValue(s[..|s| - 1]) * 10 + (s[|s| - 1] as int - '0' as int)
  }

  /** The number of hundredths of a rem in a length written `<digits>rem`,
      `<digits>.<digit>rem` or `<digits>.<digit><digit>rem`; `None` for any other string. */
  function RemHundredths(css: string): Option<int> {
    if |css| < 4 || css[|css| - 3..] != "rem" then None
    else
      var num := css[..|css| - 3];
      if |num| >= 3 && num[|num| - 2] == '.' && AllDigits(num[..|num| - 2]) && AllDigits(num[|num| - 1..])
      then Some(DigitsValue(num[..|num| - 2]) * 100 + DigitsValue(num[|num| - 1..]) * 10)
      else if |num| >= 4 && num[|num| - 3] == '.' && AllDigits(num[..|num| - 3]) && AllDigits(num[|num| - 2..])
      then Some(DigitsValue(num[..|num| - 3]) * 100 + DigitsValue(num[|num| - 2..]))
      else if |num| > 0 && AllDigits(num) then Some(DigitsValue(num) * 100)
      else None
  }

  /** Both lengths read as rem values and `a` is the shorter one. */
  predicate Shorter(a: string, b: string) {
    RemHundredths(a).Some? && RemHundredths(b).Some? && RemHundredths(a).value < RemHundredths(b).value
  }

  /** `<d>rem` reads as `d` whole rems. */
  lemma RemWhole(d: char)
    requires '0' <= d <= '9'
    ensures RemHundredths([d] + "rem") == Some((d as int - '0' as int) * 100)
  {
    var css := [d] + "rem";
    assert css[|css| - 3..] == "rem";
    assert css[..|css| - 3] == [d];
    assert [d][1..] == [] && [d][..0] == [];
    assert AllDigits([d]) && DigitsValue([d]) == d as int - '0' as int;
  }

  /** `<d>.<f>rem` reads as `d` rems and `f` tenths. */
  lemma RemTenths(d: char, f: char)
    requires '0' <= d <= '9' && '0' <= f <= '9'
    ensures RemHundredths([d, '.', f] + "rem") == Some((d as int - '0' as int) * 100 + (f as int - '0' as int) * 10)
  {
    var css := [d, '.', f] + "rem";
    var num := [d, '.', f];
    assert css[|css| - 3..] == "rem";
    assert css[..|css| - 3] == num;
    assert num[..1] == [d] && num[2..] == [f];
    assert [d][1..] == [] && [d][..0] == [];
    assert [f][1..] == [] && [f][..0] == [];
    assert AllDigits([d]) && DigitsValue([d]) == d as int - '0' as int;
    assert AllDigits([f]) && DigitsValue([f]) == f as int - '0' as int;
  }

  /** `<d>.<f><g>rem` reads as `d` rems and `fg` hundredths. */
  lemma RemHundredthsOf(d: char, f: char, g: char)
    requires '0' <= d <= '9' && '0' <= f <= '9' && '0' <= g <= '9'
    ensures RemHundredths([d, '.', f, g] + "rem")
         == Some((d as int - '0' as int) * 100 + (f as int - '0' as int) * 10 + (g as int - '0' as int))
  {
    var css := [d, '.', f, g] + "rem";
    var num := [d, '.', f, g];
    assert css[|css| - 3..] == "rem";
    assert css[..|css| - 3] == num;
    assert num[|num| - 2] == f;
    assert num[..1] == [d] && num[2..] == [f, g];
    assert [d][1..] == [] && [d][..0] == [];
    assert [f, g][1..] == [g] && [g][1..] == [];
    assert [f, g][..1] == [f] && [f][..0] == [];
    assert AllDigits([d]) && DigitsValue([d]) == d as int - '0' as int;
    assert AllDigits([g]) && AllDigits([f, g]);
    assert DigitsValue([f]) == f as int - '0' as int;
    assert DigitsValue([f, g]) == (f as int - '0' as int) * 10 + (g as int - '0' as int);
  }

  /** The five lengths of the spacing table, read as hundredths of a rem. */
  lemma SpacingLengths()
    ensures RemHundredths("0.5rem") == Some(50)
    ensures RemHundredths("0.75rem") == Some(75)
    ensures RemHundredths("1rem") == Some(100)
    ensures RemHundredths("1.5rem") == Some(150)
    ensures RemHundredths("2rem") == Some(200)
  {
    WholeLengths();
    FractionalLengths();
  }

  /** `1rem` and `2rem` in hundredths of a rem. */
  lemma WholeLengths()
    ensures RemHundredths("1rem") == Some(100)
    ensures RemHundredths("2rem") == Some(200)
  {
    RemWhole('1');
    assert "1rem" == ['1'] + "rem";
    RemWhole('2');
    assert "2rem" == ['2'] + "rem";
  }

  /** `0.5rem`, `1.5rem` and `0.75rem` in hundredths of a rem. */
  lemma FractionalLengths()
    ensures RemHundredths("0.5rem") == Some(50)
    ensures RemHundredths("1.5rem") == Some(150)
    ensures RemHundredths("0.75rem") == Some(75)
  {
    RemTenths('0', '5');
    assert "0.5rem" == ['0', '.', '5'] + "rem";
    RemTenths('1', '5');
    assert "1.5rem" == ['1', '.', '5'] + "rem";
    RemHundredthsOf('0', '7', '5');
    assert "0.75rem" == ['0', '.', '7', '5'] + "rem";
  }


  /** In every spacing entry the section gap exceeds the item gap, and both
      gaps grow from `compact` to `normal` to `relaxed`. */
  lemma SpacingScaleOrdered()
    ensures forall k :: k in Spacings ==> Shorter(Spacings[k].item, Spacings[k].section)
    ensures Shorter(GetSpacing("compact").section, GetSpacing("normal").section)
    ensures Shorter(GetSpacing("normal").section, GetSpacing("relaxed").section)
    ensures Shorter(GetSpacing("compact").item, GetSpacing("normal").item)
    ensures Shorter(GetSpacing("normal").item, GetSpacing("relaxed").item)
  {
    SpacingLengths();
    assert Spacings.Keys == {"compact", "normal", "relaxed"};
  }

  // ---------------------------------------------------------------------------
  // Date formatting
  // ---------------------------------------------------------------------------

  /** `formatDate`: `"Present"` for a missing or empty date, the date unchanged otherwise. */
  function FormatDate(date: Option<string>): (s: string)
    ensures s != ""
    ensures Present(date) ==> s == date.value
    ensures !Present(date) ==> s == "Present"
  {
    if !Present(date) then "Present" else date.value
  }

  /** `formatDateRange`: both ends formatted independently, joined by `" - "`. */
  function FormatDateRange(start: Option<string>, end: Option<string>): (s: string)
    ensures |s| == |FormatDate(start)| + 3 + |FormatDate(end)|
    ensures s[..|FormatDate(start)|] == FormatDate(start)
    ensures s[|FormatDate(start)|..|FormatDate(start)| + 3] == " - "
    ensures s[|FormatDate(start)| + 3..] == FormatDate(end)
  {
    FormatDate(start) + " - " + FormatDate(end)
  }

  /** No dates at all read `"Present - Present"`; two dates read as written. */
  lemma DateRangeExamples()
    ensures FormatDate(None) == FormatDate(Some("")) == "Present"
    ensures FormatDate(Some("2020-01")) == "2020-01"
    ensures FormatDateRange(None, None) == "Present - Present"
    ensures FormatDateRange(Some("2019"), Some("2021")) == "2019 - 2021"
  {
  }
}
