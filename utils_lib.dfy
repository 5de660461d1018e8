/**
 * The pure helpers of the tools' utility library: HTML escaping, version
 * labels, the check-state conversions and the folder icon-name fallbacks.
 */
module UtilsLib {
  import opened Wrappers
  import opened Text

  // ---------------------------------------------------------------------
  // html_escape

  /** `s.replace(c, rep)` for a one-character pattern. */
  function ReplaceChar(s: string, c: char, rep: string): string
  {
    if s == [] then [] else (if s[0] == c then rep else [s[0]]) + ReplaceChar(s[1..], c, rep)
  }

  /** The five chained `str.replace` calls of `html_escape`, ampersand first. */
  function HtmlEscape(text: string): string
  {
    ReplaceChar(ReplaceChar(ReplaceChar(ReplaceChar(ReplaceChar(
      text, '&', "&amp;"), '<', "&lt;"), '>', "&gt;"), '"', "&quot;"), '\'', "&#x27;")
  }

  predicate IsMarkup(c: char) { c == '<' || c == '>' || c == '"' || c == '\'' }

  predicate IsSpecial(c: char) { c == '&' || IsMarkup(c) }

  /** Reference definition: the entity of one character, or the character itself. */
  function EscapeChar(c: char): (r: string)
    ensures |r| >= 1
    ensures forall i :: 0 <= i < |r| ==> !IsMarkup(r[i])
  {
    match c
    case '&' => "&amp;"
    case '<' => "&lt;"
    case '>' => "&gt;"
    case '"' => "&quot;"
    case '\'' => "&#x27;"
    case _ => [c]
  }

  /** Reference definition: every character escaped once, in a single pass. */
  function EscapeEach(s: string): string
  {
    if s == [] then [] else EscapeChar(s[0]) + EscapeEach(s[1..])
  }

  /** The inverse of escaping: the five entities back to their characters. */
  function HtmlUnescape(t: string): string
    decreases |t|
  {
    if t == [] then []
    else if |t| >= 5 && t[..5] == "&amp;" then "&" + HtmlUnescape(t[5..])
    else if |t| >= 4 && t[..4] == "&lt;" then "<" + HtmlUnescape(t[4..])
    else if |t| >= 4 && t[..4] == "&gt;" then ">" + HtmlUnescape(t[4..])
    else if |t| >= 6 && t[..6] == "&quot;" then "\"" + HtmlUnescape(t[6..])
    else if |t| >= 6 && t[..6] == "&#x27;" then "'" + HtmlUnescape(t[6..])
    else [t[0]] + HtmlUnescape(t[1..])
  }

  lemma {:induction false} ReplaceCharAppend(a: string, b: string, c: char, rep: string)
    ensures ReplaceChar(a + b, c, rep) == ReplaceChar(a, c, rep) + ReplaceChar(b, c, rep)
  {
    if a != [] {
      assert (a + b)[1..] == a[1..] + b;
      ReplaceCharAppend(a[1..], b, c, rep);
    } else {
      assert a + b == b;
    }
  }

  lemma HtmlEscapeAppend(a: string, b: string)
    ensures HtmlEscape(a + b) == HtmlEscape(a) + HtmlEscape(b)
  {
    var a1, b1 := ReplaceChar(a, '&', "&amp;"), ReplaceChar(b, '&', "&amp;");
    ReplaceCharAppend(a, b, '&', "&amp;");
    var a2, b2 := ReplaceChar(a1, '<', "&lt;"), ReplaceChar(b1, '<', "&lt;");
    ReplaceCharAppend(a1, b1, '<', "&lt;");
    var a3, b3 := ReplaceChar(a2, '>', "&gt;"), ReplaceChar(b2, '>', "&gt;");
    ReplaceCharAppend(a2, b2, '>', "&gt;");
    var a4, b4 := ReplaceChar(a3, '"', "&quot;"), ReplaceChar(b3, '"', "&quot;");
    ReplaceCharAppend(a3, b3, '"', "&quot;");
    ReplaceCharAppend(a4, b4, '\'', "&#x27;");
  }

  /** A string none of whose characters is `c` is left alone by replacing `c`. */
  lemma {:induction false} ReplaceCharAbsent(s: string, c: char, rep: string)
    requires forall i :: 0 <= i < |s| ==> s[i] != c
    ensures ReplaceChar(s, c, rep) == s
  {
    if s != [] {
      ReplaceCharAbsent(s[1..], c, rep);
    }
  }

  lemma ReplaceCharOne(x: char, c: char, rep: string)
    ensures ReplaceChar([x], c, rep) == if x == c then rep else [x]
  {
    assert [x][1..] == [];
  }

  /** The last four replacements leave a string without markup characters alone. */
  lemma MarkupFreeUnchanged(t: string)
    requires forall i :: 0 <= i < |t| ==> !IsMarkup(t[i])
    ensures ReplaceChar(ReplaceChar(ReplaceChar(ReplaceChar(
              t, '<', "&lt;"), '>', "&gt;"), '"', "&quot;"), '\'', "&#x27;") == t
  {
    ReplaceCharAbsent(t, '<', "&lt;");
    ReplaceCharAbsent(t, '>', "&gt;");
    ReplaceCharAbsent(t, '"', "&quot;");
    ReplaceCharAbsent(t, '\'', "&#x27;");
  }

  /** The last four replacements leave an entity of `&` alone. */
  lemma EscapeOneAmp(c: char)
    requires c == '&'
    ensures HtmlEscape([c]) == "&amp;"
  {
    ReplaceCharOne(c, '&', "&amp;");
    MarkupFreeUnchanged(EscapeChar(c));
  }

  lemma EscapeOneLt(c: char)
    requires c == '<'
    ensures HtmlEscape([c]) == "&lt;"
  {
    ReplaceCharOne(c, '&', "&amp;");
    ReplaceCharOne(c, '<', "&lt;");
    var t2 := EscapeChar(c);
    ReplaceCharAbsent(t2, '>', "&gt;");
    ReplaceCharAbsent(t2, '"', "&quot;");
    ReplaceCharAbsent(t2, '\'', "&#x27;");
  }

  lemma EscapeOneGt(c: char)
    requires c == '>'
    ensures HtmlEscape([c]) == "&gt;"
  {
    ReplaceCharOne(c, '&', "&amp;");
    ReplaceCharOne(c, '<', "&lt;");
    ReplaceCharOne(c, '>', "&gt;");
    var t3 := EscapeChar(c);
    ReplaceCharAbsent(t3, '"', "&quot;");
    ReplaceCharAbsent(t3, '\'', "&#x27;");
  }

  lemma EscapeOneQuot(c: char)
    requires c == '"'
    ensures HtmlEscape([c]) == "&quot;"
  {
    ReplaceCharOne(c, '&', "&amp;");
    ReplaceCharOne(c, '<', "&lt;");
    ReplaceCharOne(c, '>', "&gt;");
    ReplaceCharOne(c, '"', "&quot;");
    ReplaceCharAbsent(EscapeChar(c), '\'', "&#x27;");
  }

  lemma EscapeOneOther(c: char)
    requires c != '&' && c != '<' && c != '>' && c != '"'
    ensures HtmlEscape([c]) == if c == '\'' then "&#x27;" else [c]
  {
    ReplaceCharOne(c, '&', "&amp;");
    ReplaceCharOne(c, '<', "&lt;");
    ReplaceCharOne(c, '>', "&gt;");
    ReplaceCharOne(c, '"', "&quot;");
    ReplaceCharOne(c, '\'', "&#x27;");
  }

  lemma HtmlEscapeOneChar(c: char)
    ensures HtmlEscape([c]) == EscapeChar(c)
  {
    if c == '&' {
      EscapeOneAmp(c);
    } else if c == '<' {
      EscapeOneLt(c);
    } else if c == '>' {
      EscapeOneGt(c);
    } else if c == '"' {
      EscapeOneQuot(c);
    } else {
      EscapeOneOther(c);
    }
  }

  /**
   * Because `&` is replaced first, the ampersands that the later
   * replacements introduce are never escaped again: the chain of five
   * replacements equals escaping every character exactly once.
   */
  lemma {:induction false} HtmlEscapeIsSinglePass(s: string)
    ensures HtmlEscape(s) == EscapeEach(s)
  {
    if s != [] {
      assert s == [s[0]] + s[1..];
      HtmlEscapeAppend([s[0]], s[1..]);
      HtmlEscapeOneChar(s[0]);
      HtmlEscapeIsSinglePass(s[1..]);
    }
  }

  lemma {:induction false} EscapeEachProperties(s: string)
    ensures |EscapeEach(s)| >= |s|
    ensures forall i :: 0 <= i < |EscapeEach(s)| ==> !IsMarkup(EscapeEach(s)[i])
    ensures (forall i :: 0 <= i < |s| ==> !IsSpecial(s[i])) ==> EscapeEach(s) == s
  {
    if s != [] {
      EscapeEachProperties(s[1..]);
      var h, t := EscapeChar(s[0]), EscapeEach(s[1..]);
      assert EscapeEach(s) == h + t;
      forall i | 0 <= i < |h + t| ensures !IsMarkup((h + t)[i]) {
        if i >= |h| { assert (h + t)[i] == t[i - |h|]; }
      }
      if forall i :: 0 <= i < |s| ==> !IsSpecial(s[i]) {
        assert !IsSpecial(s[0]);
        assert forall i :: 0 <= i < |s[1..]| ==> !IsSpecial(s[1..][i]) by {
          forall i | 0 <= i < |s[1..]| ensures !IsSpecial(s[1..][i]) { assert s[1..][i] == s[i + 1]; }
        }
        assert s == [s[0]] + s[1..];
      }
    }
  }

  /** The output of `html_escape` holds no `<`, `>`, `"` or `'`, and is never shorter than the input. */
  lemma HtmlEscapeRemovesMarkup(text: string)
    ensures |HtmlEscape(text)| >= |text|
    ensures forall i :: 0 <= i < |HtmlEscape(text)| ==> !IsMarkup(HtmlEscape(text)[i])
  {
    HtmlEscapeIsSinglePass(text);
    EscapeEachProperties(text);
  }

  /** Text without any of the five special characters comes back unchanged. */
  lemma HtmlEscapePlainText(text: string)
    requires forall i :: 0 <= i < |text| ==> !IsSpecial(text[i])
    ensures HtmlEscape(text) == text
  {
    HtmlEscapeIsSinglePass(text);
    EscapeEachProperties(text);
  }

  /**
   * Unescaping reads one entity at the front back as its character: the
   * entity is the prefix the matching branch of `HtmlUnescape` tests, and
   * no earlier branch matches, since the entities differ in their second
   * character.
   */
  lemma UnescapeEntity(c: char, rest: string)
    requires IsSpecial(c)
    ensures HtmlUnescape(EscapeChar(c) + rest) == [c] + HtmlUnescape(rest)
  {
    var e := EscapeChar(c);
    var t := e + rest;
    assert t[..|e|] == e && t[|e|..] == rest;
    assert t[1] == e[1];
  }

  lemma UnescapePlain(c: char, rest: string)
    requires !IsSpecial(c)
    ensures HtmlUnescape([c] + rest) == [c] + HtmlUnescape(rest)
  {
    var t := [c] + rest;
    assert t[0] == c && t[1..] == rest;
    forall k | 4 <= k <= 6 && k <= |t|
      ensures t[..k][0] == c
    {
    }
  }

  /** Unescaping undoes one escaped character at the front. */
  lemma UnescapeOne(c: char, rest: string)
    ensures HtmlUnescape(EscapeChar(c) + rest) == [c] + HtmlUnescape(rest)
  {
    if IsSpecial(c) {
      UnescapeEntity(c, rest);
    } else {
      UnescapePlain(c, rest);
    }
  }

  lemma {:induction false} UnescapeEscapeEach(s: string)
    ensures HtmlUnescape(EscapeEach(s)) == s
  {
    if s != [] {
      UnescapeOne(s[0], EscapeEach(s[1..]));
      UnescapeEscapeEach(s[1..]);
      assert s == [s[0]] + s[1..];
    }
  }

  /** Escaping loses nothing: unescaping the output of `html_escape` gives the input back. */
  lemma HtmlEscapeRoundTrip(text: string)
    ensures HtmlUnescape(HtmlEscape(text)) == text
  {
    HtmlEscapeIsSinglePass(text);
    UnescapeEscapeEach(text);
  }

  // ---------------------------------------------------------------------
  // format_version

  /** Left-pad a digit string with zeros to `width` characters. */
  function ZeroPad(digits: string, width: nat): (r: string)
  {
    if |digits| >= width then digits else Zeros(width - |digits|) + digits
  }

  /** Python's `"{0:03d}".format(value)`: the sign counts towards the width of three. */
  function Format03d(value: int): string
  {
    if value >= 0 then ZeroPad(NatStr(value), 3) else "-" + ZeroPad(NatStr(-value), 2)
  }

  /** `format_version(value, hero_version)` */
  function FormatVersion(value: int, heroVersion: bool): string
  {
    var tag := "v" + Format03d(value);
    if !heroVersion then tag else "[" + tag + "]"
  }

  lemma ZeroPadReadsBack(digits: string, width: nat)
    requires forall i :: 0 <= i < |digits| ==> IsDigit(digits[i])
    ensures |ZeroPad(digits, width)| == if |digits| >= width then |digits| else width
    ensures forall i :: 0 <= i < |ZeroPad(digits, width)| ==> IsDigit(ZeroPad(digits, width)[i])
    ensures DigitsValue(ZeroPad(digits, width)) == DigitsValue(digits)
  {
    if |digits| < width {
      DigitsValueLeadingZeros(width - |digits|, digits);
    }
  }

  /** The label around the zero-padded number. */
  lemma FormatVersionTag(value: int, heroVersion: bool)
    ensures FormatVersion(value, heroVersion)
            == if heroVersion then "[v" + Format03d(value) + "]" else "v" + Format03d(value)
  {
  }

  /** The zero-padded decimal digits of `n` read back as `n`. */
  lemma PaddedNatStr(n: nat, width: nat)
    ensures var digits := ZeroPad(NatStr(n), width);
      && |digits| == (if |NatStr(n)| >= width then |NatStr(n)| else width)
      && (forall i :: 0 <= i < |digits| ==> IsDigit(digits[i]))
      && DigitsValue(digits) == n
  {
    ZeroPadReadsBack(NatStr(n), width);
    NatStrValue(n);
  }

  /**
   * For a non-negative version the label is `v` followed by at least three
   * decimal digits (exactly three unless the number needs more) that read
   * back as the number; a hero version wraps that label in brackets.
   */
  lemma FormatVersionNonNegative(value: nat, heroVersion: bool)
    ensures var digits := ZeroPad(NatStr(value), 3);
      && FormatVersion(value, heroVersion) == (if heroVersion then "[v" + digits + "]" else "v" + digits)
      && |digits| == (if |NatStr(value)| >= 3 then |NatStr(value)| else 3)
      && (forall i :: 0 <= i < |digits| ==> IsDigit(digits[i]))
      && DigitsValue(digits) == value
  {
    FormatVersionTag(value, heroVersion);
    PaddedNatStr(value, 3);
  }

  /** A negative version keeps its sign after the `v`, then at least two digits of its magnitude. */
  lemma FormatVersionNegative(value: int, heroVersion: bool)
    requires value < 0
    ensures var digits := ZeroPad(NatStr(-value), 2);
      && FormatVersion(value, heroVersion) == (if heroVersion then "[v-" + digits + "]" else "v-" + digits)
      && |digits| >= 2
      && (forall i :: 0 <= i < |digits| ==> IsDigit(digits[i]))
      && DigitsValue(digits) == -value
  {
    NegativeLabel(value, heroVersion);
    PaddedNatStr(-value, 2);
  }

  /** The label of a negative version: the sign, then the magnitude padded to two digits. */
  lemma NegativeLabel(value: int, heroVersion: bool)
    requires value < 0
    ensures var digits := ZeroPad(NatStr(-value), 2);
      FormatVersion(value, heroVersion) == (if heroVersion then "[v-" + digits + "]" else "v-" + digits)
  {
    var digits := ZeroPad(NatStr(-value), 2);
    FormatVersionTag(value, heroVersion);
    assert Format03d(value) == "-" + digits;
    assert "v" + ("-" + digits) == "v-" + digits;
    assert "[v" + ("-" + digits) + "]" == "[v-" + digits + "]";
  }

  // ---------------------------------------------------------------------
  // checkstate_int_to_enum / checkstate_enum_to_int

  /** Qt's check states; the enum members are opaque values. */
  datatype CheckState = Unchecked | PartiallyChecked | Checked

  /** What the conversions receive: a Python int or a Qt enum member. */
  datatype StateValue = IntValue(n: int) | EnumValue(state: CheckState)

  /** The integer values of Qt's check states (`UNCHECKED_INT`, `CHECKED_INT`). */
  const UNCHECKED_INT: int := 0
  const PARTIALLY_CHECKED_INT: int := 1
  const CHECKED_INT: int := 2

  /** `checkstate_int_to_enum` */
  function CheckStateIntToEnum(v: StateValue): StateValue
  {
    if !v.IntValue? then v
    else if v.n == CHECKED_INT then EnumValue(Checked)
    else if v.n == UNCHECKED_INT then EnumValue(Unchecked)
    else EnumValue(PartiallyChecked)
  }

  /** Non-ints pass through; `CHECKED_INT` and `UNCHECKED_INT` map to their states, any other int to partially checked. */
  lemma CheckStateIntToEnumCases(v: StateValue)
    ensures !v.IntValue? ==> CheckStateIntToEnum(v) == v
    ensures v.IntValue? ==> CheckStateIntToEnum(v).EnumValue?
    ensures v.IntValue? ==> (CheckStateIntToEnum(v).state == Checked <==> v.n == CHECKED_INT)
    ensures v.IntValue? ==> (CheckStateIntToEnum(v).state == Unchecked <==> v.n == UNCHECKED_INT)
    ensures v.IntValue? ==> (CheckStateIntToEnum(v).state == PartiallyChecked <==> v.n != CHECKED_INT && v.n != UNCHECKED_INT)
  {
  }

  /** `checkstate_enum_to_int` as written: Checked gives 0, PartiallyChecked 1, anything else 2. */
  function CheckStateEnumToIntAsWritten(v: StateValue): (r: StateValue)
    ensures r.IntValue?
    ensures v.IntValue? ==> r == v
    ensures v == EnumValue(Checked) ==> r == IntValue(0)
    ensures v == EnumValue(PartiallyChecked) ==> r == IntValue(1)
    ensures v == EnumValue(Unchecked) ==> r == IntValue(2)
  {
    if v.IntValue? then v
    else if v.state == Checked then IntValue(0)
    else if v.state == PartiallyChecked then IntValue(1)
    else IntValue(2)
  }

  /** As written, a checked state converted to int and back comes back unchecked. */
  lemma CheckStateAsWrittenRoundTripFails()
    ensures CheckStateIntToEnum(CheckStateEnumToIntAsWritten(EnumValue(Checked))) == EnumValue(Unchecked)
    ensures CheckStateIntToEnum(CheckStateEnumToIntAsWritten(EnumValue(Unchecked))) == EnumValue(Checked)
  {
  }

  /** `checkstate_enum_to_int` using Qt's integer values, the inverse of `checkstate_int_to_enum`. */
  function CheckStateEnumToInt(v: StateValue): (r: StateValue)
    ensures r.IntValue?
    ensures v.IntValue? ==> r == v
    ensures v.EnumValue? ==> (r.n == CHECKED_INT <==> v.state == Checked)
    ensures v.EnumValue? ==> (r.n == UNCHECKED_INT <==> v.state == Unchecked)
  {
    match v
    case IntValue(_) => v
    case EnumValue(Checked) => IntValue(CHECKED_INT)
    case EnumValue(PartiallyChecked) => IntValue(PARTIALLY_CHECKED_INT)
    case EnumValue(Unchecked) => IntValue(UNCHECKED_INT)
  }

  /** Enum to int and back is the identity, and so is int to enum and back for the three Qt values. */
  lemma CheckStateRoundTrip(s: CheckState, n: int)
    ensures CheckStateIntToEnum(CheckStateEnumToInt(EnumValue(s))) == EnumValue(s)
    ensures n in {UNCHECKED_INT, PARTIALLY_CHECKED_INT, CHECKED_INT} ==>
      CheckStateEnumToInt(CheckStateIntToEnum(IntValue(n))) == IntValue(n)
  {
  }

  // ---------------------------------------------------------------------
  // folder icon name and colour

  /** The `data` fields of a folder document read for its icon; "" when missing or falsy. */
  datatype AssetDoc = AssetDoc(icon: string, color: string)

  /** `get_default_asset_icon_name` */
  function DefaultAssetIconName(hasChildren: bool): string
  {
    if hasChildren then "fa.folder" else "fa.folder-o"
  }

  /** `get_asset_icon_name_from_doc`: `None` for a missing document. */
  function AssetIconNameFromDoc(doc: Option<AssetDoc>): string
  {
    if doc.Some? then doc.value.icon else ""
  }

  /** `get_asset_icon_name` */
  function AssetIconName(doc: Option<AssetDoc>, hasChildren: bool): (r: string)
    ensures r != ""
  {
    var name := AssetIconNameFromDoc(doc);
    if name != "" then name else DefaultAssetIconName(hasChildren)
  }

  /** The document's own icon wins when set; otherwise an open or closed folder by whether it has children. */
  lemma AssetIconNameFallback(doc: Option<AssetDoc>, hasChildren: bool)
    ensures doc.Some? && doc.value.icon != "" ==> AssetIconName(doc, hasChildren) == doc.value.icon
    ensures (doc.None? || doc.value.icon == "") && hasChildren ==> AssetIconName(doc, hasChildren) == "fa.folder"
    ensures (doc.None? || doc.value.icon == "") && !hasChildren ==> AssetIconName(doc, hasChildren) == "fa.folder-o"
  {
  }

  /** `get_asset_icon_color`: the document's colour, else the default entity colour. */
  function AssetIconColor(doc: Option<AssetDoc>, defaultColor: string): (r: string)
    ensures doc.Some? && doc.value.color != "" ==> r == doc.value.color
    ensures doc.None? || doc.value.color == "" ==> r == defaultColor
  {
    var color := if doc.Some? then doc.value.color else "";
    if color != "" then color else defaultColor
  }

  // ---------------------------------------------------------------------
  // get_qta_icon_by_name_and_color and its memo `_Cache.icons`

  /** The memo key `"{name}-{color}"`. */
  function IconKey(name: string, color: string): string
  {
    name + "-" + color
  }

  /** The names tried in order: the bare name, then `"{prefix}.{name}"` for every font prefix. */
  function IconVariants(name: string, prefixes: seq<string>): (r: seq<string>)
    ensures |r| == |prefixes| + 1 && r[0] == name
    ensures forall i :: 0 <= i < |prefixes| ==> r[i + 1] == prefixes[i] + "." + name
  {
    [name] + seq(|prefixes|, i requires 0 <= i < |prefixes| => prefixes[i] + "." + name)
  }

  /** The icon of the first variant that qtawesome renders without raising; `None` when none does. */
  function FirstRendered<Icon>(variants: seq<string>, color: string, render: (string, string) -> Option<Icon>): Option<Icon>
  {
    if variants == [] then None
    else if render(variants[0], color).Some? then render(variants[0], color)
    else FirstRendered(variants[1..], color, render)
  }

  /** The first variant that renders wins, and no icon means no variant renders. */
  lemma {:induction false} FirstRenderedIsFirst<Icon>(variants: seq<string>, color: string, render: (string, string) -> Option<Icon>)
    ensures FirstRendered(variants, color, render).None? <==>
      forall i :: 0 <= i < |variants| ==> render(variants[i], color).None?
    ensures FirstRendered(variants, color, render).Some? ==>
      exists k :: 0 <= k < |variants| && FirstRendered(variants, color, render) == render(variants[k], color)
        && forall i :: 0 <= i < k ==> render(variants[i], color).None?
  {
    if variants != [] {
      FirstRenderedIsFirst(variants[1..], color, render);
      var r := FirstRendered(variants, color, render);
      if render(variants[0], color).None? {
        assert forall i :: 1 <= i < |variants| ==> variants[i] == variants[1..][i - 1];
        if r.Some? {
          var k :| 0 <= k < |variants[1..]| && r == render(variants[1..][k], color)
            && forall i :: 0 <= i < k ==> render(variants[1..][i], color).None?;
          assert r == render(variants[k + 1], color);
        }
      } else {
        assert r == render(variants[0], color);
      }
    }
  }

  /** The loop over the variants, stopping at the first that does not raise. */
  method ResolveIcon<Icon>(variants: seq<string>, color: string, render: (string, string) -> Option<Icon>)
    returns (icon: Option<Icon>)
    ensures icon == FirstRendered(variants, color, render)
  {
    icon := None;
    var i := 0;
    while i < |variants|
      invariant 0 <= i <= |variants|
      invariant icon.None?
      invariant FirstRendered(variants, color, render) == FirstRendered(variants[i..], color, render)
    {
      var attempt := render(variants[i], color);
      if attempt.Some? {
        icon := attempt;
        return;
      }
      assert variants[i..][1..] == variants[i + 1..];
      i := i + 1;
    }
  }

  /** `_Cache`: one memo shared by every call, keyed by `"{name}-{color}"`. */
  class IconCache<Icon> {
    var icons: map<string, Option<Icon>>

    constructor ()
      ensures icons == map[]
    {
      icons := map[];
    }

    /**
     * `get_qta_icon_by_name_and_color`: `None` for an empty name or colour
     * without touching the memo; a memoised key answers from the memo; a new
     * key resolves the variants and memoises the outcome, `None` included.
     */
    method GetQtaIconByNameAndColor(name: string, color: string, prefixes: seq<string>,
                                    render: (string, string) -> Option<Icon>)
      returns (icon: Option<Icon>)
      modifies this
      ensures name == "" || color == "" ==> icon.None? && icons == old(icons)
      ensures name != "" && color != "" && IconKey(name, color) in old(icons) ==>
        icon == old(icons)[IconKey(name, color)] && icons == old(icons)
      ensures name != "" && color != "" && IconKey(name, color) !in old(icons) ==>
        icon == FirstRendered(IconVariants(name, prefixes), color, render)
        && icons == old(icons)[IconKey(name, color) := icon]
    {
      if name == "" || color == "" {
        return None;
      }
      var key := IconKey(name, color);
      if key in icons {
        return icons[key];
      }
      icon := ResolveIcon(IconVariants(name, prefixes), color, render);
      icons := icons[key := icon];
    }
  }

  // ---------------------------------------------------------------------
  // WrappedCallbackItem

  /**
   * What the stored callback does when called: return a value, raise an
   * `Exception`, or raise a `BaseException` that is not an `Exception`
   * (which `except Exception` does not catch).
   */
  datatype CallOutcome<R, E> = Returned(value: R) | Raised(error: E) | Interrupted

  /** A callback to be run once, with `done`, `result` and `exception` recording the run. */
  class WrappedCallbackItem<R, E> {
    const callback: CallOutcome<R, E>
    var done: bool
    /** `None` stands for the `not_set` sentinel. */
    var result: Option<R>
    var exception: Option<E>

    ghost predicate Valid()
      reads this
    {
      && (!done ==> result.None? && exception.None?)
      && !(result.Some? && exception.Some?)
    }

    constructor (callback: CallOutcome<R, E>)
      ensures Valid() && this.callback == callback
      ensures !done && result.None? && exception.None?
    {
      this.callback := callback;
      done := false;
      result := None;
      exception := None;
    }

    /**
     * `execute`: a second call changes nothing; a first call records the
     * returned value or the caught exception and always ends `done`.
     * `propagated` is true when the call re-raises (a `BaseException`).
     */
    method Execute() returns (propagated: bool)
      requires Valid()
      modifies this
      ensures Valid() && done
      ensures old(done) ==> !propagated && result == old(result) && exception == old(exception)
      ensures !old(done) && callback.Returned? ==>
        result == Some(callback.value) && exception.None? && !propagated
      ensures !old(done) && callback.Raised? ==>
        exception == Some(callback.error) && result.None? && !propagated
      ensures !old(done) && callback.Interrupted? ==>
        result.None? && exception.None? && propagated
    {
      if done {
        return false;
      }
      propagated := false;
      match callback {
        case Returned(v) => result := Some(v);
        case Raised(e) => exception := Some(e);
        case Interrupted => propagated := true;
      }
      done := true;
    }
  }
}
