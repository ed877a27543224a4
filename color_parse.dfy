/** The pure classifications of color/command.c: a colour name with its
    bright/alert/light prefix (parse_color_name), and the attribute keywords
    that parse_attr_spec and parse_color_pair accept. The terminal globals
    COLORS and OptNoCurses, the ColorNames table and the colour macros are
    parameters (Env). */
module ColorParse {
  import opened CString
  import opened ColorTables

  /** enum CommandResult: MUTT_CMD_SUCCESS, MUTT_CMD_WARNING, MUTT_CMD_ERROR. */
  datatype CommandResult = CmdSuccess | CmdWarning | CmdError

  /** The curses attribute bits the colour commands set; a set of them is
      an attribute word, and A_NORMAL is the empty set. */
  datatype Attr = ABold | ABlink | AItalic | AReverse | AStandout | AUnderline

  const U32_MOD: int := 0x1_0000_0000

  /** Conversion to uint32_t (colour numbers are stored in uint32_t). */
  function U32(v: int): (r: nat)
    ensures r < U32_MOD
    ensures 0 <= v < U32_MOD ==> r == v
  {
    v % U32_MOD
  }

  /** What the parser reads from outside the file: COLORS, OptNoCurses, the
      ColorNames table of colour names, COLOR_QUOTES_MAX, COLOR_UNSET and
      COLOR_DEFAULT. */
  datatype Env = Env(colors: nat, noCurses: bool, colorNames: seq<Mapping<int>>,
                     quotesMax: int, colorUnset: int, colorDefault: int)

  // ----- Colour names -----

  datatype Prefix = NoPrefix | Bright | Alert | Light

  /** The prefix a colour name starts with and the text after it. */
  datatype Split = Split(prefix: Prefix, rest: string)

  /** The number of characters each prefix word has. */
  function PrefixLength(p: Prefix): nat
  {
    match p
    case NoPrefix => 0
    case Bright => 6
    case Alert => 5
    case Light => 5
  }

  /** Lines 135-153: the first of "bright", "alert" and "light" that the
      name starts with, ignoring case, is removed; only one is tried. */
  function SplitPrefix(s: string): (r: Split)
    ensures PrefixLength(r.prefix) <= |s| && r.rest == s[PrefixLength(r.prefix)..]
  {
    if IStartsWith(s, "bright") then Split(Bright, s[6..])
    else if IStartsWith(s, "alert") then Split(Alert, s[5..])
    else if IStartsWith(s, "light") then Split(Light, s[5..])
    else Split(NoPrefix, s)
  }

  /** A colour number and the attributes a colour name adds. */
  datatype ColorValue = ColorValue(col: nat, add: set<Attr>)

  /** The outcome of parse_color_name: the colour, or the result code and
      the error message written to err. */
  datatype NameParse = NameOk(value: ColorValue) | NameFail(rc: CommandResult, msg: string)

  /** Lines 156-171: a colour after its prefix, "colorNNN" (ignoring case)
      or a name of the ColorNames table. strtoul's result is stored in a
      uint32_t; the table lookup is stored there too and compared with -1. */
  function ReadColor(s: string, env: Env): (r: NameParse)
    ensures r.NameOk? ==> r.value.add == {} && r.value.col < U32_MOD
  {
    if IStartsWith(s, "color") then ReadColorNumber(s[5..], env)
    else ReadNamedColor(s, env)
  }

  /** Lines 157-166: the digits after "color", read by strtoul into a
      uint32_t, must be all of the word and a colour of the terminal. */
  function ReadColorNumber(digits: string, env: Env): (r: NameParse)
    ensures r.NameOk? ==> r.value.add == {} && r.value.col < U32_MOD
  {
    var col := U32(StrToUl(digits));
    if digits == [] || ScanNumber(digits).end != |digits| || (col >= env.colors && !env.noCurses)
    then NameFail(CmdError, digits + ": color not supported by term")
    else NameOk(ColorValue(col, {}))
  }

  /** Lines 167-171: any other word is looked up in ColorNames; -1 (also
      as uint32_t) means there is no such colour. */
  function ReadNamedColor(s: string, env: Env): (r: NameParse)
    ensures r.NameOk? ==> r.value.add == {} && r.value.col < U32_MOD
  {
    var v := MapGetValue(s, env.colorNames);
    var col := if v.Some? then U32(v.value) else U32(-1);
    if col == U32(-1) then NameFail(CmdWarning, s + ": no such color")
    else NameOk(ColorValue(col, {}))
  }

  /** Lines 176-208: what a prefix does to a colour that was read. */
  function Brighten(p: Prefix, c: ColorValue, isFg: bool, env: Env): ColorValue
  {
    match p
    case NoPrefix => c
    case Alert => c.(add := c.add + {ABold, ABlink})
    case _ =>
      if isFg && !(env.colors >= 16 && p == Light) then c.(add := c.add + {ABold})
      else if env.colors >= 16 && c.col <= 7 then c.(col := c.col + 8)
      else c
  }

  /** parse_color_name (lines 130-211). */
  function ParseColorName(s: string, isFg: bool, env: Env): (r: NameParse)
    ensures r.NameFail? ==> r.rc != CmdSuccess
  {
    var sp := SplitPrefix(s);
    match ReadColor(sp.rest, env)
    case NameFail(rc, msg) => NameFail(rc, msg)
    case NameOk(c) => NameOk(Brighten(sp.prefix, c, isFg, env))
  }

  /** The prefix word of each prefix. */
  function PrefixWord(p: Prefix): string
  {
    match p
    case NoPrefix => ""
    case Bright => "bright"
    case Alert => "alert"
    case Light => "light"
  }

  lemma LowerAppend(a: string, b: string)
    ensures Lower(a + b) == Lower(a) + Lower(b)
  {
    var l := Lower(a + b);
    assert forall i :: 0 <= i < |l| ==> l[i] == (Lower(a) + Lower(b))[i];
  }

  /** A word in lower case is a prefix, ignoring case, of itself followed
      by anything. */
  lemma StartsWithWord(w: string, s: string)
    requires Lower(w) == w
    ensures IStartsWith(w + s, w)
  {
    LowerAppend(w, s);
  }

  /** Only one prefix is removed: after "bright", "alert" or "light" the rest
      of the name is read as it stands, even when it starts with another
      prefix word. */
  lemma PrefixConsumedOnce(p: Prefix, s: string)
    requires p != NoPrefix
    ensures SplitPrefix(PrefixWord(p) + s) == Split(p, s)
  {
    var w := PrefixWord(p);
    var t := w + s;
    LowerAppend(w, s);
    assert Lower(w) == w;
    assert Lower(t)[0] == w[0];
    assert IStartsWith(t, w);
    if p != Bright {
      assert Lower("bright")[0] == 'b';
      assert !IStartsWith(t, "bright");
    }
    if p == Light {
      assert Lower("alert")[0] == 'a';
      assert !IStartsWith(t, "alert");
    }
    assert t[|w|..] == s;
  }

  /** A name without a prefix is read as it stands. */
  lemma NoPrefixReadsAsIs(s: string, isFg: bool, env: Env)
    requires SplitPrefix(s).prefix == NoPrefix
    ensures ParseColorName(s, isFg, env) == ReadColor(s, env)
  {
  }

  /** A light foreground on a terminal with 16 colours or more is the colour
      moved up by 8 when it is one of 0-7, and the colour itself otherwise;
      no attribute is added. */
  lemma LightForeground(x: string, env: Env)
    requires SplitPrefix(x).prefix == NoPrefix && ParseColorName(x, true, env).NameOk?
    requires env.colors >= 16
    ensures var c := ParseColorName(x, true, env).value;
      ParseColorName("light" + x, true, env)
        == NameOk(ColorValue(if c.col <= 7 then c.col + 8 else c.col, {}))
  {
    PrefixConsumedOnce(Light, x);
  }

  /** Any other bright or light foreground keeps the colour and adds bold. */
  lemma BrightForeground(p: Prefix, x: string, env: Env)
    requires p == Bright || (p == Light && env.colors < 16)
    requires SplitPrefix(x).prefix == NoPrefix && ParseColorName(x, true, env).NameOk?
    ensures var c := ParseColorName(x, true, env).value;
      ParseColorName(PrefixWord(p) + x, true, env) == NameOk(ColorValue(c.col, {ABold}))
  {
    PrefixConsumedOnce(p, x);
  }

  /** A bright or light background on a terminal with 16 colours or more
      moves colours 0-7 up by 8; on a smaller terminal it is the colour
      itself. No attribute is added. */
  lemma BrightBackground(p: Prefix, x: string, env: Env)
    requires p == Bright || p == Light
    requires SplitPrefix(x).prefix == NoPrefix && ParseColorName(x, false, env).NameOk?
    ensures var c := ParseColorName(x, false, env).value;
      ParseColorName(PrefixWord(p) + x, false, env)
        == NameOk(ColorValue(if env.colors >= 16 && c.col <= 7 then c.col + 8 else c.col, {}))
  {
    PrefixConsumedOnce(p, x);
  }

  /** "alert" is a bright that adds both bold and blink, in the foreground
      and in the background, and keeps the colour. */
  lemma AlertAddsBoldBlink(x: string, isFg: bool, env: Env)
    requires SplitPrefix(x).prefix == NoPrefix && ParseColorName(x, isFg, env).NameOk?
    ensures var c := ParseColorName(x, isFg, env).value;
      ParseColorName("alert" + x, isFg, env) == NameOk(ColorValue(c.col, {ABold, ABlink}))
  {
    PrefixConsumedOnce(Alert, x);
    var c := ReadColor(x, env).value;
    assert ParseColorName("alert" + x, isFg, env) == NameOk(Brighten(Alert, c, isFg, env));
    assert c.add + {ABold, ABlink} == {ABold, ABlink};
  }

  /** A prefix never turns a valid colour into an error, or an invalid
      one into a colour. */
  lemma PrefixKeepsValidity(p: Prefix, x: string, isFg: bool, env: Env)
    requires p != NoPrefix && SplitPrefix(x).prefix == NoPrefix
    ensures ParseColorName(PrefixWord(p) + x, isFg, env).NameOk? <==> ParseColorName(x, isFg, env).NameOk?
    ensures ParseColorName(x, isFg, env).NameFail? ==> ParseColorName(PrefixWord(p) + x, isFg, env) == ParseColorName(x, isFg, env)
  {
    PrefixConsumedOnce(p, x);
  }

  // ----- colorNNN -----

  /** "color" starts no prefix word. */
  lemma ColorWordHasNoPrefix(s: string)
    requires IStartsWith(s, "color")
    ensures SplitPrefix(s) == Split(NoPrefix, s)
  {
    assert Lower("color")[0] == 'c';
    assert Lower(s)[0] == 'c';
    assert Lower("bright")[0] == 'b';
    assert Lower("alert")[0] == 'a';
    assert Lower("light")[0] == 'l';
  }

  /** What strtoul and its end position see in a printed number followed by
      a text that does not start with a digit. */
  lemma ScanPrintedThen(n: nat, t: string)
    requires t == [] || !IsDigit(t[0])
    ensures var d := NatToDecimal(n); ScanNumber(d + t) == NumberScan(false, n, |d|)
  {
    var d := NatToDecimal(n);
    var s := d + t;
    assert s[0] == d[0];
    assert !IsSpace(s[0]);
    LeadingSpacesStop(s);
    assert s[0..] == s;
    LeadingDigitsUnique(s, |d|);
    assert s[0..|d|] == d;
    DecimalRoundTrip(n);
  }

  lemma {:induction false} LeadingDigitsUnique(s: string, n: nat)
    requires n <= |s| && forall i :: 0 <= i < n ==> IsDigit(s[i])
    requires n == |s| || !IsDigit(s[n])
    ensures LeadingDigits(s) == n
  {
    if n > 0 {
      LeadingDigitsUnique(s[1..], n - 1);
    }
  }

  /** A name that starts with "color" is read as "colorNNN" with the
      text after those five letters as the number. */
  lemma ColorWordRead(d: string, isFg: bool, env: Env)
    ensures ParseColorName("color" + d, isFg, env) == ReadColorNumber(d, env)
    ensures IStartsWith("color" + d, "color") && ("color" + d)[5..] == d
  {
    StartsWithWord("color", d);
    ColorWordHasNoPrefix("color" + d);
  }

  /** The colour name "color" followed by a number of the terminal (or any
      number below 2^32 when curses is off) is that colour. */
  lemma ColorNumberReadsBack(n: nat, isFg: bool, env: Env)
    requires n < U32_MOD && (n < env.colors || env.noCurses)
    ensures ParseColorName("color" + NatToDecimal(n), isFg, env) == NameOk(ColorValue(n, {}))
  {
    var d := NatToDecimal(n);
    ColorWordRead(d, isFg, env);
    ScanPrintedThen(n, []);
    assert d + [] == d;
    assert StrToUl(d) == n;
    assert ReadColorNumber(d, env) == NameOk(ColorValue(n, {}));
  }

  /** A number the terminal does not have is an error while curses is on. */
  lemma ColorNumberTooLarge(n: nat, isFg: bool, env: Env)
    requires env.colors <= n < U32_MOD && !env.noCurses
    ensures var d := NatToDecimal(n);
      ParseColorName("color" + d, isFg, env) == NameFail(CmdError, d + ": color not supported by term")
  {
    var d := NatToDecimal(n);
    ColorWordRead(d, isFg, env);
    ScanPrintedThen(n, []);
    assert d + [] == d;
  }

  /** "color" with no number is an error. */
  lemma ColorNumberMissing(isFg: bool, env: Env)
    ensures ParseColorName("color", isFg, env) == NameFail(CmdError, ": color not supported by term")
  {
    ColorWordRead([], isFg, env);
    assert "color" + [] == "color";
  }

  /** A number followed by anything that is not a digit is an error. */
  lemma ColorNumberTrailing(n: nat, t: string, isFg: bool, env: Env)
    requires t != [] && !IsDigit(t[0])
    ensures var d := NatToDecimal(n) + t;
      ParseColorName("color" + d, isFg, env) == NameFail(CmdError, d + ": color not supported by term")
  {
    var d := NatToDecimal(n) + t;
    ColorWordRead(d, isFg, env);
    ScanPrintedThen(n, t);
    assert ScanNumber(d).end != |d|;
  }

  /** Errors come only from "colorNNN"; a name that is neither "colorNNN"
      nor in ColorNames (or that maps to -1) is a warning. */
  lemma NameFailures(s: string, isFg: bool, env: Env)
    ensures var r := SplitPrefix(s).rest;
      ParseColorName(s, isFg, env).NameFail? && ParseColorName(s, isFg, env).rc == CmdError ==>
        IStartsWith(r, "color")
    ensures var r := SplitPrefix(s).rest; var v := MapGetValue(r, env.colorNames);
      !IStartsWith(r, "color") ==>
        (ParseColorName(s, isFg, env).NameFail? <==> v.None? || U32(v.value) == U32(-1))
    ensures var r := SplitPrefix(s).rest;
      ParseColorName(s, isFg, env).NameFail? && !IStartsWith(r, "color") ==>
        ParseColorName(s, isFg, env) == NameFail(CmdWarning, r + ": no such color")
  {
  }

  // ----- Attribute keywords -----

  /** What an attribute keyword does: OR in one bit, or clear them all. */
  datatype Keyword = SetAttr(attr: Attr) | ClearAttrs | NotKeyword

  /** Lines 234-252 and 275-316: the keywords, matched ignoring case
      (mutt_istr_equal compares the lowered strings, and every keyword is
      in lower case). */
  function AttrKeyword(tok: string): Keyword
  {
    KeywordOf(Lower(tok))
  }

  /** The keyword a lowered token names. */
  function KeywordOf(w: string): Keyword
  {
    if w == "bold" then SetAttr(ABold)
    else if w == "italic" then SetAttr(AItalic)
    else if w == "none" then ClearAttrs
    else if w == "normal" then ClearAttrs
    else if w == "reverse" then SetAttr(AReverse)
    else if w == "standout" then SetAttr(AStandout)
    else if w == "underline" then SetAttr(AUnderline)
    else NotKeyword
  }

  /** The attribute word after a keyword: `|=` its bit, or `= A_NORMAL`. */
  function ApplyKeyword(attrs: set<Attr>, k: Keyword): (r: set<Attr>)
    requires !k.NotKeyword?
    ensures k.SetAttr? ==> r == attrs + {k.attr}
    ensures k.ClearAttrs? ==> r == {}
  {
    if k.SetAttr? then attrs + {k.attr} else {}
  }

  /** Keywords ignore letter case. */
  lemma KeywordIgnoresCase(a: string, b: string)
    requires IEqual(a, b)
    ensures AttrKeyword(a) == AttrKeyword(b)
  {
  }

  /** A word with no capital letter is its own lower case. */
  lemma LowerOfLowerCase(w: string)
    requires forall i :: 0 <= i < |w| ==> !('A' <= w[i] <= 'Z')
    ensures Lower(w) == w
  {
  }

  /** The keyword each attribute token means. */
  lemma KeywordMeanings(tok: string)
    ensures IEqual(tok, "bold") ==> AttrKeyword(tok) == SetAttr(ABold)
    ensures IEqual(tok, "italic") ==> AttrKeyword(tok) == SetAttr(AItalic)
    ensures IEqual(tok, "none") || IEqual(tok, "normal") ==> AttrKeyword(tok) == ClearAttrs
    ensures IEqual(tok, "reverse") ==> AttrKeyword(tok) == SetAttr(AReverse)
    ensures IEqual(tok, "standout") ==> AttrKeyword(tok) == SetAttr(AStandout)
    ensures IEqual(tok, "underline") ==> AttrKeyword(tok) == SetAttr(AUnderline)
  {
    KeywordWordsLower();
  }

  /** The keyword words are written in lower case. */
  lemma KeywordWordsLower()
    ensures Lower("bold") == "bold" && Lower("italic") == "italic"
    ensures Lower("none") == "none" && Lower("normal") == "normal"
    ensures Lower("reverse") == "reverse" && Lower("standout") == "standout"
    ensures Lower("underline") == "underline"
  {
    LowerOfLowerCase("bold");
    LowerOfLowerCase("italic");
    LowerOfLowerCase("none");
    LowerOfLowerCase("normal");
    LowerOfLowerCase("reverse");
    LowerOfLowerCase("standout");
    LowerOfLowerCase("underline");
  }
}
