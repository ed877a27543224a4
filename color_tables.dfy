/** The colour objects of color/command.c: the ColorId values, the two
    name tables ColorFields and ComposeColorFields (with the sidebar
    entries compiled in), the mutt_map_* lookups over them, and
    get_colorid_name. */
module ColorTables {
  import opened CString

  /** The colour objects that have a name in a table, one constructor per
      MT_COLOR_* id; every other id (MT_COLOR_NONE and the ids no command
      names) is Unmapped with its number. */
  datatype ColorId =
    | Attachment | AttachHeaders | Body | Bold | Error | HdrDefault | Header
    | Index | IndexAuthor | IndexCollapsed | IndexDate | IndexFlags | IndexLabel
    | IndexNumber | IndexSize | IndexSubject | IndexTag | IndexTags | Indicator
    | Italic | Markers | Message | Normal | Options | Progress | Prompt | Quoted
    | Search | SidebarBackground | SidebarDivider | SidebarFlagged
    | SidebarHighlight | SidebarIndicator | SidebarNew | SidebarOrdinary
    | SidebarSpoolfile | SidebarUnread | Signature | Status | Tilde | Tree
    | Underline | Warning
    | ComposeHeader | ComposeSecurityBoth | ComposeSecurityEncrypt
    | ComposeSecurityNone | ComposeSecuritySign
    | Unmapped(code: nat)

  /** One row of a struct Mapping table. */
  datatype Mapping<V> = Mapping(name: string, value: V)

  /** Row i of ColorFields (lines 51-97). */
  function ColorField(i: nat): Mapping<ColorId>
    requires i < 44
  {
    Mapping(ColorFieldName(i), ColorFieldId(i))
  }

  /** The name column of ColorFields. */
  function ColorFieldName(i: nat): string
    requires i < 44
  {
    if i == 0 then "attachment"
    else if i == 1 then "attach_headers"
    else if i == 2 then "body"
    else if i == 3 then "bold"
    else if i == 4 then "error"
    else if i == 5 then "hdrdefault"
    else if i == 6 then "header"
    else if i == 7 then "index"
    else if i == 8 then "index_author"
    else if i == 9 then "index_collapsed"
    else if i == 10 then "index_date"
    else if i == 11 then "index_flags"
    else if i == 12 then "index_label"
    else if i == 13 then "index_number"
    else if i == 14 then "index_size"
    else if i == 15 then "index_subject"
    else if i == 16 then "index_tag"
    else if i == 17 then "index_tags"
    else if i == 18 then "indicator"
    else if i == 19 then "italic"
    else if i == 20 then "markers"
    else if i == 21 then "message"
    else if i == 22 then "normal"
    else if i == 23 then "options"
    else if i == 24 then "progress"
    else if i == 25 then "prompt"
    else if i == 26 then "quoted"
    else if i == 27 then "search"
    else if i == 28 then "sidebar_background"
    else if i == 29 then "sidebar_divider"
    else if i == 30 then "sidebar_flagged"
    else if i == 31 then "sidebar_highlight"
    else if i == 32 then "sidebar_indicator"
    else if i == 33 then "sidebar_new"
    else if i == 34 then "sidebar_ordinary"
    else if i == 35 then "sidebar_spool_file"
    else if i == 36 then "sidebar_spoolfile"
    else if i == 37 then "sidebar_unread"
    else if i == 38 then "signature"
    else if i == 39 then "status"
    else if i == 40 then "tilde"
    else if i == 41 then "tree"
    else if i == 42 then "underline"
    else "warning"
  }

  /** The id column of ColorFields. */
  function ColorFieldId(i: nat): ColorId
    requires i < 44
  {
    if i == 0 then Attachment
    else if i == 1 then AttachHeaders
    else if i == 2 then Body
    else if i == 3 then Bold
    else if i == 4 then Error
    else if i == 5 then HdrDefault
    else if i == 6 then Header
    else if i == 7 then Index
    else if i == 8 then IndexAuthor
    else if i == 9 then IndexCollapsed
    else if i == 10 then IndexDate
    else if i == 11 then IndexFlags
    else if i == 12 then IndexLabel
    else if i == 13 then IndexNumber
    else if i == 14 then IndexSize
    else if i == 15 then IndexSubject
    else if i == 16 then IndexTag
    else if i == 17 then IndexTags
    else if i == 18 then Indicator
    else if i == 19 then Italic
    else if i == 20 then Markers
    else if i == 21 then Message
    else if i == 22 then Normal
    else if i == 23 then Options
    else if i == 24 then Progress
    else if i == 25 then Prompt
    else if i == 26 then Quoted
    else if i == 27 then Search
    else if i == 28 then SidebarBackground
    else if i == 29 then SidebarDivider
    else if i == 30 then SidebarFlagged
    else if i == 31 then SidebarHighlight
    else if i == 32 then SidebarIndicator
    else if i == 33 then SidebarNew
    else if i == 34 then SidebarOrdinary
    else if i == 35 then SidebarSpoolfile
    else if i == 36 then SidebarSpoolfile
    else if i == 37 then SidebarUnread
    else if i == 38 then Signature
    else if i == 39 then Status
    else if i == 40 then Tilde
    else if i == 41 then Tree
    else if i == 42 then Underline
    else Warning
  }

  /** ColorFields: the object names of color, uncolor, mono and unmono. */
  function ColorFields(): (m: seq<Mapping<ColorId>>)
    ensures |m| == 44
  {
    seq(44, i requires 0 <= i < 44 => ColorField(i))
  }

  /** Row i of ComposeColorFields (color/command.c:106-115). */
  function ComposeColorField(i: nat): Mapping<ColorId>
    requires i < 5
  {
    if i == 0 then Mapping("header", ComposeHeader)
    else if i == 1 then Mapping("security_encrypt", ComposeSecurityEncrypt)
    else if i == 2 then Mapping("security_sign", ComposeSecuritySign)
    else if i == 3 then Mapping("security_both", ComposeSecurityBoth)
    else Mapping("security_none", ComposeSecurityNone)
  }

  /** ComposeColorFields: the objects named after `compose`. */
  function ComposeColorFields(): (m: seq<Mapping<ColorId>>)
    ensures |m| == 5
  {
    seq(5, i requires 0 <= i < 5 => ComposeColorField(i))
  }

  /** The index of the first row whose name equals s when case is ignored,
      or |m| when there is none. */
  function NameIndex<V>(s: string, m: seq<Mapping<V>>): (i: nat)
    ensures i <= |m|
    ensures i < |m| ==> IEqual(m[i].name, s)
    ensures forall j :: 0 <= j < i ==> !IEqual(m[j].name, s)
  {
    if m == [] then 0
    else if IEqual(m[0].name, s) then 0
    else 1 + NameIndex(s, m[1..])
  }

  /** mutt_map_get_value: the value of the first row named s, ignoring
      case; None stands for the -1 it returns when there is none. */
  function MapGetValue<V>(s: string, m: seq<Mapping<V>>): (r: Option<V>)
    ensures r.None? <==> forall j :: 0 <= j < |m| ==> !IEqual(m[j].name, s)
  {
    var i := NameIndex(s, m);
    if i < |m| then Some(m[i].value) else None
  }

  /** The index of the first row holding value v, or |m|. */
  function ValueIndex<V(==)>(v: V, m: seq<Mapping<V>>): (i: nat)
    ensures i <= |m|
    ensures i < |m| ==> m[i].value == v
    ensures forall j :: 0 <= j < i ==> m[j].value != v
  {
    if m == [] then 0
    else if m[0].value == v then 0
    else 1 + ValueIndex(v, m[1..])
  }

  /** mutt_map_get_name: the name of the first row holding v (NULL is None). */
  function MapGetName<V(==)>(v: V, m: seq<Mapping<V>>): (r: Option<string>)
    ensures r.None? <==> forall j :: 0 <= j < |m| ==> m[j].value != v
  {
    var i := ValueIndex(v, m);
    if i < |m| then Some(m[i].name) else None
  }

  /** The range test of line 340, MT_COLOR_COMPOSE_HEADER to
      MT_COLOR_COMPOSE_SECURITY_SIGN: the five compose ids. */
  predicate IsComposeId(cid: ColorId)
  {
    cid.ComposeHeader? || cid.ComposeSecurityBoth? || cid.ComposeSecurityEncrypt?
    || cid.ComposeSecurityNone? || cid.ComposeSecuritySign?
  }

  /** get_colorid_name: "compose <name>" for a compose id, the table name
      for the others, "UNKNOWN <n>" for an id no table names. */
  function ColorIdName(cid: ColorId): (name: string)
  {
    if IsComposeId(cid) && MapGetName(cid, ComposeColorFields()).Some? then
      "compose " + MapGetName(cid, ComposeColorFields()).value
    else if MapGetName(cid, ColorFields()).Some? then
      MapGetName(cid, ColorFields()).value
    else
      "UNKNOWN " + NatToDecimal(UnmappedCode(cid))
  }

  /** The number printed for an id that no table names. */
  function UnmappedCode(cid: ColorId): nat
  {
    if cid.Unmapped? then cid.code else 0
  }

  /** The row of ColorFields where an id first appears (the number of
      distinct ids before it); 44 for the ids ColorFields does not hold. */
  function FirstRow(cid: ColorId): nat
  {
    match cid
    case Attachment => 0
    case AttachHeaders => 1
    case Body => 2
    case Bold => 3
    case Error => 4
    case HdrDefault => 5
    case Header => 6
    case Index => 7
    case IndexAuthor => 8
    case IndexCollapsed => 9
    case IndexDate => 10
    case IndexFlags => 11
    case IndexLabel => 12
    case IndexNumber => 13
    case IndexSize => 14
    case IndexSubject => 15
    case IndexTag => 16
    case IndexTags => 17
    case Indicator => 18
    case Italic => 19
    case Markers => 20
    case Message => 21
    case Normal => 22
    case Options => 23
    case Progress => 24
    case Prompt => 25
    case Quoted => 26
    case Search => 27
    case SidebarBackground => 28
    case SidebarDivider => 29
    case SidebarFlagged => 30
    case SidebarHighlight => 31
    case SidebarIndicator => 32
    case SidebarNew => 33
    case SidebarOrdinary => 34
    case SidebarSpoolfile => 35
    case SidebarUnread => 37
    case Signature => 38
    case Status => 39
    case Tilde => 40
    case Tree => 41
    case Underline => 42
    case Warning => 43
    case _ => 44
  }

  /** Each row's id first appears at that row, except the second row of
      the sidebar_spool_file alias. */
  lemma FirstRowOfRow(i: nat)
    requires i < 44
    ensures FirstRow(ColorFieldId(i)) == if i == 36 then 35 else i
  {
  }

  /** ColorFields holds neither a compose id nor an unmapped one. */
  lemma NoComposeRow()
    ensures forall j :: 0 <= j < 44 ==> !IsComposeId(ColorFields()[j].value) && !ColorFields()[j].value.Unmapped?
  {
    forall j | 0 <= j < 44 ensures !IsComposeId(ColorFieldId(j)) && !ColorFieldId(j).Unmapped? {
      PlainId(j);
    }
  }

  /** A row of the id column is neither a compose id nor unmapped. */
  lemma PlainId(j: nat)
    requires j < 44
    ensures !IsComposeId(ColorFieldId(j)) && !ColorFieldId(j).Unmapped?
  {
  }

  lemma {:induction false} ValueIndexIs<V>(v: V, m: seq<Mapping<V>>, i: nat)
    requires i < |m| && m[i].value == v
    requires forall j :: 0 <= j < i ==> m[j].value != v
    ensures ValueIndex(v, m) == i
  {
    if i > 0 {
      assert m[0].value != v;
      ValueIndexIs(v, m[1..], i - 1);
    }
  }

  lemma {:induction false} NameIndexIs<V>(s: string, m: seq<Mapping<V>>, i: nat)
    requires i < |m| && IEqual(m[i].name, s)
    requires forall j :: 0 <= j < i ==> !IEqual(m[j].name, s)
    ensures NameIndex(s, m) == i
  {
    if i > 0 {
      assert !IEqual(m[0].name, s);
      NameIndexIs(s, m[1..], i - 1);
    }
  }

  /** Names equal when case is ignored have the same length and agree,
      letter by letter, once lowered. */
  lemma IEqualLetters(a: string, b: string)
    ensures IEqual(a, b) ==> |a| == |b| && forall k :: 0 <= k < |a| ==> ToLower(a[k]) == ToLower(b[k])
  {
    if IEqual(a, b) {
      forall k | 0 <= k < |a| ensures ToLower(a[k]) == ToLower(b[k]) {
        assert Lower(a)[k] == Lower(b)[k];
      }
    }
  }

  /** An id no table names prints as UNKNOWN and its number, which reads back. */
  lemma UnmappedIdName(n: nat)
    ensures ColorIdName(Unmapped(n)) == "UNKNOWN " + NatToDecimal(n)
  {
    UnmappedNotInTable(n);
  }

  lemma UnmappedNotInTable(n: nat)
    ensures MapGetName(Unmapped(n), ColorFields()).None?
  {
    NoComposeRow();
  }

  /** The number in an unknown id's name reads back as the id's code. */
  lemma UnmappedIdReadsBack(n: nat)
    requires n <= INT_MAX
    ensures var name := ColorIdName(Unmapped(n)); |name| > 8 && AtoiFull(name[8..]) == Some(n)
  {
    var d := NatToDecimal(n);
    assert ColorIdName(Unmapped(n))[8..] == d by {
      UnmappedIdName(n);
      assert |"UNKNOWN "| == 8;
    }
    assert |ColorIdName(Unmapped(n))| > 8 by {
      UnmappedIdName(n);
    }
    AtoiFullReadsPrinted(n);
  }

  /** "header" names the header object, which prints back as "header". */
  lemma HeaderObject()
    ensures ColorFields()[6] == Mapping("header", Header)
    ensures MapGetValue("header", ColorFields()) == Some(ColorFields()[6].value)
    ensures ColorIdName(ColorFields()[6].value) == "header"
  {
    var m := ColorFields();
    assert m[6] == Mapping("header", Header);
    assert NameIndex("header", m) == 6 by {
      forall j | 0 <= j < 6 ensures !IEqual(m[j].name, "header") {
        IEqualLetters(m[j].name, "header");
        if j < 5 {
          assert m[j].name[0] != 'h';
        } else {
          assert m[j].name[1] == 'd';
        }
      }
      NameIndexIs("header", m, 6);
    }
    assert ColorIdName(m[6].value) == m[6].name by {
      ObjectNamesPrintBack(6);
    }
  }

  /** After `compose`, "header" names another object, which prints with
      the compose prefix. */
  lemma ComposeHeaderObject()
    ensures ComposeColorFields()[0] == Mapping("header", ComposeHeader)
    ensures MapGetValue("header", ComposeColorFields()) == Some(ComposeColorFields()[0].value)
    ensures ComposeColorFields()[0].value != ColorFields()[6].value
    ensures ColorIdName(ComposeColorFields()[0].value) == "compose " + ComposeColorFields()[0].name
  {
    NameIndexIs("header", ComposeColorFields(), 0);
    ComposeIdNames(0);
  }

  /** Every compose id prints as "compose " and its table name. */
  lemma ComposeIdNames(i: nat)
    requires i < |ComposeColorFields()|
    ensures ColorIdName(ComposeColorFields()[i].value) == "compose " + ComposeColorFields()[i].name
  {
  }

  /** Every object name but the old sidebar_spoolfile alias (row 36) prints back as itself. */
  lemma ObjectNamesPrintBack(i: nat)
    requires i < |ColorFields()| && i != 36
    ensures ColorIdName(ColorFields()[i].value) == ColorFields()[i].name
  {
    var m := ColorFields();
    var v := m[i].value;
    FirstRowOfRow(i);
    forall j | 0 <= j < i ensures m[j].value != v {
      FirstRowOfRow(j);
    }
    ValueIndexIs(v, m, i);
    NoComposeRow();
    assert MapGetName(v, m) == Some(m[i].name);
  }
}
