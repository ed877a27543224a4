/** The entry points of complete/helpers.c: where on the line each one
    finds the text to complete, which strings it offers, and what it writes
    back into the caller's line buffer `buf` (buflen is buf.Length). */
module CompleteCommands {
  import opened CString
  import opened Completion

  /** The character a walk over a line reads at index p: the terminator
      once past the end. */
  function CharAt(line: string, p: nat): char
  {
    if p < |line| then line[p] else NUL
  }

  /** A character of a NUL-terminated array, up to its terminator, is the
      character CharAt reads from its C string. */
  lemma CharAtOfCStr(a: seq<char>, k: nat)
    requires NUL in a && k <= |CStr(a)|
    ensures k < |a| && a[k] == CharAt(CStr(a), k)
  {
  }

  /** The walk back of lines 176-177 (and 564-565): from p towards lo,
      stopping at lo or on white space. */
  function WordStart(line: string, lo: nat, p: nat): (q: nat)
    ensures p <= lo ==> q == p
    ensures p > lo ==> lo <= q <= p && (q == lo || IsSpace(CharAt(line, q)))
    ensures forall k :: q < k <= p ==> !IsSpace(CharAt(line, k))
    decreases p
  {
    if p <= lo || IsSpace(CharAt(line, p)) then p else WordStart(line, lo, p - 1)
  }

  /** SKIPWS on the caller's line. */
  method SkipWs(buf: array<char>) returns (s: nat)
    requires NUL in buf[..]
    ensures s == LeadingSpaces(CStr(buf[..]))
  {
    ghost var line := CStr(buf[..]);
    s := 0;
    while IsSpace(buf[s])
      invariant s <= |line| < buf.Length
      invariant forall k :: 0 <= k < s ==> IsSpace(line[k])
      decreases |line| - s
    {
      assert buf[s] == line[s];
      s := s + 1;
    }
    assert s == |line| || line[s] == buf[s];
    LeadingSpacesUnique(line, s);
  }

  /** The walk back, on the caller's line. */
  method WalkBack(buf: array<char>, lo: nat, p: nat) returns (q: nat)
    requires NUL in buf[..] && p <= |CStr(buf[..])|
    ensures q == WordStart(CStr(buf[..]), lo, p)
  {
    ghost var line := CStr(buf[..]);
    q := p;
    while q > lo && !IsSpace(buf[q])
      invariant q <= p
      invariant WordStart(line, lo, q) == WordStart(line, lo, p)
      decreases q
    {
      assert buf[q] == CharAt(line, q);
      q := q - 1;
    }
    assert buf[q] == CharAt(line, q);
  }

  // ----- mutt_command_complete -----

  /** The prefixes `set` lets stand before a variable name (line 223). */
  const VarPrefixes: seq<string> := ["no", "inv", "?", "&"]

  /** The length of the first prefix of ps that rest begins with, or 0. */
  function PrefixSkip(rest: string, ps: seq<string>): (n: nat)
    ensures n <= |rest|
  {
    if ps == [] then 0 else if ps[0] <= rest then |ps[0]| else PrefixSkip(rest, ps[1..])
  }

  /** Lines 229-236: one of no, inv, ? and & is skipped, no more. */
  lemma SetPrefixSkipsOne(rest: string)
    ensures "no" <= rest ==> PrefixSkip(rest, VarPrefixes) == 2
    ensures "inv" <= rest ==> PrefixSkip(rest, VarPrefixes) == 3
    ensures "?" <= rest || "&" <= rest ==> PrefixSkip(rest, VarPrefixes) == 1
    ensures !("no" <= rest || "inv" <= rest || "?" <= rest || "&" <= rest) ==>
              PrefixSkip(rest, VarPrefixes) == 0
  {
    assert VarPrefixes[1..] == ["inv", "?", "&"];
    assert ["inv", "?", "&"][1..] == ["?", "&"];
    assert ["?", "&"][1..] == ["&"];
    assert ["&"][1..] == [];
    assert PrefixSkip(rest, ["&"]) == if "&" <= rest then 1 else 0;
    assert PrefixSkip(rest, ["?", "&"]) == if "?" <= rest then 1 else PrefixSkip(rest, ["&"]);
    assert PrefixSkip(rest, ["inv", "?", "&"]) == if "inv" <= rest then 3 else PrefixSkip(rest, ["?", "&"]);
    if rest != [] {
      assert "no" <= rest ==> rest[0] == 'n';
      assert "inv" <= rest ==> rest[0] == 'i';
      assert "?" <= rest ==> rest[0] == '?';
      assert "&" <= rest ==> rest[0] == '&';
    }
  }

  /** What the word under the cursor is: a command name (the first word),
      a variable after set/unset/reset/toggle, a function after exec; `at`
      is where the text to complete begins. */
  datatype Target = CommandName(at: nat) | VariableName(at: nat) | FunctionName(at: nat) | NoTarget

  /** Lines 179, 220-237 and 292-299, given s (the leading white space)
      and q (where the walk back stopped). */
  function TargetAfterWalk(line: string, s: nat, q: nat): (t: Target)
    requires s <= |line| && (q == s || q < |line|)
    ensures !t.NoTarget? ==> t.at <= |line|
  {
    var cmd := line[s..];
    if q == s then CommandName(s)
    else if "set" <= cmd || "unset" <= cmd || "reset" <= cmd || "toggle" <= cmd then
      VariableName(q + 1 + (if "set" <= cmd then PrefixSkip(line[q + 1..], VarPrefixes) else 0))
    else if "exec" <= cmd then FunctionName(q + 1)
    else NoTarget
  }

  function CommandTarget(line: string, pos: nat): (t: Target)
    requires pos <= |line|
    ensures !t.NoTarget? ==> t.at <= |line|
  {
    var s := LeadingSpaces(line);
    TargetAfterWalk(line, s, WordStart(line, s, pos))
  }

  /** The first word is completed as a command when no white space lies
      between it and the cursor; every other word needs a command in front
      that completes its arguments. */
  lemma CommandTargetKinds(line: string, pos: nat)
    requires pos <= |line|
    ensures var s := LeadingSpaces(line);
            var t := CommandTarget(line, pos);
            && (t.CommandName? <==> s <= pos && forall k :: s < k <= pos ==> !IsSpace(CharAt(line, k)))
            && (t.CommandName? ==> t.at == s)
            && (t.VariableName? ==>
                  "set" <= line[s..] || "unset" <= line[s..] || "reset" <= line[s..] || "toggle" <= line[s..])
            && (t.FunctionName? ==> "exec" <= line[s..])
  {
  }

  /** A config variable as get_elem_list gives it. */
  datatype ConfigVar = ConfigVar(name: string, synonym: bool, deprecated: bool)

  /** Lines 249-258: synonyms and deprecated variables are not offered. */
  function OfferedVariables(vars: seq<ConfigVar>): (r: seq<string>)
    ensures forall x :: x in r <==> exists v :: v in vars && v.name == x && !v.synonym && !v.deprecated
  {
    if vars == [] then []
    else (if vars[0].synonym || vars[0].deprecated then [] else [vars[0].name])
         + OfferedVariables(vars[1..])
  }

  datatype MenuKind = PagerMenu | GenericMenu | OtherMenu

  /** The data sources of mutt_command_complete: commands_array, the
      config variables and MyVars in order, and the function tables of the
      current menu (None when it has none) and of the generic menu. */
  datatype Sources = Sources(commands: seq<string>, configVars: seq<ConfigVar>, myVars: seq<string>,
                             menu: MenuKind, menuFuncs: Option<seq<string>>, genericFuncs: seq<string>)

  /** Lines 294-316: the menu's table (the generic one when it has none),
      then the generic table again unless the menu is the pager or generic. */
  function ExecFunctions(src: Sources): seq<string>
    requires src.menuFuncs.Some? || src.menu != PagerMenu
  {
    (if src.menuFuncs.Some? then src.menuFuncs.value else src.genericFuncs)
    + (if src.menu != PagerMenu && src.menu != GenericMenu then src.genericFuncs else [])
  }

  function Offered(t: Target, src: Sources): seq<string>
    requires src.menuFuncs.Some? || src.menu != PagerMenu
  {
    match t
    case CommandName(_) => src.commands
    case VariableName(_) => OfferedVariables(src.configVars) + src.myVars
    case FunctionName(_) => ExecFunctions(src)
    case NoTarget => []
  }

  /** mutt_command_complete: a word that is none of the three kinds gives 0
      and changes nothing; otherwise one Tab runs on the text from `at` to
      the end of the line, and strncpy writes up to the end of buf. */
  method CommandComplete(cd: CompletionData, buf: array<char>, pos: int, numtabs: int, src: Sources)
    returns (rc: int)
    requires cd.Valid() && NUL in buf[..] && 0 <= pos <= |CStr(buf[..])|
    requires src.menuFuncs.Some? || src.menu != PagerMenu
    modifies cd, cd.matchList, buf
    ensures cd.Valid()
    ensures var line := CStr(old(buf[..]));
            var t := CommandTarget(line, pos);
            && (t.NoTarget? ==> rc == 0 && buf[..] == old(buf[..]) && unchanged(cd) && unchanged(cd.matchList))
            && (!t.NoTarget? ==>
                  var typed := Copy(line[t.at..], cd.typedSize);
                  var ms := Filter(typed, Offered(t, src));
                  TabResult(old(cd.State(buf)), cd.State(buf), cd.completedSize, t.at, typed,
                            AsNamed(ms) + [TypedRef], NarrowAll([], ms, cd.completedSize), numtabs, rc))
  {
    ghost var line := CStr(buf[..]);
    var s := SkipWs(buf);
    var q := WalkBack(buf, s, pos);
    var t := TargetAfterWalk(CStr(buf[..]), s, q);
    assert t == CommandTarget(line, pos);
    if t.NoTarget? {
      return 0;
    }
    CStrSuffix(buf[..], t.at);
    var token := CStr(buf[t.at..]);
    assert token == line[t.at..];
    rc := cd.Tab(buf, t.at, token, Offered(t, src), false, numtabs);
  }

  // ----- mutt_label_complete -----

  /** mutt_label_complete: without a mailbox or label table (None) it gives
      0; otherwise one Tab on the whole line after its leading white space,
      the matching labels sorted in front of the typed text. */
  method LabelComplete(cd: CompletionData, buf: array<char>, numtabs: int, labels: Option<seq<string>>)
    returns (rc: int)
    requires cd.Valid() && NUL in buf[..]
    modifies cd, cd.matchList, buf
    ensures cd.Valid()
    ensures labels.None? ==> rc == 0 && buf[..] == old(buf[..]) && unchanged(cd) && unchanged(cd.matchList)
    ensures labels.Some? ==>
              var line := CStr(old(buf[..]));
              var s := LeadingSpaces(line);
              var typed := Copy(line[s..], cd.typedSize);
              var ms := Filter(typed, labels.value);
              TabResult(old(cd.State(buf)), cd.State(buf), cd.completedSize, s, typed,
                        AsNamed(SortLabels(ms)) + [TypedRef], NarrowAll([], ms, cd.completedSize), numtabs, rc)
  {
    if labels.None? {
      return 0;
    }
    var s := SkipWs(buf);
    CStrSuffix(buf[..], s);
    rc := cd.Tab(buf, s, CStr(buf[s..]), labels.value, true, numtabs);
  }

  // ----- mutt_nm_tag_complete -----

  /** strrchr(line, ' '). */
  function LastSpace(line: string): (r: Option<nat>)
    ensures r.None? ==> ' ' !in line
    ensures r.Some? ==> r.value < |line| && line[r.value] == ' '
                        && forall k :: r.value < k < |line| ==> line[k] != ' '
  {
    if line == [] then None
    else if line[|line| - 1] == ' ' then Some(|line| - 1)
    else
      var r := LastSpace(line[..|line| - 1]);
      assert line == line[..|line| - 1] + [line[|line| - 1]];
      r
  }

  /** Lines 499-508: the text after the last space, less one leading + or -. */
  function NmTagStart(line: string): (at: nat)
    ensures at <= |line|
  {
    var p := if LastSpace(line).Some? then LastSpace(line).value + 1 else 0;
    if p < |line| && (line[p] == '+' || line[p] == '-') then p + 1 else p
  }

  /** The tag completed is the last space-separated word, without its
      sign: there is no space in it, and before it stands a space, a sign
      after a space, or the start of the line. */
  lemma NmTagIsLastWord(line: string)
    ensures var at := NmTagStart(line);
            && (forall k :: at <= k < |line| ==> line[k] != ' ')
            && (at == 0 || line[at - 1] == ' ' || line[at - 1] == '+' || line[at - 1] == '-')
            && (at > 0 && line[at - 1] != ' ' ==> at == 1 || line[at - 2] == ' ')
            && (at < |line| && (at == 0 || line[at - 1] == ' ') ==> line[at] != '+' && line[at] != '-')
  {
  }

  /** mutt_nm_tag_complete: one Tab on the tag word, its candidates coming
      from complete_all_nm_tags (None when the tag database fails). */
  method NmTagComplete(cd: CompletionData, buf: array<char>, numtabs: int, tags: Option<seq<string>>)
    returns (ok: bool)
    requires cd.Valid() && NUL in buf[..]
    modifies cd, cd.matchList, buf
    ensures cd.Valid()
    ensures var line := CStr(old(buf[..]));
            var at := NmTagStart(line);
            var typed := Copy(line[at..], cd.typedSize);
            var found := tags.Some? && tags.value != [];
            var ms := if found then Filter(typed, tags.value) else [];
            TabResult(old(cd.State(buf)), cd.State(buf), cd.completedSize, at, typed,
                      if found then AsNamed(ms) + [Named(typed)] else [],
                      NarrowAll([], ms, cd.completedSize), numtabs, if ok then 1 else 0)
  {
    ghost var line := CStr(buf[..]);
    var at := NmTagStart(CStr(buf[..]));
    CStrSuffix(buf[..], at);
    var token := CStr(buf[at..]);
    assert token == line[at..];
    ok := cd.NmTab(buf, at, token, tags, numtabs);
  }

  // ----- mutt_var_value_complete -----

  /** The size of the `var` array of line 573. */
  const VAR_NAME_SIZE: nat := 256

  /** What the two lookups give for a variable name: a config variable
      whose value could (Some) or could not (None) be read, a user-defined
      `my_` variable, or nothing. Values are already passed through
      pretty_var. */
  datatype VarLookup = ConfigValue(read: Option<string>) | UserVar(value: string) | NoSuchVar

  function LookupValue(r: VarLookup): Option<string>
  {
    match r
    case ConfigValue(v) => v
    case UserVar(v) => Some(v)
    case NoSuchVar => None
  }

  /** The return code of lines 590-611 as written: 0 after the config
      value was written, 1 when it could not be read. */
  function LookupRcAsWritten(r: VarLookup): int
  {
    match r
    case ConfigValue(v) => if v.Some? then 0 else 1
    case UserVar(_) => 1
    case NoSuchVar => 0
  }

  /** The documented return code: 1 exactly when a value was written. */
  function LookupRc(r: VarLookup): (rc: int)
    ensures rc == 0 || rc == 1
    ensures rc == 1 <==> LookupValue(r).Some?
  {
    if LookupValue(r).Some? then 1 else 0
  }

  /** The written code inverts both config outcomes, while it does agree
      with LookupRc for user variables. */
  lemma LookupRcAsWrittenInverted(value: string)
    ensures LookupRcAsWritten(ConfigValue(Some(value))) == 0 && LookupValue(ConfigValue(Some(value))).Some?
    ensures LookupRcAsWritten(ConfigValue(None)) == 1 && LookupValue(ConfigValue(None)).None?
    ensures LookupRcAsWritten(UserVar(value)) == LookupRc(UserVar(value))
  {
  }

  /** Where the name being completed starts, and the name itself. */
  datatype VarToken = VarToken(at: nat, name: string)

  /** The line and cursor mutt_var_value_complete can read: not a line of
      white space alone with the cursor at its end, where the walk would
      step past the terminator. */
  predicate VarLineReadable(line: string, pos: nat)
  {
    |line| == 0 || pos < |line| || LeadingSpaces(line) < |line|
  }

  /** Lines 557-580: the word before the cursor, after the space the walk
      stops on, on a `set` line; the name is that word less its last
      character (the '='). */
  function VarTarget(line: string, pos: nat): (t: Option<VarToken>)
    requires pos <= |line| && VarLineReadable(line, pos)
    ensures line == [] ==> t.None?
    ensures t.Some? ==> t.value.at < |line| && line[t.value.at] != '='
                        && "set" <= line[LeadingSpaces(line)..]
  {
    if line == [] then None
    else
      var s := LeadingSpaces(line);
      VarTargetAt(line, s, WordStart(line, s, pos) + 1)
  }

  /** Lines 567-580, from the position `at` the walk stopped after, on a
      line whose leading white space ends at s. */
  function VarTargetAt(line: string, s: nat, at: nat): (t: Option<VarToken>)
    requires s <= |line| && at <= |line|
    ensures t.Some? ==> t.value.at == at < |line| && line[at] != '=' && "set" <= line[s..]
  {
    if CharAt(line, at) == '=' || !("set" <= line[s..]) then None
    else
      var v := Copy(line[at..], VAR_NAME_SIZE);
      if v == [] then None
      else Some(VarToken(at, v[..|v| - 1]))
  }

  /** The name found is the word from `at` up to its last character (the
      '=' on a complete line), shorter than the name buffer. */
  lemma VarTargetName(line: string, pos: nat)
    requires pos <= |line| && VarLineReadable(line, pos)
    ensures var t := VarTarget(line, pos);
            t.Some? ==> |t.value.name| < VAR_NAME_SIZE - 1
                        && t.value.at + |t.value.name| < |line|
                        && t.value.name + [line[t.value.at + |t.value.name|]] <= line[t.value.at..]
  {
    var t := VarTarget(line, pos);
    if t.Some? {
      var s := LeadingSpaces(line);
      var at := WordStart(line, s, pos) + 1;
      assert t == VarTargetAt(line, s, at);
      var v := Copy(line[at..], VAR_NAME_SIZE);
      assert t.value.name == v[..|v| - 1];
      assert v[..|v| - 1] + [v[|v| - 1]] == v;
      assert v[|v| - 1] == line[at + |v| - 1];
    }
  }

  /** Lines 557-558, 567-568, 570 and 577-578: every way to get 0 before
      any lookup. */
  lemma VarTargetRejects(line: string, pos: nat)
    requires pos <= |line| && VarLineReadable(line, pos) && line != []
    ensures var s := LeadingSpaces(line);
            var at := WordStart(line, s, pos) + 1;
            VarTarget(line, pos).None? <==>
              CharAt(line, at) == '=' || !("set" <= line[s..]) || at == |line|
  {
  }

  /** snprintf(buf + at, room, "%s", text): the text cut to fit, and its terminator. */
  function SnprintfResult(b: seq<char>, at: nat, room: nat, text: string): (r: seq<char>)
    requires room > 0 && at + room <= |b|
    ensures |r| == |b|
  {
    var w := Copy(text, room) + [NUL];
    b[..at] + w + b[at + |w|..]
  }

  method Snprintf(buf: array<char>, at: nat, room: nat, text: string)
    requires room > 0 && at + room <= buf.Length
    modifies buf
    ensures buf[..] == SnprintfResult(old(buf[..]), at, room, text)
  {
    var w := Copy(text, room) + [NUL];
    var i := 0;
    while i < |w|
      invariant 0 <= i <= |w|
      invariant forall k :: 0 <= k < buf.Length ==>
                  buf[k] == (if at <= k < at + i then w[k - at] else old(buf[k]))
    {
      buf[at + i] := w[i];
      i := i + 1;
    }
    assert buf[..] == SnprintfResult(old(buf[..]), at, room, text);
  }

  /** After the rewrite the line reads as what stood before `at`, then
      name=value as far as it fits. */
  lemma SnprintfGivesLine(b: seq<char>, at: nat, room: nat, text: string)
    requires room > 0 && at + room <= |b| && NUL !in b[..at] && NUL !in text
    ensures CStr(SnprintfResult(b, at, room, text)) == b[..at] + Copy(text, room)
  {
    var r := SnprintfResult(b, at, room, text);
    var c := Copy(text, room);
    assert r == (b[..at] + c) + [NUL] + r[at + |c| + 1..];
    CStrStopsAtNul(b[..at] + c, r[at + |c| + 1..]);
  }

  /** The size lines 590 and 604 pass to snprintf as written:
      buflen - (pt - buf), with buf already past the leading white space. */
  function SnprintfRoomAsWritten(buflen: nat, at: nat, spaces: nat): int
  {
    buflen - (at - spaces)
  }

  /** The size that fits: the bytes from pt to the end of the line buffer. */
  function SnprintfRoom(buflen: nat, at: nat): (room: int)
    ensures at < buflen ==> room > 0 && at + room == buflen
  {
    buflen - at
  }

  /** With two leading blanks, a 16-byte line "  set a=" and a value
      "0123456789", the size as written lets snprintf write 18 bytes into
      the 16-byte buffer. */
  lemma VarValueOverrunsAsWritten()
    ensures var line := "  set a=";
            var t := VarTarget(line, 8);
            var room := SnprintfRoomAsWritten(16, 6, LeadingSpaces(line));
            && t == Some(VarToken(6, "a"))
            && room == 12
            && 6 + |Copy("a=0123456789", room)| + 1 == 18 > 16
  {
    var line := "  set a=";
    assert LeadingSpaces(line) == 2 by {
      LeadingSpacesUnique(line, 2);
    }
    assert line[5] == ' ' && line[6] == 'a' && line[7] == '=';
    assert WordStart(line, 2, 5) == 5;
    assert WordStart(line, 2, 6) == 5;
    assert WordStart(line, 2, 7) == 5;
    assert WordStart(line, 2, 8) == 5;
    assert line[2..] == "set a=";
    assert "set" <= line[2..];
    assert line[6..] == "a=";
    assert CharAt(line, 6) == 'a';
    assert Copy(line[6..], VAR_NAME_SIZE) == "a=";
    assert "a="[..1] == "a";
    assert VarTarget(line, 8) == Some(VarToken(6, "a"));
  }

  /** Lines 557-580 on the caller's line: where the variable name starts
      and the name (None when nothing is to be completed). */
  method FindVarToken(buf: array<char>, pos: int) returns (t: Option<VarToken>)
    requires NUL in buf[..] && 0 <= pos <= |CStr(buf[..])|
    requires VarLineReadable(CStr(buf[..]), pos)
    ensures t == VarTarget(CStr(buf[..]), pos)
  {
    ghost var line := CStr(buf[..]);
    if buf[0] == NUL {
      assert line == [];
      return None;
    }
    var s := SkipWs(buf);
    var q := WalkBack(buf, s, pos);
    var at := q + 1;
    assert at == WordStart(line, LeadingSpaces(line), pos) + 1;
    CharAtOfCStr(buf[..], at);
    if buf[at] == '=' {
      assert VarTarget(line, pos) == None;
      return None;
    }
    var cmd := CStr(buf[..])[s..];
    assert cmd == line[s..];
    if !("set" <= cmd) {
      assert VarTarget(line, pos) == None;
      return None;
    }
    CStrSuffix(buf[..], at);
    var v := Copy(CStr(buf[at..]), VAR_NAME_SIZE);
    assert v == Copy(line[at..], VAR_NAME_SIZE);
    if v == [] {
      assert VarTarget(line, pos) == None;
      return None;
    }
    VarTargetFound(line, pos, at, v);
    t := Some(VarToken(at, v[..|v| - 1]));
  }

  /** The name VarTarget gives once every test of lines 567-580 has passed. */
  lemma VarTargetFound(line: string, pos: nat, at: nat, v: string)
    requires pos <= |line| && VarLineReadable(line, pos) && line != []
    requires at == WordStart(line, LeadingSpaces(line), pos) + 1 && at <= |line|
    requires CharAt(line, at) != '=' && "set" <= line[LeadingSpaces(line)..]
    requires v == Copy(line[at..], VAR_NAME_SIZE) && v != []
    ensures VarTarget(line, pos) == Some(VarToken(at, v[..|v| - 1]))
  {
    assert VarTarget(line, pos) == VarTargetAt(line, LeadingSpaces(line), at);
  }

  /** What mutt_var_value_complete does to the line block `before` once
      VarTarget has given `t`, with the room and return code corrected:
      only a name with a value is rewritten, to name=value from the
      word's start, and then the result is 1; everything else gives 0 and
      leaves the line alone. */
  predicate VarValueResult(before: seq<char>, after: seq<char>, t: Option<VarToken>,
                           lookup: string -> VarLookup, rc: int)
    requires t.Some? ==> t.value.at < |before|
  {
    && (t.None? ==> rc == 0 && after == before)
    && (t.Some? ==>
          var r := lookup(t.value.name);
          && rc == LookupRc(r)
          && (LookupValue(r).None? ==> after == before)
          && (LookupValue(r).Some? ==>
                after == SnprintfResult(before, t.value.at, |before| - t.value.at,
                                        t.value.name + "=" + LookupValue(r).value)))
  }

  /** Lines 583-611 once the name is known: look it up, and write
      name=value when it has a value. */
  method WriteVarValue(buf: array<char>, t: Option<VarToken>, lookup: string -> VarLookup) returns (rc: int)
    requires t.Some? ==> t.value.at < buf.Length
    modifies buf
    ensures VarValueResult(old(buf[..]), buf[..], t, lookup, rc)
  {
    if t.None? {
      return 0;
    }
    var at, name := t.value.at, t.value.name;
    var r := lookup(name);
    rc := LookupRc(r);
    if LookupValue(r).Some? {
      Snprintf(buf, at, SnprintfRoom(buf.Length, at), name + "=" + LookupValue(r).value);
    }
  }

  /** mutt_var_value_complete on the caller's line. */
  method VarValueComplete(buf: array<char>, pos: int, lookup: string -> VarLookup) returns (rc: int)
    requires NUL in buf[..] && 0 <= pos <= |CStr(buf[..])|
    requires VarLineReadable(CStr(buf[..]), pos)
    modifies buf
    ensures VarValueResult(old(buf[..]), buf[..], VarTarget(CStr(old(buf[..])), pos), lookup, rc)
  {
    var t := FindVarToken(buf, pos);
    rc := WriteVarValue(buf, t, lookup);
  }
}
