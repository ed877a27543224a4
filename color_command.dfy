/** The token-consuming side of color/command.c: parse_attr_spec,
    parse_color_pair, parse_object, parse_uncolor, parse_color and the four
    command entry points. Each is a method over the argument stream `s`,
    the scratch buffer `buf` and the error buffer `err`, proved equal to a
    function of their old contents; the properties are lemmas about those
    functions. The colour registries and curses calls the commands make are
    not part of this model: their answers are parameters (Registry) and the
    calls themselves are recorded in order (Call). */
module ColorCommand {
  import opened CString
  import opened ColorTables
  import opened ColorParse
  import opened MuttBuffer

  /** The unparsed rest of a command line, as the tokens
      parse_extract_token would return one by one. */
  class Args {
    var rest: seq<string>

    constructor (tokens: seq<string>)
      ensures rest == tokens
    {
      rest := tokens;
    }

    /** MoreArgs(s): another token follows. */
    function MoreArgs(): bool
      reads this
    {
      rest != []
    }

    /** parse_extract_token(buf, s, TOKEN_NO_FLAGS): the next token is
        copied into buf (an empty one when none is left) and consumed. */
    method ExtractToken(buf: Buffer)
      requires buf.Valid()
      modifies this, buf
      ensures buf.Valid()
      ensures rest == (if old(rest) == [] then [] else old(rest)[1..])
      ensures buf.data == (if old(rest) == [] then "" else old(rest)[0])
    {
      var tok := if rest == [] then "" else rest[0];
      rest := if rest == [] then [] else rest[1..];
      var _ := buf.Strcpy(tok);
    }

    /** `*s->dptr = '\0'`: the text after the read position is cut off,
        so no argument is left. */
    method FakeDone()
      modifies this
      ensures rest == []
    {
      rest := [];
    }
  }

  /** What the parsers see and change: the remaining tokens, and the
      contents of buf and err. */
  datatype Io = Io(rest: seq<string>, buf: string, err: string)

  function IoOf(s: Args, buf: Buffer, err: Buffer): Io
    reads s, buf, err
  {
    Io(s.rest, buf.data, err.data)
  }

  /** The buffers the parsers are handed: set up, and two different ones. */
  ghost predicate Ready(buf: Buffer, err: Buffer)
    reads buf, err
  {
    buf.Valid() && err.Valid() && buf != err
  }

  /** parse_extract_token on the snapshot. */
  function Extract(io: Io): (r: Io)
    ensures io.rest != [] ==> r == Io(io.rest[1..], io.rest[0], io.err)
    ensures io.rest == [] ==> r == Io([], "", io.err)
  {
    if io.rest == [] then io.(buf := "") else Io(io.rest[1..], io.rest[0], io.err)
  }

  /** mutt_buffer_printf(err, ...) on the snapshot. */
  function Fail(io: Io, msg: string): Io
  {
    io.(err := msg)
  }

  /** "color" or "mono", as the messages name the command. */
  function CommandName(color: bool): string
  {
    if color then "color" else "mono"
  }

  // ----- parse_attr_spec and parse_color_pair -----

  /** The outcome of a parse_color callback: result code, the colours and
      attributes it leaves in fg, bg and attrs, and the new snapshot. */
  datatype Cb = Cb(rc: CommandResult, fg: nat, bg: nat, attrs: set<Attr>, io: Io)

  /** parse_attr_spec (lines 217-255). */
  function AttrSpecParse(io: Io, attrs: set<Attr>, env: Env): Cb
  {
    var unset := U32(env.colorUnset);
    if io.rest == [] then Cb(CmdWarning, unset, unset, attrs, Fail(io, "mono: too few arguments"))
    else
      var io1 := Extract(io);
      var k := AttrKeyword(io1.buf);
      if k.NotKeyword? then Cb(CmdWarning, unset, unset, attrs, Fail(io1, io1.buf + ": no such attribute"))
      else Cb(CmdSuccess, unset, unset, ApplyKeyword(attrs, k), io1)
  }

  /** The loop of parse_color_pair (lines 266-320): attribute keywords
      until the first other token, which is the foreground. */
  function ColorPairParse(io: Io, fg: nat, bg: nat, attrs: set<Attr>, env: Env): Cb
    decreases |io.rest|
  {
    if io.rest == [] then Cb(CmdWarning, fg, bg, attrs, Fail(io, "color: too few arguments"))
    else
      var io1 := Extract(io);
      var k := AttrKeyword(io1.buf);
      if !k.NotKeyword? then ColorPairParse(io1, fg, bg, ApplyKeyword(attrs, k), env)
      else match ParseColorName(io1.buf, true, env)
        case NameFail(rc, msg) => Cb(rc, fg, bg, attrs, Fail(io1, msg))
        case NameOk(f) => BackgroundParse(io1, f.col, bg, attrs + f.add, env)
  }

  /** Lines 322-330: the token after the foreground is the background. */
  function BackgroundParse(io: Io, fg: nat, bg: nat, attrs: set<Attr>, env: Env): Cb
  {
    if io.rest == [] then Cb(CmdWarning, fg, bg, attrs, Fail(io, "color: too few arguments"))
    else
      var io1 := Extract(io);
      match ParseColorName(io1.buf, false, env)
      case NameFail(rc, msg) => Cb(rc, fg, bg, attrs, Fail(io1, msg))
      case NameOk(b) => Cb(CmdSuccess, fg, b.col, attrs + b.add, io1)
  }

  /** parse_attr_spec: the colours become COLOR_UNSET, then one attribute
      keyword is read. */
  method ParseAttrSpec(buf: Buffer, s: Args, attrs0: set<Attr>, err: Buffer, env: Env)
    returns (rc: CommandResult, fg: nat, bg: nat, attrs: set<Attr>)
    requires Ready(buf, err)
    modifies buf, s, err
    ensures Ready(buf, err)
    ensures Cb(rc, fg, bg, attrs, IoOf(s, buf, err)) == AttrSpecParse(old(IoOf(s, buf, err)), attrs0, env)
  {
    fg, bg, attrs := U32(env.colorUnset), U32(env.colorUnset), attrs0;
    if !s.MoreArgs() {
      var _ := err.Printf("mono: too few arguments");
      return CmdWarning, fg, bg, attrs;
    }
    s.ExtractToken(buf);
    var k := AttrKeyword(buf.data);
    if k.NotKeyword? {
      var _ := err.Printf(buf.data + ": no such attribute");
      return CmdWarning, fg, bg, attrs;
    }
    attrs := ApplyKeyword(attrs, k);
    rc := CmdSuccess;
  }

  /** parse_color_pair: keywords, then foreground and background. */
  method ParseColorPair(buf: Buffer, s: Args, fg0: nat, bg0: nat, attrs0: set<Attr>, err: Buffer, env: Env)
    returns (rc: CommandResult, fg: nat, bg: nat, attrs: set<Attr>)
    requires Ready(buf, err)
    modifies buf, s, err
    ensures Ready(buf, err)
    ensures Cb(rc, fg, bg, attrs, IoOf(s, buf, err)) == ColorPairParse(old(IoOf(s, buf, err)), fg0, bg0, attrs0, env)
  {
    ghost var goal := ColorPairParse(IoOf(s, buf, err), fg0, bg0, attrs0, env);
    fg, bg, attrs := fg0, bg0, attrs0;
    while true
      invariant Ready(buf, err)
      invariant ColorPairParse(IoOf(s, buf, err), fg, bg, attrs, env) == goal
      decreases |s.rest|
    {
      if !s.MoreArgs() {
        var _ := err.Printf("color: too few arguments");
        return CmdWarning, fg, bg, attrs;
      }
      s.ExtractToken(buf);
      var k := AttrKeyword(buf.data);
      if !k.NotKeyword? {
        attrs := ApplyKeyword(attrs, k);
      } else {
        var r := ParseColorName(buf.data, true, env);
        if r.NameFail? {
          var _ := err.Printf(r.msg);
          return r.rc, fg, bg, attrs;
        }
        fg, attrs := r.value.col, attrs + r.value.add;
        break;
      }
    }
    assert BackgroundParse(IoOf(s, buf, err), fg, bg, attrs, env) == goal;
    if !s.MoreArgs() {
      var _ := err.Printf("color: too few arguments");
      return CmdWarning, fg, bg, attrs;
    }
    s.ExtractToken(buf);
    var r := ParseColorName(buf.data, false, env);
    if r.NameFail? {
      var _ := err.Printf(r.msg);
      return r.rc, fg, bg, attrs;
    }
    bg, attrs := r.value.col, attrs + r.value.add;
    rc := CmdSuccess;
  }

  // ----- parse_object -----

  /** The outcome of parse_object: result code, the object and quote
      level (as the caller's variables hold them), and the new snapshot. */
  datatype Obj = Obj(rc: CommandResult, cid: ColorId, ql: int, io: Io)

  /** parse_object (lines 368-423) on the token already in buf. */
  function ObjectParse(io: Io, cid0: ColorId, ql0: int, env: Env): Obj
  {
    if "quoted" <= io.buf then QuotedParse(io, cid0, ql0, env)
    else if IEqual(io.buf, "compose") then ComposeParse(io, cid0, ql0)
    else TableParse(io, cid0, ql0)
  }

  /** Lines 372-388: "quoted" (case-sensitive) and an optional level that
      mutt_str_atoi_full must read whole and that may not exceed
      COLOR_QUOTES_MAX. */
  function QuotedParse(io: Io, cid0: ColorId, ql0: int, env: Env): Obj
    requires "quoted" <= io.buf
  {
    var tok := io.buf;
    if |tok| > 6 then
      var v := AtoiFull(tok[6..]);
      if v.None? || v.value > env.quotesMax then Obj(CmdWarning, cid0, ql0, Fail(io, tok + ": no such object"))
      else Obj(CmdSuccess, Quoted, v.value, io)
    else Obj(CmdSuccess, Quoted, 0, io)
  }

  /** Lines 390-409: "compose" and the name after it, looked up in
      ComposeColorFields. */
  function ComposeParse(io: Io, cid0: ColorId, ql0: int): Obj
  {
    if io.rest == [] then Obj(CmdWarning, cid0, ql0, Fail(io, "color: too few arguments"))
    else ComposeName(Extract(io), cid0, ql0)
  }

  /** Lines 400-408: the name read after "compose". */
  function ComposeName(io: Io, cid0: ColorId, ql0: int): Obj
  {
    match MapGetValue(io.buf, ComposeColorFields())
    case None => Obj(CmdWarning, cid0, ql0, Fail(io, io.buf + ": no such object"))
    case Some(c) => Obj(CmdSuccess, c, ql0, io)
  }

  /** Lines 411-422: any other name, looked up in ColorFields. */
  function TableParse(io: Io, cid0: ColorId, ql0: int): Obj
  {
    match MapGetValue(io.buf, ColorFields())
    case None => Obj(CmdWarning, cid0, ql0, Fail(io, io.buf + ": no such object"))
    case Some(c) => Obj(CmdSuccess, c, ql0, io)
  }

  /** parse_object: which object a command is about. */
  method ParseObject(buf: Buffer, s: Args, cid0: ColorId, ql0: int, err: Buffer, env: Env)
    returns (rc: CommandResult, cid: ColorId, ql: int)
    requires Ready(buf, err)
    modifies buf, s, err
    ensures Ready(buf, err)
    ensures Obj(rc, cid, ql, IoOf(s, buf, err)) == ObjectParse(old(IoOf(s, buf, err)), cid0, ql0, env)
  {
    ghost var io0 := IoOf(s, buf, err);
    if "quoted" <= buf.data {
      assert ObjectParse(io0, cid0, ql0, env) == QuotedParse(io0, cid0, ql0, env);
      rc, cid, ql := ParseQuoted(buf, s, cid0, ql0, err, env);
    } else if IEqual(buf.data, "compose") {
      assert ObjectParse(io0, cid0, ql0, env) == ComposeParse(io0, cid0, ql0);
      rc, cid, ql := ParseCompose(buf, s, cid0, ql0, err);
    } else {
      assert ObjectParse(io0, cid0, ql0, env) == TableParse(io0, cid0, ql0);
      rc, cid, ql := ParseTableObject(buf, s, cid0, ql0, err);
    }
  }

  method ParseQuoted(buf: Buffer, s: Args, cid0: ColorId, ql0: int, err: Buffer, env: Env)
    returns (rc: CommandResult, cid: ColorId, ql: int)
    requires Ready(buf, err) && "quoted" <= buf.data
    modifies err
    ensures Ready(buf, err)
    ensures Obj(rc, cid, ql, IoOf(s, buf, err)) == QuotedParse(old(IoOf(s, buf, err)), cid0, ql0, env)
  {
    cid, ql := cid0, ql0;
    var val := 0;
    if |buf.data| > 6 {
      var v := AtoiFull(buf.data[6..]);
      if v.None? || v.value > env.quotesMax {
        var _ := err.Printf(buf.data + ": no such object");
        return CmdWarning, cid, ql;
      }
      val := v.value;
    }
    return CmdSuccess, Quoted, val;
  }

  method ParseCompose(buf: Buffer, s: Args, cid0: ColorId, ql0: int, err: Buffer)
    returns (rc: CommandResult, cid: ColorId, ql: int)
    requires Ready(buf, err)
    modifies buf, s, err
    ensures Ready(buf, err)
    ensures Obj(rc, cid, ql, IoOf(s, buf, err)) == ComposeParse(old(IoOf(s, buf, err)), cid0, ql0)
  {
    cid, ql := cid0, ql0;
    if !s.MoreArgs() {
      var _ := err.Printf("color: too few arguments");
      return CmdWarning, cid, ql;
    }
    s.ExtractToken(buf);
    rc, cid, ql := ParseComposeName(buf, s, cid0, ql0, err);
  }

  method ParseComposeName(buf: Buffer, s: Args, cid0: ColorId, ql0: int, err: Buffer)
    returns (rc: CommandResult, cid: ColorId, ql: int)
    requires Ready(buf, err)
    modifies err
    ensures Ready(buf, err)
    ensures Obj(rc, cid, ql, IoOf(s, buf, err)) == ComposeName(old(IoOf(s, buf, err)), cid0, ql0)
  {
    cid, ql := cid0, ql0;
    var c := MapGetValue(buf.data, ComposeColorFields());
    if c.None? {
      var _ := err.Printf(buf.data + ": no such object");
      return CmdWarning, cid, ql;
    }
    return CmdSuccess, c.value, ql;
  }

  method ParseTableObject(buf: Buffer, s: Args, cid0: ColorId, ql0: int, err: Buffer)
    returns (rc: CommandResult, cid: ColorId, ql: int)
    requires Ready(buf, err)
    modifies err
    ensures Ready(buf, err)
    ensures Obj(rc, cid, ql, IoOf(s, buf, err)) == TableParse(old(IoOf(s, buf, err)), cid0, ql0)
  {
    cid, ql := cid0, ql0;
    var c := MapGetValue(buf.data, ColorFields());
    if c.None? {
      var _ := err.Printf(buf.data + ": no such object");
      return CmdWarning, cid, ql;
    }
    return CmdSuccess, c.value, ql;
  }

  // ----- Collaborators -----

  /** The answers of the functions outside this file that the commands
      consult: mutt_color_has_pattern, use_default_colors() == OK,
      regex_colors_parse_color_list (None when the object is not one of
      its lists), quoted_colors_parse_color (likewise),
      regex_colors_parse_status_list, simple_color_set,
      quoted_colors_parse_uncolor and regex_colors_parse_uncolor. */
  datatype Registry = Registry(
    hasPattern: ColorId -> bool,
    defaultColorsOk: bool,
    regexList: (ColorId, string) -> Option<CommandResult>,
    quotedColor: ColorId -> Option<CommandResult>,
    statusList: CommandResult,
    simpleSet: bool,
    quotedUncolor: CommandResult,
    regexUncolor: (ColorId, Option<string>, bool) -> bool)

  /** A call to a collaborator, with the arguments it is given. */
  datatype Call =
    | ColorsClear
    | QuotedUncolor(cid: ColorId, ql: int)
    | SimpleReset(cid: ColorId)
    | RegexUncolor(cid: ColorId, removed: Option<string>, uncolor: bool)
    | RegexDumpAll
    | UseDefaultColors
    | RegexColorList(cid: ColorId, pattern: string, fg: nat, bg: nat, attrs: set<Attr>)
    | QuotedColor(cid: ColorId, fg: nat, bg: nat, attrs: set<Attr>, ql: int)
    | StatusList(cid: ColorId, pattern: string, fg: nat, bg: nat, attrs: set<Attr>, matchNo: nat)
    | SimpleSet(cid: ColorId, fg: nat, bg: nat, attrs: set<Attr>)
    | NotifySet(cid: ColorId)
    | CursesDump

  /** The outcome of a command: result code, the calls made, the new snapshot. */
  datatype Outcome = Outcome(rc: CommandResult, calls: seq<Call>, io: Io)

  /** MT_COLOR_NONE, the object before one is parsed; its number is not
      part of this model and it is never read. */
  const NoObject: ColorId := Unmapped(0)

  function OkIf(b: bool): CommandResult
  {
    if b then CmdSuccess else CmdError
  }

  // ----- parse_uncolor -----

  /** Lines 482-492: with curses off, the remaining arguments are eaten
      (at least one token is read). */
  function EatAll(io: Io): (r: Io)
    ensures r.rest == [] && r.err == io.err
    decreases |io.rest|
  {
    var io1 := Extract(io);
    if io1.rest == [] then io1 else EatAll(io1)
  }

  /** Lines 503-521: each pattern is removed from the object's list until
      the arguments end or a "*" removes them all. */
  function UncolorPatterns(io: Io, cid: ColorId, uncolor: bool, changes: bool,
                           calls: seq<Call>, reg: Registry): Outcome
    decreases |io.rest|
  {
    var io1 := Extract(io);
    if io1.buf == "*" then
      Outcome(OkIf(reg.regexUncolor(cid, None, uncolor)), calls + [RegexUncolor(cid, None, uncolor)], io1)
    else
      var ch := reg.regexUncolor(cid, Some(io1.buf), uncolor) || changes;
      var calls1 := calls + [RegexUncolor(cid, Some(io1.buf), uncolor)];
      if io1.rest != [] then UncolorPatterns(io1, cid, uncolor, ch, calls1, reg)
      else Outcome(CmdSuccess, if ch then calls1 + [RegexDumpAll] else calls1, io1)
  }

  /** parse_uncolor (lines 438-522). */
  function UncolorParse(io: Io, uncolor: bool, env: Env, reg: Registry): Outcome
  {
    var io1 := Extract(io);
    if io1.buf == "*" then Outcome(CmdSuccess, [ColorsClear], io1)
    else
      var o := ObjectParse(io1, NoObject, 0, env);
      if o.rc != CmdSuccess then Outcome(o.rc, [], o.io)
      else UncolorObject(o.io, o.cid, o.ql, uncolor, env, reg)
  }

  /** Lines 456-521, once the object is known. */
  function UncolorObject(io: Io, cid: ColorId, ql: int, uncolor: bool, env: Env, reg: Registry): Outcome
  {
    if cid == Quoted then Outcome(reg.quotedUncolor, [QuotedUncolor(cid, ql)], io)
    else if cid == Status && io.rest == [] then Outcome(CmdSuccess, [SimpleReset(cid)], io)
    else if !reg.hasPattern(cid) then Outcome(CmdSuccess, [SimpleReset(cid)], io)
    else if env.noCurses then Outcome(CmdSuccess, [], EatAll(io))
    else if io.rest == [] then
      Outcome(OkIf(reg.regexUncolor(cid, None, uncolor)), [RegexUncolor(cid, None, uncolor)], io)
    else UncolorPatterns(io, cid, uncolor, false, [], reg)
  }

  method EatArgs(buf: Buffer, s: Args, err: Buffer)
    requires Ready(buf, err)
    modifies buf, s
    ensures Ready(buf, err)
    ensures IoOf(s, buf, err) == EatAll(old(IoOf(s, buf, err)))
  {
    ghost var goal := EatAll(IoOf(s, buf, err));
    s.ExtractToken(buf);
    while s.MoreArgs()
      invariant Ready(buf, err)
      invariant s.rest != [] ==> EatAll(IoOf(s, buf, err)) == goal
      invariant s.rest == [] ==> IoOf(s, buf, err) == goal
      decreases |s.rest|
    {
      s.ExtractToken(buf);
    }
  }

  method RemovePatterns(buf: Buffer, s: Args, cid: ColorId, uncolor: bool, err: Buffer, reg: Registry)
    returns (rc: CommandResult, calls: seq<Call>)
    requires Ready(buf, err)
    modifies buf, s
    ensures Ready(buf, err)
    ensures Outcome(rc, calls, IoOf(s, buf, err)) == UncolorPatterns(old(IoOf(s, buf, err)), cid, uncolor, false, [], reg)
  {
    ghost var goal := UncolorPatterns(IoOf(s, buf, err), cid, uncolor, false, [], reg);
    var changes := false;
    calls := [];
    while true
      invariant Ready(buf, err)
      invariant UncolorPatterns(IoOf(s, buf, err), cid, uncolor, changes, calls, reg) == goal
      decreases |s.rest|
    {
      s.ExtractToken(buf);
      if buf.data == "*" {
        var ok := reg.regexUncolor(cid, None, uncolor);
        return OkIf(ok), calls + [RegexUncolor(cid, None, uncolor)];
      }
      changes := reg.regexUncolor(cid, Some(buf.data), uncolor) || changes;
      calls := calls + [RegexUncolor(cid, Some(buf.data), uncolor)];
      if !s.MoreArgs() {
        break;
      }
    }
    if changes {
      calls := calls + [RegexDumpAll];
    }
    rc := CmdSuccess;
  }

  method ParseUncolor(buf: Buffer, s: Args, err: Buffer, uncolor: bool, env: Env, reg: Registry)
    returns (rc: CommandResult, calls: seq<Call>)
    requires Ready(buf, err)
    modifies buf, s, err
    ensures Ready(buf, err)
    ensures Outcome(rc, calls, IoOf(s, buf, err)) == UncolorParse(old(IoOf(s, buf, err)), uncolor, env, reg)
  {
    s.ExtractToken(buf);
    if buf.data == "*" {
      return CmdSuccess, [ColorsClear];
    }
    var cid, ql;
    rc, cid, ql := ParseObject(buf, s, NoObject, 0, err, env);
    if rc != CmdSuccess {
      return rc, [];
    }
    rc, calls := UncolorKnownObject(buf, s, err, cid, ql, uncolor, env, reg);
  }

  method UncolorKnownObject(buf: Buffer, s: Args, err: Buffer, cid: ColorId, ql: int, uncolor: bool,
                            env: Env, reg: Registry)
    returns (rc: CommandResult, calls: seq<Call>)
    requires Ready(buf, err)
    modifies buf, s
    ensures Ready(buf, err)
    ensures Outcome(rc, calls, IoOf(s, buf, err)) == UncolorObject(old(IoOf(s, buf, err)), cid, ql, uncolor, env, reg)
  {
    if cid == Quoted {
      return reg.quotedUncolor, [QuotedUncolor(cid, ql)];
    }
    if cid == Status && !s.MoreArgs() {
      return CmdSuccess, [SimpleReset(cid)];
    }
    if !reg.hasPattern(cid) {
      return CmdSuccess, [SimpleReset(cid)];
    }
    if env.noCurses {
      EatArgs(buf, s, err);
      return CmdSuccess, [];
    }
    if !s.MoreArgs() {
      var ok := reg.regexUncolor(cid, None, uncolor);
      return OkIf(ok), [RegexUncolor(cid, None, uncolor)];
    }
    rc, calls := RemovePatterns(buf, s, cid, uncolor, err, reg);
  }

  // ----- parse_color -----

  /** Lines 756-767: a pattern-capable object other than status reads its
      pattern into buf, ".*" when no argument is left. */
  function PatternStage(io: Io, cid: ColorId, reg: Registry): Io
  {
    if reg.hasPattern(cid) && cid != Status then
      if io.rest != [] then Extract(io) else io.(buf := ".*")
    else io
  }

  /** parse_color (lines 723-855); `color` selects the callback
      (parse_color_pair for "color", parse_attr_spec for "mono") and the
      name in the messages. */
  function ColorCommandParse(io: Io, color: bool, dryRun: bool, env: Env, reg: Registry): Outcome
  {
    if io.rest == [] then Outcome(CmdWarning, [], Fail(io, "color: too few arguments"))
    else
      var o := ObjectParse(Extract(io), NoObject, 0, env);
      if o.rc != CmdSuccess then Outcome(o.rc, [], o.io)
      else
        var cb := if color then ColorPairParse(o.io, 0, 0, {}, env) else AttrSpecParse(o.io, {}, env);
        if cb.rc != CmdSuccess then Outcome(cb.rc, [], cb.io)
        else ColorFinish(cb.io, o.cid, o.ql, cb.fg, cb.bg, cb.attrs, color, dryRun, env, reg)
  }

  /** Lines 756-779: the pattern, the count of arguments, the dry run. */
  function ColorFinish(io: Io, cid: ColorId, ql: int, fg: nat, bg: nat, attrs: set<Attr>,
                       color: bool, dryRun: bool, env: Env, reg: Registry): Outcome
  {
    var io1 := PatternStage(io, cid, reg);
    if io1.rest != [] && cid != Status then
      Outcome(CmdWarning, [], Fail(io1, CommandName(color) + ": too many arguments"))
    else if dryRun then Outcome(CmdSuccess, [], io1.(rest := []))
    else ColorApply(io1, cid, ql, fg, bg, attrs, color, env, reg)
  }

  /** Lines 785-855: the default-colour check, then the first handler that
      takes the object; a simple colour that is set names its object in buf. */
  function ColorApply(io: Io, cid: ColorId, ql: int, fg: nat, bg: nat, attrs: set<Attr>,
                      color: bool, env: Env, reg: Registry): Outcome
  {
    var askDefault := AskDefault(cid, fg, bg, env);
    if askDefault && !reg.defaultColorsOk then
      Outcome(CmdError, [UseDefaultColors], Fail(io, "default colors not supported"))
    else
      ColorHandlers(io, cid, ql, fg, bg, attrs, color, if askDefault then [UseDefaultColors] else [], reg)
  }

  /** Lines 785-791: the terminal must support default colours when one is
      asked for, and always for the tree. */
  predicate AskDefault(cid: ColorId, fg: nat, bg: nat, env: Env)
  {
    var dflt := U32(env.colorDefault);
    !env.noCurses && (fg == dflt || bg == dflt || cid == Tree)
  }

  /** Lines 793-804: the regex list, then the quoted colours, may take the object. */
  function ColorHandlers(io: Io, cid: ColorId, ql: int, fg: nat, bg: nat, attrs: set<Attr>,
                         color: bool, calls0: seq<Call>, reg: Registry): Outcome
  {
    var calls := calls0 + [RegexColorList(cid, io.buf, fg, bg, attrs)];
    match reg.regexList(cid, io.buf)
    case Some(rc) => Outcome(rc, calls, io)
    case None =>
      var calls1 := calls + [QuotedColor(cid, fg, bg, attrs, ql)];
      match reg.quotedColor(cid)
      case Some(rc) => Outcome(rc, calls1, io)
      case None => ColorSimple(io, cid, fg, bg, attrs, color, calls1, reg)
  }

  /** Lines 805-852: the status line with a pattern, or a simple colour. */
  function ColorSimple(io: Io, cid: ColorId, fg: nat, bg: nat, attrs: set<Attr>,
                       color: bool, calls0: seq<Call>, reg: Registry): Outcome
  {
    if cid == Status && io.rest != [] then StatusParse(io, cid, fg, bg, attrs, color, calls0, reg)
    else
      var calls := calls0 + [SimpleSet(cid, fg, bg, attrs)];
      if reg.simpleSet then Outcome(CmdSuccess, calls + [NotifySet(cid)], io.(buf := ColorIdName(cid)))
      else Outcome(CmdError, calls, io)
  }

  /** Lines 805-836: "color status fg bg pattern [n]". */
  function StatusParse(io: Io, cid: ColorId, fg: nat, bg: nat, attrs: set<Attr>, color: bool,
                       calls: seq<Call>, reg: Registry): Outcome
  {
    StatusNumber(Extract(io), cid, fg, bg, attrs, color, calls, reg)
  }

  /** Lines 814-826: the optional submatch number after the pattern. */
  function StatusNumber(io: Io, cid: ColorId, fg: nat, bg: nat, attrs: set<Attr>, color: bool,
                        calls: seq<Call>, reg: Registry): Outcome
  {
    if io.rest != [] then
      var tmp := io.rest[0];
      var io2 := io.(rest := io.rest[1..]);
      match AtouiFull(tmp)
      case None => Outcome(CmdWarning, calls, Fail(io2, CommandName(color) + ": invalid number: " + tmp))
      case Some(m) => StatusEnd(io2, cid, fg, bg, attrs, m, color, calls, reg)
    else StatusEnd(io, cid, fg, bg, attrs, 0, color, calls, reg)
  }

  function StatusEnd(io: Io, cid: ColorId, fg: nat, bg: nat, attrs: set<Attr>, m: nat, color: bool,
                     calls: seq<Call>, reg: Registry): Outcome
  {
    if io.rest != [] then Outcome(CmdWarning, calls, Fail(io, CommandName(color) + ": too many arguments"))
    else Outcome(reg.statusList, calls + [StatusList(cid, io.buf, fg, bg, attrs, m)], io)
  }

  /** get_colorid_name: the object's name printed into buf. */
  method GetColoridName(cid: ColorId, buf: Buffer)
    requires buf.Valid()
    modifies buf
    ensures buf.Valid() && buf.data == ColorIdName(cid)
  {
    var _ := buf.Printf(ColorIdName(cid));
  }

  method ParseColor(buf: Buffer, s: Args, err: Buffer, color: bool, dryRun: bool, env: Env, reg: Registry)
    returns (rc: CommandResult, calls: seq<Call>)
    requires Ready(buf, err)
    modifies buf, s, err
    ensures Ready(buf, err)
    ensures Outcome(rc, calls, IoOf(s, buf, err)) == ColorCommandParse(old(IoOf(s, buf, err)), color, dryRun, env, reg)
  {
    if !s.MoreArgs() {
      var _ := err.Printf("color: too few arguments");
      return CmdWarning, [];
    }
    s.ExtractToken(buf);
    var cid, ql;
    rc, cid, ql := ParseObject(buf, s, NoObject, 0, err, env);
    if rc != CmdSuccess {
      return rc, [];
    }
    var fg, bg, attrs;
    if color {
      rc, fg, bg, attrs := ParseColorPair(buf, s, 0, 0, {}, err, env);
    } else {
      rc, fg, bg, attrs := ParseAttrSpec(buf, s, {}, err, env);
    }
    if rc != CmdSuccess {
      return rc, [];
    }
    rc, calls := FinishColor(buf, s, err, cid, ql, fg, bg, attrs, color, dryRun, env, reg);
  }

  method FinishColor(buf: Buffer, s: Args, err: Buffer, cid: ColorId, ql: int, fg: nat, bg: nat,
                     attrs: set<Attr>, color: bool, dryRun: bool, env: Env, reg: Registry)
    returns (rc: CommandResult, calls: seq<Call>)
    requires Ready(buf, err)
    modifies buf, s, err
    ensures Ready(buf, err)
    ensures Outcome(rc, calls, IoOf(s, buf, err))
              == ColorFinish(old(IoOf(s, buf, err)), cid, ql, fg, bg, attrs, color, dryRun, env, reg)
  {
    ghost var io0 := IoOf(s, buf, err);
    ReadPattern(buf, s, err, cid, reg);
    ghost var io1 := IoOf(s, buf, err);
    assert io1 == PatternStage(io0, cid, reg);
    if s.MoreArgs() && cid != Status {
      var msg := CommandName(color) + ": too many arguments";
      assert ColorFinish(io0, cid, ql, fg, bg, attrs, color, dryRun, env, reg) == Outcome(CmdWarning, [], Fail(io1, msg));
      var _ := err.Printf(msg);
      return CmdWarning, [];
    }
    if dryRun {
      assert ColorFinish(io0, cid, ql, fg, bg, attrs, color, dryRun, env, reg) == Outcome(CmdSuccess, [], io1.(rest := []));
      s.FakeDone();
      return CmdSuccess, [];
    }
    assert ColorFinish(io0, cid, ql, fg, bg, attrs, color, dryRun, env, reg) == ColorApply(io1, cid, ql, fg, bg, attrs, color, env, reg);
    rc, calls := ApplyColor(buf, s, err, cid, ql, fg, bg, attrs, color, env, reg);
  }

  /** Lines 756-767 on the buffers. */
  method ReadPattern(buf: Buffer, s: Args, err: Buffer, cid: ColorId, reg: Registry)
    requires Ready(buf, err)
    modifies buf, s
    ensures Ready(buf, err)
    ensures IoOf(s, buf, err) == PatternStage(old(IoOf(s, buf, err)), cid, reg)
  {
    if reg.hasPattern(cid) && cid != Status {
      if s.MoreArgs() {
        s.ExtractToken(buf);
      } else {
        var _ := buf.Strcpy(".*");
      }
    }
  }

  method ApplyColor(buf: Buffer, s: Args, err: Buffer, cid: ColorId, ql: int, fg: nat, bg: nat,
                    attrs: set<Attr>, color: bool, env: Env, reg: Registry)
    returns (rc: CommandResult, calls: seq<Call>)
    requires Ready(buf, err)
    modifies buf, s, err
    ensures Ready(buf, err)
    ensures Outcome(rc, calls, IoOf(s, buf, err)) == ColorApply(old(IoOf(s, buf, err)), cid, ql, fg, bg, attrs, color, env, reg)
  {
    var askDefault := AskDefault(cid, fg, bg, env);
    calls := [];
    if askDefault {
      calls := [UseDefaultColors];
      if !reg.defaultColorsOk {
        var _ := err.Strcpy("default colors not supported");
        return CmdError, calls;
      }
    }
    rc, calls := ApplyHandlers(buf, s, err, cid, ql, fg, bg, attrs, color, calls, reg);
  }

  method ApplyHandlers(buf: Buffer, s: Args, err: Buffer, cid: ColorId, ql: int, fg: nat, bg: nat,
                       attrs: set<Attr>, color: bool, calls0: seq<Call>, reg: Registry)
    returns (rc: CommandResult, calls: seq<Call>)
    requires Ready(buf, err)
    modifies buf, s, err
    ensures Ready(buf, err)
    ensures Outcome(rc, calls, IoOf(s, buf, err)) == ColorHandlers(old(IoOf(s, buf, err)), cid, ql, fg, bg, attrs, color, calls0, reg)
  {
    calls := calls0 + [RegexColorList(cid, buf.data, fg, bg, attrs)];
    var handled := reg.regexList(cid, buf.data);
    if handled.Some? {
      return handled.value, calls;
    }
    calls := calls + [QuotedColor(cid, fg, bg, attrs, ql)];
    handled := reg.quotedColor(cid);
    if handled.Some? {
      return handled.value, calls;
    }
    rc, calls := ApplySimple(buf, s, err, cid, fg, bg, attrs, color, calls, reg);
  }

  method ApplySimple(buf: Buffer, s: Args, err: Buffer, cid: ColorId, fg: nat, bg: nat,
                     attrs: set<Attr>, color: bool, calls0: seq<Call>, reg: Registry)
    returns (rc: CommandResult, calls: seq<Call>)
    requires Ready(buf, err)
    modifies buf, s, err
    ensures Ready(buf, err)
    ensures Outcome(rc, calls, IoOf(s, buf, err)) == ColorSimple(old(IoOf(s, buf, err)), cid, fg, bg, attrs, color, calls0, reg)
  {
    if cid == Status && s.MoreArgs() {
      rc, calls := StatusColor(buf, s, err, cid, fg, bg, attrs, color, calls0, reg);
      return;
    }
    calls := calls0 + [SimpleSet(cid, fg, bg, attrs)];
    if !reg.simpleSet {
      return CmdError, calls;
    }
    GetColoridName(cid, buf);
    calls := calls + [NotifySet(cid)];
    rc := CmdSuccess;
  }

  method StatusColor(buf: Buffer, s: Args, err: Buffer, cid: ColorId, fg: nat, bg: nat,
                     attrs: set<Attr>, color: bool, calls0: seq<Call>, reg: Registry)
    returns (rc: CommandResult, calls: seq<Call>)
    requires Ready(buf, err)
    modifies buf, s, err
    ensures Ready(buf, err)
    ensures Outcome(rc, calls, IoOf(s, buf, err)) == StatusParse(old(IoOf(s, buf, err)), cid, fg, bg, attrs, color, calls0, reg)
  {
    s.ExtractToken(buf);
    rc, calls := StatusNumberStep(buf, s, err, cid, fg, bg, attrs, color, calls0, reg);
  }

  method StatusNumberStep(buf: Buffer, s: Args, err: Buffer, cid: ColorId, fg: nat, bg: nat,
                          attrs: set<Attr>, color: bool, calls0: seq<Call>, reg: Registry)
    returns (rc: CommandResult, calls: seq<Call>)
    requires Ready(buf, err)
    modifies s, err
    ensures Ready(buf, err)
    ensures Outcome(rc, calls, IoOf(s, buf, err)) == StatusNumber(old(IoOf(s, buf, err)), cid, fg, bg, attrs, color, calls0, reg)
  {
    if s.MoreArgs() {
      rc, calls := StatusNumberArg(buf, s, err, cid, fg, bg, attrs, color, calls0, reg);
    } else {
      rc, calls := StatusFinish(buf, s, err, cid, fg, bg, attrs, 0, color, calls0, reg);
    }
  }

  /** Lines 814-826: a number is given; it must read as an unsigned int. */
  method StatusNumberArg(buf: Buffer, s: Args, err: Buffer, cid: ColorId, fg: nat, bg: nat,
                         attrs: set<Attr>, color: bool, calls0: seq<Call>, reg: Registry)
    returns (rc: CommandResult, calls: seq<Call>)
    requires Ready(buf, err) && s.rest != []
    modifies s, err
    ensures Ready(buf, err)
    ensures Outcome(rc, calls, IoOf(s, buf, err)) == StatusNumber(old(IoOf(s, buf, err)), cid, fg, bg, attrs, color, calls0, reg)
  {
    ghost var io0 := IoOf(s, buf, err);
    ghost var io2 := io0.(rest := io0.rest[1..]);
    var tmp := ExtractToTemporary(s);
    assert IoOf(s, buf, err) == io2 && tmp == io0.rest[0];
    match AtouiFull(tmp)
    case None =>
      var msg := CommandName(color) + ": invalid number: " + tmp;
      assert StatusNumber(io0, cid, fg, bg, attrs, color, calls0, reg) == Outcome(CmdWarning, calls0, Fail(io2, msg));
      var _ := err.Printf(msg);
      assert IoOf(s, buf, err) == Fail(io2, msg);
      rc, calls := CmdWarning, calls0;
    case Some(m) =>
      assert StatusNumber(io0, cid, fg, bg, attrs, color, calls0, reg) == StatusEnd(io2, cid, fg, bg, attrs, m, color, calls0, reg);
      rc, calls := StatusFinish(buf, s, err, cid, fg, bg, attrs, m, color, calls0, reg);
  }

  method StatusFinish(buf: Buffer, s: Args, err: Buffer, cid: ColorId, fg: nat, bg: nat,
                      attrs: set<Attr>, m: nat, color: bool, calls0: seq<Call>, reg: Registry)
    returns (rc: CommandResult, calls: seq<Call>)
    requires Ready(buf, err)
    modifies err
    ensures Ready(buf, err)
    ensures Outcome(rc, calls, IoOf(s, buf, err)) == StatusEnd(old(IoOf(s, buf, err)), cid, fg, bg, attrs, m, color, calls0, reg)
  {
    calls := calls0;
    if s.MoreArgs() {
      var _ := err.Printf(CommandName(color) + ": too many arguments");
      return CmdWarning, calls;
    }
    rc := reg.statusList;
    calls := calls + [StatusList(cid, buf.data, fg, bg, attrs, m)];
  }

  /** Lines 816-825: the next token is read into a buffer of its own,
      which is released once it has been looked at. */
  method ExtractToTemporary(s: Args) returns (tok: string)
    requires s.rest != []
    modifies s
    ensures tok == old(s.rest)[0] && s.rest == old(s.rest)[1..]
  {
    var tmp := new Buffer.Make(0);
    s.ExtractToken(tmp);
    tok := tmp.data;
    tmp.Dealloc();
  }

  // ----- The commands -----

  /** mutt_parse_uncolor: nothing to undo while curses is off. */
  function UncolorCommand(io: Io, env: Env, reg: Registry): Outcome
  {
    if env.noCurses then Outcome(CmdSuccess, [], io.(rest := []))
    else
      var o := UncolorParse(io, true, env, reg);
      o.(calls := o.calls + [CursesDump])
  }

  /** mutt_parse_unmono: the arguments are ignored. */
  function UnmonoCommand(io: Io): Outcome
  {
    Outcome(CmdSuccess, [], io.(rest := []))
  }

  /** mutt_parse_color: a dry run while curses is off. */
  function ColorCommandOf(io: Io, env: Env, reg: Registry): Outcome
  {
    var o := ColorCommandParse(io, true, env.noCurses, env, reg);
    o.(calls := o.calls + [CursesDump])
  }

  /** mutt_parse_mono: always a dry run. */
  function MonoCommand(io: Io, env: Env, reg: Registry): Outcome
  {
    ColorCommandParse(io, false, true, env, reg)
  }

  method MuttParseUncolor(buf: Buffer, s: Args, err: Buffer, env: Env, reg: Registry)
    returns (rc: CommandResult, calls: seq<Call>)
    requires Ready(buf, err)
    modifies buf, s, err
    ensures Ready(buf, err)
    ensures Outcome(rc, calls, IoOf(s, buf, err)) == UncolorCommand(old(IoOf(s, buf, err)), env, reg)
  {
    if env.noCurses {
      s.FakeDone();
      return CmdSuccess, [];
    }
    rc, calls := ParseUncolor(buf, s, err, true, env, reg);
    calls := calls + [CursesDump];
  }

  method MuttParseUnmono(buf: Buffer, s: Args, err: Buffer) returns (rc: CommandResult, calls: seq<Call>)
    requires Ready(buf, err)
    modifies s
    ensures Ready(buf, err)
    ensures Outcome(rc, calls, IoOf(s, buf, err)) == UnmonoCommand(old(IoOf(s, buf, err)))
  {
    s.FakeDone();
    return CmdSuccess, [];
  }

  method MuttParseColor(buf: Buffer, s: Args, err: Buffer, env: Env, reg: Registry)
    returns (rc: CommandResult, calls: seq<Call>)
    requires Ready(buf, err)
    modifies buf, s, err
    ensures Ready(buf, err)
    ensures Outcome(rc, calls, IoOf(s, buf, err)) == ColorCommandOf(old(IoOf(s, buf, err)), env, reg)
  {
    rc, calls := ParseColor(buf, s, err, true, env.noCurses, env, reg);
    calls := calls + [CursesDump];
  }

  method MuttParseMono(buf: Buffer, s: Args, err: Buffer, env: Env, reg: Registry)
    returns (rc: CommandResult, calls: seq<Call>)
    requires Ready(buf, err)
    modifies buf, s, err
    ensures Ready(buf, err)
    ensures Outcome(rc, calls, IoOf(s, buf, err)) == MonoCommand(old(IoOf(s, buf, err)), env, reg)
  {
    rc, calls := ParseColor(buf, s, err, false, true, env, reg);
  }
}
