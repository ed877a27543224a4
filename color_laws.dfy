/** What the colour commands of color/command.c promise, stated over the
    functions of ColorCommand that its methods are proved equal to: the
    shape of a colour pair, the quote levels and object names, the
    patterns that `uncolor` removes, and the argument rules of `color`
    and `mono`. */
module ColorLaws {
  import opened CString
  import opened ColorTables
  import opened ColorParse
  import opened ColorCommand

  // ----- Sequences of arguments -----

  lemma SplitOne<T>(a: seq<T>, x: T, c: seq<T>)
    ensures a + [x] + c == a + ([x] + c)
  {
  }

  lemma SplitTwo<T>(a: seq<T>, x: T, y: T, c: seq<T>)
    ensures a + [x, y] + c == a + ([x] + ([y] + c))
  {
  }

  lemma SplitFirst<T>(a: seq<T>, c: seq<T>)
    requires a != []
    ensures a + c == [a[0]] + (a[1..] + c)
  {
  }

  // ----- Attribute keywords -----

  /** Every token of ks is an attribute keyword. */
  predicate AllKeywords(ks: seq<string>)
  {
    forall i :: 0 <= i < |ks| ==> !AttrKeyword(ks[i]).NotKeyword?
  }

  /** The keywords ks applied to attrs one after another. */
  function ApplyKeywords(attrs: set<Attr>, ks: seq<string>): set<Attr>
    requires AllKeywords(ks)
    decreases |ks|
  {
    if ks == [] then attrs else ApplyKeywords(ApplyKeyword(attrs, AttrKeyword(ks[0])), ks[1..])
  }

  /** Without `none` or `normal`, the keywords only add their attributes:
      an attribute is set afterwards exactly when it was set before or
      some keyword names it. */
  lemma {:induction false} KeywordsAccumulate(attrs: set<Attr>, ks: seq<string>, a: Attr)
    requires forall i :: 0 <= i < |ks| ==> AttrKeyword(ks[i]).SetAttr?
    ensures AllKeywords(ks)
    ensures a in ApplyKeywords(attrs, ks) <==> a in attrs || exists i :: 0 <= i < |ks| && AttrKeyword(ks[i]) == SetAttr(a)
    decreases |ks|
  {
    if ks != [] {
      var k := AttrKeyword(ks[0]);
      KeywordsAccumulate(ApplyKeyword(attrs, k), ks[1..], a);
      if a in ApplyKeywords(attrs, ks) && a !in attrs && k != SetAttr(a) {
        var i :| 0 <= i < |ks[1..]| && AttrKeyword(ks[1..][i]) == SetAttr(a);
        assert AttrKeyword(ks[i + 1]) == SetAttr(a);
      }
      if exists i :: 0 <= i < |ks| && AttrKeyword(ks[i]) == SetAttr(a) {
        var i :| 0 <= i < |ks| && AttrKeyword(ks[i]) == SetAttr(a);
        if i > 0 {
          assert AttrKeyword(ks[1..][i - 1]) == SetAttr(a);
        }
      }
    }
  }

  /** `none` or `normal` assigns A_NORMAL: what the keywords before it set
      is forgotten. */
  lemma {:induction false} ClearForgetsEarlier(attrs: set<Attr>, ks: seq<string>, i: nat)
    requires AllKeywords(ks) && i < |ks| && AttrKeyword(ks[i]) == ClearAttrs
    ensures AllKeywords(ks[i + 1..])
    ensures ApplyKeywords(attrs, ks) == ApplyKeywords({}, ks[i + 1..])
    decreases |ks|
  {
    if i > 0 {
      assert ks[1..][i - 1] == ks[i];
      assert ks[1..][i..] == ks[i + 1..];
      ClearForgetsEarlier(ApplyKeyword(attrs, AttrKeyword(ks[0])), ks[1..], i - 1);
    }
  }

  // ----- parse_attr_spec -----

  /** parse_attr_spec: fg and bg become COLOR_UNSET whatever happens; with
      no argument it warns "mono: too few arguments"; otherwise it reads
      one token, and succeeds exactly when that token is an attribute
      keyword, which is then applied. */
  lemma AttrSpecOutcome(io: Io, attrs: set<Attr>, env: Env)
    ensures var r := AttrSpecParse(io, attrs, env);
      r.fg == U32(env.colorUnset) && r.bg == U32(env.colorUnset)
    ensures io.rest == [] ==>
      AttrSpecParse(io, attrs, env) == Cb(CmdWarning, U32(env.colorUnset), U32(env.colorUnset), attrs,
                                          io.(err := "mono: too few arguments"))
    ensures io.rest != [] ==>
      var r := AttrSpecParse(io, attrs, env);
      var k := AttrKeyword(io.rest[0]);
      r.io.rest == io.rest[1..] && r.io.buf == io.rest[0]
      && (r.rc == CmdSuccess <==> !k.NotKeyword?)
      && (k.NotKeyword? ==> r.rc == CmdWarning && r.attrs == attrs && r.io.err == io.rest[0] + ": no such attribute")
      && (!k.NotKeyword? ==> r.attrs == ApplyKeyword(attrs, k) && r.io.err == io.err)
  {
  }

  /** `mono` with a keyword in any letter case: `bold` adds bold, `none`
      and `normal` clear every attribute. */
  lemma MonoKeywordMeaning(t: string, more: seq<string>, buf: string, err: string, attrs: set<Attr>, env: Env)
    ensures var r := AttrSpecParse(Io([t] + more, buf, err), attrs, env);
      IEqual(t, "bold") ==> r.rc == CmdSuccess && r.attrs == attrs + {ABold}
    ensures var r := AttrSpecParse(Io([t] + more, buf, err), attrs, env);
      IEqual(t, "none") || IEqual(t, "normal") ==> r.rc == CmdSuccess && r.attrs == {}
  {
    KeywordMeanings(t);
  }

  // ----- parse_color_pair -----

  /** parse_color_pair reads any number of keywords, then a foreground and
      a background: on such input it succeeds, with the two colours read,
      the keywords' attributes and those the colour prefixes add, and the
      arguments after the background left unread. */
  lemma ColorPairShape(ks: seq<string>, f: string, b: string, more: seq<string>, buf: string, err: string,
                       fg: nat, bg: nat, attrs: set<Attr>, env: Env, fv: ColorValue, bv: ColorValue)
    requires AllKeywords(ks) && AttrKeyword(f).NotKeyword?
    requires ParseColorName(f, true, env) == NameOk(fv) && ParseColorName(b, false, env) == NameOk(bv)
    ensures ColorPairParse(Io(ks + [f, b] + more, buf, err), fg, bg, attrs, env)
              == Cb(CmdSuccess, fv.col, bv.col, ApplyKeywords(attrs, ks) + fv.add + bv.add, Io(more, b, err))
  {
    var last := if ks == [] then buf else ks[|ks| - 1];
    SplitTwo(ks, f, b, more);
    KeywordsRead(ks, [f] + ([b] + more), buf, err, fg, bg, attrs, env);
    ForegroundStep(f, [b] + more, last, err, fg, bg, ApplyKeywords(attrs, ks), env, fv);
    BackgroundStep(b, more, f, err, fv.col, bg, ApplyKeywords(attrs, ks) + fv.add, env, bv);
  }

  /** Leading keywords are all read and applied, in order. */
  lemma {:induction false} KeywordsRead(ks: seq<string>, rest: seq<string>, buf: string, err: string,
                                        fg: nat, bg: nat, attrs: set<Attr>, env: Env)
    requires AllKeywords(ks)
    ensures ColorPairParse(Io(ks + rest, buf, err), fg, bg, attrs, env)
              == ColorPairParse(Io(rest, if ks == [] then buf else ks[|ks| - 1], err), fg, bg,
                                ApplyKeywords(attrs, ks), env)
    decreases |ks|
  {
    if ks == [] {
      assert ks + rest == rest;
    } else {
      var k := AttrKeyword(ks[0]);
      assert !k.NotKeyword?;
      SplitFirst(ks, rest);
      KeywordStep(ks[0], ks[1..] + rest, buf, err, fg, bg, attrs, env);
      KeywordsRead(ks[1..], rest, ks[0], err, fg, bg, ApplyKeyword(attrs, k), env);
      if |ks| > 1 {
        assert ks[1..][|ks[1..]| - 1] == ks[|ks| - 1];
      }
    }
  }

  /** One attribute keyword is read and applied, and the loop goes on. */
  lemma KeywordStep(t: string, more: seq<string>, buf: string, err: string, fg: nat, bg: nat,
                    attrs: set<Attr>, env: Env)
    requires !AttrKeyword(t).NotKeyword?
    ensures ColorPairParse(Io([t] + more, buf, err), fg, bg, attrs, env)
              == ColorPairParse(Io(more, t, err), fg, bg, ApplyKeyword(attrs, AttrKeyword(t)), env)
  {
    var io := Io([t] + more, buf, err);
    assert io.rest[0] == t && io.rest[1..] == more;
    assert Extract(io) == Io(more, t, err);
  }

  /** The first token that is no keyword is the foreground. */
  lemma ForegroundStep(f: string, rest: seq<string>, buf: string, err: string, fg: nat, bg: nat,
                       attrs: set<Attr>, env: Env, fv: ColorValue)
    requires AttrKeyword(f).NotKeyword? && ParseColorName(f, true, env) == NameOk(fv)
    ensures ColorPairParse(Io([f] + rest, buf, err), fg, bg, attrs, env)
              == BackgroundParse(Io(rest, f, err), fv.col, bg, attrs + fv.add, env)
  {
    var io := Io([f] + rest, buf, err);
    assert io.rest[0] == f && io.rest[1..] == rest;
    assert Extract(io) == Io(rest, f, err);
  }

  /** The token after the foreground is the background. */
  lemma BackgroundStep(b: string, more: seq<string>, buf: string, err: string, fg: nat, bg: nat,
                       attrs: set<Attr>, env: Env, bv: ColorValue)
    requires ParseColorName(b, false, env) == NameOk(bv)
    ensures BackgroundParse(Io([b] + more, buf, err), fg, bg, attrs, env)
              == Cb(CmdSuccess, fg, bv.col, attrs + bv.add, Io(more, b, err))
  {
    var io := Io([b] + more, buf, err);
    assert io.rest[0] == b && io.rest[1..] == more;
    assert Extract(io) == Io(more, b, err);
  }

  /** Keywords alone are too few arguments for a colour pair. */
  lemma ColorPairOnlyKeywords(ks: seq<string>, buf: string, err: string,
                              fg: nat, bg: nat, attrs: set<Attr>, env: Env)
    requires AllKeywords(ks)
    ensures var r := ColorPairParse(Io(ks, buf, err), fg, bg, attrs, env);
      r.rc == CmdWarning && r.io.err == "color: too few arguments" && r.io.rest == []
  {
    assert ks + [] == ks;
    KeywordsRead(ks, [], buf, err, fg, bg, attrs, env);
  }

  /** A foreground with no background after it is too few arguments. */
  lemma ColorPairNoBackground(ks: seq<string>, f: string, buf: string, err: string,
                              fg: nat, bg: nat, attrs: set<Attr>, env: Env, fv: ColorValue)
    requires AllKeywords(ks) && AttrKeyword(f).NotKeyword? && ParseColorName(f, true, env) == NameOk(fv)
    ensures var r := ColorPairParse(Io(ks + [f], buf, err), fg, bg, attrs, env);
      r.rc == CmdWarning && r.io.err == "color: too few arguments" && r.io.rest == []
  {
    var last := if ks == [] then buf else ks[|ks| - 1];
    KeywordsRead(ks, [f], buf, err, fg, bg, attrs, env);
    assert [f] == [f] + [];
    ForegroundStep(f, [], last, err, fg, bg, ApplyKeywords(attrs, ks), env, fv);
  }

  /** A foreground that parse_color_name refuses ends the parse with its
      result code and message. */
  lemma ColorPairBadForeground(ks: seq<string>, f: string, more: seq<string>, buf: string,
                               err: string, fg: nat, bg: nat, attrs: set<Attr>, env: Env)
    requires AllKeywords(ks) && AttrKeyword(f).NotKeyword? && ParseColorName(f, true, env).NameFail?
    ensures var r := ColorPairParse(Io(ks + [f] + more, buf, err), fg, bg, attrs, env);
      var e := ParseColorName(f, true, env);
      r.rc == e.rc && r.rc != CmdSuccess && r.io == Io(more, f, e.msg)
  {
    var last := if ks == [] then buf else ks[|ks| - 1];
    SplitOne(ks, f, more);
    KeywordsRead(ks, [f] + more, buf, err, fg, bg, attrs, env);
    ForegroundFails(f, more, last, err, fg, bg, ApplyKeywords(attrs, ks), env);
  }

  /** A refused foreground, read after the keywords. */
  lemma ForegroundFails(f: string, rest: seq<string>, buf: string, err: string, fg: nat, bg: nat,
                        attrs: set<Attr>, env: Env)
    requires AttrKeyword(f).NotKeyword? && ParseColorName(f, true, env).NameFail?
    ensures var e := ParseColorName(f, true, env);
      ColorPairParse(Io([f] + rest, buf, err), fg, bg, attrs, env) == Cb(e.rc, fg, bg, attrs, Io(rest, f, e.msg))
  {
    var io := Io([f] + rest, buf, err);
    assert io.rest[0] == f && io.rest[1..] == rest;
    assert Extract(io) == Io(rest, f, err);
  }

  // ----- parse_object -----

  /** parse_object never names an id outside the tables: the `cid == -1`
      test after it in parse_uncolor cannot fire. */
  lemma ObjectIsNamed(io: Io, cid0: ColorId, ql0: int, env: Env)
    ensures var o := ObjectParse(io, cid0, ql0, env); o.rc == CmdSuccess ==> !o.cid.Unmapped?
  {
    if !("quoted" <= io.buf) {
      if IEqual(io.buf, "compose") {
        if io.rest != [] {
          ComposeLookupNamed(io.rest[0]);
        }
      } else {
        TableLookupNamed(io.buf);
      }
    }
  }

  /** The value mutt_map_get_value finds is that of a row of the table. */
  lemma MapGetValueRow<V>(s: string, m: seq<Mapping<V>>)
    ensures var r := MapGetValue(s, m); r.Some? ==> NameIndex(s, m) < |m| && r.value == m[NameIndex(s, m)].value
  {
  }

  /** A name found in ComposeColorFields is a compose id. */
  lemma ComposeLookupNamed(s: string)
    ensures var r := MapGetValue(s, ComposeColorFields()); r.Some? ==> IsComposeId(r.value)
  {
    var m := ComposeColorFields();
    MapGetValueRow(s, m);
    if MapGetValue(s, m).Some? {
      var i := NameIndex(s, m);
      assert m[i] == ComposeColorField(i);
    }
  }

  /** A name found in ColorFields is an id of the enumeration. */
  lemma TableLookupNamed(s: string)
    ensures var r := MapGetValue(s, ColorFields()); r.Some? ==> !r.value.Unmapped?
  {
    NoComposeRow();
    MapGetValueRow(s, ColorFields());
  }

  /** parse_object tries "quoted" first (case-sensitive, as a prefix),
      then "compose" (ignoring case), then the name table. */
  lemma ObjectDispatch(io: Io, cid0: ColorId, ql0: int, env: Env)
    ensures "quoted" <= io.buf ==> ObjectParse(io, cid0, ql0, env) == QuotedParse(io, cid0, ql0, env)
    ensures !("quoted" <= io.buf) && IEqual(io.buf, "compose") ==>
      ObjectParse(io, cid0, ql0, env) == ComposeParse(io, cid0, ql0)
    ensures !("quoted" <= io.buf) && !IEqual(io.buf, "compose") ==>
      ObjectParse(io, cid0, ql0, env) == TableParse(io, cid0, ql0)
  {
  }

  /** A "quoted" object with a suffix is accepted exactly when
      mutt_str_atoi_full reads the whole suffix as a number no greater
      than COLOR_QUOTES_MAX, which becomes the quote level; a refused one
      names the token in the warning and leaves object and level alone. */
  lemma QuotedSuffix(io: Io, cid0: ColorId, ql0: int, env: Env)
    requires "quoted" <= io.buf && |io.buf| > 6
    ensures var o := QuotedParse(io, cid0, ql0, env);
      var v := AtoiFull(io.buf[6..]);
      (o.rc == CmdSuccess <==> v.Some? && v.value <= env.quotesMax)
      && (o.rc == CmdSuccess ==> o == Obj(CmdSuccess, Quoted, v.value, io))
      && (o.rc != CmdSuccess ==> o == Obj(CmdWarning, cid0, ql0, io.(err := io.buf + ": no such object")))
  {
  }

  /** "quoted" alone is quote level 0. */
  lemma QuotedLevelZero(io: Io, cid0: ColorId, ql0: int, env: Env)
    requires io.buf == "quoted"
    ensures QuotedParse(io, cid0, ql0, env) == Obj(CmdSuccess, Quoted, 0, io)
  {
  }

  /** "quotedN" is quote level N while N is at most COLOR_QUOTES_MAX, and a
      warning beyond it. */
  lemma QuotedLevelN(n: nat, io: Io, cid0: ColorId, ql0: int, env: Env)
    requires n <= INT_MAX && io.buf == "quoted" + NatToDecimal(n)
    ensures n <= env.quotesMax ==> QuotedParse(io, cid0, ql0, env) == Obj(CmdSuccess, Quoted, n, io)
    ensures n > env.quotesMax ==>
      QuotedParse(io, cid0, ql0, env) == Obj(CmdWarning, cid0, ql0, io.(err := io.buf + ": no such object"))
  {
    assert "quoted" <= io.buf && io.buf[6..] == NatToDecimal(n);
    AtoiFullReadsPrinted(n);
  }

  /** A suffix that does not start a number ("quotedx") is refused. */
  lemma QuotedLevelNotNumber(t: string, io: Io, cid0: ColorId, ql0: int, env: Env)
    requires t != [] && !IsDigit(t[0]) && !IsSpace(t[0]) && t[0] != '+' && t[0] != '-'
    requires io.buf == "quoted" + t
    ensures QuotedParse(io, cid0, ql0, env) == Obj(CmdWarning, cid0, ql0, io.(err := io.buf + ": no such object"))
  {
    assert "quoted" <= io.buf && io.buf[6..] == t;
    LeadingSpacesStop(t);
    assert LeadingDigits(t) == 0;
  }

  /** Only the upper bound is checked: "quoted-N" is accepted with the
      negative quote level -N. */
  lemma QuotedLevelNegative(n: nat, io: Io, cid0: ColorId, ql0: int, env: Env)
    requires 0 < n <= INT_MAX && io.buf == "quoted-" + NatToDecimal(n) && env.quotesMax >= 0
    ensures QuotedParse(io, cid0, ql0, env) == Obj(CmdSuccess, Quoted, -(n as int), io)
  {
    var t := "-" + NatToDecimal(n);
    assert "quoted" <= io.buf && io.buf[6..] == t;
    AtoiFullReadsNegative(n);
  }

  /** `compose header` is the compose header. */
  lemma ComposeHeaderNamed(more: seq<string>, err: string, cid0: ColorId, ql0: int, env: Env)
    ensures ObjectParse(Io(["header"] + more, "compose", err), cid0, ql0, env)
              == Obj(CmdSuccess, ComposeHeader, ql0, Io(more, "header", err))
  {
    var io := Io(["header"] + more, "compose", err);
    assert !("quoted" <= "compose") by {
      assert "compose"[0] != "quoted"[0];
    }
    assert IEqual("compose", "compose");
    assert ObjectParse(io, cid0, ql0, env) == ComposeParse(io, cid0, ql0);
    assert io.rest[0] == "header" && io.rest[1..] == more;
    assert Extract(io) == Io(more, "header", err);
    ComposeHeaderObject();
  }

  /** Plain `header` is the header, a different object from the compose header. */
  lemma HeaderNamed(more: seq<string>, err: string, cid0: ColorId, ql0: int, env: Env)
    ensures ObjectParse(Io(more, "header", err), cid0, ql0, env) == Obj(CmdSuccess, Header, ql0, Io(more, "header", err))
    ensures Header != ComposeHeader
  {
    var io := Io(more, "header", err);
    assert !("quoted" <= "header") by {
      assert "header"[0] != "quoted"[0];
    }
    assert !IEqual("header", "compose") by {
      assert |Lower("header")| != |Lower("compose")|;
    }
    assert ObjectParse(io, cid0, ql0, env) == TableParse(io, cid0, ql0);
    HeaderObject();
  }

  /** `compose` with nothing after it is too few arguments. */
  lemma ComposeNeedsName(io: Io, cid0: ColorId, ql0: int, env: Env)
    requires IEqual(io.buf, "compose") && io.rest == []
    ensures ObjectParse(io, cid0, ql0, env) == Obj(CmdWarning, cid0, ql0, io.(err := "color: too few arguments"))
  {
    assert Lower(io.buf)[0] == 'c';
    assert io.buf[0] != 'q';
  }

  // ----- parse_uncolor -----

  /** The removals of the patterns ps from the list of cid, in order. */
  function Removals(cid: ColorId, ps: seq<string>, uncolor: bool): (r: seq<Call>)
    ensures |r| == |ps|
    ensures forall i :: 0 <= i < |ps| ==> r[i] == RegexUncolor(cid, Some(ps[i]), uncolor)
  {
    if ps == [] then [] else [RegexUncolor(cid, Some(ps[0]), uncolor)] + Removals(cid, ps[1..], uncolor)
  }

  lemma RemovalsFirst(calls: seq<Call>, cid: ColorId, ps: seq<string>, uncolor: bool)
    requires ps != []
    ensures calls + [RegexUncolor(cid, Some(ps[0]), uncolor)] + Removals(cid, ps[1..], uncolor)
              == calls + Removals(cid, ps, uncolor)
  {
  }

  /** Some pattern of ps was on the list and removed. */
  predicate AnyRemoved(reg: Registry, cid: ColorId, ps: seq<string>, uncolor: bool)
  {
    ps != [] && (reg.regexUncolor(cid, Some(ps[0]), uncolor) || AnyRemoved(reg, cid, ps[1..], uncolor))
  }

  /** AnyRemoved holds exactly when the removal of some pattern of ps
      reported a change. */
  lemma {:induction false} AnyRemovedExists(reg: Registry, cid: ColorId, ps: seq<string>, uncolor: bool)
    ensures AnyRemoved(reg, cid, ps, uncolor) <==>
            exists i :: 0 <= i < |ps| && reg.regexUncolor(cid, Some(ps[i]), uncolor)
  {
    if ps != [] {
      AnyRemovedExists(reg, cid, ps[1..], uncolor);
      if AnyRemoved(reg, cid, ps[1..], uncolor) {
        var i :| 0 <= i < |ps[1..]| && reg.regexUncolor(cid, Some(ps[1..][i]), uncolor);
        assert ps[i + 1] == ps[1..][i];
      }
      if exists i :: 0 <= i < |ps| && reg.regexUncolor(cid, Some(ps[i]), uncolor) {
        var i :| 0 <= i < |ps| && reg.regexUncolor(cid, Some(ps[i]), uncolor);
        if i > 0 {
          assert ps[1..][i - 1] == ps[i];
        }
      }
    }
  }

  /** "*" ends the patterns: those before it are removed one by one, then
      the whole list, whose result is the command's; nothing after "*" is
      read. */
  lemma {:induction false} PatternsStopAtStar(ps: seq<string>, more: seq<string>, buf: string, err: string,
                                              cid: ColorId, uncolor: bool, changes: bool, calls: seq<Call>,
                                              reg: Registry)
    requires forall i :: 0 <= i < |ps| ==> ps[i] != "*"
    ensures UncolorPatterns(Io(ps + ["*"] + more, buf, err), cid, uncolor, changes, calls, reg)
              == Outcome(OkIf(reg.regexUncolor(cid, None, uncolor)),
                         calls + Removals(cid, ps, uncolor) + [RegexUncolor(cid, None, uncolor)],
                         Io(more, "*", err))
    decreases |ps|
  {
    if ps == [] {
      SplitOne(ps, "*", more);
      StarPattern(more, buf, err, cid, uncolor, changes, calls, reg);
    } else {
      var p := ps[0];
      SplitOne(ps, "*", more);
      SplitFirst(ps, ["*"] + more);
      SplitOne(ps[1..], "*", more);
      PatternStep(ps + ["*"] + more, buf, err, cid, uncolor, changes, calls, reg);
      var calls1 := calls + [RegexUncolor(cid, Some(p), uncolor)];
      PatternsStopAtStar(ps[1..], more, p, err, cid, uncolor, reg.regexUncolor(cid, Some(p), uncolor) || changes,
                         calls1, reg);
      RemovalsFirst(calls, cid, ps, uncolor);
    }
  }

  /** "*" removes every pattern of the object. */
  lemma StarPattern(more: seq<string>, buf: string, err: string, cid: ColorId,
                    uncolor: bool, changes: bool, calls: seq<Call>, reg: Registry)
    ensures UncolorPatterns(Io(["*"] + more, buf, err), cid, uncolor, changes, calls, reg)
              == Outcome(OkIf(reg.regexUncolor(cid, None, uncolor)), calls + [RegexUncolor(cid, None, uncolor)],
                         Io(more, "*", err))
  {
    var io := Io(["*"] + more, buf, err);
    assert io.rest[0] == "*" && io.rest[1..] == more;
    assert Extract(io) == Io(more, "*", err);
  }

  /** Without "*", every pattern is removed in order and the lists are
      dumped afterwards exactly when one of the removals changed something. */
  lemma {:induction false} PatternsAllRemoved(ps: seq<string>, buf: string, err: string, cid: ColorId,
                                              uncolor: bool, changes: bool, calls: seq<Call>, reg: Registry)
    requires ps != [] && forall i :: 0 <= i < |ps| ==> ps[i] != "*"
    ensures UncolorPatterns(Io(ps, buf, err), cid, uncolor, changes, calls, reg)
              == Outcome(CmdSuccess,
                         calls + Removals(cid, ps, uncolor)
                         + (if changes || AnyRemoved(reg, cid, ps, uncolor) then [RegexDumpAll] else []),
                         Io([], ps[|ps| - 1], err))
    decreases |ps|
  {
    if |ps| == 1 {
      LastPattern(ps, buf, err, cid, uncolor, changes, calls, reg);
    } else {
      var p := ps[0];
      PatternStep(ps, buf, err, cid, uncolor, changes, calls, reg);
      PatternsAllRemoved(ps[1..], p, err, cid, uncolor, reg.regexUncolor(cid, Some(p), uncolor) || changes,
                         calls + [RegexUncolor(cid, Some(p), uncolor)], reg);
      AllRemovedStep(ps, err, cid, uncolor, changes, calls, reg);
    }
  }

  /** The outcome PatternsAllRemoved gives after the first pattern is the
      one it gives for all of them. */
  lemma AllRemovedStep(ps: seq<string>, err: string, cid: ColorId, uncolor: bool, changes: bool,
                       calls: seq<Call>, reg: Registry)
    requires |ps| > 1
    ensures var ch := reg.regexUncolor(cid, Some(ps[0]), uncolor) || changes;
      var rest := ps[1..];
      Outcome(CmdSuccess,
              calls + [RegexUncolor(cid, Some(ps[0]), uncolor)] + Removals(cid, rest, uncolor)
              + (if ch || AnyRemoved(reg, cid, rest, uncolor) then [RegexDumpAll] else []),
              Io([], rest[|rest| - 1], err))
      == Outcome(CmdSuccess,
                 calls + Removals(cid, ps, uncolor)
                 + (if changes || AnyRemoved(reg, cid, ps, uncolor) then [RegexDumpAll] else []),
                 Io([], ps[|ps| - 1], err))
  {
    RemovalsFirst(calls, cid, ps, uncolor);
    assert ps[1..][|ps[1..]| - 1] == ps[|ps| - 1];
  }

  /** One pattern that is not "*", with more arguments after it. */
  lemma PatternStep(ps: seq<string>, buf: string, err: string, cid: ColorId,
                    uncolor: bool, changes: bool, calls: seq<Call>, reg: Registry)
    requires |ps| > 1 && ps[0] != "*"
    ensures UncolorPatterns(Io(ps, buf, err), cid, uncolor, changes, calls, reg)
              == UncolorPatterns(Io(ps[1..], ps[0], err), cid, uncolor,
                                 reg.regexUncolor(cid, Some(ps[0]), uncolor) || changes,
                                 calls + [RegexUncolor(cid, Some(ps[0]), uncolor)], reg)
  {
    assert Extract(Io(ps, buf, err)) == Io(ps[1..], ps[0], err);
  }

  /** The last pattern, which is not "*". */
  lemma LastPattern(ps: seq<string>, buf: string, err: string, cid: ColorId,
                    uncolor: bool, changes: bool, calls: seq<Call>, reg: Registry)
    requires |ps| == 1 && ps[0] != "*"
    ensures UncolorPatterns(Io(ps, buf, err), cid, uncolor, changes, calls, reg)
              == Outcome(CmdSuccess,
                         calls + Removals(cid, ps, uncolor)
                         + (if changes || AnyRemoved(reg, cid, ps, uncolor) then [RegexDumpAll] else []),
                         Io([], ps[0], err))
  {
    assert Extract(Io(ps, buf, err)) == Io([], ps[0], err);
    assert Removals(cid, ps, uncolor) == [RegexUncolor(cid, Some(ps[0]), uncolor)];
    assert !AnyRemoved(reg, cid, ps[1..], uncolor);
  }

  /** `uncolor *` resets every colour and reads nothing more. */
  lemma UncolorStar(more: seq<string>, buf: string, err: string, env: Env, reg: Registry)
    requires !env.noCurses
    ensures UncolorCommand(Io(["*"] + more, buf, err), env, reg)
              == Outcome(CmdSuccess, [ColorsClear, CursesDump], Io(more, "*", err))
  {
  }

  /** While curses is off `uncolor` changes nothing and reads every argument;
      `unmono` never changes anything. */
  lemma UncolorWithoutCurses(io: Io, env: Env, reg: Registry)
    ensures env.noCurses ==> UncolorCommand(io, env, reg).calls == [] && UncolorCommand(io, env, reg).io.rest == []
    ensures UnmonoCommand(io).calls == [] && UnmonoCommand(io).io.rest == []
  {
  }

  /** An object without patterns is reset whole, and the arguments after
      it are left unread. */
  lemma UncolorSimpleObject(io: Io, cid: ColorId, ql: int, uncolor: bool, env: Env, reg: Registry)
    requires cid != Quoted && !reg.hasPattern(cid)
    ensures UncolorObject(io, cid, ql, uncolor, env, reg) == Outcome(CmdSuccess, [SimpleReset(cid)], io)
  {
  }

  // ----- parse_color -----

  /** use_default_colors is asked and refuses: the command fails at once. */
  predicate DefaultRefused(cid: ColorId, fg: nat, bg: nat, env: Env, reg: Registry)
  {
    AskDefault(cid, fg, bg, env) && !reg.defaultColorsOk
  }

  /** A pattern object other than status given no pattern gets ".*". */
  lemma DefaultPattern(io: Io, cid: ColorId, ql: int, fg: nat, bg: nat, attrs: set<Attr>,
                       color: bool, env: Env, reg: Registry)
    requires reg.hasPattern(cid) && cid != Status && io.rest == []
    ensures ColorFinish(io, cid, ql, fg, bg, attrs, color, false, env, reg)
              == ColorApply(io.(buf := ".*"), cid, ql, fg, bg, attrs, color, env, reg)
    ensures !DefaultRefused(cid, fg, bg, env, reg) ==>
      RegexColorList(cid, ".*", fg, bg, attrs) in ColorFinish(io, cid, ql, fg, bg, attrs, color, false, env, reg).calls
  {
    var io1 := io.(buf := ".*");
    assert PatternStage(io, cid, reg) == io1;
    assert ColorFinish(io, cid, ql, fg, bg, attrs, color, false, env, reg)
             == ColorApply(io1, cid, ql, fg, bg, attrs, color, env, reg);
    if !DefaultRefused(cid, fg, bg, env, reg) {
      var calls0 := if AskDefault(cid, fg, bg, env) then [UseDefaultColors] else [];
      assert ColorApply(io1, cid, ql, fg, bg, attrs, color, env, reg)
               == ColorHandlers(io1, cid, ql, fg, bg, attrs, color, calls0, reg);
      HandlersAskList(io1, cid, ql, fg, bg, attrs, color, calls0, reg);
    }
  }

  /** The regex list is always asked first about a non-status object. */
  lemma HandlersAskList(io: Io, cid: ColorId, ql: int, fg: nat, bg: nat, attrs: set<Attr>,
                        color: bool, calls0: seq<Call>, reg: Registry)
    requires cid != Status
    ensures RegexColorList(cid, io.buf, fg, bg, attrs) in ColorHandlers(io, cid, ql, fg, bg, attrs, color, calls0, reg).calls
  {
    var first := calls0 + [RegexColorList(cid, io.buf, fg, bg, attrs)];
    var calls := ColorHandlers(io, cid, ql, fg, bg, attrs, color, calls0, reg).calls;
    assert first <= calls;
    assert calls[|first| - 1] == RegexColorList(cid, io.buf, fg, bg, attrs);
  }

  /** A non-status object takes one pattern argument when it is a pattern
      object and none otherwise; any argument beyond that is "too many
      arguments", before anything is changed. */
  lemma TooManyArguments(io: Io, cid: ColorId, ql: int, fg: nat, bg: nat, attrs: set<Attr>,
                         color: bool, dryRun: bool, env: Env, reg: Registry)
    requires cid != Status && |io.rest| > (if reg.hasPattern(cid) then 1 else 0)
    ensures var o := ColorFinish(io, cid, ql, fg, bg, attrs, color, dryRun, env, reg);
      o.rc == CmdWarning && o.calls == [] && o.io.err == CommandName(color) + ": too many arguments"
  {
  }

  /** A dry run changes nothing, and one that succeeds has read every argument. */
  lemma DryRunChangesNothing(io: Io, color: bool, env: Env, reg: Registry)
    ensures var o := ColorCommandParse(io, color, true, env, reg);
      o.calls == [] && (o.rc == CmdSuccess ==> o.io.rest == [])
  {
  }

  /** `mono` is always a dry run: it never changes a colour. */
  lemma MonoChangesNothing(io: Io, env: Env, reg: Registry)
    ensures MonoCommand(io, env, reg).calls == []
    ensures MonoCommand(io, env, reg).rc == CmdSuccess ==> MonoCommand(io, env, reg).io.rest == []
  {
    DryRunChangesNothing(io, false, env, reg);
  }

  /** A simple object that no list takes is set with simple_color_set;
      the command succeeds exactly when that does (and default colours, if
      asked for, are supported), and success leaves the object's name in
      buf and announces the change. */
  lemma SimpleColorSet(io: Io, cid: ColorId, ql: int, fg: nat, bg: nat, attrs: set<Attr>,
                       color: bool, env: Env, reg: Registry)
    requires reg.regexList(cid, io.buf).None? && reg.quotedColor(cid).None?
    requires cid != Status || io.rest == []
    ensures var o := ColorApply(io, cid, ql, fg, bg, attrs, color, env, reg);
      (o.rc == CmdSuccess <==> reg.simpleSet && !DefaultRefused(cid, fg, bg, env, reg))
      && (o.rc == CmdSuccess ==>
            o.io.buf == ColorIdName(cid) && o.calls[|o.calls| - 1] == NotifySet(cid)
            && SimpleSet(cid, fg, bg, attrs) in o.calls)
  {
    if !DefaultRefused(cid, fg, bg, env, reg) {
      var calls0 := if AskDefault(cid, fg, bg, env) then [UseDefaultColors] else [];
      var calls1 := calls0 + [RegexColorList(cid, io.buf, fg, bg, attrs)] + [QuotedColor(cid, fg, bg, attrs, ql)];
      assert ColorApply(io, cid, ql, fg, bg, attrs, color, env, reg)
               == ColorSimple(io, cid, fg, bg, attrs, color, calls1, reg);
      SimpleStage(io, cid, fg, bg, attrs, color, calls1, reg);
    }
  }

  /** The last stage on a simple colour: simple_color_set decides. */
  lemma SimpleStage(io: Io, cid: ColorId, fg: nat, bg: nat, attrs: set<Attr>,
                    color: bool, calls0: seq<Call>, reg: Registry)
    requires cid != Status || io.rest == []
    ensures var o := ColorSimple(io, cid, fg, bg, attrs, color, calls0, reg);
      (o.rc == CmdSuccess <==> reg.simpleSet)
      && (o.rc == CmdSuccess ==>
            o.io.buf == ColorIdName(cid) && o.calls[|o.calls| - 1] == NotifySet(cid)
            && SimpleSet(cid, fg, bg, attrs) in o.calls)
  {
    var calls := calls0 + [SimpleSet(cid, fg, bg, attrs)];
    assert calls[|calls| - 1] == SimpleSet(cid, fg, bg, attrs);
    assert (calls + [NotifySet(cid)])[|calls| - 1] == SimpleSet(cid, fg, bg, attrs);
  }

  /** `color status fg bg` reads no pattern before the handlers and is
      never refused for its arguments at that point: whatever follows the
      colours is left to the status branch. */
  lemma StatusSkipsPatternStage(io: Io, ql: int, fg: nat, bg: nat, attrs: set<Attr>,
                                color: bool, env: Env, reg: Registry)
    ensures ColorFinish(io, Status, ql, fg, bg, attrs, color, false, env, reg)
         == ColorApply(io, Status, ql, fg, bg, attrs, color, env, reg)
  {
  }

  /** The arguments after `color status fg bg`, once neither list has
      taken the object: none sets the simple colour (SimpleStage); one is
      the pattern, matched as a whole; a second is the submatch number,
      which must read as an unsigned int; a third is too many. */
  lemma StatusArguments(ps: seq<string>, buf: string, err: string, fg: nat, bg: nat, attrs: set<Attr>,
                        color: bool, calls: seq<Call>, reg: Registry)
    requires ps != []
    ensures var o := ColorSimple(Io(ps, buf, err), Status, fg, bg, attrs, color, calls, reg);
      |ps| == 1 ==>
        o == Outcome(reg.statusList, calls + [StatusList(Status, ps[0], fg, bg, attrs, 0)], Io([], ps[0], err))
    ensures var o := ColorSimple(Io(ps, buf, err), Status, fg, bg, attrs, color, calls, reg);
      |ps| >= 2 && AtouiFull(ps[1]).None? ==>
        o == Outcome(CmdWarning, calls, Io(ps[2..], ps[0], CommandName(color) + ": invalid number: " + ps[1]))
    ensures var o := ColorSimple(Io(ps, buf, err), Status, fg, bg, attrs, color, calls, reg);
      |ps| == 2 && AtouiFull(ps[1]).Some? ==>
        o == Outcome(reg.statusList, calls + [StatusList(Status, ps[0], fg, bg, attrs, AtouiFull(ps[1]).value)],
                     Io([], ps[0], err))
    ensures var o := ColorSimple(Io(ps, buf, err), Status, fg, bg, attrs, color, calls, reg);
      |ps| > 2 && AtouiFull(ps[1]).Some? ==>
        o == Outcome(CmdWarning, calls, Io(ps[2..], ps[0], CommandName(color) + ": too many arguments"))
  {
    var io1 := Extract(Io(ps, buf, err));
    assert io1 == Io(ps[1..], ps[0], err);
    if |ps| >= 2 {
      assert io1.rest[0] == ps[1] && io1.rest[1..] == ps[2..];
    }
  }

  /** A name of ColorFields is a one-word object: parse_object reads
      nothing more. */
  lemma TableObjectFirst(obj: string, rest: seq<string>, err: string, cid: ColorId, env: Env)
    requires !("quoted" <= obj) && !IEqual(obj, "compose") && MapGetValue(obj, ColorFields()) == Some(cid)
    ensures ObjectParse(Io(rest, obj, err), NoObject, 0, env) == Obj(CmdSuccess, cid, 0, Io(rest, obj, err))
  {
    ObjectDispatch(Io(rest, obj, err), NoObject, 0, env);
  }

  /** parse_color runs its stages in order: the object, the callback, the rest. */
  lemma ParseStages(io: Io, o: Obj, cb: Cb, color: bool, dryRun: bool, env: Env, reg: Registry)
    requires io.rest != [] && ObjectParse(Extract(io), NoObject, 0, env) == o && o.rc == CmdSuccess
    requires (if color then ColorPairParse(o.io, 0, 0, {}, env) else AttrSpecParse(o.io, {}, env)) == cb
    requires cb.rc == CmdSuccess
    ensures ColorCommandParse(io, color, dryRun, env, reg)
              == ColorFinish(cb.io, o.cid, o.ql, cb.fg, cb.bg, cb.attrs, color, dryRun, env, reg)
  {
  }

  /** A simple colour set with quote level 0, on the last token. */
  lemma SimpleApply(io: Io, cid: ColorId, fg: nat, bg: nat, attrs: set<Attr>, env: Env, reg: Registry)
    requires io.rest == [] && !env.noCurses && !reg.hasPattern(cid)
    requires reg.regexList(cid, io.buf).None? && reg.quotedColor(cid).None? && reg.simpleSet
    ensures var dflt := U32(env.colorDefault);
      var ask := fg == dflt || bg == dflt || cid == Tree;
      !ask || reg.defaultColorsOk ==>
        ColorFinish(io, cid, 0, fg, bg, attrs, true, false, env, reg)
          == Outcome(CmdSuccess,
                     (if ask then [UseDefaultColors] else [])
                     + [RegexColorList(cid, io.buf, fg, bg, attrs), QuotedColor(cid, fg, bg, attrs, 0),
                        SimpleSet(cid, fg, bg, attrs), NotifySet(cid)],
                     io.(buf := ColorIdName(cid)))
  {
    assert PatternStage(io, cid, reg) == io;
    assert ColorFinish(io, cid, 0, fg, bg, attrs, true, false, env, reg)
             == ColorApply(io, cid, 0, fg, bg, attrs, true, env, reg);
    var dflt := U32(env.colorDefault);
    var ask := fg == dflt || bg == dflt || cid == Tree;
    if !ask || reg.defaultColorsOk {
      ApplySimpleSet(io, cid, fg, bg, attrs, ask, env, reg);
    }
  }

  /** ColorApply when neither list takes the object and simple_color_set succeeds. */
  lemma ApplySimpleSet(io: Io, cid: ColorId, fg: nat, bg: nat, attrs: set<Attr>, ask: bool, env: Env, reg: Registry)
    requires io.rest == [] && !env.noCurses
    requires reg.regexList(cid, io.buf).None? && reg.quotedColor(cid).None? && reg.simpleSet
    requires var dflt := U32(env.colorDefault); ask == (fg == dflt || bg == dflt || cid == Tree)
    requires !ask || reg.defaultColorsOk
    ensures ColorApply(io, cid, 0, fg, bg, attrs, true, env, reg)
              == Outcome(CmdSuccess,
                         (if ask then [UseDefaultColors] else [])
                         + [RegexColorList(cid, io.buf, fg, bg, attrs), QuotedColor(cid, fg, bg, attrs, 0),
                            SimpleSet(cid, fg, bg, attrs), NotifySet(cid)],
                         io.(buf := ColorIdName(cid)))
  {
    var first := (if ask then [UseDefaultColors] else []) + [RegexColorList(cid, io.buf, fg, bg, attrs)];
    assert first + [QuotedColor(cid, fg, bg, attrs, 0)] + [SimpleSet(cid, fg, bg, attrs)] + [NotifySet(cid)]
           == (if ask then [UseDefaultColors] else [])
              + [RegexColorList(cid, io.buf, fg, bg, attrs), QuotedColor(cid, fg, bg, attrs, 0),
                 SimpleSet(cid, fg, bg, attrs), NotifySet(cid)];
  }
}
