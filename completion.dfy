/** The tab-completion engine of complete/helpers.c: the CompletionData
    state, the match list and its growth, `candidate`, and the per-Tab state
    machine every *_complete function repeats (first Tab collects, one
    match completes, later Tabs cycle). */
module Completion {
  import opened CString
  import opened Sorting

  /** The match list grows in steps of this many entries. */
  const MATCH_STEP: nat := 512

  /** ROUND_UP(num, step): the smallest multiple of step that is not below num. */
  function RoundUp(num: nat, step: nat): (r: nat)
    requires step > 0
    ensures r % step == 0 && num <= r < num + step
  {
    RoundUpIsNextMultiple(num, step);
    (num + step - 1) / step * step
  }

  lemma RoundUpIsNextMultiple(num: nat, step: nat)
    requires step > 0
    ensures var r := (num + step - 1) / step * step;
            r % step == 0 && num <= r < num + step
  {
    var q := (num + step - 1) / step;
    var rem := (num + step - 1) % step;
    assert num + step - 1 == q * step + rem;
    MultipleHasNoRemainder(q, step);
  }

  lemma MultipleHasNoRemainder(q: nat, step: nat)
    requires step > 0
    ensures (q * step) % step == 0
  {
    var r := (q * step) % step;
    var d := (q * step) / step;
    assert q * step == d * step + r;
    if d < q {
      MulAtLeast(q - d, step);
      Distribute(q, d, step);
    } else if d > q {
      MulAtLeast(d - q, step);
      Distribute(d, q, step);
    }
  }

  lemma MulAtLeast(m: int, step: nat)
    requires m >= 1
    ensures m * step >= step
  {
  }

  lemma Distribute(a: int, b: int, step: nat)
    ensures a * step - b * step == (a - b) * step
  {
  }

  /** A slot of match_list: a candidate string, or a reference to the
      user_typed field itself (which is what the first Tab stores last). */
  datatype Entry = Null | Named(text: string) | TypedRef

  function EntryText(e: Entry, typed: string): string
  {
    match e
    case Null => []
    case Named(t) => t
    case TypedRef => typed
  }

  /** The strings a list of slots points at, with `typed` as user_typed. */
  function Texts(es: seq<Entry>, typed: string): (r: seq<string>)
    ensures |r| == |es|
    ensures forall i :: 0 <= i < |es| ==> r[i] == EntryText(es[i], typed)
  {
    seq(|es|, i requires 0 <= i < |es| => EntryText(es[i], typed))
  }

  function AsNamed(ss: seq<string>): (r: seq<Entry>)
    ensures |r| == |ss|
    ensures forall i :: 0 <= i < |ss| ==> r[i] == Named(ss[i])
  {
    seq(|ss|, i requires 0 <= i < |ss| => Named(ss[i]))
  }

  /** Candidates that begin with the typed text, in the order offered:
      the entries `candidate` stores (strstr(src, user) == src). */
  function Filter(typed: string, cands: seq<string>): seq<string>
  {
    if cands == [] then []
    else Filter(typed, cands[..|cands| - 1])
         + (if typed <= cands[|cands| - 1] then [cands[|cands| - 1]] else [])
  }

  /** How `candidate` changes `completed` on a match: an empty one becomes
      the candidate (cut to the field's size), a non-empty one is cut back to
      its longest common prefix with the candidate. */
  function Narrow(c: string, src: string, size: nat): string
    requires size > 0
  {
    if c == [] then Copy(src, size) else Lcp(c, src)
  }

  /** `completed` after the matches ms, in order, starting from c. */
  function NarrowAll(c: string, ms: seq<string>, size: nat): string
    requires size > 0
  {
    if ms == [] then c else Narrow(NarrowAll(c, ms[..|ms| - 1], size), ms[|ms| - 1], size)
  }

  /** (numtabs - 2) % num_matched: the slot the later Tabs show. */
  function CycleIndex(numtabs: int, n: nat): (k: nat)
    requires numtabs >= 2 && n > 0
    ensures k < n
  {
    (numtabs - 2) % n
  }

  /** `completed` after lines 206-215 of any *_complete function: one real
      match on the first Tab takes it, later Tabs with several matches
      take the slot the cycle reaches. */
  function Chosen(c: string, texts: seq<string>, numtabs: int, size: nat): string
    requires size > 0
  {
    if numtabs == 1 && |texts| == 2 then Copy(texts[0], size)
    else if numtabs > 1 && |texts| > 2 then Copy(texts[CycleIndex(numtabs, |texts|)], size)
    else c
  }

  /** struct CompletionData. `typedSize` and `completedSize` are the sizes
      of the user_typed and completed character fields. */
  class CompletionData {
    const typedSize: nat
    const completedSize: nat
    var userTyped: string
    var completed: string
    var numMatched: nat
    /** match_list; its length is match_list_len. */
    var matchList: array<Entry>

    ghost predicate Valid()
      reads this, matchList
    {
      && typedSize > 0 && completedSize > 0
      && |userTyped| < typedSize && |completed| < completedSize
      && numMatched <= matchList.Length
    }

    constructor (typedSize: nat, completedSize: nat)
      requires typedSize > 0 && completedSize > 0
      ensures Valid() && fresh(matchList)
      ensures this.typedSize == typedSize && this.completedSize == completedSize
      ensures userTyped == [] && completed == [] && numMatched == 0 && matchList.Length == 0
    {
      this.typedSize := typedSize;
      this.completedSize := completedSize;
      userTyped, completed, numMatched := [], [], 0;
      matchList := new Entry[0];
    }

    /** The stored matches, match_list[0 .. num_matched). */
    function Matches(): seq<Entry>
      reads this, matchList
      requires Valid()
    {
      matchList[..numMatched]
    }

    function State(buf: array<char>): TabState
      reads this, matchList, buf
      requires Valid()
    {
      TabState(userTyped, Matches(), completed, buf[..])
    }

    function MatchTexts(): seq<string>
      reads this, matchList
      requires Valid()
    {
      Texts(Matches(), userTyped)
    }

    /** matches_ensure_morespace: nothing happens while new_size fits with
        two slots to spare; otherwise the list is reallocated to
        ROUND_UP(new_size + 2, 512) slots, keeping what it held. */
    method EnsureMoreSpace(newSize: nat)
      requires Valid()
      modifies this
      ensures Valid()
      ensures userTyped == old(userTyped) && completed == old(completed)
      ensures numMatched == old(numMatched)
      ensures newSize <= old(matchList.Length) - 2 ==> matchList == old(matchList)
      ensures newSize > old(matchList.Length) - 2 ==>
                fresh(matchList) && matchList.Length == RoundUp(newSize + 2, MATCH_STEP)
      ensures matchList == old(matchList) || fresh(matchList)
      ensures matchList.Length >= old(matchList.Length) && matchList.Length >= newSize + 2
      ensures matchList[..old(matchList.Length)] == old(matchList[..])
      ensures Matches() == old(Matches())
    {
      if newSize <= matchList.Length - 2 {
        return;
      }
      var n := RoundUp(newSize + 2, MATCH_STEP);
      var grown := new Entry[n](_ => Null);
      var i := 0;
      while i < matchList.Length
        modifies grown
        invariant 0 <= i <= matchList.Length <= n
        invariant forall k :: 0 <= k < i ==> grown[k] == matchList[k]
      {
        grown[i] := matchList[i];
        i := i + 1;
      }
      assert grown[..matchList.Length] == matchList[..];
      matchList := grown;
    }

    /** Lines 86-87 (and 192-193): make room, then store e after the matches. */
    method Push(e: Entry)
      requires Valid()
      modifies this, matchList
      ensures Valid()
      ensures userTyped == old(userTyped) && completed == old(completed)
      ensures Matches() == old(Matches()) + [e]
      ensures matchList == old(matchList) || fresh(matchList)
    {
      EnsureMoreSpace(numMatched);
      matchList[numMatched] := e;
      numMatched := numMatched + 1;
    }

    /** The loop of lines 94-96: the length of the longest common prefix of
        src and dest. */
    static method CommonPrefixLength(src: string, dest: string) returns (l: nat)
      ensures l <= |src| && l <= |dest|
      ensures dest[..l] == Lcp(dest, src)
    {
      l := 0;
      while l < |src| && l < |dest| && src[l] == dest[l]
        invariant l <= |src| && l <= |dest|
        invariant src[..l] == dest[..l]
      {
        l := l + 1;
      }
      LcpUnique(dest, src, l);
    }

    /** candidate(cd, user_typed, src, completed, sizeof completed): a
        source that does not begin with the typed text changes nothing; one
        that does is stored after the earlier matches and narrows `completed`. */
    method Candidate(src: string) returns (matched: bool)
      requires Valid()
      modifies this, matchList
      ensures Valid()
      ensures matched <==> userTyped <= src
      ensures userTyped == old(userTyped)
      ensures matchList == old(matchList) || fresh(matchList)
      ensures !matched ==> completed == old(completed) && numMatched == old(numMatched)
                            && matchList == old(matchList) && Matches() == old(Matches())
      ensures matched ==> Matches() == old(Matches()) + [Named(src)]
                          && completed == Narrow(old(completed), src, completedSize)
    {
      if !(userTyped <= src) {
        return false;
      }
      Push(Named(src));
      if completed == [] {
        completed := Copy(src, completedSize);
      } else {
        var l := CommonPrefixLength(src, completed);
        completed := completed[..l];
      }
      matched := true;
    }

    /** A loop calling candidate on every string of a data source. */
    method CollectCandidates(cands: seq<string>)
      requires Valid()
      modifies this, matchList
      ensures Valid()
      ensures userTyped == old(userTyped)
      ensures matchList == old(matchList) || fresh(matchList)
      ensures Matches() == old(Matches()) + AsNamed(Filter(userTyped, cands))
      ensures completed == NarrowAll(old(completed), Filter(userTyped, cands), completedSize)
    {
      ghost var start := Matches();
      ghost var c0 := completed;
      var i := 0;
      while i < |cands|
        invariant 0 <= i <= |cands|
        invariant Valid()
        invariant userTyped == old(userTyped)
        invariant matchList == old(matchList) || fresh(matchList)
        invariant Matches() == start + AsNamed(Filter(userTyped, cands[..i]))
        invariant completed == NarrowAll(c0, Filter(userTyped, cands[..i]), completedSize)
      {
        ghost var seen := Matches();
        ghost var before := completed;
        var _ := Candidate(cands[i]);
        CollectStepMatches(start, seen, Matches(), userTyped, cands, i);
        CollectStepCompleted(c0, before, completed, userTyped, cands, i, completedSize);
        i := i + 1;
      }
      assert cands[..|cands|] == cands;
    }

    /** The start of every first Tab: num_matched = 0, user_typed takes the
        token (cut to its field), completed is cleared. */
    method BeginTab(token: string)
      requires Valid()
      modifies this
      ensures Valid()
      ensures userTyped == Copy(token, typedSize) && completed == [] && Matches() == []
      ensures matchList == old(matchList)
    {
      numMatched := 0;
      userTyped := Copy(token, typedSize);
      completed := [];
    }

    /** The first Tab of mutt_command_complete (lines 182-193): every source
        string that begins with the typed text, in order, then the typed
        text itself as the last entry. */
    method FirstTab(token: string, cands: seq<string>)
      requires Valid()
      modifies this, matchList
      ensures Valid()
      ensures matchList == old(matchList) || fresh(matchList)
      ensures userTyped == Copy(token, typedSize)
      ensures Matches() == AsNamed(Filter(userTyped, cands)) + [TypedRef]
      ensures completed == NarrowAll([], Filter(userTyped, cands), completedSize)
    {
      BeginTab(token);
      CollectCandidates(cands);
      Push(TypedRef);
    }

    /** qsort of the collected matches (line 386), with the comparator
        reading the labels themselves (see SortLabels). */
    method SortMatches(labels: seq<string>)
      requires Valid() && Matches() == AsNamed(labels)
      modifies matchList
      ensures Valid()
      ensures Matches() == AsNamed(SortLabels(labels))
    {
      var sorted := SortLabels(labels);
      assert |multiset(sorted)| == |sorted|;
      var i := 0;
      while i < numMatched
        invariant 0 <= i <= numMatched
        invariant forall k :: 0 <= k < i ==> matchList[k] == Named(sorted[k])
      {
        matchList[i] := Named(sorted[i]);
        i := i + 1;
      }
    }

    /** The first Tab of mutt_label_complete (lines 379-387): as FirstTab,
        with the matches sorted before the typed text is stored. */
    method FirstTabLabels(token: string, labels: seq<string>)
      requires Valid()
      modifies this, matchList
      ensures Valid()
      ensures matchList == old(matchList) || fresh(matchList)
      ensures userTyped == Copy(token, typedSize)
      ensures Matches() == AsNamed(SortLabels(Filter(userTyped, labels))) + [TypedRef]
      ensures completed == NarrowAll([], Filter(userTyped, labels), completedSize)
    {
      BeginTab(token);
      CollectCandidates(labels);
      SortMatches(Filter(userTyped, labels));
      Push(TypedRef);
    }

    /** complete_all_nm_tags as written (lines 111-152). `tags` is what the
        two nm_get_all_tags calls give: None when either fails or the counts
        differ. No tags at all is an error too, and then the typed text is
        not stored. num_matched is never reset, so the matches of an earlier
        completion stay in front. */
    method CompleteAllNmTagsAsWritten(token: string, tags: Option<seq<string>>) returns (rc: int)
      requires Valid()
      modifies this, matchList
      ensures Valid()
      ensures matchList == old(matchList) || fresh(matchList)
      ensures userTyped == Copy(token, typedSize)
      ensures rc == -1 <==> tags.None? || tags.value == []
      ensures rc == -1 ==> completed == [] && Matches() == old(Matches())
      ensures rc != -1 ==> rc == 0
                           && Matches() == old(Matches()) + AsNamed(Filter(userTyped, tags.value)) + [Named(userTyped)]
                           && completed == NarrowAll([], Filter(userTyped, tags.value), completedSize)
    {
      userTyped := Copy(token, typedSize);
      completed := [];
      if tags.None? || tags.value == [] {
        return -1;
      }
      CollectCandidates(tags.value);
      Push(Named(userTyped));
      rc := 0;
    }

    /** complete_all_nm_tags with the match count reset as every other first
        Tab does: the stored entries are this completion's alone. */
    method CompleteAllNmTags(token: string, tags: Option<seq<string>>) returns (rc: int)
      requires Valid()
      modifies this, matchList
      ensures Valid()
      ensures matchList == old(matchList) || fresh(matchList)
      ensures userTyped == Copy(token, typedSize)
      ensures rc == -1 <==> tags.None? || tags.value == []
      ensures rc == -1 ==> completed == [] && Matches() == []
      ensures rc != -1 ==> rc == 0
                           && Matches() == AsNamed(Filter(userTyped, tags.value)) + [Named(userTyped)]
                           && completed == NarrowAll([], Filter(userTyped, tags.value), completedSize)
    {
      numMatched := 0;
      rc := CompleteAllNmTagsAsWritten(token, tags);
    }

    /** Lines 201-218 of every *_complete function, after the first Tab: no
        match for something typed gives 0 and changes nothing; otherwise
        `completed` becomes the single match or the slot the cycle reaches,
        and strncpy writes it into buf at `at`, `room` bytes at most. */
    method FinishTab(buf: array<char>, at: nat, room: nat, numtabs: int) returns (rc: int)
      requires Valid() && at + room <= buf.Length
      modifies this, buf
      ensures Valid()
      ensures userTyped == old(userTyped) && matchList == old(matchList)
      ensures numMatched == old(numMatched) && Matches() == old(Matches())
      ensures rc == 0 || rc == 1
      ensures rc == 0 <==> old(completed) == [] && userTyped != []
      ensures rc == 0 ==> completed == old(completed) && buf[..] == old(buf[..])
      ensures rc == 1 ==> completed == Chosen(old(completed), MatchTexts(), numtabs, completedSize)
                          && buf[..] == StrNCpyResult(old(buf[..]), at, completed, room)
    {
      if completed == [] && userTyped != [] {
        return 0;
      }
      if numtabs == 1 && numMatched == 2 {
        completed := Copy(EntryText(matchList[0], userTyped), completedSize);
      } else if numtabs > 1 && numMatched > 2 {
        completed := Copy(EntryText(matchList[CycleIndex(numtabs, numMatched)], userTyped), completedSize);
      }
      StrNCpy(buf, at, completed, room);
      rc := 1;
    }

    /** One Tab of mutt_command_complete or mutt_label_complete for the text
        `token` found at `at`, offering `cands` (sorted first for labels). */
    method Tab(buf: array<char>, at: nat, token: string, cands: seq<string>, sorted: bool, numtabs: int)
      returns (rc: int)
      requires Valid() && at <= buf.Length
      modifies this, matchList, buf
      ensures Valid()
      ensures var typed := Copy(token, typedSize);
              var ms := Filter(typed, cands);
              TabResult(old(State(buf)), State(buf), completedSize, at, typed,
                        AsNamed(if sorted then SortLabels(ms) else ms) + [TypedRef],
                        NarrowAll([], ms, completedSize), numtabs, rc)
    {
      if numtabs == 1 {
        if sorted {
          FirstTabLabels(token, cands);
        } else {
          FirstTab(token, cands);
        }
        if userTyped == [] {
          return 1;
        }
      }
      rc := FinishTab(buf, at, buf.Length - at, numtabs);
    }

    /** One Tab of mutt_nm_tag_complete for the tag `token` found at `at`:
        the matches come from complete_all_nm_tags, with the typed text
        itself as the last entry. */
    method NmTab(buf: array<char>, at: nat, token: string, tags: Option<seq<string>>, numtabs: int)
      returns (ok: bool)
      requires Valid() && at <= buf.Length
      modifies this, matchList, buf
      ensures Valid()
      ensures var typed := Copy(token, typedSize);
              var found := tags.Some? && tags.value != [];
              var ms := if found then Filter(typed, tags.value) else [];
              TabResult(old(State(buf)), State(buf), completedSize, at, typed,
                        if found then AsNamed(ms) + [Named(typed)] else [],
                        NarrowAll([], ms, completedSize), numtabs, if ok then 1 else 0)
    {
      if numtabs == 1 {
        var _ := CompleteAllNmTags(token, tags);
        if userTyped == [] {
          return true;
        }
      }
      var rc := FinishTab(buf, at, buf.Length - at, numtabs);
      ok := rc == 1;
    }
  }

  /** What a Tab reads and writes: user_typed, the stored matches,
      completed, and the caller's line buffer. */
  datatype TabState = TabState(typed: string, matches: seq<Entry>, completed: string, line: seq<char>)

  /** What one Tab of a *_complete function does once it has found the
      text to complete at `at`: on the first Tab, user_typed becomes `typed`
      and the match list `entries` (with `completed` at `firstCompleted`);
      on later Tabs both stay. Nothing typed on the first Tab succeeds
      without touching the line. Otherwise an empty completion for
      something typed fails and changes nothing, and any other outcome
      writes the chosen completion into the line with strncpy, up to the
      end of the buffer. `size` is the size of the completed field. */
  predicate TabResult(before: TabState, after: TabState, size: nat, at: nat, typed: string,
                      entries: seq<Entry>, firstCompleted: string, numtabs: int, rc: int)
    requires size > 0 && at <= |before.line|
  {
    var first := numtabs == 1;
    var c0 := if first then firstCompleted else before.completed;
    var fake := first && after.typed == [];
    && (first ==> after.typed == typed && after.matches == entries)
    && (!first ==> after.typed == before.typed && after.matches == before.matches)
    && (rc == 0 || rc == 1)
    && (rc == 0 <==> !fake && c0 == [] && after.typed != [])
    && (rc == 0 || fake ==> after.completed == c0 && after.line == before.line)
    && (rc == 1 && !fake ==>
          after.completed == Chosen(c0, Texts(after.matches, after.typed), numtabs, size)
          && after.line == StrNCpyResult(before.line, at, after.completed, |before.line| - at))
  }

  // ----- strncpy into the caller's line -----

  /** The n bytes strncpy writes: src, then NUL padding; no terminator when
      src does not fit. */
  function Padded(src: string, n: nat): (r: seq<char>)
    ensures |r| == n
    ensures |src| < n ==> r[..|src|] == src && forall k :: |src| <= k < n ==> r[k] == NUL
    ensures |src| >= n ==> r == src[..n]
  {
    if |src| >= n then src[..n] else src + seq(n - |src|, _ => NUL)
  }

  function StrNCpyResult(b: seq<char>, at: nat, src: string, n: nat): (r: seq<char>)
    requires at + n <= |b|
    ensures |r| == |b|
  {
    b[..at] + Padded(src, n) + b[at + n..]
  }

  /** strncpy(buf + at, src, n). */
  method StrNCpy(buf: array<char>, at: nat, src: string, n: nat)
    requires at + n <= buf.Length
    modifies buf
    ensures buf[..] == StrNCpyResult(old(buf[..]), at, src, n)
  {
    ghost var pad := Padded(src, n);
    var i := 0;
    while i < n
      invariant 0 <= i <= n
      invariant forall k :: 0 <= k < buf.Length ==>
                  buf[k] == (if at <= k < at + i then pad[k - at] else old(buf[k]))
    {
      buf[at + i] := if i < |src| then src[i] else NUL;
      i := i + 1;
    }
    assert buf[..] == StrNCpyResult(old(buf[..]), at, src, n);
  }

  /** A C string stops at its first NUL, whatever follows. */
  lemma {:induction false} CStrStopsAtNul(x: string, y: seq<char>)
    requires NUL !in x
    ensures CStr(x + [NUL] + y) == x
  {
    if x != [] {
      assert (x + [NUL] + y)[1..] == x[1..] + [NUL] + y;
      CStrStopsAtNul(x[1..], y);
    }
  }

  /** When the completion fits, the line after strncpy reads as the text
      before `at` followed by the completion. */
  lemma StrNCpyGivesLine(b: seq<char>, at: nat, src: string, n: nat)
    requires at + n <= |b| && NUL !in b[..at] && NUL !in src && |src| < n
    ensures CStr(StrNCpyResult(b, at, src, n)) == b[..at] + src
  {
    var r := StrNCpyResult(b, at, src, n);
    assert r == (b[..at] + src) + [NUL] + r[at + |src| + 1..];
    CStrStopsAtNul(b[..at] + src, r[at + |src| + 1..]);
  }

  // ----- Properties of the matching -----

  lemma FilterStep(typed: string, cands: seq<string>, i: nat)
    requires i < |cands|
    ensures Filter(typed, cands[..i + 1])
            == Filter(typed, cands[..i]) + (if typed <= cands[i] then [cands[i]] else [])
  {
    assert cands[..i + 1][..i] == cands[..i];
  }

  lemma AsNamedAppend(a: seq<string>, b: seq<string>)
    ensures AsNamed(a + b) == AsNamed(a) + AsNamed(b)
  {
  }

  lemma NarrowAllStep(c: string, ms: seq<string>, x: string, size: nat)
    requires size > 0
    ensures NarrowAll(c, ms + [x], size) == Narrow(NarrowAll(c, ms, size), x, size)
  {
    assert (ms + [x])[..|ms|] == ms;
  }

  /** One turn of the collecting loop, for the match list. */
  lemma CollectStepMatches(start: seq<Entry>, seen: seq<Entry>, now: seq<Entry>,
                           typed: string, cands: seq<string>, i: nat)
    requires i < |cands|
    requires seen == start + AsNamed(Filter(typed, cands[..i]))
    requires typed <= cands[i] ==> now == seen + [Named(cands[i])]
    requires !(typed <= cands[i]) ==> now == seen
    ensures now == start + AsNamed(Filter(typed, cands[..i + 1]))
  {
    FilterStep(typed, cands, i);
    var done := Filter(typed, cands[..i]);
    if typed <= cands[i] {
      AsNamedAppend(done, [cands[i]]);
      assert AsNamed([cands[i]]) == [Named(cands[i])];
    }
  }

  /** One turn of the collecting loop, for `completed`. */
  lemma CollectStepCompleted(c0: string, before: string, now: string,
                             typed: string, cands: seq<string>, i: nat, size: nat)
    requires i < |cands| && size > 0
    requires before == NarrowAll(c0, Filter(typed, cands[..i]), size)
    requires typed <= cands[i] ==> now == Narrow(before, cands[i], size)
    requires !(typed <= cands[i]) ==> now == before
    ensures now == NarrowAll(c0, Filter(typed, cands[..i + 1]), size)
  {
    FilterStep(typed, cands, i);
    if typed <= cands[i] {
      NarrowAllStep(c0, Filter(typed, cands[..i]), cands[i], size);
    } else {
      assert Filter(typed, cands[..i + 1]) == Filter(typed, cands[..i]);
    }
  }

  /** The stored candidates are exactly the offered ones that begin with the
      typed text, in their order. */
  lemma {:induction false} FilterIsPrefixSelection(typed: string, cands: seq<string>)
    ensures forall x :: x in Filter(typed, cands) <==> x in cands && typed <= x
    ensures |Filter(typed, cands)| <= |cands|
  {
    if cands != [] {
      var init := cands[..|cands| - 1];
      FilterIsPrefixSelection(typed, init);
      assert cands == init + [cands[|cands| - 1]];
    }
  }

  /** With something typed, `completed` after the first Tab is a non-empty
      prefix of every match, no longer than its field allows, and begins
      with as much of the typed text as fits. */
  lemma {:induction false} NarrowAllIsCommonPrefix(typed: string, ms: seq<string>, size: nat)
    requires size >= 2 && typed != [] && ms != []
    requires forall i :: 0 <= i < |ms| ==> typed <= ms[i]
    ensures var r := NarrowAll([], ms, size);
            && (forall i :: 0 <= i < |ms| ==> r <= ms[i])
            && |r| < size
            && Copy(typed, size) <= r
            && r != []
  {
    var last := ms[|ms| - 1];
    var init := ms[..|ms| - 1];
    if init == [] {
      assert ms == [last];
    } else {
      NarrowAllIsCommonPrefix(typed, init, size);
      var c := NarrowAll([], init, size);
      LcpIsLongestCommonPrefix(c, last);
      LcpIsGreatest(c, last, Copy(typed, size));
      forall i | 0 <= i < |ms|
        ensures Lcp(c, last) <= ms[i]
      {
        if i < |ms| - 1 {
          assert init[i] == ms[i];
        }
      }
    }
  }

  /** ... and it is the longest prefix common to all the matches that fits
      the field. */
  lemma {:induction false} NarrowAllIsLongest(typed: string, ms: seq<string>, size: nat, p: string)
    requires size >= 2 && typed != [] && ms != []
    requires forall i :: 0 <= i < |ms| ==> typed <= ms[i]
    requires forall i :: 0 <= i < |ms| ==> p <= ms[i]
    requires |p| < size
    ensures p <= NarrowAll([], ms, size)
  {
    var last := ms[|ms| - 1];
    var init := ms[..|ms| - 1];
    if init == [] {
      assert ms == [last];
    } else {
      NarrowAllIsCommonPrefix(typed, init, size);
      NarrowAllIsLongest(typed, init, size, p);
      LcpIsGreatest(NarrowAll([], init, size), last, p);
    }
  }

  /** Lines 201-202: with something typed, the first Tab gives "no match"
      exactly when no source string began with the typed text. */
  lemma NoCompletionIffNoMatch(typed: string, cands: seq<string>, size: nat)
    requires size >= 2 && typed != []
    ensures NarrowAll([], Filter(typed, cands), size) == [] <==> Filter(typed, cands) == []
  {
    var ms := Filter(typed, cands);
    FilterIsPrefixSelection(typed, cands);
    if ms != [] {
      forall i | 0 <= i < |ms|
        ensures typed <= ms[i]
      {
        assert ms[i] in ms;
      }
      NarrowAllIsCommonPrefix(typed, ms, size);
    }
  }

  /** Lines 206-209: one real match besides the typed text, on the first
      Tab, becomes the completion. */
  lemma SingleMatchCompletes(c: string, m: string, typed: string, size: nat)
    requires size > 0
    ensures Chosen(c, [m, typed], 1, size) == Copy(m, size)
  {
  }

  /** Lines 210-215: Tab number k + 2 shows slot k, for every slot; after
      num_matched more Tabs the cycle repeats. */
  lemma {:induction false} CycleVisitsEverySlot(c: string, texts: seq<string>, size: nat, k: nat)
    requires size > 0 && |texts| > 2 && k < |texts|
    ensures Chosen(c, texts, k + 2, size) == Copy(texts[k], size)
    ensures Chosen(c, texts, k + 2 + |texts|, size) == Copy(texts[k], size)
  {
    assert CycleIndex(k + 2, |texts|) == k;
    var n := |texts|;
    assert (k + n) % n == k by {
      assert k + n == 1 * n + k;
    }
    assert CycleIndex(k + 2 + n, n) == k;
  }

  /** The cycle ends on the last slot, which the first Tab filled with the
      typed text: the user gets back what they typed. */
  lemma CycleEndsWithTypedText(cd: CompletionData, c: string)
    requires cd.Valid() && cd.numMatched > 2
    requires cd.Matches()[cd.numMatched - 1] == TypedRef
    ensures Chosen(c, cd.MatchTexts(), cd.numMatched + 1, cd.completedSize)
            == Copy(cd.userTyped, cd.completedSize)
  {
    CycleVisitsEverySlot(c, cd.MatchTexts(), cd.completedSize, cd.numMatched - 1);
  }

  /** After the first Tab that collected candidates, the slot count is at
      least one and every slot the cycle can reach begins with the typed text. */
  lemma FirstTabSlotsExtendTyped(typed: string, cands: seq<string>, numtabs: int)
    requires numtabs >= 2
    ensures var texts := Texts(AsNamed(Filter(typed, cands)) + [TypedRef], typed);
            |texts| >= 1 && typed <= texts[CycleIndex(numtabs, |texts|)]
  {
    var ms := Filter(typed, cands);
    var texts := Texts(AsNamed(ms) + [TypedRef], typed);
    FilterIsPrefixSelection(typed, cands);
    var k := CycleIndex(numtabs, |texts|);
    if k < |ms| {
      assert texts[k] == ms[k];
      assert ms[k] in ms;
    }
  }

  // ----- The label sort (line 386) -----

  /** The labels sorted case-insensitively, as mutt_istr_cmp orders them. */
  function SortLabels(ms: seq<string>): (r: seq<string>)
    ensures SortedBy(r, x => x)
    ensures multiset(r) == multiset(ms)
  {
    SortByIsSortedPermutation(ms, x => x);
    SortBy(ms, x => x)
  }

  /** qsort(match_list, num_matched, sizeof(char *), (sort_t) mutt_istr_cmp)
      as written: qsort hands the comparator the addresses of the slots, so
      mutt_istr_cmp reads the bytes of each slot (the address of its label),
      given here by `slotBytes`, instead of the label. */
  function QsortLabelsAsWritten(ms: seq<string>, slotBytes: string -> string): (r: seq<string>)
    ensures SortedBy(r, slotBytes)
    ensures multiset(r) == multiset(ms)
  {
    SortByIsSortedPermutation(ms, slotBytes);
    SortBy(ms, slotBytes)
  }

  /** Two labels whose slot addresses compare the other way round from the
      labels stay out of order. */
  lemma QsortLabelsAsWrittenMisorders()
    ensures var slotBytes := (x: string) => if x == "b" then [1 as char] else [2 as char];
            var r := QsortLabelsAsWritten(["b", "a"], slotBytes);
            r == ["b", "a"] && !SortedBy(r, x => x)
  {
    var slotBytes := (x: string) => if x == "b" then [1 as char] else [2 as char];
    assert IstrLe(slotBytes("b"), slotBytes("a"));
    assert !IstrLe("b", "a");
    var r := QsortLabelsAsWritten(["b", "a"], slotBytes);
    assert SortBy(["a"], slotBytes) == ["a"];
    assert r == ["b", "a"];
  }

  /** The stale entries complete_all_nm_tags leaves: after completing "i"
      against the tag "inbox", completing "w" against "work" and "inbox"
      shows "inbox" on the second Tab, which does not begin with "w". */
  lemma NmStaleEntryCycled()
    ensures var before := [Named("inbox"), Named("i")];
            var after := before + AsNamed(Filter("w", ["work", "inbox"])) + [Named("w")];
            var texts := Texts(after, "w");
            Chosen("work", texts, 2, 256) == "inbox" && !("w" <= "inbox")
  {
    assert !("w" <= "inbox") by {
      assert "inbox"[0] == 'i';
      assert ("w")[0] == 'w';
    }
    assert "w" <= "work" by {
      assert "work"[..1] == "w";
    }
    assert Filter("w", ["work", "inbox"]) == ["work"] by {
      assert ["work", "inbox"][..1] == ["work"];
      assert ["work"][..0] == [];
    }
  }

  /** With the count reset, every slot of a successful tag completion begins
      with the typed text. */
  lemma NmSlotsExtendTyped(typed: string, tags: seq<string>)
    ensures var texts := Texts(AsNamed(Filter(typed, tags)) + [Named(typed)], typed);
            forall i :: 0 <= i < |texts| ==> typed <= texts[i]
  {
    var ms := Filter(typed, tags);
    var texts := Texts(AsNamed(ms) + [Named(typed)], typed);
    FilterIsPrefixSelection(typed, tags);
    forall i | 0 <= i < |texts|
      ensures typed <= texts[i]
    {
      if i < |ms| {
        assert texts[i] == ms[i] && ms[i] in ms;
      }
    }
  }
}
