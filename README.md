# NeoMutt: buffers, tab completion and the colour commands

A Dafny model of three pieces of NeoMutt's string handling, with proofs
about each.

- **`struct Buffer`** (`mutt/buffer.h`) is NeoMutt's general-purpose
  string object. It has a data block, a read/write position (`dptr`) and
  a block size (`dsize`). The header groups its operations into three
  families: append, insert and overwrite. `mutt_buffer_string` is the one
  operation with a visible body.
- **The tab-completion engine** (`complete/helpers.c`) has these parts:
  - `candidate`, which stores a string that begins with the typed text and
    narrows `completed` (the completion so far) to the longest common
    prefix of everything stored;
  - `matches_ensure_morespace`, which grows the match list in steps of
    512 slots;
  - the per-Tab state machine that `mutt_command_complete`,
    `mutt_label_complete` and `mutt_nm_tag_complete` each repeat: the
    first Tab collects the matches and then the typed text, a single match
    completes, and later Tabs cycle with `(numtabs - 2) % num_matched`;
  - how each entry point finds the text to complete on the line, and what
    `mutt_var_value_complete` writes back.
- **The colour commands** (`color/command.c`) are `color`, `mono`,
  `uncolor` and `unmono`. The model covers:
  - the colour names, with their `bright`/`alert`/`light` prefix, their
    `colorNNN` number or their entry in the table of colour names;
  - the attribute keywords;
  - the object names, including `quotedN` and `compose NAME`;
  - the argument rules of `parse_color` and `parse_uncolor`;
  - `get_colorid_name`.

File by file:

- `buffer.dfy` (module `MuttBuffer`)
  - `class Buffer`, whose methods change `data`, `dptr` and `dsize` in
    place. Each method states the new content in terms of the old.
  - `BufferString`, which models `mutt_buffer_string`.
- `completion.dfy` (module `Completion`)
  - `class CompletionData`. It holds `user_typed`, `completed`,
    `num_matched` and the `match_list` array.
  - The methods for `candidate`, `matches_ensure_morespace`, the first Tab
    and the later Tabs. Each is proved against the functions `Filter`,
    `NarrowAll` and `Chosen` and the predicate `TabResult`.
  - The lemmas that give those functions their meaning: a prefix
    selection, the longest common prefix, and a cycle that stays in range
    and ends on the typed text.
- `complete_commands.dfy` (module `CompleteCommands`)
  - The four entry points, on the caller's line held in an
    `array<char>`.
  - The walks along the line become loops with invariants.
- `color_tables.dfy`, `color_parse.dfy` (modules `ColorTables`,
  `ColorParse`)
  - The object tables, colour names and keywords, as functions. A name
    classifies to a result, a colour and attributes.
- `color_command.dfy` (module `ColorCommand`)
  - The token-consuming parsers, as methods over an argument stream
    (`class Args`), a scratch `Buffer` and an error `Buffer`.
  - Each method is proved equal to a function of the old contents: an
    `Io` snapshot of the remaining tokens, `buf` and `err`.
  - The collaborators the commands call are parameters, in a `Registry`
    value: the regex, quoted and simple colour lists, `use_default_colors`
    and curses. Their calls are recorded in order, as a list of `Call`
    values.
- `color_laws.dfy` (module `ColorLaws`)
  - The properties of those functions.
- `cstring.dfy`, `sorting.dfy` (modules `CString`, `Sorting`)
  - The C library and mutt string routines that the core calls, reduced
    to their effect on character sequences.
  - `qsort` with a case-insensitive comparator.

Behaviour the source does not fix, and how the model settles it:

- `mutt/buffer.c` is not part of this model. When a buffer must grow,
  the model picks the smallest block that holds the new content.
- An insert offset past the content is taken as the end of the content.
- A range that ends before it begins copies nothing.
- A buffer copied onto itself becomes empty.
- The join of a directory with an empty file name is the directory
  alone.
- An explicit `mutt_buffer_alloc` that has to (re)allocate leaves the
  buffer empty, with the position at the start. The growth inside the
  append, insert and overwrite operations keeps the content. The model
  therefore has two growth behaviours, where the C code has one routine
  whose body is not part of this model.
- A file name's own leading `/` is merged into the separator of a path
  join, as a directory's trailing one is: "/a/b" + "/c" gives "/a/b/c".

## Model

| member | source | states |
|---|---|---|
| MuttBuffer.BufferString | mutt/buffer.h:78-84 | A missing buffer or one with no block reads as the empty string (never NULL); otherwise the result is exactly the buffer's data |
| MuttBuffer.Buffer.Init | mutt/buffer.h:43 | The zeroed state: no block, empty content, position and size 0 |
| MuttBuffer.Buffer.Make | mutt/buffer.h:46 | An empty buffer positioned at 0, with a block of at least `size` bytes, allocated exactly when size > 0 |
| MuttBuffer.Buffer.IsEmpty | mutt/buffer.h:44 | True exactly when mutt_buffer_string gives the empty string |
| MuttBuffer.Buffer.Len | mutt/buffer.h:45 | The position, which never exceeds the visible content, and is 0 without a block |
| MuttBuffer.Buffer.Head | mutt/buffer.h:36 | The content before the position is a prefix of the visible content, of length Len() |
| MuttBuffer.Buffer.Alloc | mutt/buffer.h:40 | Afterwards the block holds at least `size` bytes and never shrinks; a block that already fits keeps content and position, a (re)allocation empties the content and rewinds the position |
| MuttBuffer.Buffer.Dealloc | mutt/buffer.h:41 | Back to the zeroed state from any state, so a second call changes nothing |
| MuttBuffer.Buffer.FixDptr | mutt/buffer.h:42 | The position moves to the terminator; content and block unchanged |
| MuttBuffer.Buffer.Reset | mutt/buffer.h:47 | The content is emptied and the position rewound; the block and its size are kept |
| MuttBuffer.Buffer.Seek | mutt/buffer.h:49 | The position becomes offset, clamped to the content length; content and block unchanged |
| MuttBuffer.Buffer.Strdup | mutt/buffer.h:48 | The copy equals what mutt_buffer_string shows, and the buffer is not changed |
| MuttBuffer.Buffer.Addch | mutt/buffer.h:52 | Append family: the old content before the position is kept as a prefix and c follows it; the result is 1 |
| MuttBuffer.Buffer.Addstr | mutt/buffer.h:53 | Append family: the content becomes the old content before the position followed by s; the result is \|s\| |
| MuttBuffer.Buffer.AddstrN | mutt/buffer.h:54 | Append family: exactly the first len characters of s are appended after the kept prefix |
| MuttBuffer.Buffer.AddPrintf | mutt/buffer.h:55 | Append family: the formatted text follows the kept prefix; the result is its length |
| MuttBuffer.Buffer.Insert | mutt/buffer.h:58 | s is inserted at the offset (clamped to the content), with the content before and after it unchanged |
| MuttBuffer.Buffer.Strcpy | mutt/buffer.h:65 | Overwrite family: the content becomes s, whatever it held; the position is at its end |
| MuttBuffer.Buffer.StrcpyN | mutt/buffer.h:66 | Overwrite family: the content becomes the first len characters of s |
| MuttBuffer.Buffer.Substrcpy | mutt/buffer.h:67 | Overwrite family: the content becomes the range [beg, end), or nothing when end is not after beg |
| MuttBuffer.Buffer.Printf | mutt/buffer.h:64 | Overwrite family: the content becomes the formatted text |
| MuttBuffer.Buffer.Copy | mutt/buffer.h:63 | The content becomes what src shows; a buffer copied onto itself is emptied |
| MuttBuffer.Buffer.ConcatPath | mutt/buffer.h:61 | The content becomes dir and fname joined with no doubled separator |
| MuttBuffer.Buffer.ConcatnPath | mutt/buffer.h:62 | As ConcatPath, on the first dirlen and fnamelen characters |
| MuttBuffer.JoinPathOneSeparator | mutt/buffer.h:61 | Two non-empty parts are joined by exactly one separator: trailing and leading ones merge into it |
| MuttBuffer.JoinPathExamples | mutt/buffer.h:61 | "/a/b"+"c" and "/a/b/"+"c" give "/a/b/c", ""+"c" gives "c", "/a/b"+"" gives "/a/b" |
| MuttBuffer.StrcpyThenRead | color/command.c:765 | After strcpy(buf, s), mutt_buffer_string(buf) is exactly s and the length is \|s\| |
| CString.Lower | color/command.c:234 | Every character is mapped by ASCII tolower and the length is kept |
| CString.CStr | complete/helpers.c:557 | The characters before the first NUL: a NUL-free prefix, followed by NUL when shorter than the block |
| CString.CStrSuffix | complete/helpers.c:504 | The C string that starts inside another is the rest of that one |
| CString.Copy | complete/helpers.c:185 | mutt_str_copy: a prefix of src shorter than the destination, all of src when it fits, dsize-1 characters otherwise |
| CString.LeadingSpaces | complete/helpers.c:172 | SKIPWS: every skipped character is white space and the next one is not |
| CString.LeadingSpacesUnique | complete/helpers.c:172 | Any count with that property is the one SKIPWS gives |
| CString.LeadingDigits | color/command.c:159 | The longest run of leading decimal digits |
| CString.LcpIsLongestCommonPrefix | complete/helpers.c:95-98 | The loop's prefix is common to both strings and cannot be extended |
| CString.LcpUnique | complete/helpers.c:95-98 | A common prefix that cannot be extended is that prefix |
| CString.LcpIsGreatest | complete/helpers.c:95-98 | Every common prefix of the two strings is a prefix of it |
| CString.NatToDecimal | color/command.c:354 | printf "%d" of a non-negative number: a non-empty string of digits |
| CString.DecimalRoundTrip | color/command.c:354 | The printed digits read back as the number |
| CString.ScanNumber | color/command.c:159 | The end position lies within the string and follows a digit when a number was read |
| CString.StrToUl | color/command.c:159 | strtoul's value always lies within unsigned long |
| CString.AtoiFull | color/command.c:378 | A value is given only when it lies within int |
| CString.AtouiFull | color/command.c:818 | A value is given only when it lies within unsigned int |
| CString.PrintedNumberScans | color/command.c:159 | Every character of a printed number is read, giving the number |
| CString.AtoiFullReadsPrinted | color/command.c:378 | mutt_str_atoi_full reads back every number printed with "%d" that fits in int |
| CString.NegativeNumberScans | color/command.c:378 | A minus sign makes the scan negative, with the same magnitude and every character read |
| CString.AtoiFullReadsNegative | color/command.c:378 | "-N" reads as -N for every N that fits in int |
| CString.LexLeTotal | complete/helpers.c:386 | The comparator's order is total |
| CString.LexLeTransitive | complete/helpers.c:386 | The comparator's order is transitive |
| Sorting.InsertByAddsOne | complete/helpers.c:386 | Inserting adds exactly that entry to the multiset |
| Sorting.InsertByKeepsOrder | complete/helpers.c:386 | Inserting into an ordered sequence keeps it ordered |
| Sorting.SortByIsSortedPermutation | complete/helpers.c:386 | The sort's result is ordered by the comparator and is a permutation of its input |
| Completion.RoundUp | complete/helpers.c:58 | ROUND_UP gives a multiple of the step that is at least num and less than num + step |
| Completion.RoundUpIsNextMultiple | complete/helpers.c:58 | The integer formula (num + step - 1) / step * step is that multiple |
| Completion.Texts | complete/helpers.c:193 | Slot i points at entry i's string, and the user_typed slot at the typed text |
| Completion.CycleIndex | complete/helpers.c:214 | (numtabs - 2) % num_matched is always a slot in range |
| Completion.CompletionData.EnsureMoreSpace | complete/helpers.c:53-64 | Nothing changes while new_size <= len - 2; otherwise a fresh list of ROUND_UP(new_size + 2, 512) slots holds the old slots; length never shrinks, matches kept |
| Completion.CompletionData.Push | complete/helpers.c:86-87 | The entry is stored after the matches and the count goes up by one; earlier entries are unchanged |
| Completion.CompletionData.Candidate | complete/helpers.c:77-101 | A match exactly when src begins with the typed text; no match changes nothing; a match appends src and narrows completed (an empty one becomes src cut to its field, otherwise the common prefix) |
| Completion.CompletionData.CollectCandidates | complete/helpers.c:190-191 | After the loop the matches are the old ones plus every candidate that begins with the typed text, in order, and completed is narrowed by each |
| Completion.CompletionData.BeginTab | complete/helpers.c:184-187 | num_matched = 0, user_typed takes the token cut to its field, completed is cleared |
| Completion.CompletionData.FirstTab | complete/helpers.c:182-193 | The matches are the candidates that begin with the typed text, then the typed text itself as the last slot |
| Completion.CompletionData.SortMatches | complete/helpers.c:386 | Corrected: the stored labels are replaced by their permutation ordered by mutt_istr_cmp on the labels themselves (SortLabels); the as-written order on slot bytes is Completion.QsortLabelsAsWritten |
| Completion.CompletionData.FirstTabLabels | complete/helpers.c:379-387 | Corrected: as FirstTab, with the matching labels in SortLabels order before the typed text is stored; line 386 as written orders them by slot bytes (Completion.QsortLabelsAsWritten) |
| Completion.CompletionData.CompleteAllNmTags | complete/helpers.c:111-152 | Corrected: missing or no tags gives -1 and empties everything; otherwise this completion's matches and then a copy of the typed text |
| Completion.CompletionData.CompleteAllNmTagsAsWritten | complete/helpers.c:111-152 | As written: the same, but behind whatever the previous completion left in the list |
| Completion.CompletionData.FinishTab | complete/helpers.c:201-218 | 0 exactly when completed is empty while the typed text is not, and then neither completed nor the line changes; otherwise completed is the single match or the cycled slot and strncpy writes it into the line |
| Completion.CompletionData.Tab | complete/helpers.c:182-218 | One Tab satisfies TabResult: first-Tab collection, the fake success for empty input, the 0 and 1 paths and the line written |
| Completion.CompletionData.NmTab | complete/helpers.c:510-538 | Corrected: one Tab of the tag completion satisfies TabResult, with only this completion's matching tags and then a copy of the typed text, as CompleteAllNmTags gives them; the as-written list keeps earlier slots (Completion.CompletionData.CompleteAllNmTagsAsWritten) |
| Completion.Padded | complete/helpers.c:218 | strncpy's n bytes: src then NUL padding, or the first n characters of src with no terminator |
| Completion.StrNCpy | complete/helpers.c:218 | Only the line changes: it becomes the strncpy result at the offset |
| Completion.StrNCpyGivesLine | complete/helpers.c:218 | When the completion fits, the line reads as its text before the offset followed by the completion |
| Completion.FilterIsPrefixSelection | complete/helpers.c:83-87 | The stored matches are exactly the candidates that begin with the typed text, no more of them than candidates |
| Completion.NarrowAllIsCommonPrefix | complete/helpers.c:88-99 | completed is a non-empty prefix of every match, fits its field, and begins with the typed text |
| Completion.NarrowAllIsLongest | complete/helpers.c:92-99 | Every prefix common to all matches that fits the field is a prefix of completed: it is the longest |
| Completion.NoCompletionIffNoMatch | complete/helpers.c:201-202 | With something typed, completed is empty exactly when no candidate matched, so the 0 return means "no match" |
| Completion.SingleMatchCompletes | complete/helpers.c:206-209 | One real match on the first Tab completes to that match |
| Completion.CycleVisitsEverySlot | complete/helpers.c:210-215 | Tab k + 2 shows slot k for every slot, and the cycle repeats every num_matched Tabs |
| Completion.CycleEndsWithTypedText | complete/helpers.c:210-215 | With more than one real match, Tab num_matched + 1, the last of a round, shows the typed text again |
| Completion.FirstTabSlotsExtendTyped | complete/helpers.c:192-193 | Every slot a later Tab can show begins with the typed text |
| Completion.SortLabels | complete/helpers.c:386 | The labels ordered by mutt_istr_cmp, a permutation of the input |
| Completion.QsortLabelsAsWritten | complete/helpers.c:386 | As written: the comparator sees each slot's bytes, so the result is ordered by those bytes (a permutation, not ordered by label) |
| Completion.QsortLabelsAsWrittenMisorders | complete/helpers.c:386 | Labels whose slot bytes compare the other way round stay out of label order |
| Completion.NmStaleEntryCycled | complete/helpers.c:111-152 | A second completion after an earlier one cycles to a tag that does not begin with the new typed text |
| Completion.NmSlotsExtendTyped | complete/helpers.c:138-145 | With the count reset, every slot of a tag completion begins with the typed text |
| CompleteCommands.WordStart | complete/helpers.c:176-177 | The walk back stops at lo or on white space, and every character it passed is not white space |
| CompleteCommands.SkipWs | complete/helpers.c:172 | The loop returns the number of leading white-space characters of the line |
| CompleteCommands.WalkBack | complete/helpers.c:175-177 | The loop returns the WordStart of the line |
| CompleteCommands.PrefixSkip | complete/helpers.c:229-236 | The skipped length never passes the end of the text |
| CompleteCommands.SetPrefixSkipsOne | complete/helpers.c:223-237 | After `set`, one of no, inv, ? and & is skipped (2, 3, 1, 1 characters) and nothing otherwise |
| CompleteCommands.TargetAfterWalk | complete/helpers.c:179-299 | Where completion starts lies within the line |
| CompleteCommands.CommandTarget | complete/helpers.c:172-299 | Where completion starts lies within the line |
| CompleteCommands.CommandTargetKinds | complete/helpers.c:179-299 | A command name is completed exactly when no white space separates the cursor from the line's start, and at that start; variables only on set/unset/reset/toggle lines; functions only on exec lines |
| CompleteCommands.OfferedVariables | complete/helpers.c:249-258 | A name is offered exactly when it is a config variable that is neither a synonym nor deprecated |
| CompleteCommands.CommandComplete | complete/helpers.c:165-350 | No target gives 0 and changes nothing; otherwise the Tab offers the source strings that begin with the typed word, then the typed text, per TabResult |
| CompleteCommands.LabelComplete | complete/helpers.c:361-415 | Corrected: no labels gives 0 and changes nothing; otherwise the matching labels in SortLabels order, then the typed text, per TabResult; line 386 as written orders them by slot bytes (Completion.QsortLabelsAsWritten) |
| CompleteCommands.LastSpace | complete/helpers.c:502 | strrchr(buf, ' '): none when the line has no space, else the last space |
| CompleteCommands.NmTagStart | complete/helpers.c:499-508 | The tag starts within the line |
| CompleteCommands.NmTagIsLastWord | complete/helpers.c:501-508 | The tag is the text after the last space, with one leading + or - skipped and no more |
| CompleteCommands.NmTagComplete | complete/helpers.c:494-541 | Corrected: the Tab completes the last word against the tags, per TabResult, with the match list started afresh; no tags is no match; the as-written list keeps earlier slots (Completion.CompletionData.CompleteAllNmTagsAsWritten) |
| CompleteCommands.LookupRc | complete/helpers.c:550-551 | Corrected return code: 0 or 1, and 1 exactly when a value was written |
| CompleteCommands.LookupRcAsWrittenInverted | complete/helpers.c:600-611 | As written, a written config value returns 0 and an unreadable one 1; user variables agree with LookupRc |
| CompleteCommands.VarTarget | complete/helpers.c:557-580 | An empty line gives no name; a found name starts inside the line, not on '=', on a `set` line |
| CompleteCommands.VarTargetAt | complete/helpers.c:567-580 | A name found starts at the walk's stop, not on '=', on a `set` line |
| CompleteCommands.VarTargetName | complete/helpers.c:573-580 | The name fits var[256] less the dropped character, and is the word at its start less its last character |
| CompleteCommands.VarTargetRejects | complete/helpers.c:557-578 | On a non-empty line, no name exactly when the word starts with '=', the line is not a `set` line, or the word is empty |
| CompleteCommands.FindVarToken | complete/helpers.c:555-580 | The loops on the caller's line find VarTarget's name |
| CompleteCommands.VarTargetFound | complete/helpers.c:567-580 | Once every test has passed, the name is the copied word less its last character |
| CompleteCommands.SnprintfResult | complete/helpers.c:590 | snprintf leaves the block's length unchanged |
| CompleteCommands.Snprintf | complete/helpers.c:590 | The block becomes the snprintf result |
| CompleteCommands.SnprintfGivesLine | complete/helpers.c:590 | The line reads as its text before the offset followed by the text, cut to fit |
| CompleteCommands.SnprintfRoom | complete/helpers.c:590 | Corrected size: positive, and exactly the bytes from the offset to the end of the buffer |
| CompleteCommands.VarValueOverrunsAsWritten | complete/helpers.c:590 | As written, "  set a=" in 16 bytes gives room 12 at offset 6, so snprintf may write 18 bytes |
| CompleteCommands.WriteVarValue | complete/helpers.c:582-611 | Corrected: only a name with a value is rewritten, to name=value from the word's start, in the room SnprintfRoom gives; then the result is 1 (LookupRc); otherwise 0 and the line is unchanged. As written, a config value returns 0 (CompleteCommands.LookupRcAsWrittenInverted) and the size is too large (CompleteCommands.VarValueOverrunsAsWritten) |
| CompleteCommands.VarValueComplete | complete/helpers.c:553-615 | Corrected: the line and result are VarValueResult of VarTarget's name, with LookupRc's return code and SnprintfRoom's size; no name gives 0 and leaves the line alone |
| ColorTables.ColorFields | color/command.c:51-101 | The object table has 44 rows (sidebar rows compiled in) |
| ColorTables.ComposeColorFields | color/command.c:106-115 | The compose table has 5 rows |
| ColorTables.NameIndex | color/command.c:411 | The first row whose name equals s ignoring case, or the table's length: no earlier row matches |
| ColorTables.MapGetValue | color/command.c:411 | mutt_map_get_value finds nothing exactly when no row's name equals s ignoring case |
| ColorTables.ValueIndex | color/command.c:350 | The first row holding v, or the table's length: no earlier row holds it |
| ColorTables.MapGetName | color/command.c:350 | mutt_map_get_name gives NULL exactly when no row holds v |
| ColorTables.FirstRowOfRow | color/command.c:89-90 | Every row is the first to hold its id, except sidebar_spoolfile, whose id is first held by sidebar_spool_file |
| ColorTables.NoComposeRow | color/command.c:51-98 | ColorFields holds neither a compose id nor an id outside the tables |
| ColorTables.PlainId | color/command.c:51-98 | Each row's id is neither a compose id nor outside the tables |
| ColorTables.ValueIndexIs | color/command.c:350 | The first row holding v is the value ValueIndex gives |
| ColorTables.NameIndexIs | color/command.c:411 | The first matching row is the value NameIndex gives |
| ColorTables.IEqualLetters | color/command.c:234 | Names equal ignoring case have the same length and the same letters in lower case |
| ColorTables.UnmappedIdName | color/command.c:353-354 | An id that no table names prints as "UNKNOWN " and its number |
| ColorTables.UnmappedNotInTable | color/command.c:350-351 | An id outside the tables has no name in ColorFields |
| ColorTables.UnmappedIdReadsBack | color/command.c:354 | The number of an unknown id's name reads back as its code |
| ColorTables.HeaderObject | color/command.c:59 | "header" names the header object, which prints back as "header" |
| ColorTables.ComposeHeaderObject | color/command.c:108 | "compose header" names a different object, which prints back as "compose header" |
| ColorTables.ComposeIdNames | color/command.c:340-347 | Every compose id prints as "compose " followed by its table name |
| ColorTables.ObjectNamesPrintBack | color/command.c:350-352 | Every object name but the sidebar_spoolfile alias prints back as itself |
| ColorParse.U32 | color/command.c:159 | Conversion to uint32_t: in range, and the identity on values that fit |
| ColorParse.SplitPrefix | color/command.c:135-153 | The rest is the name after the consumed prefix |
| ColorParse.ReadColor | color/command.c:156-171 | A colour read without a prefix adds no attribute and fits uint32_t |
| ColorParse.ReadColorNumber | color/command.c:157-166 | A colorNNN number adds no attribute and fits uint32_t |
| ColorParse.ReadNamedColor | color/command.c:167-171 | A colour from the table of colour names adds no attribute and fits uint32_t |
| ColorParse.ParseColorName | color/command.c:128-212 | A refused name never reports success |
| ColorParse.PrefixConsumedOnce | color/command.c:135-153 | Exactly one of bright, alert and light is consumed, whatever follows it |
| ColorParse.NoPrefixReadsAsIs | color/command.c:135-171 | A name without a prefix is read as it stands |
| ColorParse.LightForeground | color/command.c:185-192 | light with 16 or more colours adds 8 to foreground colours 0-7 and keeps higher ones, adding no bold |
| ColorParse.BrightForeground | color/command.c:183-197 | Any other bright or light foreground keeps the colour and adds bold |
| ColorParse.BrightBackground | color/command.c:198-208 | bright or light backgrounds add 8 to colours 0-7 when there are 16 or more colours; otherwise the colour is kept |
| ColorParse.AlertAddsBoldBlink | color/command.c:141-182 | alert keeps the colour and adds both bold and blink, for foreground and background |
| ColorParse.PrefixKeepsValidity | color/command.c:135-171 | A prefix changes neither whether a name is accepted nor the error a refused one gives |
| ColorParse.ColorWordHasNoPrefix | color/command.c:135-156 | A name starting with "color" has no prefix |
| ColorParse.ColorWordRead | color/command.c:156-158 | "color" followed by d is read as the number d |
| ColorParse.ColorNumberReadsBack | color/command.c:157-166 | colorN reads back as colour N when the terminal has it or curses is off |
| ColorParse.ColorNumberTooLarge | color/command.c:160-163 | colorN with N >= COLORS while curses is on is an error naming the number |
| ColorParse.ColorNumberMissing | color/command.c:160-163 | "color" with no digits is an error |
| ColorParse.ColorNumberTrailing | color/command.c:160-163 | A number followed by a non-digit is an error |
| ColorParse.NameFailures | color/command.c:156-171 | Errors come only from colorNNN; any other name fails exactly when the table of colour names has no entry for it (or maps it to -1), with a "no such color" warning |
| ColorParse.ApplyKeyword | color/command.c:234-247 | A keyword ORs in its bit; none and normal assign A_NORMAL |
| ColorParse.KeywordIgnoresCase | color/command.c:234-247 | Tokens equal ignoring case are the same keyword |
| ColorParse.LowerOfLowerCase | color/command.c:234 | A word with no capital letter is its own lower case |
| ColorParse.KeywordMeanings | color/command.c:234-247 | bold, italic, reverse, standout and underline set their bits, and none and normal clear all bits, in any letter case |
| ColorCommand.Args.constructor | color/command.c:743 | The stream holds the given tokens |
| ColorCommand.Args.ExtractToken | color/command.c:743 | The next token goes into buf (empty when none is left) and is consumed |
| ColorCommand.Args.FakeDone | color/command.c:778 | Writing NUL at dptr leaves no argument |
| ColorCommand.Extract | color/command.c:743 | The next token moves into buf; at the end buf is emptied; err is kept |
| ColorCommand.ParseAttrSpec | color/command.c:217-255 | The new tokens, buf, err, result and colours equal AttrSpecParse of the old state |
| ColorCommand.ParseColorPair | color/command.c:262-329 | The while (true) loop's outcome equals ColorPairParse of the old state |
| ColorCommand.ParseObject | color/command.c:368-424 | The outcome equals ObjectParse of the old state |
| ColorCommand.ParseQuoted | color/command.c:373-388 | The outcome equals QuotedParse of the old state |
| ColorCommand.ParseCompose | color/command.c:390-409 | The outcome equals ComposeParse of the old state |
| ColorCommand.ParseComposeName | color/command.c:400-408 | The outcome equals the compose-table lookup of the token read |
| ColorCommand.ParseTableObject | color/command.c:411-423 | The outcome equals the ColorFields lookup of the token |
| ColorCommand.EatAll | color/command.c:484-489 | No argument is left and err is untouched |
| ColorCommand.EatArgs | color/command.c:484-489 | The do-while loop leaves the state EatAll gives |
| ColorCommand.RemovePatterns | color/command.c:503-521 | The do-while loop's outcome equals UncolorPatterns |
| ColorCommand.ParseUncolor | color/command.c:438-522 | The outcome equals UncolorParse of the old state |
| ColorCommand.UncolorKnownObject | color/command.c:456-521 | The outcome equals UncolorObject |
| ColorCommand.GetColoridName | color/command.c:336-355 | buf holds the object's printed name |
| ColorCommand.ParseColor | color/command.c:723-855 | The outcome equals ColorCommandParse of the old state |
| ColorCommand.FinishColor | color/command.c:756-855 | The outcome equals ColorFinish |
| ColorCommand.ReadPattern | color/command.c:756-767 | The state becomes PatternStage's |
| ColorCommand.ApplyColor | color/command.c:785-855 | The outcome equals ColorApply |
| ColorCommand.ApplyHandlers | color/command.c:793-855 | The outcome equals ColorHandlers |
| ColorCommand.ApplySimple | color/command.c:805-852 | The outcome equals ColorSimple |
| ColorCommand.StatusColor | color/command.c:805-836 | The outcome equals StatusParse, whose argument rule ColorLaws.StatusArguments states: one token is the pattern with submatch 0, a second must read as an unsigned int and is the submatch, a third is too many |
| ColorCommand.StatusNumberStep | color/command.c:814-836 | The outcome equals StatusNumber: the optional submatch number after the pattern, as ColorLaws.StatusArguments states it (0 when absent, "invalid number" when unreadable) |
| ColorCommand.StatusNumberArg | color/command.c:814-826 | With a token left, the outcome equals StatusNumber: a token that is not an unsigned int gives "color: invalid number: N" (ColorLaws.StatusArguments) |
| ColorCommand.StatusFinish | color/command.c:828-835 | The outcome equals StatusEnd: any token still left gives "too many arguments", otherwise the status list is asked with the pattern and submatch (ColorLaws.StatusArguments) |
| ColorCommand.ExtractToTemporary | color/command.c:816-817 | The next token is read into a temporary and consumed |
| ColorCommand.MuttParseUncolor | color/command.c:860-873 | The outcome equals UncolorCommand |
| ColorCommand.MuttParseUnmono | color/command.c:878-883 | The outcome equals UnmonoCommand |
| ColorCommand.MuttParseColor | color/command.c:888-898 | The outcome equals ColorCommandOf: parse_color with parse_color_pair, a dry run when curses is off |
| ColorCommand.MuttParseMono | color/command.c:903-907 | The outcome equals MonoCommand: parse_color with parse_attr_spec, always a dry run |
| ColorLaws.KeywordsAccumulate | color/command.c:276-310 | After OR-ing keywords, an attribute is set exactly when it was set before or some keyword names it |
| ColorLaws.ClearForgetsEarlier | color/command.c:286-295 | none or normal forgets every earlier keyword: only the later ones count |
| ColorLaws.AttrSpecOutcome | color/command.c:221-254 | fg and bg become COLOR_UNSET; no token gives "mono: too few arguments"; one token is consumed; success exactly for a keyword; an unknown keyword gives "no such attribute" with attrs kept |
| ColorLaws.MonoKeywordMeaning | color/command.c:234-241 | mono bold adds bold; none or normal clears all attributes |
| ColorLaws.ColorPairShape | color/command.c:266-328 | Keywords then a foreground and a background give both colours, the keywords' attributes plus the prefixes', and consume exactly those tokens |
| ColorLaws.KeywordsRead | color/command.c:266-310 | Leading keywords are all read and applied in order before the foreground |
| ColorLaws.KeywordStep | color/command.c:274-310 | One keyword is applied and the loop goes on with the next token |
| ColorLaws.ForegroundStep | color/command.c:311-317 | The first non-keyword token is the foreground, and the loop ends |
| ColorLaws.BackgroundStep | color/command.c:326-328 | The token after the foreground is the background |
| ColorLaws.ColorPairOnlyKeywords | color/command.c:268-272 | Keywords alone give "color: too few arguments" |
| ColorLaws.ColorPairNoBackground | color/command.c:320-324 | A foreground with nothing after it gives "color: too few arguments" |
| ColorLaws.ColorPairBadForeground | color/command.c:313-315 | A refused foreground stops the parse with its result and message |
| ColorLaws.ForegroundFails | color/command.c:313-315 | A refused foreground leaves the colours and attributes as they were |
| ColorLaws.ObjectIsNamed | color/command.c:368-424 | An object parsed successfully is always a named object |
| ColorLaws.MapGetValueRow | color/command.c:411 | The value found is that of the first row matching the name |
| ColorLaws.ComposeLookupNamed | color/command.c:400-407 | A name found in the compose table is a compose id |
| ColorLaws.TableLookupNamed | color/command.c:411-422 | A name found in ColorFields is an id of the tables |
| ColorLaws.ObjectDispatch | color/command.c:373-411 | Tokens starting with "quoted" (case-sensitive) go to the quoted rule, else "compose" (any case) to the compose rule, else to ColorFields |
| ColorLaws.QuotedSuffix | color/command.c:376-387 | quotedX succeeds exactly when X reads as an int no greater than COLOR_QUOTES_MAX, giving that level; otherwise "no such object" |
| ColorLaws.QuotedLevelZero | color/command.c:375-387 | "quoted" alone is quote level 0 |
| ColorLaws.QuotedLevelN | color/command.c:376-387 | quotedN, for N within int, is level N when N <= COLOR_QUOTES_MAX and "no such object" otherwise |
| ColorLaws.QuotedLevelNotNumber | color/command.c:378-382 | A suffix that is not a number is refused |
| ColorLaws.QuotedLevelNegative | color/command.c:378-387 | quoted-N is accepted as level -N |
| ColorLaws.ComposeHeaderNamed | color/command.c:390-408 | `compose header` is the compose header and consumes the name |
| ColorLaws.HeaderNamed | color/command.c:411-423 | Plain header is the header object, which differs from the compose header |
| ColorLaws.ComposeNeedsName | color/command.c:392-396 | compose with nothing after it gives "color: too few arguments" |
| ColorLaws.Removals | color/command.c:514 | One removal call per pattern, in order |
| ColorLaws.AnyRemovedExists | color/command.c:514 | changes is set exactly when some pattern's removal reports a change |
| ColorLaws.PatternsStopAtStar | color/command.c:503-512 | Patterns before a "*" are removed one by one, then "*" removes all and decides the result; later tokens are left unread |
| ColorLaws.StarPattern | color/command.c:506-511 | "*" removes every pattern of the object, and its answer is the result |
| ColorLaws.PatternsAllRemoved | color/command.c:503-521 | Patterns with no "*": each is removed in order, the result is success, and the lists are dumped exactly when some removal changed something |
| ColorLaws.PatternStep | color/command.c:503-516 | One pattern is removed and the loop goes on |
| ColorLaws.LastPattern | color/command.c:514-521 | The last pattern is removed and the loop ends with success |
| ColorLaws.UncolorStar | color/command.c:443-447 | `uncolor *` clears every colour, reads nothing more and succeeds |
| ColorLaws.UncolorWithoutCurses | color/command.c:863-866 | With curses off, uncolor changes nothing and consumes the line; unmono always does |
| ColorLaws.UncolorSimpleObject | color/command.c:475-480 | An object without patterns is reset to its default colour |
| ColorLaws.DefaultPattern | color/command.c:756-767 | A pattern object other than status given no pattern continues as if ".*" had been given; unless default colours are refused, the regex list is asked about ".*" |
| ColorLaws.HandlersAskList | color/command.c:793 | The regex list is always asked about a non-status object |
| ColorLaws.TooManyArguments | color/command.c:769-773 | Leftover tokens for a non-status object give "too many arguments" and change nothing |
| ColorLaws.DryRunChangesNothing | color/command.c:775-779 | A dry run calls nothing, and one that succeeds has consumed every argument |
| ColorLaws.MonoChangesNothing | color/command.c:903-907 | mono never changes a colour |
| ColorLaws.SimpleColorSet | color/command.c:785-852 | When neither list takes the object, success exactly when simple_color_set succeeds and default colours are not refused; then the name is printed into buf and the change notified |
| ColorLaws.SimpleStage | color/command.c:837-852 | simple_color_set decides the result; success prints the name and notifies last |
| ColorLaws.StatusSkipsPatternStage | color/command.c:756-773 | The status object reads no pattern at lines 756-767 and is not refused at 769-773 for leftover tokens: those go to the status branch |
| ColorLaws.StatusArguments | color/command.c:805-836 | After `color status fg bg`: a pattern alone asks the status list with submatch 0; pattern and number ask it with that number; a number that is not an unsigned int gives an "invalid number" warning; a third token gives "too many arguments"; the warnings call nothing |
| ColorLaws.TableObjectFirst | color/command.c:411-423 | A plain object name in ColorFields parses to its id at quote level 0 |
| ColorLaws.ParseStages | color/command.c:743-752 | parse_color runs its stages in order: the object, then the callback, then the rest |
| ColorLaws.SimpleApply | color/command.c:785-852 | A simple colour with no pattern gives exactly this call sequence: the default-colours check when asked, the regex list, the quoted colours, simple_color_set, the notification; buf names the object |
| ColorLaws.ApplySimpleSet | color/command.c:785-852 | The same sequence for ColorApply |

## Left out

- `mutt/buffer.c` is not part of this model. The header only declares the operations, so the contracts of `MuttBuffer.Buffer` are modelling choices: each states the new content of one operation, with the choices listed above. The amount a block grows by is not modelled: the model takes the smallest block that fits.
- Embedded NUL characters in buffer content: content is a character sequence, and `mutt_buffer_addstr_n` takes the first `len` characters.
- Allocation failure and format errors. Formats are not modelled: `AddPrintf` and `Printf` take the text the format produces, so they cannot fail.
- Views into a block that a later change invalidates: there are no raw views in the model.
- `memset(cd->match_list, 0, cd->match_list_len)` (complete/helpers.c:61, 119, 186, 244, 305, 381) is left out. It clears a number of bytes rather than entries. On the corrected paths no slot beyond `num_matched` is ever read, so leaving it out changes nothing there. On the as-written tag path (`Completion.CompletionData.CompleteAllNmTagsAsWritten`) the memset at line 119 would clear part of the list, so stale slots below `num_matched` that the cycle later reads would be NULL instead of the old tags that the model keeps.
- `free_match_strings`, the `FREE` calls and memory ownership of the match strings.
- The null guards of `candidate` (complete/helpers.c:80-81) and of `mutt_nm_tag_complete` (complete/helpers.c:496-497). Every argument of the model is a value.
- The data sources are inputs: `commands_array`, the config hash, `MyVars`, `km_get_table`, the label hash and `nm_get_all_tags`. The exec table of the pager menu is required to exist, because the source reads a missing one.
- `mutt_nm_query_complete` (complete/helpers.c:430-479): its `tag:` search (`mutt_strn_rfind`) is not part of this model.
- SortMatches (`Completion.CompletionData.SortMatches`): sorts by the labels, the evidently intended order. The slot-byte order of complete/helpers.c:386 as written is modelled only as `Completion.QsortLabelsAsWritten`.
- FirstTabLabels (`Completion.CompletionData.FirstTabLabels`): uses the corrected sort of SortMatches, not the slot-byte order of line 386.
- LabelComplete (`CompleteCommands.LabelComplete`): promises the corrected label order, not the slot-byte order of line 386.
- NmTab (`Completion.CompletionData.NmTab`): runs the corrected `CompleteAllNmTags`, which resets `num_matched`. The as-written routine, which keeps earlier slots, is `CompleteAllNmTagsAsWritten`, and its effect is shown by `Completion.NmStaleEntryCycled`.
- NmTagComplete (`CompleteCommands.NmTagComplete`): goes through NmTab, so the match list is started afresh, where complete/helpers.c:111-152 keeps the earlier slots.
- WriteVarValue (`CompleteCommands.WriteVarValue`): returns the documented code (1 when a value was written), not the inverted code of lines 607 and 611. It writes with the room from the line's real start, not the size of lines 590 and 604 that is too large by the leading spaces. Both as-written forms are modelled separately (see Findings).
- VarValueComplete (`CompleteCommands.VarValueComplete`): inherits the two corrections of WriteVarValue.
- `CompleteCommands.VarValueComplete` requires `VarLineReadable`. A line of white space alone, with the cursor at its end, makes the walk step past the terminator, and the model does not read past the end.
- `color_dump` (color/command.c:528-706) and the debug-only branch at lines 734-737: temporary files, the pager and debug output.
- `color_debug` and `_()` localisation: messages are the untranslated English text.
- `parse_extract_token` and `MoreArgs`: the arguments are already split into a token sequence.
- The colour registries, curses and notifications: `reg.*` answers and a list of `Call` values.
  - The messages those collaborators write into `err` are not modelled.
  - `curses_colors_dump` is only recorded.
- The `cid == -1` branch of parse_uncolor (color/command.c:456-460) is not modelled. It cannot be taken, because `parse_object` refuses every name it cannot map.
- The number of `MT_COLOR_NONE` is not part of this model: the value is never read.
- `ColorTables.ColorIdName` prints an unknown id's code as a non-negative number. `"%d"` of a code of 2^31 or more would print a negative number, and `UnmappedIdReadsBack` is stated only for codes that fit in int.
- The compose range test of get_colorid_name (color/command.c:340) is modelled as membership in the five compose ids, assuming the enumeration order.
- The sidebar rows of `ColorFields` are taken as compiled in (`USE_SIDEBAR`).
- `ColorTables.MapGetValue`: mutt_map_get_value's case-insensitive comparison is taken as `Lower` equality on ASCII letters.
- `COLORS`, `OptNoCurses`, `COLOR_DEFAULT`, `COLOR_UNSET`, `COLOR_QUOTES_MAX` and the colour-name table are fields of an `Env` parameter.
- `ColorLaws.ForegroundFails`: on a refused colour name the model leaves fg as it was. The C code has already stored the partial `strtoul` value in `*fg`, but every caller returns at once, so the value is never read.
- `ColorLaws.QuotedLevelNegative` states the code as written: `quoted-5` is accepted as quote level -5, because only the upper bound is checked.
- `ColorCommand.ParseColor`: the end-to-end colour command is stated as stage lemmas (`ParseStages`, `ApplySimpleSet` and the rest) rather than one lemma over the whole command line.

## Findings

| source | as written | input that shows it | evidently intended | confidence | as-written member | corrected member |
|---|---|---|---|---|---|---|
| complete/helpers.c:600-611 | A config variable whose value was written returns 0 (line 607), and one whose value could not be read returns 1 (line 611) | `set a=` where `a` is a config variable whose value reads | 1 when a value was written and 0 otherwise, as documented at lines 550-551 and done for user variables at 592-594 | not executed | CompleteCommands.LookupRcAsWrittenInverted | CompleteCommands.LookupRc |
| complete/helpers.c:590 | `snprintf(pt, buflen - (pt - buf), ...)`, with `buf` already advanced past the leading spaces, so the size is too large by `spaces` (also line 604) | the line `  set a=` in a 16-byte buffer, cursor 8, value `0123456789`: the size is 12 at offset 6, so snprintf may write 18 bytes | the room left in the buffer, `buflen` less the offset from the line's real start | not executed | CompleteCommands.VarValueOverrunsAsWritten | CompleteCommands.SnprintfRoom |
| complete/helpers.c:111-152 | `complete_all_nm_tags` never resets `num_matched`, unlike every other first Tab (lines 184, 242, 303, 379). New matches are stored behind those of the previous completion | complete `i` against the tag `inbox`, then `w` against `work` and `inbox`: the second Tab shows slot 0, a stale slot. In the model it still holds `inbox`, since the partial memset of line 119 is left out; either way it does not begin with `w` | `cd->num_matched = 0` first, so that only this completion's matches and the typed text are cycled | not executed | Completion.NmStaleEntryCycled | Completion.NmSlotsExtendTyped |
| complete/helpers.c:386 | `qsort` passes the comparator the addresses of the `char *` slots, but `mutt_istr_cmp` reads them as strings. It compares the bytes of the slots instead of the labels | labels `b` and `a` whose slot bytes compare as b < a stay in the order `b`, `a` | the labels sorted case-insensitively, with a comparator that dereferences its arguments | not executed | Completion.QsortLabelsAsWrittenMisorders | Completion.SortLabels |
