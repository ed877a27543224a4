/** struct Buffer (mutt/buffer.h), the general-purpose string object.
    The header declares the operations; their bodies live in a file that is
    not part of this model, so each method here states the effect the header
    groups it under (append, insert, overwrite) and the model picks the
    smallest block that holds the result. */
module MuttBuffer {

  class Buffer {
    /** data != NULL */
    var hasBlock: bool
    /** The characters of the block before its terminating NUL. */
    var data: string
    /** dptr - data: the current read/write position. */
    var dptr: nat
    /** dsize: the size of the block, terminator included. */
    var dsize: nat

    /** An unallocated buffer is all zero; an allocated block holds its
        content and the terminator; the position lies within the content. */
    ghost predicate Valid()
      reads this
    {
      && (!hasBlock ==> data == [] && dptr == 0 && dsize == 0)
      && (hasBlock ==> |data| < dsize)
      && dptr <= |data|
    }

    /** mutt_buffer_init: the zeroed state, nothing allocated. */
    constructor Init()
      ensures Valid() && !hasBlock && data == [] && dptr == 0 && dsize == 0
    {
      hasBlock, data, dptr, dsize := false, [], 0, 0;
    }

    /** mutt_buffer_make: an empty buffer with room for `size` bytes; a size
        of zero allocates nothing. */
    constructor Make(size: nat)
      ensures Valid() && data == [] && dptr == 0
      ensures hasBlock <==> size > 0
      ensures dsize >= size
    {
      hasBlock, data, dptr, dsize := size > 0, [], 0, size;
    }

    /** mutt_buffer_is_empty: no content. */
    predicate IsEmpty()
      reads this
      requires Valid()
      ensures IsEmpty() <==> BufferString(this) == []
    {
      !hasBlock || data == []
    }

    /** mutt_buffer_len: the offset of the read/write position, never more
        than the content that mutt_buffer_string shows. */
    function Len(): (n: nat)
      reads this
      requires Valid()
      ensures n <= |BufferString(this)|
      ensures !hasBlock ==> n == 0
    {
      dptr
    }

    /** The content before the read/write position: what the next append
        keeps, and what a parser has consumed. */
    function Head(): (h: string)
      reads this
      requires Valid()
      ensures h <= BufferString(this) && |h| == Len()
    {
      data[..dptr]
    }

    /** Every growth path: the block becomes (or stays) large enough for
        `text`, which becomes the content, with the position at its end. */
    method Store(text: string)
      requires Valid()
      modifies this
      ensures Valid() && hasBlock
      ensures data == text && dptr == |text|
      ensures dsize >= old(dsize)
      ensures old(hasBlock) && |text| < old(dsize) ==> dsize == old(dsize)
    {
      if !hasBlock || dsize <= |text| {
        dsize := |text| + 1;
      }
      hasBlock, data, dptr := true, text, |text|;
    }

    /** mutt_buffer_alloc: the block holds at least `size` bytes. A buffer
        that is large enough is left alone; an allocation or reallocation
        leaves it empty with the position at the start. */
    method Alloc(size: nat)
      requires Valid()
      modifies this
      ensures Valid() && hasBlock
      ensures dsize >= size && dsize >= old(dsize)
      ensures old(hasBlock) && size <= old(dsize) ==>
                data == old(data) && dptr == old(dptr) && dsize == old(dsize)
      ensures !(old(hasBlock) && size <= old(dsize)) ==> data == [] && dptr == 0
    {
      if hasBlock && size <= dsize {
        return;
      }
      hasBlock, data, dptr := true, [], 0;
      if dsize < size {
        dsize := size;
      }
      if dsize == 0 {
        dsize := 1;
      }
    }

    /** mutt_buffer_dealloc: back to the zeroed state, whatever the state before. */
    method Dealloc()
      requires Valid()
      modifies this
      ensures Valid() && !hasBlock && data == [] && dptr == 0 && dsize == 0
    {
      hasBlock, data, dptr, dsize := false, [], 0, 0;
    }

    /** mutt_buffer_fix_dptr: the position moves to the terminator. */
    method FixDptr()
      requires Valid()
      modifies this
      ensures Valid() && dptr == |data|
      ensures data == old(data) && hasBlock == old(hasBlock) && dsize == old(dsize)
    {
      dptr := |data|;
    }

    /** mutt_buffer_reset: the content is emptied and the block kept. */
    method Reset()
      requires Valid()
      modifies this
      ensures Valid() && data == [] && dptr == 0
      ensures hasBlock == old(hasBlock) && dsize == old(dsize)
    {
      if hasBlock {
        data, dptr := [], 0;
      }
    }

    /** mutt_buffer_seek: the position moves to `offset`, but never past the content. */
    method Seek(offset: nat)
      requires Valid()
      modifies this
      ensures Valid()
      ensures dptr == if offset <= |data| then offset else |data|
      ensures data == old(data) && hasBlock == old(hasBlock) && dsize == old(dsize)
    {
      dptr := if offset <= |data| then offset else |data|;
    }

    /** mutt_buffer_strdup: an independent copy of the content. */
    method Strdup() returns (copy: string)
      requires Valid()
      ensures copy == BufferString(this)
    {
      copy := data;
    }

    // ----- Functions that APPEND to a Buffer -----

    /** mutt_buffer_addch: one character after the position. */
    method Addch(c: char) returns (n: nat)
      requires Valid()
      modifies this
      ensures Valid() && hasBlock && dsize >= old(dsize)
      ensures data == old(Head()) + [c] && dptr == |data|
      ensures n == 1
    {
      Store(data[..dptr] + [c]);
      n := 1;
    }

    /** mutt_buffer_addstr: a whole string after the position. */
    method Addstr(s: string) returns (n: nat)
      requires Valid()
      modifies this
      ensures Valid() && hasBlock && dsize >= old(dsize)
      ensures data == old(Head()) + s && dptr == |data|
      ensures n == |s|
    {
      Store(data[..dptr] + s);
      n := |s|;
    }

    /** mutt_buffer_addstr_n: exactly `len` characters of s after the position. */
    method AddstrN(s: string, len: nat) returns (n: nat)
      requires Valid() && len <= |s|
      modifies this
      ensures Valid() && hasBlock && dsize >= old(dsize)
      ensures data == old(Head()) + s[..len] && dptr == |data|
      ensures n == len
    {
      Store(data[..dptr] + s[..len]);
      n := len;
    }

    /** mutt_buffer_add_printf, given the text the format produces. */
    method AddPrintf(formatted: string) returns (n: int)
      requires Valid()
      modifies this
      ensures Valid() && hasBlock && dsize >= old(dsize)
      ensures data == old(Head()) + formatted && dptr == |data|
      ensures n == |formatted|
    {
      Store(data[..dptr] + formatted);
      n := |formatted|;
    }

    // ----- Functions that INSERT into a Buffer -----

    /** mutt_buffer_insert: s goes in at `offset` of the content before the
        position; an offset past that content is taken as its end. */
    method Insert(offset: nat, s: string) returns (n: nat)
      requires Valid()
      modifies this
      ensures Valid() && hasBlock && dsize >= old(dsize)
      ensures var h := old(Head());
              var at := if offset <= |h| then offset else |h|;
              data == h[..at] + s + h[at..]
      ensures dptr == |data| && n == |s|
    {
      var h := data[..dptr];
      var at := if offset <= |h| then offset else |h|;
      Store(h[..at] + s + h[at..]);
      n := |s|;
    }

    // ----- Functions that OVERWRITE a Buffer -----

    /** mutt_buffer_strcpy: the content becomes s, whatever it was. */
    method Strcpy(s: string) returns (n: nat)
      requires Valid()
      modifies this
      ensures Valid() && hasBlock && dsize >= old(dsize)
      ensures data == s && dptr == |s| && n == |s|
    {
      Store(s);
      n := |s|;
    }

    /** mutt_buffer_strcpy_n: the content becomes the first `len` characters of s. */
    method StrcpyN(s: string, len: nat) returns (n: nat)
      requires Valid() && len <= |s|
      modifies this
      ensures Valid() && hasBlock && dsize >= old(dsize)
      ensures data == s[..len] && dptr == len && n == len
    {
      Store(s[..len]);
      n := len;
    }

    /** mutt_buffer_substrcpy: the content becomes the range [beg, end) of
        text; a range that ends before it begins gives the empty content. */
    method Substrcpy(text: string, beg: nat, end: nat) returns (n: nat)
      requires Valid() && beg <= |text| && end <= |text|
      modifies this
      ensures Valid() && hasBlock && dsize >= old(dsize)
      ensures data == (if beg < end then text[beg..end] else [])
      ensures dptr == |data| && n == |data|
    {
      if beg < end {
        Store(text[beg..end]);
      } else {
        Store([]);
      }
      n := |data|;
    }

    /** mutt_buffer_printf, given the text the format produces. */
    method Printf(formatted: string) returns (n: int)
      requires Valid()
      modifies this
      ensures Valid() && hasBlock && dsize >= old(dsize)
      ensures data == formatted && dptr == |formatted| && n == |formatted|
    {
      Store(formatted);
      n := |formatted|;
    }

    /** mutt_buffer_copy: the content becomes src's; copying a buffer onto
        itself empties it, as the reset comes before the read. */
    method Copy(src: Buffer) returns (n: nat)
      requires Valid() && src.Valid()
      modifies this
      ensures Valid()
      ensures src != this ==> data == BufferString(src)
      ensures src == this ==> data == []
      ensures dptr == |data| && n == |data|
    {
      Reset();
      if src.hasBlock {
        Store(src.data);
      }
      n := |data|;
    }

    /** mutt_buffer_concat_path: the content becomes dir and fname joined by one separator. */
    method ConcatPath(dir: string, fname: string) returns (n: nat)
      requires Valid()
      modifies this
      ensures Valid() && hasBlock && dsize >= old(dsize)
      ensures data == JoinPath(dir, fname) && dptr == |data| && n == |data|
    {
      Store(JoinPath(dir, fname));
      n := |data|;
    }

    /** mutt_buffer_concatn_path: as ConcatPath, on the first dirlen and fnamelen characters. */
    method ConcatnPath(dir: string, dirlen: nat, fname: string, fnamelen: nat) returns (n: nat)
      requires Valid() && dirlen <= |dir| && fnamelen <= |fname|
      modifies this
      ensures Valid() && hasBlock && dsize >= old(dsize)
      ensures data == JoinPath(dir[..dirlen], fname[..fnamelen]) && dptr == |data| && n == |data|
    {
      Store(JoinPath(dir[..dirlen], fname[..fnamelen]));
      n := |data|;
    }
  }

  /** mutt_buffer_string: the content of the buffer, and the empty string for
      a missing buffer or one with no block; never NULL. */
  function BufferString(buf: Buffer?): (s: string)
    reads buf
    ensures buf == null || !buf.hasBlock ==> s == []
    ensures buf != null && buf.hasBlock ==> s == buf.data
  {
    if buf == null || !buf.hasBlock then [] else buf.data
  }

  /** The join of a directory and a file name: no separator is doubled, an
      empty part leaves the other as it is. */
  function JoinPath(dir: string, fname: string): string
  {
    if dir == [] then fname
    else if fname == [] then dir
    else if dir[|dir| - 1] == '/' && fname[0] == '/' then dir + fname[1..]
    else if dir[|dir| - 1] == '/' || fname[0] == '/' then dir + fname
    else dir + "/" + fname
  }

  function WithoutTrailingSlash(dir: string): string
  {
    if dir != [] && dir[|dir| - 1] == '/' then dir[..|dir| - 1] else dir
  }

  function WithoutLeadingSlash(fname: string): string
  {
    if fname != [] && fname[0] == '/' then fname[1..] else fname
  }

  /** Two non-empty parts are joined by exactly one separator: the
      directory's own trailing one and the name's own leading one are
      merged into it. */
  lemma JoinPathOneSeparator(dir: string, fname: string)
    requires dir != [] && fname != []
    ensures JoinPath(dir, fname) == WithoutTrailingSlash(dir) + "/" + WithoutLeadingSlash(fname)
  {
    if dir[|dir| - 1] == '/' {
      assert dir == dir[..|dir| - 1] + "/";
    }
    if fname[0] == '/' {
      assert fname == "/" + fname[1..];
    }
  }

  /** Sample joins: "/a/b" + "c", "/a/b/" + "c", "" + "c", "/a/b" + "". */
  lemma JoinPathExamples()
    ensures JoinPath("/a/b", "c") == "/a/b/c"
    ensures JoinPath("/a/b/", "c") == "/a/b/c"
    ensures JoinPath("", "c") == "c"
    ensures JoinPath("/a/b", "") == "/a/b"
  {
  }

  /** Overwriting and then reading gives back exactly the string copied, and
      Len counts it, as parse_color relies on when it fills in the default
      pattern ".*". */
  method StrcpyThenRead(buf: Buffer, s: string) returns (read: string, len: nat)
    requires buf.Valid()
    modifies buf
    ensures buf.Valid() && read == s && len == |s|
  {
    var _ := buf.Strcpy(s);
    read := BufferString(buf);
    len := buf.Len();
  }
}
