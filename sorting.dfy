/** qsort() over an array of strings with a case-insensitive comparator.
    The C library leaves the order of entries that compare equal unspecified;
    the model fixes it by sorting with insertion (equal entries keep their
    order), and proves the two things qsort promises: the result is ordered
    and it is a permutation of the input.
    The comparator sees each entry through `key`: the label itself when the
    comparator receives the strings, or whatever text it ends up reading. */
module Sorting {
  import opened CString

  /** s is ordered by mutt_istr_cmp applied to the keys of its entries. */
  ghost predicate SortedBy(s: seq<string>, key: string -> string)
  {
    forall i, j :: 0 <= i < j < |s| ==> IstrLe(key(s[i]), key(s[j]))
  }

  function InsertBy(x: string, s: seq<string>, key: string -> string): seq<string>
  {
    if s == [] then [x]
    else if IstrLe(key(x), key(s[0])) then [x] + s
    else [s[0]] + InsertBy(x, s[1..], key)
  }

  function SortBy(s: seq<string>, key: string -> string): seq<string>
  {
    if s == [] then [] else InsertBy(s[0], SortBy(s[1..], key), key)
  }

  /** Inserting x adds exactly x to the entries. */
  lemma {:induction false} InsertByAddsOne(x: string, s: seq<string>, key: string -> string)
    ensures multiset(InsertBy(x, s, key)) == multiset(s) + multiset{x}
  {
    if s != [] && !IstrLe(key(x), key(s[0])) {
      InsertByAddsOne(x, s[1..], key);
      assert s == [s[0]] + s[1..];
    }
  }

  /** Inserting into an ordered sequence keeps it ordered. */
  lemma {:induction false} InsertByKeepsOrder(x: string, s: seq<string>, key: string -> string)
    requires SortedBy(s, key)
    ensures SortedBy(InsertBy(x, s, key), key)
  {
    if s == [] {
    } else if IstrLe(key(x), key(s[0])) {
      forall k | 0 <= k < |s| ensures IstrLe(key(x), key(s[k])) {
        if k > 0 {
          LexLeTransitive(Lower(key(x)), Lower(key(s[0])), Lower(key(s[k])));
        }
      }
      ConsKeepsOrder(x, s, key);
    } else {
      InsertByKeepsOrder(x, s[1..], key);
      LexLeTotal(Lower(key(x)), Lower(key(s[0])));
      InsertByAddsOne(x, s[1..], key);
      HeadBoundsInsert(x, s, key);
      ConsKeepsOrder(s[0], InsertBy(x, s[1..], key), key);
    }
  }

  /** An ordered sequence stays ordered behind a head no greater than any of it. */
  lemma ConsKeepsOrder(h: string, t: seq<string>, key: string -> string)
    requires SortedBy(t, key)
    requires forall k :: 0 <= k < |t| ==> IstrLe(key(h), key(t[k]))
    ensures SortedBy([h] + t, key)
  {
    var r := [h] + t;
    forall i, j | 0 <= i < j < |r| ensures IstrLe(key(r[i]), key(r[j])) {
      assert r[j] == t[j - 1];
      if i > 0 {
        assert r[i] == t[i - 1];
      }
    }
  }

  /** The head of an ordered sequence that x does not precede is no greater
      than anything in the rest with x inserted. */
  lemma HeadBoundsInsert(x: string, s: seq<string>, key: string -> string)
    requires SortedBy(s, key) && s != [] && IstrLe(key(s[0]), key(x))
    requires multiset(InsertBy(x, s[1..], key)) == multiset(s[1..]) + multiset{x}
    ensures var t := InsertBy(x, s[1..], key);
      forall k :: 0 <= k < |t| ==> IstrLe(key(s[0]), key(t[k]))
  {
    var t := InsertBy(x, s[1..], key);
    forall k | 0 <= k < |t| ensures IstrLe(key(s[0]), key(t[k])) {
      assert t[k] in multiset(t);
      if t[k] != x {
        assert t[k] in multiset(s[1..]);
        var m :| 0 <= m < |s[1..]| && s[1..][m] == t[k];
        assert s[m + 1] == t[k];
      }
    }
  }

  /** The model of qsort: ordered by the comparator's view of the entries, and a permutation. */
  lemma {:induction false} SortByIsSortedPermutation(s: seq<string>, key: string -> string)
    ensures SortedBy(SortBy(s, key), key)
    ensures multiset(SortBy(s, key)) == multiset(s)
  {
    if s != [] {
      SortByIsSortedPermutation(s[1..], key);
      InsertByKeepsOrder(s[0], SortBy(s[1..], key), key);
      InsertByAddsOne(s[0], SortBy(s[1..], key), key);
      assert s == [s[0]] + s[1..];
    }
  }
}
