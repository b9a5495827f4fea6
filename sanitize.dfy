/**
 * The title sanitiser of the back end (backend/app.py, `safe_title`): every
 * character of a fixed list is deleted from the title, one character of the
 * list at a time, and the result is stripped of leading and trailing white
 * space as Python's `str.strip()` does.
 */
module Sanitize {

  /** The characters `safe_title` deletes, in the order of the raw string literal
      it loops over; the double quote and the backslash occur twice there. */
  const Removed: seq<char> :=
    ['\\', '/', ':', '*', '?', '"', '<', '>', '|', '#', '\U{2019}', '"', '\\', '\'']

  /** The same characters as a set. */
  const RemovedSet: set<char> := CharsOf(Removed)

  /** The characters occurring in cs. */
  function CharsOf(cs: seq<char>): (r: set<char>)
    ensures forall c :: c in r <==> c in cs
  {
    set c | c in cs
  }

  /** Python's `str.isspace()` on one character, which is what `str.strip()` removes,
      written as the ranges of code points it holds. */
  predicate IsSpace(c: char) {
    ('\U{0009}' <= c <= '\U{000D}') || ('\U{001C}' <= c <= '\U{001F}') || c == ' '
    || c == '\U{0085}' || c == '\U{00A0}' || c == '\U{1680}'
    || ('\U{2000}' <= c <= '\U{200A}') || c == '\U{2028}' || c == '\U{2029}'
    || c == '\U{202F}' || c == '\U{205F}' || c == '\U{3000}'
  }

  /** The ranges of `IsSpace` hold exactly the 29 code points of `str.isspace()`,
      listed one by one. */
  lemma IsSpaceListed(c: char)
    ensures IsSpace(c) <==> c in {
      '\U{0009}', '\U{000A}', '\U{000B}', '\U{000C}', '\U{000D}',
      '\U{001C}', '\U{001D}', '\U{001E}', '\U{001F}', ' ',
      '\U{0085}', '\U{00A0}', '\U{1680}',
      '\U{2000}', '\U{2001}', '\U{2002}', '\U{2003}', '\U{2004}', '\U{2005}',
      '\U{2006}', '\U{2007}', '\U{2008}', '\U{2009}', '\U{200A}',
      '\U{2028}', '\U{2029}', '\U{202F}', '\U{205F}', '\U{3000}'}
  {
  }

  /** `s.replace(c, '')`: s with every occurrence of c deleted, the rest kept in order. */
  function Delete(s: string, c: char): (r: string)
    ensures |r| <= |s|
    ensures forall x :: x in r <==> x in s && x != c
  {
    if s == [] then []
    else if s[0] == c then Delete(s[1..], c)
    else [s[0]] + Delete(s[1..], c)
  }

  /** The loop of `safe_title`: `Delete` applied for each character of cs, first to last. */
  function DeleteAll(s: string, cs: seq<char>): (r: string)
    ensures |r| <= |s|
    ensures forall x :: x in r <==> x in s && x !in cs
  {
    if cs == [] then s else Delete(DeleteAll(s, cs[..|cs| - 1]), cs[|cs| - 1])
  }

  /** Reference definition: the subsequence of the characters of s that are not in bad. */
  function Keep(s: string, bad: set<char>): (r: string)
    ensures |r| <= |s|
    ensures forall x :: x in r <==> x in s && x !in bad
  {
    if s == [] then [] else (if s[0] in bad then [] else [s[0]]) + Keep(s[1..], bad)
  }

  /** `str.lstrip()`: s without its longest all-white-space prefix. */
  function TrimStart(s: string): (r: string)
    ensures |r| <= |s| && r == s[|s| - |r|..]
    ensures forall k :: 0 <= k < |s| - |r| ==> IsSpace(s[k])
    ensures r != [] ==> !IsSpace(r[0])
  {
    if s != [] && IsSpace(s[0]) then TrimStart(s[1..]) else s
  }

  /** `str.rstrip()`: s without its longest all-white-space suffix. */
  function TrimEnd(s: string): (r: string)
    ensures |r| <= |s| && r == s[..|r|]
    ensures forall k :: |r| <= k < |s| ==> IsSpace(s[k])
    ensures r != [] ==> !IsSpace(r[|r| - 1])
  {
    if s != [] && IsSpace(s[|s| - 1]) then TrimEnd(s[..|s| - 1]) else s
  }

  /** r is the slice of s starting at a, and everything of s around it is white space. */
  predicate StrippedAt(s: string, a: int, r: string) {
    && 0 <= a <= |s| - |r|
    && r == s[a..a + |r|]
    && (forall k :: 0 <= k < a ==> IsSpace(s[k]))
    && (forall k :: a + |r| <= k < |s| ==> IsSpace(s[k]))
  }

  /** Trimming both ends keeps a slice of s with only white space around it. */
  lemma TrimBothAt(s: string)
    ensures StrippedAt(s, |s| - |TrimStart(s)|, TrimEnd(TrimStart(s)))
  {
    var t := TrimStart(s);
    TrimmedAt(s, t, TrimEnd(t));
  }

  /** A prefix r of a suffix t of s, with white space before t and after r in t,
      is a slice of s with only white space around it. */
  lemma TrimmedAt(s: string, t: string, r: string)
    requires |t| <= |s| && t == s[|s| - |t|..]
    requires forall k :: 0 <= k < |s| - |t| ==> IsSpace(s[k])
    requires |r| <= |t| && r == t[..|r|]
    requires forall k :: |r| <= k < |t| ==> IsSpace(t[k])
    ensures StrippedAt(s, |s| - |t|, r)
  {
    var a := |s| - |t|;
    SliceOfSuffix(s, a, r);
    SpaceAfterSlice(s, a, r);
  }

  lemma SliceOfSuffix(s: string, a: nat, r: string)
    requires a <= |s| && |r| <= |s| - a && r == s[a..][..|r|]
    ensures r == s[a..a + |r|]
  {
  }

  lemma SpaceAfterSlice(s: string, a: nat, r: string)
    requires a <= |s| && |r| <= |s| - a
    requires forall k :: |r| <= k < |s| - a ==> IsSpace(s[a..][k])
    ensures forall k :: a + |r| <= k < |s| ==> IsSpace(s[k])
  {
    forall k | a + |r| <= k < |s| ensures IsSpace(s[k]) {
      assert s[k] == s[a..][k - a];
    }
  }

  /** `str.strip()`. */
  function Strip(s: string): (r: string)
    ensures |r| <= |s|
    ensures exists a :: StrippedAt(s, a, r)
    ensures forall x :: x in r ==> x in s
    ensures r != [] ==> !IsSpace(r[0]) && !IsSpace(r[|r| - 1])
  {
    var t := TrimStart(s);
    assert forall x :: x in t ==> x in s by {
      forall x | x in t ensures x in s {
        var k :| 0 <= k < |t| && t[k] == x;
        assert s[|s| - |t| + k] == x;
      }
    }
    var r := TrimEnd(t);
    assert forall x :: x in r ==> x in t by {
      forall x | x in r ensures x in t {
        var k :| 0 <= k < |r| && r[k] == x;
        assert t[k] == x;
      }
    }
    assert r != [] ==> r[0] == t[0];
    TrimBothAt(s);
    r
  }

  /** What `safe_title(title)` returns: no listed character, no surrounding white space,
      only characters of the title and never longer. */
  function SafeTitleOf(title: string): (r: string)
    ensures forall c :: c in Removed ==> c !in r
    ensures r != [] ==> !IsSpace(r[0]) && !IsSpace(r[|r| - 1])
    ensures forall x :: x in r ==> x in title
    ensures |r| <= |title|
  {
    Strip(DeleteAll(title, Removed))
  }

  /** `safe_title`: deletes each character of the literal in turn, then strips. */
  method SafeTitle(title: string) returns (r: string)
    ensures r == SafeTitleOf(title)
    ensures forall c :: c in Removed ==> c !in r
    ensures r != [] ==> !IsSpace(r[0]) && !IsSpace(r[|r| - 1])
    ensures |r| <= |title|
  {
    var t := title;
    var i := 0;
    while i < |Removed|
      invariant 0 <= i <= |Removed|
      invariant t == DeleteAll(title, Removed[..i])
    {
      assert Removed[..i + 1][..i] == Removed[..i];
      t := Delete(t, Removed[i]);
      i := i + 1;
    }
    assert Removed[..i] == Removed;
    r := Strip(t);
  }

  lemma DeleteCons(x: char, t: string, c: char)
    ensures Delete([x] + t, c) == if x == c then Delete(t, c) else [x] + Delete(t, c)
  {
    assert ([x] + t)[0] == x && ([x] + t)[1..] == t;
  }

  /** Deleting c from what is already free of bad leaves what is free of bad and c. */
  lemma {:induction false} DeleteKeep(s: string, bad: set<char>, c: char)
    ensures Delete(Keep(s, bad), c) == Keep(s, bad + {c})
  {
    if s != [] {
      DeleteKeep(s[1..], bad, c);
      if s[0] in bad {
        assert Keep(s, bad) == Keep(s[1..], bad);
        assert Keep(s, bad + {c}) == Keep(s[1..], bad + {c});
      } else {
        assert Keep(s, bad) == [s[0]] + Keep(s[1..], bad);
        DeleteCons(s[0], Keep(s[1..], bad), c);
        if s[0] == c {
          assert Keep(s, bad + {c}) == Keep(s[1..], bad + {c});
        } else {
          assert Keep(s, bad + {c}) == [s[0]] + Keep(s[1..], bad + {c});
        }
      }
    }
  }

  /** The loop of `safe_title` computes the filter of the reference definition. */
  lemma {:induction false} DeleteAllIsKeep(s: string, cs: seq<char>)
    ensures DeleteAll(s, cs) == Keep(s, CharsOf(cs))
  {
    if cs == [] {
      KeepNothing(s);
      assert CharsOf(cs) == {};
    } else {
      var init := cs[..|cs| - 1];
      DeleteAllIsKeep(s, init);
      DeleteKeep(s, CharsOf(init), cs[|cs| - 1]);
      assert cs == init + [cs[|cs| - 1]];
      assert CharsOf(cs) == CharsOf(init) + {cs[|cs| - 1]};
    }
  }

  /** Filtering by the empty set keeps everything. */
  lemma {:induction false} KeepNothing(s: string)
    ensures Keep(s, {}) == s
  {
    if s != [] {
      KeepNothing(s[1..]);
      assert s == [s[0]] + s[1..];
    }
  }

  /** Deleting characters that do not occur changes nothing. */
  lemma {:induction false} DeleteAbsent(s: string, c: char)
    requires c !in s
    ensures Delete(s, c) == s
  {
    if s != [] {
      assert s[1..] == s[1..] && c !in s[1..] by {
        forall k | 0 <= k < |s[1..]| ensures s[1..][k] != c { assert s[1..][k] == s[k + 1]; }
      }
      DeleteAbsent(s[1..], c);
      assert s == [s[0]] + s[1..];
    }
  }

  lemma {:induction false} DeleteAllAbsent(s: string, cs: seq<char>)
    requires forall c :: c in cs ==> c !in s
    ensures DeleteAll(s, cs) == s
  {
    if cs != [] {
      DeleteAllAbsent(s, cs[..|cs| - 1]);
      DeleteAbsent(s, cs[|cs| - 1]);
    }
  }

  /** Stripping a string without leading or trailing white space changes nothing. */
  lemma StripStripped(s: string)
    requires s != [] ==> !IsSpace(s[0]) && !IsSpace(s[|s| - 1])
    ensures Strip(s) == s
  {
  }

  /** `strip()` is idempotent. */
  lemma StripIdempotent(s: string)
    ensures Strip(Strip(s)) == Strip(s)
  {
    StripStripped(Strip(s));
  }

  /** `safe_title` is idempotent: a sanitised title is left as it is. */
  lemma SafeTitleIdempotent(title: string)
    ensures SafeTitleOf(SafeTitleOf(title)) == SafeTitleOf(title)
  {
    var t := SafeTitleOf(title);
    DeleteAllAbsent(t, Removed);
    StripStripped(t);
  }

  /** No listed character and no leading or trailing white space. */
  predicate Clean(title: string) {
    && (forall c :: c in Removed ==> c !in title)
    && (title != [] ==> !IsSpace(title[0]) && !IsSpace(title[|title| - 1]))
  }

  /** The titles `safe_title` leaves unchanged are exactly those without a listed
      character and without surrounding white space. */
  lemma SafeTitleFixedPoint(title: string)
    ensures SafeTitleOf(title) == title <==>
      (forall c :: c in Removed ==> c !in title)
      && (title != [] ==> !IsSpace(title[0]) && !IsSpace(title[|title| - 1]))
  {
    if (forall c :: c in Removed ==> c !in title)
      && (title != [] ==> !IsSpace(title[0]) && !IsSpace(title[|title| - 1])) {
      DeleteAllAbsent(title, Removed);
      StripStripped(title);
    }
  }

  /** The sanitised title is the title with the twelve distinct characters filtered out, then stripped. */
  lemma SafeTitleFilters(title: string)
    ensures SafeTitleOf(title) == Strip(Keep(title, RemovedSet))
  {
    DeleteAllIsKeep(title, Removed);
  }
}
