/**
 The `list` subcommand: the store's todos sorted by priority and then by ID,
 rendered as a fixed-width table, followed by the priorities in
 `[1, max - 1]` that no todo uses.
 */
module Listing {
  import opened Text
  import opened Store

  /** A stored todo together with its ID, as one row of the listing. */
  datatype Entry = Entry(id: string, todo: Todo)

  /** Listing order: lower priority first; equal priorities by ascending ID. */
  predicate Precedes(a: Entry, b: Entry) {
    a.todo.priority < b.todo.priority ||
    (a.todo.priority == b.todo.priority && LexLess(a.id, b.id))
  }

  lemma PrecedesIrreflexive(a: Entry)
    ensures !Precedes(a, a)
  {
    LexLessIrreflexive(a.id);
  }

  lemma PrecedesAsymmetric(a: Entry, b: Entry)
    ensures Precedes(a, b) ==> !Precedes(b, a)
  {
    LexLessAsymmetric(a.id, b.id);
  }

  lemma PrecedesTransitive(a: Entry, b: Entry, c: Entry)
    requires Precedes(a, b) && Precedes(b, c)
    ensures Precedes(a, c)
  {
    if a.todo.priority == b.todo.priority == c.todo.priority {
      LexLessTransitive(a.id, b.id, c.id);
    }
  }

  lemma PrecedesTotal(a: Entry, b: Entry)
    requires a.id != b.id
    ensures Precedes(a, b) || Precedes(b, a)
  {
    LexLessTotal(a.id, b.id);
  }

  /** `k` is the key whose entry comes first in listing order. */
  predicate IsFirst(m: Todos, k: string) {
    k in m && forall j :: j in m && j != k ==> Precedes(Entry(k, m[k]), Entry(j, m[j]))
  }

  lemma {:induction false} FirstExists(m: Todos)
    requires m != map[]
    ensures exists k :: IsFirst(m, k)
    decreases m.Keys
  {
    var x :| x in m;
    var rest := m - {x};
    assert forall j :: j in m && j != x ==> j in rest && rest[j] == m[j];
    if rest == map[] {
      assert IsFirst(m, x);
    } else {
      FirstExists(rest);
      var k :| IsFirst(rest, k);
      var ek, ex := Entry(k, m[k]), Entry(x, m[x]);
      PrecedesTotal(ek, ex);
      if Precedes(ek, ex) {
        assert IsFirst(m, k);
      } else {
        forall j | j in m && j != x
          ensures Precedes(ex, Entry(j, m[j]))
        {
          if j != k {
            assert Precedes(Entry(k, rest[k]), Entry(j, rest[j]));
            PrecedesTransitive(ex, ek, Entry(j, m[j]));
          }
        }
        assert IsFirst(m, x);
      }
    }
  }

  lemma FirstUnique(m: Todos)
    ensures forall k, k' :: IsFirst(m, k) && IsFirst(m, k') ==> k == k'
  {
    forall k, k' | IsFirst(m, k) && IsFirst(m, k')
      ensures k == k'
    {
      if k != k' {
        PrecedesAsymmetric(Entry(k, m[k]), Entry(k', m[k']));
      }
    }
  }

  /** Every entry of `es` is an entry of `m`, and every entry of `m` occurs in `es`. */
  predicate ListsExactly(es: seq<Entry>, m: Todos) {
    (forall i :: 0 <= i < |es| ==> es[i].id in m && m[es[i].id] == es[i].todo) &&
    (forall k :: k in m ==> Entry(k, m[k]) in es)
  }

  /** Strictly ascending in listing order (so, in particular, no ID twice). */
  predicate Sorted(es: seq<Entry>) {
    forall i, j :: 0 <= i < j < |es| ==> Precedes(es[i], es[j])
  }

  /** Sortedness follows from each entry preceding the next one. */
  lemma {:induction false} SortedFromAdjacent(es: seq<Entry>)
    requires forall i :: 0 <= i < |es| - 1 ==> Precedes(es[i], es[i + 1])
    ensures Sorted(es)
  {
    if |es| > 1 {
      SortedFromAdjacent(es[1..]);
      forall j | 1 < j < |es|
        ensures Precedes(es[0], es[j])
      {
        assert es[1..][j - 1] == es[j];
        PrecedesTransitive(es[0], es[1], es[j]);
      }
    }
  }

  /** The store's entries in listing order. */
  function SortedEntries(m: Todos): (r: seq<Entry>)
    ensures ListsExactly(r, m)
    ensures Sorted(r)
    decreases m.Keys
  {
    if m == map[] then []
    else
      FirstExists(m);
      FirstUnique(m);
      var k :| IsFirst(m, k);
      var rest := m - {k};
      assert forall j :: j in m && j != k ==> j in rest && rest[j] == m[j];
      [Entry(k, m[k])] + SortedEntries(rest)
  }

  /** The listing has exactly one row per stored todo. */
  lemma {:induction false} SortedEntriesLength(m: Todos)
    ensures |SortedEntries(m)| == |m|
    decreases m.Keys
  {
    if m != map[] {
      var r := SortedEntries(m);
      var k := r[0].id;
      assert r[1..] == SortedEntries(m - {k});
      SortedEntriesLength(m - {k});
      assert (m - {k}).Keys == m.Keys - {k};
    }
  }

  /** The first entry of a sorted enumeration of `m` is the first key of `m`. */
  lemma HeadIsFirst(m: Todos, es: seq<Entry>)
    requires ListsExactly(es, m) && Sorted(es) && es != []
    ensures IsFirst(m, es[0].id)
  {
    var k := es[0].id;
    forall j | j in m && j != k
      ensures Precedes(Entry(k, m[k]), Entry(j, m[j]))
    {
      var i :| 0 <= i < |es| && es[i] == Entry(j, m[j]);
    }
  }

  /** Dropping the first entry of a sorted enumeration of `m` enumerates `m` without its first key. */
  lemma TailListsExactly(m: Todos, es: seq<Entry>)
    requires ListsExactly(es, m) && Sorted(es) && es != []
    ensures ListsExactly(es[1..], m - {es[0].id})
    ensures Sorted(es[1..])
  {
    var k := es[0].id;
    var rest := m - {k};
    forall i | 0 < i < |es|
      ensures es[i].id != k
    {
      if es[i].id == k {
        PrecedesIrreflexive(es[0]);
      }
    }
    forall j | j in rest
      ensures Entry(j, rest[j]) in es[1..]
    {
      var i :| 0 <= i < |es| && es[i] == Entry(j, m[j]);
      assert es[1..][i - 1] == es[i];
    }
  }

  /** Listing order determines the listing: any sorted enumeration of `m` is `SortedEntries(m)`. */
  lemma {:induction false} SortedEntriesUnique(m: Todos, es: seq<Entry>)
    requires ListsExactly(es, m) && Sorted(es)
    ensures es == SortedEntries(m)
    decreases m.Keys
  {
    var r := SortedEntries(m);
    if m != map[] {
      assert es != [] by {
        var k :| k in m;
        assert Entry(k, m[k]) in es;
      }
      HeadIsFirst(m, es);
      HeadIsFirst(m, r);
      FirstUnique(m);
      assert r[0] == es[0];
      TailListsExactly(m, es);
      TailListsExactly(m, r);
      SortedEntriesUnique(m - {es[0].id}, es[1..]);
      SortedEntriesUnique(m - {es[0].id}, r[1..]);
      assert es == [es[0]] + es[1..] && r == [r[0]] + r[1..];
    }
  }

  /** The set of priorities in use. */
  function Priorities(m: Todos): set<int> {
    set k | k in m :: m[k].priority
  }

  /** The highest priority in use: that of the last row of the listing. */
  function MaxPriority(m: Todos): (r: int)
    requires m != map[]
    ensures exists k :: k in m && m[k].priority == r
    ensures forall k :: k in m ==> m[k].priority <= r
  {
    var es := SortedEntries(m);
    var last := es[|es| - 1];
    assert forall k :: k in m ==> m[k].priority <= last.todo.priority by {
      forall k | k in m
        ensures m[k].priority <= last.todo.priority
      {
        var i :| 0 <= i < |es| && es[i] == Entry(k, m[k]);
        if i < |es| - 1 {
          assert Precedes(es[i], last);
        }
      }
    }
    last.todo.priority
  }

  /** The integers of `[lo, hi)` that are not in `ps`, in ascending order. */
  function Gaps(lo: int, hi: int, ps: set<int>): seq<int>
    decreases hi - lo
  {
    if hi <= lo then []
    else if lo in ps then Gaps(lo + 1, hi, ps)
    else [lo] + Gaps(lo + 1, hi, ps)
  }

  lemma {:induction false} GapsMembers(lo: int, hi: int, ps: set<int>)
    ensures forall x :: x in Gaps(lo, hi, ps) <==> lo <= x < hi && x !in ps
    decreases hi - lo
  {
    if lo < hi {
      GapsMembers(lo + 1, hi, ps);
    }
  }

  lemma {:induction false} GapsIncreasing(lo: int, hi: int, ps: set<int>)
    ensures Increasing(Gaps(lo, hi, ps))
    decreases hi - lo
  {
    if lo < hi {
      GapsIncreasing(lo + 1, hi, ps);
      GapsMembers(lo + 1, hi, ps);
      var rest := Gaps(lo + 1, hi, ps);
      assert forall i :: 0 <= i < |rest| ==> rest[i] in rest;
    }
  }

  /**
   The "Missing priorities": positive integers no todo uses that are below some
   todo's priority (the highest priority in use is never missing), ascending.
   */
  function MissingPriorities(m: Todos): (r: seq<int>)
    ensures forall x :: x in r <==>
      1 <= x && x !in Priorities(m) && exists k :: k in m && x < m[k].priority
    ensures Increasing(r)
  {
    if m == map[] then []
    else
      GapsMembers(1, MaxPriority(m), Priorities(m));
      GapsIncreasing(1, MaxPriority(m), Priorities(m));
      Gaps(1, MaxPriority(m), Priorities(m))
  }

  predicate Increasing(ns: seq<int>) {
    forall i, j :: 0 <= i < j < |ns| ==> ns[i] < ns[j]
  }

  /** Two increasing sequences with the same elements start with the same element. */
  lemma HeadsAgree(a: seq<int>, b: seq<int>)
    requires Increasing(a) && Increasing(b)
    requires forall x :: x in a <==> x in b
    requires a != []
    ensures b != [] && a[0] == b[0]
  {
    assert a[0] in a;
    var l :| 0 <= l < |b| && b[l] == a[0];
    assert b[0] in b;
    var k :| 0 <= k < |a| && a[k] == b[0];
  }

  /** Past a shared first element, what one tail holds the other does too. */
  lemma TailMember(a: seq<int>, b: seq<int>, x: int)
    requires Increasing(a) && Increasing(b)
    requires forall y :: y in a <==> y in b
    requires a != [] && b != [] && a[0] == b[0]
    requires x in a[1..]
    ensures x in b[1..]
  {
    var k :| 0 <= k < |a[1..]| && a[1..][k] == x;
    assert a[k + 1] == x && a[0] < x && x in a;
    var l :| 0 <= l < |b| && b[l] == x;
    assert l != 0;
    assert b[1..][l - 1] == x;
  }

  /** A strictly increasing sequence is determined by the set of its elements. */
  lemma {:induction false} IncreasingUnique(a: seq<int>, b: seq<int>)
    requires Increasing(a) && Increasing(b)
    requires forall x :: x in a <==> x in b
    ensures a == b
  {
    if a != [] {
      HeadsAgree(a, b);
      forall x
        ensures x in a[1..] <==> x in b[1..]
      {
        if x in a[1..] {
          TailMember(a, b, x);
        }
        if x in b[1..] {
          TailMember(b, a, x);
        }
      }
      IncreasingUnique(a[1..], b[1..]);
      assert a == [a[0]] + a[1..] && b == [b[0]] + b[1..];
    } else if b != [] {
      HeadsAgree(b, a);
    }
  }

  const NoTodos := "No todos!"
  const Header := "Priority  ID    Todo\n"
  const MissingHeading := "Missing priorities:\n"

  /** One table row: priority right-aligned under "Priority", the ID under "ID", the text under "Todo". */
  function Row(e: Entry): (r: string)
    ensures |r| >= 17 + |e.todo.text| && r[|r| - 1] == '\n'
    ensures r[|r| - 1 - |e.todo.text|..|r| - 1] == e.todo.text
  {
    RightJustify(IntToString(e.todo.priority), 8) + "  " + LeftJustify(e.id, 4) + "  " + e.todo.text + "\n"
  }

  /** Where the pieces of a row land: an 8-wide and a 4-wide field, each followed by two spaces. */
  lemma {:induction false} FieldsAt(a: string, b: string, tail: string)
    requires |a| == 8 && |b| == 4
    ensures var r := a + "  " + b + "  " + tail;
      |r| == 16 + |tail| && r[..8] == a && r[10..14] == b && r[16..] == tail &&
      r[8..10] == "  " && r[14..16] == "  "
  {
    var r := a + "  " + b + "  " + tail;
    assert r == a + ("  " + b + "  " + tail);
    assert r[..8] == a;
    assert r[8..] == "  " + b + "  " + tail;
    assert r[10..] == b + ("  " + tail);
    assert r[10..14] == r[10..][..4];
    assert r[14..] == "  " + tail;
    assert r[8..10] == r[8..][..2];
    assert r[14..16] == r[14..][..2];
  }

  lemma PrefixTail(r: string, n: nat, d: string)
    requires n <= |r| && |d| <= n && r[..n][n - |d|..] == d
    ensures r[n - |d|..n] == d
  {
    assert r[n - |d|..n] == r[..n][n - |d|..];
  }

  lemma PrefixHead(r: string, i: nat, j: nat, d: string)
    requires i <= j <= |r| && |d| <= j - i && r[i..j][..|d|] == d
    ensures r[i..i + |d|] == d
  {
    assert r[i..i + |d|] == r[i..j][..|d|];
  }

  /** Spaces at positions `[lo, hi)` of the slice `r[i..j]` are spaces of `r` itself. */
  lemma SliceSpaces(r: string, i: nat, j: nat, lo: nat, hi: nat)
    requires i <= j <= |r| && lo <= hi <= j - i
    requires forall k :: lo <= k < hi ==> r[i..j][k] == ' '
    ensures forall k :: i + lo <= k < i + hi ==> r[k] == ' '
  {
    forall k | i + lo <= k < i + hi
      ensures r[k] == ' '
    {
      assert r[k] == r[i..j][k - i];
    }
  }

  lemma HeaderColumns()
    ensures Header[..8] == "Priority" && Header[10..12] == "ID" && Header[16..] == "Todo\n"
  {
  }

  /**
   Rows line up under the header: the priority ends in column 8 like "Priority",
   a four-character ID starts in column 10 like "ID", and the text starts in
   column 16 like "Todo".
   */
  lemma RowColumns(e: Entry)
    requires |e.id| <= 4 && |IntToString(e.todo.priority)| <= 8
    ensures |Row(e)| == 17 + |e.todo.text|
    ensures Header[..8] == "Priority" && Row(e)[8 - |IntToString(e.todo.priority)|..8] == IntToString(e.todo.priority)
    ensures Header[10..12] == "ID" && Row(e)[10..10 + |e.id|] == e.id
    ensures Header[16..] == "Todo\n" && Row(e)[16..] == e.todo.text + "\n"
    ensures forall i :: 0 <= i < 8 - |IntToString(e.todo.priority)| ==> Row(e)[i] == ' '
    ensures Row(e)[8..10] == "  " && Row(e)[14..16] == "  "
    ensures forall i :: 10 + |e.id| <= i < 14 ==> Row(e)[i] == ' '
  {
    HeaderColumns();
    var digits := IntToString(e.todo.priority);
    Laid(digits, e.id, e.todo.text + "\n");
  }

  /** The column facts of `RowColumns`, for any priority numeral, ID and trailing text. */
  lemma Laid(digits: string, id: string, tail: string)
    requires |digits| <= 8 && |id| <= 4
    ensures var r := RightJustify(digits, 8) + "  " + LeftJustify(id, 4) + "  " + tail;
      |r| == 16 + |tail| && r[8 - |digits|..8] == digits && r[10..10 + |id|] == id && r[16..] == tail &&
      (forall i :: 0 <= i < 8 - |digits| ==> r[i] == ' ') &&
      r[8..10] == "  " && r[14..16] == "  " &&
      (forall i :: 10 + |id| <= i < 14 ==> r[i] == ' ')
  {
    var a := RightJustify(digits, 8);
    var b := LeftJustify(id, 4);
    FieldsAt(a, b, tail);
    var r := a + "  " + b + "  " + tail;
    PrefixTail(r, 8, digits);
    PrefixHead(r, 10, 14, id);
    RowSpacing(r, digits, id);
  }

  lemma RowSpacing(r: string, digits: string, id: string)
    requires |digits| <= 8 && |id| <= 4 && |r| >= 16
    requires r[..8] == RightJustify(digits, 8) && r[10..14] == LeftJustify(id, 4)
    ensures forall i :: 0 <= i < 8 - |digits| ==> r[i] == ' '
    ensures forall i :: 10 + |id| <= i < 14 ==> r[i] == ' '
  {
    var a, b := RightJustify(digits, 8), LeftJustify(id, 4);
    assert |a| == 8 && |b| == 4;
    assert forall k :: 0 <= k < 8 - |digits| ==> r[0..8][k] == ' ' by {
      assert r[0..8] == a;
    }
    SliceSpaces(r, 0, 8, 0, 8 - |digits|);
    assert forall k :: |id| <= k < 4 ==> r[10..14][k] == ' ';
    SliceSpaces(r, 10, 14, |id|, 4);
  }

  function Rows(es: seq<Entry>): (r: string)
    ensures es != [] ==> |r| > 0 && r[|r| - 1] == '\n'
  {
    if es == [] then "" else Row(es[0]) + Rows(es[1..])
  }

  function Numerals(ns: seq<int>): seq<string>
  {
    if ns == [] then [] else [IntToString(ns[0])] + Numerals(ns[1..])
  }

  /** The decimal form of each missing priority, in the same order. */
  lemma {:induction false} NumeralsSpec(ns: seq<int>)
    ensures |Numerals(ns)| == |ns|
    ensures forall i :: 0 <= i < |ns| ==> Numerals(ns)[i] == IntToString(ns[i])
  {
    if ns != [] {
      NumeralsSpec(ns[1..]);
    }
  }

  /** Rendering the numbers of a concatenation renders each part. */
  lemma {:induction false} NumeralsAppend(a: seq<int>, b: seq<int>)
    ensures Numerals(a + b) == Numerals(a) + Numerals(b)
  {
    if a == [] {
      assert a + b == b;
    } else {
      assert (a + b)[1..] == a[1..] + b;
      NumeralsAppend(a[1..], b);
    }
  }

  /** The section after the table; absent when no priority is missing. */
  function MissingSection(ms: seq<int>): (r: string)
    ensures r == "" <==> ms == []
  {
    if ms == [] then "" else "\n" + MissingHeading + Join(Numerals(ms), ", ") + "\n"
  }

  /** The standard output of `list`. */
  function ListOutput(m: Todos): (out: string)
    ensures out == NoTodos <==> m == map[]
    ensures m != map[] ==> |out| > 0 && out[|out| - 1] == '\n'
  {
    if m == map[] then NoTodos
    else
      var out := Header + Rows(SortedEntries(m)) + MissingSection(MissingPriorities(m));
      assert out[0] == 'P';
      out
  }
}
