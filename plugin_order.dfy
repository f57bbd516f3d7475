/**
 * The order `sorted(pnl, reverse=True)` gives the list of single-entry
 * dicts `{priority: name}` (iredapd.py:170-185). Python 2 compares two such
 * dicts by their keys first and, on equal keys, by their values: by
 * priority, then by name. With `reverse=True` the result runs from the
 * greatest pair to the least.
 */
module PluginOrder {
  import opened Text
  import opened Lists

  /** The dict `{priority: name}`. */
  datatype Entry = Entry(priority: int, name: string)

  /** Python 2's `x < y` on two single-entry dicts. */
  predicate Less(x: Entry, y: Entry)
  {
    x.priority < y.priority || (x.priority == y.priority && Below(x.name, y.name))
  }

  lemma LessIrreflexive(x: Entry)
    ensures !Less(x, x)
  {
    BelowIrreflexive(x.name);
  }

  lemma LessTransitive(x: Entry, y: Entry, z: Entry)
    requires Less(x, y) && Less(y, z)
    ensures Less(x, z)
  {
    if x.priority == y.priority == z.priority {
      BelowTransitive(x.name, y.name, z.name);
    }
  }

  lemma LessTotal(x: Entry, y: Entry)
    ensures x == y || Less(x, y) || Less(y, x)
  {
    BelowTotal(x.name, y.name);
  }

  /** No entry is less than an entry after it: the order `reverse=True` produces. */
  ghost predicate Descending(s: seq<Entry>)
  {
    forall i, j :: 0 <= i < j < |s| ==> !Less(s[i], s[j])
  }

  /** Puts `e` into a descending list, before the first entry less than it. */
  function Insert(e: Entry, s: seq<Entry>): seq<Entry>
  {
    if s == [] then [e]
    else if Less(s[0], e) then [e] + s
    else [s[0]] + Insert(e, s[1..])
  }

  lemma {:induction false} InsertMultiset(e: Entry, s: seq<Entry>)
    ensures multiset(Insert(e, s)) == multiset(s) + multiset{e}
  {
    if s != [] && !Less(s[0], e) {
      InsertMultiset(e, s[1..]);
      assert s == [s[0]] + s[1..];
    }
  }

  /** An entry not less than anything in a descending list can go in front of it. */
  lemma ConsDescending(x: Entry, s: seq<Entry>)
    requires Descending(s)
    requires forall j :: 0 <= j < |s| ==> !Less(x, s[j])
    ensures Descending([x] + s)
  {
  }

  lemma {:induction false} InsertSorted(e: Entry, s: seq<Entry>)
    requires Descending(s)
    ensures Descending(Insert(e, s))
  {
    if s == [] {
    } else if Less(s[0], e) {
      forall j | 0 <= j < |s|
        ensures !Less(e, s[j])
      {
        if Less(e, s[j]) {
          if j > 0 {
            LessTotal(s[0], s[j]);
            if Less(s[j], s[0]) {
              LessTransitive(e, s[j], s[0]);
            }
          }
          LessTransitive(e, s[0], e);
          LessIrreflexive(e);
        }
      }
      ConsDescending(e, s);
    } else {
      InsertSorted(e, s[1..]);
      InsertMultiset(e, s[1..]);
      var rest := Insert(e, s[1..]);
      forall j | 0 <= j < |rest|
        ensures !Less(s[0], rest[j])
      {
        assert rest[j] in multiset(s[1..]) + multiset{e};
        if rest[j] != e {
          assert rest[j] in s[1..];
          var m :| 0 <= m < |s[1..]| && s[1..][m] == rest[j];
          assert s[m + 1] == rest[j];
        }
      }
      ConsDescending(s[0], rest);
    }
  }

  /** `sorted(s, reverse=True)`: the same entries, greatest first. */
  function SortDescending(s: seq<Entry>): (r: seq<Entry>)
    ensures Descending(r)
    ensures multiset(r) == multiset(s)
  {
    if s == [] then []
    else
      var rest := SortDescending(s[1..]);
      InsertSorted(s[0], rest);
      InsertMultiset(s[0], rest);
      assert s == [s[0]] + s[1..];
      Insert(s[0], rest)
  }

  /** The greatest entry of a descending list is not less than any entry in it. */
  lemma HeadIsGreatest(s: seq<Entry>, x: Entry)
    requires Descending(s) && x in s
    ensures !Less(s[0], x)
  {
    var k :| 0 <= k < |s| && s[k] == x;
    if k == 0 {
      LessIrreflexive(x);
    }
  }

  /**
   * Two descending lists with the same entries are equal: the sorted order
   * depends on the entries only, not on the order they came in.
   */
  lemma {:induction false} DescendingUnique(a: seq<Entry>, b: seq<Entry>)
    requires Descending(a) && Descending(b)
    requires multiset(a) == multiset(b)
    ensures a == b
    decreases |a|
  {
    if a == [] {
      assert |multiset(b)| == 0;
    } else {
      assert a[0] in multiset(b);
      assert b != [];
      assert b[0] in multiset(a);
      HeadIsGreatest(a, b[0]);
      HeadIsGreatest(b, a[0]);
      LessTotal(a[0], b[0]);
      assert a == [a[0]] + a[1..];
      assert b == [b[0]] + b[1..];
      assert multiset(a[1..]) == multiset(a) - multiset{a[0]};
      assert multiset(b[1..]) == multiset(b) - multiset{b[0]};
      DescendingUnique(a[1..], b[1..]);
    }
  }

  function NameOf(e: Entry): string
  {
    e.name
  }

  /** `for item in …: ordered_plugins += item.values()`: the names, in order. */
  function Names(s: seq<Entry>): seq<string>
  {
    Map(s, NameOf)
  }
}
