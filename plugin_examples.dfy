/** Worked cases of plugin resolution, each fixing one point of the code's behaviour. */
module PluginExamples {
  import opened Wrappers
  import opened Text
  import opened Lists
  import opened PluginOrder
  import opened PluginRegistry

  function AllFilesExist(p: string): bool
  {
    true
  }

  /** The resolved list of enabled plugins when every plugin file exists. */
  function Resolve(enabled: seq<string>, builtin: map<string, int>, configured: map<string, int>): seq<string>
  {
    OrderedPlugins(enabled, builtin, configured, AllFilesExist)
  }

  /** Every name of a list is kept when every plugin file exists. */
  lemma {:induction false} AllAvailable(enabled: seq<string>)
    ensures Filter(enabled, AllFilesExist) == enabled
  {
    if enabled != [] {
      AllAvailable(enabled[1..]);
      assert enabled == [enabled[0]] + enabled[1..];
    }
  }

  /** The resolved order is read off any descending arrangement of the enabled plugins' entries. */
  lemma ResolvesTo(enabled: seq<string>, builtin: map<string, int>, configured: map<string, int>, expected: seq<Entry>)
    requires Descending(expected)
    requires multiset(Entries(enabled, builtin, configured)) == multiset(expected)
    ensures Resolve(enabled, builtin, configured) == Names(expected)
  {
    AllAvailable(enabled);
    DescendingUnique(SortDescending(Entries(enabled, builtin, configured)), expected);
  }

  lemma DescendingThree(x: Entry, y: Entry, z: Entry)
    requires !Less(x, y) && !Less(x, z) && !Less(y, z)
    ensures Descending([x, y, z])
  {
  }

  lemma RotateThree(x: Entry, y: Entry, z: Entry)
    ensures multiset([x, y, z]) == multiset([y, z, x])
  {
  }

  lemma NamesOfTwo(x: Entry, y: Entry)
    ensures Names([x, y]) == [x.name, y.name]
  {
  }

  lemma NamesOfThree(x: Entry, y: Entry, z: Entry)
    ensures Names([x, y, z]) == [x.name, y.name, z.name]
  {
  }

  lemma EntriesOfTwo(x: string, y: string, builtin: map<string, int>, configured: map<string, int>)
    ensures Entries([x, y], builtin, configured)
         == [Entry(Priority(builtin, configured, x), x), Entry(Priority(builtin, configured, y), y)]
  {
  }

  lemma EntriesOfThree(x: string, y: string, z: string, builtin: map<string, int>, configured: map<string, int>)
    ensures Entries([x, y, z], builtin, configured)
         == [Entry(Priority(builtin, configured, x), x), Entry(Priority(builtin, configured, y), y),
             Entry(Priority(builtin, configured, z), z)]
  {
  }

  lemma EntriesOfCAB(builtin: map<string, int>, configured: map<string, int>)
    requires builtin == map["A" := 10, "B" := 5] && configured == map[]
    ensures Entries(["C", "A", "B"], builtin, configured) == [Entry(0, "C"), Entry(10, "A"), Entry(5, "B")]
  {
    EntriesOfThree("C", "A", "B", builtin, configured);
    assert Priority(builtin, configured, "C") == 0;
    assert Priority(builtin, configured, "A") == 10;
    assert Priority(builtin, configured, "B") == 5;
  }

  lemma ResolveCAB(builtin: map<string, int>, configured: map<string, int>)
    requires builtin == map["A" := 10, "B" := 5] && configured == map[]
    ensures Resolve(["C", "A", "B"], builtin, configured) == ["A", "B", "C"]
  {
    EntriesOfCAB(builtin, configured);
    var expected := [Entry(10, "A"), Entry(5, "B"), Entry(0, "C")];
    RotateThree(Entry(0, "C"), Entry(10, "A"), Entry(5, "B"));
    DescendingThree(expected[0], expected[1], expected[2]);
    ResolvesTo(["C", "A", "B"], builtin, configured, expected);
    NamesOfThree(expected[0], expected[1], expected[2]);
  }

  /**
   * Priorities {A: 10, B: 5} with A, B and C enabled in any order give
   * A, B, C: C, which has no priority, gets 0.
   */
  lemma PriorityThenDefaultZero(enabled: seq<string>, builtin: map<string, int>, configured: map<string, int>)
    requires multiset(enabled) == multiset{"C", "A", "B"}
    requires builtin == map["A" := 10, "B" := 5] && configured == map[]
    ensures Resolve(enabled, builtin, configured) == ["A", "B", "C"]
  {
    assert multiset(["C", "A", "B"]) == multiset{"C", "A", "B"};
    OrderedPluginsIgnoreEnabledOrder(enabled, ["C", "A", "B"], builtin, configured, AllFilesExist);
    ResolveCAB(builtin, configured);
  }

  /** Equal priorities are ordered by name, the greater name first. */
  lemma TieGoesToGreaterName()
    ensures Resolve(["alpha", "beta"], map[], map[]) == ["beta", "alpha"]
  {
    var none: map<string, int> := map[];
    EntriesOfTwo("alpha", "beta", none, none);
    var expected := [Entry(0, "beta"), Entry(0, "alpha")];
    assert !Below("beta", "alpha");
    assert Descending(expected);
    ResolvesTo(["alpha", "beta"], none, none, expected);
    NamesOfTwo(expected[0], expected[1]);
  }

  /** A configured priority overrides the built-in one, and the same plugin enabled twice runs twice. */
  lemma ConfiguredWinsAndDuplicatesStay(enabled: seq<string>, builtin: map<string, int>, configured: map<string, int>)
    requires enabled == ["A", "B", "A"]
    requires builtin == map["A" := 10] && configured == map["A" := 1, "B" := 5]
    ensures Resolve(enabled, builtin, configured) == ["B", "A", "A"]
  {
    EntriesOfThree("A", "B", "A", builtin, configured);
    assert Priority(builtin, configured, "A") == 1;
    assert Priority(builtin, configured, "B") == 5;
    var expected := [Entry(5, "B"), Entry(1, "A"), Entry(1, "A")];
    RotateThree(Entry(1, "A"), Entry(5, "B"), Entry(1, "A"));
    BelowIrreflexive("A");
    DescendingThree(expected[0], expected[1], expected[2]);
    ResolvesTo(["A", "B", "A"], builtin, configured, expected);
    NamesOfThree(expected[0], expected[1], expected[2]);
  }

  lemma EntriesOfAC(builtin: map<string, int>, configured: map<string, int>)
    requires builtin == map["A" := 10, "B" := 5, "C" := 1] && configured == map[]
    ensures Entries(["A", "C"], builtin, configured) == [Entry(10, "A"), Entry(1, "C")]
  {
    EntriesOfTwo("A", "C", builtin, configured);
    assert Priority(builtin, configured, "A") == 10;
    assert Priority(builtin, configured, "C") == 1;
  }

  /** A plugin whose file is missing is left out of the order; the others keep theirs. */
  lemma MissingFileIsSkipped(builtin: map<string, int>, configured: map<string, int>)
    requires builtin == map["A" := 10, "B" := 5, "C" := 1] && configured == map[]
    ensures OrderedPlugins(["A", "B", "C"], builtin, configured, p => p != "B") == ["A", "C"]
  {
    var isFile := (p: string) => p != "B";
    var available := Filter(["A", "B", "C"], isFile);
    assert available == ["A", "C"];
    EntriesOfAC(builtin, configured);
    var expected := [Entry(10, "A"), Entry(1, "C")];
    assert Descending(expected);
    DescendingUnique(SortDescending(Entries(available, builtin, configured)), expected);
    NamesOfTwo(expected[0], expected[1]);
  }

  function DeclaresMail(p: string): Option<seq<string>>
  {
    if p == "C" then None else Some(["mail"])
  }

  /** Declared attributes are concatenated, not merged: two plugins asking for `mail` give it twice. */
  lemma AttributesAreConcatenated()
    ensures SearchAttrlist(Ldap, ["A", "C", "B"], DeclaresMail) == ["objectClass", "mail", "mail"]
    ensures SearchAttrlist(Mysql, ["A", "C", "B"], DeclaresMail) == []
  {
    assert Concat(["B"], DeclaresMail) == ["mail"];
    assert Concat(["C", "B"], DeclaresMail) == ["mail"];
    assert Concat(["A", "C", "B"], DeclaresMail) == ["mail", "mail"];
  }
}
