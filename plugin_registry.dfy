/**
 * Plugin resolution at daemon start (`DaemonSocket.__init__`,
 * iredapd.py:156-208) and the backend check (iredapd.py:31-32). The file
 * system and the importer are oracles: `isFile(p)` for
 * `os.path.isfile(<plugin_dir>/p.py)`, `imports(p)` for `__import__(p)`
 * succeeding, and `senderDeclared(p)` / `recipientDeclared(p)` for the
 * plugin module's `SENDER_SEARCH_ATTRLIST` / `RECIPIENT_SEARCH_ATTRLIST`,
 * `None` when it has none.
 */
module PluginRegistry {
  import opened Wrappers
  import opened Text
  import opened Lists
  import opened PluginOrder

  /** The storage backends the daemon accepts. */
  datatype Backend = Ldap | Mysql | Pgsql

  function BackendName(b: Backend): string
  {
    match b
    case Ldap => "ldap"
    case Mysql => "mysql"
    case Pgsql => "pgsql"
  }

  /** `settings.backend` checked against the three names; `None` is the fatal exit. */
  function ParseBackend(s: string): (b: Option<Backend>)
    ensures b.Some? <==> s in {"ldap", "mysql", "pgsql"}
    ensures b.Some? ==> BackendName(b.value) == s
  {
    if s == "ldap" then Some(Ldap)
    else if s == "mysql" then Some(Mysql)
    else if s == "pgsql" then Some(Pgsql)
    else None
  }

  /** Every backend's name is accepted and parsed back to that backend. */
  lemma ParseBackendName(b: Backend)
    ensures ParseBackend(BackendName(b)) == Some(b)
  {
  }

  /**
   * The priority a plugin ends up with: the configured one if any, else the
   * built-in one, else 0 (iredapd.py:159-168).
   */
  function Priority(builtin: map<string, int>, configured: map<string, int>, p: string): int
  {
    if p in configured then configured[p] else if p in builtin then builtin[p] else 0
  }

  /** `{priority: p}` for each name. */
  function Tag(builtin: map<string, int>, configured: map<string, int>): string -> Entry
  {
    p => Entry(Priority(builtin, configured, p), p)
  }

  function Entries(names: seq<string>, builtin: map<string, int>, configured: map<string, int>): seq<Entry>
  {
    Map(names, Tag(builtin, configured))
  }

  /** The plugins whose file exists, ordered as `sorted(pnl, reverse=True)` orders them. */
  function OrderedPlugins(enabled: seq<string>, builtin: map<string, int>, configured: map<string, int>,
                          isFile: string -> bool): seq<string>
  {
    Names(SortDescending(Entries(Filter(enabled, isFile), builtin, configured)))
  }

  /** `x` may run before `y`: higher priority, or equal priority and a name not below `y`'s. */
  predicate Precedes(builtin: map<string, int>, configured: map<string, int>, x: string, y: string)
  {
    || Priority(builtin, configured, x) > Priority(builtin, configured, y)
    || (Priority(builtin, configured, x) == Priority(builtin, configured, y) && !Below(x, y))
  }

  ghost predicate PriorityOrdered(names: seq<string>, builtin: map<string, int>, configured: map<string, int>)
  {
    forall i, j :: 0 <= i < j < |names| ==> Precedes(builtin, configured, names[i], names[j])
  }

  /** The resolved order runs by priority, highest first, and by name, greatest first, among equals. */
  lemma OrderedPluginsSorted(enabled: seq<string>, builtin: map<string, int>, configured: map<string, int>,
                             isFile: string -> bool)
    ensures PriorityOrdered(OrderedPlugins(enabled, builtin, configured, isFile), builtin, configured)
  {
    var entries := Entries(Filter(enabled, isFile), builtin, configured);
    var sorted := SortDescending(entries);
    var ordered := Names(sorted);
    forall i | 0 <= i < |sorted|
      ensures sorted[i] == Entry(Priority(builtin, configured, ordered[i]), ordered[i])
    {
      assert sorted[i] in multiset(entries);
      var k :| 0 <= k < |entries| && entries[k] == sorted[i];
    }
  }

  /** The resolved order holds exactly the enabled plugins whose file exists, each as often as it is enabled. */
  lemma OrderedPluginsPermutation(enabled: seq<string>, builtin: map<string, int>, configured: map<string, int>,
                                  isFile: string -> bool)
    ensures multiset(OrderedPlugins(enabled, builtin, configured, isFile)) == multiset(Filter(enabled, isFile))
  {
    var available := Filter(enabled, isFile);
    var entries := Entries(available, builtin, configured);
    MapPermutation(SortDescending(entries), entries, NameOf);
    assert Map(entries, NameOf) == available;
  }

  /** The resolved order does not depend on the order plugins are enabled in. */
  lemma OrderedPluginsIgnoreEnabledOrder(enabled1: seq<string>, enabled2: seq<string>, builtin: map<string, int>,
                                         configured: map<string, int>, isFile: string -> bool)
    requires multiset(enabled1) == multiset(enabled2)
    ensures OrderedPlugins(enabled1, builtin, configured, isFile) == OrderedPlugins(enabled2, builtin, configured, isFile)
  {
    FilterPermutation(enabled1, enabled2, isFile);
    var e1 := Entries(Filter(enabled1, isFile), builtin, configured);
    var e2 := Entries(Filter(enabled2, isFile), builtin, configured);
    MapPermutation(Filter(enabled1, isFile), Filter(enabled2, isFile), Tag(builtin, configured));
    DescendingUnique(SortDescending(e1), SortDescending(e2));
  }

  /** A subsequence of a priority-ordered list is priority-ordered. */
  lemma {:induction false} FilterKeepsPriorityOrder(names: seq<string>, keep: string -> bool,
                                                    builtin: map<string, int>, configured: map<string, int>)
    requires PriorityOrdered(names, builtin, configured)
    ensures PriorityOrdered(Filter(names, keep), builtin, configured)
  {
    if names != [] {
      var rest := Filter(names[1..], keep);
      FilterKeepsPriorityOrder(names[1..], keep, builtin, configured);
      forall j | 0 <= j < |rest|
        ensures Precedes(builtin, configured, names[0], rest[j])
      {
        assert rest[j] in names[1..];
        var m :| 0 <= m < |names[1..]| && names[1..][m] == rest[j];
        assert names[m + 1] == rest[j];
      }
    }
  }

  /**
   * `_plugin_priorities` after `update` and the loop that gives every
   * enabled plugin without a priority the priority 0 (iredapd.py:160-168).
   */
  method MergePriorities(builtin: map<string, int>, configured: map<string, int>, enabled: seq<string>)
    returns (table: map<string, int>)
    ensures table.Keys == builtin.Keys + configured.Keys + (set p | p in enabled)
    ensures forall p :: p in table ==> table[p] == Priority(builtin, configured, p)
  {
    var merged := builtin + configured;
    var withoutPriority := Filter(enabled, p => p !in merged);
    table := merged;
    for i := 0 to |withoutPriority|
      invariant table.Keys == merged.Keys + (set q | q in withoutPriority[..i])
      invariant forall p :: p in table ==> table[p] == Priority(builtin, configured, p)
    {
      assert withoutPriority[..i + 1] == withoutPriority[..i] + [withoutPriority[i]];
      assert withoutPriority[i] in withoutPriority;
      assert Priority(builtin, configured, withoutPriority[i]) == 0;
      table := table[withoutPriority[i] := 0];
    }
    assert withoutPriority[..|withoutPriority|] == withoutPriority;
  }

  /** One more enabled plugin adds its entry at the end, when its file exists. */
  lemma EntriesStep(enabled: seq<string>, i: nat, isFile: string -> bool,
                    builtin: map<string, int>, configured: map<string, int>)
    requires i < |enabled|
    ensures Entries(Filter(enabled[..i + 1], isFile), builtin, configured)
         == Entries(Filter(enabled[..i], isFile), builtin, configured)
            + (if isFile(enabled[i]) then [Entry(Priority(builtin, configured, enabled[i]), enabled[i])] else [])
  {
    var prefix, p := enabled[..i], enabled[i];
    assert enabled[..i + 1] == prefix + [p];
    FilterAppend(prefix, [p], isFile);
    MapAppend(Filter(prefix, isFile), Filter([p], isFile), Tag(builtin, configured));
    assert Filter([p], isFile) == if isFile(p) then [p] else [];
  }

  /**
   * iredapd.py:170-179: `{priority: name}` for every enabled plugin whose
   * file exists, in the order the plugins are enabled.
   */
  method PriorityNameList(enabled: seq<string>, table: map<string, int>, isFile: string -> bool,
                          builtin: map<string, int>, configured: map<string, int>)
    returns (pnl: seq<Entry>)
    requires forall p :: p in enabled ==> p in table && table[p] == Priority(builtin, configured, p)
    ensures pnl == Entries(Filter(enabled, isFile), builtin, configured)
  {
    pnl := [];
    for i := 0 to |enabled|
      invariant pnl == Entries(Filter(enabled[..i], isFile), builtin, configured)
    {
      var p := enabled[i];
      EntriesStep(enabled, i, isFile, builtin, configured);
      if isFile(p) {
        var priority := table[p];
        pnl := pnl + [Entry(priority, p)];
      }
    }
    assert enabled[..|enabled|] == enabled;
  }

  /** iredapd.py:183-185: the name of each `{priority: name}`, in order. */
  method PluginNames(sorted: seq<Entry>) returns (ordered: seq<string>)
    ensures ordered == Names(sorted)
  {
    ordered := [];
    for j := 0 to |sorted|
      invariant ordered == Names(sorted[..j])
    {
      assert sorted[..j + 1] == sorted[..j] + [sorted[j]];
      MapAppend(sorted[..j], [sorted[j]], NameOf);
      ordered := ordered + [sorted[j].name];
    }
    assert sorted[..|sorted|] == sorted;
  }

  /**
   * iredapd.py:159-185: merge the priority tables, list `{priority: name}`
   * for every enabled plugin whose file exists, sort it with
   * `reverse=True` and take the names.
   */
  method OrderPlugins(enabled: seq<string>, builtin: map<string, int>, configured: map<string, int>,
                      isFile: string -> bool)
    returns (ordered: seq<string>)
    ensures ordered == OrderedPlugins(enabled, builtin, configured, isFile)
    ensures multiset(ordered) == multiset(Filter(enabled, isFile))
    ensures PriorityOrdered(ordered, builtin, configured)
  {
    var table := MergePriorities(builtin, configured, enabled);
    var pnl := PriorityNameList(enabled, table, isFile, builtin, configured);
    ordered := PluginNames(SortDescending(pnl));
    OrderedPluginsSorted(enabled, builtin, configured, isFile);
    OrderedPluginsPermutation(enabled, builtin, configured, isFile);
  }

  /**
   * iredapd.py:187-192: import each plugin in order; a failed import is
   * skipped and the loop goes on.
   */
  method LoadPlugins(ordered: seq<string>, imports: string -> bool) returns (loaded: seq<string>)
    ensures loaded == Filter(ordered, imports)
  {
    loaded := [];
    for i := 0 to |ordered|
      invariant loaded == Filter(ordered[..i], imports)
    {
      assert ordered[..i + 1] == ordered[..i] + [ordered[i]];
      FilterAppend(ordered[..i], [ordered[i]], imports);
      if imports(ordered[i]) {
        loaded := loaded + [ordered[i]];
      }
    }
    assert ordered[..|ordered|] == ordered;
  }

  /** A plugin's declared list, or nothing when the attribute is missing (`except: pass`). */
  function Declared(declared: string -> Option<seq<string>>, p: string): seq<string>
  {
    match declared(p)
    case Some(attrs) => attrs
    case None => []
  }

  /** The declared lists of `plugins`, one after another, duplicates kept. */
  function Concat(plugins: seq<string>, declared: string -> Option<seq<string>>): seq<string>
  {
    if plugins == [] then [] else Declared(declared, plugins[0]) + Concat(plugins[1..], declared)
  }

  lemma {:induction false} ConcatAppend(a: seq<string>, b: seq<string>, declared: string -> Option<seq<string>>)
    ensures Concat(a + b, declared) == Concat(a, declared) + Concat(b, declared)
  {
    if a == [] {
      assert a + b == b;
    } else {
      assert (a + b)[1..] == a[1..] + b;
      ConcatAppend(a[1..], b, declared);
    }
  }

  /** One more plugin adds its own declaration at the end. */
  lemma ConcatStep(plugins: seq<string>, i: nat, declared: string -> Option<seq<string>>)
    requires i < |plugins|
    ensures Concat(plugins[..i + 1], declared) == Concat(plugins[..i], declared) + Declared(declared, plugins[i])
  {
    assert plugins[..i + 1] == plugins[..i] + [plugins[i]];
    ConcatAppend(plugins[..i], [plugins[i]], declared);
    assert Concat([plugins[i]], declared) == Declared(declared, plugins[i]) + Concat([], declared);
  }

  /** An attribute is in the concatenation exactly when some plugin in the list declares it. */
  lemma {:induction false} ConcatMembership(plugins: seq<string>, declared: string -> Option<seq<string>>, x: string)
    ensures x in Concat(plugins, declared) <==> exists p :: p in plugins && x in Declared(declared, p)
  {
    if plugins != [] {
      ConcatMembership(plugins[1..], declared, x);
      assert plugins == [plugins[0]] + plugins[1..];
    }
  }

  /**
   * iredapd.py:199-208: append a plugin's declared list when it has one;
   * a plugin without the attribute leaves the list as it is.
   */
  method ExtendWith(attrs: seq<string>, declared: string -> Option<seq<string>>, plugin: string)
    returns (extended: seq<string>)
    ensures extended == attrs + Declared(declared, plugin)
    ensures declared(plugin).None? ==> extended == attrs
  {
    extended := attrs;
    match declared(plugin) {
      case Some(more) => extended := extended + more;
      case None =>
    }
  }

  /** A search attribute list: `['objectClass']` plus every declaration for LDAP, empty otherwise. */
  function SearchAttrlist(backend: Backend, loaded: seq<string>, declared: string -> Option<seq<string>>): seq<string>
  {
    if backend == Ldap then ["objectClass"] + Concat(loaded, declared) else []
  }

  /** For LDAP, one more loaded plugin appends its declaration to the list. */
  lemma AttrlistStep(loaded: seq<string>, i: nat, declared: string -> Option<seq<string>>)
    requires i < |loaded|
    ensures SearchAttrlist(Ldap, loaded[..i + 1], declared)
         == SearchAttrlist(Ldap, loaded[..i], declared) + Declared(declared, loaded[i])
  {
    ConcatStep(loaded, i, declared);
  }

  /**
   * iredapd.py:194-208: both lists start as `['objectClass']` for LDAP and
   * grow by each loaded plugin's declaration, in load order.
   */
  method SearchAttrlists(backend: Backend, loaded: seq<string>,
                         senderDeclared: string -> Option<seq<string>>, recipientDeclared: string -> Option<seq<string>>)
    returns (senderAttrs: seq<string>, recipientAttrs: seq<string>)
    ensures senderAttrs == SearchAttrlist(backend, loaded, senderDeclared)
    ensures recipientAttrs == SearchAttrlist(backend, loaded, recipientDeclared)
  {
    senderAttrs := [];
    recipientAttrs := [];
    if backend == Ldap {
      senderAttrs := ["objectClass"];
      recipientAttrs := ["objectClass"];
      for i := 0 to |loaded|
        invariant senderAttrs == SearchAttrlist(Ldap, loaded[..i], senderDeclared)
        invariant recipientAttrs == SearchAttrlist(Ldap, loaded[..i], recipientDeclared)
      {
        AttrlistStep(loaded, i, senderDeclared);
        AttrlistStep(loaded, i, recipientDeclared);
        senderAttrs := ExtendWith(senderAttrs, senderDeclared, loaded[i]);
        recipientAttrs := ExtendWith(recipientAttrs, recipientDeclared, loaded[i]);
      }
      assert loaded[..|loaded|] == loaded;
    }
  }

  /** For LDAP an attribute is searched for exactly when it is `objectClass` or a loaded plugin declares it. */
  lemma SearchAttrlistMembership(loaded: seq<string>, declared: string -> Option<seq<string>>, x: string)
    ensures x in SearchAttrlist(Ldap, loaded, declared) <==>
      x == "objectClass" || exists p :: p in loaded && x in Declared(declared, p)
  {
    ConcatMembership(loaded, declared, x);
  }

  /** The daemon's plugin state, without the listening socket and the database handles. */
  class DaemonSocket {
    var loadedPlugins: seq<string>
    var senderSearchAttrlist: seq<string>
    var recipientSearchAttrlist: seq<string>

    /** The plugin part of iredapd.py:137-208. */
    constructor (backend: Backend, enabled: seq<string>, builtin: map<string, int>, configured: map<string, int>,
                 isFile: string -> bool, imports: string -> bool,
                 senderDeclared: string -> Option<seq<string>>, recipientDeclared: string -> Option<seq<string>>)
      ensures loadedPlugins == Filter(OrderedPlugins(enabled, builtin, configured, isFile), imports)
      ensures PriorityOrdered(loadedPlugins, builtin, configured)
      ensures senderSearchAttrlist == SearchAttrlist(backend, loadedPlugins, senderDeclared)
      ensures recipientSearchAttrlist == SearchAttrlist(backend, loadedPlugins, recipientDeclared)
    {
      var ordered := OrderPlugins(enabled, builtin, configured, isFile);
      var loaded := LoadPlugins(ordered, imports);
      FilterKeepsPriorityOrder(ordered, imports, builtin, configured);
      var senderAttrs, recipientAttrs := SearchAttrlists(backend, loaded, senderDeclared, recipientDeclared);
      loadedPlugins := loaded;
      senderSearchAttrlist := senderAttrs;
      recipientSearchAttrlist := recipientAttrs;
    }
  }
}
