# iRedAPD policy channel and plugin resolution, in Dafny

iRedAPD is a Postfix policy daemon. Postfix opens a connection, sends one
`key=value` line per attribute of the SMTP transaction, then an empty line.
The daemon answers `action=<action>` followed by an empty line. This project
models the two parts of `iredapd.py` that carry the logic:

- **`PolicyChannel`**, one policy connection. `collect_incoming_data`
  buffers the chunks asynchat reads before a newline. `found_terminator`
  handles each newline:
  - With chunks buffered, it parses the last one into the session record.
    Identity attributes are lower-cased and get a derived `<key>_domain`.
  - With nothing buffered and a non-empty record, it asks the evaluator
    (`Modeler.handle_data`) for an action and pushes the response. It then
    builds the audit line `[client] state, trace, action`.
  - With nothing buffered and an empty record, it pushes the default
    action.

  `Session.Terminate` gives the effect of one newline as a function on a
  snapshot of the channel. `Session.PolicyChannel` is the class, and its
  methods change their fields in place. `FoundTerminator` is proved to
  match `Terminate` and to keep the record invariant. `SessionRuns` folds
  `Terminate` and `Collect` over sequences of callbacks.
- **Plugin resolution in `DaemonSocket.__init__`**:
  1. Merge the built-in and configured priority tables, giving 0 to enabled
     plugins that have no priority.
  2. List `{priority: name}` for every enabled plugin whose file exists.
  3. Sort that list with `reverse=True` and read off the names.
  4. Import the plugins in that order, skipping any that fail.
  5. For LDAP, build the sender and recipient search attribute lists.

  Also modelled: the start-up check that the backend is `ldap`, `mysql` or
  `pgsql`.

Parts the program calls but does not define are parameters:
- the evaluator is a function value `Evaluator`, passed with each newline;
- `os.path.isfile` and `__import__` are predicates `isFile` and `imports`;
- a plugin module's `SENDER_SEARCH_ATTRLIST` and `RECIPIENT_SEARCH_ATTRLIST`
  are functions `senderDeclared` and `recipientDeclared`, returning `None`
  when the module lacks the attribute;
- `SMTP_SESSION_ATTRIBUTES` and `SMTP_ACTIONS['default']` are the channel's
  `attributes` and `defaultAction`;
- `PLUGIN_PRIORITIES` and `settings.PLUGIN_PRIORITIES` are the maps `builtin`
  and `configured`.

Where the code behaves differently from what a policy daemon might be expected to do, the model follows the code:

- **Chunks:** `found_terminator` pops only the last buffered chunk. A line
  that arrives in two reads is parsed as two lines, and the following empty
  line is taken as a line too, so nothing is answered
  (`SessionRuns.SplitLineLeavesTransactionUnanswered`).
- **Record reset:** the session record is never reset between transactions
  on a connection. Attributes from an earlier transaction reach the
  evaluator in the next one (`SessionRuns.StaleAttributeReachesEvaluator`,
  `SessionRuns.RunNeverForgets`).
- **Tie order:** `sorted(pnl, reverse=True)` over single-entry dicts
  compares Python 2 dicts by key, then by value. Equal priorities are
  therefore ordered by name *descending*, not ascending
  (`PluginExamples.TieGoesToGreaterName`).
- **Duplicates:** a plugin enabled twice is listed, loaded and asked for
  attributes twice. The execution list is not deduplicated, and the
  attribute lists are concatenated, not merged
  (`PluginExamples.ConfiguredWinsAndDuplicatesStay`,
  `PluginExamples.AttributesAreConcatenated`).
- **Audit failure:** the audit lookups sit outside the `try`. A decided
  transaction whose record lacks `sasl_username`, `sender`, `recipient`,
  `client_address` or `protocol_state` still gets its response. The step
  then raises a `KeyError` (`Session.AuditRaisesAfterResponse`).

## Model

| member | source | states |
|---|---|---|
| Text.FindFirst | iredapd.py:70-71 | the index is the first occurrence of the character, and equals the length exactly when the character is absent |
| Text.SplitFirst | iredapd.py:71 | `split(c, 1)` on a string holding `c`: the two parts rejoined with `c` give the string back, and the first part holds no `c` |
| Text.SplitFirstOfJoin | iredapd.py:71 | splitting `head + c + tail` at the first `c` returns `head` and `tail` when `head` has no `c`, even if `tail` does |
| Text.Lower | iredapd.py:76 | `lower()` keeps the length and maps every byte through the ASCII lower-case mapping |
| Text.LowerNormalises | iredapd.py:76 | a lower-cased value has no capitals, and lower-casing it again changes nothing |
| Text.Below | iredapd.py:184 | Python 2's `<` on byte strings; `BelowIrreflexive`, `BelowTransitive` and `BelowTotal` make it a strict total order |
| Text.BelowIrreflexive | iredapd.py:184 | Python 2 string `<` is irreflexive |
| Text.BelowTransitive | iredapd.py:184 | Python 2 string `<` is transitive |
| Text.BelowTotal | iredapd.py:184 | any two different strings are ordered one way or the other by `<` |
| SessionRecord.Domain | iredapd.py:80 | `split('@', 1)[-1]` is the whole value when it has no `@`; otherwise it is the suffix that directly follows the first `@` |
| SessionRecord.DomainOfAddress | iredapd.py:80 | the domain of `local@domain` is `domain` when `local` has no `@` |
| SessionRecord.ApplyLine | iredapd.py:70-84 | the change one non-empty line makes to the record; its properties are stated by `ApplyLineWithoutEquals`, `ApplyUnknownKey`, `ApplyRecognisedLine`, `ApplyLineKeepsKeys`, `ApplyLineRecognised` and `ApplyLineDerivesDomains` |
| SessionRecord.ApplyLineWithoutEquals | iredapd.py:70 | a line without `=` leaves the record unchanged |
| SessionRecord.ApplyRecognisedLine | iredapd.py:70-82 | a recognised key is stored. Identity keys are stored lower-cased with `<key>_domain` set to the value's domain; other keys are stored verbatim. No other key changes |
| SessionRecord.ApplyUnknownKey | iredapd.py:73-84 | a line whose key is not a recognised attribute leaves the record unchanged |
| SessionRecord.ApplyLineKeepsKeys | iredapd.py:65-84 | no line removes a key; new keys are recognised attributes or derived domain keys |
| SessionRecord.ApplyLineRecognised | iredapd.py:65-84 | every key stays a recognised attribute or a derived domain key |
| SessionRecord.ApplyLineDerivesDomains | iredapd.py:74-80 | while the derived names are not recognised attributes, each stored identity is lower-case and has its domain stored beside it |
| Audit.AuditTrace | iredapd.py:110-121 | defined exactly when the three identity keys are present. It is `sasl => rcpt` when the SASL username is non-empty and equals the sender, `sasl => sender -> rcpt` when it is non-empty and differs, and `sender -> rcpt` when it is empty |
| Audit.AuditLine | iredapd.py:111-127 | defined exactly when all five keys it reads are present, and then it is `[client] state, <AuditTrace>, action` |
| Session.Collect | iredapd.py:62-63 | a chunk is appended to the buffer; `PolicyChannel.CollectIncomingData` is proved to perform it |
| Session.ChooseAction | iredapd.py:95-100 | the evaluator's answer when it is a non-empty string, else the default; stated by `EmptyLinePushesOneResponse` |
| Session.Terminate | iredapd.py:65-132 | the effect of one newline on a snapshot of the channel; its cases are stated by `TerminatorParsesLastChunk`, `EmptyLinePushesOneResponse`, `EmptyRecordIgnoresEvaluator` and `AuditRaisesAfterResponse` (a decided step carries `AuditLine` of the record and the pushed action, or raises after the push), and `PolicyChannel.FoundTerminator` is proved to perform it |
| Session.TerminatorParsesLastChunk | iredapd.py:65-84 | a newline after buffered data parses only the last chunk, leaves the earlier chunks buffered, applies the line to the record and pushes nothing |
| Session.EmptyLinePushesOneResponse | iredapd.py:86-132 | an empty line pushes exactly one well-formed `action=` response and keeps the record. An empty record gets the default. Otherwise the evaluator sees the record, and its answer is used when it is a non-empty string; no opinion, `""` or a raised `Exception` gives the default. A decided step carries the audit line built from the record and the pushed action |
| Session.EmptyRecordIgnoresEvaluator | iredapd.py:128-132 | with an empty record the step does not depend on the evaluator |
| Session.AuditRaisesAfterResponse | iredapd.py:103-127 | a record lacking an audit key still gets its response pushed before the audit lookups fail |
| Session.PolicyChannel.constructor | iredapd.py:43-57 | the buffer, record and output start empty, the record invariant holds, and the setup is stored as given |
| Session.PolicyChannel.Push | iredapd.py:59-60 | the message is sent with one newline appended |
| Session.PolicyChannel.CollectIncomingData | iredapd.py:62-63 | the chunk is appended to the buffer; nothing else changes |
| Session.PolicyChannel.FoundTerminator | iredapd.py:65-132 | the new channel state and the effect are exactly `Terminate` of the old state; the record invariant is preserved |
| SessionRuns.Run | iredapd.py:62-132 | a connection's sequence of `collect_incoming_data` and `found_terminator` callbacks; stated by `RunNeverForgets`, `RunOnlyAppendsResponses` and the two scenario lemmas below |
| SessionRuns.RunNeverForgets | iredapd.py:65-132 | over any run of callbacks no key leaves the record, and every key stays recognised |
| SessionRuns.RunOnlyAppendsResponses | iredapd.py:59-132 | output only grows, and only with well-formed `action=` responses |
| SessionRuns.SplitLineLeavesTransactionUnanswered | iredapd.py:62-84 | a line in two chunks followed by two newlines pushes nothing and applies the chunks to the record as two separate lines, last chunk first |
| SessionRuns.StaleAttributeReachesEvaluator | iredapd.py:86-94 | after an answered transaction, the evaluator of the next one sees earlier values of keys that were not re-sent |
| SessionExamples.LowerExample | iredapd.py:76 | `Alice@EXAMPLE.com` is stored as `alice@example.com` |
| SessionExamples.DomainOfPlainAddress | iredapd.py:80 | the domain of `alice@example.com` is `example.com` |
| SessionExamples.DomainAfterFirstAt | iredapd.py:80 | the domain of `a@b@c` is `b@c` |
| SessionExamples.DomainWithoutAt | iredapd.py:80 | the domain of `nodomain` is `nodomain` |
| SessionExamples.AuthenticatedAsSender | iredapd.py:111-114 | a SASL username equal to the sender is traced `alice@example.com => bob@example.org` |
| SessionExamples.AuthenticatedAsOther | iredapd.py:115-118 | a SASL username different from the sender is traced `carol@example.com => alice@example.com -> bob@example.org` |
| SessionExamples.AnsweredTransaction | iredapd.py:86-127 | a full record, an evaluator with no opinion and default `DUNNO` give output `action=DUNNO\n\n`, and the audit line shows `alice@example.com -> bob@example.org` |
| PluginRegistry.ParseBackend | iredapd.py:31-32 | a backend is accepted exactly when it is `ldap`, `mysql` or `pgsql`, and its name is read back unchanged |
| PluginRegistry.ParseBackendName | iredapd.py:31-32 | every backend's name parses back to that backend |
| PluginOrder.Less | iredapd.py:184 | Python 2's `<` on single-entry dicts `{priority: name}`: priority first, then name; `LessIrreflexive`, `LessTransitive` and `LessTotal` make it a strict total order |
| PluginOrder.LessIrreflexive | iredapd.py:184 | the dict comparison `sorted` applies is irreflexive |
| PluginOrder.LessTransitive | iredapd.py:184 | the dict comparison is transitive |
| PluginOrder.LessTotal | iredapd.py:184 | the dict comparison orders any two different entries one way or the other |
| PluginOrder.InsertSorted | iredapd.py:184 | inserting an entry into a descending list keeps it descending |
| PluginOrder.SortDescending | iredapd.py:184 | `sorted(…, reverse=True)` returns a permutation of its input in which no entry is less than a later one |
| PluginOrder.DescendingUnique | iredapd.py:184 | two descending lists with the same entries are equal, so the sorted order depends only on the entries |
| Lists.Filter | iredapd.py:166 | a comprehension with a condition keeps exactly the elements that pass, and yields no more elements than its input |
| PluginRegistry.Priority | iredapd.py:159-168 | the configured priority, else the built-in one, else 0; `MergePriorities` is proved to build exactly this table |
| PluginRegistry.OrderedPlugins | iredapd.py:170-185 | the resolved plugin order; stated by `OrderedPluginsSorted`, `OrderedPluginsPermutation` and `OrderedPluginsIgnoreEnabledOrder`, and `OrderPlugins` is proved to compute it |
| PluginRegistry.OrderedPluginsSorted | iredapd.py:170-185 | the resolved order runs from highest priority to lowest, with equal priorities ordered from the greatest name to the least |
| PluginRegistry.OrderedPluginsPermutation | iredapd.py:170-185 | the resolved order holds exactly the enabled plugins whose file exists, each as often as it is enabled |
| PluginRegistry.OrderedPluginsIgnoreEnabledOrder | iredapd.py:170-185 | the resolved order does not depend on the order plugins are enabled in |
| PluginRegistry.FilterKeepsPriorityOrder | iredapd.py:187-192 | dropping plugins that fail to import keeps the rest in priority order |
| PluginRegistry.MergePriorities | iredapd.py:159-168 | the table covers the built-in, configured and enabled plugins. Each entry is the configured priority, else the built-in one, else 0 |
| PluginRegistry.PriorityNameList | iredapd.py:170-179 | one `{priority: name}` per enabled plugin whose file exists, in enabled order, with its merged priority |
| PluginRegistry.PluginNames | iredapd.py:183-185 | the names of the sorted entries, in order |
| PluginRegistry.OrderPlugins | iredapd.py:159-185 | the result is the resolved order, a permutation of the available enabled plugins, and priority-ordered |
| PluginRegistry.LoadPlugins | iredapd.py:187-192 | the plugins whose import succeeds, in order; a failure skips only that plugin |
| PluginRegistry.ExtendWith | iredapd.py:199-208 | a plugin's declared list is appended; a plugin without the attribute leaves the list unchanged |
| PluginRegistry.Concat | iredapd.py:199-208 | the loaded plugins' declared lists one after another, duplicates kept; stated by `ConcatMembership` and `ConcatAppend` |
| PluginRegistry.SearchAttrlist | iredapd.py:194-208 | `['objectClass']` plus `Concat` for LDAP, empty otherwise; stated by `SearchAttrlistMembership`, and `SearchAttrlists` is proved to compute it |
| PluginRegistry.ConcatMembership | iredapd.py:199-208 | an attribute is in the concatenation exactly when some listed plugin declares it |
| PluginRegistry.SearchAttrlists | iredapd.py:194-208 | both lists are `['objectClass']` plus every loaded plugin's declaration in load order for LDAP, and empty for the SQL backends |
| PluginRegistry.SearchAttrlistMembership | iredapd.py:194-208 | for LDAP an attribute is searched exactly when it is `objectClass` or some loaded plugin declares it |
| PluginRegistry.DaemonSocket.constructor | iredapd.py:156-208 | the loaded plugins are the resolved order minus failed imports, still priority-ordered, and both search attribute lists are built from them |
| PluginExamples.PriorityThenDefaultZero | iredapd.py:159-185 | with priorities `{A: 10, B: 5}` and A, B, C enabled in any order, the order is A, B, C |
| PluginExamples.ResolveCAB | iredapd.py:159-185 | with priorities `{A: 10, B: 5}` and enabled list C, A, B, the order is A, B, C |
| PluginExamples.TieGoesToGreaterName | iredapd.py:184 | `alpha` and `beta` with equal priority run `beta` first |
| PluginExamples.ConfiguredWinsAndDuplicatesStay | iredapd.py:163-185 | a configured priority overrides the built-in one, and a plugin enabled twice appears twice |
| PluginExamples.MissingFileIsSkipped | iredapd.py:172-176 | with priorities `{A: 10, B: 5, C: 1}` and B's file missing, A, B, C resolve to A, C: B is left out and A and C keep their priority order |
| PluginExamples.AttributesAreConcatenated | iredapd.py:194-208 | two plugins declaring `mail` give `['objectClass', 'mail', 'mail']` for LDAP, and an empty list for MySQL |

## Left out

- Sockets, asyncore and asynchat internals are not modelled. This covers `handle_accept`, the listener set-up, `main` and daemonisation. The model starts at the callbacks asynchat makes.
- Writes to the socket are not modelled: `pushed` is the sequence of messages handed to `push`.
- Logging calls and log rotation are not modelled. The audit line is modelled as a value. The logger calls themselves leave the state alone, but the two error handlers format their message with `str(e)` before logging (iredapd.py:101, iredapd.py:192), and that formatting can itself raise (see the line on `str()` below).
- Removing `settings.pyc` at start-up is left out, because it is file-system housekeeping.
- The `Modeler` class chosen at iredapd.py:34-38 and the plugins' own checks are the evaluator parameter.
- The evaluator is assumed not to change the record or the plugin and attribute lists it is handed. `handle_data` receives the live `smtp_session_data` dict and the shared lists (iredapd.py:89-93), so the real foreign call could change them in place. `SessionRuns.RunNeverForgets` and `SessionRuns.StaleAttributeReachesEvaluator` hold under this assumption.
- Exceptions that are not `Exception` subclasses (`SystemExit`, `KeyboardInterrupt`, old-style class instances) are not modelled. The handlers at iredapd.py:99 and iredapd.py:191 are `except Exception`, so such a raise in `handle_data` leaves `found_terminator` before any response is pushed, and one raised by an import aborts start-up. The bare `except` around the attribute lists (iredapd.py:200-208) catches everything and is modelled as written.
- An `Exception` whose `str()` raises is not modelled. A unicode message with non-ASCII characters or a custom `__str__` that raises makes the formatting at iredapd.py:101 or iredapd.py:192 raise inside the `except` block, where nothing catches it: `found_terminator` then pushes no response, or start-up aborts. `Raises` stands for an `Exception` whose message can be formatted, and `LoadPlugins` treats a failed import the same way.
- The database handles (`db_conns`) are not passed to the evaluator, because the model has no database.
- `os.path.isfile` and `__import__` are oracles. A failed import is any `Exception`, and the module object is represented by the plugin's name.
- What asyncore does after the audit `KeyError` (`handle_error` closes the connection) is not modelled. `Effect.Decided` records the raise as an absent audit line.
- Concurrency across connections is not modelled. Each channel is modelled alone; the daemon's single event loop serialises them.
- Aliasing of `libs.PLUGIN_PRIORITIES` is not modelled. `_plugin_priorities` is that same dict, so `update` mutates it; the model builds a fresh map.
- A plugin's declaration is modelled as a sequence of strings. `list += x` is `extend`, so a string or other non-list iterable would be spliced in element by element; that case is not modelled. Only a non-iterable value raises into the bare `except` and is skipped, which the model's `None` covers.
- Text.Lower: lower-cases ASCII capitals only, as Python 2 `str.lower()` does on byte strings in the C locale; other locales are not modelled.
