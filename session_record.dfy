/**
 * The session record of one policy connection (`smtp_session_data` in
 * iredapd.py) and the update one received `key=value` line makes to it.
 */
module SessionRecord {
  import opened Text

  /** Attribute name to value, as received from the MTA. */
  type Record = map<string, string>

  /** The attributes whose values are lower-cased and get a derived `<key>_domain`. */
  const IdentityKeys: set<string> := {"sender", "recipient", "sasl_username"}

  /** The derived keys: the only keys a record may hold besides recognised attributes. */
  const DomainKeys: set<string> := {"sender_domain", "recipient_domain", "sasl_username_domain"}

  /**
   * `v.split('@', 1)[-1]`: the text after the first `@`, or the whole value
   * when it has no `@`.
   */
  function Domain(v: string): (d: string)
    ensures '@' !in v ==> d == v
    ensures '@' in v ==> |d| < |v| && EndsWith(v, d) && v[|v| - |d| - 1] == '@' && '@' !in v[..|v| - |d| - 1]
  {
    if '@' in v then SplitFirst(v, '@').1 else v
  }

  /** The domain of `local@domain` is `domain` whenever the local part has no `@`. */
  lemma DomainOfAddress(local: string, domain: string)
    requires '@' !in local
    ensures Domain(local + "@" + domain) == domain
  {
    SplitFirstOfJoin(local, '@', domain);
  }

  /**
   * The change one non-empty line makes to the record (iredapd.py:70-84):
   * split at the first `=`; drop lines without `=` and lines whose key is
   * not a recognised attribute; lower-case the three identity attributes and
   * store their domain beside them; store any other value verbatim.
   */
  function ApplyLine(rec: Record, line: string, attributes: set<string>): Record
  {
    if '=' !in line then rec
    else
      var (key, value) := SplitFirst(line, '=');
      if key !in attributes then rec
      else if key in IdentityKeys then
        var v := Lower(value);
        rec[key := v][key + "_domain" := Domain(v)]
      else rec[key := value]
  }

  /** Every key is a recognised attribute or one of the derived domain keys. */
  ghost predicate KeysRecognised(rec: Record, attributes: set<string>)
  {
    forall k :: k in rec ==> k in attributes || k in DomainKeys
  }

  /** The identity attribute `key` is lower-case and its derived domain sits beside it. */
  ghost predicate DomainDerived(rec: Record, key: string)
  {
    && (key in rec <==> key + "_domain" in rec)
    && (key in rec ==> Lower(rec[key]) == rec[key] && rec[key + "_domain"] == Domain(rec[key]))
  }

  ghost predicate DomainsDerived(rec: Record)
  {
    DomainDerived(rec, "sender") && DomainDerived(rec, "recipient") && DomainDerived(rec, "sasl_username")
  }

  /** The derived key of each identity attribute, spelled out. */
  lemma DomainKeyNames()
    ensures "sender" + "_domain" == "sender_domain"
    ensures "recipient" + "_domain" == "recipient_domain"
    ensures "sasl_username" + "_domain" == "sasl_username_domain"
    ensures "sasl_username" != "sender_domain"
  {
    assert "sasl_username"[1] != "sender_domain"[1];
  }

  /** A line with a recognised key stores its value and touches no other key than `<key>_domain`. */
  lemma ApplyRecognisedLine(rec: Record, key: string, value: string, attributes: set<string>)
    requires '=' !in key && key in attributes
    ensures var r := ApplyLine(rec, key + "=" + value, attributes);
      && key in r
      && (key in IdentityKeys ==> r[key] == Lower(value) && key + "_domain" in r && r[key + "_domain"] == Domain(Lower(value)))
      && (key !in IdentityKeys ==> r[key] == value)
      && (forall k :: k != key && k != key + "_domain" ==> (k in r <==> k in rec) && (k in rec ==> r[k] == rec[k]))
      && (key !in IdentityKeys ==> forall k :: k != key ==> (k in r <==> k in rec) && (k in rec ==> r[k] == rec[k]))
  {
    SplitFirstOfJoin(key, '=', value);
  }

  /** A line without `=` leaves the record as it was. */
  lemma ApplyLineWithoutEquals(rec: Record, line: string, attributes: set<string>)
    requires '=' !in line
    ensures ApplyLine(rec, line, attributes) == rec
  {
  }

  /** A line whose key is not a recognised attribute leaves the record as it was. */
  lemma ApplyUnknownKey(rec: Record, key: string, value: string, attributes: set<string>)
    requires '=' !in key && key !in attributes
    ensures ApplyLine(rec, key + "=" + value, attributes) == rec
  {
    SplitFirstOfJoin(key, '=', value);
  }

  /** No line removes a key: the record only grows. */
  lemma ApplyLineKeepsKeys(rec: Record, line: string, attributes: set<string>)
    ensures rec.Keys <= ApplyLine(rec, line, attributes).Keys
    ensures ApplyLine(rec, line, attributes).Keys <= rec.Keys + attributes + DomainKeys
  {
    if '=' in line {
      var (key, value) := SplitFirst(line, '=');
      if key in attributes && key in IdentityKeys {
        DomainKeyNames();
      }
    }
  }

  /** Applying a line keeps every key recognised. */
  lemma ApplyLineRecognised(rec: Record, line: string, attributes: set<string>)
    requires KeysRecognised(rec, attributes)
    ensures KeysRecognised(ApplyLine(rec, line, attributes), attributes)
  {
    ApplyLineKeepsKeys(rec, line, attributes);
  }

  /**
   * While the derived names are not themselves recognised attributes,
   * applying a line keeps each identity value lower-case with its domain beside it.
   */
  lemma ApplyLineDerivesDomains(rec: Record, line: string, attributes: set<string>)
    requires DomainKeys !! attributes
    requires DomainsDerived(rec)
    ensures DomainsDerived(ApplyLine(rec, line, attributes))
  {
    if '=' in line {
      var (key, value) := SplitFirst(line, '=');
      if key in attributes {
        DomainKeyNames();
        if key in IdentityKeys {
          LowerNormalises(value);
        }
      }
    }
  }
}
