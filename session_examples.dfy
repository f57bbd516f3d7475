/** Worked cases of the session machine on concrete input. */
module SessionExamples {
  import opened Wrappers
  import opened Text
  import opened SessionRecord
  import opened Audit
  import opened Session

  /** A mixed-case address is lower-cased whole, local part and domain alike. */
  lemma LowerExample()
    ensures Lower("Alice@EXAMPLE.com") == "alice@example.com"
  {
    var s, r := "Alice@EXAMPLE.com", "alice@example.com";
    assert |Lower(s)| == |r|;
    forall i | 0 <= i < |r|
      ensures Lower(s)[i] == r[i]
    {
    }
  }

  /** The domain of an address is what follows its `@`. */
  lemma DomainOfPlainAddress()
    ensures Domain("alice@example.com") == "example.com"
  {
    assert "alice@example.com" == "alice" + "@" + "example.com";
    DomainOfAddress("alice", "example.com");
  }

  /** Only the first `@` splits: the domain may contain further `@`s. */
  lemma DomainAfterFirstAt()
    ensures Domain("a@b@c") == "b@c"
  {
    assert "a@b@c" == "a" + "@" + "b@c";
    DomainOfAddress("a", "b@c");
  }

  /** A value without `@` is its own domain. */
  lemma DomainWithoutAt()
    ensures Domain("nodomain") == "nodomain"
  {
    assert forall i :: 0 <= i < |"nodomain"| ==> "nodomain"[i] != '@';
  }

  /** A client authenticated as its own sender address is traced `sasl => rcpt`. */
  lemma AuthenticatedAsSender(rec: Record)
    requires rec == map["sasl_username" := "alice@example.com", "sender" := "alice@example.com",
                        "recipient" := "bob@example.org"]
    ensures AuditTrace(rec) == Some("alice@example.com" + " => " + "bob@example.org")
  {
    assert rec["sasl_username"] == rec["sender"] && rec["sasl_username"] != "";
  }

  /** A client authenticated as someone other than its sender is traced `sasl => sender -> rcpt`. */
  lemma AuthenticatedAsOther(rec: Record)
    requires rec == map["sasl_username" := "carol@example.com", "sender" := "alice@example.com",
                        "recipient" := "bob@example.org"]
    ensures AuditTrace(rec) == Some("carol@example.com" + " => " + "alice@example.com" + " -> " + "bob@example.org")
  {
    assert "carol@example.com"[0] != "alice@example.com"[0];
    assert rec["sasl_username"] != rec["sender"] && rec["sasl_username"] != "";
  }

  /** The evaluator that never has an opinion. */
  function Silent(rec: Record, plugins: seq<string>, senderAttrs: seq<string>, recipientAttrs: seq<string>): Outcome
  {
    NoOpinion
  }

  /**
   * A full transaction: a record with an empty SASL username, an evaluator
   * without opinion and the default `DUNNO` give exactly `action=DUNNO`
   * followed by a blank line, and the audit line shows `sender -> recipient`.
   */
  lemma AnsweredTransaction(setup: ChannelSetup, ch: Channel)
    requires setup.defaultAction == "DUNNO"
    requires ch.buffer == [] && ch.pushed == []
    requires ch.record == map[
      "protocol_state" := "RCPT", "sender" := "alice@example.com", "sender_domain" := "example.com",
      "recipient" := "bob@example.org", "recipient_domain" := "example.org",
      "sasl_username" := "", "sasl_username_domain" := "", "client_address" := "192.0.2.5"]
    ensures var t := Terminate(setup, ch, Silent);
      && t.channel.pushed == ["action=DUNNO\n\n"]
      && t.effect.action == "DUNNO"
      && t.effect.Decided?
      && t.effect.audit
         == Some("[" + "192.0.2.5" + "] " + "RCPT" + ", " + ("alice@example.com" + " -> " + "bob@example.org") + ", " + "DUNNO")
  {
    var rec := ch.record;
    assert "sender" in rec && "client_address" in rec && "protocol_state" in rec;
    assert rec["sasl_username"] == "" && rec["sender"] == "alice@example.com" && rec["recipient"] == "bob@example.org";
    assert rec["client_address"] == "192.0.2.5" && rec["protocol_state"] == "RCPT";
    assert Response("DUNNO") == "action=DUNNO\n\n";
  }
}
