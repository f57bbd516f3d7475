/**
 * One policy connection (`PolicyChannel`, iredapd.py:41-132): the chunks
 * collected since the last newline, the session record, and what has been
 * pushed back to the MTA. `Terminate` gives the effect of one newline on a
 * snapshot of that state; the class runs the same steps in place.
 */
module Session {
  import opened Wrappers
  import opened Text
  import opened SessionRecord
  import opened Audit

  /** What the evaluator (`Modeler.handle_data`) does with a record. */
  datatype Outcome =
    | Returns(action: string)  // a string; "" is falsy, like None
    | NoOpinion                // None
    | Raises                   // an `Exception` whose message formats, Modeler construction included

  /** The evaluator: record, loaded plugins, sender and recipient search attribute lists. */
  type Evaluator = (Record, seq<string>, seq<string>, seq<string>) -> Outcome

  /**
   * What a channel is given and never changes: the recognised attributes
   * (`SMTP_SESSION_ATTRIBUTES`), the default action (`SMTP_ACTIONS['default']`),
   * the loaded plugins and the two search attribute lists.
   */
  datatype ChannelSetup = ChannelSetup(
    attributes: set<string>,
    defaultAction: string,
    plugins: seq<string>,
    senderSearchAttrlist: seq<string>,
    recipientSearchAttrlist: seq<string>)

  /** The mutable part of a channel. */
  datatype Channel = Channel(buffer: seq<string>, record: Record, pushed: seq<string>)

  /** What one newline did, besides changing the channel. */
  datatype Effect =
    | Parsed(line: string)
      // the last collected chunk was taken as the line; nothing was pushed
    | DefaultReply(action: string)
      // empty line, empty record: the default was pushed without asking the evaluator
    | Decided(evaluated: Record, outcome: Outcome, action: string, audit: Option<string>)
      // empty line, non-empty record: the evaluator saw `evaluated`; `action` was pushed;
      // `audit` is the info line, or None when its lookups raised after the push

  datatype Transition = Transition(channel: Channel, effect: Effect)

  /** The bytes `push('action=' + action + '\n')` hands to asynchat: `push` adds one more newline. */
  function Response(action: string): string
  {
    "action=" + action + "\n" + "\n"
  }

  /** `msg` is the wire form of some action. */
  predicate IsResponse(msg: string)
  {
    |msg| >= 9 && StartsWith(msg, "action=") && EndsWith(msg, "\n\n")
  }

  /** The action taken for an evaluator outcome (iredapd.py:95-100). */
  function ChooseAction(outcome: Outcome, defaultAction: string): string
  {
    if outcome.Returns? && outcome.action != "" then outcome.action else defaultAction
  }

  /** `collect_incoming_data` (iredapd.py:62-63). */
  function Collect(ch: Channel, data: string): Channel
  {
    ch.(buffer := ch.buffer + [data])
  }

  /** `found_terminator` (iredapd.py:65-132) on a snapshot of the channel. */
  function Terminate(setup: ChannelSetup, ch: Channel, eval: Evaluator): Transition
  {
    if ch.buffer != [] then
      var line := ch.buffer[|ch.buffer| - 1];
      Transition(
        ch.(buffer := ch.buffer[..|ch.buffer| - 1], record := ApplyLine(ch.record, line, setup.attributes)),
        Parsed(line))
    else if ch.record != map[] then
      var outcome := eval(ch.record, setup.plugins, setup.senderSearchAttrlist, setup.recipientSearchAttrlist);
      var action := ChooseAction(outcome, setup.defaultAction);
      Transition(ch.(pushed := ch.pushed + [Response(action)]), Decided(ch.record, outcome, action, AuditLine(ch.record, action)))
    else
      Transition(ch.(pushed := ch.pushed + [Response(setup.defaultAction)]), DefaultReply(setup.defaultAction))
  }

  /**
   * A newline after collected data takes only the most recent chunk as the
   * line, leaves every earlier chunk in the buffer, and pushes nothing.
   */
  lemma TerminatorParsesLastChunk(setup: ChannelSetup, ch: Channel, eval: Evaluator)
    requires ch.buffer != []
    ensures var t := Terminate(setup, ch, eval);
      && t.effect == Parsed(ch.buffer[|ch.buffer| - 1])
      && ch.buffer == t.channel.buffer + [t.effect.line]
      && t.channel.record == ApplyLine(ch.record, t.effect.line, setup.attributes)
      && t.channel.pushed == ch.pushed
  {
  }

  /**
   * A newline with nothing collected (an empty line) pushes exactly one
   * response and changes nothing else: the record is kept for the next
   * transaction. The action is the default for an empty record; otherwise
   * the evaluator's answer when it is a non-empty string, and the default
   * when it has no opinion or raises. A decided step carries the audit
   * line built from the record and the action actually pushed.
   */
  lemma EmptyLinePushesOneResponse(setup: ChannelSetup, ch: Channel, eval: Evaluator)
    requires ch.buffer == []
    ensures var t := Terminate(setup, ch, eval);
      && !t.effect.Parsed?
      && t.channel == ch.(pushed := ch.pushed + [Response(t.effect.action)])
      && IsResponse(Response(t.effect.action))
      && (ch.record == map[] ==> t.effect == DefaultReply(setup.defaultAction))
      && (ch.record != map[] ==>
            var outcome := eval(ch.record, setup.plugins, setup.senderSearchAttrlist, setup.recipientSearchAttrlist);
            && t.effect.Decided?
            && t.effect.evaluated == ch.record
            && t.effect.outcome == outcome
            && (outcome.Returns? && outcome.action != "" ==> t.effect.action == outcome.action)
            && (outcome.NoOpinion? || outcome.Raises? || outcome == Returns("") ==> t.effect.action == setup.defaultAction)
            && t.effect.audit == AuditLine(ch.record, t.effect.action))
  {
    var t := Terminate(setup, ch, eval);
    var a := t.effect.action;
    assert Response(a) == "action=" + a + "\n" + "\n";
    assert Response(a)[..7] == "action=";
    assert Response(a)[|Response(a)| - 2..] == "\n\n";
  }

  /** With an empty record the evaluator is never consulted: any two evaluators give the same step. */
  lemma EmptyRecordIgnoresEvaluator(setup: ChannelSetup, ch: Channel, eval1: Evaluator, eval2: Evaluator)
    requires ch.buffer == [] && ch.record == map[]
    ensures Terminate(setup, ch, eval1) == Terminate(setup, ch, eval2)
  {
  }

  /**
   * The audit lookups happen after the push: a record lacking one of the
   * keys the audit line reads still gets its response, and the step then
   * ends in the KeyError (audit None).
   */
  lemma AuditRaisesAfterResponse(setup: ChannelSetup, ch: Channel, eval: Evaluator, key: string)
    requires ch.buffer == [] && ch.record != map[]
    requires key in AuditKeys && key !in ch.record
    ensures var t := Terminate(setup, ch, eval);
      && t.effect.Decided? && t.effect.audit == None
      && |t.channel.pushed| == |ch.pushed| + 1
  {
  }

  /** The channel object. `attributes` and `defaultAction` stand for the `libs` globals it reads. */
  class PolicyChannel {
    var buffer: seq<string>
    var smtpSessionData: Record
    var pushed: seq<string>

    const plugins: seq<string>
    const senderSearchAttrlist: seq<string>
    const recipientSearchAttrlist: seq<string>
    const attributes: set<string>
    const defaultAction: string

    function Setup(): ChannelSetup
    {
      ChannelSetup(attributes, defaultAction, plugins, senderSearchAttrlist, recipientSearchAttrlist)
    }

    function State(): Channel
      reads this
    {
      Channel(buffer, smtpSessionData, pushed)
    }

    /**
     * The record holds only recognised keys and, while the derived names
     * are not recognised attributes themselves, lower-case identities with
     * their domains beside them.
     */
    ghost predicate Valid()
      reads this
    {
      && KeysRecognised(smtpSessionData, attributes)
      && (DomainKeys !! attributes ==> DomainsDerived(smtpSessionData))
    }

    /** iredapd.py:43-57, without the socket and the database handles. */
    constructor (plugins: seq<string>, senderSearchAttrlist: seq<string>, recipientSearchAttrlist: seq<string>,
                 attributes: set<string>, defaultAction: string)
      ensures Valid()
      ensures State() == Channel([], map[], [])
      ensures Setup() == ChannelSetup(attributes, defaultAction, plugins, senderSearchAttrlist, recipientSearchAttrlist)
    {
      this.plugins := plugins;
      this.senderSearchAttrlist := senderSearchAttrlist;
      this.recipientSearchAttrlist := recipientSearchAttrlist;
      this.attributes := attributes;
      this.defaultAction := defaultAction;
      buffer := [];
      smtpSessionData := map[];
      pushed := [];
    }

    /** `push` (iredapd.py:59-60): sends `msg` with one more newline. */
    method Push(msg: string)
      requires Valid()
      modifies this`pushed
      ensures Valid()
      ensures pushed == old(pushed) + [msg + "\n"]
    {
      pushed := pushed + [msg + "\n"];
    }

    /** `collect_incoming_data` (iredapd.py:62-63). */
    method CollectIncomingData(data: string)
      requires Valid()
      modifies this`buffer
      ensures Valid()
      ensures buffer == old(buffer) + [data]
      ensures State() == Collect(old(State()), data)
    {
      buffer := buffer + [data];
    }

    /** `found_terminator` (iredapd.py:65-132). */
    method FoundTerminator(eval: Evaluator) returns (effect: Effect)
      requires Valid()
      modifies this
      ensures Valid()
      ensures Transition(State(), effect) == Terminate(Setup(), old(State()), eval)
    {
      if |buffer| > 0 {
        var line := buffer[|buffer| - 1];
        buffer := buffer[..|buffer| - 1];
        ApplyLineRecognised(smtpSessionData, line, attributes);
        if DomainKeys !! attributes {
          ApplyLineDerivesDomains(smtpSessionData, line, attributes);
        }
        if '=' in line {
          var (key, value) := SplitFirst(line, '=');
          if key in attributes {
            if key in IdentityKeys {
              var v := Lower(value);
              smtpSessionData := smtpSessionData[key := v];
              smtpSessionData := smtpSessionData[key + "_domain" := Domain(v)];
            } else {
              smtpSessionData := smtpSessionData[key := value];
            }
          }
        }
        effect := Parsed(line);
      } else if |smtpSessionData| > 0 {
        var outcome := eval(smtpSessionData, plugins, senderSearchAttrlist, recipientSearchAttrlist);
        var action;
        if outcome.Returns? && outcome.action != "" {
          action := outcome.action;
        } else {
          action := defaultAction;
        }
        Push("action=" + action + "\n");
        effect := Decided(smtpSessionData, outcome, action, AuditLine(smtpSessionData, action));
      } else {
        var action := defaultAction;
        Push("action=" + action + "\n");
        effect := DefaultReply(action);
      }
    }
  }
}
