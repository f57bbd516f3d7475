/**
 * Runs of one connection: the sequence of callbacks asynchat makes
 * (`collect_incoming_data` for each chunk read before a newline,
 * `found_terminator` for each newline) and what they add up to.
 */
module SessionRuns {
  import opened SessionRecord
  import opened Session

  /** One callback. Each newline carries the evaluator as it answers at that moment. */
  datatype Event = Data(chunk: string) | Newline(eval: Evaluator)

  function Next(setup: ChannelSetup, ch: Channel, ev: Event): Channel
  {
    match ev
    case Data(chunk) => Collect(ch, chunk)
    case Newline(eval) => Terminate(setup, ch, eval).channel
  }

  function Run(setup: ChannelSetup, ch: Channel, events: seq<Event>): Channel
    decreases |events|
  {
    if events == [] then ch else Run(setup, Next(setup, ch, events[0]), events[1..])
  }

  /** Every message pushed so far is an `action=…` response. */
  ghost predicate OnlyResponses(pushed: seq<string>)
  {
    forall i :: 0 <= i < |pushed| ==> IsResponse(pushed[i])
  }

  /**
   * The record is never reset: over any run no key is lost, and
   * every key stays a recognised attribute or a derived domain key.
   */
  lemma {:induction false} RunNeverForgets(setup: ChannelSetup, ch: Channel, events: seq<Event>)
    requires KeysRecognised(ch.record, setup.attributes)
    ensures ch.record.Keys <= Run(setup, ch, events).record.Keys
    ensures KeysRecognised(Run(setup, ch, events).record, setup.attributes)
    decreases |events|
  {
    if events != [] {
      var next := Next(setup, ch, events[0]);
      if events[0].Newline? && ch.buffer != [] {
        ApplyLineKeepsKeys(ch.record, ch.buffer[|ch.buffer| - 1], setup.attributes);
        ApplyLineRecognised(ch.record, ch.buffer[|ch.buffer| - 1], setup.attributes);
      }
      assert ch.record.Keys <= next.record.Keys;
      RunNeverForgets(setup, next, events[1..]);
    }
  }

  /** Output is only ever appended to, and only with well-formed responses. */
  lemma {:induction false} RunOnlyAppendsResponses(setup: ChannelSetup, ch: Channel, events: seq<Event>)
    requires OnlyResponses(ch.pushed)
    ensures ch.pushed <= Run(setup, ch, events).pushed
    ensures OnlyResponses(Run(setup, ch, events).pushed)
    decreases |events|
  {
    if events != [] {
      var next := Next(setup, ch, events[0]);
      if events[0].Newline? && ch.buffer == [] {
        EmptyLinePushesOneResponse(setup, ch, events[0].eval);
      }
      assert ch.pushed <= next.pushed;
      RunOnlyAppendsResponses(setup, next, events[1..]);
    }
  }

  /**
   * A line that reaches the daemon in two reads is collected as two chunks.
   * Its newline consumes only the second chunk; the empty line that should
   * end the transaction then consumes the first chunk as a line of its own.
   * Nothing is pushed: the transaction stays unanswered.
   */
  lemma SplitLineLeavesTransactionUnanswered(setup: ChannelSetup, ch: Channel, head: string, tail: string, eval: Evaluator)
    requires ch.buffer == []
    ensures var after := Run(setup, ch, [Data(head), Data(tail), Newline(eval), Newline(eval)]);
      && after.pushed == ch.pushed
      && after.buffer == []
      && after.record == ApplyLine(ApplyLine(ch.record, tail, setup.attributes), head, setup.attributes)
  {
    var events := [Data(head), Data(tail), Newline(eval), Newline(eval)];
    var c1 := Collect(ch, head);
    var c2 := Collect(c1, tail);
    assert c2.buffer == [head, tail];
    var c3 := Terminate(setup, c2, eval).channel;
    assert c3.buffer == [head];
    var c4 := Terminate(setup, c3, eval).channel;
    assert events[1..][1..][1..][1..] == [];
    assert Run(setup, ch, events) == Run(setup, c1, events[1..]);
    assert Run(setup, c1, events[1..]) == Run(setup, c2, events[1..][1..]);
    assert Run(setup, c2, events[1..][1..]) == Run(setup, c3, events[1..][1..][1..]);
    assert Run(setup, c3, events[1..][1..][1..]) == c4;
  }

  /**
   * After a transaction has been answered, the record stays as it was. A
   * second transaction that mentions only some keys is evaluated with the
   * earlier values of every key it did not mention.
   */
  lemma StaleAttributeReachesEvaluator(setup: ChannelSetup, ch: Channel, key: string, value: string, k: string, eval: Evaluator)
    requires ch.buffer == [] && k in ch.record
    requires '=' !in key && k != key && k != key + "_domain"
    ensures var after := Run(setup, ch, [Newline(eval), Data(key + "=" + value), Newline(eval)]);
      && after.buffer == []
      && k in after.record && after.record[k] == ch.record[k]
      && Terminate(setup, after, eval).effect.Decided?
      && Terminate(setup, after, eval).effect.evaluated[k] == ch.record[k]
  {
    var events := [Newline(eval), Data(key + "=" + value), Newline(eval)];
    var line := key + "=" + value;
    var c1 := Terminate(setup, ch, eval).channel;
    assert c1.record == ch.record && c1.buffer == [];
    var c2 := Collect(c1, line);
    var c3 := Terminate(setup, c2, eval).channel;
    assert c3.record == ApplyLine(ch.record, line, setup.attributes);
    if key in setup.attributes {
      ApplyRecognisedLine(ch.record, key, value, setup.attributes);
    } else {
      ApplyUnknownKey(ch.record, key, value, setup.attributes);
    }
    assert events[1..][1..][1..] == [];
    assert Run(setup, ch, events) == Run(setup, c1, events[1..]);
    assert Run(setup, c1, events[1..]) == Run(setup, c2, events[1..][1..]);
    assert Run(setup, c2, events[1..][1..]) == c3;
  }
}
