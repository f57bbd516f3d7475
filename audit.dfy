/**
 * The audit line logged after a decided transaction (iredapd.py:106-127):
 * who sent to whom, and what was answered. Every lookup here is a plain
 * dictionary index, so a missing key raises instead of producing a line;
 * `None` stands for that raise.
 */
module Audit {
  import opened Wrappers
  import opened SessionRecord

  /**
   * The sender/recipient trace (iredapd.py:110-121):
   * `sasl => rcpt` when the SASL username is the sender,
   * `sasl => sender -> rcpt` when it differs,
   * `sender -> rcpt` when there is no SASL username.
   */
  function AuditTrace(rec: Record): (trace: Option<string>)
    ensures trace.Some? <==> "sasl_username" in rec && "sender" in rec && "recipient" in rec
    ensures trace.Some? && rec["sasl_username"] != "" && rec["sasl_username"] == rec["sender"] ==>
      trace.value == rec["sasl_username"] + " => " + rec["recipient"]
    ensures trace.Some? && rec["sasl_username"] != "" && rec["sasl_username"] != rec["sender"] ==>
      trace.value == rec["sasl_username"] + " => " + rec["sender"] + " -> " + rec["recipient"]
    ensures trace.Some? && rec["sasl_username"] == "" ==>
      trace.value == rec["sender"] + " -> " + rec["recipient"]
  {
    if "sasl_username" !in rec then None
    else if rec["sasl_username"] != "" then
      if "sender" !in rec then None
      else if rec["sasl_username"] == rec["sender"] then
        if "recipient" !in rec then None
        else Some(rec["sasl_username"] + " => " + rec["recipient"])
      else if "recipient" !in rec then None
      else Some(rec["sasl_username"] + " => " + rec["sender"] + " -> " + rec["recipient"])
    else if "sender" !in rec || "recipient" !in rec then None
    else Some(rec["sender"] + " -> " + rec["recipient"])
  }

  /** The keys the audit line reads; lacking any of them, the line raises. */
  const AuditKeys: set<string> := {"sasl_username", "sender", "recipient", "client_address", "protocol_state"}

  /** The info line `[client_address] protocol_state, trace, action` (iredapd.py:124-127). */
  function AuditLine(rec: Record, action: string): (line: Option<string>)
    ensures line.Some? <==> AuditKeys <= rec.Keys
    ensures line.Some? ==> AuditTrace(rec).Some?
    ensures line.Some? ==>
      line.value == "[" + rec["client_address"] + "] " + rec["protocol_state"] + ", " + AuditTrace(rec).value + ", " + action
  {
    match AuditTrace(rec)
    case None => None
    case Some(trace) =>
      if "client_address" !in rec || "protocol_state" !in rec then None
      else Some("[" + rec["client_address"] + "] " + rec["protocol_state"] + ", " + trace + ", " + action)
  }
}
