/** Queue delivery: the inbox record and the financial effect in one commit. */
module Queue {
  import opened Domain
  import opened Commands
  import opened Tables
  import opened Steps
  import opened Decisions
  import opened Serial

  datatype Envelope =
    | Malformed
    | NoProvider
    | Request(messageId: string, command: SubmitCommand)

  /** What happens to the message once its handling is decided. */
  datatype Disposal = Delete | Release

  ghost function Mark(db: Db, key: (string, string), hash: string, now: Instant): Db {
    db.(inbox := db.inbox[key := InboxRow(hash, now, now)])
  }

  /** A domain refusal is swallowed: the message is recorded as handled, and nothing else is. */
  ghost function Handle(policy: Policy, db: Db, key: (string, string), command: SubmitCommand, stamp: Stamp,
                        jitter: nat)
    : (Db, Disposal)
    requires Normalised(policy)
  {
    var a := Submit(policy, db, Parse(command), stamp, jitter);
    if a.Refused? && !a.error.Domain? then (db, Release)
    else (Mark(After(db, a, stamp), key, PayloadHash(command), stamp.now), Delete)
  }

  ghost function Deliver(policy: Policy, db: Db, consumer: string, e: Envelope, stamp: Stamp, jitter: nat)
    : (Db, Disposal)
    requires Normalised(policy)
  {
    if !e.Request? then (db, Delete)
    else
      var key := (consumer, e.messageId);
      if key !in db.inbox then Handle(policy, db, key, e.command, stamp, jitter)
      else if db.inbox[key].payloadHash != PayloadHash(e.command) then (db, Delete)
      else if db.inbox[key].completedAt == 0 then (db, Release)
      else (db, Delete)
  }
}
