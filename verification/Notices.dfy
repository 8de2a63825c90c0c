/** What the database says of a job that something was notified about, as an event for the channels. */
module Notices {
  import opened ChannelRuns

  /** The record is gone, or it is stored so. */
  datatype Notice = Gone | Stored(channel: string, seqno: int, created: int, priority: int, eta: nat,
      state: NotifiedState)

  function EventOf(db: string, uuid: string, n: Notice): Event {
    match n
    case Gone => RemoveJob(uuid)
    case Stored(channel, seqno, created, priority, eta, state) =>
      Notify(channel, db, uuid, seqno, created, priority, eta, state)
  }
}
