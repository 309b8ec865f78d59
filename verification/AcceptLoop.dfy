/** The accept thread of the daemon over the shared stores, one connection at a time. */
module AcceptLoops {
  import opened Prelude
  import opened Messages
  import opened Daemon
  import Ack
  import AckStores
  import Admit
  import LinkTables

  /** The event the accept thread is about to send, if any. */
  function Outgoing(accept: Accept): Option<Event> {
    if accept.Sending? then Some(accept.event) else None
  }

  class AcceptLoop {
    const table: LinkTables.LinkTable
    const acks: AckStores.AckStore

    ghost predicate Matches(s: Sys)
      reads table, acks
    {
      table.State() == s.table && acks.State() == s.tally.store
    }

    constructor (links: LinkTables.LinkTable, store: AckStores.AckStore)
      ensures table == links && acks == store
    {
      table := links;
      acks := store;
    }

    /** A waiter connected: decide, write the reply, commit. */
    method ServeWaiter(request: WaiterLink, now: Time, mint: Id, writeOk: bool, ghost s: Sys)
      returns (event: Option<Event>, ghost t: Sys)
      requires Matches(s) && s.accept.Idle?
      modifies table
      ensures t == DoCommit(DoPrepare(DoAttachArrives(s, request), now, mint), writeOk)
      ensures Matches(t) && event == Outgoing(t.accept) && (event.None? ==> t.accept.Idle?)
    {
      hide Admit.Prepare, Admit.CommitPrepared;
      t := DoCommit(DoPrepare(DoAttachArrives(s, request), now, mint), writeOk);
      var arms := if acks.arm.Some? then [acks.arm.value] else [];
      var prepared := table.Prepare(request, now, arms, mint);
      if prepared.Err? {
        return None, t;
      }
      var served := table.CommitPrepared(prepared.value, writeOk);
      return if served.Some? then Some(Attached(served.value)) else None, t;
    }

    /** A handled cursor arrived: record it, write the reply, hand a rearm on. */
    method ServeHandled(request: HandledCursor, now: Time, ghost s: Sys) returns (event: Option<Event>, ghost t: Sys)
      requires Matches(s) && s.accept.Idle?
      modifies acks
      ensures t == DoAck(s, request, now)
      ensures Matches(t) && event == Outgoing(t.accept) && (event.None? ==> t.accept.Idle?)
    {
      hide Ack.ApplyHandled;
      t := DoAck(s, request, now);
      var served := acks.ApplyHandled(request, now);
      if served.Err? || served.value.rearm.None? {
        return None, t;
      }
      return Some(CoverageRearm(served.value.rearm.value)), t;
    }
  }
}
