/** The tables of the durable-probe module as a worker's process sees them, and the delivery effect. */
module DurableProbes {
  import opened Prelude
  import opened JsonText
  import opened OutboxMachine
  import opened OutboxStore
  import opened ReferenceFlow
  import opened FlowRuns

  datatype HandlerError = UnsupportedVersion | ProbeNotFound | CheckFailed | QueryFailed

  class ReferenceDurableProbes {
    var probes: map<Id, Probe>
    const outbox: PostgresOutboxStore
    const render: (Id, string, int) -> Json
    ghost var sent: map<Id, Event>
    ghost var confirmed: set<(Id, Token)>

    constructor (outbox: PostgresOutboxStore, render: (Id, string, int) -> Json)
      requires Initial(outbox.Db())
      ensures this.outbox == outbox && this.render == render && InitialFlow(Current())
    {
      this.outbox, this.render := outbox, render;
      probes, sent, confirmed := map[], map[], {};
    }

    ghost function Current(): Flow
      reads this, outbox
    {
      Flow(outbox.Db(), probes, sent, confirmed, render)
    }

    /** Any number of steps of other sessions, mutations and workers; callers know nothing more than this
        contract. */
    method OtherSessions(ghost quiet: bool)
      requires ReachableFlow(Current())
      modifies this, outbox
      ensures ReachableFlow(Current()) && Leads(old(Current()), Current(), quiet) && FlowLater(old(Current()), Current())
    {
      LeadsNowhere(Current(), quiet);
    }

    /** The outbox handler: the first delivery sets the time, a later one changes nothing. The statement may
        be refused, or take effect without its reply arriving; either way the handler throws. */
    method HandleCreated(message: ClaimedMessage, reply: Reply) returns (error: Option<HandlerError>)
      requires IsCreated(message.event)
      requires message.event.id in sent && message.event == sent[message.event.id]
      modifies this
      ensures Current() == if reply.NeverSent? then old(Current())
                           else HandleOne(old(Current()), message.event.id, message.claimToken, reply.Arrives?)
      ensures error.None? <==> reply.Arrives? && HandlerReturns(old(Current()), message.event)
    {
      if message.event.schemaVersion != 1 {
        return Some(UnsupportedVersion);
      }
      if reply.NeverSent? {
        return Some(QueryFailed);
      }
      var id, rowCount := message.event.aggregateId, 0;
      if id in probes {
        var deliveredAt := Coalesce(probes[id].deliveredAt, outbox.clock);
        if deliveredAt < probes[id].createdAt {
          return Some(CheckFailed);
        }
        probes := probes[id := probes[id].(deliveredAt := Some(deliveredAt))];
        rowCount := 1;
      }
      if reply.Lost? {
        return Some(QueryFailed);
      }
      if rowCount != 1 {
        return Some(ProbeNotFound);
      }
      confirmed := confirmed + {(message.event.id, message.claimToken)};
      return None;
    }
  }
}
