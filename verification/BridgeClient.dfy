/** The bridge client as the driver runs it: one object whose pipe, pending table and counter change in place. */
module BridgeClientModel {
  import opened Wrappers
  import opened BridgeSpec

  class BridgeClient {
    var stdin: Option<nat>
    var pending: set<Id>
    var seqno: nat
    var calls: map<Id, Call>
    ghost var ends: seq<End>

    constructor ()
      ensures View() == START.client
    {
      stdin, pending, seqno, calls, ends := None, {}, 0, map[], [];
    }

    ghost function View(): Client
      reads this
    {
      Client(stdin, pending, seqno, calls, ends)
    }

    method NextId() returns (id: Id)
      modifies this`seqno
      ensures id == seqno == old(seqno) + 1
    {
      seqno := seqno + 1;
      id := seqno;
    }

    /** `send` up to its first await; the command goes into the pipe unless the write raises. */
    method Send(jid: string, text: string) returns (cmd: Option<Cmd>)
      modifies this
      ensures View() == BeginSend(old(View()), jid, text)
      ensures cmd == if old(stdin).None? then None else Some(Cmd(seqno, jid, text))
    {
      if stdin.None? {
        return None;
      }
      var id := NextId();
      calls := calls[id := Call(jid, text, stdin.value, Writing, Unset)];
      pending := pending + {id};
      cmd := Some(Cmd(id, jid, text));
    }

    method EndCall(id: Id, verdict: Verdict)
      requires id in calls
      modifies this`calls, this`ends
      ensures View() == Finish(old(View()), id, verdict)
    {
      calls := calls[id := calls[id].(phase := Ended(verdict))];
      ends := ends + [BridgeSpec.End(id, verdict)];
    }

    /** The pipe took the command, or raised. */
    method AfterWrite(id: Id, raised: bool)
      requires InPhase(View(), id, Writing)
      modifies this
      ensures View() == if raised then FailWrite(old(View()), id)
              else Put(old(View()), id, old(calls)[id].(phase := Waiting))
    {
      if raised {
        pending := pending - {id};
        EndCall(id, WriteFailed);
      } else {
        calls := calls[id := calls[id].(phase := Waiting)];
      }
    }

    /** The wait for the reply is over: the future is settled, or the time is up. */
    method AfterWait(id: Id) returns (verdict: Verdict)
      requires InPhase(View(), id, Waiting)
      modifies this
      ensures View() == if old(calls)[id].future.Unset? then TimeOut(old(View()), id) else Wake(old(View()), id)
      ensures BridgeSpec.End(id, verdict) == ends[|ends| - 1] && |ends| == |old(ends)| + 1
    {
      var f := calls[id].future;
      if f.Unset? {
        calls := calls[id := calls[id].(future := Dropped)];
        pending := pending - {id};
        verdict := TimedOut;
      } else if f.Result? {
        verdict := if f.ok then Success else Refused;
      } else {
        verdict := if f.Failed? then Disconnected else Interrupted;
      }
      EndCall(id, verdict);
    }

    method Resolve(id: Id, ok: bool)
      modifies this`pending, this`calls
      ensures View() == BridgeSpec.Resolve(old(View()), Reply(id, ok))
    {
      if id in pending {
        pending := pending - {id};
        if id in calls && calls[id].future.Unset? {
          calls := calls[id := calls[id].(future := Result(ok))];
        }
      }
    }

    method RejectAll()
      modifies this`pending, this`calls
      ensures View() == BridgeSpec.RejectAll(old(View()))
    {
      var todo := pending;
      while todo != {}
        invariant todo <= pending == old(pending) && calls.Keys == old(calls).Keys
        invariant forall id | id in calls ::
            calls[id] == if id in todo then old(calls)[id] else Rejected(old(View()), id)
        decreases |todo|
      {
        var id :| id in todo;
        if id in calls && calls[id].future.Unset? {
          calls := calls[id := calls[id].(future := Failed)];
        }
        todo := todo - {id};
      }
      pending := {};
    }

    /** The supervisor publishes the pipe of a launch, and takes it back when the bridge is gone. */
    method Connect(launch: nat)
      modifies this`stdin
      ensures View() == old(View()).(stdin := Some(launch))
    {
      stdin := Some(launch);
    }

    method Disconnect()
      modifies this
      ensures View() == BridgeSpec.RejectAll(old(View()).(stdin := None))
    {
      stdin := None;
      RejectAll();
      assert View().calls == BridgeSpec.RejectAll(old(View()).(stdin := None)).calls;
    }
  }
}
