/** The WhatsApp bridge client: sends and their replies, across timeouts, late replies and bridge restarts. */
module BridgeSpec {
  import opened Wrappers
  import opened Seqs

  type Id = nat

  datatype Cmd = Cmd(id: Id, jid: string, text: string)
  datatype Reply = Reply(id: Id, ok: bool)

  datatype Future = Unset | Result(ok: bool) | Failed | Dropped
  datatype Verdict = Success | WriteFailed | TimedOut | Refused | Disconnected | Interrupted
  datatype Phase = Writing | Waiting | Ended(verdict: Verdict)

  /** One call of `send`: where it stands, and the future it awaits. */
  datatype Call = Call(jid: string, text: string, launch: nat, phase: Phase, future: Future)

  datatype End = End(id: Id, verdict: Verdict)

  /** The client; `stdin` names the launch whose pipe it is. `ends` logs how calls ended. */
  datatype Client = Client(stdin: Option<nat>, pending: set<Id>, seqno: nat, calls: map<Id, Call>, ends: seq<End>)

  /** One launched bridge: commands in its pipe, sends under way, replies not yet read. */
  datatype Bridge = Bridge(inbox: seq<Cmd>, running: set<Cmd>, outbox: seq<Reply>)

  /** The client, every bridge ever launched, the sends that bridges completed, and the ids they answered. */
  datatype Sys = Sys(client: Client, bridges: seq<Bridge>, performed: seq<Cmd>, answered: set<Id>)

  const IDLE: Bridge := Bridge([], {}, [])
  const START: Sys := Sys(Client(None, {}, 0, map[], []), [], [], {})

  // ----- the client ---------------------------------------------------------------------

  function Put(c: Client, id: Id, call: Call): Client {
    c.(calls := c.calls[id := call])
  }

  function Finish(c: Client, id: Id, verdict: Verdict): Client
    requires id in c.calls
  {
    Put(c, id, c.calls[id].(phase := Ended(verdict))).(ends := c.ends + [End(id, verdict)])
  }

  /** `send` up to the first await. Without a bridge it raises at once and leaves no trace. */
  function BeginSend(c: Client, jid: string, text: string): Client {
    if c.stdin.None? then c else
      var id := c.seqno + 1;
      Put(c, id, Call(jid, text, c.stdin.value, Writing, Unset)).(seqno := id, pending := c.pending + {id})
  }

  function FailWrite(c: Client, id: Id): Client
    requires id in c.calls
  {
    Finish(c.(pending := c.pending - {id}), id, WriteFailed)
  }

  function VerdictOf(f: Future): Verdict {
    match f
    case Result(ok) => if ok then Success else Refused
    case Failed => Disconnected
    case _ => Interrupted
  }

  function Wake(c: Client, id: Id): Client
    requires id in c.calls
  {
    Finish(c, id, VerdictOf(c.calls[id].future))
  }

  function TimeOut(c: Client, id: Id): Client
    requires id in c.calls
  {
    Finish(Put(c, id, c.calls[id].(future := Dropped)).(pending := c.pending - {id}), id, TimedOut)
  }

  /** The caller is cancelled while it waits: its entry stays behind in `pending`. */
  function Interrupt(c: Client, id: Id): Client
    requires id in c.calls
  {
    Finish(Put(c, id, c.calls[id].(future := if c.calls[id].phase.Waiting? then Dropped else c.calls[id].future)), id,
        Interrupted)
  }

  function Resolve(c: Client, r: Reply): Client {
    if r.id !in c.pending then c else
      var d := c.(pending := c.pending - {r.id});
      if r.id in c.calls && c.calls[r.id].future.Unset? then Put(d, r.id, c.calls[r.id].(future := Result(r.ok))) else d
  }

  function RejectAll(c: Client): Client {
    c.(calls := map id | id in c.calls :: Rejected(c, id), pending := {})
  }

  function Rejected(c: Client, id: Id): Call
    requires id in c.calls
  {
    if id in c.pending && c.calls[id].future.Unset? then c.calls[id].(future := Failed) else c.calls[id]
  }

  // ----- everything that can happen ---------------------------------------------------------

  datatype Outcome = Done | Refuse

  datatype Step =
    | Launch
    | Send(jid: string, text: string, reaches: bool)
    | WriteDone(id: Id)
    | WriteFail(id: Id)
    | Return(id: Id)
    | Expire(id: Id)
    | Cancel(id: Id)
    | Take(bridge: nat)
    | Complete(bridge: nat, cmd: Cmd, outcome: Outcome)
    | Read
    | Disconnect

  predicate InPhase(c: Client, id: Id, phase: Phase) {
    id in c.calls && c.calls[id].phase == phase
  }

  /** A bridge completes a send only for a command that names a recipient. */
  predicate Enabled(s: Sys, step: Step) {
    match step
    case Launch => s.client.stdin.None?
    case Send(jid, text, reaches) => true
    case WriteDone(id) => InPhase(s.client, id, Writing)
    case WriteFail(id) => InPhase(s.client, id, Writing)
    case Return(id) => InPhase(s.client, id, Waiting) && !s.client.calls[id].future.Unset?
    case Expire(id) => InPhase(s.client, id, Waiting) && s.client.calls[id].future.Unset?
    case Cancel(id) => InPhase(s.client, id, Writing) || InPhase(s.client, id, Waiting)
    case Take(n) => n < |s.bridges| && s.bridges[n].inbox != []
    case Complete(n, cmd, outcome) => n < |s.bridges| && cmd in s.bridges[n].running
        && (outcome.Done? ==> cmd.jid != "")
    case Read => s.client.stdin.Some? && s.client.stdin.value < |s.bridges|
        && s.bridges[s.client.stdin.value].outbox != []
    case Disconnect => s.client.stdin.Some?
  }

  function Next(s: Sys, step: Step): Sys
    requires Enabled(s, step)
  {
    match step
    case Launch => s.(client := s.client.(stdin := Some(|s.bridges|)), bridges := s.bridges + [IDLE])
    case Send(jid, text, reaches) =>
      var t := s.(client := BeginSend(s.client, jid, text));
      if s.client.stdin.Some? && s.client.stdin.value < |s.bridges| && reaches then
        var b := s.bridges[s.client.stdin.value];
        t.(bridges := s.bridges[s.client.stdin.value := b.(inbox := b.inbox + [Cmd(t.client.seqno, jid, text)])])
      else t
    case WriteDone(id) => s.(client := Put(s.client, id, s.client.calls[id].(phase := Waiting)))
    case WriteFail(id) => s.(client := FailWrite(s.client, id))
    case Return(id) => s.(client := Wake(s.client, id))
    case Expire(id) => s.(client := TimeOut(s.client, id))
    case Cancel(id) => s.(client := Interrupt(s.client, id))
    case Take(n) =>
      var b := s.bridges[n];
      s.(bridges := s.bridges[n := b.(inbox := b.inbox[1..], running := b.running + {b.inbox[0]})])
    case Complete(n, cmd, outcome) =>
      var b := s.bridges[n];
      var c := b.(running := b.running - {cmd}, outbox := b.outbox + [Reply(cmd.id, outcome.Done?)]);
      s.(bridges := s.bridges[n := c], answered := s.answered + {cmd.id},
         performed := if outcome.Done? then s.performed + [cmd] else s.performed)
    case Read =>
      var n := s.client.stdin.value;
      var b := s.bridges[n];
      s.(client := Resolve(s.client, b.outbox[0]), bridges := s.bridges[n := b.(outbox := b.outbox[1..])])
    case Disconnect => s.(client := RejectAll(s.client.(stdin := None)))
  }

  predicate Possible(s: Sys, steps: seq<Step>)
    decreases |steps|
  {
    steps == [] || (Enabled(s, steps[0]) && Possible(Next(s, steps[0]), steps[1..]))
  }

  function After(s: Sys, steps: seq<Step>): Sys
    requires Possible(s, steps)
    decreases |steps|
  {
    if steps == [] then s else After(Next(s, steps[0]), steps[1..])
  }
}
