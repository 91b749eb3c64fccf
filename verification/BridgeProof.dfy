/** What every run of the bridge protocol keeps. */
module BridgeProof {
  import opened Wrappers
  import opened BridgeSpec
  import opened Seqs

  // ----- the client's own books ------------------------------------------------------------

  /** Ids are handed out once, in order; a call that awaits an unset future is pending on the present bridge. */
  ghost predicate BooksOk(c: Client) {
    && (forall id :: id in c.calls <==> 1 <= id <= c.seqno)
    && (forall id | id in c.pending :: id in c.calls && c.stdin == Some(c.calls[id].launch))
    && (forall id | id in c.calls && !c.calls[id].phase.Ended? && c.calls[id].future.Unset? :: id in c.pending)
  }

  /** Each call is logged exactly when it has ended, once, with its verdict. */
  ghost predicate EndsOk(calls: map<Id, Call>, ends: seq<End>) {
    && (forall e | e in ends :: e.id in calls && calls[e.id].phase == Ended(e.verdict))
    && (forall id | id in calls && calls[id].phase.Ended? :: End(id, calls[id].phase.verdict) in ends)
    && (forall i, j | 0 <= i < j < |ends| :: ends[i].id != ends[j].id)
  }

  // ----- bridges ----------------------------------------------------------------------------

  predicate CmdOk(calls: map<Id, Call>, n: nat, cmd: Cmd) {
    cmd.id in calls && calls[cmd.id].launch == n && calls[cmd.id].jid == cmd.jid && calls[cmd.id].text == cmd.text
  }

  predicate DidPerform(calls: map<Id, Call>, performed: seq<Cmd>, id: Id) {
    id in calls && Cmd(id, calls[id].jid, calls[id].text) in performed
  }

  /** Every command is the one its call wrote, and it is answered at most once. */
  ghost predicate BridgeOk(b: Bridge, n: nat, calls: map<Id, Call>, performed: seq<Cmd>, answered: set<Id>) {
    && (forall i | 0 <= i < |b.inbox| :: Unread(b, n, calls, answered, b.inbox[i]))
    && (forall i, j | 0 <= i < j < |b.inbox| :: b.inbox[i].id != b.inbox[j].id)
    && (forall cmd | cmd in b.running :: CmdOk(calls, n, cmd) && cmd.id !in answered)
    && (forall r | r in b.outbox :: AnswerOk(calls, performed, answered, n, r))
  }

  predicate Unread(b: Bridge, n: nat, calls: map<Id, Call>, answered: set<Id>, cmd: Cmd) {
    CmdOk(calls, n, cmd) && cmd.id !in answered && cmd !in b.running
  }

  predicate AnswerOk(calls: map<Id, Call>, performed: seq<Cmd>, answered: set<Id>, n: nat, r: Reply) {
    r.id in answered && r.id in calls && calls[r.id].launch == n && (r.ok ==> DidPerform(calls, performed, r.id))
  }

  ghost predicate BridgesOk(bridges: seq<Bridge>, calls: map<Id, Call>, performed: seq<Cmd>, answered: set<Id>) {
    forall n | 0 <= n < |bridges| :: BridgeOk(bridges[n], n, calls, performed, answered)
  }

  /** A send is performed at most once, and only as it was asked for. */
  ghost predicate PerformedOk(calls: map<Id, Call>, performed: seq<Cmd>, answered: set<Id>) {
    && (forall cmd | cmd in performed :: cmd.id in answered && DidPerform(calls, performed, cmd.id))
    && (forall i, j | 0 <= i < j < |performed| :: performed[i].id != performed[j].id)
  }

  ghost predicate ResultsOk(calls: map<Id, Call>, performed: seq<Cmd>) {
    forall id | id in calls && (calls[id].future == Result(true) || calls[id].phase == Ended(Success)) ::
        DidPerform(calls, performed, id)
  }

  ghost predicate SysOk(s: Sys) {
    && BooksOk(s.client) && EndsOk(s.client.calls, s.client.ends)
    && BridgesOk(s.bridges, s.client.calls, s.performed, s.answered)
    && PerformedOk(s.client.calls, s.performed, s.answered)
    && ResultsOk(s.client.calls, s.performed)
    && (forall id | id in s.answered :: id in s.client.calls)
    && (s.client.stdin.Some? ==> s.client.stdin.value < |s.bridges|)
    && (s.client.stdin.None? ==> s.client.pending == {})
  }

  /** What the bridges see of a call never changes once it is made. */
  predicate SameOrders(a: map<Id, Call>, b: map<Id, Call>) {
    forall id | id in a :: id in b && b[id].launch == a[id].launch && b[id].jid == a[id].jid && b[id].text == a[id].text
  }

  lemma OrdersKeep(s: Sys, calls: map<Id, Call>)
    requires SysOk(s) && SameOrders(s.client.calls, calls)
    ensures BridgesOk(s.bridges, calls, s.performed, s.answered) && PerformedOk(calls, s.performed, s.answered)
    ensures forall id | DidPerform(s.client.calls, s.performed, id) :: DidPerform(calls, s.performed, id)
  {
    hide BooksOk, EndsOk;
    forall n | 0 <= n < |s.bridges| ensures BridgeOk(s.bridges[n], n, calls, s.performed, s.answered) {
      assert BridgeOk(s.bridges[n], n, s.client.calls, s.performed, s.answered);
      BridgeKeeps(s.bridges[n], n, s.client.calls, calls, s.performed, s.answered);
    }
    hide BridgeOk;
  }

  lemma BridgeKeeps(b: Bridge, n: nat, before: map<Id, Call>, calls: map<Id, Call>, performed: seq<Cmd>,
                    answered: set<Id>)
    requires BridgeOk(b, n, before, performed, answered) && SameOrders(before, calls)
    ensures BridgeOk(b, n, calls, performed, answered)
  {
    forall i | 0 <= i < |b.inbox| ensures Unread(b, n, calls, answered, b.inbox[i]) {
      assert Unread(b, n, before, answered, b.inbox[i]);
    }
    forall r | r in b.outbox ensures AnswerOk(calls, performed, answered, n, r) {
      assert AnswerOk(before, performed, answered, n, r);
    }
  }

  // ----- the client's steps ------------------------------------------------------------------

  lemma EndsPut(c: Client, id: Id, call: Call)
    requires EndsOk(c.calls, c.ends)
    requires if id in c.calls then call.phase == c.calls[id].phase || (!c.calls[id].phase.Ended? && !call.phase.Ended?)
             else !call.phase.Ended?
    ensures EndsOk(Put(c, id, call).calls, c.ends)
  {
  }

  lemma EndsFinish(calls: map<Id, Call>, ends: seq<End>, id: Id, verdict: Verdict)
    requires EndsOk(calls, ends) && id in calls && !calls[id].phase.Ended?
    ensures EndsOk(calls[id := calls[id].(phase := Ended(verdict))], ends + [End(id, verdict)])
  {
    var after, more := calls[id := calls[id].(phase := Ended(verdict))], ends + [End(id, verdict)];
    Members(ends, [End(id, verdict)]);
    forall i, j | 0 <= i < j < |more| ensures more[i].id != more[j].id {
      if j == |ends| {
        assert ends[i] in ends;
      }
    }
    forall k | k in after && after[k].phase.Ended? ensures End(k, after[k].phase.verdict) in more {
      assert k != id ==> End(k, calls[k].phase.verdict) in ends;
    }
  }

  /** The books of the client, its log and its results, without the bridges. */
  ghost predicate ClientOk(c: Client, performed: seq<Cmd>) {
    BooksOk(c) && EndsOk(c.calls, c.ends) && ResultsOk(c.calls, performed) && (c.stdin.None? ==> c.pending == {})
  }

  lemma BeginBooks(c: Client, jid: string, text: string)
    requires BooksOk(c)
    ensures BooksOk(BeginSend(c, jid, text))
  {
  }

  lemma BeginResults(c: Client, jid: string, text: string, performed: seq<Cmd>)
    requires BooksOk(c) && ResultsOk(c.calls, performed)
    ensures ResultsOk(BeginSend(c, jid, text).calls, performed) && SameOrders(c.calls, BeginSend(c, jid, text).calls)
  {
    SameDid(c.calls, BeginSend(c, jid, text).calls, performed);
    hide DidPerform;
  }

  lemma BeginOk(c: Client, jid: string, text: string, performed: seq<Cmd>)
    requires ClientOk(c, performed)
    ensures var d := BeginSend(c, jid, text);
            && ClientOk(d, performed) && SameOrders(c.calls, d.calls) && d.stdin == c.stdin
            && (c.stdin.Some? ==> d.seqno !in c.calls && d.seqno in d.calls
                                  && d.calls[d.seqno] == Call(jid, text, c.stdin.value, Writing, Unset))
  {
    BeginBooks(c, jid, text);
    BeginResults(c, jid, text, performed);
    assert c.seqno + 1 !in c.calls;
    hide EndsOk, BooksOk, ResultsOk, SameOrders;
    if c.stdin.Some? {
      EndsPut(c, c.seqno + 1, Call(jid, text, c.stdin.value, Writing, Unset));
    }
  }

  lemma WaitOk(c: Client, id: Id, performed: seq<Cmd>)
    requires ClientOk(c, performed) && InPhase(c, id, Writing)
    ensures var d := Put(c, id, c.calls[id].(phase := Waiting));
            ClientOk(d, performed) && SameOrders(c.calls, d.calls) && d.stdin == c.stdin
  {
    EndsPut(c, id, c.calls[id].(phase := Waiting));
    SameDid(c.calls, Put(c, id, c.calls[id].(phase := Waiting)).calls, performed);
    hide EndsOk, DidPerform;
  }

  lemma BooksFinish(c: Client, id: Id, verdict: Verdict, performed: seq<Cmd>)
    requires BooksOk(c.(pending := c.pending + {id})) || BooksOk(c)
    requires ResultsOk(c.calls, performed) && id in c.calls && (verdict.Success? ==> c.calls[id].future == Result(true))
    ensures var d := Finish(c, id, verdict); BooksOk(d) && ResultsOk(d.calls, performed)
  {
    hide DidPerform;
    var d := Finish(c, id, verdict);
    assert forall k | DidPerform(c.calls, performed, k) ::
        DidPerform(d.calls, performed, k) by { SameDid(c.calls, d.calls, performed); }
  }

  lemma SameDid(a: map<Id, Call>, b: map<Id, Call>, performed: seq<Cmd>)
    requires SameOrders(a, b)
    ensures forall k | DidPerform(a, performed, k) :: DidPerform(b, performed, k)
  {
  }

  /** A call that has not ended ends, whether or not it was still pending. */
  lemma FinishOk(c: Client, id: Id, verdict: Verdict, performed: seq<Cmd>)
    requires ClientOk(c.(pending := c.pending + {id}), performed) || ClientOk(c, performed)
    requires id in c.calls && !c.calls[id].phase.Ended? && (verdict.Success? ==> c.calls[id].future == Result(true))
    requires c.stdin.None? ==> c.pending == {}
    ensures var d := Finish(c, id, verdict);
            ClientOk(d, performed) && SameOrders(c.calls, d.calls) && d.stdin == c.stdin
  {
    EndsFinish(c.calls, c.ends, id, verdict);
    BooksFinish(c, id, verdict, performed);
    hide EndsOk, BooksOk, ResultsOk;
  }

  lemma DropOk(c: Client, id: Id, performed: seq<Cmd>)
    requires ClientOk(c, performed) && id in c.calls && !c.calls[id].phase.Ended?
    ensures var d := Put(c, id, c.calls[id].(future := Dropped)); ClientOk(d, performed) && SameOrders(c.calls, d.calls)
  {
    EndsPut(c, id, c.calls[id].(future := Dropped));
    SameDid(c.calls, Put(c, id, c.calls[id].(future := Dropped)).calls, performed);
    hide EndsOk, DidPerform;
  }

  lemma PoppedOk(c: Client, id: Id, performed: seq<Cmd>)
    requires ClientOk(c, performed)
    ensures var d := c.(pending := c.pending - {id});
            ClientOk(d.(pending := d.pending + {id}), performed) || ClientOk(d, performed)
  {
    var d := c.(pending := c.pending - {id});
    hide BooksOk, EndsOk, ResultsOk;
    if id in c.pending {
      assert d.(pending := d.pending + {id}) == c;
    } else {
      assert d == c;
    }
  }

  lemma FailWriteOk(c: Client, id: Id, performed: seq<Cmd>)
    requires ClientOk(c, performed) && InPhase(c, id, Writing)
    ensures var d := FailWrite(c, id); ClientOk(d, performed) && SameOrders(c.calls, d.calls) && d.stdin == c.stdin
  {
    PoppedOk(c, id, performed);
    FinishOk(c.(pending := c.pending - {id}), id, WriteFailed, performed);
    hide BooksOk, EndsOk, ResultsOk;
  }

  lemma TimeOutOk(c: Client, id: Id, performed: seq<Cmd>)
    requires ClientOk(c, performed) && InPhase(c, id, Waiting)
    ensures var d := TimeOut(c, id); ClientOk(d, performed) && SameOrders(c.calls, d.calls) && d.stdin == c.stdin
  {
    hide BooksOk, EndsOk, ResultsOk;
    var d := Put(c, id, c.calls[id].(future := Dropped));
    DropOk(c, id, performed);
    PoppedOk(d, id, performed);
    FinishOk(d.(pending := d.pending - {id}), id, TimedOut, performed);
  }

  lemma WakeOk(c: Client, id: Id, performed: seq<Cmd>)
    requires ClientOk(c, performed) && InPhase(c, id, Waiting)
    ensures var d := Wake(c, id); ClientOk(d, performed) && SameOrders(c.calls, d.calls) && d.stdin == c.stdin
  {
    FinishOk(c, id, VerdictOf(c.calls[id].future), performed);
    hide ClientOk;
  }

  lemma InterruptOk(c: Client, id: Id, performed: seq<Cmd>)
    requires ClientOk(c, performed) && id in c.calls && !c.calls[id].phase.Ended?
    ensures var d := Interrupt(c, id); ClientOk(d, performed) && SameOrders(c.calls, d.calls) && d.stdin == c.stdin
  {
    hide BooksOk, EndsOk, ResultsOk;
    var d := Put(c, id, c.calls[id].(future := Dropped));
    DropOk(c, id, performed);
    FinishOk(d, id, Interrupted, performed);
    FinishOk(c, id, Interrupted, performed);
    assert Put(c, id, c.calls[id].(future := c.calls[id].future)).calls == c.calls;
  }

  lemma ResolveOk(c: Client, r: Reply, performed: seq<Cmd>)
    requires ClientOk(c, performed) && (r.ok ==> DidPerform(c.calls, performed, r.id))
    ensures var d := Resolve(c, r); ClientOk(d, performed) && SameOrders(c.calls, d.calls) && d.stdin == c.stdin
  {
    if r.id in c.pending && c.calls[r.id].future.Unset? {
      EndsPut(c, r.id, c.calls[r.id].(future := Result(r.ok)));
    }
    hide EndsOk;
  }

  lemma RejectOk(c: Client, performed: seq<Cmd>)
    requires ClientOk(c, performed)
    ensures var d := RejectAll(c.(stdin := None)); ClientOk(d, performed) && SameOrders(c.calls, d.calls)
  {
    var d := RejectAll(c.(stdin := None));
    assert forall id | id in c.calls :: d.calls[id].phase == c.calls[id].phase;
    assert EndsOk(d.calls, d.ends) by { hide BooksOk, ResultsOk; }
    hide EndsOk;
  }

  // ----- the bridges' steps --------------------------------------------------------------------

  lemma SentOk(b: Bridge, n: nat, calls: map<Id, Call>, performed: seq<Cmd>, answered: set<Id>, cmd: Cmd,
               before: map<Id, Call>)
    requires BridgeOk(b, n, before, performed, answered) && SameOrders(before, calls)
    requires cmd.id !in before && CmdOk(calls, n, cmd) && cmd.id !in answered
    ensures BridgeOk(b.(inbox := b.inbox + [cmd]), n, calls, performed, answered)
  {
    BridgeKeeps(b, n, before, calls, performed, answered);
    var d := b.(inbox := b.inbox + [cmd]);
    assert forall i | 0 <= i < |b.inbox| :: Unread(b, n, before, answered, b.inbox[i]);
    forall i | 0 <= i < |d.inbox| ensures Unread(d, n, calls, answered, d.inbox[i]) {
      if i < |b.inbox| {
        assert Unread(b, n, calls, answered, b.inbox[i]);
      }
    }
  }

  lemma TakeOk(b: Bridge, n: nat, calls: map<Id, Call>, performed: seq<Cmd>, answered: set<Id>)
    requires BridgeOk(b, n, calls, performed, answered) && b.inbox != []
    ensures BridgeOk(b.(inbox := b.inbox[1..], running := b.running + {b.inbox[0]}), n, calls, performed, answered)
  {
    var d := b.(inbox := b.inbox[1..], running := b.running + {b.inbox[0]});
    assert Unread(b, n, calls, answered, b.inbox[0]);
    forall i | 0 <= i < |d.inbox| ensures Unread(d, n, calls, answered, d.inbox[i]) {
      assert Unread(b, n, calls, answered, b.inbox[i + 1]);
    }
  }

  /** Another bridge does not notice that `cmd` was answered. */
  lemma ElsewhereOk(b: Bridge, m: nat, calls: map<Id, Call>, performed: seq<Cmd>, more: seq<Cmd>, answered: set<Id>,
                    n: nat, cmd: Cmd)
    requires BridgeOk(b, m, calls, performed, answered) && CmdOk(calls, n, cmd) && n != m && more <= performed + [cmd]
             && performed <= more
    ensures BridgeOk(b, m, calls, more, answered + {cmd.id})
  {
    assert forall c | c in performed :: c in more;
    forall i | 0 <= i < |b.inbox| ensures Unread(b, m, calls, answered + {cmd.id}, b.inbox[i]) {
      assert Unread(b, m, calls, answered, b.inbox[i]);
    }
    forall r | r in b.outbox ensures AnswerOk(calls, more, answered + {cmd.id}, m, r) {
      assert AnswerOk(calls, performed, answered, m, r);
    }
  }

  lemma CompleteOk(b: Bridge, n: nat, calls: map<Id, Call>, performed: seq<Cmd>, answered: set<Id>, cmd: Cmd,
                   done: bool)
    requires BridgeOk(b, n, calls, performed, answered) && cmd in b.running
    ensures BridgeOk(b.(running := b.running - {cmd}, outbox := b.outbox + [Reply(cmd.id, done)]), n, calls,
                     if done then performed + [cmd] else performed, answered + {cmd.id})
  {
    var more := if done then performed + [cmd] else performed;
    var r := Reply(cmd.id, done);
    var d := b.(running := b.running - {cmd}, outbox := b.outbox + [r]);
    Members(b.outbox, [r]);
    assert forall c | c in performed :: c in more;
    forall i | 0 <= i < |d.inbox| ensures Unread(d, n, calls, answered + {cmd.id}, d.inbox[i]) {
      assert Unread(b, n, calls, answered, b.inbox[i]);
    }
    forall q | q in d.outbox ensures AnswerOk(calls, more, answered + {cmd.id}, n, q) {
      if q in b.outbox {
        assert AnswerOk(calls, performed, answered, n, q);
      } else {
        assert done ==> more[|performed|] == cmd;
      }
    }
  }

  lemma ReadOk(b: Bridge, n: nat, calls: map<Id, Call>, performed: seq<Cmd>, answered: set<Id>)
    requires BridgeOk(b, n, calls, performed, answered) && b.outbox != []
    ensures BridgeOk(b.(outbox := b.outbox[1..]), n, calls, performed, answered)
            && AnswerOk(calls, performed, answered, n, b.outbox[0])
  {
    var d := b.(outbox := b.outbox[1..]);
    assert forall i | 0 <= i < |d.inbox| ::
        Unread(b, n, calls, answered, b.inbox[i]) == Unread(d, n, calls, answered, d.inbox[i]);
  }

  lemma PerformedMore(calls: map<Id, Call>, performed: seq<Cmd>, answered: set<Id>, n: nat, cmd: Cmd, done: bool)
    requires PerformedOk(calls, performed, answered) && CmdOk(calls, n, cmd) && cmd.id !in answered
             && ResultsOk(calls, performed)
    ensures var more := if done then performed + [cmd] else performed;
            PerformedOk(calls, more, answered + {cmd.id}) && ResultsOk(calls, more)
  {
    var more := if done then performed + [cmd] else performed;
    Members(performed, [cmd]);
    assert forall i | 0 <= i < |performed| :: performed[i] in performed;
    assert forall id | DidPerform(calls, performed, id) :: DidPerform(calls, more, id);
  }

  // ----- every step --------------------------------------------------------------------------------

  /** A step of the client alone. */
  lemma ClientStep(s: Sys, c: Client)
    requires SysOk(s) && ClientOk(c, s.performed) && SameOrders(s.client.calls, c.calls)
    requires c.stdin.Some? ==> c.stdin == s.client.stdin
    ensures SysOk(s.(client := c))
  {
    OrdersKeep(s, c.calls);
    hide BooksOk, EndsOk, ResultsOk, BridgesOk, PerformedOk;
  }

  lemma SendStep(s: Sys, jid: string, text: string, reaches: bool)
    requires SysOk(s)
    ensures SysOk(Next(s, Send(jid, text, reaches)))
  {
    var c := BeginSend(s.client, jid, text);
    BeginOk(s.client, jid, text, s.performed);
    OrdersKeep(s, c.calls);
    if s.client.stdin.Some? {
      var n := s.client.stdin.value;
      var cmd := Cmd(c.seqno, jid, text);
      assert c.seqno !in s.answered;
      assert BridgeOk(s.bridges[n], n, s.client.calls, s.performed, s.answered);
      SentOk(s.bridges[n], n, c.calls, s.performed, s.answered, cmd, s.client.calls);
    }
    hide BooksOk, EndsOk, ResultsOk, PerformedOk, BridgeOk, BeginSend;
  }

  lemma LaunchStep(s: Sys)
    requires SysOk(s) && s.client.stdin.None?
    ensures SysOk(Next(s, Launch))
  {
    assert BridgeOk(IDLE, |s.bridges|, s.client.calls, s.performed, s.answered);
    hide EndsOk, ResultsOk, PerformedOk, BridgeOk;
  }

  lemma TakeStep(s: Sys, n: nat)
    requires SysOk(s) && Enabled(s, Take(n))
    ensures SysOk(Next(s, Take(n)))
  {
    assert BridgeOk(s.bridges[n], n, s.client.calls, s.performed, s.answered);
    TakeOk(s.bridges[n], n, s.client.calls, s.performed, s.answered);
    hide BooksOk, EndsOk, ResultsOk, PerformedOk, BridgeOk;
  }

  lemma RunningOk(s: Sys, n: nat, cmd: Cmd)
    requires SysOk(s) && n < |s.bridges| && cmd in s.bridges[n].running
    ensures BridgeOk(s.bridges[n], n, s.client.calls, s.performed, s.answered)
    ensures CmdOk(s.client.calls, n, cmd) && cmd.id !in s.answered
  {
    hide BooksOk, EndsOk, ResultsOk, PerformedOk;
  }

  lemma CompleteStep(s: Sys, n: nat, cmd: Cmd, outcome: Outcome)
    requires SysOk(s) && Enabled(s, Complete(n, cmd, outcome))
    ensures SysOk(Next(s, Complete(n, cmd, outcome)))
  {
    RunningOk(s, n, cmd);
    CompleteOk(s.bridges[n], n, s.client.calls, s.performed, s.answered, cmd, outcome.Done?);
    PerformedMore(s.client.calls, s.performed, s.answered, n, cmd, outcome.Done?);
    var t := Next(s, Complete(n, cmd, outcome));
    forall m | 0 <= m < |t.bridges| ensures BridgeOk(t.bridges[m], m, t.client.calls, t.performed, t.answered) {
      if m != n {
        assert BridgeOk(s.bridges[m], m, s.client.calls, s.performed, s.answered);
        ElsewhereOk(s.bridges[m], m, s.client.calls, s.performed, t.performed, s.answered, n, cmd);
      }
    }
    hide BooksOk, EndsOk, ResultsOk, PerformedOk, BridgeOk;
  }

  lemma ReadStep(s: Sys)
    requires SysOk(s) && Enabled(s, Read)
    ensures SysOk(Next(s, Read))
  {
    var n := s.client.stdin.value;
    var b := s.bridges[n];
    assert BridgeOk(b, n, s.client.calls, s.performed, s.answered);
    ReadOk(b, n, s.client.calls, s.performed, s.answered);
    var t := s.(bridges := s.bridges[n := b.(outbox := b.outbox[1..])]);
    assert SysOk(t) by { hide BooksOk, EndsOk, ResultsOk, PerformedOk, BridgeOk; }
    ResolveOk(s.client, b.outbox[0], s.performed);
    hide BooksOk, EndsOk, ResultsOk, PerformedOk, BridgesOk, BridgeOk, Resolve;
    ClientStep(t, Resolve(s.client, b.outbox[0]));
  }

  lemma StepOk(s: Sys, step: Step)
    requires SysOk(s) && Enabled(s, step)
    ensures SysOk(Next(s, step))
  {
    var c, p := s.client, s.performed;
    assert ClientOk(c, p);
    match step {
      case Launch => LaunchStep(s);
      case Send(jid, text, reaches) => SendStep(s, jid, text, reaches);
      case WriteDone(id) => WaitOk(c, id, p);
      case WriteFail(id) => FailWriteOk(c, id, p);
      case Return(id) => WakeOk(c, id, p);
      case Expire(id) => TimeOutOk(c, id, p);
      case Cancel(id) => InterruptOk(c, id, p);
      case Take(n) => TakeStep(s, n);
      case Complete(n, cmd, outcome) => CompleteStep(s, n, cmd, outcome);
      case Read => ReadStep(s);
      case Disconnect => RejectOk(c, p);
    }
    if step.WriteDone? || step.WriteFail? || step.Return? || step.Expire? || step.Cancel? || step.Disconnect? {
      hide SysOk, ClientOk, Put, FailWrite, Wake, TimeOut, Interrupt, RejectAll, SameOrders;
      ClientStep(s, Next(s, step).client);
    }
  }

  lemma {:induction false} RunOk(s: Sys, steps: seq<Step>)
    requires SysOk(s) && Possible(s, steps)
    ensures SysOk(After(s, steps))
    decreases |steps|
  {
    hide SysOk, Enabled, Next;
    if steps != [] {
      StepOk(s, steps[0]);
      RunOk(Next(s, steps[0]), steps[1..]);
    }
  }

  lemma StartOk()
    ensures SysOk(START)
  {
  }

  // ----- what follows -----------------------------------------------------------------------------------

  /** In every run each send ends exactly once or is still under way: the log holds no id twice, and holds an id
      exactly when its call has ended, with the verdict of that call. */
  lemma EachSendEndsOnce(steps: seq<Step>)
    requires Possible(START, steps)
    ensures var c := After(START, steps).client;
            && (forall i, j | 0 <= i < j < |c.ends| :: c.ends[i].id != c.ends[j].id)
            && (forall e | e in c.ends ::
                e.id in c.calls && 1 <= e.id <= c.seqno && c.calls[e.id].phase == Ended(e.verdict))
            && (forall id | 1 <= id <= c.seqno ::
                id in c.calls && (c.calls[id].phase.Ended? ==> End(id, c.calls[id].phase.verdict) in c.ends))
  {
    StartOk();
    RunOk(START, steps);
    hide Possible, After;
  }

  /** How a call that is under way can end on its own, without being cancelled and whatever the bridge does. */
  function WayOut(c: Client, id: Id): seq<Step>
    requires id in c.calls
  {
    var last := if c.calls[id].future.Unset? then Expire(id) else Return(id);
    if c.calls[id].phase.Writing? then [WriteDone(id), last] else [last]
  }

  /** A call under way is never stuck: it can end within two steps of its own. */
  lemma EachSendCanEnd(s: Sys, id: Id)
    requires id in s.client.calls && !s.client.calls[id].phase.Ended?
    ensures var steps := WayOut(s.client, id);
            && |steps| <= 2 && Possible(s, steps)
            && exists v :: End(id, v) in After(s, steps).client.ends && InPhase(After(s, steps).client, id, Ended(v))
  {
    var call := s.client.calls[id];
    var last := if call.future.Unset? then Expire(id) else Return(id);
    var v := if call.future.Unset? then TimedOut else VerdictOf(call.future);
    var s1 := if call.phase.Writing? then Next(s, WriteDone(id)) else s;
    assert Enabled(s1, last) && InPhase(Next(s1, last).client, id, Ended(v));
    assert Next(s1, last).client.ends == s1.client.ends + [End(id, v)];
    OneStep(s1, last, []);
    assert [last] + [] == [last];
    if call.phase.Writing? {
      OneStep(s, WriteDone(id), [last]);
      assert [WriteDone(id)] + [last] == [WriteDone(id), last];
    }
    hide Enabled, Next;
  }

  /** A send that ends in success was completed by a bridge, to that recipient with that text. */
  lemma SuccessMeansSent(steps: seq<Step>, id: Id)
    requires Possible(START, steps) && End(id, Success) in After(START, steps).client.ends
    ensures var s := After(START, steps);
            id in s.client.calls && Cmd(id, s.client.calls[id].jid, s.client.calls[id].text) in s.performed
  {
    StartOk();
    RunOk(START, steps);
    hide Possible, After;
    var s := After(START, steps);
    assert s.client.calls[id].phase == Ended(Success);
    assert DidPerform(s.client.calls, s.performed, id);
  }

  /** Whatever is timed out, cut off or answered late, no bridge completes the same send twice. */
  lemma SentAtMostOnce(steps: seq<Step>)
    requires Possible(START, steps)
    ensures var s := After(START, steps);
            && (forall i, j | 0 <= i < j < |s.performed| :: s.performed[i].id != s.performed[j].id)
            && (forall cmd | cmd in s.performed :: cmd.id in s.client.calls
                                                   && cmd.jid == s.client.calls[cmd.id].jid
                                                       && cmd.text == s.client.calls[cmd.id].text)
  {
    StartOk();
    RunOk(START, steps);
    hide Possible, After;
    var s := After(START, steps);
    forall cmd | cmd in s.performed
      ensures cmd.id in s.client.calls && cmd.jid == s.client.calls[cmd.id].jid
              && cmd.text == s.client.calls[cmd.id].text
    {
      assert DidPerform(s.client.calls, s.performed, cmd.id);
      var other := Cmd(cmd.id, s.client.calls[cmd.id].jid, s.client.calls[cmd.id].text);
      var i :| 0 <= i < |s.performed| && s.performed[i] == cmd;
      var j :| 0 <= j < |s.performed| && s.performed[j] == other;
    }
  }

  /** While no bridge is connected nothing is pending, and every call still under way has its future settled. */
  lemma NothingHangs(steps: seq<Step>)
    requires Possible(START, steps) && After(START, steps).client.stdin.None?
    ensures var c := After(START, steps).client;
            c.pending == {} && forall id | id in c.calls && !c.calls[id].phase.Ended? :: !c.calls[id].future.Unset?
  {
    StartOk();
    RunOk(START, steps);
    hide Possible, After;
  }

  /** The id of a new send was never used, whatever bridges came and went. */
  lemma IdsAreNew(steps: seq<Step>, jid: string, text: string)
    requires Possible(START, steps) && After(START, steps).client.stdin.Some?
    ensures var s := After(START, steps);
            var id := BeginSend(s.client, jid, text).seqno;
            id !in s.client.calls && id !in s.answered
                && (forall n | 0 <= n < |s.bridges| :: forall r | r in s.bridges[n].outbox :: r.id != id)
  {
    StartOk();
    RunOk(START, steps);
    hide Possible, After;
    var s := After(START, steps);
    forall n | 0 <= n < |s.bridges| ensures forall r | r in s.bridges[n].outbox :: r.id in s.client.calls {
      assert BridgeOk(s.bridges[n], n, s.client.calls, s.performed, s.answered);
    }
  }

  /** A reply settles its own call or, if that is no longer pending, nothing at all. */
  lemma ReplySettlesOnlyItsOwn(c: Client, r: Reply)
    ensures var d := Resolve(c, r);
            && (r.id !in c.pending ==> d == c)
            && (forall id | id != r.id :: (id in d.pending <==> id in c.pending) && (id in d.calls <==> id in c.calls)
                                          && (id in c.calls ==> d.calls[id] == c.calls[id]))
            && d.ends == c.ends
  {
  }

  // ----- which failures mean that nothing was sent ---------------------------------------------------

  predicate Performed(performed: seq<Cmd>, id: Id) {
    exists cmd :: cmd in performed && cmd.id == id
  }

  predicate Negative(call: Call) {
    call.future == Result(false) || call.phase == Ended(Refused)
  }

  /** A negative reply, on its way or received, belongs to an id that was answered without being performed. */
  ghost predicate RefusalsOk(s: Sys) {
    && (forall n | 0 <= n < |s.bridges| :: NoesOk(s.bridges[n].outbox, s.performed, s.answered))
    && (forall id | id in s.client.calls && Negative(s.client.calls[id]) ::
        id in s.answered && !Performed(s.performed, id))
  }

  predicate NoesOk(outbox: seq<Reply>, performed: seq<Cmd>, answered: set<Id>) {
    forall r | r in outbox && !r.ok :: r.id in answered && !Performed(performed, r.id)
  }

  lemma CompleteRefuses(s: Sys, n: nat, cmd: Cmd, outcome: Outcome)
    requires SysOk(s) && RefusalsOk(s) && Enabled(s, Complete(n, cmd, outcome))
    ensures RefusalsOk(Next(s, Complete(n, cmd, outcome)))
  {
    RunningOk(s, n, cmd);
    PerformedIds(s);
    hide SysOk, BridgeOk, CmdOk;
    var t := Next(s, Complete(n, cmd, outcome));
    Members(s.performed, [cmd]);
    Members(s.bridges[n].outbox, [Reply(cmd.id, outcome.Done?)]);
    assert forall id | id != cmd.id :: Performed(t.performed, id) ==> Performed(s.performed, id);
    forall m | 0 <= m < |t.bridges| ensures NoesOk(t.bridges[m].outbox, t.performed, t.answered) {
      assert NoesOk(s.bridges[m].outbox, s.performed, s.answered);
      hide Performed;
    }
    hide Performed, NoesOk;
  }

  lemma PerformedIds(s: Sys)
    requires SysOk(s)
    ensures forall id | Performed(s.performed, id) :: id in s.answered
  {
    hide BooksOk, EndsOk, BridgesOk, ResultsOk;
  }

  lemma ReadRefuses(s: Sys)
    requires RefusalsOk(s) && Enabled(s, Read)
    ensures RefusalsOk(Next(s, Read))
  {
    hide Performed;
    var n := s.client.stdin.value;
    var t := Next(s, Read);
    assert NoesOk(s.bridges[n].outbox, s.performed, s.answered);
    forall m | 0 <= m < |t.bridges| ensures NoesOk(t.bridges[m].outbox, t.performed, t.answered) {
      assert NoesOk(s.bridges[m].outbox, s.performed, s.answered);
    }
  }

  lemma StepRefuses(s: Sys, step: Step)
    requires SysOk(s) && RefusalsOk(s) && Enabled(s, step)
    ensures RefusalsOk(Next(s, step))
  {
    if step.Complete? {
      CompleteRefuses(s, step.bridge, step.cmd, step.outcome);
    } else if step.Read? {
      ReadRefuses(s);
    } else {
      OtherSteps(s, step);
      hide *;
      QuietRefuses(s, Next(s, step));
    }
  }

  /** Nothing is answered, and no call is told no. */
  predicate Quiet(s: Sys, t: Sys) {
    && t.performed == s.performed && t.answered == s.answered
    && (forall n | 0 <= n < |t.bridges| :: t.bridges[n].outbox == if n < |s.bridges| then s.bridges[n].outbox else [])
    && (forall id | id in t.client.calls && Negative(t.client.calls[id]) ::
        id in s.client.calls && Negative(s.client.calls[id]))
  }

  lemma OtherSteps(s: Sys, step: Step)
    requires Enabled(s, step) && !step.Complete? && !step.Read?
    ensures Quiet(s, Next(s, step))
  {
  }

  lemma QuietRefuses(s: Sys, t: Sys)
    requires RefusalsOk(s) && Quiet(s, t)
    ensures RefusalsOk(t)
  {
    hide Performed, Negative;
    forall n | 0 <= n < |t.bridges| ensures NoesOk(t.bridges[n].outbox, t.performed, t.answered) {
      if n < |s.bridges| {
        assert NoesOk(s.bridges[n].outbox, s.performed, s.answered);
      }
    }
  }

  lemma {:induction false} RunRefuses(s: Sys, steps: seq<Step>)
    requires SysOk(s) && RefusalsOk(s) && Possible(s, steps)
    ensures RefusalsOk(After(s, steps))
    decreases |steps|
  {
    hide SysOk, RefusalsOk, Enabled, Next;
    if steps != [] {
      StepOk(s, steps[0]);
      StepRefuses(s, steps[0]);
      RunRefuses(Next(s, steps[0]), steps[1..]);
    }
  }

  /** In every run, a send that ends with this verdict was not performed. */
  ghost predicate MeansUnsent(v: Verdict) {
    forall steps, id | Possible(START, steps) && End(id, v) in After(START, steps).client.ends ::
      !Performed(After(START, steps).performed, id)
  }

  /** Only a refusal tells the caller that nothing was sent. */
  lemma UnsentIffRefused(v: Verdict)
    ensures MeansUnsent(v) <==> v == Refused
  {
    if v == Refused {
      forall steps, id | Possible(START, steps) && End(id, v) in After(START, steps).client.ends
        ensures !Performed(After(START, steps).performed, id)
      {
        RefusedWasNotSent(steps, id);
      }
    } else {
      MayBeSent("a", "b", v);
      var steps := Witness("a", "b", v);
      assert Cmd(1, "a", "b") in After(START, steps).performed;
      hide Witness, Possible, After;
    }
  }

  lemma RefusedWasNotSent(steps: seq<Step>, id: Id)
    requires Possible(START, steps) && End(id, Refused) in After(START, steps).client.ends
    ensures !Performed(After(START, steps).performed, id)
  {
    StartOk();
    RunOk(START, steps);
    RunRefuses(START, steps);
    hide Possible, After, Performed, BooksOk, BridgesOk, PerformedOk, ResultsOk;
    assert After(START, steps).client.calls[id].phase == Ended(Refused);
  }

  /** The bridge completes the send before the client hears of it; then the call ends in whatever way `v` names. */
  function Witness(jid: string, text: string, v: Verdict): seq<Step> {
    [Launch, Send(jid, text, true), Take(0), Complete(0, Cmd(1, jid, text), Done)] + Ending(v)
  }

  function Ending(v: Verdict): seq<Step> {
    match v
    case Success => [WriteDone(1), Read, Return(1)]
    case WriteFailed => [WriteFail(1)]
    case TimedOut => [WriteDone(1), Expire(1)]
    case Refused => []
    case Disconnected => [WriteDone(1), Disconnect, Return(1)]
    case Interrupted => [Cancel(1)]
  }

  /** The bridge has completed the first send, and its reply is on its way. */
  function Completed(jid: string, text: string): Sys {
    Sys(Client(Some(0), {1}, 1, map[1 := Call(jid, text, 0, Writing, Unset)], []), [Bridge([], {}, [Reply(1, true)])],
        [Cmd(1, jid, text)], {1})
  }

  lemma ReachCompleted(jid: string, text: string, rest: seq<Step>)
    requires jid != "" && Possible(Completed(jid, text), rest)
    ensures var steps := [Launch, Send(jid, text, true), Take(0), Complete(0, Cmd(1, jid, text), Done)] + rest;
            Possible(START, steps) && After(START, steps) == After(Completed(jid, text), rest)
  {
    var cmd := Cmd(1, jid, text);
    var s1 := Next(START, Launch);
    var s2 := Next(s1, Send(jid, text, true));
    assert s2.bridges[0].inbox == [cmd];
    var s3 := Next(s2, Take(0));
    assert s3.bridges[0].inbox == [];
    var s4 := Next(s3, Complete(0, cmd, Done));
    assert s3.bridges[0].running == {cmd} && s4.bridges[0].running == {};
    assert s4.bridges[0].outbox == [Reply(1, true)];
    assert s4.bridges == [Bridge([], {}, [Reply(1, true)])];
    assert s4.performed == [cmd];
    assert s4.answered == {1};
    assert s4.client.pending == {1};
    assert s4 == Completed(jid, text);
    hide Enabled, Next;
    OneStep(s3, Complete(0, cmd, Done), rest);
    OneStep(s2, Take(0), [Complete(0, cmd, Done)] + rest);
    OneStep(s1, Send(jid, text, true), [Take(0)] + ([Complete(0, cmd, Done)] + rest));
    OneStep(START, Launch, [Send(jid, text, true)] + ([Take(0)] + ([Complete(0, cmd, Done)] + rest)));
    assert [Launch] + ([Send(jid, text, true)] + ([Take(0)] + ([Complete(0, cmd, Done)] + rest)))
        == [Launch, Send(jid, text, true), Take(0), Complete(0, cmd, Done)] + rest;
  }

  /** Any other verdict, success included, can meet a send that a bridge has completed. */
  lemma MayBeSent(jid: string, text: string, v: Verdict)
    requires jid != "" && v != Refused
    ensures var steps := Witness(jid, text, v);
            && Possible(START, steps)
            && End(1, v) in After(START, steps).client.ends && Cmd(1, jid, text) in After(START, steps).performed
  {
    EndingWorks(jid, text, v);
    ReachCompleted(jid, text, Ending(v));
    hide *;
    WitnessIs(jid, text, v);
  }

  lemma WitnessIs(jid: string, text: string, v: Verdict)
    ensures Witness(jid, text, v)
            == [Launch, Send(jid, text, true), Take(0), Complete(0, Cmd(1, jid, text), Done)] + Ending(v)
  {
  }

  lemma EndingWorks(jid: string, text: string, v: Verdict)
    requires v != Refused
    ensures var s := Completed(jid, text);
            Possible(s, Ending(v)) && End(1, v) in After(s, Ending(v)).client.ends
                && Cmd(1, jid, text) in After(s, Ending(v)).performed
  {
    var s := Completed(jid, text);
    if v.WriteFailed? || v.Interrupted? {
      LastStep(s, Ending(v)[0], v);
    } else {
      var s1 := Next(s, WriteDone(1));
      if v.TimedOut? {
        LastStep(s1, Expire(1), v);
        OneStep(s, WriteDone(1), [Expire(1)]);
        InARow(WriteDone(1), Expire(1), Expire(1));
      } else {
        var step := if v.Success? then Read else Disconnect;
        var s2 := Next(s1, step);
        LastStep(s2, Return(1), v);
        OneStep(s1, step, [Return(1)]);
        OneStep(s, WriteDone(1), [step] + [Return(1)]);
        InARow(WriteDone(1), step, Return(1));
      }
    }
  }

  lemma InARow(a: Step, b: Step, c: Step)
    ensures [a] + [b] == [a, b] && [a] + ([b] + [c]) == [a, b, c]
  {
  }

  lemma LastStep(s: Sys, step: Step, v: Verdict)
    requires Enabled(s, step) && Next(s, step).client.ends == [End(1, v)]
    ensures Possible(s, [step]) && After(s, [step]) == Next(s, step) && End(1, v) in After(s, [step]).client.ends
  {
    OneStep(s, step, []);
    assert [step] + [] == [step];
    hide Enabled, Next;
  }

  lemma OneStep(s: Sys, a: Step, rest: seq<Step>)
    requires Enabled(s, a)
    ensures Possible(s, [a] + rest) == Possible(Next(s, a), rest)
    ensures Possible(s, [a] + rest) ==> After(s, [a] + rest) == After(Next(s, a), rest)
  {
    hide Enabled, Next;
    assert ([a] + rest)[1..] == rest;
  }

  // ----- what decides how a call ends -------------------------------------------------------------------

  /** A call under way, left to itself, ends in the given verdict, and no other call ends meanwhile. */
  ghost predicate EndsIn(s: Sys, id: Id, v: Verdict) {
    && id in s.client.calls && !s.client.calls[id].phase.Ended?
    && Possible(s, WayOut(s.client, id))
    && After(s, WayOut(s.client, id)).client.ends == s.client.ends + [End(id, v)]
  }

  lemma LeftToItself(s: Sys, id: Id, v: Verdict)
    requires id in s.client.calls && !s.client.calls[id].phase.Ended?
    requires match s.client.calls[id].future
             case Unset => v == TimedOut
             case Result(ok) => v == if ok then Success else Refused
             case Failed => v == Disconnected
             case Dropped => v == Interrupted
    ensures EndsIn(s, id, v)
  {
    var call := s.client.calls[id];
    var last := if call.future.Unset? then Expire(id) else Return(id);
    var s1 := if call.phase.Writing? then Next(s, WriteDone(id)) else s;
    assert Enabled(s1, last) && Next(s1, last).client.ends == s1.client.ends + [End(id, v)];
    OneStep(s1, last, []);
    assert [last] + [] == [last];
    if call.phase.Writing? {
      OneStep(s, WriteDone(id), [last]);
      assert [WriteDone(id)] + [last] == [WriteDone(id), last];
    }
    hide Enabled, Next;
  }

  /** In every run: once the reply to a call under way has been read, the call succeeds if the reply says so, and is
      refused if it does not. */
  lemma ReplyDecides(steps: seq<Step>, id: Id, ok: bool)
    requires Possible(START, steps) && Enabled(After(START, steps), Read)
    requires var s := After(START, steps);
             && s.bridges[s.client.stdin.value].outbox[0] == Reply(id, ok)
             && id in s.client.calls && !s.client.calls[id].phase.Ended? && s.client.calls[id].future.Unset?
    ensures EndsIn(Next(After(START, steps), Read), id, if ok then Success else Refused)
  {
    StartOk();
    RunOk(START, steps);
    var s := After(START, steps);
    hide Possible, After;
    assert id in s.client.pending;
    LeftToItself(Next(s, Read), id, if ok then Success else Refused);
    hide EndsIn;
  }

  /** In every run: once the bridge is gone, a call that no reply had settled ends as disconnected. */
  lemma LossDecides(steps: seq<Step>, id: Id)
    requires Possible(START, steps) && Enabled(After(START, steps), Disconnect)
    requires var s := After(START, steps);
             id in s.client.calls && !s.client.calls[id].phase.Ended? && s.client.calls[id].future.Unset?
    ensures EndsIn(Next(After(START, steps), Disconnect), id, Disconnected)
  {
    StartOk();
    RunOk(START, steps);
    var s := After(START, steps);
    hide Possible, After;
    assert id in s.client.pending;
    LeftToItself(Next(s, Disconnect), id, Disconnected);
    hide EndsIn;
  }

  // ----- what stays pending -------------------------------------------------------------------------------

  /** What waits for a reply is under way and unsettled, or its caller was cancelled. */
  ghost predicate NoneForgotten(c: Client) {
    forall id | id in c.pending ::
      id in c.calls && ((!c.calls[id].phase.Ended? && c.calls[id].future.Unset?)
          || c.calls[id].phase == Ended(Interrupted))
  }

  lemma StepForgets(s: Sys, step: Step)
    requires NoneForgotten(s.client) && Enabled(s, step)
    ensures NoneForgotten(Next(s, step).client)
  {
  }

  lemma {:induction false} RunForgets(s: Sys, steps: seq<Step>)
    requires NoneForgotten(s.client) && Possible(s, steps)
    ensures NoneForgotten(After(s, steps).client)
    decreases |steps|
  {
    hide NoneForgotten, Enabled, Next;
    if steps != [] {
      StepForgets(s, steps[0]);
      RunForgets(Next(s, steps[0]), steps[1..]);
    }
  }

  /** In every run exactly the calls that still await their reply are pending, and perhaps some whose callers were
      cancelled: replies, timeouts and failed writes leave nothing behind. */
  lemma PendingIsUnderWay(steps: seq<Step>, id: Id)
    requires Possible(START, steps)
    ensures var c := After(START, steps).client;
            && (id in c.calls && !c.calls[id].phase.Ended? ==> (id in c.pending <==> c.calls[id].future.Unset?))
            && (id in c.calls && c.calls[id].phase.Ended? && id in c.pending ==>
                c.calls[id].phase.verdict == Interrupted)
            && (id in c.pending ==> id in c.calls)
  {
    StartOk();
    RunOk(START, steps);
    RunForgets(START, steps);
    hide Possible, After;
  }
}
