/** What the owner approved is not lost: hand-off files stay until they are delivered or cannot be, and an approved
    message leaves once the drivers have looked at it without trouble. */
module ApprovalKept {
  import opened Wrappers
  import opened ApprovalSpec
  import opened ApprovalBudget
  import opened ApprovalTrust
  import opened ApprovalWarrant
  import opened Lines
  import opened Names
  import opened Seqs

  // ----- one step -----------------------------------------------------------------------------

  /** Reasons to throw a hand-off file away without sending it. */
  predicate Refusable(s: Sys, f: Outgoing, e: Env) {
    || Strip(f.token) == "" || Strip(f.token) != s.token
    || Strip(f.thread) == "" || Strip(f.text) == ""
    || !e.known
  }

  /** The record that a file was written for. */
  function OwnerOf(s: Sys, file: string): RecId {
    if file in s.past.filedFor then s.past.filedFor[file] else file
  }

  /** A look at a file that may be sent: it is sent and goes, or the send fails and everything stays as it was. */
  lemma LookAtGoodFile(s: Sys, file: string, e: Env)
    requires file in s.outbox && !Refusable(s, s.outbox[file], e)
    ensures var t, f := Next(s, LookAtFile(file, e)), s.outbox[file];
            if e.outcome.Fine? then
              && t.out == s.out + [ByBridge(OwnerOf(s, file), Strip(f.thread), f.text)]
              && t.outbox == (if e.crash then s.outbox else s.outbox - {file})
            else t == s
  {
    hide Strip;
  }

  /** A look at a file that must not be sent. */
  lemma LookAtBadFile(s: Sys, file: string, e: Env)
    requires file in s.outbox && Refusable(s, s.outbox[file], e)
    ensures var t := Next(s, LookAtFile(file, e));
            t.out == s.out && t.outbox == if e.crash then s.outbox else s.outbox - {file}
  {
    hide Strip;
  }

  /** Nothing is taken from the outbox, and nothing that left comes back. */
  predicate SameSpool(s: Sys, t: Sys) {
    && t.token == s.token && s.out <= t.out
    && (forall f | f in s.outbox :: f in t.outbox && t.outbox[f] == s.outbox[f] && OwnerOf(t, f) == OwnerOf(s, f))
  }

  lemma SpoolTrans(s: Sys, t: Sys, u: Sys)
    requires SameSpool(s, t) && SameSpool(t, u)
    ensures SameSpool(s, u)
  {
    hide OwnerOf;
  }

  lemma DraftWriteSpool(s: Sys, p: DraftPath, d: Draft, crash: bool)
    ensures SameSpool(s, SetDraft(s, p, d, crash))
  {
  }

  lemma RecordWriteSpool(s: Sys, id: RecId, r: Record, crash: bool)
    ensures SameSpool(s, SetRecord(s, id, r, crash))
  {
  }

  lemma StageSpool(s: Sys, channel: Channel, action: Action, source: Option<DraftPath>, ident: string)
    ensures SameSpool(s, Stage(s, channel, action, source, ident))
  {
    hide FirstFree, IsFirstFree;
  }

  lemma MoveSpool(s: Sys, d: Draft, e: Delivery)
    ensures SameSpool(s, Kept(s, d)) && SameSpool(s, Deliver(s, e))
  {
    hide Account;
  }

  lemma FiledSpool(s: Sys, id: RecId, action: Action, ident: string)
    requires action.TextAction?
    ensures SameSpool(s, Filed(s, id, action, ident))
  {
    hide Strip, IsFirstFree;
    assert FirstFree(s.outbox.Keys, ident, 1) !in s.outbox;
    hide FirstFree;
  }

  lemma HandoffSpool(s: Sys, id: RecId, draft: Draft)
    ensures SameSpool(s, s.(drafts := s.drafts[Handoff(id) := draft]))
  {
  }

  lemma ScriptSpool(s: Sys, p: DraftPath, d: Draft, gate: Gate, e: Env)
    requires !gate.Queue?
    ensures SameSpool(s, RunScript(s, p, d, gate, e))
  {
    hide *;
    RunScriptCases(s, p, d, gate, e);
    var sent, kept := Deliver(s, Asked(p, d, gate)), Kept(s, d);
    MoveSpool(s, d, Asked(p, d, gate));
    DraftWriteSpool(sent, p, d.(state := Sent, retries := 0), e.crash);
    DraftWriteSpool(kept, p, d.(state := Drafted, retries := 0), e.crash);
    DraftWriteSpool(s, p, d.(state := PendingParent, retries := d.retries + 1), e.crash);
    DraftWriteSpool(s, p, d.(state := Failed), e.crash);
    SpoolTrans(s, sent, SetDraft(sent, p, d.(state := Sent, retries := 0), e.crash));
    SpoolTrans(s, kept, SetDraft(kept, p, d.(state := Drafted, retries := 0), e.crash));
  }

  lemma SpoolSelf(s: Sys)
    ensures SameSpool(s, s)
  {
  }

  lemma DraftLookSpool(s: Sys, p: DraftPath, e: Env)
    ensures SameSpool(s, ProcessDraft(s, p, e))
  {
    SpoolSelf(s);
    if p in s.drafts {
      ProcessDraftCases(s, p, e);
      hide *;
      var d := s.drafts[p];
      DraftWriteSpool(s, p, d.(state := Failed), e.crash);
      var action := MailAction(d.letter.(from := Account(d.letter.from)));
      var mid := Stage(s, Email, action, Some(p), e.ident);
      StageSpool(s, Email, action, Some(p), e.ident);
      DraftWriteSpool(mid, p, d.(state := PendingApproval), e.crash);
      SpoolTrans(s, mid, SetDraft(mid, p, d.(state := PendingApproval), e.crash));
      if !Gated(s, d, e).Queue? {
        ScriptSpool(s, p, d, Gated(s, d, e), e);
      }
    }
  }

  lemma EmailSpool(s: Sys, id: RecId, r: Record, e: Env)
    ensures SameSpool(s, DeliverEmail(s, id, r, e))
  {
    RecordWriteSpool(s, id, r.(status := Failure), e.crash);
    if r.action.MailAction? {
      var draft := Draft(HandedOver(r.action.letter), true, s.token, New, 0);
      var mid := s.(drafts := s.drafts[Handoff(id) := draft]);
      HandoffSpool(s, id, draft);
      RecordWriteSpool(mid, id, r.(status := Dispatched), e.crash);
      SpoolTrans(s, mid, SetRecord(mid, id, r.(status := Dispatched), e.crash));
    }
    hide SameSpool, SetRecord, HandedOver;
  }

  lemma InlineSpool(s: Sys, id: RecId, r: Record, e: Env)
    ensures SameSpool(s, DeliverInline(s, id, r, e))
  {
    RecordWriteSpool(s, id, r.(status := Failure), e.crash);
    if r.action.TextAction? {
      var d := Inline(id, Strip(r.action.thread), r.action.text);
      MoveSpool(s, Draft(Letter("", [], [], [], "", "", ""), false, "", New, 0), d);
      RecordWriteSpool(Deliver(s, d), id, r.(status := Delivered), e.crash);
      SpoolTrans(s, Deliver(s, d), SetRecord(Deliver(s, d), id, r.(status := Delivered), e.crash));
    }
    hide SameSpool, SetRecord, Deliver, Strip;
  }

  lemma WhatsAppSpool(s: Sys, id: RecId, r: Record, e: Env)
    ensures SameSpool(s, DeliverWhatsApp(s, id, r, e))
  {
    hide *;
    WhatsAppCases(s, id, r, e);
    RecordWriteSpool(s, id, r.(status := Failure), e.crash);
    if r.action.TextAction? {
      var mid := Filed(s, id, r.action, e.ident);
      FiledSpool(s, id, r.action, e.ident);
      RecordWriteSpool(mid, id, r.(status := Dispatched), e.crash);
      SpoolTrans(s, mid, SetRecord(mid, id, r.(status := Dispatched), e.crash));
    }
  }

  lemma NotifySpool(s: Sys, id: RecId, r: Record, e: Env)
    ensures SameSpool(s, NotifyRejected(s, id, r, e))
  {
    var s1 := s.(notifiedNow := s.notifiedNow + {id}, notices := s.notices + [id]);
    var s2 := if r.channel.Email? && r.source.Some? && r.source.value in s.drafts
              then s1.(drafts := s1.drafts[r.source.value := s1.drafts[r.source.value].(state := Failed)]) else s1;
    assert SameSpool(s, s2);
    RecordWriteSpool(s2, id, r.(notified := true), e.crash);
    SpoolTrans(s, s2, SetRecord(s2, id, r.(notified := true), e.crash));
    hide SameSpool, SetRecord;
  }

  lemma RecordLookSpool(s: Sys, id: RecId, e: Env)
    ensures SameSpool(s, ProcessRecord(s, id, e))
  {
    SpoolSelf(s);
    if id in s.records {
      var r := s.records[id];
      assert SameSpool(s, s.(announced := s.announced + {id}));
      hide *;
      ProcessRecordCases(s, id, e);
      NotifySpool(s, id, r, e);
      EmailSpool(s, id, r, e);
      InlineSpool(s, id, r, e);
      WhatsAppSpool(s, id, r, e);
      RecordWriteSpool(s, id, r.(status := Failure), e.crash);
    } else {
      hide SameSpool;
    }
  }

  /** No step but a look at the file takes anything from it, and only a boot changes the token. */
  lemma OtherStepSpool(s: Sys, step: Step)
    requires !step.LookAtFile? && !step.Boot?
    ensures SameSpool(s, Next(s, step))
  {
    match step
    case LookAtDraft(p, e) => DraftLookSpool(s, p, e); hide ProcessDraft, SameSpool;
    case LookAtRecord(id, e) => RecordLookSpool(s, id, e); hide ProcessRecord, SameSpool;
    case StageLine(channel, thread, text, ident) =>
      StageSpool(s, channel, TextAction(thread, text), None, ident);
      hide Stage, SameSpool;
    case _ =>
  }

  lemma OtherFileSpool(s: Sys, file: string, e: Env, f: string)
    requires f in s.outbox && f != file
    ensures var t := Next(s, LookAtFile(file, e));
            t.token == s.token && s.out <= t.out && f in t.outbox && t.outbox[f] == s.outbox[f]
                && OwnerOf(t, f) == OwnerOf(s, f)
  {
    if file in s.outbox {
      OutboxCases(s, file, e);
    }
    hide ProcessOutbox, Strip;
  }

  /** In every step, a hand-off file goes only because it was delivered by this very step, thread and text, or because
      it cannot be: the token is not the present one, there is nothing to say or nobody to say it to. */
  lemma FileGoesFor(s: Sys, step: Step, file: string)
    requires file in s.outbox
    ensures var t, f := Next(s, step), s.outbox[file];
            if file in t.outbox then t.outbox[file] == f
            else
              && step.LookAtFile? && step.file == file && !step.env.crash
              && (|| (step.env.outcome.Fine? && t.out == s.out + [ByBridge(OwnerOf(s, file), Strip(f.thread), f.text)])
                  || Strip(f.token) == "" || Strip(f.token) != s.token
                  || Strip(f.thread) == "" || Strip(f.text) == ""
                  || !step.env.known)
  {
    if step.LookAtFile? {
      if step.file != file {
        OtherFileSpool(s, step.file, step.env, file);
      } else if Refusable(s, s.outbox[file], step.env) {
        LookAtBadFile(s, file, step.env);
      } else {
        LookAtGoodFile(s, file, step.env);
      }
      hide Next, Strip;
    } else if !step.Boot? {
      OtherStepSpool(s, step);
      hide Next, Strip;
    }
  }

  // ----- whole runs -----------------------------------------------------------------------------

  /** The file is in the outbox, for that record, with the present token. */
  predicate Waits(s: Sys, file: string, id: RecId, f: Outgoing) {
    file in s.outbox && s.outbox[file] == f && OwnerOf(s, file) == id && Strip(f.token) == s.token
  }

  /** The kernel does not boot meanwhile, and no look at the file finds the recipient unknown. */
  predicate Undisturbed(steps: seq<Step>, file: string) {
    forall i | 0 <= i < |steps| ::
      !steps[i].Boot? && (steps[i].LookAtFile? && steps[i].file == file ==> steps[i].env.known)
  }

  predicate DeliveredIn(out: seq<Delivery>, from: nat, id: RecId, f: Outgoing) {
    exists k :: from <= k < |out| && out[k] == ByBridge(id, Strip(f.thread), f.text)
  }

  lemma StepWaits(s: Sys, step: Step, file: string, id: RecId, f: Outgoing)
    requires Waits(s, file, id, f) && Strip(f.token) != "" && Strip(f.thread) != "" && Strip(f.text) != ""
    requires !step.Boot? && (step.LookAtFile? && step.file == file ==> step.env.known)
    ensures var t := Next(s, step);
            s.out <= t.out && (Waits(t, file, id, f) || t.out == s.out + [ByBridge(id, Strip(f.thread), f.text)])
  {
    if step.LookAtFile? {
      if step.file != file {
        OtherFileSpool(s, step.file, step.env, file);
      } else {
        LookAtGoodFile(s, file, step.env);
      }
    } else {
      OtherStepSpool(s, step);
    }
    hide Next, Strip, OwnerOf;
  }

  lemma OutGrows(s: Sys, step: Step)
    ensures s.out <= Next(s, step).out
  {
    if step.LookAtFile? && step.file in s.outbox {
      OutboxCases(s, step.file, step.env);
      hide ProcessOutbox, Strip;
    } else if !step.LookAtFile? && !step.Boot? {
      OtherStepSpool(s, step);
      hide Next, OwnerOf;
    }
  }

  lemma {:induction false} RunOutGrows(s: Sys, steps: seq<Step>)
    ensures s.out <= After(s, steps).out
    decreases |steps|
  {
    if steps != [] {
      OutGrows(s, steps[0]);
      RunOutGrows(Next(s, steps[0]), steps[1..]);
      hide Next;
    }
  }

  /** In every run, as long as the kernel does not boot and the recipient is known whenever the file is looked at: a
      hand-off file is still there, or its thread and text have been delivered for its record. */
  lemma {:induction false} KeptOrDelivered(s: Sys, steps: seq<Step>, file: string, id: RecId, f: Outgoing)
    requires Waits(s, file, id, f) && Strip(f.token) != "" && Strip(f.thread) != "" && Strip(f.text) != ""
    requires Undisturbed(steps, file)
    ensures Waits(After(s, steps), file, id, f) || DeliveredIn(After(s, steps).out, |s.out|, id, f)
    decreases |steps|
  {
    hide Waits, Strip, Next;
    if steps != [] {
      var t := Next(s, steps[0]);
      StepWaits(s, steps[0], file, id, f);
      assert After(s, steps) == After(t, steps[1..]);
      RunOutGrows(t, steps[1..]);
      if Waits(t, file, id, f) {
        KeptOrDelivered(t, steps[1..], file, id, f);
      } else {
        assert After(s, steps).out[|s.out|] == ByBridge(id, Strip(f.thread), f.text);
      }
    }
  }

  // ----- what an approval leads to ------------------------------------------------------------------

  /** An approved WhatsApp record that says something to a known thread. */
  predicate ReadyToSay(s: Sys, id: RecId, e: Env) {
    && id in s.records && s.records[id].status.Approved?
    && s.records[id].action.TextAction? && Strip(s.records[id].action.thread) != ""
        && Strip(s.records[id].action.text) != ""
    && e.known
  }

  /** The look that hands a WhatsApp record over puts its thread and text into a file of its own, with the token. */
  lemma HandoverFiles(s: Sys, id: RecId, e: Env) returns (file: string)
    requires ReadyToSay(s, id, e) && s.records[id].channel.WhatsApp?
    ensures var t, a := Next(s, LookAtRecord(id, e)), s.records[id].action;
            && file !in s.outbox && t.outbox == s.outbox[file := Outgoing(Strip(a.thread), a.text, s.token)]
            && OwnerOf(t, file) == id && t.token == s.token && t.out == s.out
            && (!e.crash ==> t.records == s.records[id := s.records[id].(status := Dispatched)])
  {
    file := FirstFree(s.outbox.Keys, e.ident, 1);
    assert file !in s.outbox.Keys;
    hide Strip, FirstFree, IsFirstFree;
  }

  /** In every run after that: the message has been delivered, or its file is still there to be sent. */
  lemma ApprovedTextIsNotLost(s: Sys, id: RecId, e: Env, steps: seq<Step>) returns (file: string)
    requires ReadyToSay(s, id, e) && s.records[id].channel.WhatsApp? && s.token != "" && Strip(s.token) == s.token
    ensures var t := After(s, [LookAtRecord(id, e)] + steps);
            var f := Outgoing(Strip(s.records[id].action.thread), s.records[id].action.text, s.token);
            Undisturbed(steps, file) ==> Waits(t, file, id, f) || DeliveredIn(t.out, |s.out|, id, f)
  {
    file := HandoverFiles(s, id, e);
    var f := Outgoing(Strip(s.records[id].action.thread), s.records[id].action.text, s.token);
    StripTwice(s.records[id].action.thread);
    var t := Next(s, LookAtRecord(id, e));
    assert ([LookAtRecord(id, e)] + steps)[1..] == steps;
    assert Waits(t, file, id, f);
    if Undisturbed(steps, file) {
      hide Next, Strip, Waits;
      KeptOrDelivered(t, steps, file, id, f);
    }
    hide Next, Strip;
  }

  /** And a look at that file that goes well delivers it. */
  lemma ApprovedTextLeaves(s: Sys, id: RecId, e: Env, later: Env) returns (file: string)
    requires ReadyToSay(s, id, e) && s.records[id].channel.WhatsApp? && s.token != "" && Strip(s.token) == s.token
    requires later.known && later.outcome.Fine?
    ensures var a := s.records[id].action;
            After(s, [LookAtRecord(id, e), LookAtFile(file, later)]).out
                == s.out + [ByBridge(id, Strip(a.thread), a.text)]
  {
    file := HandoverFiles(s, id, e);
    var t := Next(s, LookAtRecord(id, e));
    StripTwice(s.records[id].action.thread);
    LookAtGoodFile(t, file, later);
    TwoSteps(s, LookAtRecord(id, e), LookAtFile(file, later));
    hide Next, Strip, After;
  }

  lemma TwoSteps(s: Sys, a: Step, b: Step)
    ensures After(s, [a, b]) == Next(Next(s, a), b)
  {
    assert [a, b][1..] == [b] && [b][1..] == [];
    hide Next;
    assert After(Next(s, a), [b]) == After(Next(Next(s, a), b), []);
  }

  /** iMessage and Slack: the look itself delivers, if and only if the record can be said, the thread is known and the
      send succeeds; otherwise the record fails. */
  lemma InlineLeavesIff(s: Sys, id: RecId, e: Env)
    requires id in s.records && s.records[id].status.Approved?
             && (s.records[id].channel.IMessage? || s.records[id].channel.Slack?)
    ensures var t, r := Next(s, LookAtRecord(id, e)), s.records[id];
            if ReadyToSay(s, id, e) && e.outcome.Fine? then
              && t.out == s.out + [Inline(id, Strip(r.action.thread), r.action.text)]
              && (!e.crash ==> t.records == s.records[id := r.(status := Delivered)])
            else t.out == s.out && (!e.crash ==> t.records == s.records[id := r.(status := Failure)])
  {
    hide Strip;
  }

  /** The owner's approval of a letter sends it, whatever the mode: the record becomes a hand-off draft, and a look at
      that sends the letter as approved, but for its bcc. */
  lemma ApprovedLetterIsSent(s: Sys, id: RecId, e: Env, later: Env)
    requires id in s.records && s.records[id].status.Approved? && s.records[id].channel.Email?
             && s.records[id].action.MailAction?
    requires var letter := s.records[id].action.letter;
             Account(letter.from) != "" && (letter.to != [] || letter.inReplyTo != "")
    requires s.token != "" && Strip(s.token) == s.token && later.known && later.outcome.Fine?
    ensures var t := After(s, [LookAtRecord(id, e), LookAtDraft(Handoff(id), later)]);
            t.out == s.out + [ByMail(Handoff(id), Addressed(HandedOver(s.records[id].action.letter)), ByToken)]
  {
    var t := Next(s, LookAtRecord(id, e));
    HandoverDrafts(s, id, e);
    TokenSends(t, Handoff(id), later);
    TwoSteps(s, LookAtRecord(id, e), LookAtDraft(Handoff(id), later));
    hide Next, Strip, After, Account;
  }

  lemma HandoverDrafts(s: Sys, id: RecId, e: Env)
    requires id in s.records && s.records[id].status.Approved? && s.records[id].channel.Email?
             && s.records[id].action.MailAction?
    requires var letter := s.records[id].action.letter;
             Account(letter.from) != "" && (letter.to != [] || letter.inReplyTo != "")
    ensures var t := Next(s, LookAtRecord(id, e));
            && t.out == s.out && t.token == s.token
            && t.drafts == s.drafts[Handoff(id) :=
                Draft(HandedOver(s.records[id].action.letter), true, s.token, New, 0)]
            && (!e.crash ==> t.records == s.records[id := s.records[id].(status := Dispatched)])
  {
    BlankFrom(s.records[id].action.letter.from);
    hide Account;
  }

  lemma BlankFrom(from: string)
    ensures Account(from) != "" ==> from != ""
  {
  }

  lemma TokenSends(s: Sys, p: DraftPath, e: Env)
    requires p in s.drafts && e.known && e.outcome.Fine?
    requires var d := s.drafts[p];
             && d.wantSend && d.state.New? && Account(d.letter.from) != ""
                 && (d.letter.to != [] || d.letter.inReplyTo != "")
             && Strip(d.token) != "" && Strip(d.token) == s.token
    ensures Next(s, LookAtDraft(p, e)).out == s.out + [ByMail(p, Addressed(s.drafts[p].letter), ByToken)]
  {
    hide Account, Strip;
  }

  // ----- what a look at a draft leads to ------------------------------------------------------------

  /** The draft is finished, or there is nothing in it to act on yet. */
  predicate Untouched(d: Draft) {
    Terminal(d.state) || (d.letter.to == [] && d.letter.inReplyTo == "")
  }

  predicate Deliverable(d: Draft, e: Env) {
    !Untouched(d) && Account(d.letter.from) != "" && e.known
  }

  /** What may send a draft there and then. */
  predicate MaySend(s: Sys, d: Draft, e: Env) {
    d.wantSend && ((Strip(d.token) != "" && Strip(d.token) == s.token) || e.mode.Yes?
                   || (e.mode.Ask? && e.allowlisted && d.letter.inReplyTo == ""))
  }

  /** The letter goes to the owner. */
  predicate MustAsk(s: Sys, d: Draft, e: Env) {
    d.wantSend && e.mode.Ask? && !MaySend(s, d, e)
  }

  lemma GateIs(s: Sys, d: Draft, e: Env)
    ensures (Gated(s, d, e).Send? <==> MaySend(s, d, e)) && (Gated(s, d, e).Queue? <==> MustAsk(s, d, e))
  {
    hide Strip;
  }

  lemma DraftCase(s: Sys, p: DraftPath, e: Env)
    requires p in s.drafts
    ensures var t, d := Next(s, LookAtDraft(p, e)), s.drafts[p];
            t == if Untouched(d) then s
                 else if !Deliverable(d, e) then SetDraft(s, p, d.(state := Failed), e.crash)
                 else if MustAsk(s, d, e)
                 then SetDraft(Stage(s, Email, MailAction(Addressed(d.letter)), Some(p), e.ident), p,
                               d.(state := PendingApproval), e.crash)
                 else RunScript(s, p, d, Gated(s, d, e), e)
  {
    GateIs(s, s.drafts[p], e);
    hide SetDraft, Stage, RunScript, Gated, Account, MustAsk;
  }

  lemma WriteIs(s: Sys, p: DraftPath, d: Draft, crash: bool)
    ensures var t := SetDraft(s, p, d, crash);
            t.out == s.out && t.records == s.records && t.saved == s.saved && (!crash ==> t.drafts == s.drafts[p := d])
  {
  }

  lemma StageIs(s: Sys, action: Action, p: DraftPath, ident: string)
    ensures var t := Stage(s, Email, action, Some(p), ident);
            && t.out == s.out && t.saved == s.saved && t.drafts == s.drafts && t.records != s.records
            && exists id :: id !in s.records
                && t.records == s.records[id := Record(Email, Pending, action, Some(p), false)]
  {
    var id := FirstFree(s.records.Keys, ident, 1);
    assert id !in s.records.Keys;
    hide FirstFree, IsFirstFree;
  }

  /** What Mail.app is asked for, and what becomes of the draft. */
  lemma ScriptIs(s: Sys, p: DraftPath, d: Draft, gate: Gate, e: Env)
    requires !gate.Queue?
    ensures var t := RunScript(s, p, d, gate, e);
            && t.records == s.records
            && t.out == (if gate.Send? && e.outcome.Fine? then s.out + [Asked(p, d, gate)] else s.out)
            && t.saved == (if !gate.Send? && e.outcome.Fine? then s.saved + [Addressed(d.letter)] else s.saved)
            && (!e.crash ==> t.drafts == s.drafts[p :=
                  if e.outcome.Fine? then d.(state := if gate.Send? then Sent else Drafted, retries := 0)
                  else if e.outcome.ParentMissing? && d.letter.inReplyTo != "" && d.retries < 3
                  then d.(state := PendingParent, retries := d.retries + 1)
                  else d.(state := Failed)])
  {
    hide Account, RootOf;
    match e.outcome
    case Fine =>
    case ParentMissing =>
    case OtherError =>
  }

  /** A look sends the letter if and only if it may and Mail.app does it; it queues the letter for the owner if and only
      if the draft asks to be sent, the mode is `ask` and nothing else lets it go; it saves the letter if and only if it
      is neither to be sent nor to be queued. What is queued is this very letter, as a new pending record that knows its
      draft; what is saved is this letter. */
  lemma LookDecides(s: Sys, p: DraftPath, e: Env)
    requires p in s.drafts
    ensures var t, d := Next(s, LookAtDraft(p, e)), s.drafts[p];
            && (t.out != s.out <==> Deliverable(d, e) && MaySend(s, d, e) && e.outcome.Fine?)
            && (t.records != s.records <==> Deliverable(d, e) && MustAsk(s, d, e))
            && (t.saved != s.saved <==> Deliverable(d, e) && !MaySend(s, d, e) && !MustAsk(s, d, e) && e.outcome.Fine?)
            && (t.records != s.records ==>
                  exists id :: id !in s.records
                    && t.records == s.records[id :=
                        Record(Email, Pending, MailAction(Addressed(d.letter)), Some(p), false)])
            && (t.saved != s.saved ==> t.saved == s.saved + [Addressed(d.letter)])
  {
    hide *;
    var d := s.drafts[p];
    var action := MailAction(Addressed(d.letter));
    DraftCase(s, p, e);
    DeliverableParts(d, e);
    GateIs(s, d, e);
    MustParts(s, d, e);
    WriteIs(s, p, d.(state := Failed), e.crash);
    StageIs(s, action, p, e.ident);
    WriteIs(Stage(s, Email, action, Some(p), e.ident), p, d.(state := PendingApproval), e.crash);
    if !Gated(s, d, e).Queue? {
      ScriptIs(s, p, d, Gated(s, d, e), e);
    }
  }

  lemma DeliverableParts(d: Draft, e: Env)
    ensures Deliverable(d, e) ==> !Untouched(d)
  {
    hide Untouched, Account;
  }

  lemma MustParts(s: Sys, d: Draft, e: Env)
    ensures MustAsk(s, d, e) ==> !MaySend(s, d, e)
  {
    hide MaySend;
  }

  /** The state that a look without a crash leaves a draft in. A reply whose parent is missing is tried again at most
      three times. */
  lemma DraftEndsAs(s: Sys, p: DraftPath, e: Env)
    requires p in s.drafts && !e.crash
    ensures var t, d := Next(s, LookAtDraft(p, e)), s.drafts[p];
            && p in t.drafts && t.drafts[p].letter == d.letter
            && (Untouched(d) ==> t.drafts[p] == d)
            && (!Untouched(d) && !Deliverable(d, e) ==> t.drafts[p].state == Failed)
            && (t.out != s.out ==> t.drafts[p].state == Sent)
            && (t.records != s.records ==> t.drafts[p].state == PendingApproval)
            && (t.saved != s.saved ==> t.drafts[p].state == Drafted)
            && (Deliverable(d, e) && t.out == s.out && t.records == s.records && t.saved == s.saved ==>
                  if e.outcome.ParentMissing? && d.letter.inReplyTo != "" && d.retries < 3
                  then t.drafts[p].state == PendingParent && t.drafts[p].retries == d.retries + 1
                  else t.drafts[p].state == Failed)
  {
    hide *;
    var d := s.drafts[p];
    var action := MailAction(Addressed(d.letter));
    DraftCase(s, p, e);
    DeliverableParts(d, e);
    GateIs(s, d, e);
    WriteIs(s, p, d.(state := Failed), e.crash);
    StageIs(s, action, p, e.ident);
    WriteIs(Stage(s, Email, action, Some(p), e.ident), p, d.(state := PendingApproval), e.crash);
    if !Gated(s, d, e).Queue? {
      ScriptIs(s, p, d, Gated(s, d, e), e);
    }
  }

  /** An address that has been looked up is looked up the same way again. */
  lemma AccountTwice(from: string)
    ensures Account(Account(from)) == Account(from)
  {
    var t := Strip(from);
    StripEnds(from);
    hide Strip;
    StripIsFixed(Lower(t));
    assert Lower(Lower(t)) == Lower(t);
  }

  lemma FourSteps(s: Sys, a: Step, b: Step, c: Step, d: Step)
    ensures After(s, [a, b, c, d]) == After(Next(Next(s, a), b), [c, d])
  {
    assert [a, b, c, d][1..] == [b, c, d] && [b, c, d][1..] == [c, d];
    hide Next;
    assert After(Next(s, a), [b, c, d]) == After(Next(Next(s, a), b), [c, d]);
  }

  lemma ApproveIs(s: Sys, id: RecId, action: Action)
    requires id in s.records
    ensures var t := Next(s, Approve(id, action));
            && t.out == s.out && t.token == s.token && t.drafts == s.drafts
            && t.records == s.records[id := s.records[id].(status := Approved, action := action)]
  {
  }

  /** From end to end: a draft that the mode does not let go is queued, and once the owner approves it as it is, two
      looks that go well send it, whatever the mode, with everything but its bcc. */
  lemma AskedIsSentOnceApproved(s: Sys, p: DraftPath, e: Env, handover: Env, later: Env) returns (id: RecId)
    requires p in s.drafts && Deliverable(s.drafts[p], e) && MustAsk(s, s.drafts[p], e)
    requires s.token != "" && Strip(s.token) == s.token && later.known && later.outcome.Fine?
    ensures var letter := Addressed(s.drafts[p].letter);
            var steps := [LookAtDraft(p, e), Approve(id, MailAction(letter)), LookAtRecord(id, handover),
                LookAtDraft(Handoff(id), later)];
            After(s, steps).out == s.out + [ByMail(Handoff(id), HandedOver(letter), ByToken)]
  {
    var d := s.drafts[p];
    var letter := Addressed(d.letter);
    var action := MailAction(letter);
    hide *;
    DraftCase(s, p, e);
    DeliverableParts(d, e);
    StageIs(s, action, p, e.ident);
    var queued := Stage(s, Email, action, Some(p), e.ident);
    id :| id !in s.records && queued.records == s.records[id := Record(Email, Pending, action, Some(p), false)];
    StageToken(s, action, p, e.ident);
    WriteIs(queued, p, d.(state := PendingApproval), e.crash);
    WriteToken(queued, p, d.(state := PendingApproval), e.crash);
    var s1 := Next(s, LookAtDraft(p, e));
    ApproveIs(s1, id, action);
    var s2 := Next(s1, Approve(id, action));
    LetterParts(d, e);
    ApprovedLetterIsSent(s2, id, handover, later);
    FourSteps(s, LookAtDraft(p, e), Approve(id, action), LookAtRecord(id, handover), LookAtDraft(Handoff(id), later));
  }

  lemma StageToken(s: Sys, action: Action, p: DraftPath, ident: string)
    ensures Stage(s, Email, action, Some(p), ident).token == s.token
  {
    hide FirstFree;
  }

  lemma WriteToken(s: Sys, p: DraftPath, d: Draft, crash: bool)
    ensures SetDraft(s, p, d, crash).token == s.token
  {
  }

  lemma LetterParts(d: Draft, e: Env)
    requires Deliverable(d, e)
    ensures var letter := Addressed(d.letter);
            && Account(letter.from) != "" && (letter.to != [] || letter.inReplyTo != "")
            && Addressed(HandedOver(letter)) == HandedOver(letter)
  {
    AccountTwice(d.letter.from);
    hide Account;
  }

  /** The state that a look without a crash leaves a record in, channel by channel. What cannot be handed over fails;
      what is not approved is never handed over, and what was decided long ago is left alone. */
  lemma RecordEndsAs(s: Sys, id: RecId, e: Env)
    requires id in s.records && !e.crash
    ensures var t, r := Next(s, LookAtRecord(id, e)), s.records[id];
            && id in t.records && t.records[id].action == r.action && t.records[id].source == r.source
            && (r.channel.Bash? || r.status in {Dispatched, Delivered, Failure} ==> t == s)
            && (!r.channel.Bash? && r.status.Pending? ==> t == s.(announced := s.announced + {id}))
            && (!r.channel.Bash? && r.status.Rejected? ==> t.records[id].status.Rejected?)
            && (!r.channel.Bash? && r.status.Approved? ==>
                  t.records[id].status ==
                  match r.channel
                  case Email =>
                    if r.action.TextAction? || r.action.letter.from == ""
                       || (r.action.letter.to == [] && r.action.letter.inReplyTo == "") then Failure else Dispatched
                  case WhatsApp => if ReadyToSay(s, id, e) then Dispatched else Failure
                  case Unknown => Failure
                  case _ => if ReadyToSay(s, id, e) && e.outcome.Fine? then Delivered else Failure)
  {
    hide Strip, FirstFree, IsFirstFree;
  }

  /** A rejection is told the first time the record is looked at, and its draft is given up. */
  lemma RejectionIsTold(s: Sys, id: RecId, e: Env)
    requires id in s.records && s.records[id].status.Rejected? && !s.records[id].channel.Bash?
    ensures var t, r := Next(s, LookAtRecord(id, e)), s.records[id];
            if r.notified || id in s.notifiedNow then t == s
            else
              && t.notices == s.notices + [id] && id in t.notifiedNow
              && (!e.crash ==> id in t.records && t.records[id].notified)
              && (r.channel.Email? && r.source.Some? && r.source.value in s.drafts ==>
                    r.source.value in t.drafts && t.drafts[r.source.value].state == Failed)
  {
  }

  /** A line that an outbound driver stages becomes a new pending record with that thread and text, and nothing
      leaves. */
  lemma LineIsQueued(s: Sys, channel: Channel, thread: string, text: string, ident: string) returns (id: RecId)
    ensures var t := Next(s, StageLine(channel, thread, text, ident));
            && id !in s.records && t.out == s.out && t.outbox == s.outbox && t.drafts == s.drafts && t.token == s.token
            && t.records == s.records[id := Record(channel, Pending, TextAction(thread, text), None, false)]
  {
    id := FirstFree(s.records.Keys, ident, 1);
    assert id !in s.records.Keys;
    hide FirstFree, IsFirstFree;
  }

  /** From end to end: a WhatsApp line that waits for the owner leaves once it is approved as it is and the record and
      its file have been looked at without trouble. */
  lemma LineIsSentOnceApproved(s: Sys, thread: string, text: string, ident: string, handover: Env, later: Env)
                               returns (id: RecId, file: string)
    requires Strip(thread) != "" && Strip(text) != "" && handover.known && later.known && later.outcome.Fine?
    requires s.token != "" && Strip(s.token) == s.token
    ensures var steps := [StageLine(WhatsApp, thread, text, ident), Approve(id, TextAction(thread, text)),
                          LookAtRecord(id, handover), LookAtFile(file, later)];
            After(s, steps).out == s.out + [ByBridge(id, Strip(thread), text)]
  {
    id := LineIsQueued(s, WhatsApp, thread, text, ident);
    var staged, action := StageLine(WhatsApp, thread, text, ident), TextAction(thread, text);
    var s1 := Next(s, staged);
    ApproveIs(s1, id, action);
    var s2 := Next(s1, Approve(id, action));
    hide Next, Strip, After;
    file := ApprovedTextLeaves(s2, id, handover, later);
    FourSteps(s, staged, Approve(id, action), LookAtRecord(id, handover), LookAtFile(file, later));
  }

  lemma RejectIs(s: Sys, id: RecId)
    requires id in s.records
    ensures var t := Next(s, Reject(id));
            && t.notices == s.notices && t.notifiedNow == s.notifiedNow && t.drafts == s.drafts && t.out == s.out
            && t.records == s.records[id := s.records[id].(status := Rejected)]
  {
  }

  /** A draft whose letter the owner rejects is given up, and the rejection is told. */
  lemma AskedIsGivenUpOnceRejected(s: Sys, id: RecId, p: DraftPath, e: Env)
    requires id in s.records && p in s.drafts && !e.crash && id !in s.notifiedNow
    requires var r := s.records[id]; r.channel.Email? && r.source == Some(p) && !r.notified
    ensures var t := After(s, [Reject(id), LookAtRecord(id, e)]);
            && t.notices == s.notices + [id] && t.out == s.out
            && p in t.drafts && t.drafts[p] == s.drafts[p].(state := Failed) && id in t.records
                && t.records[id].notified
  {
    RejectIs(s, id);
    var s1 := Next(s, Reject(id));
    TwoSteps(s, Reject(id), LookAtRecord(id, e));
    hide After;
    assert Next(s1, LookAtRecord(id, e)) == NotifyRejected(s1, id, s1.records[id], e);
  }

  // ----- a boot takes the token away -------------------------------------------------------------------

  /** In every run: whatever file waits to be sent, a boot makes a new token, and the next look throws the file away
      without sending it; its record stays as it is, and nobody is told. */
  lemma BootDropsApproved(steps: seq<Step>, token: string, file: string, id: RecId, f: Outgoing, e: Env)
    requires Possible(START, steps) && Enabled(After(START, steps), Boot(token))
    requires Waits(After(START, steps), file, id, f) && After(START, steps).token != "" && !e.crash
    ensures var s := After(START, steps);
            var t := After(s, [Boot(token), LookAtFile(file, e)]);
            t.out == s.out && file !in t.outbox && t.records == s.records && t.notices == s.notices
  {
    hide *;
    RunIsTrusted(steps);
    var s := After(START, steps);
    TokenIsMinted(s, steps);
    TwoSteps(s, Boot(token), LookAtFile(file, e));
    BootSpoils(s, token, file, id, f, e);
  }

  lemma BootSpoils(s: Sys, token: string, file: string, id: RecId, f: Outgoing, e: Env)
    requires Enabled(s, Boot(token)) && Waits(s, file, id, f) && s.token in s.past.minted && !e.crash
    ensures var t := Next(Next(s, Boot(token)), LookAtFile(file, e));
            t.out == s.out && file !in t.outbox && t.records == s.records && t.notices == s.notices
  {
    hide Strip;
  }

  lemma TokenIsMinted(s: Sys, done: seq<Step>)
    requires Trusted(s, done) && s.token != ""
    ensures s.token in s.past.minted
  {
    hide RecordsOk, GrantsOk, DraftsOk, FilesOk;
  }
}
