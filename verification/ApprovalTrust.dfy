/** What drafts, records and outbox files hold in every run: nothing that the owner did not approve carries a token. */
module ApprovalTrust {
  import opened Wrappers
  import opened ApprovalSpec
  import opened ApprovalBudget
  import opened Lines
  import opened Names
  import opened Seqs

  /** The letter that Mail.app gets for a draft that holds `letter`. */
  function Addressed(letter: Letter): Letter {
    letter.(from := Account(letter.from))
  }

  predicate Says(action: Action, thread: string, text: string) {
    action.TextAction? && Strip(action.thread) == thread && action.text == text
  }

  ghost predicate GrantsOk(granted: map<RecId, Action>, done: seq<Step>) {
    forall id | id in granted :: Approve(id, granted[id]) in done
  }

  predicate CopyOk(id: RecId, d: Draft, granted: map<RecId, Action>) {
    id in granted && granted[id].MailAction? && d.letter == HandedOver(granted[id].letter)
  }

  /** A draft of the approvals driver holds what was approved; a draft of a PAI holds no token that ever was. */
  ghost predicate DraftsOk(drafts: map<DraftPath, Draft>, granted: map<RecId, Action>, minted: set<string>) {
    && (forall id | Handoff(id) in drafts :: CopyOk(id, drafts[Handoff(id)], granted))
    && (forall name | Own(name) in drafts :: Strip(drafts[Own(name)].token) !in minted)
  }

  ghost predicate RecordsOk(records: map<RecId, Record>, granted: map<RecId, Action>) {
    && (forall id | id in records && records[id].status in {Approved, Dispatched, Delivered} ::
        id in granted && granted[id] == records[id].action)
    && (forall id | id in granted :: id in records && records[id].status != Pending)
  }

  ghost predicate FilesOk(outbox: map<string, Outgoing>, filedFor: map<string, RecId>, granted: map<RecId, Action>) {
    forall f | f in outbox ::
      f in filedFor && filedFor[f] in granted && Says(granted[filedFor[f]], outbox[f].thread, outbox[f].text)
  }

  ghost predicate Trusted(s: Sys, done: seq<Step>) {
    && GrantsOk(s.past.granted, done)
    && DraftsOk(s.drafts, s.past.granted, s.past.minted)
    && RecordsOk(s.records, s.past.granted)
    && FilesOk(s.outbox, s.past.filedFor, s.past.granted)
    && (s.token == "" || s.token in s.past.minted)
  }

  lemma Longer(s: Sys, done: seq<Step>, step: Step)
    requires Trusted(s, done)
    ensures Trusted(s, done + [step])
  {
    hide DraftsOk, RecordsOk, FilesOk;
    Members(done, [step]);
  }

  lemma DeliverTrusted(s: Sys, d: Delivery, done: seq<Step>)
    requires Trusted(s, done)
    ensures Trusted(Deliver(s, d), done)
  {
    hide DraftsOk, RecordsOk, FilesOk, GrantsOk;
  }

  lemma CrashTrusted(s: Sys, root: Root, done: seq<Step>)
    requires Trusted(s, done)
    ensures Trusted(Crashed(s, root), done)
  {
    hide DraftsOk, RecordsOk, FilesOk, GrantsOk;
  }

  /** A driver that rewrites a draft keeps its letter and its token. */
  lemma DraftsStay(drafts: map<DraftPath, Draft>, granted: map<RecId, Action>, minted: set<string>, p: DraftPath,
                   d: Draft)
    requires DraftsOk(drafts, granted, minted) && p in drafts && d.letter == drafts[p].letter
             && d.token == drafts[p].token
    ensures DraftsOk(drafts[p := d], granted, minted)
  {
    hide Strip;
  }

  lemma DraftTrusted(s: Sys, p: DraftPath, d: Draft, crash: bool, done: seq<Step>)
    requires Trusted(s, done) && p in s.drafts && d.letter == s.drafts[p].letter && d.token == s.drafts[p].token
    ensures Trusted(SetDraft(s, p, d, crash), done)
  {
    CrashTrusted(s, RootOf(s.past, p), done);
    DraftsStay(s.drafts, s.past.granted, s.past.minted, p, d);
    hide RecordsOk, DraftsOk, FilesOk, GrantsOk, RootOf;
  }

  lemma RecordsStay(records: map<RecId, Record>, granted: map<RecId, Action>, id: RecId, r: Record)
    requires RecordsOk(records, granted) && id in records && r.action == records[id].action
    requires r.status == records[id].status
             || (records[id].status.Approved? && r.status in {Dispatched, Delivered, Failure})
    ensures RecordsOk(records[id := r], granted)
  {
    var after := records[id := r];
    forall k | k in after && after[k].status in {Approved, Dispatched, Delivered} ensures k in granted
        && granted[k] == after[k].action {
      assert k in records;
    }
  }

  lemma RecordTrusted(s: Sys, id: RecId, r: Record, crash: bool, done: seq<Step>)
    requires Trusted(s, done) && id in s.records && r.action == s.records[id].action
    requires r.status == s.records[id].status
             || (s.records[id].status.Approved? && r.status in {Dispatched, Delivered, Failure})
    ensures Trusted(SetRecord(s, id, r, crash), done)
  {
    CrashTrusted(s, RootOfRecord(s.past, id), done);
    RecordsStay(s.records, s.past.granted, id, r);
    hide DraftsOk, FilesOk, GrantsOk, RootOfRecord, RecordsOk;
  }

  lemma AddRecordTrusted(s: Sys, id: RecId, r: Record, past: History, done: seq<Step>)
    requires Trusted(s, done) && id !in s.records && r.status.Pending? && past == s.past.(origin := past.origin)
    ensures Trusted(s.(records := s.records[id := r], past := past), done)
  {
    hide DraftsOk, FilesOk, GrantsOk;
  }

  lemma StageTrusted(s: Sys, channel: Channel, action: Action, source: Option<DraftPath>, ident: string,
                     done: seq<Step>)
    requires Trusted(s, done)
    ensures var t := Stage(s, channel, action, source, ident);
            Trusted(t, done) && t.drafts == s.drafts
  {
    hide Trusted, IsFirstFree, RootOf;
    var id := FirstFree(s.records.Keys, ident, 1);
    hide FirstFree;
    var t := Stage(s, channel, action, source, ident);
    AddRecordTrusted(s, id, Record(channel, Pending, action, source, false), t.past, done);
  }

  // ----- the email driver ------------------------------------------------------------

  lemma KeptTrusted(s: Sys, d: Draft, done: seq<Step>)
    requires Trusted(s, done)
    ensures Trusted(Kept(s, d), done)
  {
    hide RecordsOk, FilesOk, GrantsOk, DraftsOk, Account;
  }

  /** Only what the gate lets through reaches Mail.app as a send. */
  lemma RunScriptSends(s: Sys, p: DraftPath, d: Draft, gate: Gate, e: Env)
    requires !gate.Queue?
    ensures var t := RunScript(s, p, d, gate, e);
            || (gate.Send? && e.outcome.Fine?
                && t == SetDraft(Deliver(s, Asked(p, d, gate)), p, d.(state := Sent, retries := 0), e.crash))
            || t == SetDraft(Kept(s, d), p, d.(state := Drafted, retries := 0), e.crash)
            || t == SetDraft(s, p, d.(state := PendingParent, retries := d.retries + 1), e.crash)
            || t == SetDraft(s, p, d.(state := Failed), e.crash)
  {
    hide SetDraft, Deliver, Account;
  }

  lemma RunScriptTrusted(s: Sys, p: DraftPath, e: Env, done: seq<Step>)
    requires Trusted(s, done) && p in s.drafts
    requires !Gated(s, s.drafts[p], e).Queue?
    ensures Trusted(RunScript(s, p, s.drafts[p], Gated(s, s.drafts[p], e), e), done)
  {
    hide Trusted, RunScript, SetDraft, Asked, Gated;
    var d := s.drafts[p];
    var gate := Gated(s, d, e);
    RunScriptSends(s, p, d, gate, e);
    if gate.Send? {
      DeliverTrusted(s, Asked(p, d, gate), done);
      DraftTrusted(Deliver(s, Asked(p, d, gate)), p, d.(state := Sent, retries := 0), e.crash, done);
    }
    KeptTrusted(s, d, done);
    DraftTrusted(Kept(s, d), p, d.(state := Drafted, retries := 0), e.crash, done);
    DraftTrusted(s, p, d.(state := PendingParent, retries := d.retries + 1), e.crash, done);
    DraftTrusted(s, p, d.(state := Failed), e.crash, done);
  }

  lemma ProcessDraftTrusted(s: Sys, p: DraftPath, e: Env, done: seq<Step>)
    requires Trusted(s, done)
    ensures Trusted(ProcessDraft(s, p, e), done)
  {
    if p in s.drafts {
      hide Trusted, ProcessDraft, RunScript, SetDraft, Stage, Gated, Account;
      ProcessDraftCases(s, p, e);
      var d := s.drafts[p];
      var action := MailAction(d.letter.(from := Account(d.letter.from)));
      DraftTrusted(s, p, d.(state := Failed), e.crash, done);
      StageTrusted(s, Email, action, Some(p), e.ident, done);
      DraftTrusted(Stage(s, Email, action, Some(p), e.ident), p, d.(state := PendingApproval), e.crash, done);
      if !Gated(s, d, e).Queue? {
        RunScriptTrusted(s, p, e, done);
      }
    }
  }

  // ----- the approvals driver -------------------------------------------------------------

  lemma HandoffTrusted(s: Sys, id: RecId, done: seq<Step>)
    requires Trusted(s, done) && id in s.records && s.records[id].status.Approved? && s.records[id].action.MailAction?
    ensures Trusted(s.(drafts := s.drafts[Handoff(id) :=
            Draft(HandedOver(s.records[id].action.letter), true, s.token, New, 0)]), done)
  {
    hide FilesOk, GrantsOk, Strip;
  }

  lemma DeliverEmailTrusted(s: Sys, id: RecId, e: Env, done: seq<Step>)
    requires Trusted(s, done) && id in s.records && s.records[id].status.Approved?
    ensures Trusted(DeliverEmail(s, id, s.records[id], e), done)
  {
    hide Trusted, SetRecord, HandedOver;
    var r := s.records[id];
    RecordTrusted(s, id, r.(status := Failure), e.crash, done);
    if r.action.MailAction? {
      HandoffTrusted(s, id, done);
      RecordTrusted(s.(drafts := s.drafts[Handoff(id) := Draft(HandedOver(r.action.letter), true, s.token, New, 0)]),
          id,
                    r.(status := Dispatched), e.crash, done);
    }
  }

  lemma DeliverInlineTrusted(s: Sys, id: RecId, e: Env, done: seq<Step>)
    requires Trusted(s, done) && id in s.records && s.records[id].status.Approved?
    ensures Trusted(DeliverInline(s, id, s.records[id], e), done)
  {
    hide Trusted, SetRecord, Sayable, Strip;
    var r := s.records[id];
    InlineNeedsText(s, id, r, e);
    RecordTrusted(s, id, r.(status := Failure), e.crash, done);
    if r.action.TextAction? {
      var d := Inline(id, Strip(r.action.thread), r.action.text);
      DeliverTrusted(s, d, done);
      RecordTrusted(Deliver(s, d), id, r.(status := Delivered), e.crash, done);
    }
  }

  lemma FiledTrusted(s: Sys, id: RecId, ident: string, done: seq<Step>)
    requires Trusted(s, done) && id in s.records && s.records[id].status.Approved? && s.records[id].action.TextAction?
    ensures Trusted(Filed(s, id, s.records[id].action, ident), done)
            && Filed(s, id, s.records[id].action, ident).records == s.records
  {
    hide GrantsOk, DraftsOk, Strip, FirstFree, IsFirstFree;
  }

  lemma DeliverWhatsAppTrusted(s: Sys, id: RecId, e: Env, done: seq<Step>)
    requires Trusted(s, done) && id in s.records && s.records[id].status.Approved?
    ensures Trusted(DeliverWhatsApp(s, id, s.records[id], e), done)
  {
    hide Trusted, SetRecord, Filed, DeliverWhatsApp;
    var r := s.records[id];
    WhatsAppCases(s, id, r, e);
    RecordTrusted(s, id, r.(status := Failure), e.crash, done);
    if r.action.TextAction? {
      FiledTrusted(s, id, e.ident, done);
      RecordTrusted(Filed(s, id, r.action, e.ident), id, r.(status := Dispatched), e.crash, done);
    }
  }

  lemma NoticeTrusted(s: Sys, id: RecId, done: seq<Step>)
    requires Trusted(s, done)
    ensures Trusted(s.(notifiedNow := s.notifiedNow + {id}, notices := s.notices + [id]), done)
    ensures Trusted(s.(announced := s.announced + {id}), done)
  {
    hide RecordsOk, FilesOk, GrantsOk, DraftsOk;
  }

  lemma NotifyRejectedTrusted(s: Sys, id: RecId, e: Env, done: seq<Step>)
    requires Trusted(s, done) && id in s.records && s.records[id].status.Rejected?
    ensures Trusted(NotifyRejected(s, id, s.records[id], e), done)
  {
    hide Trusted, SetRecord;
    var r := s.records[id];
    var s1 := s.(notifiedNow := s.notifiedNow + {id}, notices := s.notices + [id]);
    NoticeTrusted(s, id, done);
    RecordTrusted(s1, id, r.(notified := true), e.crash, done);
    if r.source.Some? && r.source.value in s.drafts {
      var p := r.source.value;
      var d := s1.drafts[p].(state := Failed);
      DraftTrusted(s1, p, d, false, done);
      assert SetDraft(s1, p, d, false) == s1.(drafts := s1.drafts[p := d]);
      RecordTrusted(s1.(drafts := s1.drafts[p := d]), id, r.(notified := true), e.crash, done);
    }
  }

  lemma ProcessRecordTrusted(s: Sys, id: RecId, e: Env, done: seq<Step>)
    requires Trusted(s, done)
    ensures Trusted(ProcessRecord(s, id, e), done)
  {
    hide Trusted, SetRecord, NotifyRejected, DeliverEmail, DeliverInline, DeliverWhatsApp;
    NoticeTrusted(s, id, done);
    if id in s.records {
      var r := s.records[id];
      match r.status {
        case Rejected => NotifyRejectedTrusted(s, id, e, done);
        case Approved =>
          DeliverEmailTrusted(s, id, e, done);
          DeliverInlineTrusted(s, id, e, done);
          DeliverWhatsAppTrusted(s, id, e, done);
          RecordTrusted(s, id, r.(status := Failure), e.crash, done);
        case _ =>
      }
    }
  }

  // ----- the WhatsApp process -----------------------------------------------------------------

  lemma RemoveTrusted(s: Sys, f: string, crash: bool, done: seq<Step>)
    requires Trusted(s, done)
    ensures Trusted(RemoveFile(s, f, crash), done)
  {
    CrashTrusted(s, RootOfFile(s.past, f), done);
    hide RecordsOk, GrantsOk, DraftsOk, RootOfFile, Says;
  }

  /** What a look at an outbox file does: it sends at most that file's text. */
  lemma OutboxCases(s: Sys, f: string, e: Env)
    requires f in s.outbox
    ensures var t, o := ProcessOutbox(s, f, e), s.outbox[f];
            var id := if f in s.past.filedFor then s.past.filedFor[f] else f;
            || t == s || t == RemoveFile(s, f, e.crash)
            || (e.outcome.Fine? && t == RemoveFile(Deliver(s, ByBridge(id, Strip(o.thread), o.text)), f, e.crash))
  {
    hide RemoveFile, Deliver, Strip;
  }

  lemma ProcessOutboxTrusted(s: Sys, f: string, e: Env, done: seq<Step>)
    requires Trusted(s, done)
    ensures Trusted(ProcessOutbox(s, f, e), done)
  {
    if f in s.outbox {
      OutboxCases(s, f, e);
      hide Trusted, RemoveFile, Strip, ProcessOutbox;
      var d := ByBridge(if f in s.past.filedFor then s.past.filedFor[f]
          else f, Strip(s.outbox[f].thread), s.outbox[f].text);
      RemoveTrusted(s, f, e.crash, done);
      DeliverTrusted(s, d, done);
      RemoveTrusted(Deliver(s, d), f, e.crash, done);
    }
  }

  // ----- the owner, the PAIs, and boots ------------------------------------------------------------

  lemma RecordsDecided(records: map<RecId, Record>, granted: map<RecId, Action>, id: RecId, action: Action)
    requires RecordsOk(records, granted) && id in records && records[id].status.Pending?
    ensures id !in granted
    ensures RecordsOk(records[id := records[id].(status := Approved, action := action)], granted[id := action])
    ensures RecordsOk(records[id := records[id].(status := Rejected)], granted)
  {
  }

  lemma GrantKeeps(s: Sys, id: RecId, action: Action, done: seq<Step>)
    requires Trusted(s, done) && id !in s.past.granted && Approve(id, action) in done
    ensures var granted := s.past.granted[id := action];
            GrantsOk(granted, done) && DraftsOk(s.drafts, granted, s.past.minted)
                && FilesOk(s.outbox, s.past.filedFor, granted)
  {
    hide RecordsOk, Strip, Says;
  }

  lemma ApproveTrusted(s: Sys, id: RecId, action: Action, done: seq<Step>)
    requires Trusted(s, done) && id in s.records && s.records[id].status.Pending? && Approve(id, action) in done
    ensures Trusted(Next(s, Approve(id, action)), done)
  {
    RecordsDecided(s.records, s.past.granted, id, action);
    GrantKeeps(s, id, action, done);
    hide RecordsOk, DraftsOk, FilesOk, GrantsOk;
  }

  lemma RejectTrusted(s: Sys, id: RecId, done: seq<Step>)
    requires Trusted(s, done) && id in s.records && s.records[id].status.Pending?
    ensures Trusted(Next(s, Reject(id)), done)
  {
    RecordsDecided(s.records, s.past.granted, id, s.records[id].action);
    hide RecordsOk, DraftsOk, FilesOk, GrantsOk;
  }

  lemma WriteTrusted(s: Sys, name: string, draft: Draft, done: seq<Step>)
    requires Trusted(s, done) && Enabled(s, WriteDraft(name, draft))
    ensures Trusted(Next(s, WriteDraft(name, draft)), done)
  {
    hide GrantsOk, RecordsOk, FilesOk, Strip;
  }

  lemma BootTrusted(s: Sys, token: string, done: seq<Step>)
    requires Trusted(s, done) && Enabled(s, Boot(token))
    ensures Trusted(Next(s, Boot(token)), done)
  {
    hide GrantsOk, RecordsOk, FilesOk, Strip;
  }

  lemma NextTrusted(s: Sys, step: Step, done: seq<Step>)
    requires Trusted(s, done) && Enabled(s, step)
    ensures Trusted(Next(s, step), done + [step])
  {
    hide Trusted, ProcessDraft, ProcessRecord, ProcessOutbox, Stage, Strip;
    Longer(s, done, step);
    var more := done + [step];
    assert step in more;
    match step {
      case WriteDraft(name, draft) => WriteTrusted(s, name, draft, more);
      case StageLine(channel, thread, text, ident) => StageTrusted(s, channel, TextAction(thread, text), None, ident,
          more);
      case LookAtDraft(path, env) => ProcessDraftTrusted(s, path, env, more);
      case LookAtRecord(id, env) => ProcessRecordTrusted(s, id, env, more);
      case LookAtFile(file, env) => ProcessOutboxTrusted(s, file, env, more);
      case Approve(id, action) => ApproveTrusted(s, id, action, more);
      case Reject(id) => RejectTrusted(s, id, more);
      case Boot(token) => BootTrusted(s, token, more);
    }
  }

  lemma {:induction false} RunTrusted(s: Sys, done: seq<Step>, steps: seq<Step>)
    requires Trusted(s, done) && Possible(s, steps)
    ensures Trusted(After(s, steps), done + steps)
    decreases |steps|
  {
    hide Trusted, Enabled, Next;
    if steps == [] {
      assert done + steps == done;
    } else {
      NextTrusted(s, steps[0], done);
      RunTrusted(Next(s, steps[0]), done + [steps[0]], steps[1..]);
      assert done + steps == done + [steps[0]] + steps[1..];
    }
  }

  lemma ProcessRecordCases(s: Sys, id: RecId, e: Env)
    requires id in s.records
    ensures var t, r := ProcessRecord(s, id, e), s.records[id];
            || t == s
            || t == s.(announced := s.announced + {id})
            || (!r.notified && t == NotifyRejected(s, id, r, e))
            || t == DeliverEmail(s, id, r, e) || t == DeliverInline(s, id, r, e) || t == DeliverWhatsApp(s, id, r, e)
            || t == SetRecord(s, id, r.(status := Failure), e.crash)
  {
    hide NotifyRejected, DeliverEmail, DeliverInline, DeliverWhatsApp, SetRecord;
  }
}
