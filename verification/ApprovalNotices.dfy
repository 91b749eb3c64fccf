/** A rejection is told once. */
module ApprovalNotices {
  import opened Wrappers
  import opened ApprovalSpec
  import opened ApprovalBudget
  import opened ApprovalTrust
  import opened Lines
  import opened Names
  import opened Seqs

  /** Each record whose rejection was told is marked so, or a crash kept it from being marked. */
  ghost predicate NoticesOk(s: Sys) {
    forall id :: multiset(s.notices)[id] <= Mark(s, id) + s.past.crashes[RootOfRecord(s.past, id)]
  }

  function Mark(s: Sys, id: RecId): nat {
    One(id in s.records && s.records[id].notified)
  }

  /** What a step other than a notice does: marks, crashes and lineages of existing records only grow. */
  ghost predicate NoticeFrame(s: Sys, t: Sys) {
    && t.notices == s.notices && s.past.crashes <= t.past.crashes
    && (forall id | id in s.records ::
        Mark(s, id) <= Mark(t, id) && id in t.records && RootOfRecord(t.past, id) == RootOfRecord(s.past, id))
  }

  ghost predicate NoticesNamed(s: Sys) {
    forall id | id in s.notices :: id in s.records
  }

  lemma FrameNotices(s: Sys, t: Sys)
    requires NoticesOk(s) && NoticesNamed(s) && NoticeFrame(s, t)
    ensures NoticesOk(t) && NoticesNamed(t)
  {
    hide Mark, RootOfRecord;
    forall id ensures multiset(t.notices)[id] <= Mark(t, id) + t.past.crashes[RootOfRecord(t.past, id)] {
      assert id in multiset(s.notices) <==> id in s.notices;
      assert multiset(s.notices)[id] <= Mark(s, id) + s.past.crashes[RootOfRecord(s.past, id)];
    }
  }

  lemma FrameTrans(s: Sys, t: Sys, u: Sys)
    requires NoticeFrame(s, t) && NoticeFrame(t, u)
    ensures NoticeFrame(s, u)
  {
  }

  lemma SetDraftFrame(s: Sys, p: DraftPath, d: Draft, crash: bool)
    ensures NoticeFrame(s, SetDraft(s, p, d, crash))
  {
    hide RootOf;
  }

  lemma SetRecordFrame(s: Sys, id: RecId, r: Record, crash: bool)
    requires id in s.records && (s.records[id].notified ==> r.notified)
    ensures NoticeFrame(s, SetRecord(s, id, r, crash))
  {
  }

  lemma StageFrame(s: Sys, channel: Channel, action: Action, source: Option<DraftPath>, ident: string)
    ensures NoticeFrame(s, Stage(s, channel, action, source, ident))
  {
    hide IsFirstFree, RootOf;
    var id := FirstFree(s.records.Keys, ident, 1);
    hide FirstFree;
  }

  lemma ProcessDraftFrame(s: Sys, p: DraftPath, e: Env)
    ensures NoticeFrame(s, ProcessDraft(s, p, e))
  {
    if p in s.drafts {
      hide ProcessDraft, RunScript, SetDraft, Stage, Gated, Account, NoticeFrame;
      assert NoticeFrame(s, s) by { SameFrame(s); }
      ProcessDraftCases(s, p, e);
      var d := s.drafts[p];
      var mid := Stage(s, Email, MailAction(d.letter.(from := Account(d.letter.from))), Some(p), e.ident);
      StageFrame(s, Email, MailAction(d.letter.(from := Account(d.letter.from))), Some(p), e.ident);
      SetDraftFrame(mid, p, d.(state := PendingApproval), e.crash);
      FrameTrans(s, mid, SetDraft(mid, p, d.(state := PendingApproval), e.crash));
      SetDraftFrame(s, p, d.(state := Failed), e.crash);
      if !Gated(s, d, e).Queue? {
        RunScriptFrame(s, p, d, Gated(s, d, e), e);
      }
    } else {
      SameFrame(s);
    }
  }

  lemma SameFrame(s: Sys)
    ensures NoticeFrame(s, s)
    ensures forall d :: NoticeFrame(s, Deliver(s, d))
    ensures forall d: Draft :: NoticeFrame(s, Kept(s, d))
  {
    hide Account;
  }

  lemma RunScriptFrame(s: Sys, p: DraftPath, d: Draft, gate: Gate, e: Env)
    requires !gate.Queue?
    ensures NoticeFrame(s, RunScript(s, p, d, gate, e))
  {
    hide RunScript, SetDraft, Asked, Kept, Deliver, NoticeFrame;
    RunScriptCases(s, p, d, gate, e);
    SameFrame(s);
    var sent, kept := Deliver(s, Asked(p, d, gate)), Kept(s, d);
    SetDraftFrame(sent, p, d.(state := Sent, retries := 0), e.crash);
    FrameTrans(s, sent, SetDraft(sent, p, d.(state := Sent, retries := 0), e.crash));
    SetDraftFrame(kept, p, d.(state := Drafted, retries := 0), e.crash);
    FrameTrans(s, kept, SetDraft(kept, p, d.(state := Drafted, retries := 0), e.crash));
    SetDraftFrame(s, p, d.(state := PendingParent, retries := d.retries + 1), e.crash);
    SetDraftFrame(s, p, d.(state := Failed), e.crash);
  }

  lemma HandoffFrame(s: Sys, id: RecId, draft: Draft)
    ensures NoticeFrame(s, s.(drafts := s.drafts[Handoff(id) := draft]))
  {
  }

  lemma DeliverEmailFrame(s: Sys, id: RecId, e: Env)
    requires id in s.records
    ensures NoticeFrame(s, DeliverEmail(s, id, s.records[id], e))
  {
    hide NoticeFrame, SetRecord, HandedOver;
    var r := s.records[id];
    SetRecordFrame(s, id, r.(status := Failure), e.crash);
    if r.action.MailAction? {
      var draft := Draft(HandedOver(r.action.letter), true, s.token, New, 0);
      var mid := s.(drafts := s.drafts[Handoff(id) := draft]);
      HandoffFrame(s, id, draft);
      SetRecordFrame(mid, id, r.(status := Dispatched), e.crash);
      FrameTrans(s, mid, SetRecord(mid, id, r.(status := Dispatched), e.crash));
    }
  }

  lemma DeliverInlineFrame(s: Sys, id: RecId, e: Env)
    requires id in s.records
    ensures NoticeFrame(s, DeliverInline(s, id, s.records[id], e))
  {
    hide NoticeFrame, SetRecord, Sayable, Deliver, Strip;
    var r := s.records[id];
    InlineNeedsText(s, id, r, e);
    SetRecordFrame(s, id, r.(status := Failure), e.crash);
    if r.action.TextAction? {
      var mid := Deliver(s, Inline(id, Strip(r.action.thread), r.action.text));
      SameFrame(s);
      DeliverRecords(s, Inline(id, Strip(r.action.thread), r.action.text));
      SetRecordFrame(mid, id, r.(status := Delivered), e.crash);
      FrameTrans(s, mid, SetRecord(mid, id, r.(status := Delivered), e.crash));
    }
  }

  lemma DeliverRecords(s: Sys, d: Delivery)
    ensures Deliver(s, d).records == s.records
  {
  }

  lemma FiledFrame(s: Sys, id: RecId, action: Action, ident: string)
    requires action.TextAction?
    ensures NoticeFrame(s, Filed(s, id, action, ident)) && Filed(s, id, action, ident).records == s.records
  {
    hide FirstFree, IsFirstFree, Strip;
  }

  lemma DeliverWhatsAppFrame(s: Sys, id: RecId, e: Env)
    requires id in s.records
    ensures NoticeFrame(s, DeliverWhatsApp(s, id, s.records[id], e))
  {
    hide NoticeFrame, SetRecord, Filed, DeliverWhatsApp;
    var r := s.records[id];
    WhatsAppCases(s, id, r, e);
    SetRecordFrame(s, id, r.(status := Failure), e.crash);
    if r.action.TextAction? {
      var mid := Filed(s, id, r.action, e.ident);
      FiledFrame(s, id, r.action, e.ident);
      SetRecordFrame(mid, id, r.(status := Dispatched), e.crash);
      FrameTrans(s, mid, SetRecord(mid, id, r.(status := Dispatched), e.crash));
    }
  }

  lemma ProcessOutboxFrame(s: Sys, f: string, e: Env)
    ensures NoticeFrame(s, ProcessOutbox(s, f, e))
  {
    hide Strip, RootOfFile;
  }

  lemma NotifyKeeps(s: Sys, id: RecId, e: Env)
    requires NoticesOk(s) && NoticesNamed(s) && id in s.records && !s.records[id].notified
    ensures var t := NotifyRejected(s, id, s.records[id], e); NoticesOk(t) && NoticesNamed(t)
  {
    var t := NotifyRejected(s, id, s.records[id], e);
    NotifyShape(s, id, e);
    hide NotifyRejected, Mark, RootOfRecord;
    Members(s.notices, [id]);
    assert multiset(s.notices + [id]) == multiset(s.notices) + multiset{id};
    forall k ensures multiset(t.notices)[k] <= Mark(t, k) + t.past.crashes[RootOfRecord(t.past, k)] {
      assert multiset(s.notices)[k] <= Mark(s, k) + s.past.crashes[RootOfRecord(s.past, k)];
    }
  }

  lemma NotifyShape(s: Sys, id: RecId, e: Env)
    requires id in s.records && !s.records[id].notified
    ensures var t := NotifyRejected(s, id, s.records[id], e);
            && t.notices == s.notices + [id] && t.records.Keys == s.records.Keys && s.past.crashes <= t.past.crashes
            && (forall k :: RootOfRecord(t.past, k) == RootOfRecord(s.past, k) && Mark(s, k) <= Mark(t, k))
            && Mark(s, id) + s.past.crashes[RootOfRecord(s.past, id)] + 1
                == Mark(t, id) + t.past.crashes[RootOfRecord(s.past, id)]
  {
  }

  lemma ProcessRecordNotices(s: Sys, id: RecId, e: Env)
    requires NoticesOk(s) && NoticesNamed(s)
    ensures var t := ProcessRecord(s, id, e); NoticesOk(t) && NoticesNamed(t)
  {
    if id in s.records {
      ProcessRecordCases(s, id, e);
      hide *;
      var t, r := ProcessRecord(s, id, e), s.records[id];
      DeliverEmailFrame(s, id, e);
      DeliverInlineFrame(s, id, e);
      DeliverWhatsAppFrame(s, id, e);
      SetRecordFrame(s, id, r.(status := Failure), e.crash);
      AnnounceFrame(s, id);
      if NoticeFrame(s, t) {
        FrameNotices(s, t);
      } else if t != s {
        NotifyKeeps(s, id, e);
      }
    }
  }

  lemma AnnounceFrame(s: Sys, id: RecId)
    ensures NoticeFrame(s, s.(announced := s.announced + {id}))
  {
  }

  lemma OtherFrames(s: Sys, step: Step)
    requires step.WriteDraft? || step.Approve? || step.Reject? || step.Boot?
    ensures NoticeFrame(s, Next(s, step))
  {
    hide Strip;
  }

  lemma NextNotices(s: Sys, step: Step)
    requires NoticesOk(s) && NoticesNamed(s) && Enabled(s, step)
    ensures NoticesOk(Next(s, step)) && NoticesNamed(Next(s, step))
  {
    hide NoticesOk, NoticesNamed, NoticeFrame, ProcessDraft, ProcessOutbox, ProcessRecord, Stage, Strip;
    match step {
      case StageLine(channel, thread, text, ident) => StageFrame(s, channel, TextAction(thread, text), None, ident);
      case LookAtDraft(path, env) => ProcessDraftFrame(s, path, env);
      case LookAtFile(file, env) => ProcessOutboxFrame(s, file, env);
      case LookAtRecord(id, env) => ProcessRecordNotices(s, id, env);
      case _ => OtherFrames(s, step);
    }
    if !step.LookAtRecord? {
      FrameNotices(s, Next(s, step));
    }
  }

  lemma {:induction false} RunNotices(s: Sys, steps: seq<Step>)
    requires NoticesOk(s) && NoticesNamed(s) && Possible(s, steps)
    ensures NoticesOk(After(s, steps))
    decreases |steps|
  {
    hide NoticesOk, NoticesNamed, Enabled, Next;
    if steps != [] {
      NextNotices(s, steps[0]);
      RunNotices(Next(s, steps[0]), steps[1..]);
    }
  }

  /** However often the boot scan reads a rejected record again, its rejection is told once, plus once for each
      crash that came between telling and marking. */
  lemma RejectionToldOnce(steps: seq<Step>, id: RecId)
    requires Possible(START, steps)
    ensures var s := After(START, steps); multiset(s.notices)[id] <= 1 + s.past.crashes[RootOfRecord(s.past, id)]
  {
    assert NoticesOk(START) && NoticesNamed(START);
    RunNotices(START, steps);
    hide Possible, After, RootOfRecord;
    var s := After(START, steps);
    assert multiset(s.notices)[id] <= Mark(s, id) + s.past.crashes[RootOfRecord(s.past, id)];
  }
}
