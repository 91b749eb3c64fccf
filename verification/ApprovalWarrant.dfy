/** Nothing leaves without leave: every delivery is warranted by the very step that makes it, and what was approved
    is what leaves. */
module ApprovalWarrant {
  import opened Wrappers
  import opened ApprovalSpec
  import opened ApprovalBudget
  import opened ApprovalTrust
  import opened Lines
  import opened Names
  import opened Seqs

  // ----- what warrants a delivery ---------------------------------------------------------------

  /** The owner approved a letter for that hand-off draft, and this is it, but for the bcc. */
  ghost predicate ApprovedMail(before: seq<Step>, path: DraftPath, sent: Letter) {
    path.Handoff? && exists letter ::
        Approve(path.id, MailAction(letter)) in before && sent == Addressed(HandedOver(letter))
  }

  /** The owner approved that text for that record. */
  ghost predicate ApprovedText(before: seq<Step>, id: RecId, thread: string, text: string) {
    exists action :: Approve(id, action) in before && Says(action, thread, text)
  }

  /** The delivery `d` is made by `step` in the state `s`, after the steps `before`, and rightly so: a letter is the one
      that its draft holds, sent in mode `yes`, in mode `ask` to allowlisted recipients, or on an earlier approval. */
  ghost predicate Warranted(s: Sys, before: seq<Step>, step: Step, d: Delivery) {
    match d
    case ByMail(path, letter, authority) =>
      && step.LookAtDraft? && step.path == path && path in s.drafts && s.drafts[path].wantSend
      && step.env.outcome.Fine? && letter == Addressed(s.drafts[path].letter)
      && (authority.ByMode? ==> step.env.mode.Yes?)
      && (authority.ByAllowlist? ==> step.env.mode.Ask? && step.env.allowlisted && letter.inReplyTo == "")
      && (authority.ByToken? ==> ApprovedMail(before, path, letter))
    case Inline(id, thread, text) =>
      step.LookAtRecord? && step.id == id && step.env.outcome.Fine? && ApprovedText(before, id, thread, text)
    case ByBridge(id, thread, text) =>
      && step.LookAtFile? && step.file in s.past.filedFor && s.past.filedFor[step.file] == id
      && step.env.outcome.Fine? && ApprovedText(before, id, thread, text)
  }

  /** A step delivers nothing, or one thing that it warrants. */
  ghost predicate Clean(s: Sys, before: seq<Step>, step: Step, t: Sys) {
    t.out == s.out || exists d :: t.out == s.out + [d] && Warranted(s, before, step, d)
  }

  lemma WritesOut(s: Sys, p: DraftPath, d: Draft, crash: bool)
    ensures SetDraft(s, p, d, crash).out == s.out
  {
    hide RootOf;
  }

  lemma RecordOut(s: Sys, id: RecId, r: Record, crash: bool)
    ensures SetRecord(s, id, r, crash).out == s.out
  {
    hide RootOfRecord;
  }

  lemma RemoveOut(s: Sys, f: string, crash: bool)
    ensures RemoveFile(s, f, crash).out == s.out
  {
    hide RootOfFile;
  }

  lemma MoveOut(s: Sys, d: Draft, e: Delivery)
    ensures Kept(s, d).out == s.out && Deliver(s, e).out == s.out + [e]
  {
    hide Account;
  }

  // ----- the email driver -------------------------------------------------------------------------

  lemma TokenWarrants(s: Sys, p: DraftPath, before: seq<Step>)
    requires Trusted(s, before) && p in s.drafts && Strip(s.drafts[p].token) != ""
             && Strip(s.drafts[p].token) == s.token
    ensures ApprovedMail(before, p, Addressed(s.drafts[p].letter))
  {
    hide Strip, Account, RecordsOk, FilesOk;
    assert p.Handoff?;
    assert CopyOk(p.id, s.drafts[p], s.past.granted);
    assert Approve(p.id, MailAction(s.past.granted[p.id].letter)) in before;
  }

  lemma AskedIsAddressed(p: DraftPath, d: Draft, gate: Gate)
    requires gate.Send?
    ensures Asked(p, d, gate) == ByMail(p, Addressed(d.letter), gate.authority)
  {
  }

  /** What the gate lets through is warranted. */
  lemma GateWarrants(s: Sys, p: DraftPath, e: Env, before: seq<Step>)
    requires Trusted(s, before) && p in s.drafts && Gated(s, s.drafts[p], e).Send? && e.outcome.Fine?
    ensures Warranted(s, before, LookAtDraft(p, e), Asked(p, s.drafts[p], Gated(s, s.drafts[p], e)))
  {
    var d := s.drafts[p];
    AskedIsAddressed(p, d, Gated(s, d, e));
    hide Trusted, Strip, Account, ApprovedMail;
    if Gated(s, d, e).authority.ByToken? {
      TokenWarrants(s, p, before);
    }
  }

  lemma ScriptOut(s: Sys, p: DraftPath, d: Draft, gate: Gate, e: Env)
    requires !gate.Queue?
    ensures var t := RunScript(s, p, d, gate, e);
            t.out == s.out || (gate.Send? && e.outcome.Fine? && t.out == s.out + [Asked(p, d, gate)])
  {
    RunScriptSends(s, p, d, gate, e);
    hide *;
    MoveOut(s, d, Asked(p, d, gate));
    WritesOut(Deliver(s, Asked(p, d, gate)), p, d.(state := Sent, retries := 0), e.crash);
    WritesOut(Kept(s, d), p, d.(state := Drafted, retries := 0), e.crash);
    WritesOut(s, p, d.(state := PendingParent, retries := d.retries + 1), e.crash);
    WritesOut(s, p, d.(state := Failed), e.crash);
  }

  lemma StageOut(s: Sys, channel: Channel, action: Action, source: Option<DraftPath>, ident: string)
    ensures Stage(s, channel, action, source, ident).out == s.out
  {
    hide FirstFree, IsFirstFree, RootOf;
  }

  lemma DraftClean(s: Sys, p: DraftPath, e: Env, before: seq<Step>)
    requires Trusted(s, before)
    ensures Clean(s, before, LookAtDraft(p, e), ProcessDraft(s, p, e))
  {
    if p in s.drafts {
      var d := s.drafts[p];
      ProcessDraftCases(s, p, e);
      hide Trusted, ProcessDraft, RunScript, SetDraft, Stage, Gated, Account, Warranted;
      var action := MailAction(d.letter.(from := Account(d.letter.from)));
      WritesOut(s, p, d.(state := Failed), e.crash);
      StageOut(s, Email, action, Some(p), e.ident);
      WritesOut(Stage(s, Email, action, Some(p), e.ident), p, d.(state := PendingApproval), e.crash);
      var gate := Gated(s, d, e);
      if !gate.Queue? {
        ScriptOut(s, p, d, gate, e);
        if gate.Send? && e.outcome.Fine? {
          GateWarrants(s, p, e, before);
        }
      }
    }
  }

  // ----- the approvals driver and the WhatsApp process ----------------------------------------------

  lemma GrantWarrants(s: Sys, id: RecId, before: seq<Step>)
    requires Trusted(s, before) && id in s.records && s.records[id].status.Approved? && s.records[id].action.TextAction?
    ensures var a := s.records[id].action; ApprovedText(before, id, Strip(a.thread), a.text)
  {
    hide FilesOk, DraftsOk, Strip;
    assert Approve(id, s.records[id].action) in before;
  }

  lemma EmailOut(s: Sys, id: RecId, r: Record, e: Env)
    ensures DeliverEmail(s, id, r, e).out == s.out
  {
    hide RootOfRecord, HandedOver;
  }

  lemma InlineOut(s: Sys, id: RecId, r: Record, e: Env)
    ensures var t := DeliverInline(s, id, r, e);
            t.out == s.out || (e.outcome.Fine? && r.action.TextAction?
                && t.out == s.out + [Inline(id, Strip(r.action.thread), r.action.text)])
  {
    hide RootOfRecord, Strip;
  }

  lemma WhatsAppOut(s: Sys, id: RecId, r: Record, e: Env)
    ensures DeliverWhatsApp(s, id, r, e).out == s.out
  {
    hide RootOfRecord, Strip, FirstFree, IsFirstFree;
  }

  lemma NotifyOut(s: Sys, id: RecId, r: Record, e: Env)
    ensures NotifyRejected(s, id, r, e).out == s.out
  {
    hide RootOfRecord;
  }

  lemma InlineClean(s: Sys, id: RecId, e: Env, before: seq<Step>)
    requires Trusted(s, before) && id in s.records && s.records[id].status.Approved?
    ensures Clean(s, before, LookAtRecord(id, e), DeliverInline(s, id, s.records[id], e))
  {
    var r := s.records[id];
    InlineOut(s, id, r, e);
    hide Trusted, DeliverInline, Strip, ApprovedText;
    if r.action.TextAction? {
      GrantWarrants(s, id, before);
      var d := Inline(id, Strip(r.action.thread), r.action.text);
      assert e.outcome.Fine? ==> Warranted(s, before, LookAtRecord(id, e), d);
    }
  }

  lemma RecordClean(s: Sys, id: RecId, e: Env, before: seq<Step>)
    requires Trusted(s, before)
    ensures Clean(s, before, LookAtRecord(id, e), ProcessRecord(s, id, e))
  {
    if id in s.records {
      var r := s.records[id];
      RecordCasesByStatus(s, id, e);
      hide Trusted, ProcessRecord, SetRecord, NotifyRejected, DeliverEmail, DeliverInline, DeliverWhatsApp, Warranted;
      EmailOut(s, id, r, e);
      WhatsAppOut(s, id, r, e);
      NotifyOut(s, id, r, e);
      RecordOut(s, id, r.(status := Failure), e.crash);
      if r.status.Approved? {
        InlineClean(s, id, e, before);
      }
    }
  }

  /** Only approved records are delivered inline. */
  lemma RecordCasesByStatus(s: Sys, id: RecId, e: Env)
    requires id in s.records
    ensures var t, r := ProcessRecord(s, id, e), s.records[id];
            || t.out == s.out || t == NotifyRejected(s, id, r, e)
            || t == DeliverEmail(s, id, r, e) || t == DeliverWhatsApp(s, id, r, e)
            || (r.status.Approved? && t == DeliverInline(s, id, r, e))
            || t == SetRecord(s, id, r.(status := Failure), e.crash)
  {
    hide NotifyRejected, DeliverEmail, DeliverInline, DeliverWhatsApp, SetRecord;
  }

  lemma FileWarrants(s: Sys, f: string, before: seq<Step>)
    requires Trusted(s, before) && f in s.outbox
    ensures f in s.past.filedFor
    ensures ApprovedText(before, s.past.filedFor[f], Strip(s.outbox[f].thread), s.outbox[f].text)
  {
    hide RecordsOk, DraftsOk, Strip;
    var id := s.past.filedFor[f];
    var a := s.past.granted[id];
    StripTwice(a.thread);
    assert Approve(id, a) in before && Says(a, Strip(s.outbox[f].thread), s.outbox[f].text);
  }

  lemma FileClean(s: Sys, f: string, e: Env, before: seq<Step>)
    requires Trusted(s, before)
    ensures Clean(s, before, LookAtFile(f, e), ProcessOutbox(s, f, e))
  {
    if f in s.outbox {
      OutboxCases(s, f, e);
      FileWarrants(s, f, before);
      hide Trusted, RemoveFile, Strip, ProcessOutbox, ApprovedText, Deliver;
      var d := ByBridge(s.past.filedFor[f], Strip(s.outbox[f].thread), s.outbox[f].text);
      RemoveOut(s, f, e.crash);
      MoveOut(s, Draft(Letter("", [], [], [], "", "", ""), false, "", New, 0), d);
      RemoveOut(Deliver(s, d), f, e.crash);
      assert e.outcome.Fine? ==> Warranted(s, before, LookAtFile(f, e), d);
    }
  }

  // ----- every step, every run -----------------------------------------------------------------------

  lemma NextClean(s: Sys, step: Step, before: seq<Step>)
    requires Trusted(s, before)
    ensures Clean(s, before, step, Next(s, step))
  {
    hide Trusted, ProcessDraft, ProcessRecord, ProcessOutbox, Stage, Warranted;
    match step {
      case StageLine(channel, thread, text, ident) => StageOut(s, channel, TextAction(thread, text), None, ident);
      case LookAtDraft(path, env) => DraftClean(s, path, env, before);
      case LookAtRecord(id, env) => RecordClean(s, id, env, before);
      case LookAtFile(file, env) => FileClean(s, file, env, before);
      case _ =>
    }
  }

  /** The k-th delivery of a run is made, and warranted, by its i-th step. */
  ghost predicate MadeBy(s: Sys, steps: seq<Step>, k: nat, i: nat) {
    && i < |steps| && k < |After(s, steps).out|
    && After(s, steps[..i]).out == After(s, steps).out[..k]
    && After(s, steps[..i + 1]).out == After(s, steps).out[..k + 1]
    && Warranted(After(s, steps[..i]), steps[..i], steps[i], After(s, steps).out[k])
  }

  ghost predicate Made(steps: seq<Step>, k: nat) {
    exists i: nat :: MadeBy(START, steps, k, i)
  }

  lemma {:induction false} AfterSnoc(s: Sys, steps: seq<Step>)
    requires steps != []
    ensures After(s, steps) == Next(After(s, steps[..|steps| - 1]), steps[|steps| - 1])
    decreases |steps|
  {
    hide Next;
    if |steps| > 1 {
      AfterSnoc(Next(s, steps[0]), steps[1..]);
      assert steps[1..][..|steps| - 2] == steps[..|steps| - 1][1..];
    } else {
      assert steps[1..] == [] && steps[..0] == [];
    }
  }

  lemma {:induction false} PossibleFront(s: Sys, steps: seq<Step>)
    requires Possible(s, steps) && steps != []
    ensures Possible(s, steps[..|steps| - 1])
    decreases |steps|
  {
    hide Next, Enabled;
    if |steps| > 1 {
      PossibleFront(Next(s, steps[0]), steps[1..]);
      assert steps[1..][..|steps| - 2] == steps[..|steps| - 1][1..];
    }
  }

  lemma RunIsTrusted(steps: seq<Step>)
    requires Possible(START, steps)
    ensures Trusted(After(START, steps), steps)
  {
    assert Trusted(START, []);
    RunTrusted(START, [], steps);
    Empty(steps);
    hide Possible, After;
  }

  lemma NothingMade()
    ensures After(START, []).out == []
  {
  }

  lemma OneMore(steps: seq<Step>, k: nat)
    requires steps != [] && k < |After(START, steps).out|
    requires var front := steps[..|steps| - 1];
             && Clean(After(START, front), front, steps[|steps| - 1], After(START, steps))
             && forall j: nat | j < |After(START, front).out| :: Made(front, j)
    ensures Made(steps, k)
  {
    hide After, Warranted;
    var n := |steps| - 1;
    var front := steps[..n];
    var was, now := After(START, front).out, After(START, steps).out;
    Whole(steps);
    if k < |was| {
      assert Made(front, k);
      var i: nat :| MadeBy(START, front, k, i);
      assert now[..k] == was[..k] && now[..k + 1] == was[..k + 1] && now[k] == was[k];
      assert front[..i] == steps[..i] && front[..i + 1] == steps[..i + 1];
      assert MadeBy(START, steps, k, i);
    } else {
      var d :| now == was + [d] && Warranted(After(START, front), front, steps[n], d);
      assert now[..k] == was && now[..k + 1] == now;
      assert steps[..n + 1] == steps;
      assert MadeBy(START, steps, k, n);
    }
  }

  /** Every delivery of every run is made by one step of it, which warrants it there and then: a look at the draft
      that holds the letter, in mode `yes` or in mode `ask` with all recipients allowlisted, or a look at what the
      owner had approved before, word for word. */
  lemma {:induction false} EveryDeliveryIsJustified(steps: seq<Step>)
    requires Possible(START, steps)
    ensures forall k: nat | k < |After(START, steps).out| :: Made(steps, k)
    decreases |steps|
  {
    hide *;
    if steps == [] {
      NothingMade();
    } else {
      var front := steps[..|steps| - 1];
      PossibleFront(START, steps);
      AfterSnoc(START, steps);
      EveryDeliveryIsJustified(front);
      RunIsTrusted(front);
      NextClean(After(START, front), steps[|steps| - 1], front);
      forall k: nat | k < |After(START, steps).out| ensures Made(steps, k) {
        OneMore(steps, k);
      }
    }
  }

  // ----- what was approved is what leaves -------------------------------------------------------

  /** The owner decides once: every approval in the run is the one on record. */
  ghost predicate OnceGranted(granted: map<RecId, Action>, done: seq<Step>) {
    forall id, a | Approve(id, a) in done :: id in granted && granted[id] == a
  }

  lemma DraftWriteGrants(s: Sys, p: DraftPath, d: Draft, crash: bool)
    ensures SetDraft(s, p, d, crash).past.granted == s.past.granted
  {
    hide RootOf;
  }

  lemma RecordWriteGrants(s: Sys, id: RecId, r: Record, crash: bool)
    ensures SetRecord(s, id, r, crash).past.granted == s.past.granted
  {
    hide RootOfRecord;
  }

  lemma MoveGrants(s: Sys, d: Draft, e: Delivery)
    ensures Kept(s, d).past.granted == s.past.granted && Deliver(s, e).past.granted == s.past.granted
  {
    hide Account;
  }

  lemma ScriptGrants(s: Sys, p: DraftPath, d: Draft, gate: Gate, e: Env)
    requires !gate.Queue?
    ensures RunScript(s, p, d, gate, e).past.granted == s.past.granted
  {
    RunScriptCases(s, p, d, gate, e);
    hide *;
    MoveGrants(s, d, Asked(p, d, gate));
    DraftWriteGrants(Deliver(s, Asked(p, d, gate)), p, d.(state := Sent, retries := 0), e.crash);
    DraftWriteGrants(Kept(s, d), p, d.(state := Drafted, retries := 0), e.crash);
    DraftWriteGrants(s, p, d.(state := PendingParent, retries := d.retries + 1), e.crash);
    DraftWriteGrants(s, p, d.(state := Failed), e.crash);
  }

  lemma DraftGrants(s: Sys, path: DraftPath, e: Env)
    ensures ProcessDraft(s, path, e).past.granted == s.past.granted
  {
    if path in s.drafts && !Gated(s, s.drafts[path], e).Queue? {
      ScriptGrants(s, path, s.drafts[path], Gated(s, s.drafts[path], e), e);
    }
    hide RunScript, FirstFree, Gated, Account, RootOf, Terminal;
  }

  lemma EmailGrants(s: Sys, id: RecId, r: Record, e: Env)
    ensures DeliverEmail(s, id, r, e).past.granted == s.past.granted
  {
    hide RootOfRecord, HandedOver;
  }

  lemma InlineGrants(s: Sys, id: RecId, r: Record, e: Env)
    ensures DeliverInline(s, id, r, e).past.granted == s.past.granted
  {
    hide RootOfRecord, Strip;
  }

  lemma WhatsAppGrants(s: Sys, id: RecId, r: Record, e: Env)
    ensures DeliverWhatsApp(s, id, r, e).past.granted == s.past.granted
  {
    hide RootOfRecord, Strip, FirstFree, IsFirstFree;
  }

  lemma NotifyGrants(s: Sys, id: RecId, r: Record, e: Env)
    ensures NotifyRejected(s, id, r, e).past.granted == s.past.granted
  {
    hide RootOfRecord;
  }

  lemma RecordGrants(s: Sys, id: RecId, e: Env)
    ensures ProcessRecord(s, id, e).past.granted == s.past.granted
  {
    if id in s.records {
      var r := s.records[id];
      ProcessRecordCases(s, id, e);
      EmailGrants(s, id, r, e);
      InlineGrants(s, id, r, e);
      WhatsAppGrants(s, id, r, e);
      NotifyGrants(s, id, r, e);
      hide *;
      RecordWriteGrants(s, id, r.(status := Failure), e.crash);
    }
  }

  lemma FileGrants(s: Sys, file: string, e: Env)
    ensures ProcessOutbox(s, file, e).past.granted == s.past.granted
  {
    hide Strip, RootOfFile;
  }

  lemma NextGrants(s: Sys, step: Step)
    requires Enabled(s, step)
    ensures Next(s, step).past.granted == if step.Approve? then s.past.granted[step.id := step.action]
            else s.past.granted
  {
    hide Strip, FirstFree, ProcessDraft, ProcessRecord, ProcessOutbox, Terminal;
    match step {
      case LookAtDraft(path, env) => DraftGrants(s, path, env);
      case LookAtRecord(id, env) => RecordGrants(s, id, env);
      case LookAtFile(file, env) => FileGrants(s, file, env);
      case _ =>
    }
  }

  lemma StepGrants(s: Sys, step: Step, done: seq<Step>)
    requires Trusted(s, done) && Enabled(s, step) && OnceGranted(s.past.granted, done)
    ensures OnceGranted(Next(s, step).past.granted, done + [step])
  {
    NextGrants(s, step);
    Members(done, [step]);
    hide Next, GrantsOk, DraftsOk, FilesOk, Strip;
  }

  lemma {:induction false} RunGrants(s: Sys, done: seq<Step>, steps: seq<Step>)
    requires Trusted(s, done) && OnceGranted(s.past.granted, done) && Possible(s, steps)
    ensures OnceGranted(After(s, steps).past.granted, done + steps)
    decreases |steps|
  {
    hide Trusted, OnceGranted, Enabled, Next;
    if steps == [] {
      assert done + steps == done;
    } else {
      NextTrusted(s, steps[0], done);
      StepGrants(s, steps[0], done);
      RunGrants(Next(s, steps[0]), done + [steps[0]], steps[1..]);
      assert done + steps == done + [steps[0]] + steps[1..];
    }
  }

  /** In every run, a letter that left on the strength of a token is the one letter the owner approved for that
      record, but for its bcc: the two are the same if and only if the approved one has none. */
  lemma ApprovedLetterLeaves(steps: seq<Step>, path: DraftPath, sent: Letter)
    requires Possible(START, steps) && ByMail(path, sent, ByToken) in After(START, steps).out
    ensures path.Handoff? && exists letter ::
              && Approve(path.id, MailAction(letter)) in steps
              && (forall a | Approve(path.id, a) in steps :: a == MailAction(letter))
              && SameMessage(sent, Addressed(letter))
              && (sent == Addressed(letter) <==> letter.bcc == [])
  {
    EveryDeliveryIsJustified(steps);
    RunIsGranted(steps);
    var letter := MadeByToken(steps, path, sent);
    hide *;
    OnlyApproval(After(START, steps).past.granted, steps, path.id, MailAction(letter));
    Handed(letter);
  }

  lemma RunIsGranted(steps: seq<Step>)
    requires Possible(START, steps)
    ensures OnceGranted(After(START, steps).past.granted, steps)
  {
    assert Trusted(START, []) && OnceGranted(START.past.granted, []);
    RunGrants(START, [], steps);
    Empty(steps);
    hide Possible, After;
  }

  lemma OnlyApproval(granted: map<RecId, Action>, steps: seq<Step>, id: RecId, action: Action)
    requires OnceGranted(granted, steps) && Approve(id, action) in steps
    ensures forall a | Approve(id, a) in steps :: a == action
  {
  }

  /** The approval that a delivery on a token answers to. */
  lemma MadeByToken(steps: seq<Step>, path: DraftPath, sent: Letter) returns (letter: Letter)
    requires forall k: nat | k < |After(START, steps).out| :: Made(steps, k)
    requires ByMail(path, sent, ByToken) in After(START, steps).out
    ensures path.Handoff? && Approve(path.id, MailAction(letter)) in steps && sent == Addressed(HandedOver(letter))
  {
    hide After, Addressed, HandedOver;
    var k: nat :| k < |After(START, steps).out| && After(START, steps).out[k] == ByMail(path, sent, ByToken);
    assert Made(steps, k);
    var i: nat :| MadeBy(START, steps, k, i);
    assert ApprovedMail(steps[..i], path, sent);
    letter :| Approve(path.id, MailAction(letter)) in steps[..i] && sent == Addressed(HandedOver(letter));
  }

  /** The fields that make a letter the message it is. */
  predicate SameMessage(a: Letter, b: Letter) {
    && a.from == b.from && a.to == b.to && a.cc == b.cc && a.content == b.content
    && a.subject == b.subject && a.inReplyTo == b.inReplyTo
  }

  lemma Handed(letter: Letter)
    ensures var sent := Addressed(HandedOver(letter));
            SameMessage(sent, Addressed(letter)) && (sent == Addressed(letter) <==> letter.bcc == [])
  {
    hide Account;
  }
}
