/** One draft or staged line leads to at most one delivery, plus one for each crash between a side effect
    and the write that records it. */
module ApprovalBudget {
  import opened Wrappers
  import opened ApprovalSpec
  import opened Names

  function One(b: bool): nat {
    if b then 1 else 0
  }

  // ----- everything that may still lead to a delivery -----------------------------------

  function LiveDrafts(drafts: map<DraftPath, Draft>, past: History, root: Root): set<DraftPath> {
    set p | p in drafts && !Terminal(drafts[p].state) && RootOf(past, p) == root
  }

  predicate Open(r: Record) {
    r.status.Pending? || r.status.Approved?
  }

  function LiveRecords(records: map<RecId, Record>, past: History, root: Root): set<RecId> {
    set id | id in records && Open(records[id]) && RootOfRecord(past, id) == root
  }

  function LiveFiles(outbox: map<string, Outgoing>, past: History, root: Root): set<string> {
    set f | f in outbox && RootOfFile(past, f) == root
  }

  function RootOfDelivery(past: History, d: Delivery): Root {
    match d
    case ByMail(path, _, _) => RootOf(past, path)
    case Inline(id, _, _) => RootOfRecord(past, id)
    case ByBridge(id, _, _) => RootOfRecord(past, id)
  }

  function Count(out: seq<Delivery>, past: History, root: Root): nat {
    if out == [] then 0 else
      Count(out[..|out| - 1], past, root) + One(RootOfDelivery(past, out[|out| - 1]) == root)
  }

  /** Deliveries made, and files that may still lead to one, less the crashes. */
  function Net(s: Sys, root: Root): int {
    |LiveDrafts(s.drafts, s.past, root)| + |LiveRecords(s.records, s.past, root)| + |LiveFiles(s.outbox, s.past, root)|
    + Count(s.out, s.past, root) - s.past.crashes[root]
  }

  predicate Started(s: Sys, root: Root) {
    match root
    case OfDraft(name) => Own(name) in s.drafts
    case OfLine(id) => id in s.records
  }

  /** Whatever names a record names one that exists. */
  ghost predicate Linked(s: Sys) {
    && (forall id | Handoff(id) in s.drafts :: id in s.records)
    && (forall id | id in s.records :: id in s.past.origin)
    && (forall f | f in s.outbox :: f in s.past.filedFor && s.past.filedFor[f] in s.records)
    && (forall d | d in s.out :: NamesRecord(s, d))
  }

  predicate NamesRecord(s: Sys, d: Delivery) {
    match d
    case ByMail(path, _, _) => path.Own? || path.id in s.records
    case Inline(id, _, _) => id in s.records
    case ByBridge(id, _, _) => id in s.records
  }

  // ----- how single edits change the balance ---------------------------------------------

  lemma CardUpdate<T>(a: set<T>, b: set<T>, x: T)
    requires a - {x} == b - {x}
    ensures |b| == |a| - One(x in a) + One(x in b)
  {
    if x in a {
      assert a == (a - {x}) + {x};
    } else {
      assert a == a - {x};
    }
    if x in b {
      assert b == (b - {x}) + {x};
    } else {
      assert b == b - {x};
    }
  }

  function LiveAt(s: Sys, p: DraftPath, root: Root): bool {
    p in s.drafts && !Terminal(s.drafts[p].state) && RootOf(s.past, p) == root
  }

  function OpenAt(s: Sys, id: RecId, root: Root): bool {
    id in s.records && Open(s.records[id]) && RootOfRecord(s.past, id) == root
  }

  function FileAt(s: Sys, f: string, root: Root): bool {
    f in s.outbox && RootOfFile(s.past, f) == root
  }

  lemma DraftNet(s: Sys, p: DraftPath, d: Draft, root: Root)
    ensures var t := s.(drafts := s.drafts[p := d]);
            Net(t, root) == Net(s, root) - One(LiveAt(s, p, root)) + One(LiveAt(t, p, root))
  {
    var t := s.(drafts := s.drafts[p := d]);
    CardUpdate(LiveDrafts(s.drafts, s.past, root), LiveDrafts(t.drafts, s.past, root), p);
  }

  lemma RecordNet(s: Sys, id: RecId, r: Record, root: Root)
    ensures var t := s.(records := s.records[id := r]);
            Net(t, root) == Net(s, root) - One(OpenAt(s, id, root)) + One(OpenAt(t, id, root))
  {
    var t := s.(records := s.records[id := r]);
    CardUpdate(LiveRecords(s.records, s.past, root), LiveRecords(t.records, s.past, root), id);
  }

  /** Everything there is goes back to the same roots under `later`. */
  ghost predicate SameRoots(s: Sys, later: History) {
    && (forall p | p in s.drafts :: RootOf(later, p) == RootOf(s.past, p))
    && (forall id | id in s.records :: RootOfRecord(later, id) == RootOfRecord(s.past, id))
    && (forall f | f in s.outbox :: RootOfFile(later, f) == RootOfFile(s.past, f))
    && (forall d | d in s.out :: RootOfDelivery(later, d) == RootOfDelivery(s.past, d))
  }

  lemma LiveSame(s: Sys, later: History, root: Root)
    requires SameRoots(s, later)
    ensures LiveDrafts(s.drafts, later, root) == LiveDrafts(s.drafts, s.past, root)
    ensures LiveRecords(s.records, later, root) == LiveRecords(s.records, s.past, root)
    ensures LiveFiles(s.outbox, later, root) == LiveFiles(s.outbox, s.past, root)
    ensures Count(s.out, later, root) == Count(s.out, s.past, root)
  {
    CountSame(s.out, s.past, later, root);
    hide RootOf, RootOfRecord, RootOfFile, RootOfDelivery, Count;
  }

  lemma FileRoots(s: Sys, f: string, id: RecId)
    requires f !in s.outbox
    ensures SameRoots(s, s.past.(filedFor := s.past.filedFor[f := id]))
  {
  }

  lemma FileAddNet(s: Sys, f: string, o: Outgoing, id: RecId, root: Root)
    requires f !in s.outbox
    ensures var t := s.(outbox := s.outbox[f := o], past := s.past.(filedFor := s.past.filedFor[f := id]));
            Net(t, root) == Net(s, root) + One(RootOfRecord(s.past, id) == root)
  {
    var past := s.past.(filedFor := s.past.filedFor[f := id]);
    FileRoots(s, f, id);
    LiveSame(s, past, root);
    hide LiveDrafts, LiveRecords, Count, SameRoots;
    CardUpdate(LiveFiles(s.outbox, past, root), LiveFiles(s.outbox[f := o], past, root), f);
  }

  lemma FileRemoveNet(s: Sys, f: string, root: Root)
    ensures var t := s.(outbox := s.outbox - {f}); Net(t, root) == Net(s, root) - One(FileAt(s, f, root))
  {
    var t := s.(outbox := s.outbox - {f});
    CardUpdate(LiveFiles(s.outbox, s.past, root), LiveFiles(t.outbox, s.past, root), f);
  }

  lemma DeliverNet(s: Sys, d: Delivery, root: Root)
    ensures Net(Deliver(s, d), root) == Net(s, root) + One(RootOfDelivery(s.past, d) == root)
  {
    assert (s.out + [d])[..|s.out|] == s.out;
  }

  lemma CrashNet(s: Sys, at: Root, root: Root)
    ensures Net(Crashed(s, at), root) == Net(s, root) - One(at == root)
  {
    var past := Crashed(s, at).past;
    assert SameRoots(s, past);
    LiveSame(s, past, root);
    hide LiveDrafts, LiveRecords, LiveFiles, Count, SameRoots;
  }

  lemma {:induction false} CountSame(out: seq<Delivery>, past: History, later: History, root: Root)
    requires forall d | d in out :: RootOfDelivery(later, d) == RootOfDelivery(past, d)
    ensures Count(out, later, root) == Count(out, past, root)
  {
    if out != [] {
      CountSame(out[..|out| - 1], past, later, root);
    }
  }

  lemma StageRoots(s: Sys, id: RecId, root: Root)
    requires Linked(s) && id !in s.records
    ensures SameRoots(s, s.past.(origin := s.past.origin[id := root]))
  {
  }

  lemma RecordAddNet(s: Sys, id: RecId, r: Record, root: Root)
    requires id !in s.records
    ensures var t := s.(records := s.records[id := r]); Net(t, root) == Net(s, root) + One(OpenAt(t, id, root))
  {
    RecordNet(s, id, r, root);
  }

  lemma LineNet(s: Sys, id: RecId, r: Record, from: Root, root: Root)
    requires Linked(s) && id !in s.records && Open(r)
    ensures var past := s.past.(origin := s.past.origin[id := from]);
            Net(s.(records := s.records[id := r], past := past), root) == Net(s, root) + One(root == from)
  {
    var past := s.past.(origin := s.past.origin[id := from]);
    StageRoots(s, id, from);
    LiveSame(s, past, root);
    RecordAddNet(s.(past := past), id, r, root);
    hide LiveDrafts, LiveRecords, LiveFiles, Count, SameRoots, Linked;
  }

  /** A new record joins the lineage of its source; nothing else changes its lineage. */
  lemma StageNet(s: Sys, channel: Channel, action: Action, source: Option<DraftPath>, ident: string, root: Root)
    requires Linked(s)
    ensures var t := Stage(s, channel, action, source, ident);
            var id := FirstFree(s.records.Keys, ident, 1);
            && id !in s.records && SameRoots(s, t.past)
            && Net(t, root) == Net(s, root)
                + One(root == if source.Some? then RootOf(s.past, source.value) else OfLine(id))
  {
    hide Net, SameRoots, Linked, IsFirstFree;
    var id := FirstFree(s.records.Keys, ident, 1);
    hide FirstFree;
    var from := if source.Some? then RootOf(s.past, source.value) else OfLine(id);
    var r := Record(channel, Pending, action, source, false);
    StageRoots(s, id, from);
    LineNet(s, id, r, from, root);
  }

  // ----- one file at a time -----------------------------------------------------------------

  /** Files stay, and what they name exists. */
  ghost predicate Extends(s: Sys, t: Sys) {
    && s.drafts.Keys <= t.drafts.Keys && s.records.Keys <= t.records.Keys
    && Linked(t)
  }

  /** Writing a state that is final, or a crash instead, settles a live draft. */
  lemma SetDraftNet(s: Sys, p: DraftPath, d: Draft, crash: bool, root: Root)
    requires Linked(s) && p in s.drafts && !Terminal(s.drafts[p].state)
    ensures var t := SetDraft(s, p, d, crash);
            && Extends(s, t)
            && Net(t, root) <= Net(s, root) - One(RootOf(s.past, p) == root)
                + One(!crash && !Terminal(d.state) && RootOf(s.past, p) == root)
  {
    if crash {
      CrashNet(s, RootOf(s.past, p), root);
    } else {
      DraftNet(s, p, d, root);
    }
    hide Net, RootOf;
  }

  lemma SetRecordNet(s: Sys, id: RecId, r: Record, crash: bool, root: Root)
    requires Linked(s) && id in s.records && (Open(r) ==> Open(s.records[id]))
    ensures var t := SetRecord(s, id, r, crash);
            && Extends(s, t)
            && Net(t, root) <= Net(s, root)
            && (Open(s.records[id]) && !Open(r) ==>
                Net(t, root) <= Net(s, root) - One(RootOfRecord(s.past, id) == root))
  {
    if crash {
      CrashNet(s, RootOfRecord(s.past, id), root);
    } else {
      RecordNet(s, id, r, root);
    }
    hide Net, RootOf, RootOfRecord;
  }

  lemma StageExtends(s: Sys, channel: Channel, action: Action, source: Option<DraftPath>, ident: string)
    requires Linked(s)
    ensures Extends(s, Stage(s, channel, action, source, ident))
  {
    hide FirstFree;
  }

  function Asked(p: DraftPath, d: Draft, gate: Gate): Delivery {
    ByMail(p, d.letter.(from := Account(d.letter.from)), if gate.Send? then gate.authority else ByMode)
  }

  function Kept(s: Sys, d: Draft): Sys {
    s.(saved := s.saved + [d.letter.(from := Account(d.letter.from))])
  }

  lemma RunScriptCases(s: Sys, p: DraftPath, d: Draft, gate: Gate, e: Env)
    requires !gate.Queue?
    ensures var t := RunScript(s, p, d, gate, e);
            || t == SetDraft(Deliver(s, Asked(p, d, gate)), p, d.(state := Sent, retries := 0), e.crash)
            || t == SetDraft(Kept(s, d), p, d.(state := Drafted, retries := 0), e.crash)
            || t == SetDraft(s, p, d.(state := PendingParent, retries := d.retries + 1), e.crash)
            || t == SetDraft(s, p, d.(state := Failed), e.crash)
  {
    hide SetDraft, Deliver, Account;
  }

  lemma KeptNet(s: Sys, d: Draft, root: Root)
    requires Linked(s)
    ensures var t := Kept(s, d);
            Net(t, root) == Net(s, root) && Linked(t) && t.drafts == s.drafts && t.past == s.past
            && t.records == s.records
  {
    hide Account;
    SavedNet(s, Kept(s, d).saved, root);
  }

  lemma DeliverNames(s: Sys, p: DraftPath, d: Draft, gate: Gate)
    requires Linked(s) && p in s.drafts
    ensures NamesRecord(s, Asked(p, d, gate)) && RootOfDelivery(s.past, Asked(p, d, gate)) == RootOf(s.past, p)
  {
    hide Account;
  }

  lemma DeliverKeeps(s: Sys, d: Delivery)
    requires Linked(s) && NamesRecord(s, d)
    ensures var t := Deliver(s, d);
            Linked(t) && t.drafts == s.drafts && t.records == s.records && t.outbox == s.outbox && t.past == s.past
  {
  }

  lemma RunScriptNet(s: Sys, p: DraftPath, d: Draft, gate: Gate, e: Env, root: Root)
    requires Linked(s) && p in s.drafts && !Terminal(s.drafts[p].state) && !gate.Queue?
    ensures Extends(s, RunScript(s, p, d, gate, e)) && Net(RunScript(s, p, d, gate, e), root) <= Net(s, root)
  {
    hide Net, Linked, RunScript, RootOf, Asked, Kept, Deliver, SetDraft, RootOfDelivery, NamesRecord;
    RunScriptCases(s, p, d, gate, e);
    var delivery := Asked(p, d, gate);
    DeliverNames(s, p, d, gate);
    DeliverKeeps(s, delivery);
    DeliverNet(s, delivery, root);
    KeptNet(s, d, root);
    SetDraftNet(Deliver(s, delivery), p, d.(state := Sent, retries := 0), e.crash, root);
    SetDraftNet(Kept(s, d), p, d.(state := Drafted, retries := 0), e.crash, root);
    SetDraftNet(s, p, d.(state := PendingParent, retries := d.retries + 1), e.crash, root);
    SetDraftNet(s, p, d.(state := Failed), e.crash, root);
  }

  lemma SavedNet(s: Sys, saved: seq<Letter>, root: Root)
    ensures Net(s.(saved := saved), root) == Net(s, root)
    ensures Linked(s) ==> Linked(s.(saved := saved))
  {
  }

  lemma QueueNet(s: Sys, p: DraftPath, action: Action, d: Draft, e: Env, root: Root)
    requires Linked(s) && p in s.drafts && !Terminal(s.drafts[p].state) && Terminal(d.state)
    ensures var t := SetDraft(Stage(s, Email, action, Some(p), e.ident), p, d, e.crash);
            Extends(s, t) && Net(t, root) <= Net(s, root)
  {
    var mid := Stage(s, Email, action, Some(p), e.ident);
    StageNet(s, Email, action, Some(p), e.ident, root);
    StageExtends(s, Email, action, Some(p), e.ident);
    hide Net, Linked, RootOf, FirstFree;
    SetDraftNet(mid, p, d, e.crash, root);
    hide SetDraft;
  }

  lemma ProcessDraftCases(s: Sys, p: DraftPath, e: Env)
    requires p in s.drafts
    ensures var t, d := ProcessDraft(s, p, e), s.drafts[p];
            || t == s
            || (!Terminal(d.state) && t == SetDraft(s, p, d.(state := Failed), e.crash))
            || (!Terminal(d.state)
                && t == SetDraft(Stage(s, Email, MailAction(d.letter.(from := Account(d.letter.from))), Some(p),
                e.ident), p,
                                                    d.(state := PendingApproval), e.crash))
            || (!Terminal(d.state) && !Gated(s, d, e).Queue? && t == RunScript(s, p, d, Gated(s, d, e), e))
  {
    hide SetDraft, Account, Stage, RunScript, Gated;
  }

  lemma ProcessDraftNet(s: Sys, p: DraftPath, e: Env, root: Root)
    requires Linked(s)
    ensures Extends(s, ProcessDraft(s, p, e)) && Net(ProcessDraft(s, p, e), root) <= Net(s, root)
  {
    if p in s.drafts {
      hide Net, Linked, SetDraft, RunScript, Gated, Stage, Account, RootOf, ProcessDraft;
      ProcessDraftCases(s, p, e);
      if !Terminal(s.drafts[p].state) {
        var d := s.drafts[p];
        SetDraftNet(s, p, d.(state := Failed), e.crash, root);
        QueueNet(s, p, MailAction(d.letter.(from := Account(d.letter.from))), d.(state := PendingApproval), e, root);
        if !Gated(s, d, e).Queue? {
          RunScriptNet(s, p, d, Gated(s, d, e), e, root);
        }
      }
    }
  }

  // ----- the approvals driver ------------------------------------------------------------------

  lemma DraftAdded(s: Sys, id: RecId, draft: Draft, root: Root)
    requires Linked(s) && id in s.records
    ensures var t := s.(drafts := s.drafts[Handoff(id) := draft]);
            Extends(s, t) && Net(t, root) <= Net(s, root) + One(RootOfRecord(s.past, id) == root)
  {
    DraftNet(s, Handoff(id), draft, root);
    hide Net;
  }

  lemma DeliverEmailNet(s: Sys, id: RecId, r: Record, e: Env, root: Root)
    requires Linked(s) && id in s.records && s.records[id] == r && Open(r)
    ensures Extends(s, DeliverEmail(s, id, r, e)) && Net(DeliverEmail(s, id, r, e), root) <= Net(s, root)
  {
    hide Net, Linked, SetRecord, RootOfRecord;
    SetRecordNet(s, id, r.(status := Failure), e.crash, root);
    if r.action.MailAction? {
      var draft := Draft(HandedOver(r.action.letter), true, s.token, New, 0);
      DraftAdded(s, id, draft, root);
      SetRecordNet(s.(drafts := s.drafts[Handoff(id) := draft]), id, r.(status := Dispatched), e.crash, root);
    }
  }

  lemma SayNet(s: Sys, id: RecId, d: Delivery, root: Root)
    requires Linked(s) && id in s.records && (d.Inline? || d.ByBridge?) && d.id == id
    ensures var t := Deliver(s, d);
            && Extends(s, t) && t.drafts == s.drafts && t.records == s.records && t.outbox == s.outbox
                && t.past == s.past
            && Net(t, root) == Net(s, root) + One(RootOfRecord(s.past, id) == root)
  {
    DeliverKeeps(s, d);
    DeliverNet(s, d, root);
    hide Net;
  }

  lemma DeliverInlineNet(s: Sys, id: RecId, r: Record, e: Env, root: Root)
    requires Linked(s) && id in s.records && s.records[id] == r && Open(r)
    ensures Extends(s, DeliverInline(s, id, r, e)) && Net(DeliverInline(s, id, r, e), root) <= Net(s, root)
  {
    hide Net, Linked, SetRecord, RootOfRecord, Sayable, Deliver, Lines.Strip;
    SetRecordNet(s, id, r.(status := Failure), e.crash, root);
    if r.action.TextAction? {
      var d := Inline(id, Lines.Strip(r.action.thread), r.action.text);
      SayNet(s, id, d, root);
      SetRecordNet(Deliver(s, d), id, r.(status := Delivered), e.crash, root);
    }
    InlineNeedsText(s, id, r, e);
  }

  lemma InlineNeedsText(s: Sys, id: RecId, r: Record, e: Env)
    ensures DeliverInline(s, id, r, e) == SetRecord(s, id, r.(status := Failure), e.crash) || r.action.TextAction?
  {
    hide SetRecord;
  }

  /** The outbox file that a WhatsApp hand-off writes. */
  function Filed(s: Sys, id: RecId, action: Action, ident: string): Sys
    requires action.TextAction?
  {
    var file := FirstFree(s.outbox.Keys, ident, 1);
    s.(outbox := s.outbox[file := Outgoing(Lines.Strip(action.thread), action.text, s.token)],
       past := s.past.(filedFor := s.past.filedFor[file := id]))
  }

  lemma FileLinked(s: Sys, f: string, o: Outgoing, id: RecId)
    requires Linked(s) && id in s.records
    ensures Linked(s.(outbox := s.outbox[f := o], past := s.past.(filedFor := s.past.filedFor[f := id])))
  {
  }

  lemma FiledNet(s: Sys, id: RecId, action: Action, ident: string, root: Root)
    requires Linked(s) && id in s.records && action.TextAction?
    ensures var t := Filed(s, id, action, ident);
            && Extends(s, t) && t.records == s.records && RootOfRecord(t.past, id) == RootOfRecord(s.past, id)
            && Net(t, root) == Net(s, root) + One(RootOfRecord(s.past, id) == root)
  {
    hide FirstFree, Net, IsFirstFree, Linked, Lines.Strip;
    var file := FirstFree(s.outbox.Keys, ident, 1);
    var o := Outgoing(Lines.Strip(action.thread), action.text, s.token);
    FileLinked(s, file, o, id);
    FileAddNet(s, file, o, id, root);
  }

  lemma WhatsAppCases(s: Sys, id: RecId, r: Record, e: Env)
    ensures var t := DeliverWhatsApp(s, id, r, e);
            || t == SetRecord(s, id, r.(status := Failure), e.crash)
            || (r.action.TextAction?
                && t == SetRecord(Filed(s, id, r.action, e.ident), id, r.(status := Dispatched), e.crash))
  {
    hide SetRecord, FirstFree, IsFirstFree, Lines.Strip;
  }

  lemma DeliverWhatsAppNet(s: Sys, id: RecId, r: Record, e: Env, root: Root)
    requires Linked(s) && id in s.records && s.records[id] == r && Open(r)
    ensures Extends(s, DeliverWhatsApp(s, id, r, e)) && Net(DeliverWhatsApp(s, id, r, e), root) <= Net(s, root)
  {
    hide Net, Linked, SetRecord, RootOfRecord, Filed, DeliverWhatsApp;
    WhatsAppCases(s, id, r, e);
    SetRecordNet(s, id, r.(status := Failure), e.crash, root);
    if r.action.TextAction? {
      FiledNet(s, id, r.action, e.ident, root);
      SetRecordNet(Filed(s, id, r.action, e.ident), id, r.(status := Dispatched), e.crash, root);
    }
  }

  lemma FailDraftNet(s: Sys, p: DraftPath, root: Root)
    requires Linked(s) && p in s.drafts
    ensures var t := s.(drafts := s.drafts[p := s.drafts[p].(state := Failed)]);
            Extends(s, t) && Net(t, root) <= Net(s, root)
  {
    DraftNet(s, p, s.drafts[p].(state := Failed), root);
    hide Net;
  }

  lemma NoticeNet(s: Sys, id: RecId, root: Root)
    requires Linked(s)
    ensures var t := s.(notifiedNow := s.notifiedNow + {id}, notices := s.notices + [id]);
            Linked(t) && Net(t, root) == Net(s, root)
    ensures var t := s.(announced := s.announced + {id}); Linked(t) && Net(t, root) == Net(s, root)
  {
  }

  lemma NotifyRejectedNet(s: Sys, id: RecId, r: Record, e: Env, root: Root)
    requires Linked(s) && id in s.records && s.records[id] == r && r.status.Rejected?
    ensures Extends(s, NotifyRejected(s, id, r, e)) && Net(NotifyRejected(s, id, r, e), root) <= Net(s, root)
  {
    hide Net, Linked, SetRecord;
    var s1 := s.(notifiedNow := s.notifiedNow + {id}, notices := s.notices + [id]);
    NoticeNet(s, id, root);
    SetRecordNet(s1, id, r.(notified := true), e.crash, root);
    if r.source.Some? && r.source.value in s.drafts {
      var p := r.source.value;
      FailDraftNet(s1, p, root);
      SetRecordNet(s1.(drafts := s1.drafts[p := s1.drafts[p].(state := Failed)]), id, r.(notified := true), e.crash,
          root);
    }
  }

  lemma ProcessRecordNet(s: Sys, id: RecId, e: Env, root: Root)
    requires Linked(s)
    ensures Extends(s, ProcessRecord(s, id, e)) && Net(ProcessRecord(s, id, e), root) <= Net(s, root)
  {
    hide Net, Linked, SetRecord, NotifyRejected, DeliverEmail, DeliverInline, DeliverWhatsApp;
    NoticeNet(s, id, root);
    if id in s.records {
      var r := s.records[id];
      match r.status {
        case Rejected => NotifyRejectedNet(s, id, r, e, root);
        case Approved =>
          DeliverEmailNet(s, id, r, e, root);
          DeliverInlineNet(s, id, r, e, root);
          DeliverWhatsAppNet(s, id, r, e, root);
          SetRecordNet(s, id, r.(status := Failure), e.crash, root);
        case _ =>
      }
    }
  }

  lemma RemoveFileNet(s: Sys, f: string, crash: bool, root: Root)
    requires Linked(s) && f in s.outbox
    ensures var t := RemoveFile(s, f, crash);
            Extends(s, t) && Net(t, root) <= Net(s, root) - One(RootOfFile(s.past, f) == root)
  {
    if crash {
      CrashNet(s, RootOfFile(s.past, f), root);
    } else {
      FileRemoveNet(s, f, root);
    }
    hide Net, RootOfFile;
  }

  lemma FileRoot(s: Sys, f: string)
    requires Linked(s) && f in s.outbox
    ensures f in s.past.filedFor && s.past.filedFor[f] in s.records
    ensures RootOfFile(s.past, f) == RootOfRecord(s.past, s.past.filedFor[f])
  {
  }

  lemma ProcessOutboxNet(s: Sys, f: string, e: Env, root: Root)
    requires Linked(s)
    ensures Extends(s, ProcessOutbox(s, f, e)) && Net(ProcessOutbox(s, f, e), root) <= Net(s, root)
  {
    hide Net, Linked, RemoveFile, RootOfFile, RootOfRecord, Deliver, Lines.Strip;
    if f in s.outbox {
      FileRoot(s, f);
      var id := s.past.filedFor[f];
      var d := ByBridge(id, Lines.Strip(s.outbox[f].thread), s.outbox[f].text);
      RemoveFileNet(s, f, e.crash, root);
      SayNet(s, id, d, root);
      RemoveFileNet(Deliver(s, d), f, e.crash, root);
    }
  }

  // ----- whole runs -----------------------------------------------------------------------------

  lemma WriteLinked(s: Sys, name: string, draft: Draft)
    requires Linked(s)
    ensures Linked(s.(drafts := s.drafts[Own(name) := draft]))
  {
  }

  lemma WriteNet(s: Sys, name: string, draft: Draft, root: Root)
    requires Linked(s) && Enabled(s, WriteDraft(name, draft))
    ensures var t := s.(drafts := s.drafts[Own(name) := draft]);
            Extends(s, t) && Net(t, root) <= Net(s, root) + One(Started(t, root)) - One(Started(s, root))
  {
    hide Net, Linked, Lines.Strip;
    WriteLinked(s, name, draft);
    DraftNet(s, Own(name), draft, root);
  }

  lemma LineStep(s: Sys, channel: Channel, action: Action, ident: string, root: Root)
    requires Linked(s)
    ensures var t := Stage(s, channel, action, None, ident);
            Extends(s, t) && Net(t, root) <= Net(s, root) + One(Started(t, root)) - One(Started(s, root))
  {
    StageExtends(s, channel, action, None, ident);
    StageNet(s, channel, action, None, ident, root);
    hide Net, Linked, IsFirstFree, SameRoots;
    assert FirstFree(s.records.Keys, ident, 1) in Stage(s, channel, action, None, ident).records by { hide FirstFree; }
    hide Stage, FirstFree;
  }

  lemma PastNet(s: Sys, past: History, root: Root)
    requires SameRoots(s, past) && past.crashes == s.past.crashes
    ensures Net(s.(past := past), root) == Net(s, root)
  {
    LiveSame(s, past, root);
    hide LiveDrafts, LiveRecords, LiveFiles, Count, SameRoots;
  }

  lemma DecisionNet(s: Sys, id: RecId, r: Record, root: Root)
    requires Linked(s) && id in s.records && s.records[id].status.Pending?
    ensures var t := s.(records := s.records[id := r]); Extends(s, t) && Net(t, root) <= Net(s, root)
  {
    RecordNet(s, id, r, root);
    hide Net;
  }

  lemma GrantSame(s: Sys, granted: map<RecId, Action>)
    ensures SameRoots(s, s.past.(granted := granted))
    ensures Linked(s) ==> Linked(s.(past := s.past.(granted := granted)))
  {
  }

  lemma MintSame(s: Sys, minted: set<string>)
    ensures SameRoots(s, s.past.(minted := minted))
    ensures Linked(s) ==> Linked(s.(past := s.past.(minted := minted)))
  {
  }

  lemma OwnerNet(s: Sys, id: RecId, action: Action, root: Root)
    requires Linked(s) && id in s.records && s.records[id].status.Pending?
    ensures var t := Next(s, Approve(id, action)); Extends(s, t) && Net(t, root) <= Net(s, root)
    ensures var t := Next(s, Reject(id)); Extends(s, t) && Net(t, root) <= Net(s, root)
  {
    hide Net, Linked, SameRoots;
    var r := s.records[id].(status := Approved, action := action);
    DecisionNet(s, id, r, root);
    DecisionNet(s, id, s.records[id].(status := Rejected), root);
    var mid := s.(records := s.records[id := r]);
    var past := s.past.(granted := s.past.granted[id := action]);
    GrantSame(mid, past.granted);
    PastNet(mid, past, root);
  }

  lemma BootNet(s: Sys, token: string, root: Root)
    requires Linked(s)
    ensures var t := Next(s, Boot(token)); Extends(s, t) && Net(t, root) == Net(s, root)
  {
    var mid := s.(token := token, announced := {}, notifiedNow := {});
    assert Linked(mid) && Net(mid, root) == Net(s, root);
    hide Net, Linked, SameRoots;
    MintSame(mid, s.past.minted + {token});
    PastNet(mid, s.past.(minted := s.past.minted + {token}), root);
  }

  lemma NextNet(s: Sys, step: Step, root: Root)
    requires Linked(s) && Enabled(s, step)
    ensures var t := Next(s, step);
            Extends(s, t) && Net(t, root) - One(Started(t, root)) <= Net(s, root) - One(Started(s, root))
  {
    hide Net, Linked, ProcessDraft, ProcessRecord, ProcessOutbox, Stage;
    match step {
      case WriteDraft(name, draft) => WriteNet(s, name, draft, root);
      case StageLine(channel, thread, text, ident) => LineStep(s, channel, TextAction(thread, text), ident, root);
      case LookAtDraft(path, env) => ProcessDraftNet(s, path, env, root);
      case LookAtRecord(id, env) => ProcessRecordNet(s, id, env, root);
      case LookAtFile(file, env) => ProcessOutboxNet(s, file, env, root);
      case Approve(id, action) => OwnerNet(s, id, action, root);
      case Reject(id) => OwnerNet(s, id, s.records[id].action, root);
      case Boot(token) => BootNet(s, token, root);
    }
  }

  lemma {:induction false} RunNet(s: Sys, steps: seq<Step>, root: Root)
    requires Linked(s) && Possible(s, steps)
    ensures var t := After(s, steps);
            Extends(s, t) && Net(t, root) - One(Started(t, root)) <= Net(s, root) - One(Started(s, root))
    decreases |steps|
  {
    hide Net, Linked, Started, Enabled, Next;
    if steps != [] {
      NextNet(s, steps[0], root);
      RunNet(Next(s, steps[0]), steps[1..], root);
    }
  }

  /** Over every run, whatever the order of file events, decisions, mode changes and boots: what one draft or
      staged line has led to, with what it may still lead to, is at most one plus its crashes. */
  lemma DeliveredAtMostOnce(steps: seq<Step>, root: Root)
    requires Possible(START, steps)
    ensures var s := After(START, steps);
            && Count(s.out, s.past, root) <= 1 + s.past.crashes[root]
            && |LiveDrafts(s.drafts, s.past, root)| + |LiveRecords(s.records, s.past, root)|
                + |LiveFiles(s.outbox, s.past, root)|
               + Count(s.out, s.past, root) <= 1 + s.past.crashes[root]
  {
    assert Net(START, root) == 0 by {
      assert LiveDrafts(START.drafts, START.past, root) == {};
      assert LiveRecords(START.records, START.past, root) == {};
      assert LiveFiles(START.outbox, START.past, root) == {};
    }
    RunNet(START, steps, root);
    hide LiveDrafts, LiveRecords, LiveFiles, Count;
  }

  lemma YesSends(s: Sys, p: DraftPath, e: Env)
    requires p in s.drafts
    requires var d := s.drafts[p]; d.wantSend && d.state.New? && d.letter.to != [] && Account(d.letter.from) != ""
    requires e.mode.Yes? && e.known && e.outcome.Fine?
    ensures var t, d := ProcessDraft(s, p, e), s.drafts[p];
            && Gated(s, d, e).Send?
            && t == SetDraft(Deliver(s, Asked(p, d, Gated(s, d, e))), p, d.(state := Sent, retries := 0), e.crash)
  {
    hide Account, Lines.Strip, SetDraft, Deliver;
  }

  /** The bound is met: a crash after a send, before the draft is marked, makes the driver send again. */
  lemma CrashSendsAgain(s: Sys, name: string, e: Env)
    requires Own(name) in s.drafts
    requires var d := s.drafts[Own(name)];
             d.wantSend && d.state.New? && d.letter.to != [] && Account(d.letter.from) != ""
    requires e.mode.Yes? && e.known && e.outcome.Fine?
    ensures var t := ProcessDraft(ProcessDraft(s, Own(name), e.(crash := true)), Own(name), e.(crash := false));
            && |t.out| == |s.out| + 2
            && t.out[|s.out|].ByMail? && t.out[|s.out|] == t.out[|s.out| + 1]
  {
    hide ProcessDraft, Account, Lines.Strip;
    YesSends(s, Own(name), e.(crash := true));
    YesSends(ProcessDraft(s, Own(name), e.(crash := true)), Own(name), e.(crash := false));
  }
}
