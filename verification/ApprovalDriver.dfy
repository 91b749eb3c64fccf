/** The drivers of the approval protocol as they run: methods that rewrite draft, record and outbox files in place.
    Each is proved to do exactly what the specification functions say. */
module ApprovalDriver {
  import opened Wrappers
  import opened ApprovalSpec
  import opened Lines
  import opened Names

  class Spool {
    var drafts: map<DraftPath, Draft>
    var records: map<RecId, Record>
    var outbox: map<string, Outgoing>
    var token: string
    var announced: set<RecId>
    var notifiedNow: set<RecId>
    ghost var out: seq<Delivery>
    ghost var saved: seq<Letter>
    ghost var notices: seq<RecId>
    ghost var past: History

    constructor ()
      ensures View() == START
    {
      drafts, records, outbox, token, announced, notifiedNow := map[], map[], map[], "", {}, {};
      out, saved, notices := [], [], [];
      past := History(map[], map[], map[], {}, multiset{});
    }

    ghost function View(): Sys
      reads this
    {
      Sys(drafts, records, outbox, token, announced, notifiedNow, out, saved, notices, past)
    }

    /** The driver dies between a side effect and the write that records it. */
    ghost method Crash(root: Root)
      modifies this`past
      ensures View() == Crashed(old(View()), root)
    {
      past := past.(crashes := past.crashes + multiset{root});
    }

    // ----- queue.py ---------------------------------------------------------------------

    method StagePending(channel: Channel, action: Action, source: Option<DraftPath>, ident: string)
      modifies this`records, this`past
      ensures View() == Stage(old(View()), channel, action, source, ident)
    {
      var id, _ := FindFree(records.Keys, ident, 1);
      records := records[id := Record(channel, Pending, action, source, false)];
      past := past.(origin := past.origin[id := if source.Some? then RootOf(past, source.value) else OfLine(id)]);
    }

    // ----- the email driver ---------------------------------------------------------------

    method DumpDraft(path: DraftPath, d: Draft, crash: bool)
      modifies this`drafts, this`past
      ensures View() == SetDraft(old(View()), path, d, crash)
    {
      if crash {
        Crash(RootOf(past, path));
      } else {
        drafts := drafts[path := d];
      }
    }

    method ApprovedViaToken(d: Draft) returns (ok: bool)
      ensures ok <==> Strip(d.token) != "" && Strip(d.token) == token
    {
      ok := Strip(d.token) != "" && Strip(d.token) == token;
    }

    /** The owner's mode decides, unless the draft carries the token. */
    method CheckGate(d: Draft, e: Env) returns (gate: Gate)
      ensures gate == Gated(View(), d, e)
    {
      hide Strip;
      if !d.wantSend {
        return Save;
      }
      var approved := ApprovedViaToken(d);
      if approved {
        return Send(ByToken);
      }
      if e.mode.Yes? {
        return Send(ByMode);
      }
      if e.mode.Ask? && e.allowlisted && d.letter.inReplyTo == "" {
        return Send(ByAllowlist);
      }
      gate := if e.mode.Ask? then Queue else Save;
    }

    /** Runs the script and writes down how it went. */
    method HandToMail(path: DraftPath, d: Draft, gate: Gate, e: Env)
      requires !gate.Queue?
      modifies this`drafts, this`out, this`saved, this`past
      ensures View() == RunScript(old(View()), path, d, gate, e)
    {
      hide Account, RootOf;
      var letter := d.letter.(from := Account(d.letter.from));
      if e.outcome.Fine? {
        if gate.Send? {
          out := out + [ByMail(path, letter, gate.authority)];
          DumpDraft(path, d.(state := Sent, retries := 0), e.crash);
        } else {
          saved := saved + [letter];
          DumpDraft(path, d.(state := Drafted, retries := 0), e.crash);
        }
      } else if e.outcome.ParentMissing? && letter.inReplyTo != "" && d.retries < REPLY_RETRIES {
        DumpDraft(path, d.(state := PendingParent, retries := d.retries + 1), e.crash);
      } else {
        DumpDraft(path, d.(state := Failed), e.crash);
      }
    }

    method ProcessDraft(path: DraftPath, e: Env)
      modifies this
      ensures View() == ApprovalSpec.ProcessDraft(old(View()), path, e)
    {
      hide Account, RunScript, SetDraft, Stage, Gated;
      if path in drafts {
        var d := drafts[path];
        if !Terminal(d.state) && (d.letter.to != [] || d.letter.inReplyTo != "") {
          var account := Account(d.letter.from);
          if account == "" || !e.known {
            DumpDraft(path, d.(state := Failed), e.crash);
          } else {
            var gate := CheckGate(d, e);
            if gate.Queue? {
              StagePending(Email, MailAction(d.letter.(from := account)), Some(path), e.ident);
              DumpDraft(path, d.(state := PendingApproval), e.crash);
            } else {
              HandToMail(path, d, gate, e);
            }
          }
        }
      }
    }

    // ----- the approvals driver --------------------------------------------------------------

    method DumpRecord(id: RecId, r: Record, crash: bool)
      modifies this`records, this`past
      ensures View() == SetRecord(old(View()), id, r, crash)
    {
      if crash {
        Crash(RootOfRecord(past, id));
      } else {
        records := records[id := r];
      }
    }

    method DeliverEmail(id: RecId, r: Record, e: Env)
      modifies this`drafts, this`records, this`past
      ensures View() == ApprovalSpec.DeliverEmail(old(View()), id, r, e)
    {
      if r.action.TextAction? || r.action.letter.from == "" {
        DumpRecord(id, r.(status := Failure), e.crash);
        return;
      }
      var a := r.action.letter;
      if a.to == [] && a.inReplyTo == "" {
        DumpRecord(id, r.(status := Failure), e.crash);
        return;
      }
      var letter := Letter(a.from, a.to, a.cc, [], a.content, a.subject, a.inReplyTo);
      drafts := drafts[Handoff(id) := Draft(letter, true, token, New, 0)];
      DumpRecord(id, r.(status := Dispatched), e.crash);
    }

    method DeliverInline(id: RecId, r: Record, e: Env)
      modifies this`records, this`out, this`past
      ensures View() == ApprovalSpec.DeliverInline(old(View()), id, r, e)
    {
      hide Strip, SetRecord;
      if !r.action.TextAction? || Strip(r.action.thread) == "" || Strip(r.action.text) == "" || !e.known
          || e.outcome != Fine {
        DumpRecord(id, r.(status := Failure), e.crash);
      } else {
        out := out + [Inline(id, Strip(r.action.thread), r.action.text)];
        DumpRecord(id, r.(status := Delivered), e.crash);
      }
    }

    /** `stage_approved_handoff`: a file under a name of its own. */
    method StageHandoff(id: RecId, thread: string, text: string, ident: string)
      modifies this`outbox, this`past
      ensures var s, file := old(View()), FirstFree(old(outbox).Keys, ident, 1);
              View() == s.(outbox := s.outbox[file := Outgoing(thread, text, token)],
                           past := s.past.(filedFor := s.past.filedFor[file := id]))
    {
      var file, _ := FindFree(outbox.Keys, ident, 1);
      outbox := outbox[file := Outgoing(thread, text, token)];
      past := past.(filedFor := past.filedFor[file := id]);
    }

    method DeliverWhatsApp(id: RecId, r: Record, e: Env)
      modifies this`records, this`outbox, this`past
      ensures View() == ApprovalSpec.DeliverWhatsApp(old(View()), id, r, e)
    {
      hide Strip, FirstFree, IsFirstFree, SetRecord;
      if !r.action.TextAction? || Strip(r.action.thread) == "" || Strip(r.action.text) == "" || !e.known {
        DumpRecord(id, r.(status := Failure), e.crash);
      } else {
        StageHandoff(id, Strip(r.action.thread), r.action.text, e.ident);
        DumpRecord(id, r.(status := Dispatched), e.crash);
      }
    }

    method NotifyRejected(id: RecId, r: Record, e: Env)
      modifies this
      ensures View() == ApprovalSpec.NotifyRejected(old(View()), id, r, e)
    {
      notifiedNow := notifiedNow + {id};
      notices := notices + [id];
      if r.channel.Email? && r.source.Some? && r.source.value in drafts {
        drafts := drafts[r.source.value := drafts[r.source.value].(state := Failed)];
      }
      DumpRecord(id, r.(notified := true), e.crash);
    }

    method ProcessRecord(id: RecId, e: Env)
      modifies this
      ensures View() == ApprovalSpec.ProcessRecord(old(View()), id, e)
    {
      if id !in records || records[id].channel.Bash? {
        return;
      }
      hide ApprovalSpec.NotifyRejected, ApprovalSpec.DeliverEmail, ApprovalSpec.DeliverInline,
          ApprovalSpec.DeliverWhatsApp, SetRecord;
      var r := records[id];
      if r.status.Rejected? {
        if !r.notified && id !in notifiedNow {
          NotifyRejected(id, r, e);
        }
        return;
      }
      if r.status.Pending? {
        announced := announced + {id};
        return;
      }
      if !r.status.Approved? {
        return;
      }
      if r.channel.Email? {
        DeliverEmail(id, r, e);
      } else if r.channel.IMessage? || r.channel.Slack? {
        DeliverInline(id, r, e);
      } else if r.channel.WhatsApp? {
        DeliverWhatsApp(id, r, e);
      } else {
        DumpRecord(id, r.(status := Failure), e.crash);
      }
    }

    // ----- the WhatsApp process ------------------------------------------------------------------

    method Unlink(file: string, crash: bool)
      modifies this`outbox, this`past
      ensures View() == RemoveFile(old(View()), file, crash)
    {
      if crash {
        Crash(RootOfFile(past, file));
      } else {
        outbox := outbox - {file};
      }
    }

    method ProcessOutbox(file: string, e: Env)
      modifies this
      ensures View() == ApprovalSpec.ProcessOutbox(old(View()), file, e)
    {
      if file !in outbox {
        return;
      }
      hide Strip, RemoveFile;
      var f := outbox[file];
      if Strip(f.token) == "" || Strip(f.token) != token || Strip(f.thread) == "" || Strip(f.text) == "" || !e.known {
        Unlink(file, e.crash);
        return;
      }
      if e.outcome != Fine {
        return;
      }
      out := out + [ByBridge(if file in past.filedFor then past.filedFor[file] else file, Strip(f.thread), f.text)];
      Unlink(file, e.crash);
    }

    /** A boot makes a new token and looks at every record again; `envs` says how each look goes. */
    method Boot(secret: string, ids: seq<RecId>, envs: seq<Env>)
      requires |envs| == |ids|
      modifies this
      ensures View() == After(old(View()), [ApprovalSpec.Boot(secret)] + Looks(ids, envs))
    {
      token, announced, notifiedNow := secret, {}, {};
      past := past.(minted := past.minted + {secret});
      ghost var start := View();
      assert start == Next(old(View()), ApprovalSpec.Boot(secret));
      hide Next, ApprovalSpec.ProcessRecord;
      for i := 0 to |ids|
        invariant View() == After(start, Looks(ids[..i], envs[..i]))
      {
        ProcessRecord(ids[i], envs[i]);
        OneMoreLook(start, ids, envs, i);
      }
      assert ids[..|ids|] == ids && envs[..|envs|] == envs;
      var looks := Looks(ids, envs);
      assert ([ApprovalSpec.Boot(secret)] + looks)[1..] == looks;
    }
  }

  function Looks(ids: seq<RecId>, envs: seq<Env>): (steps: seq<Step>)
    requires |envs| == |ids|
    ensures |steps| == |ids|
  {
    seq(|ids|, i requires 0 <= i < |ids| => LookAtRecord(ids[i], envs[i]))
  }

  lemma OneMoreLook(start: Sys, ids: seq<RecId>, envs: seq<Env>, i: nat)
    requires |envs| == |ids| && i < |ids|
    ensures After(start, Looks(ids[..i + 1], envs[..i + 1])) ==
            ProcessRecord(After(start, Looks(ids[..i], envs[..i])), ids[i], envs[i])
  {
    assert Looks(ids[..i + 1], envs[..i + 1]) == Looks(ids[..i], envs[..i]) + [LookAtRecord(ids[i], envs[i])];
    AfterSnoc(start, Looks(ids[..i], envs[..i]), LookAtRecord(ids[i], envs[i]));
    hide After, ProcessRecord, Looks;
  }

  lemma {:induction false} AfterSnoc(s: Sys, steps: seq<Step>, step: Step)
    ensures After(s, steps + [step]) == Next(After(s, steps), step)
    decreases |steps|
  {
    hide Next;
    if steps == [] {
      assert steps + [step] == [step];
    } else {
      assert (steps + [step])[1..] == steps[1..] + [step];
      AfterSnoc(Next(s, steps[0]), steps[1..], step);
    }
  }
}
