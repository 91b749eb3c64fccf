/** The approval protocol: the email driver and the approvals driver talk through draft files, record files
    and hand-off files. Each function is what one driver does when it looks at one file. */
module ApprovalSpec {
  import opened Wrappers
  import opened Lines
  import opened Names

  type RecId = string

  const REPLY_RETRIES: nat := 3

  datatype Letter = Letter(from: string, to: seq<string>, cc: seq<string>, bcc: seq<string>,
                           content: string, subject: string, inReplyTo: string)

  datatype DraftState = New | PendingParent | PendingApproval | Drafted | Sent | Failed

  datatype Draft = Draft(letter: Letter, wantSend: bool, token: string, state: DraftState, retries: nat)

  /** A draft file is written by a PAI under a name of its own, or by the approvals driver for a record. */
  datatype DraftPath = Own(name: string) | Handoff(id: RecId)

  datatype Channel = Email | IMessage | WhatsApp | Slack | Bash | Unknown

  datatype Action = MailAction(letter: Letter) | TextAction(thread: string, text: string)

  datatype Status = Pending | Approved | Rejected | Dispatched | Delivered | Failure

  datatype Record = Record(channel: Channel, status: Status, action: Action, source: Option<DraftPath>, notified: bool)

  /** A file in the WhatsApp outbox. */
  datatype Outgoing = Outgoing(thread: string, text: string, token: string)

  datatype Authority = ByMode | ByAllowlist | ByToken

  /** A message that left. */
  datatype Delivery =
    | ByMail(path: DraftPath, letter: Letter, authority: Authority)
    | Inline(id: RecId, thread: string, text: string)
    | ByBridge(id: RecId, thread: string, text: string)

  /** What a delivery goes back to: a draft file of a PAI, or the line that an outbound driver staged as a record. */
  datatype Root = OfDraft(name: string) | OfLine(id: RecId)

  /** For the record: where each record comes from, what the owner approved it as, which record an outbox file
      was written for, all tokens there ever were, and the crashes between a side effect and its state write. */
  datatype History = History(origin: map<RecId, Root>, granted: map<RecId, Action>, filedFor: map<string, RecId>,
                             minted: set<string>, crashes: multiset<Root>)

  datatype Sys = Sys(drafts: map<DraftPath, Draft>, records: map<RecId, Record>, outbox: map<string, Outgoing>,
                     token: string, announced: set<RecId>, notifiedNow: set<RecId>,
                     out: seq<Delivery>, saved: seq<Letter>, notices: seq<RecId>, past: History)

  datatype Mode = No | Ask | Yes

  datatype Outcome = Fine | ParentMissing | OtherError

  /** What the surroundings decide while one file is processed. `crash`: the driver dies before it writes the
      new state of that file. `known`: the account, the thread or the recipient exists. */
  datatype Env = Env(mode: Mode, allowlisted: bool, known: bool, outcome: Outcome, ident: string, crash: bool)

  /** An address as the driver compares and uses it. */
  function Account(from: string): string {
    Lower(Strip(from))
  }

  function RootOf(past: History, path: DraftPath): Root {
    match path
    case Own(name) => OfDraft(name)
    case Handoff(id) => RootOfRecord(past, id)
  }

  function RootOfRecord(past: History, id: RecId): Root {
    if id in past.origin then past.origin[id] else OfLine(id)
  }

  function RootOfFile(past: History, file: string): Root {
    RootOfRecord(past, if file in past.filedFor then past.filedFor[file] else file)
  }

  predicate Terminal(state: DraftState) {
    state in {PendingApproval, Drafted, Sent, Failed}
  }

  function Crashed(s: Sys, root: Root): Sys {
    s.(past := s.past.(crashes := s.past.crashes + multiset{root}))
  }

  // ----- the email driver ------------------------------------------------------------

  function SetDraft(s: Sys, path: DraftPath, d: Draft, crash: bool): Sys {
    if crash then Crashed(s, RootOf(s.past, path)) else s.(drafts := s.drafts[path := d])
  }

  datatype Gate = Send(authority: Authority) | Queue | Save

  function Gated(s: Sys, d: Draft, e: Env): Gate {
    if !d.wantSend then Save
    else if Strip(d.token) != "" && Strip(d.token) == s.token then Send(ByToken)
    else match e.mode
      case Yes => Send(ByMode)
      case Ask => if e.allowlisted && d.letter.inReplyTo == "" then Send(ByAllowlist) else Queue
      case No => Save
  }

  function Stage(s: Sys, channel: Channel, action: Action, source: Option<DraftPath>, ident: string): Sys {
    var id := FirstFree(s.records.Keys, ident, 1);
    var root := if source.Some? then RootOf(s.past, source.value) else OfLine(id);
    s.(records := s.records[id := Record(channel, Pending, action, source, false)],
       past := s.past.(origin := s.past.origin[id := root]))
  }

  function Deliver(s: Sys, delivery: Delivery): Sys {
    s.(out := s.out + [delivery])
  }

  /** Mail.app is asked to send or to save; it may refuse. */
  function RunScript(s: Sys, path: DraftPath, d: Draft, gate: Gate, e: Env): Sys
    requires !gate.Queue?
  {
    var letter := d.letter.(from := Account(d.letter.from));
    match e.outcome
    case Fine =>
      if gate.Send? then SetDraft(Deliver(s, ByMail(path, letter, gate.authority)), path,
          d.(state := Sent, retries := 0), e.crash)
      else SetDraft(s.(saved := s.saved + [letter]), path, d.(state := Drafted, retries := 0), e.crash)
    case ParentMissing =>
      if letter.inReplyTo != "" && d.retries < REPLY_RETRIES
      then SetDraft(s, path, d.(state := PendingParent, retries := d.retries + 1), e.crash)
      else SetDraft(s, path, d.(state := Failed), e.crash)
    case OtherError => SetDraft(s, path, d.(state := Failed), e.crash)
  }

  function ProcessDraft(s: Sys, path: DraftPath, e: Env): Sys {
    if path !in s.drafts then s else
      var d := s.drafts[path];
      if Terminal(d.state) || (d.letter.to == [] && d.letter.inReplyTo == "") then s
      else if Account(d.letter.from) == "" || !e.known then SetDraft(s, path, d.(state := Failed), e.crash)
      else
        var gate := Gated(s, d, e);
        if gate.Queue? then
          var action := MailAction(d.letter.(from := Account(d.letter.from)));
          SetDraft(Stage(s, Email, action, Some(path), e.ident), path, d.(state := PendingApproval), e.crash)
        else RunScript(s, path, d, gate, e)
  }

  // ----- the approvals driver ----------------------------------------------------------

  function SetRecord(s: Sys, id: RecId, r: Record, crash: bool): Sys {
    if crash then Crashed(s, RootOfRecord(s.past, id)) else s.(records := s.records[id := r])
  }

  /** The letter that is handed to the email driver: the approved fields, without bcc. */
  function HandedOver(letter: Letter): Letter {
    letter.(bcc := [])
  }

  function DeliverEmail(s: Sys, id: RecId, r: Record, e: Env): Sys {
    if r.action.TextAction? || r.action.letter.from == ""
        || (r.action.letter.to == [] && r.action.letter.inReplyTo == "")
    then SetRecord(s, id, r.(status := Failure), e.crash)
    else
      var draft := Draft(HandedOver(r.action.letter), true, s.token, New, 0);
      SetRecord(s.(drafts := s.drafts[Handoff(id) := draft]), id, r.(status := Dispatched), e.crash)
  }

  predicate Sayable(action: Action) {
    action.TextAction? && Strip(action.thread) != "" && Strip(action.text) != ""
  }

  /** iMessage and Slack: the driver sends on its own. */
  function DeliverInline(s: Sys, id: RecId, r: Record, e: Env): Sys {
    if !Sayable(r.action) || !e.known || e.outcome != Fine then SetRecord(s, id, r.(status := Failure), e.crash)
    else SetRecord(Deliver(s, Inline(id, Strip(r.action.thread), r.action.text)), id, r.(status := Delivered), e.crash)
  }

  /** WhatsApp: a file for the process that holds the socket. */
  function DeliverWhatsApp(s: Sys, id: RecId, r: Record, e: Env): Sys {
    if !Sayable(r.action) || !e.known then SetRecord(s, id, r.(status := Failure), e.crash)
    else
      var file := FirstFree(s.outbox.Keys, e.ident, 1);
      var s1 := s.(outbox := s.outbox[file := Outgoing(Strip(r.action.thread), r.action.text, s.token)],
                   past := s.past.(filedFor := s.past.filedFor[file := id]));
      SetRecord(s1, id, r.(status := Dispatched), e.crash)
  }

  function NotifyRejected(s: Sys, id: RecId, r: Record, e: Env): Sys {
    var s1 := s.(notifiedNow := s.notifiedNow + {id}, notices := s.notices + [id]);
    var s2 := if r.channel.Email? && r.source.Some? && r.source.value in s.drafts
              then s1.(drafts := s1.drafts[r.source.value := s1.drafts[r.source.value].(state := Failed)]) else s1;
    SetRecord(s2, id, r.(notified := true), e.crash)
  }

  function ProcessRecord(s: Sys, id: RecId, e: Env): Sys {
    if id !in s.records || s.records[id].channel.Bash? then s else
      var r := s.records[id];
      match r.status
      case Rejected => if !r.notified && id !in s.notifiedNow then NotifyRejected(s, id, r, e) else s
      case Pending => s.(announced := s.announced + {id})
      case Approved =>
        (match r.channel
         case Email => DeliverEmail(s, id, r, e)
         case IMessage => DeliverInline(s, id, r, e)
         case Slack => DeliverInline(s, id, r, e)
         case WhatsApp => DeliverWhatsApp(s, id, r, e)
         case Unknown => SetRecord(s, id, r.(status := Failure), e.crash))
      case _ => s
  }

  // ----- the WhatsApp process ----------------------------------------------------------

  function RemoveFile(s: Sys, file: string, crash: bool): Sys {
    if crash then Crashed(s, RootOfFile(s.past, file)) else s.(outbox := s.outbox - {file})
  }

  /** A send that fails leaves the file for a later boot. */
  function ProcessOutbox(s: Sys, file: string, e: Env): Sys {
    if file !in s.outbox then s else
      var f := s.outbox[file];
      if Strip(f.token) == "" || Strip(f.token) != s.token || Strip(f.thread) == "" || Strip(f.text) == "" || !e.known
      then RemoveFile(s, file, e.crash)
      else if e.outcome != Fine then s
      else
        var id := if file in s.past.filedFor then s.past.filedFor[file] else file;
        RemoveFile(Deliver(s, ByBridge(id, Strip(f.thread), f.text)), file, e.crash)
  }

  // ----- everything that can happen ------------------------------------------------------

  datatype Step =
    | WriteDraft(name: string, draft: Draft)
    | StageLine(channel: Channel, thread: string, text: string, ident: string)
    | LookAtDraft(path: DraftPath, env: Env)
    | LookAtRecord(id: RecId, env: Env)
    | LookAtFile(file: string, env: Env)
    | Approve(id: RecId, action: Action)
    | Reject(id: RecId)
    | Boot(token: string)

  /** PAIs cannot read the token and leave finished drafts alone; the owner decides pending records only;
      a boot makes up a token that nobody has written down. */
  predicate Enabled(s: Sys, step: Step) {
    match step
    case WriteDraft(name, draft) =>
      && (Own(name) in s.drafts ==> !Terminal(s.drafts[Own(name)].state))
      && draft.state.New? && Strip(draft.token) !in s.past.minted
    case StageLine(channel, thread, text, ident) => !channel.Email?
    case Approve(id, action) => id in s.records && s.records[id].status.Pending?
    case Reject(id) => id in s.records && s.records[id].status.Pending?
    case Boot(token) =>
      && token != "" && token !in s.past.minted
      && (forall p | p in s.drafts :: Strip(s.drafts[p].token) != token)
    case _ => true
  }

  function Next(s: Sys, step: Step): Sys {
    match step
    case WriteDraft(name, draft) => s.(drafts := s.drafts[Own(name) := draft])
    case StageLine(channel, thread, text, ident) => Stage(s, channel, TextAction(thread, text), None, ident)
    case LookAtDraft(path, env) => ProcessDraft(s, path, env)
    case LookAtRecord(id, env) => ProcessRecord(s, id, env)
    case LookAtFile(file, env) => ProcessOutbox(s, file, env)
    case Approve(id, action) =>
      if id !in s.records then s else
        s.(records := s.records[id := s.records[id].(status := Approved, action := action)],
           past := s.past.(granted := s.past.granted[id := action]))
    case Reject(id) => if id !in s.records then s
        else s.(records := s.records[id := s.records[id].(status := Rejected)])
    case Boot(token) =>
      s.(token := token, announced := {}, notifiedNow := {}, past := s.past.(minted := s.past.minted + {token}))
  }

  const START: Sys := Sys(map[], map[], map[], "", {}, {}, [], [], [], History(map[], map[], map[], {}, multiset{}))

  predicate Possible(s: Sys, steps: seq<Step>)
    decreases |steps|
  {
    steps == [] || (Enabled(s, steps[0]) && Possible(Next(s, steps[0]), steps[1..]))
  }

  function After(s: Sys, steps: seq<Step>): Sys
    decreases |steps|
  {
    if steps == [] then s else After(Next(s, steps[0]), steps[1..])
  }
}
