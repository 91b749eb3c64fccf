/** Where an incoming message goes: an existing thread, or a new one under a name of its own. */
module Routing {
  import opened Wrappers
  import opened Lines
  import opened Names

  type Slug = string

  /** What a thread's meta file says. A group thread carries the id of its chat and the roster of its members. */
  datatype Meta = Meta(group: bool, guid: Option<string>, handles: seq<string>)

  /** The thread directories, some without a readable meta file, and the handles of the known people. */
  datatype Store = Store(threads: map<Slug, Option<Meta>>, people: map<Slug, seq<string>>)

  /** An incoming message; `guid` is empty for a one-to-one chat, and `base` is the name a new thread would get
      first. */
  datatype Message = Message(handle: string, guid: string, roster: seq<string>, base: string)

  // ----- handles ---------------------------------------------------------------------

  predicate IsFiller(c: char) {
    IsSpace(c) || c == '-' || c == '(' || c == ')'
  }

  function Squeeze(s: string): (r: string)
    ensures forall i | 0 <= i < |r| :: !IsFiller(r[i]) && r[i] in s
  {
    if s == "" then "" else (if IsFiller(s[0]) then [] else [s[0]]) + Squeeze(s[1..])
  }

  function Normalize(handle: string): string {
    var h := Strip(handle);
    if '@' in h then Lower(h) else Squeeze(h)
  }

  lemma {:induction false} SqueezeFixed(s: string)
    requires forall i | 0 <= i < |s| :: !IsFiller(s[i])
    ensures Squeeze(s) == s
  {
    if s != "" {
      SqueezeFixed(s[1..]);
    }
  }

  lemma MailTwice(h: string)
    requires '@' in h && !IsSpace(h[0]) && !IsSpace(h[|h| - 1])
    ensures '@' in Lower(h) && Strip(Lower(h)) == Lower(h) && Lower(Lower(h)) == Lower(h)
  {
    hide Strip;
    var i :| 0 <= i < |h| && h[i] == '@';
    assert Lower(h)[i] == '@';
    StripIsFixed(Lower(h));
  }

  lemma PhoneTwice(h: string)
    requires '@' !in h
    ensures '@' !in Squeeze(h) && Strip(Squeeze(h)) == Squeeze(h) && Squeeze(Squeeze(h)) == Squeeze(h)
  {
    hide Strip;
    StripIsFixed(Squeeze(h));
    SqueezeFixed(Squeeze(h));
  }

  /** Normalizing twice changes nothing more, so stored handles compare as given ones do. */
  lemma NormalizeTwice(handle: string)
    ensures Normalize(Normalize(handle)) == Normalize(handle)
  {
    hide Strip, Lower, Squeeze;
    var h := Strip(handle);
    StripEnds(handle);
    if '@' in h {
      MailTwice(h);
    } else {
      PhoneTwice(h);
    }
  }

  // ----- which spellings mean the same handle -------------------------------------------------

  /** Read side by side, two numbers agree once blanks, dashes and parentheses are skipped in each. */
  predicate SameNumber(a: string, b: string)
    decreases |a| + |b|
  {
    if a != "" && IsFiller(a[0]) then SameNumber(a[1..], b)
    else if b != "" && IsFiller(b[0]) then SameNumber(a, b[1..])
    else (a == "" && b == "") || (a != "" && b != "" && a[0] == b[0] && SameNumber(a[1..], b[1..]))
  }

  /** Two addresses agree letter by letter, whatever the case. */
  predicate SameLetters(a: string, b: string) {
    |a| == |b| && forall i | 0 <= i < |a| :: LowerChar(a[i]) == LowerChar(b[i])
  }

  predicate SameHandle(a: string, b: string) {
    if '@' in a then '@' in b && SameLetters(Strip(a), Strip(b)) else '@' !in b && SameNumber(a, b)
  }

  lemma {:induction false} SqueezeAlike(a: string, b: string)
    ensures Squeeze(a) == Squeeze(b) <==> SameNumber(a, b)
    decreases |a| + |b|
  {
    if a != "" && IsFiller(a[0]) {
      SqueezeAlike(a[1..], b);
    } else if b != "" && IsFiller(b[0]) {
      SqueezeAlike(a, b[1..]);
    } else if a != "" && b != "" {
      SqueezeAlike(a[1..], b[1..]);
      assert Squeeze(a)[1..] == Squeeze(a[1..]) && Squeeze(b)[1..] == Squeeze(b[1..]);
    }
  }

  lemma {:induction false} SqueezeRight(s: string)
    ensures Squeeze(RStrip(s)) == Squeeze(s)
  {
    if s != "" && IsSpace(s[|s| - 1]) {
      SqueezeRight(s[..|s| - 1]);
      SqueezeAppend(s[..|s| - 1], [s[|s| - 1]]);
      assert s == s[..|s| - 1] + [s[|s| - 1]];
      assert Squeeze([s[|s| - 1]]) == "";
    }
  }

  lemma {:induction false} SqueezeAppend(a: string, b: string)
    ensures Squeeze(a + b) == Squeeze(a) + Squeeze(b)
  {
    if a == "" {
      assert a + b == b;
    } else {
      assert (a + b)[1..] == a[1..] + b;
      SqueezeAppend(a[1..], b);
    }
  }

  lemma {:induction false} SqueezeLeft(s: string)
    ensures Squeeze(LStrip(s)) == Squeeze(s)
  {
    if s != "" && IsSpace(s[0]) {
      SqueezeLeft(s[1..]);
    }
  }

  /** Blanks at the ends hold no at sign. */
  lemma AtStays(s: string)
    ensures '@' in Strip(s) <==> '@' in s
  {
    LStripped(s);
    RStripped(LStrip(s));
    AtLeft(s);
    AtRight(LStrip(s));
  }

  lemma {:induction false} AtLeft(s: string)
    ensures '@' in LStrip(s) <==> '@' in s
  {
    if s != "" && IsSpace(s[0]) {
      AtLeft(s[1..]);
      assert s == [s[0]] + s[1..];
    }
  }

  lemma {:induction false} AtRight(s: string)
    ensures '@' in RStrip(s) <==> '@' in s
  {
    if s != "" && IsSpace(s[|s| - 1]) {
      AtRight(s[..|s| - 1]);
      assert s == s[..|s| - 1] + [s[|s| - 1]];
    }
  }

  lemma LowerAlike(a: string, b: string)
    ensures Lower(a) == Lower(b) <==> SameLetters(a, b)
  {
    if Lower(a) == Lower(b) {
      forall i | 0 <= i < |a| ensures LowerChar(a[i]) == LowerChar(b[i]) {
        assert Lower(a)[i] == Lower(b)[i];
      }
    }
  }

  lemma AtKept(h: string)
    ensures '@' in h ==> '@' in Lower(h)
    ensures '@' !in h ==> '@' !in Squeeze(h)
  {
    if '@' in h {
      var i :| 0 <= i < |h| && h[i] == '@';
      assert Lower(h)[i] == '@';
    }
  }

  /** Two handles are taken for the same if and only if they are numbers that agree but for blanks, dashes and
      parentheses, or addresses that agree but for case and the blanks around them. */
  lemma AlikeIff(a: string, b: string)
    ensures Normalize(a) == Normalize(b) <==> SameHandle(a, b)
  {
    var x, y := Strip(a), Strip(b);
    AtStays(a);
    AtStays(b);
    AtKept(x);
    AtKept(y);
    LowerAlike(x, y);
    SqueezeAlike(a, b);
    SqueezeLeft(a);
    SqueezeRight(LStrip(a));
    SqueezeLeft(b);
    SqueezeRight(LStrip(b));
    hide Squeeze, Lower, RStrip, LStrip, SameNumber, SameLetters;
  }

  // ----- routing ------------------------------------------------------------------------

  predicate Has(meta: Meta, handle: string) {
    exists h :: h in meta.handles && Normalize(h) == handle
  }

  /** Does an existing thread take the message? */
  predicate Takes(meta: Option<Meta>, m: Message) {
    meta.Some? &&
    if m.guid != "" then meta.value.guid == Some(m.guid)
    else m.handle != "" && Normalize(m.handle) != "" && Has(meta.value, Normalize(m.handle))
  }

  /** The first thread that takes it, in the order in which the directory lists them. */
  function Resolve(threads: map<Slug, Option<Meta>>, order: seq<Slug>, m: Message): Option<Slug> {
    if order == [] then None
    else if order[0] in threads && Takes(threads[order[0]], m) then Some(order[0])
    else Resolve(threads, order[1..], m)
  }

  predicate PersonHas(handles: seq<string>, handle: string) {
    exists h :: h in handles && Normalize(h) == Normalize(handle)
  }

  /** Names that a new thread must not take. */
  function Taken(s: Store, handle: string): set<Slug> {
    s.threads.Keys + set p | p in s.people && !(handle != "" && PersonHas(s.people[p], handle))
  }

  function Roster(m: Message): seq<string> {
    var given := NormalizeAll(m.roster);
    if m.handle != "" && Normalize(m.handle) !in given then given + [Normalize(m.handle)] else given
  }

  function NormalizeAll(handles: seq<string>): seq<string> {
    if handles == [] then [] else
      NormalizeAll(handles[..|handles| - 1]) + if handles[|handles| - 1] != "" then [Normalize(handles[|handles| - 1])]
          else []
  }

  function NewMeta(m: Message): Meta {
    if m.guid != "" then Meta(true, Some(m.guid), Roster(m))
    else Meta(false, None, if m.handle != "" then [Normalize(m.handle)] else [])
  }

  function NewSlug(s: Store, m: Message, groupSlug: string -> Slug): Slug {
    if m.guid != "" && groupSlug(m.guid) !in s.threads then groupSlug(m.guid)
    else FirstFree(Taken(s, m.handle), if m.guid != "" then groupSlug(m.guid) else m.base, 2)
  }

  /** Files one message: the new store, the thread, and whether it is new. `groupSlug` names a group after its id. */
  function Ingest(s: Store, order: seq<Slug>, m: Message, groupSlug: string -> Slug): (Store, Slug, bool) {
    var found := Resolve(s.threads, order, m);
    if found.Some? then (s, found.value, false) else
      var slug := NewSlug(s, m, groupSlug);
      var people := if m.guid != "" || slug in s.people then s.people
                    else s.people[slug := if m.handle != "" then [Normalize(m.handle)] else []];
      (Store(s.threads[slug := Some(NewMeta(m))], people), slug, true)
  }

  // ----- what routing keeps ------------------------------------------------------------------

  /** At most one thread per chat id, and at most one thread outside groups per handle. */
  ghost predicate StoreOk(threads: map<Slug, Option<Meta>>) {
    && (forall s, t | s in threads && t in threads && SameGuid(threads[s], threads[t]) :: s == t)
    && (forall s, t, h | s in threads && t in threads && h != "" && Peer(threads[s], h) && Peer(threads[t], h) ::
        s == t)
    && (forall s | s in threads && threads[s].Some? && threads[s].value.guid.Some? :: threads[s].value.group)
  }

  predicate SameGuid(a: Option<Meta>, b: Option<Meta>) {
    a.Some? && b.Some? && a.value.guid.Some? && a.value.guid == b.value.guid
  }

  predicate Peer(meta: Option<Meta>, handle: string) {
    meta.Some? && !meta.value.group && Has(meta.value, handle)
  }

  predicate Lists(order: seq<Slug>, threads: map<Slug, Option<Meta>>) {
    forall s | s in threads :: s in order
  }

  lemma {:induction false} ResolveFinds(threads: map<Slug, Option<Meta>>, order: seq<Slug>, m: Message)
    ensures var r := Resolve(threads, order, m);
            if r.Some? then r.value in threads && Takes(threads[r.value], m)
            else forall s | s in threads && s in order :: !Takes(threads[s], m)
  {
    if order != [] {
      ResolveFinds(threads, order[1..], m);
      hide Takes;
      assert forall s | s in order :: s == order[0] || s in order[1..];
    }
  }

  /** The thread that is found comes first among those that take the message. */
  lemma {:induction false} ResolveIsFirst(threads: map<Slug, Option<Meta>>, order: seq<Slug>, m: Message)
                                          returns (i: nat)
    requires Resolve(threads, order, m).Some?
    ensures i < |order| && Resolve(threads, order, m) == Some(order[i]) && order[i] in threads
            && Takes(threads[order[i]], m)
    ensures forall j | 0 <= j < i :: !(order[j] in threads && Takes(threads[order[j]], m))
  {
    if order[0] in threads && Takes(threads[order[0]], m) {
      i := 0;
    } else {
      var k := ResolveIsFirst(threads, order[1..], m);
      i := k + 1;
      assert forall j | 0 < j < i :: order[j] == order[1..][j - 1];
    }
  }

  lemma NewSlugIsNew(s: Store, m: Message, groupSlug: string -> Slug)
    ensures NewSlug(s, m, groupSlug) !in s.threads
  {
    hide IsFirstFree;
    var base := if m.guid != "" then groupSlug(m.guid) else m.base;
    assert FirstFree(Taken(s, m.handle), base, 2) !in Taken(s, m.handle);
    hide FirstFree;
  }

  /** The thread a new message opens: it takes that message, and no handle of it is a stranger's. */
  lemma NewMetaTakes(m: Message)
    ensures m.guid != "" ==> Takes(Some(NewMeta(m)), m)
    ensures m.guid == "" ==> forall h | Has(NewMeta(m), h) :: h == Normalize(m.handle) && m.handle != ""
    ensures m.guid == "" && m.handle != "" && Normalize(m.handle) != "" ==> Takes(Some(NewMeta(m)), m)
  {
    NormalizeTwice(m.handle);
    hide Normalize;
    if m.guid == "" && m.handle != "" {
      assert NewMeta(m).handles[0] == Normalize(m.handle);
    }
  }

  /** Whatever arrives, the store stays in order; old threads stay as they were; a group message lands in the thread
      of its own chat; a one-to-one message lands in a thread that has its handle; a new thread has a new name. */
  lemma IngestKeeps(s: Store, order: seq<Slug>, m: Message, groupSlug: string -> Slug)
    requires StoreOk(s.threads) && Lists(order, s.threads)
    ensures var (t, slug, created) := Ingest(s, order, m, groupSlug);
            && StoreOk(t.threads)
            && (forall x | x in s.threads :: x in t.threads && t.threads[x] == s.threads[x])
            && slug in t.threads && (created <==> slug !in s.threads)
            && (m.guid != "" ==> Takes(t.threads[slug], m) && t.threads[slug].value.guid == Some(m.guid))
            && (m.guid == "" && m.handle != "" && Normalize(m.handle) != "" ==> Takes(t.threads[slug], m))
  {
    ResolveFinds(s.threads, order, m);
    NewSlugIsNew(s, m, groupSlug);
    NewMetaTakes(m);
    var (t, slug, created) := Ingest(s, order, m, groupSlug);
    if created {
      AddedIsOk(s.threads, slug, m);
    }
    hide Normalize, NewSlug, Resolve, NewMeta, StoreOk, Has;
  }

  lemma AddedIsOk(threads: map<Slug, Option<Meta>>, slug: Slug, m: Message)
    requires StoreOk(threads) && slug !in threads && forall s | s in threads :: !Takes(threads[s], m)
    ensures StoreOk(threads[slug := Some(NewMeta(m))])
  {
    NewMetaTakes(m);
    hide Normalize, Has, Roster;
    var after := threads[slug := Some(NewMeta(m))];
    forall s, h | s in threads && h != "" && Peer(threads[s], h) ensures !Peer(after[slug], h) {
      assert !Takes(threads[s], m);
    }
  }

  // ----- what a new thread is about ---------------------------------------------------------------

  lemma {:induction false} GivenHas(handles: seq<string>, h: string)
    ensures h in NormalizeAll(handles) <==> exists g :: g in handles && g != "" && Normalize(g) == h
  {
    hide Normalize;
    if handles != [] {
      var front, last := handles[..|handles| - 1], handles[|handles| - 1];
      GivenHas(front, h);
      assert handles == front + [last];
      if last != "" && Normalize(last) == h {
        assert last in handles;
      }
      if g :| g in front && g != "" && Normalize(g) == h {
        assert g in handles;
      }
    }
  }

  /** A new group thread names its chat, and its roster holds exactly the members that were given and the sender; a new
      one-to-one thread holds the sender and nobody else. No spelling counts but the normal one. */
  lemma NewThreadHolds(s: Store, order: seq<Slug>, m: Message, groupSlug: string -> Slug, h: string)
    ensures var (t, slug, created) := Ingest(s, order, m, groupSlug);
            created ==>
              && slug in t.threads && t.threads[slug].Some?
              && var meta := t.threads[slug].value;
                 && meta.group == (m.guid != "") && meta.guid == (if m.guid != "" then Some(m.guid) else None)
                 && (h in meta.handles <==>
                       (m.handle != "" && h == Normalize(m.handle))
                       || (m.guid != "" && exists g :: g in m.roster && g != "" && Normalize(g) == h))
  {
    GivenHas(m.roster, h);
    hide Normalize, NormalizeAll, Resolve, NewSlug;
  }

  /** No known person changes. A new one-to-one thread gets the first free form of its name, and never the name of
      somebody else: if a person has that name, the person has the handle; if not, the sender becomes one. */
  lemma NewNameIsOwn(s: Store, order: seq<Slug>, m: Message, groupSlug: string -> Slug)
    ensures var (t, slug, created) := Ingest(s, order, m, groupSlug);
            && (forall p | p in s.people :: p in t.people && t.people[p] == s.people[p])
            && (created && m.guid == "" ==>
                  && slug !in s.threads && (exists k :: IsFirstFree(Taken(s, m.handle), m.base, 2, k, slug))
                  && (if slug in s.people then m.handle != "" && PersonHas(s.people[slug], m.handle)
                      else slug in t.people && t.people[slug] == if m.handle != "" then [Normalize(m.handle)] else []))
  {
    var taken := Taken(s, m.handle);
    assert FirstFree(taken, m.base, 2) !in taken;
    hide Normalize, Resolve, FirstFree, IsFirstFree;
  }

  // ----- runs ------------------------------------------------------------------------------------

  /** One message and the order in which the directory listed its threads at that time. */
  datatype Arrival = Arrival(order: seq<Slug>, message: Message)

  function IngestAll(s: Store, arrivals: seq<Arrival>, groupSlug: string -> Slug): Store {
    if arrivals == [] then s else
      var a := arrivals[|arrivals| - 1];
      Ingest(IngestAll(s, arrivals[..|arrivals| - 1], groupSlug), a.order, a.message, groupSlug).0
  }

  ghost predicate Listed(s: Store, arrivals: seq<Arrival>, groupSlug: string -> Slug) {
    forall i | 0 <= i < |arrivals| :: Lists(arrivals[i].order, IngestAll(s, arrivals[..i], groupSlug).threads)
  }

  /** After any run of messages there is at most one thread per chat and at most one thread outside groups per
      handle, and every thread that was ever there is there unchanged. */
  lemma {:induction false} RunKeeps(s: Store, arrivals: seq<Arrival>, groupSlug: string -> Slug)
    requires StoreOk(s.threads) && Listed(s, arrivals, groupSlug)
    ensures var t := IngestAll(s, arrivals, groupSlug);
            StoreOk(t.threads) && forall x | x in s.threads :: x in t.threads && t.threads[x] == s.threads[x]
  {
    if arrivals != [] {
      var front, a := arrivals[..|arrivals| - 1], arrivals[|arrivals| - 1];
      hide StoreOk, Lists, Ingest;
      forall i | 0 <= i < |front| ensures Lists(front[i].order, IngestAll(s, front[..i], groupSlug).threads) {
        assert front[..i] == arrivals[..i];
      }
      RunKeeps(s, front, groupSlug);
      IngestKeeps(IngestAll(s, front, groupSlug), a.order, a.message, groupSlug);
    }
  }

  /** The thread of a group message does not depend on the order of the directory. */
  lemma GroupRouteIsUnique(threads: map<Slug, Option<Meta>>, a: seq<Slug>, b: seq<Slug>, m: Message)
    requires StoreOk(threads) && Lists(a, threads) && Lists(b, threads) && m.guid != ""
    ensures Resolve(threads, a, m) == Resolve(threads, b, m)
  {
    ResolveFinds(threads, a, m);
    ResolveFinds(threads, b, m);
    hide Resolve;
    var r, q := Resolve(threads, a, m), Resolve(threads, b, m);
    assert r.Some? && q.Some? ==> SameGuid(threads[r.value], threads[q.value]);
  }

  /** A one-to-one message opens a new thread if and only if its handle normalizes to nothing or no thread has it:
      a sender with such a handle gets a new thread with every message. */
  lemma BlankHandleAlwaysOpens(s: Store, order: seq<Slug>, m: Message, groupSlug: string -> Slug)
    requires Lists(order, s.threads) && m.guid == ""
    ensures Ingest(s, order, m, groupSlug).2 <==>
            m.handle == "" || Normalize(m.handle) == ""
            || forall x | x in s.threads && s.threads[x].Some? :: !Has(s.threads[x].value, Normalize(m.handle))
  {
    ResolveFinds(s.threads, order, m);
    hide Normalize, Resolve, NewSlug, Has;
    if exists x :: x in s.threads && s.threads[x].Some? && Has(s.threads[x].value, Normalize(m.handle)) {
      var x :| x in s.threads && s.threads[x].Some? && Has(s.threads[x].value, Normalize(m.handle));
      assert x in order;
    }
  }

  // ----- the store as it runs ------------------------------------------------------------------------

  class MessageStore {
    var threads: map<Slug, Option<Meta>>
    var people: map<Slug, seq<string>>

    constructor (threads: map<Slug, Option<Meta>>, people: map<Slug, seq<string>>)
      ensures View() == Store(threads, people)
    {
      this.threads, this.people := threads, people;
    }

    function View(): Store
      reads this
    {
      Store(threads, people)
    }

    method ResolveSlug(order: seq<Slug>, m: Message) returns (found: Option<Slug>)
      ensures found == Resolve(threads, order, m)
    {
      for i := 0 to |order|
        invariant Resolve(threads, order, m) == Resolve(threads, order[i..], m)
      {
        assert order[i..][1..] == order[i + 1..];
        if order[i] in threads && Takes(threads[order[i]], m) {
          return Some(order[i]);
        }
      }
      assert order[|order|..] == [];
      found := None;
    }

    method UniqueSlug(base: string, handle: string) returns (slug: Slug)
      ensures slug == FirstFree(Taken(View(), handle), base, 2)
    {
      var tries;
      slug, tries := FindFree(Taken(View(), handle), base, 2);
    }

    method CreateThread(slug: Slug, m: Message)
      modifies this`threads
      ensures threads == old(threads)[slug := Some(NewMeta(m))]
    {
      var roster: seq<string> := [];
      if m.guid != "" {
        for i := 0 to |m.roster|
          invariant roster == NormalizeAll(m.roster[..i])
        {
          assert m.roster[..i + 1][..i] == m.roster[..i];
          if m.roster[i] != "" {
            roster := roster + [Normalize(m.roster[i])];
          }
        }
        assert m.roster[..|m.roster|] == m.roster;
        if m.handle != "" && Normalize(m.handle) !in roster {
          roster := roster + [Normalize(m.handle)];
        }
        threads := threads[slug := Some(Meta(true, Some(m.guid), roster))];
      } else {
        threads := threads[slug := Some(Meta(false, None, if m.handle != "" then [Normalize(m.handle)] else []))];
      }
    }

    method IngestMessage(order: seq<Slug>, m: Message, groupSlug: string -> Slug) returns (slug: Slug, created: bool)
      modifies this
      ensures (View(), slug, created) == Ingest(old(View()), order, m, groupSlug)
    {
      hide Resolve, Takes, Normalize, NewMeta, Taken, FirstFree, IsFirstFree;
      var found := ResolveSlug(order, m);
      if found.Some? {
        return found.value, false;
      }
      created := true;
      if m.guid != "" {
        slug := groupSlug(m.guid);
        if slug in threads {
          slug := UniqueSlug(slug, m.handle);
        }
      } else {
        slug := UniqueSlug(m.base, m.handle);
      }
      CreateThread(slug, m);
      if m.guid == "" && slug !in people {
        people := people[slug := if m.handle != "" then [Normalize(m.handle)] else []];
      }
    }
  }

}
