/** Calendar snapshots and the changes announced between them. Uids are numbers here, so that they have an order. */
module Calendar {
  import opened Seqs

  type Uid = nat

  /** An event of the calendar; `fields` are those the driver tracks. */
  datatype Entity = Entity(uid: Uid, fields: seq<string>)

  type Snapshot = map<Uid, Entity>

  datatype Changes = Changes(added: seq<Entity>, changed: seq<Entity>, removed: seq<Entity>)

  /** A digest of the tracked fields. */
  type Hash = seq<string> -> string

  predicate Keyed(s: Snapshot) {
    forall u | u in s :: s[u].uid == u
  }

  predicate Same(h: Hash, a: Entity, b: Entity) {
    h(a.fields) == h(b.fields)
  }

  /** The entities of `s` under the given keys, in ascending order, each once. */
  ghost predicate Lists(es: seq<Entity>, s: Snapshot, keys: set<Uid>) {
    && (forall e | e in es :: e.uid in keys && e.uid in s && s[e.uid] == e)
    && (forall u | u in keys && u in s :: s[u] in es)
    && Ascending(es)
  }

  function Altered(h: Hash, prev: Snapshot, curr: Snapshot): set<Uid> {
    set u | u in prev && u in curr && !Same(h, prev[u], curr[u])
  }

  /** What `_diff` answers. */
  ghost predicate IsDiff(h: Hash, prev: Snapshot, curr: Snapshot, d: Changes) {
    && Lists(d.added, curr, curr.Keys - prev.Keys)
    && Lists(d.changed, curr, Altered(h, prev, curr))
    && Lists(d.removed, prev, prev.Keys - curr.Keys)
  }

  lemma SameMembers(a: seq<Entity>, b: seq<Entity>, s: Snapshot, keys: set<Uid>)
    requires Lists(a, s, keys) && Lists(b, s, keys)
    ensures forall e :: e in a <==> e in b
    ensures a == [] <==> b == []
  {
    assert forall e | e in a :: s[e.uid] in b;
    assert forall e | e in b :: s[e.uid] in a;
    assert a != [] ==> a[0] in a;
    assert b != [] ==> b[0] in b;
  }

  /** There is only one such answer. */
  lemma {:induction false} ListsAgree(a: seq<Entity>, b: seq<Entity>, s: Snapshot, keys: set<Uid>)
    requires Lists(a, s, keys) && Lists(b, s, keys) && Keyed(s)
    ensures a == b
  {
    SameMembers(a, b, s, keys);
    AreAscending(a, b, s, keys);
    hide *;
    if a != [] {
      SameLast(a, b);
      ListsFront(a, s, keys);
      ListsFront(b, s, keys);
      ListsAgree(a[..|a| - 1], b[..|b| - 1], s, keys - {a[|a| - 1].uid});
      Front(a, |a| - 1);
      Front(b, |b| - 1);
      Whole(a);
      Whole(b);
    }
  }

  lemma AreAscending(a: seq<Entity>, b: seq<Entity>, s: Snapshot, keys: set<Uid>)
    requires Lists(a, s, keys) && Lists(b, s, keys)
    ensures Ascending(a) && Ascending(b)
  {
  }

  ghost predicate Ascending(es: seq<Entity>) {
    forall i, j | 0 <= i < j < |es| :: es[i].uid < es[j].uid
  }

  lemma SameLast(a: seq<Entity>, b: seq<Entity>)
    requires Ascending(a) && Ascending(b) && a != [] && b != [] && forall e :: e in a <==> e in b
    ensures a[|a| - 1] == b[|b| - 1]
  {
    var x, y := a[|a| - 1], b[|b| - 1];
    assert x in a && y in b;
    var i :| 0 <= i < |b| && b[i] == x;
    var j :| 0 <= j < |a| && a[j] == y;
    assert i < |b| - 1 ==> x.uid < y.uid;
    assert j < |a| - 1 ==> y.uid < x.uid;
  }

  lemma ListsFront(es: seq<Entity>, s: Snapshot, keys: set<Uid>)
    requires Lists(es, s, keys) && Keyed(s) && es != []
    ensures Lists(es[..|es| - 1], s, keys - {es[|es| - 1].uid})
  {
    var front, last := es[..|es| - 1], es[|es| - 1];
    Members(front, [last]);
    assert es == front + [last];
    assert forall e | e in front :: e.uid < last.uid;
    hide Ascending;
    assert Ascending(front) by { AscendingFront(es); }
  }

  lemma AscendingFront(es: seq<Entity>)
    requires Ascending(es) && es != []
    ensures Ascending(es[..|es| - 1])
  {
  }

  lemma DiffIsUnique(h: Hash, prev: Snapshot, curr: Snapshot, a: Changes, b: Changes)
    requires Keyed(prev) && Keyed(curr) && IsDiff(h, prev, curr, a) && IsDiff(h, prev, curr, b)
    ensures a == b
  {
    ListsAgree(a.added, b.added, curr, curr.Keys - prev.Keys);
    ListsAgree(a.changed, b.changed, curr, Altered(h, prev, curr));
    ListsAgree(a.removed, b.removed, prev, prev.Keys - curr.Keys);
  }

  /** No event is in two of the lists. */
  lemma ListsAreDisjoint(h: Hash, prev: Snapshot, curr: Snapshot, d: Changes)
    requires IsDiff(h, prev, curr, d)
    ensures forall a, c | a in d.added && c in d.changed :: a.uid != c.uid
    ensures forall a, r | a in d.added && r in d.removed :: a.uid != r.uid
    ensures forall c, r | c in d.changed && r in d.removed :: c.uid != r.uid
  {
    hide Ascending;
    forall e | e in d.changed ensures e.uid in prev && e.uid in curr {
      assert e.uid in Altered(h, prev, curr);
    }
    forall a, c | a in d.added && c in d.changed ensures a.uid != c.uid {
      assert a.uid !in prev && c.uid in prev;
    }
    forall a, r | a in d.added && r in d.removed ensures a.uid != r.uid {
      assert a.uid !in prev && r.uid in prev;
    }
    forall c, r | c in d.changed && r in d.removed ensures c.uid != r.uid {
      assert c.uid in curr && r.uid !in curr;
    }
  }

  // ----- what a listener makes of the announcements --------------------------------------------

  function Remove(s: Snapshot, es: seq<Entity>): Snapshot {
    if es == [] then s else Remove(s, es[..|es| - 1]) - {es[|es| - 1].uid}
  }

  function Put(s: Snapshot, es: seq<Entity>): Snapshot {
    if es == [] then s else Put(s, es[..|es| - 1])[es[|es| - 1].uid := es[|es| - 1]]
  }

  function Apply(s: Snapshot, d: Changes): Snapshot {
    Put(Put(Remove(s, d.removed), d.added), d.changed)
  }

  /** Equal as far as the digest can tell. */
  ghost predicate Alike(h: Hash, a: Snapshot, b: Snapshot) {
    a.Keys == b.Keys && forall u | u in a :: Same(h, a[u], b[u])
  }

  lemma {:induction false} RemoveDrops(s: Snapshot, es: seq<Entity>)
    ensures var t := Remove(s, es);
            && (forall u :: u in t <==> u in s && forall e | e in es :: e.uid != u)
            && (forall u | u in t :: t[u] == s[u])
  {
    if es != [] {
      RemoveDrops(s, es[..|es| - 1]);
      assert es == es[..|es| - 1] + [es[|es| - 1]];
    }
  }

  /** `t` is `s` with the given events put over it. */
  ghost predicate Laid(s: Snapshot, es: seq<Entity>, t: Snapshot) {
    && (forall u :: u in t <==> u in s || exists e :: e in es && e.uid == u)
    && (forall e | e in es :: e.uid in t && t[e.uid] == e)
    && (forall u | u in s && (forall e | e in es :: e.uid != u) :: u in t && t[u] == s[u])
  }

  lemma {:induction false} PutAdds(s: Snapshot, es: seq<Entity>)
    requires Ascending(es)
    ensures Laid(s, es, Put(s, es))
  {
    if es != [] {
      var front, last := es[..|es| - 1], es[|es| - 1];
      assert Put(s, es) == Put(s, front)[last.uid := last];
      AscendingFront(es);
      LastIsLater(es);
      hide *;
      PutAdds(s, front);
      PutLast(s, Put(s, front), front, last);
      Front(es, |es| - 1);
      Whole(es);
    }
  }

  lemma LastIsLater(es: seq<Entity>)
    requires Ascending(es) && es != []
    ensures var front, last := es[..|es| - 1], es[|es| - 1];
            (forall e | e in front :: e.uid < last.uid) && forall e :: e in es <==> e in front || e == last
  {
    var front, last := es[..|es| - 1], es[|es| - 1];
    Members(front, [last]);
    assert es == front + [last];
  }

  lemma PutLast(s: Snapshot, mid: Snapshot, front: seq<Entity>, last: Entity)
    requires Laid(s, front, mid) && forall e | e in front :: e.uid < last.uid
    ensures Laid(s, front + [last], mid[last.uid := last])
  {
    Members(front, [last]);
    var t, es := mid[last.uid := last], front + [last];
    forall u ensures u in t <==> u in s || exists e :: e in es && e.uid == u {
      assert last in es;
      if u in t && u !in s && u != last.uid {
        var e :| e in front && e.uid == u;
        assert e in es;
      }
    }
  }

  /** An event is in a list exactly when its uid is among the keys. */
  lemma ListedUids(es: seq<Entity>, s: Snapshot, keys: set<Uid>, u: Uid)
    requires Lists(es, s, keys) && Keyed(s) && keys <= s.Keys
    ensures u in keys <==> exists e :: e in es && e.uid == u
    ensures u in keys ==> s[u] in es && s[u].uid == u
  {
    if u in keys {
      assert s[u] in es && s[u].uid == u;
    }
  }

  lemma Removed(h: Hash, prev: Snapshot, curr: Snapshot, d: Changes, seen: Snapshot)
    requires IsDiff(h, prev, curr, d) && Keyed(prev) && seen.Keys == prev.Keys
    ensures var t := Remove(seen, d.removed);
            t.Keys == prev.Keys * curr.Keys && forall u | u in t :: t[u] == seen[u]
  {
    RemoveDrops(seen, d.removed);
    var t := Remove(seen, d.removed);
    hide Remove;
    forall u ensures u in t <==> u in prev && u in curr {
      ListedUids(d.removed, prev, prev.Keys - curr.Keys, u);
    }
    hide IsDiff, Keyed;
  }

  lemma Added(h: Hash, prev: Snapshot, curr: Snapshot, d: Changes, kept: Snapshot)
    requires IsDiff(h, prev, curr, d) && Keyed(curr) && kept.Keys == prev.Keys * curr.Keys
    ensures var t := Put(kept, d.added);
            && t.Keys == curr.Keys
            && (forall u | u in t && u in prev :: t[u] == kept[u])
            && (forall u | u in t && u !in prev :: t[u] == curr[u])
  {
    var t := Put(kept, d.added);
    PutAdds(kept, d.added);
    forall u
      ensures (u in t <==> u in curr) && (u in t && u in prev ==> t[u] == kept[u])
              && (u in t && u !in prev ==> t[u] == curr[u])
    {
      ListedUids(d.added, curr, curr.Keys - prev.Keys, u);
      hide Put, IsDiff, Keyed;
      assert u in kept <==> u in prev && u in curr;
    }
    hide Put, IsDiff, Keyed;
  }

  lemma Changed(h: Hash, prev: Snapshot, curr: Snapshot, d: Changes, mid: Snapshot)
    requires IsDiff(h, prev, curr, d) && Keyed(curr) && mid.Keys == curr.Keys
    ensures var t := Put(mid, d.changed);
            && t.Keys == curr.Keys
            && (forall u | u in t :: t[u] == if u in Altered(h, prev, curr) then curr[u] else mid[u])
  {
    var t := Put(mid, d.changed);
    PutAdds(mid, d.changed);
    assert Altered(h, prev, curr) <= curr.Keys;
    forall u
      ensures (u in t <==> u in curr) && (u in t ==> t[u] == if u in Altered(h, prev, curr) then curr[u] else mid[u])
    {
      ListedUids(d.changed, curr, Altered(h, prev, curr), u);
      hide Put, IsDiff, Keyed, Altered;
      assert u in mid <==> u in curr;
    }
    hide Put, IsDiff, Keyed, Altered;
  }

  /** Applying the changes turns anything like the old snapshot into something like the new one. */
  lemma ApplyFollows(h: Hash, prev: Snapshot, curr: Snapshot, d: Changes, seen: Snapshot)
    requires Keyed(prev) && Keyed(curr) && IsDiff(h, prev, curr, d) && Alike(h, seen, prev)
    ensures Alike(h, Apply(seen, d), curr)
  {
    Removed(h, prev, curr, d, seen);
    Added(h, prev, curr, d, Remove(seen, d.removed));
    Changed(h, prev, curr, d, Put(Remove(seen, d.removed), d.added));
    hide Remove, Put, IsDiff;
  }

  /** Nothing is announced if and only if nothing changed that the digest can tell. */
  lemma SilentIffAlike(h: Hash, prev: Snapshot, curr: Snapshot, d: Changes)
    requires Keyed(prev) && Keyed(curr) && IsDiff(h, prev, curr, d)
    ensures d == Changes([], [], []) <==> Alike(h, prev, curr)
  {
    EmptyList(d.added, curr, curr.Keys - prev.Keys);
    EmptyList(d.changed, curr, Altered(h, prev, curr));
    EmptyList(d.removed, prev, prev.Keys - curr.Keys);
    hide Lists, Keyed, Same;
    assert curr.Keys - prev.Keys == {} && prev.Keys - curr.Keys == {} <==> prev.Keys == curr.Keys;
    assert prev.Keys == curr.Keys ==>
        (Altered(h, prev, curr) == {} <==> forall u | u in prev :: Same(h, prev[u], curr[u]));
  }

  lemma EmptyList(es: seq<Entity>, s: Snapshot, keys: set<Uid>)
    requires Lists(es, s, keys) && keys <= s.Keys
    ensures es == [] <==> keys == {}
  {
    assert forall u | u in keys :: s[u] in es;
    assert es != [] ==> es[0] in es;
  }

  // ----- the driver ----------------------------------------------------------------------------------

  class CalendarDriver {
    const h: Hash
    var state: Snapshot
    var events: seq<Changes>
    /** What a listener that started with the first state and applied every event has now. */
    ghost var followed: Snapshot

    constructor (h: Hash, state: Snapshot)
      requires Keyed(state)
      ensures this.h == h && this.state == state && events == [] && followed == state && Follows()
    {
      this.h, this.state, this.events := h, state, [];
      followed := state;
    }

    ghost predicate Follows()
      reads this
    {
      Keyed(state) && Alike(h, followed, state)
    }

    /** The entities under `keys` in ascending order of their uids. */
    method Sorted(s: Snapshot, keys: set<Uid>) returns (es: seq<Entity>)
      requires Keyed(s) && keys <= s.Keys
      ensures Lists(es, s, keys)
    {
      es := [];
      var todo := keys;
      while todo != {}
        invariant todo <= keys && Lists(es, s, keys - todo) && Before(es, todo)
        decreases |todo|
      {
        var u := Least(todo);
        NextListed(es, s, keys, todo, u);
        es := es + [s[u]];
        todo := todo - {u};
      }
      assert keys - {} == keys;
    }

    method Least(keys: set<Uid>) returns (u: Uid)
      requires keys != {}
      ensures u in keys && forall v | v in keys :: u <= v
    {
      u :| u in keys;
      var todo := keys - {u};
      while todo != {}
        invariant todo <= keys && u in keys && forall v | v in keys && v !in todo :: u <= v
        decreases |todo|
      {
        var v :| v in todo;
        if v < u {
          u := v;
        }
        todo := todo - {v};
      }
    }

    method Diff(prev: Snapshot, curr: Snapshot) returns (d: Changes)
      requires Keyed(prev) && Keyed(curr)
      ensures IsDiff(h, prev, curr, d)
    {
      var added := Sorted(curr, curr.Keys - prev.Keys);
      var changed := Sorted(curr, Altered(h, prev, curr));
      var removed := Sorted(prev, prev.Keys - curr.Keys);
      d := Changes(added, changed, removed);
    }

    /** One refresh: if anything changed it is announced and becomes the new state. */
    method Refresh(snap: Snapshot)
      requires Keyed(snap) && Follows()
      modifies this
      ensures Follows() && Alike(h, state, snap) && Alike(h, followed, snap)
      ensures if Alike(h, old(state), snap) then events == old(events) && followed == old(followed)
              else |events| == |old(events)| + 1 && events[..|old(events)|] == old(events)
                   && IsDiff(h, old(state), snap, events[|old(events)|])
                   && followed == Apply(old(followed), events[|old(events)|])
    {
      var d := Diff(state, snap);
      SilentIffAlike(h, state, snap, d);
      ApplyFollows(h, state, snap, d, followed);
      hide IsDiff, Apply;
      if d.added != [] || d.changed != [] || d.removed != [] {
        events := events + [d];
        followed := Apply(followed, d);
        state := snap;
        AlikeSelf(h, snap);
      } else {
        assert d == Changes([], [], []);
        AlikeTrans(h, followed, state, snap);
      }
    }

    /** Over any run of snapshots, folding the announced changes keeps up with the latest one; if the digest tells
        all tracked fields apart, what the listener has is that very snapshot. */
    method Watch(snaps: seq<Snapshot>)
      requires Follows() && forall i | 0 <= i < |snaps| :: Keyed(snaps[i])
      modifies this
      ensures |old(events)| <= |events| && Follows() && followed == FoldAll(old(followed), events[|old(events)|..])
      ensures snaps != [] ==> Alike(h, followed, snaps[|snaps| - 1])
    {
      for i := 0 to |snaps|
        invariant Follows() && |old(events)| <= |events|
        invariant followed == FoldAll(old(followed), events[|old(events)|..])
        invariant i > 0 ==> Alike(h, followed, snaps[i - 1])
      {
        ghost var before := events;
        hide Follows, Alike, Apply, FoldAll, IsDiff, Keyed;
        Refresh(snaps[i]);
        if |events| > |before| {
          FoldMore(old(followed), before, events, |old(events)|);
        }
      }
    }
  }

  function FoldAll(s: Snapshot, ds: seq<Changes>): Snapshot {
    if ds == [] then s else Apply(FoldAll(s, ds[..|ds| - 1]), ds[|ds| - 1])
  }

  lemma FoldSnoc(s: Snapshot, ds: seq<Changes>, d: Changes)
    ensures FoldAll(s, ds + [d]) == Apply(FoldAll(s, ds), d)
  {
    assert (ds + [d])[..|ds|] == ds;
  }

  /** All of `es` comes before all of `todo`. */
  ghost predicate Before(es: seq<Entity>, todo: set<Uid>) {
    forall e, u | e in es && u in todo :: e.uid < u
  }

  lemma NextListed(es: seq<Entity>, s: Snapshot, keys: set<Uid>, todo: set<Uid>, u: Uid)
    requires Keyed(s) && keys <= s.Keys && todo <= keys && u in todo && forall v | v in todo :: u <= v
    requires Lists(es, s, keys - todo) && Before(es, todo)
    ensures Lists(es + [s[u]], s, keys - (todo - {u})) && Before(es + [s[u]], todo - {u})
  {
    Extended(es, s, keys - todo, u);
    Members(es, [s[u]]);
    hide Lists;
    assert keys - todo + {u} == keys - (todo - {u});
  }

  lemma FoldMore(s: Snapshot, before: seq<Changes>, after: seq<Changes>, k: nat)
    requires k <= |before| && |after| == |before| + 1 && after[..|before|] == before
    ensures FoldAll(s, after[k..]) == Apply(FoldAll(s, before[k..]), after[|before|])
  {
    assert after[k..] == before[k..] + [after[|before|]];
    FoldSnoc(s, before[k..], after[|before|]);
  }

  lemma AlikeSelf(h: Hash, s: Snapshot)
    ensures Alike(h, s, s)
  {
  }

  lemma AlikeTrans(h: Hash, a: Snapshot, b: Snapshot, c: Snapshot)
    requires Alike(h, a, b) && Alike(h, b, c)
    ensures Alike(h, a, c)
  {
  }

  lemma Extended(es: seq<Entity>, s: Snapshot, keys: set<Uid>, u: Uid)
    requires Lists(es, s, keys) && Keyed(s) && u in s && forall e | e in es :: e.uid < u
    ensures Lists(es + [s[u]], s, keys + {u})
  {
    Members(es, [s[u]]);
    assert forall i | 0 <= i < |es| :: es[i] in es;
  }

  /** With a digest that tells all tracked fields apart, alike snapshots are equal. */
  lemma AlikeIsEqual(h: Hash, a: Snapshot, b: Snapshot)
    requires Keyed(a) && Keyed(b) && Alike(h, a, b)
    requires forall f, g :: h(f) == h(g) ==> f == g
    ensures a == b
  {
    forall u | u in a ensures a[u] == b[u] {
      assert Same(h, a[u], b[u]);
    }
  }
}
