/** Counting repeated announcements: row by row, and over all rows at once. */
module MailCosts {
  import opened MailSpec
  import opened Seqs

  function Heard(told: seq<seq<RowId>>): set<RowId> {
    set e, r | e in told && r in e :: r
  }

  function SetOf(rows: seq<RowId>): set<RowId> {
    set r | r in rows
  }

  /** Rowids that occur again in a later event, counted per event. */
  function Repeats(told: seq<seq<RowId>>): nat {
    if told == [] then 0 else
      var front := told[..|told| - 1];
      Repeats(front) + |SetOf(told[|told| - 1]) * Heard(front)|
  }

  /** A message without Message-ID is created anew whenever its body is read. */
  predicate Nameless(mail: Mail, r: RowId) {
    mail(r).messageId == ""
  }

  /** A drain could announce the row again if it had been announced. */
  predicate Open(w: World, mail: Mail, r: RowId) {
    r in w.past.index && (w.lastRowid < r || r in w.parked) && (w.lastAnnounced < r || Nameless(mail, r))
  }

  /** Those of the given rows that could be announced again. */
  function Exposed(w: World, heard: set<RowId>, mail: Mail): set<RowId> {
    set r | r in heard && Open(w, mail, r)
  }

  lemma HeardMore(told: seq<seq<RowId>>, rows: seq<RowId>)
    ensures Heard(told + [rows]) == Heard(told) + SetOf(rows)
    ensures Repeats(told + [rows]) == Repeats(told) + |SetOf(rows) * Heard(told)|
  {
    Members(told, [rows]);
    assert (told + [rows])[..|told|] == told;
  }

  /** An empty event makes no difference. */
  lemma EmptyEvent(told: seq<seq<RowId>>)
    ensures Heard(told + [[]]) == Heard(told) && Repeats(told + [[]]) == Repeats(told)
  {
    HeardMore(told, []);
    assert SetOf([]) == {};
    hide Heard;
    assert {} * Heard(told) == {};
  }

  // ----- row by row ---------------------------------------------------------------------

  function One(b: bool): nat {
    if b then 1 else 0
  }

  /** How many events list a row. */
  function Times(told: seq<seq<RowId>>, r: RowId): nat {
    if told == [] then 0 else Times(told[..|told| - 1], r) + One(r in told[|told| - 1])
  }

  lemma TimesMore(told: seq<seq<RowId>>, rows: seq<RowId>, r: RowId)
    ensures Times(told + [rows], r) == Times(told, r) + One(r in rows)
  {
    assert (told + [rows])[..|told|] == told;
  }

  lemma NothingHeard(r: RowId)
    ensures Times([], r) == 0 && r !in Heard([])
  {
  }

  lemma HeardIn(told: seq<seq<RowId>>, rows: seq<RowId>, r: RowId)
    ensures r in Heard(told + [rows]) <==> r in Heard(told) || r in rows
  {
    HeardMore(told, rows);
    hide Heard, Repeats;
  }

  lemma {:induction false} TimesHeard(told: seq<seq<RowId>>, r: RowId)
    ensures r in Heard(told) <==> Times(told, r) > 0
  {
    hide *;
    if told == [] {
      NothingHeard(r);
    } else {
      var front, rows := told[..|told| - 1], told[|told| - 1];
      assert told == front + [rows];
      TimesHeard(front, r);
      HeardIn(front, rows, r);
      TimesMore(front, rows, r);
      OneIs(r in rows);
    }
  }

  lemma OneIs(b: bool)
    ensures One(b) == if b then 1 else 0
  {
  }

  /** What a row has cost in repetitions, and what it may still cost. */
  function Cost(w: World, told: seq<seq<RowId>>, mail: Mail, r: RowId): nat {
    if Times(told, r) == 0 then 0 else Times(told, r) - 1 + One(Open(w, mail, r))
  }

  // ----- all rows at once ---------------------------------------------------------------

  /** Repetitions among the given rows. */
  function RepeatsOf(told: seq<seq<RowId>>, rows: set<RowId>): nat {
    if told == [] then 0 else
      var front := told[..|told| - 1];
      RepeatsOf(front, rows) + |SetOf(told[|told| - 1]) * Heard(front) * rows|
  }

  lemma {:induction false} RepeatsOfOne(told: seq<seq<RowId>>, r: RowId)
    ensures RepeatsOf(told, {r}) == if Times(told, r) == 0 then 0 else Times(told, r) - 1
  {
    if told != [] {
      var front, rows := told[..|told| - 1], told[|told| - 1];
      RepeatsOfOne(front, r);
      TimesHeard(front, r);
      hide Heard;
      assert SetOf(rows) * Heard(front) * {r} == if r in rows && r in Heard(front) then {r} else {};
    }
  }

  lemma {:induction false} RepeatsOfMore(told: seq<seq<RowId>>, rows: set<RowId>, r: RowId)
    requires r !in rows
    ensures RepeatsOf(told, rows + {r}) == RepeatsOf(told, rows) + RepeatsOf(told, {r})
  {
    if told != [] {
      var front := told[..|told| - 1];
      RepeatsOfMore(front, rows, r);
      SizeMore(SetOf(told[|told| - 1]) * Heard(front), rows, r);
      hide Heard, SetOf;
    }
  }

  lemma SizeMore(s: set<RowId>, rows: set<RowId>, r: RowId)
    requires r !in rows
    ensures |s * (rows + {r})| == |s * rows| + |s * {r}| && |s * {r}| == One(r in s)
  {
    if r in s {
      assert s * (rows + {r}) == s * rows + {r} && s * {r} == {r};
    } else {
      assert s * (rows + {r}) == s * rows && s * {r} == {};
    }
  }

  lemma {:induction false} RepeatsOfAll(told: seq<seq<RowId>>, rows: set<RowId>)
    requires Heard(told) <= rows
    ensures RepeatsOf(told, rows) == Repeats(told)
  {
    hide Heard, SetOf;
    if told != [] {
      var front, last := told[..|told| - 1], told[|told| - 1];
      HeardMore(front, last);
      assert told == front + [last];
      RepeatsOfAll(front, rows);
      assert SetOf(last) * Heard(front) * rows == SetOf(last) * Heard(front);
    }
  }

  lemma RepeatsOfNone(told: seq<seq<RowId>>)
    ensures RepeatsOf(told, {}) == 0
  {
    if told != [] {
      RepeatsOfNone(told[..|told| - 1]);
      assert SetOf(told[|told| - 1]) * Heard(told[..|told| - 1]) * {} == {};
    }
  }

  /** The cost of a set of rows. */
  function CostOf(w: World, told: seq<seq<RowId>>, mail: Mail, rows: set<RowId>): nat {
    RepeatsOf(told, rows) + |Exposed(w, Heard(told), mail) * rows|
  }

  lemma CostOfMore(w: World, told: seq<seq<RowId>>, mail: Mail, rows: set<RowId>, r: RowId)
    requires r !in rows
    ensures CostOf(w, told, mail, rows + {r}) == CostOf(w, told, mail, rows) + Cost(w, told, mail, r)
  {
    RepeatsOfMore(told, rows, r);
    RepeatsOfOne(told, r);
    TimesHeard(told, r);
    SizeMore(Exposed(w, Heard(told), mail), rows, r);
    hide Heard, RepeatsOf, Times, Open;
  }

  /** A bound on every row that may be exceeded by one for the rows in `a` and by one for those in `b`. */
  ghost predicate Bounded(w0: World, told0: seq<seq<RowId>>, w: World, told: seq<seq<RowId>>, a: set<RowId>,
                          b: set<RowId>, mail: Mail) {
    forall r :: Cost(w, told, mail, r) <= Cost(w0, told0, mail, r) + One(r in a) + One(r in b)
  }

  lemma {:induction false} CostsOf(w0: World, told0: seq<seq<RowId>>, w: World, told: seq<seq<RowId>>, a: set<RowId>,
                                   b: set<RowId>,
                                   mail: Mail, rows: set<RowId>)
    requires Bounded(w0, told0, w, told, a, b, mail)
    ensures CostOf(w, told, mail, rows) <= CostOf(w0, told0, mail, rows) + |a * rows| + |b * rows|
    decreases |rows|
  {
    hide Cost, RepeatsOf, Heard, Exposed;
    if rows == {} {
      RepeatsOfNone(told);
      assert Exposed(w, Heard(told), mail) * rows == {};
    } else {
      var r :| r in rows;
      var rest := rows - {r};
      CostsOf(w0, told0, w, told, a, b, mail, rest);
      CostOfMore(w, told, mail, rest, r);
      CostOfMore(w0, told0, mail, rest, r);
      SizeMore(a, rest, r);
      SizeMore(b, rest, r);
      assert rest + {r} == rows;
      assert Cost(w, told, mail, r) <= Cost(w0, told0, mail, r) + One(r in a) + One(r in b);
    }
  }

  lemma CostOfAll(w: World, told: seq<seq<RowId>>, mail: Mail, rows: set<RowId>)
    requires Heard(told) <= rows
    ensures CostOf(w, told, mail, rows) == Repeats(told) + |Exposed(w, Heard(told), mail)|
  {
    RepeatsOfAll(told, rows);
    assert Exposed(w, Heard(told), mail) * rows == Exposed(w, Heard(told), mail);
  }

  /** What holds row by row holds for the totals. */
  lemma Totals(w0: World, told0: seq<seq<RowId>>, w: World, told: seq<seq<RowId>>, a: set<RowId>, b: set<RowId>,
               mail: Mail)
    requires Bounded(w0, told0, w, told, a, b, mail)
    ensures Repeats(told) + |Exposed(w, Heard(told), mail)|
            <= Repeats(told0) + |Exposed(w0, Heard(told0), mail)| + |a| + |b|
  {
    hide *;
    var rows := Heard(told) + Heard(told0) + a + b;
    CostsOf(w0, told0, w, told, a, b, mail, rows);
    CostOfAll(w, told, mail, rows);
    CostOfAll(w0, told0, mail, rows);
    assert a * rows == a && b * rows == b;
  }
}
