/** Matching mailbox URLs against account patterns: greedy search for the fragments between `%` signs. */
module LikePattern {
  import opened Wrappers

  // ----- what the driver does ----------------------------------------------------------

  /** `pattern.split("%")`. */
  function Split(p: string): (fs: seq<string>)
    ensures fs != []
  {
    var k := NextPercent(p);
    if k == |p| then [p] else [p[..k]] + Split(p[k + 1..])
  }

  function NextPercent(p: string): (k: nat)
    ensures k <= |p| && '%' !in p[..k] && (k < |p| ==> p[k] == '%')
  {
    if p == "" || p[0] == '%' then 0 else
      var k := 1 + NextPercent(p[1..]);
      assert p[..k] == [p[0]] + p[1..][..k - 1];
      k
  }

  predicate At(u: string, f: string, k: nat) {
    k + |f| <= |u| && u[k..k + |f|] == f
  }

  /** `url.find(fragment, cursor)`: the leftmost place from the cursor on. */
  function Find(u: string, f: string, c: nat): (r: Option<nat>)
    ensures r.Some? ==> c <= r.value && At(u, f, r.value) && forall k | c <= k < r.value :: !At(u, f, k)
    ensures r.None? ==> forall k | c <= k :: !At(u, f, k)
    decreases |u| - c
  {
    if c > |u| then None else if At(u, f, c) then Some(c) else Find(u, f, c + 1)
  }

  function Greedy(fs: seq<string>, u: string, c: nat): bool {
    if fs == [] then true
    else if fs[0] == "" then Greedy(fs[1..], u, c)
    else
      var k := Find(u, fs[0], c);
      k.Some? && Greedy(fs[1..], u, k.value + |fs[0]|)
  }

  // ----- what it should find -------------------------------------------------------------

  /** Some way to place all fragments in order, without overlap, from the cursor on. */
  ghost predicate Placed(fs: seq<string>, u: string, c: nat)
    decreases |fs|
  {
    fs == [] || exists k :: c <= k && At(u, fs[0], k) && Placed(fs[1..], u, k + |fs[0]|)
  }

  lemma {:induction false} PlacedEarlier(fs: seq<string>, u: string, c: nat, d: nat)
    requires Placed(fs, u, d) && c <= d
    ensures Placed(fs, u, c)
  {
    if fs != [] {
      var k :| d <= k && At(u, fs[0], k) && Placed(fs[1..], u, k + |fs[0]|);
      assert c <= k;
    }
  }

  /** Taking the leftmost place of each fragment loses nothing: the search succeeds if and only if the fragments
      can be placed at all. */
  lemma {:induction false} GreedyIsComplete(fs: seq<string>, u: string, c: nat)
    requires c <= |u|
    ensures Greedy(fs, u, c) <==> Placed(fs, u, c)
    decreases |fs|
  {
    if fs != [] {
      hide Find, At;
      var f, rest := fs[0], fs[1..];
      if f == "" {
        GreedyIsComplete(rest, u, c);
        PlacedEmpty(fs, u, c);
      } else {
        var r := Find(u, f, c);
        PlacedLeftmost(fs, u, c);
        if r.Some? {
          AtBound(u, f, r.value);
          GreedyIsComplete(rest, u, r.value + |f|);
        }
      }
    }
  }

  lemma AtBound(u: string, f: string, k: nat)
    requires At(u, f, k)
    ensures k + |f| <= |u|
  {
  }

  lemma PlacedEmpty(fs: seq<string>, u: string, c: nat)
    requires fs != [] && fs[0] == "" && c <= |u|
    ensures Placed(fs, u, c) <==> Placed(fs[1..], u, c)
  {
    if Placed(fs, u, c) {
      var k :| c <= k && At(u, fs[0], k) && Placed(fs[1..], u, k + |fs[0]|);
      PlacedEarlier(fs[1..], u, c, k + |fs[0]|);
    } else if Placed(fs[1..], u, c) {
      assert At(u, fs[0], c);
    }
  }

  lemma PlacedLeftmost(fs: seq<string>, u: string, c: nat)
    requires fs != []
    ensures var r := Find(u, fs[0], c); Placed(fs, u, c) <==> r.Some? && Placed(fs[1..], u, r.value + |fs[0]|)
  {
    hide Find, At;
    var r := Find(u, fs[0], c);
    if Placed(fs, u, c) {
      var k :| c <= k && At(u, fs[0], k) && Placed(fs[1..], u, k + |fs[0]|);
      PlacedEarlier(fs[1..], u, r.value + |fs[0]|, k + |fs[0]|);
    }
  }

  // ----- the reading that the index query gives to a pattern -------------------------------

  /** SQL's LIKE, on letters as they are: `%` stands for any text and, where `joker` is set, `_` for any one
      character. The query sets it; without it, only `%` is special. */
  predicate Like(p: string, u: string, joker: bool)
    decreases |p| + |u|
  {
    if p == "" then u == ""
    else if p[0] == '%' then Like(p[1..], u, joker) || (u != "" && Like(p, u[1..], joker))
    else u != "" && ((joker && p[0] == '_') || p[0] == u[0]) && Like(p[1..], u[1..], joker)
  }

  lemma {:induction false} LikeAnything(q: string, u: string, c: nat, joker: bool)
    requires c <= |u|
    ensures Like("%" + q, u[c..], joker) <==> exists k :: c <= k <= |u| && Like(q, u[k..], joker)
    decreases |u| - c
  {
    assert ("%" + q)[1..] == q;
    if c < |u| {
      assert u[c..][1..] == u[c + 1..];
      LikeAnything(q, u, c + 1, joker);
    }
    hide Like;
    if Like(q, u[c..], joker) {
      assert c <= c <= |u| && Like(q, u[c..], joker);
    }
  }

  lemma {:induction false} LikeLiteral(f: string, q: string, u: string, c: nat)
    requires c <= |u| && '%' !in f
    ensures Like(f + q, u[c..], false) <==> At(u, f, c) && Like(q, u[c + |f|..], false)
    decreases |f|
  {
    if f == "" {
      assert f + q == q && u[c..c] == "";
    } else {
      assert f[0] in f && (forall x | x in f[1..] :: x in f);
      assert (f + q)[0] == f[0] && (f + q)[1..] == f[1..] + q;
      if c < |u| {
        assert u[c..][0] == u[c] && u[c..][1..] == u[c + 1..];
        LikeLiteral(f[1..], q, u, c + 1);
        assert At(u, f, c) <==> u[c] == f[0] && At(u, f[1..], c + 1) by { AtCons(u, f, c); }
      }
    }
  }

  lemma AtCons(u: string, f: string, c: nat)
    requires f != "" && c < |u|
    ensures At(u, f, c) <==> u[c] == f[0] && At(u, f[1..], c + 1)
  {
    if c + |f| <= |u| {
      assert u[c..c + |f|] == [u[c]] + u[c + 1..c + |f|];
      assert f == [f[0]] + f[1..];
    }
  }

  lemma LikeEnd(u: string, c: nat, joker: bool)
    requires c <= |u|
    ensures Like("%", u[c..], joker)
  {
    LikeAnything("", u, c, joker);
    assert "%" + "" == "%";
    assert u[|u|..] == "";
    assert c <= |u| <= |u| && Like("", u[|u|..], joker);
  }

  lemma CutAt(p: string, k: nat)
    requires k < |p| && p[k] == '%'
    ensures p + "%" == p[..k] + ("%" + (p[k + 1..] + "%"))
  {
    var tail := p[k + 1..];
    assert p == p[..k] + ("%" + tail);
    assert p + "%" == p[..k] + (("%" + tail) + "%");
    assert ("%" + tail) + "%" == "%" + (tail + "%");
  }

  /** One place for the first fragment: the rest of the pattern must match behind it. */
  lemma {:induction false} LikeFromHere(p: string, u: string, j: nat)
    requires j <= |u|
    ensures Like(p + "%", u[j..], false) <==> At(u, Split(p)[0], j) && Placed(Split(p)[1..], u, j + |Split(p)[0]|)
    decreases |p|, 0
  {
    SplitHead(p);
    hide *;
    var k := NextPercent(p);
    var f := p[..k];
    BeforePercent(p);
    if k == |p| {
      LikeLiteral(f, "%", u, j);
      PlacedNone(u, j + |f|);
      if At(u, f, j) {
        AtBound(u, f, j);
        LikeEnd(u, j + |f|, false);
      }
    } else {
      CutAt(p, k);
      LikeLiteral(f, "%" + (p[k + 1..] + "%"), u, j);
      if At(u, f, j) {
        AtBound(u, f, j);
        PlacedIsLike(p[k + 1..], u, j + |f|);
      }
    }
  }

  lemma SplitHead(p: string)
    ensures var k := NextPercent(p);
            && Split(p)[0] == p[..k]
            && (k == |p| ==> Split(p)[1..] == [] && p[..k] == p)
            && (k < |p| ==> Split(p)[1..] == Split(p[k + 1..]))
  {
    hide NextPercent;
  }

  lemma BeforePercent(p: string)
    ensures '%' !in p[..NextPercent(p)]
  {
  }

  lemma PlacedNone(u: string, c: nat)
    ensures Placed([], u, c)
  {
  }

  /** The fragments can be placed if and only if the pattern, open at both ends, matches. */
  lemma {:induction false} PlacedIsLike(p: string, u: string, c: nat)
    requires c <= |u|
    ensures Placed(Split(p), u, c) <==> Like("%" + (p + "%"), u[c..], false)
    decreases |p|, 1
  {
    hide *;
    var fs := Split(p);
    LikeAnything(p + "%", u, c, false);
    forall j | c <= j <= |u| ensures Like(p + "%", u[j..], false) <==>
        At(u, fs[0], j) && Placed(fs[1..], u, j + |fs[0]|) {
      LikeFromHere(p, u, j);
    }
    PlacedSomewhere(fs, u, c, p + "%");
  }

  lemma PlacedSomewhere(fs: seq<string>, u: string, c: nat, q: string)
    requires fs != [] && c <= |u|
    requires forall j | c <= j <= |u| :: Like(q, u[j..], false) <==> At(u, fs[0], j) && Placed(fs[1..], u, j + |fs[0]|)
    ensures Placed(fs, u, c) <==> exists j :: c <= j <= |u| && Like(q, u[j..], false)
  {
    hide Like;
    if Placed(fs, u, c) {
      var j :| c <= j && At(u, fs[0], j) && Placed(fs[1..], u, j + |fs[0]|);
      assert c <= j <= |u| && Like(q, u[j..], false);
    }
  }

  /** The driver accepts a URL if and only if the pattern, read with `%` as its only wildcard, matches it with both
      ends open. */
  lemma AcceptsIsOpenLike(p: string, u: string)
    ensures Greedy(Split(p), u, 0) <==> Like("%" + (p + "%"), u, false)
  {
    GreedyIsComplete(Split(p), u, 0);
    PlacedIsLike(p, u, 0);
    assert u[0..] == u;
  }

  /** A pattern that is open at the end matches every continuation. */
  lemma {:induction false} LikeOpen(p: string, u: string, more: string, joker: bool)
    requires Like(p, u, joker)
    ensures Like(p + "%", u + more, joker)
    decreases |p| + |u|
  {
    if p == "" {
      assert p + "%" == "%" && u + more == more && more[0..] == more;
      LikeEnd(more, 0, joker);
    } else {
      assert (p + "%")[0] == p[0] && (p + "%")[1..] == p[1..] + "%";
      if u != "" {
        assert (u + more)[0] == u[0] && (u + more)[1..] == u[1..] + more;
      }
      if p[0] == '%' {
        if Like(p[1..], u, joker) {
          LikeOpen(p[1..], u, more, joker);
        } else {
          LikeOpen(p, u[1..], more, joker);
        }
      } else {
        LikeOpen(p[1..], u[1..], more, joker);
      }
    }
  }

  /** So whatever the `%` reading accepts, the driver accepts too, with anything before and behind it. */
  lemma LikeIsAccepted(p: string, less: string, u: string, more: string)
    requires Like(p, u, false)
    ensures Greedy(Split(p), less + (u + more), 0)
  {
    var v := less + (u + more);
    AcceptsIsOpenLike(p, v);
    LikeOpen(p, u, more, false);
    hide *;
    LikeAnything(p + "%", v, 0, false);
    assert v[0..] == v && v[|less|..] == u + more;
    assert 0 <= |less| <= |v| && Like(p + "%", v[|less|..], false);
  }

  // ----- when the driver agrees with the query ---------------------------------------------

  /** Not conversely: the end of a pattern is not anchored, so a mailbox whose name only begins like the one
      meant is accepted although no reading of the pattern matches it. */
  lemma EndIsNotAnchored(p: string, u: string, more: string, joker: bool)
    requires Like(p, u, false) && p != "" && p[|p| - 1] != '%' && !(joker && p[|p| - 1] == '_')
    requires more != "" && more[|more| - 1] != p[|p| - 1]
    ensures Greedy(Split(p), u + more, 0) && !Like(p, u + more, joker)
  {
    LikeIsAccepted(p, "", u, more);
    assert "" + (u + more) == u + more;
    EndsAlike(p, u + more, joker);
    hide *;
  }

  /** A pattern that ends in a literal character matches only texts that end in it. */
  lemma {:induction false} EndsAlike(p: string, u: string, joker: bool)
    requires p != "" && p[|p| - 1] != '%' && !(joker && p[|p| - 1] == '_')
    ensures Like(p, u, joker) ==> u != "" && u[|u| - 1] == p[|p| - 1]
    decreases |p| + |u|
  {
    if Like(p, u, joker) && p[0] == '%' {
      if Like(p[1..], u, joker) {
        EndsAlike(p[1..], u, joker);
      } else {
        EndsAlike(p, u[1..], joker);
      }
    } else if Like(p, u, joker) && |p| > 1 {
      EndsAlike(p[1..], u[1..], joker);
    } else if Like(p, u, joker) {
      assert p[1..] == "";
      assert Like(p[1..], u[1..], joker);
    }
  }

  /** A text that the query matches: nothing for each `%`, and for each `_` another character. */
  function Bent(p: string): string {
    if p == "" then "" else (if p[0] == '%' then "" else if p[0] == '_' then "-" else [p[0]]) + Bent(p[1..])
  }

  lemma {:induction false} BentMatches(p: string)
    ensures Like(p, Bent(p), true) && '_' !in Bent(p)
  {
    if p != "" {
      BentMatches(p[1..]);
      if p[0] == '%' {
        assert Bent(p) == Bent(p[1..]);
      } else {
        assert Bent(p)[1..] == Bent(p[1..]);
        assert Bent(p) == [Bent(p)[0]] + Bent(p[1..]);
      }
    }
  }

  lemma {:induction false} SameReading(p: string, u: string)
    requires '_' !in p
    ensures Like(p, u, true) == Like(p, u, false)
    decreases |p| + |u|
  {
    if p != "" {
      assert p[0] in p && forall c | c in p[1..] :: c in p;
      SameReading(p[1..], u);
      if u != "" {
        SameReading(p, u[1..]);
        SameReading(p[1..], u[1..]);
      }
    }
  }

  /** Every character of a placed fragment occurs in the text. */
  lemma {:induction false} PlacedOccurs(fs: seq<string>, u: string, c: nat, f: string, x: char)
    requires Placed(fs, u, c) && f in fs && x in f
    ensures x in u
    decreases |fs|
  {
    var k :| c <= k && At(u, fs[0], k) && Placed(fs[1..], u, k + |fs[0]|);
    if f == fs[0] {
      assert x in u[k..k + |f|];
    } else {
      PlacedOccurs(fs[1..], u, k + |fs[0]|, f, x);
    }
  }

  lemma SplitEnds(p: string)
    ensures var k := NextPercent(p); k <= |p| && (k < |p| ==> p[k] == '%') && p[..|p|] == p
    ensures Split(p)[0] in Split(p) && forall f | f in Split(p)[1..] :: f in Split(p)
  {
    hide Split, NextPercent;
  }

  lemma BehindPercent(p: string, k: nat, x: char)
    requires k <= |p| && (k < |p| ==> p[k] == '%') && x in p && x != '%' && x !in p[..k]
    ensures k < |p| && x in p[k + 1..]
  {
    var i :| 0 <= i < |p| && p[i] == x;
    assert forall j | 0 <= j < k :: p[..k][j] == p[j];
    assert p[k + 1..][i - k - 1] == x;
  }

  /** Cutting at `%` keeps every other character. */
  lemma {:induction false} SplitKeeps(p: string, x: char) returns (f: string)
    requires x in p && x != '%'
    ensures f in Split(p) && x in f
  {
    var k := NextPercent(p);
    SplitHead(p);
    SplitEnds(p);
    hide *;
    if x in p[..k] {
      f := p[..k];
    } else {
      BehindPercent(p, k, x);
      f := SplitKeeps(p[k + 1..], x);
    }
  }

  /** The driver takes an underscore literally: it accepts all that the query matches if and only if the pattern
      holds none. */
  lemma UnderscoreIsTakenLiterally(p: string)
    ensures (forall u :: Like(p, u, true) ==> Greedy(Split(p), u, 0)) <==> '_' !in p
  {
    if '_' in p {
      var u := Bent(p);
      BentMatches(p);
      GreedyIsComplete(Split(p), u, 0);
      var f := SplitKeeps(p, '_');
      hide *;
      if Placed(Split(p), u, 0) {
        PlacedOccurs(Split(p), u, 0, f, '_');
      }
      assert Like(p, u, true) && !Greedy(Split(p), u, 0);
    } else {
      hide *;
      forall u | Like(p, u, true) ensures Greedy(Split(p), u, 0) {
        SameReading(p, u);
        LikeIsAccepted(p, "", u, "");
        assert "" + (u + "") == u;
      }
    }
  }

  predicate OpenEnds(p: string) {
    p != "" && p[0] == '%' && p[|p| - 1] == '%'
  }

  /** A second `%` at the end adds nothing. */
  lemma {:induction false} SecondPercent(p: string, u: string)
    requires p != "" && p[|p| - 1] == '%'
    ensures Like(p + "%", u, false) == Like(p, u, false)
    decreases |p| + |u|
  {
    assert (p + "%")[0] == p[0] && (p + "%")[1..] == p[1..] + "%";
    if |p| == 1 {
      assert p == "%" && u[0..] == u;
      LikeEnd(u, 0, false);
      assert p[1..] + "%" == "%";
    } else {
      SecondPercent(p[1..], u);
      if u != "" {
        SecondPercent(p, u[1..]);
        SecondPercent(p[1..], u[1..]);
      }
    }
  }

  /** Nor does one at the front. */
  lemma {:induction false} FirstPercent(p: string, u: string)
    requires p != "" && p[0] == '%'
    ensures Like("%" + p, u, false) == Like(p, u, false)
    decreases |u|
  {
    assert ("%" + p)[1..] == p;
    if u != "" {
      FirstPercent(p, u[1..]);
    }
  }

  lemma OpenIsAccepted(p: string, u: string)
    requires OpenEnds(p) && '_' !in p
    ensures Greedy(Split(p), u, 0) <==> Like(p, u, true)
  {
    AcceptsIsOpenLike(p, u);
    assert (p + "%")[0] == '%';
    FirstPercent(p + "%", u);
    SecondPercent(p, u);
    SameReading(p, u);
    hide *;
  }

  /** A URL that the driver accepts and the query does not match. */
  lemma ClosedIsNot(p: string) returns (u: string)
    requires !OpenEnds(p) && '_' !in p
    ensures Greedy(Split(p), u, 0) && !Like(p, u, true)
  {
    BentMatches(p);
    SameReading(p, Bent(p));
    if p == "" {
      u := "x";
      LikeIsAccepted(p, "", "", "x");
      assert "" + ("" + "x") == "x";
      assert !Like("", u, true);
    } else if p[|p| - 1] != '%' {
      var more := if p[|p| - 1] == 'x' then "y" else "x";
      assert p[|p| - 1] in p;
      u := Bent(p) + more;
      EndIsNotAnchored(p, Bent(p), more, true);
    } else {
      var less := if p[0] == 'x' then "y" else "x";
      assert p[0] in p;
      u := less + (Bent(p) + "");
      LikeIsAccepted(p, less, Bent(p), "");
      assert u[0] == less[0];
    }
  }

  /** The driver agrees with the query on every URL if and only if the pattern holds no underscore and is open at
      both ends. */
  lemma AgreesIffOpen(p: string)
    ensures (forall u :: Greedy(Split(p), u, 0) <==> Like(p, u, true)) <==> '_' !in p && OpenEnds(p)
  {
    UnderscoreIsTakenLiterally(p);
    hide *;
    if '_' !in p {
      if OpenEnds(p) {
        forall u ensures Greedy(Split(p), u, 0) <==> Like(p, u, true) {
          OpenIsAccepted(p, u);
        }
      } else {
        var u := ClosedIsNot(p);
      }
    }
  }

  // ----- the loop as it runs --------------------------------------------------------------------

  method FindFrom(u: string, f: string, c: nat) returns (r: Option<nat>)
    ensures r == Find(u, f, c)
  {
    var k := c;
    while k <= |u|
      invariant c <= k && Find(u, f, c) == Find(u, f, k)
      decreases |u| + 1 - k
    {
      if At(u, f, k) {
        return Some(k);
      }
      k := k + 1;
    }
    r := None;
  }

  method MatchesUrl(pattern: string, url: string) returns (ok: bool)
    ensures ok <==> Placed(Split(pattern), url, 0)
    ensures ok <==> Like("%" + (pattern + "%"), url, false)
  {
    var fragments := Split(pattern);
    var cursor: nat := 0;
    GreedyIsComplete(fragments, url, 0);
    AcceptsIsOpenLike(pattern, url);
    hide Split, Like, Placed;
    for i := 0 to |fragments|
      invariant Greedy(fragments, url, 0) == Greedy(fragments[i..], url, cursor)
    {
      assert fragments[i..][1..] == fragments[i + 1..];
      if fragments[i] != "" {
        var idx := FindFrom(url, fragments[i], cursor);
        if idx.None? {
          return false;
        }
        cursor := idx.value + |fragments[i]|;
      }
    }
    assert fragments[|fragments|..] == [];
    ok := true;
  }
}
