/** Finding an unused name by counting up a suffix: "base", "base-2", "base-3", and so on. */
module Names {
  import opened Seqs

  const DIGITS: string := "0123456789"

  function Decimal(n: nat): string {
    if n < 10 then [DIGITS[n]] else Decimal(n / 10) + [DIGITS[n % 10]]
  }

  function DigitValue(c: char): nat {
    if '0' <= c <= '9' then c as int - '0' as int else 0
  }

  function Value(s: string): nat {
    if s == "" then 0 else Value(s[..|s| - 1]) * 10 + DigitValue(s[|s| - 1])
  }

  lemma ValueOfSnoc(s: string, c: char)
    ensures Value(s + [c]) == Value(s) * 10 + DigitValue(c)
  {
    assert (s + [c])[..|s|] == s;
  }

  lemma {:induction false} ValueOfDecimal(n: nat)
    ensures Value(Decimal(n)) == n
  {
    if n < 10 {
      assert Value(Decimal(n)[..0]) == 0;
    } else {
      ValueOfDecimal(n / 10);
      ValueOfSnoc(Decimal(n / 10), DIGITS[n % 10]);
    }
  }

  /** The k-th name that is tried; the first suffix is `start`. */
  function Candidate(base: string, start: nat, k: nat): string {
    if k == 0 then base else base + "-" + Decimal(start + k - 1)
  }

  lemma CandidateSuffix(base: string, start: nat, k: nat)
    ensures Candidate(base, start, 0) == base
    ensures k > 0 ==>
              |Candidate(base, start, k)| > |base| && Candidate(base, start, k)[|base| + 1..] == Decimal(start + k - 1)
  {
    hide Decimal;
  }

  lemma CandidatesDiffer(base: string, start: nat, j: nat, k: nat)
    requires j != k
    ensures Candidate(base, start, j) != Candidate(base, start, k)
  {
    hide *;
    CandidateSuffix(base, start, j);
    CandidateSuffix(base, start, k);
    if j != 0 && k != 0 {
      ValueOfDecimal(start + j - 1);
      ValueOfDecimal(start + k - 1);
    }
  }

  function Tried(base: string, start: nat, k: nat): set<string> {
    set j | 0 <= j < k :: Candidate(base, start, j)
  }

  /** Each try uses up one taken name. */
  lemma {:induction false} TriedCount(base: string, start: nat, k: nat)
    ensures |Tried(base, start, k)| == k
  {
    hide Candidate;
    if k == 0 {
      assert Tried(base, start, 0) == {};
    } else {
      TriedCount(base, start, k - 1);
      assert Tried(base, start, k) == Tried(base, start, k - 1) + {Candidate(base, start, k - 1)};
      if Candidate(base, start, k - 1) in Tried(base, start, k - 1) {
        var j :| 0 <= j < k - 1 && Candidate(base, start, j) == Candidate(base, start, k - 1);
        CandidatesDiffer(base, start, j, k - 1);
      }
    }
  }

  /** If the first k names are all taken, there are at least k taken names. */
  lemma TriedBound(taken: set<string>, base: string, start: nat, k: nat)
    requires forall j | 0 <= j < k :: Candidate(base, start, j) in taken
    ensures k <= |taken|
  {
    TriedCount(base, start, k);
    SubsetSize(Tried(base, start, k), taken);
  }

  /** `name` is the first of the candidates that is free. */
  predicate IsFirstFree(taken: set<string>, base: string, start: nat, k: nat, name: string) {
    && k <= |taken| && name == Candidate(base, start, k) && name !in taken
    && forall j | 0 <= j < k :: Candidate(base, start, j) in taken
  }

  function FreeFrom(taken: set<string>, base: string, start: nat, k: nat): (free: nat)
    requires k <= |taken| && forall j | 0 <= j < k :: Candidate(base, start, j) in taken
    ensures IsFirstFree(taken, base, start, free, Candidate(base, start, free))
    decreases |taken| - k
  {
    if Candidate(base, start, k) !in taken then k else
      TriedBound(taken, base, start, k + 1);
      FreeFrom(taken, base, start, k + 1)
  }

  function FirstFree(taken: set<string>, base: string, start: nat): (name: string)
    ensures name !in taken
    ensures exists k :: IsFirstFree(taken, base, start, k, name)
  {
    Candidate(base, start, FreeFrom(taken, base, start, 0))
  }

  lemma FirstFreeIsUnique(taken: set<string>, base: string, start: nat, k: nat, name: string)
    requires IsFirstFree(taken, base, start, k, name)
    ensures name == FirstFree(taken, base, start)
  {
    var free := FreeFrom(taken, base, start, 0);
    assert IsFirstFree(taken, base, start, free, Candidate(base, start, free));
    assert !(k < free) && !(free < k);
  }

  /** The loop: it ends after at most one try more than there are taken names. */
  method FindFree(taken: set<string>, base: string, start: nat) returns (name: string, tries: nat)
    ensures name == FirstFree(taken, base, start) && name !in taken
    ensures tries <= |taken| + 1
  {
    name := base;
    var n := start;
    tries := 1;
    ghost var k := 0;
    while name in taken
      invariant k <= |taken| && n == start + k && name == Candidate(base, start, k) && tries == k + 1
      invariant forall j | 0 <= j < k :: Candidate(base, start, j) in taken
      decreases |taken| - k
    {
      TriedBound(taken, base, start, k + 1);
      name := base + "-" + Decimal(n);
      n := n + 1;
      k := k + 1;
      tries := tries + 1;
    }
    FirstFreeIsUnique(taken, base, start, k, name);
  }
}
