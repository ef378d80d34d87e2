/**
 * The suffix-probing search both `generateUniqueSlug` helpers run: probe `baseSlug`,
 * then `baseSlug-1`, `baseSlug-2`, … and stop at the first probe no competing record
 * holds. Here the competing records are abstracted to the set of slugs they hold;
 * the brand and page stores say which records compete.
 */
module Slugs {
  import opened Js

  /**
   * `slugify(v, { lower: true, strict: true })` with the library's own transformation
   * given as `slugify`: it rejects an argument that is not a string by throwing (`None`).
   */
  function Slugify(v: Value, slugify: string -> string): Option<string>
  {
    if v.Str? then Some(slugify(v.s)) else None
  }

  /** The k-th probe: the base itself, then `${baseSlug}-${counter}` with counter = k. */
  function Candidate(base: string, k: nat): string
  {
    if k == 0 then base else base + "-" + NatToString(k)
  }

  /** Distinct probes are distinct strings, so the loop never re-checks a slug. */
  lemma CandidateInjective(base: string, j: nat, k: nat)
    requires Candidate(base, j) == Candidate(base, k)
    ensures j == k
  {
    if j != 0 && k != 0 {
      assert Candidate(base, j)[|base| + 1..] == NatToString(j);
      assert Candidate(base, k)[|base| + 1..] == NatToString(k);
    }
  }

  /** The first `m` probes. */
  function Probed(base: string, m: nat): set<string>
  {
    set j | 0 <= j < m :: Candidate(base, j)
  }

  lemma {:induction false} ProbedSize(base: string, m: nat)
    ensures |Probed(base, m)| == m
  {
    if m > 0 {
      ProbedSize(base, m - 1);
      var c := Candidate(base, m - 1);
      ProbedStep(base, m);
      assert c !in Probed(base, m - 1) by {
        if c in Probed(base, m - 1) {
          var j :| 0 <= j < m - 1 && Candidate(base, j) == c;
          CandidateInjective(base, j, m - 1);
        }
      }
    }
  }

  lemma ProbedStep(base: string, m: nat)
    requires m > 0
    ensures Probed(base, m) == Probed(base, m - 1) + {Candidate(base, m - 1)}
  {
    forall x | x in Probed(base, m)
      ensures x in Probed(base, m - 1) + {Candidate(base, m - 1)}
    {
      var j :| 0 <= j < m && Candidate(base, j) == x;
      if j < m - 1 { assert x in Probed(base, m - 1); }
    }
  }

  /** If the first `m` probes are all held, at least `m` slugs are held. */
  lemma Pigeonhole(base: string, held: set<string>, m: nat)
    requires forall j :: 0 <= j < m ==> Candidate(base, j) in held
    ensures m <= |held|
  {
    ProbedSize(base, m);
    var p := Probed(base, m);
    assert p <= held;
    assert held == p + (held - p);
  }

  /**
   * The index of the first free probe at or after `k`, given that every probe before
   * `k` is held. It never exceeds the number of held slugs.
   */
  function FirstFreeFrom(base: string, held: set<string>, k: nat): (r: nat)
    requires forall j :: 0 <= j < k ==> Candidate(base, j) in held
    ensures k <= r <= |held|
    ensures Candidate(base, r) !in held
    ensures forall j :: 0 <= j < r ==> Candidate(base, j) in held
    decreases |held| - k
  {
    Pigeonhole(base, held, k);
    if Candidate(base, k) !in held then k
    else
      Pigeonhole(base, held, k + 1);
      FirstFreeFrom(base, held, k + 1)
  }

  /** The index of the first free probe: free itself, every earlier probe held, at most |held|. */
  function FirstFree(base: string, held: set<string>): (r: nat)
    ensures r <= |held|
    ensures Candidate(base, r) !in held
    ensures forall j :: 0 <= j < r ==> Candidate(base, j) in held
  {
    FirstFreeFrom(base, held, 0)
  }

  /** The slug the probe loop returns when the competing records hold `held`. */
  function Allocate(base: string, held: set<string>): (slug: string)
    ensures slug !in held
  {
    Candidate(base, FirstFree(base, held))
  }

  /** A free probe with every earlier probe held is the first free probe. */
  lemma FirstFreeUnique(base: string, held: set<string>, r: nat)
    requires Candidate(base, r) !in held
    requires forall j :: 0 <= j < r ==> Candidate(base, j) in held
    ensures FirstFree(base, held) == r
  {
  }

  /** A base no competing record holds is returned unchanged. */
  lemma AllocateFreeBase(base: string, held: set<string>)
    requires base !in held
    ensures Allocate(base, held) == base
  {
    FirstFreeUnique(base, held, 0);
  }

  /** A held base gets a numeric suffix. */
  lemma AllocateHeldBase(base: string, held: set<string>)
    requires base in held
    ensures exists k: nat :: 1 <= k <= |held| && Allocate(base, held) == base + "-" + NatToString(k)
  {
    var k := FirstFree(base, held);
    assert k != 0;
    assert Allocate(base, held) == base + "-" + NatToString(k);
  }

  /**
   * Strictly sequential allocations: when no competing record holds any probe of `base`
   * except those handed out by `n` earlier allocations, the next one is probe `n`.
   */
  lemma AllocateInSequence(base: string, held: set<string>, n: nat)
    requires forall j :: Candidate(base, j) !in held
    ensures Allocate(base, held + Probed(base, n)) == Candidate(base, n)
  {
    var all := held + Probed(base, n);
    if Candidate(base, n) in Probed(base, n) {
      var j :| 0 <= j < n && Candidate(base, j) == Candidate(base, n);
      CandidateInjective(base, j, n);
    }
    forall j | 0 <= j < n ensures Candidate(base, j) in all {
      assert Candidate(base, j) in Probed(base, n);
    }
    FirstFreeUnique(base, all, n);
  }

  /** Adding slugs that are no probe of `base` changes nothing. */
  lemma AllocateIgnoresOtherSlugs(base: string, held: set<string>, other: set<string>)
    requires forall j :: Candidate(base, j) !in other
    ensures Allocate(base, held + other) == Allocate(base, held)
  {
    var r := FirstFree(base, held);
    FirstFreeUnique(base, held + other, r);
  }
}
