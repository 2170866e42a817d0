/** Retry policy of the manager: the backoff between attempts, and the flat names
    of manually retried jobs (manager.cpp). */
module Retry {
  import opened Jobs
  import opened Digits
  import opened Ascii
  import opened Manager

  const UINT32_MAX: nat := 0xFFFF_FFFF

  lemma {:induction false} Pow2Grows(a: int, b: int)
    requires a <= b
    ensures Pow2(a) <= Pow2(b)
    decreases b - a
  {
    if a < b {
      Pow2Grows(a, b - 1);
    }
  }

  /** Longer failure never shortens the wait. */
  lemma BackoffMonotone(cfg: Config, a: nat, b: nat)
    requires a <= b
    ensures Backoff(a, cfg) <= Backoff(b, cfg) <= cfg.maxMs
  {
    Pow2Grows(a - 1, b - 1);
    MulGrows(cfg.initialMs, Pow2(a - 1), Pow2(b - 1));
  }

  /** The first wait is the initial one, each next one twice the last, up to the maximum. */
  lemma BackoffDoubles(cfg: Config, n: nat)
    requires n >= 1
    ensures Backoff(1, cfg) == if cfg.initialMs < cfg.maxMs then cfg.initialMs else cfg.maxMs
    ensures var next := 2 * Backoff(n, cfg); Backoff(n + 1, cfg) == if next < cfg.maxMs then next else cfg.maxMs
  {
    assert cfg.initialMs * Pow2(n) == 2 * (cfg.initialMs * Pow2(n - 1));
  }

  lemma MulGrows(c: nat, x: nat, y: nat)
    requires x <= y
    ensures c * x <= c * y
  {}

  /** The doubling loop stops at the bound, yet computes min(max, initial * 2^(attempts-1)),
      and its running value never comes near the end of int64. */
  method BackoffFor(attempts: nat, cfg: Config) returns (delay: nat)
    requires cfg.initialMs <= UINT32_MAX && cfg.maxMs <= UINT32_MAX
    ensures delay == Backoff(attempts, cfg)
    ensures delay <= cfg.maxMs
  {
    delay := cfg.initialMs;
    var i := 1;
    while i < attempts && delay < cfg.maxMs
      invariant 1 <= i && (i <= attempts || i == 1)
      invariant delay == cfg.initialMs * Pow2(i - 1)
      invariant delay <= 2 * UINT32_MAX
    {
      assert delay * 2 <= INT64_MAX;
      delay := delay * 2;
      i := i + 1;
    }
    if i < attempts {
      Pow2Grows(i - 1, attempts - 1);
      MulGrows(cfg.initialMs, Pow2(i - 1), Pow2(attempts - 1));
    }
    if delay > cfg.maxMs {
      delay := cfg.maxMs;
    }
  }

  // ---- Retry names ---------------------------------------------------------------

  const MARKER: string := "-retry-"

  function RetryName(root: string, n: nat): string { root + MARKER + Decimal(n) }

  predicate MarkerAt(id: string, at: int) {
    0 <= at && at + |MARKER| <= |id| && id[at..at + |MARKER|] == MARKER
  }

  /** The last place at or before `k` where the marker starts, or -1. */
  function RFind(id: string, k: int): int
    decreases k + 1
  {
    if k < 0 then -1 else if MarkerAt(id, k) then k else RFind(id, k - 1)
  }

  /** The retry suffix starts at `at`: the marker, then digits to the end, at least one. */
  predicate SuffixAt(id: string, at: int) {
    MarkerAt(id, at) && at + |MARKER| < |id| && AllDigits(id[at + |MARKER|..])
  }

  function Stripped(id: string): string {
    var at := RFind(id, |id|);
    if SuffixAt(id, at) then id[..at] else id
  }

  method StripRetrySuffix(id: string) returns (root: string)
    ensures root == Stripped(id)
  {
    var at := RFind(id, |id|);
    if at < 0 {
      return id;
    }
    RFindFinds(id, |id|);
    var first := at + |MARKER|;
    if first >= |id| {
      return id;
    }
    var i := first;
    while i < |id|
      invariant first <= i <= |id|
      invariant forall k :: first <= k < i ==> IsDigit(id[k])
    {
      if !IsDigit(id[i]) {
        assert id[first..][i - first] == id[i];
        return id;
      }
      i := i + 1;
    }
    return id[..at];
  }

  lemma {:induction false} RFindFinds(id: string, k: int)
    ensures RFind(id, k) <= k || RFind(id, k) == -1
    ensures RFind(id, k) != -1 ==> MarkerAt(id, RFind(id, k))
    ensures forall j :: RFind(id, k) < j <= k ==> !MarkerAt(id, j)
    decreases k + 1
  {
    if k >= 0 && !MarkerAt(id, k) {
      RFindFinds(id, k - 1);
    }
  }

  /** Wherever a retry suffix starts, no marker starts later: it is the one that is found. */
  lemma SuffixIsLast(id: string, at: int)
    requires SuffixAt(id, at)
    ensures RFind(id, |id|) == at
  {
    RFindFinds(id, |id|);
    var head, tail := id[at..at + |MARKER|], id[at + |MARKER|..];
    assert forall k :: 0 <= k < |MARKER| ==> id[at + k] == head[k];
    forall j | at < j && j + 1 < |id|
      ensures id[j] != '-' || id[j + 1] != 'r'
    {
      if j >= at + |MARKER| {
        assert id[j] == tail[j - at - |MARKER|];
      } else if j == at + |MARKER| - 1 {
        assert id[j + 1] == tail[0];
      } else {
        assert id[j] == head[j - at] == MARKER[j - at];
      }
    }
    forall j | at < j <= |id|
      ensures !MarkerAt(id, j)
    {
      if j + |MARKER| <= |id| {
        assert id[j..j + |MARKER|][0] == id[j] && id[j..j + |MARKER|][1] == id[j + 1];
      }
    }
  }

  /** Stripping gives back the root of every retry name. */
  lemma StripRetryName(root: string, n: nat)
    ensures Stripped(RetryName(root, n)) == root && RetryName(root, n) == root + "-retry-" + Decimal(n)
  {
    var id := RetryName(root, n);
    DecimalReads(n);
    assert id[|root|..|root| + |MARKER|] == MARKER;
    assert id[|root| + |MARKER|..] == Decimal(n);
    SuffixIsLast(id, |root|);
    assert id[..|root|] == root;
  }

  /** A name without a well-formed suffix keeps itself. */
  lemma StripLeavesOthers(id: string)
    requires forall at :: 0 <= at <= |id| ==> !SuffixAt(id, at)
    ensures Stripped(id) == id
  {
    RFindFinds(id, |id|);
  }

  /** Retrying a retry, a retry of that, and so on: the names along the chain. */
  function ChainEnd(id: string, numbers: seq<nat>): string
    decreases |numbers|
  {
    if numbers == [] then id else ChainEnd(RetryName(Stripped(id), numbers[0]), numbers[1..])
  }

  /** A retry chain of any length is flat: it keeps the root it started with. */
  lemma {:induction false} ChainIsFlat(id: string, numbers: seq<nat>)
    ensures Stripped(ChainEnd(id, numbers)) == Stripped(id)
    ensures numbers != [] ==> ChainEnd(id, numbers) == RetryName(Stripped(id), numbers[|numbers| - 1])
    decreases |numbers|
  {
    if numbers != [] {
      StripRetryName(Stripped(id), numbers[0]);
      ChainIsFlat(RetryName(Stripped(id), numbers[0]), numbers[1..]);
    }
  }

  lemma RetryNameInjective(root: string, a: nat, b: nat)
    requires RetryName(root, a) == RetryName(root, b)
    ensures a == b
  {
    assert RetryName(root, a)[|root| + |MARKER|..] == Decimal(a);
    assert RetryName(root, b)[|root| + |MARKER|..] == Decimal(b);
    DecimalInjective(a, b);
  }

  /** What is taken at the n-th probe: other commands may claim names between two probes,
      and no name is ever given back. */
  function TakenAt(taken: seq<set<string>>, n: nat): set<string>
    requires taken != []
  {
    if n < |taken| then taken[n] else taken[|taken| - 1]
  }

  predicate OnlyGrows(taken: seq<set<string>>) {
    forall i, j :: 0 <= i <= j < |taken| ==> taken[i] <= taken[j]
  }

  /** The search for a free id: since names differ and only finitely many are ever taken, it
      ends, at a name free when it was probed; every smaller number was taken, at its own
      probe and still is. With nobody else claiming, that is the least free number. */
  method FindFree(root: string, taken: seq<set<string>>) returns (candidate: string, n: nat)
    requires taken != [] && OnlyGrows(taken)
    ensures n >= 1 && candidate == RetryName(root, n) && candidate !in TakenAt(taken, n - 1)
    ensures forall k :: 1 <= k < n ==> RetryName(root, k) in TakenAt(taken, k - 1) && RetryName(root, k) in TakenAt(taken, n - 1)
  {
    hide RetryName, TakenAt;
    n := 1;
    candidate := RetryName(root, n);
    ghost var all := TakenAt(taken, |taken|);
    ghost var seen: set<string> := {};
    while candidate in TakenAt(taken, n - 1)
      invariant n >= 1 && candidate == RetryName(root, n)
      invariant seen <= all && |seen| == n - 1
      invariant forall k :: 1 <= k < n ==> RetryName(root, k) in TakenAt(taken, k - 1)
      invariant forall x :: x in seen ==> exists k: nat :: 1 <= k < n && x == RetryName(root, k)
      decreases |all - seen|
    {
      if candidate in seen {
        var k: nat :| 1 <= k < n && candidate == RetryName(root, k);
        RetryNameInjective(root, k, n);
        assert false;
      }
      TakenGrows(taken, n - 1, n - 1 + |taken|);
      assert candidate in all - seen && all - (seen + {candidate}) == (all - seen) - {candidate};
      seen := seen + {candidate};
      n := n + 1;
      candidate := RetryName(root, n);
    }
    forall k | 1 <= k < n
      ensures RetryName(root, k) in TakenAt(taken, n - 1)
    {
      TakenGrows(taken, k - 1, n - 1);
    }
  }

  lemma TakenGrows(taken: seq<set<string>>, i: nat, j: nat)
    requires taken != [] && OnlyGrows(taken) && i <= j
    ensures TakenAt(taken, i) <= TakenAt(taken, j)
    ensures j >= |taken| ==> TakenAt(taken, j) == TakenAt(taken, |taken|)
  {}
}
