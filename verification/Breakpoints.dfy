/** Where a request's cache markers go. */
module Breakpoints {
  const INTERVAL := 15
  const LOOKBACK := 20
  const MAX_BREAKPOINTS := 4

  /** Every fifteenth block. */
  function Spaced(blockCount: nat): (r: seq<nat>)
    ensures |r| == blockCount / INTERVAL
    ensures forall i :: 0 <= i < |r| ==> r[i] == INTERVAL * (i + 1) - 1
  {
    seq(blockCount / INTERVAL, i requires 0 <= i => INTERVAL * (i + 1) - 1)
  }

  /** Every fifteenth block and the tail. */
  function Candidates(blockCount: nat): seq<nat> {
    if blockCount == 0 then []
    else if blockCount % INTERVAL == 0 then Spaced(blockCount)
    else Spaced(blockCount) + [blockCount - 1]
  }

  /** The latest four. */
  function Place(blockCount: nat): seq<nat> {
    var all := Candidates(blockCount);
    if |all| <= MAX_BREAKPOINTS then all else all[|all| - MAX_BREAKPOINTS..]
  }

  method PlaceBreakpoints(blockCount: nat) returns (r: seq<nat>)
    ensures r == Place(blockCount)
  {
    if blockCount == 0 { return []; }
    var candidates: seq<nat> := [];
    var at := INTERVAL - 1;
    while at < blockCount
      invariant at == INTERVAL * (|candidates| + 1) - 1 && at < blockCount + INTERVAL
      invariant forall i :: 0 <= i < |candidates| ==> candidates[i] == INTERVAL * (i + 1) - 1
    {
      candidates := candidates + [at];
      at := at + INTERVAL;
    }
    assert candidates == Spaced(blockCount);
    var tail := blockCount - 1;
    if candidates == [] || candidates[|candidates| - 1] != tail {
      candidates := candidates + [tail];
    }
    r := if |candidates| <= MAX_BREAKPOINTS then candidates
         else candidates[|candidates| - MAX_BREAKPOINTS..];
  }

  lemma {:induction false} CandidateAt(n: nat, i: nat)
    requires i < |Candidates(n)|
    ensures Candidates(n)[i] == if i < n / INTERVAL then INTERVAL * (i + 1) - 1 else n - 1
    ensures |Candidates(n)| == n / INTERVAL + (if n % INTERVAL == 0 then 0 else 1)
  {
  }

  /** At most four, strictly increasing, no gap over fifteen, the last on the tail. */
  lemma {:induction false} Spacing(n: nat)
    requires n > 0
    ensures var b := Place(n);
      && 1 <= |b| <= MAX_BREAKPOINTS
      && b[|b| - 1] == n - 1
      && (forall i :: 0 <= i < |b| - 1 ==> b[i] < b[i + 1] <= b[i] + INTERVAL)
      && (|b| < MAX_BREAKPOINTS ==> b[0] < INTERVAL)
  {
  }

  /** Some marker of this request walks back to the block at `target`. */
  ghost predicate Reaches(b: seq<nat>, target: nat) {
    exists i :: 0 <= i < |b| && target <= b[i] <= target + LOOKBACK
  }

  /** A marker reaches the target unless even the earliest one is out of range. */
  lemma {:induction false} ReachesUnlessAllTooLate(n: nat, target: nat)
    requires target < n
    ensures Reaches(Place(n), target) <==> Place(n) != [] && Place(n)[0] <= target + LOOKBACK
  {
    Spacing(n);
    var b := Place(n);
    if b[0] <= target + LOOKBACK {
      var i := 0;
      while b[i] < target
        invariant 0 <= i < |b| && b[i] <= target + LOOKBACK
        decreases |b| - i
      {
        i := i + 1;
      }
    } else {
      NeverBelowFirst(b);
    }
  }

  lemma {:induction false} NeverBelowFirst(b: seq<nat>)
    requires b != [] && forall i :: 0 <= i < |b| - 1 ==> b[i] < b[i + 1]
    ensures forall i :: 0 <= i < |b| ==> b[0] <= b[i]
  {
    if |b| > 1 {
      NeverBelowFirst(b[..|b| - 1]);
      assert b[|b| - 2] < b[|b| - 1];
    }
  }

  /** A request may outgrow the last by up to 51 blocks and still find the last one's tail. */
  lemma {:induction false} TailStaysInReach(before: nat, now: nat)
    requires 1 <= before <= now <= before + 51
    ensures Reaches(Place(now), before - 1)
  {
    ReachesUnlessAllTooLate(now, before - 1);
    Spacing(now);
    var all, b := Candidates(now), Place(now);
    if |b| == MAX_BREAKPOINTS {
      CandidateAt(now, |all| - MAX_BREAKPOINTS);
      assert b[0] == all[|all| - MAX_BREAKPOINTS];
    }
  }

  /** 52 is the first growth that can miss: 9 blocks, then 61. */
  lemma {:induction false} FiftyTwoCanMiss()
    ensures Place(61) == [29, 44, 59, 60]
    ensures !Reaches(Place(61), 9 - 1)
  {
  }
}
