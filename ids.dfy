/**
 * The two static id counters of the map component: the rolling view-id
 * generator and the marker-id generator. Both are process-wide; here they
 * live in one IdGenerator object that every map component shares.
 */
module Ids {

  /** Largest view id handed out: ids generated at build time have a non-zero high byte. */
  const MaxViewId: int := 0x00FF_FFFF

  /** Counter value left behind by a call to generateViewId that returned `id`. */
  function NextViewId(id: int): (next: int)
    requires 1 <= id <= MaxViewId
    ensures 1 <= next <= MaxViewId
    ensures next == 1 <==> id == MaxViewId
    ensures next != 1 ==> next == id + 1
  {
    if id + 1 > MaxViewId then 1 else id + 1
  }

  /** The ids returned by `n` successive calls to generateViewId, the counter starting at `start`. */
  function ViewIds(start: int, n: nat): (ids: seq<int>)
    requires 1 <= start <= MaxViewId
    ensures |ids| == n
    decreases n
  {
    if n == 0 then [] else [start] + ViewIds(NextViewId(start), n - 1)
  }

  /** Adding one full period does not change a remainder. */
  lemma ModShift(x: nat)
    ensures (x + MaxViewId) % MaxViewId == x % MaxViewId
  {
  }

  /** Stepping the counter once moves the position in the cycle by one. */
  lemma NextViewIdCycle(id: int, k: nat)
    requires 1 <= id <= MaxViewId
    ensures (NextViewId(id) - 1 + k) % MaxViewId == (id + k) % MaxViewId
  {
    if id == MaxViewId {
      ModShift(k);
    }
  }

  /** Past the first, the ids of a run are those of the run that starts one step later. */
  lemma ViewIdsTail(start: int, n: nat, i: nat)
    requires 1 <= start <= MaxViewId
    requires 0 < i < n
    ensures ViewIds(start, n)[i] == ViewIds(NextViewId(start), n - 1)[i - 1]
  {
  }

  /** The i-th generated view id, in closed form: the counter cycles through 1..MaxViewId. */
  lemma {:induction false} ViewIdsClosedForm(start: int, n: nat, i: nat)
    requires 1 <= start <= MaxViewId
    requires i < n
    ensures ViewIds(start, n)[i] == (start - 1 + i) % MaxViewId + 1
    decreases i
  {
    if i > 0 {
      ViewIdsTail(start, n, i);
      ViewIdsClosedForm(NextViewId(start), n - 1, i - 1);
      NextViewIdCycle(start, i - 1);
    }
  }

  /** Every generated view id lies in [1, MaxViewId]; 0 is never handed out. */
  lemma ViewIdsInRange(start: int, n: nat, i: nat)
    requires 1 <= start <= MaxViewId
    requires i < n
    ensures 1 <= ViewIds(start, n)[i] <= MaxViewId
  {
    ViewIdsClosedForm(start, n, i);
  }

  /** No two of fewer than MaxViewId + 1 successive calls return the same view id. */
  lemma ViewIdsDistinct(start: int, n: nat, i: nat, j: nat)
    requires 1 <= start <= MaxViewId
    requires i < j < n
    requires j - i < MaxViewId
    ensures ViewIds(start, n)[i] != ViewIds(start, n)[j]
  {
    ViewIdsClosedForm(start, n, i);
    ViewIdsClosedForm(start, n, j);
    var a, b := start - 1 + i, start - 1 + j;
    assert a == (a / MaxViewId) * MaxViewId + a % MaxViewId;
    assert b == (b / MaxViewId) * MaxViewId + b % MaxViewId;
  }

  /** The ids returned by `n` successive calls to generateMarkerId, the counter starting at `start`. */
  function MarkerIds(start: int, n: nat): (ids: seq<int>)
    ensures |ids| == n
    decreases n
  {
    if n == 0 then [] else [start + 1] + MarkerIds(start + 1, n - 1)
  }

  /** The i-th generated marker id: the counter is pre-incremented. */
  lemma {:induction false} MarkerIdsClosedForm(start: int, n: nat, i: nat)
    requires i < n
    ensures MarkerIds(start, n)[i] == start + 1 + i
    decreases i
  {
    if i > 0 {
      MarkerIdsClosedForm(start + 1, n - 1, i - 1);
    }
  }

  /** One more call appends the next id. */
  lemma {:induction false} MarkerIdsAppend(start: int, n: nat)
    ensures MarkerIds(start, n + 1) == MarkerIds(start, n) + [start + n + 1]
    decreases n
  {
    if n > 0 {
      MarkerIdsAppend(start + 1, n - 1);
    }
  }

  /** Marker ids are strictly increasing and all exceed the counter they started from. */
  lemma MarkerIdsIncreasing(start: int, n: nat, i: nat, j: nat)
    requires i < j < n
    ensures start < MarkerIds(start, n)[i] < MarkerIds(start, n)[j]
  {
    MarkerIdsClosedForm(start, n, i);
    MarkerIdsClosedForm(start, n, j);
  }

  /** The static counters, updated one call at a time. */
  class IdGenerator {
    /** The value the next call to generateViewId returns. */
    var nextViewId: int
    /** The last marker id handed out (generateMarkerId increments first). */
    var lastMarkerId: int

    ghost predicate Valid()
      reads this
    {
      1 <= nextViewId <= MaxViewId
    }

    constructor ()
      ensures Valid()
      ensures nextViewId == 1 && lastMarkerId == 1
    {
      nextViewId := 1;
      lastMarkerId := 1;
    }

    /** Returns the current counter value and advances it, rolling over to 1, never 0. */
    method GenerateViewId() returns (id: int)
      requires Valid()
      modifies this`nextViewId
      ensures Valid()
      ensures id == old(nextViewId) && 1 <= id <= MaxViewId
      ensures nextViewId == NextViewId(id)
      ensures [id] + ViewIds(nextViewId, 1) == ViewIds(old(nextViewId), 2)
    {
      id := nextViewId;
      var newValue := id + 1;
      if newValue > MaxViewId {
        newValue := 1;
      }
      nextViewId := newValue;
    }

    /** Increments the counter and returns its new value. */
    method GenerateMarkerId() returns (id: int)
      modifies this`lastMarkerId
      ensures id == old(lastMarkerId) + 1 && lastMarkerId == id
      ensures [id] == MarkerIds(old(lastMarkerId), 1)
    {
      lastMarkerId := lastMarkerId + 1;
      id := lastMarkerId;
    }
  }
}
