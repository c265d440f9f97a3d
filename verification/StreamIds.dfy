/** Stream ids: StreamManager.allocateStreamId, the wrapping probe over 1 .. 2^32 - 1. */
module StreamIds {
  import opened Frames

  const MAX_ID: nat := 0xffffffff

  predicate IsId(n: int) {
    1 <= n <= MAX_ID
  }

  type Id = n: nat | IsId(n) witness 1

  /** The update of _nextStreamId. */
  function Next(id: nat): Id {
    if id >= MAX_ID then 1 else id + 1
  }

  /** The id the k-th probe looks at, starting from `start`. */
  function Nth(start: nat, k: nat): (id: nat)
    requires IsId(start)
    ensures IsId(id)
    ensures id == (start - 1 + k) % MAX_ID + 1
  {
    if k == 0 then start
    else
      var p := Nth(start, k - 1);
      WrapStep(start - 1 + (k - 1));
      Next(p)
  }

  lemma WrapStep(n: nat)
    ensures Next(n % MAX_ID + 1) == (n + 1) % MAX_ID + 1
  {
  }

  /** Within one lap the probe never looks at an id twice. */
  lemma NthDistinct(start: nat, i: nat, j: nat)
    requires IsId(start) && i < j < MAX_ID
    ensures Nth(start, i) != Nth(start, j)
  {
    ModDistinct(start - 1 + i, start - 1 + j);
  }

  lemma ModDistinct(a: nat, b: nat)
    requires a < b < a + MAX_ID
    ensures a % MAX_ID != b % MAX_ID
  {
  }

  /** One lap visits every id. */
  lemma NthOnto(start: nat, id: nat) returns (k: nat)
    requires IsId(start) && IsId(id)
    ensures k < MAX_ID && Nth(start, k) == id
  {
    k := if id >= start then id - start else MAX_ID - start + id;
    if id >= start {
      assert (start - 1 + k) % MAX_ID == id - 1;
    } else {
      assert start - 1 + k == MAX_ID + (id - 1);
    }
  }

  /** The ids the first k probes look at. */
  ghost function Probed(start: nat, k: nat): set<nat>
    requires IsId(start)
  {
    set i: nat | i < k :: Nth(start, i)
  }

  lemma {:induction false} ProbedSize(start: nat, k: nat)
    requires IsId(start) && k <= MAX_ID
    ensures |Probed(start, k)| == k
  {
    if k > 0 {
      ProbedSize(start, k - 1);
      var last := Nth(start, k - 1);
      assert Probed(start, k) == Probed(start, k - 1) + {last};
      forall i: nat | i < k - 1 ensures Nth(start, i) != last {
        NthDistinct(start, i, k - 1);
      }
      assert last !in Probed(start, k - 1);
    }
  }

  lemma SubsetSize(a: set<nat>, b: set<nat>)
    requires a <= b
    ensures |a| <= |b|
  {
    assert b == a + (b - a);
  }

  /** The first unused id is reached after at most |used| failing probes. */
  lemma FirstFreeBound(used: set<nat>, start: nat, k: nat)
    requires IsId(start) && k <= MAX_ID
    requires forall i: nat :: i < k ==> Nth(start, i) in used
    ensures k <= |used|
  {
    ProbedSize(start, k);
    assert Probed(start, k) <= used;
    SubsetSize(Probed(start, k), used);
  }

  /** The search as a function: the number of the first probe, from the k-th on, that finds an unused id. */
  function FirstProbe(used: set<nat>, start: nat, k: nat): (r: Option<nat>)
    requires IsId(start) && k <= MAX_ID
    ensures r.Some? ==> k <= r.value < MAX_ID && Nth(start, r.value) !in used
    ensures r.Some? ==> forall i: nat :: k <= i < r.value ==> Nth(start, i) in used
    ensures r.None? ==> forall i: nat :: k <= i < MAX_ID ==> Nth(start, i) in used
    decreases MAX_ID - k
  {
    if k == MAX_ID then None
    else if Nth(start, k) !in used then Some(k)
    else FirstProbe(used, start, k + 1)
  }

  /** One turn of the probing loop. */
  lemma ProbeStep(used: set<nat>, start: nat, i: nat)
    requires IsId(start) && i < MAX_ID
    ensures FirstProbe(used, start, i) == if Nth(start, i) !in used then Some(i) else FirstProbe(used, start, i + 1)
    ensures Nth(start, i + 1) == Next(Nth(start, i))
  {
  }

  /** The id allocateStreamId returns when the registered ids are `used`; None when it throws. */
  function Allocate(used: set<nat>, start: Id): (r: Option<nat>)
    ensures r.Some? ==> IsId(r.value) && r.value !in used
  {
    var p := FirstProbe(used, start, 0);
    if p.None? then None else Some(Nth(start, p.value))
  }

  /** The first unused id from `start` on, the probe wrapping from the last id to the first. */
  ghost predicate FirstFree(used: set<nat>, start: Id, id: nat) {
    exists k: nat :: k < MAX_ID && Nth(start, k) == id && id !in used && forall i: nat :: i < k ==> Nth(start, i) in used
  }

  /** What allocateStreamId returns is the first unused id from _nextStreamId on. */
  lemma AllocateIsFirst(used: set<nat>, start: Id)
    ensures Allocate(used, start).Some? ==> FirstFree(used, start, Allocate(used, start).value)
  {
    var p := FirstProbe(used, start, 0);
    if p.Some? { assert Nth(start, p.value) == Allocate(used, start).value; }
  }

  /** Allocation fails exactly when every id is taken. */
  lemma AllocateFailsIffFull(used: set<nat>, start: Id)
    ensures Allocate(used, start).None? <==> forall id: nat :: IsId(id) ==> id in used
  {
    if Allocate(used, start).None? {
      forall id: nat | IsId(id) ensures id in used {
        var k := NthOnto(start, id);
      }
    }
  }

  /** With fewer than 2^32 - 1 streams an id is always found, within one probe more than there are streams. */
  lemma AllocateSucceeds(used: set<nat>, start: Id)
    requires |used| < MAX_ID
    ensures Allocate(used, start).Some?
    ensures FirstProbe(used, start, 0).Some? && FirstProbe(used, start, 0).value <= |used|
  {
    var p := FirstProbe(used, start, 0);
    FirstFreeBound(used, start, if p.Some? then p.value else MAX_ID);
  }
}
