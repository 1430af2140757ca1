/** The locks of internal/driver/driver.go, internal/driver/known.go, internal/transport/iscsi.go
    and internal/flasharray/client.go, and the order in which one operation may take them. */
module Locks {
  /** One per volume name (ctxlock), the lock around portal logins, Exclusive (ctxlock), saveMu,
      the driver's mu and the client's mu. */
  datatype Lock = VolumeLock(name: string) | PortalLock | ExclusiveLock | SaveLock | MemoryLock | SessionLock

  function Rank(l: Lock): nat {
    match l
    case VolumeLock(_) => 1
    case PortalLock => 2
    case ExclusiveLock => 3
    case SaveLock => 4
    case MemoryLock => 5
    case SessionLock => 6
  }

  /** What an operation does that no other may do at the same time. */
  datatype Work =
    | OnVolume(name: string) // its mount, its refs, its tag
    | Connecting | Scanning | Detaching | Checking // what this host's LUNs carry
    | LoggingIn | Saving | Remembering | Renewing // portals, the known-volume file, the driver's maps, the session

  /** The lock that guards it. */
  function Guard(w: Work): Lock {
    match w
    case OnVolume(name) => VolumeLock(name)
    case LoggingIn => PortalLock
    case Saving => SaveLock
    case Remembering => MemoryLock
    case Renewing => SessionLock
    case _ => ExclusiveLock
  }

  datatype Act = Take(l: Lock) | Drop(l: Lock) | Do(w: Work)

  function After(held: set<Lock>, act: Act): set<Lock> {
    match act
    case Take(l) => held + {l}
    case Drop(l) => held - {l}
    case Do(_) => held
  }

  function HeldAfter(trace: seq<Act>): set<Lock> {
    if trace == [] then {} else After(HeldAfter(trace[..|trace| - 1]), trace[|trace| - 1])
  }

  /** The work done so far. */
  function WorkDone(trace: seq<Act>): set<Work> {
    if trace == [] then {}
    else WorkDone(trace[..|trace| - 1]) + if trace[|trace| - 1].Do? then {trace[|trace| - 1].w} else {}
  }

  /** act fits with these locks held: nothing is taken out of order, twice, or beside another lock
      of its rank, only what is held is let go, and work is done under the lock that guards it. */
  predicate Fits(held: set<Lock>, act: Act) {
    match act
    case Take(l) => forall h | h in held :: Rank(h) < Rank(l)
    case Drop(l) => l in held
    case Do(w) => Guard(w) in held
  }

  ghost predicate Ordered(trace: seq<Act>) {
    forall i | 0 <= i < |trace| :: Fits(HeldAfter(trace[..i]), trace[i])
  }

  lemma OrderedOnceMore(trace: seq<Act>, act: Act)
    requires Ordered(trace) && Fits(HeldAfter(trace), act)
    ensures Ordered(trace + [act])
    ensures HeldAfter(trace + [act]) == After(HeldAfter(trace), act)
    ensures WorkDone(trace + [act]) == WorkDone(trace) + if act.Do? then {act.w} else {}
  {
    var longer := trace + [act];
    assert longer[..|trace|] == trace;
    forall i | 0 <= i < |longer| ensures Fits(HeldAfter(longer[..i]), longer[i]) {
      assert i < |trace| ==> longer[..i] == trace[..i];
    }
  }

  function Count(trace: seq<Act>, act: Act): nat {
    multiset(trace)[act]
  }

  lemma PrefixOrdered(trace: seq<Act>)
    requires Ordered(trace) && trace != []
    ensures Ordered(trace[..|trace| - 1]) && Fits(HeldAfter(trace[..|trace| - 1]), trace[|trace| - 1])
  {
    var before := trace[..|trace| - 1];
    forall i | 0 <= i < |before| ensures Fits(HeldAfter(before[..i]), before[i]) {
      assert before[..i] == trace[..i] && before[i] == trace[i];
    }
  }

  lemma CountOneMore(trace: seq<Act>, act: Act)
    requires trace != []
    ensures var n := |trace| - 1; Count(trace, act) == Count(trace[..n], act) + if trace[n] == act then 1 else 0
  {
    var n := |trace| - 1;
    assert trace == trace[..n] + [trace[n]];
  }

  /** Ordered traces take a lock once more than they let it go exactly while they hold it: one that
      ends holding nothing has released every lock it took, once for each time it took it. */
  lemma {:induction false} TakenIsReleased(trace: seq<Act>, l: Lock)
    requires Ordered(trace)
    ensures Count(trace, Take(l)) == Count(trace, Drop(l)) + (if l in HeldAfter(trace) then 1 else 0)
  {
    if trace != [] {
      PrefixOrdered(trace);
      CountOneMore(trace, Take(l));
      CountOneMore(trace, Drop(l));
      TakenIsReleased(trace[..|trace| - 1], l);
    }
  }

  lemma NeverTwoVolumes(trace: seq<Act>, n: nat, a: string, b: string)
    requires Ordered(trace) && n <= |trace|
    requires VolumeLock(a) in HeldAfter(trace[..n]) && VolumeLock(b) in HeldAfter(trace[..n])
    ensures a == b
  {
    if n > 0 {
      var held := HeldAfter(trace[..n - 1]);
      assert trace[..n][..n - 1] == trace[..n - 1];
      assert Fits(held, trace[n - 1]);
      if VolumeLock(a) in held && VolumeLock(b) in held {
        NeverTwoVolumes(trace, n - 1, a, b);
      }
    }
  }

  // Any number of operations at once ---------------------------------------------------------

  /** Every goroutine runs through acts of its own; at says how far each has come. */
  ghost predicate Wellformed(acts: seq<seq<Act>>, at: seq<nat>) {
    && |at| == |acts|
    && (forall i | 0 <= i < |acts| :: at[i] <= |acts[i]| && Ordered(acts[i]) && HeldAfter(acts[i]) == {})
  }

  function Held(acts: seq<seq<Act>>, at: seq<nat>, i: nat): set<Lock>
    requires i < |acts| == |at| && at[i] <= |acts[i]|
  {
    HeldAfter(acts[i][..at[i]])
  }

  /** A goroutine can go on unless it is done or what it takes next is held by another. */
  ghost predicate CanStep(acts: seq<seq<Act>>, at: seq<nat>, i: nat)
    requires Wellformed(acts, at)
  {
    && i < |acts| && at[i] < |acts[i]|
    && (acts[i][at[i]].Take? ==> forall j | 0 <= j < |acts| :: acts[i][at[i]].l !in Held(acts, at, j))
  }

  ghost predicate Exclusion(acts: seq<seq<Act>>, at: seq<nat>)
    requires Wellformed(acts, at)
  {
    forall i, j | 0 <= i < j < |acts| :: Held(acts, at, i) !! Held(acts, at, j)
  }

  ghost predicate Run(acts: seq<seq<Act>>, states: seq<seq<nat>>, movers: seq<nat>) {
    && |states| == |movers| + 1
    && (forall n | 0 <= n < |states| :: Wellformed(acts, states[n]))
    && (forall i | 0 <= i < |acts| :: states[0][i] == 0)
    && (forall n | 0 <= n < |movers| ::
          && CanStep(acts, states[n], movers[n])
          && states[n + 1] == states[n][movers[n] := states[n][movers[n]] + 1])
  }

  lemma HeldNext(acts: seq<seq<Act>>, at: seq<nat>, i: nat, j: nat)
    requires Wellformed(acts, at) && i < |acts| && j < |acts| && at[i] < |acts[i]|
    requires Wellformed(acts, at[i := at[i] + 1])
    ensures var next := at[i := at[i] + 1];
            Held(acts, next, j) == if j == i then After(Held(acts, at, i), acts[i][at[i]]) else Held(acts, at, j)
  {
    assert acts[i][..at[i] + 1][..at[i]] == acts[i][..at[i]];
  }

  lemma StepKeepsExclusion(acts: seq<seq<Act>>, at: seq<nat>, i: nat)
    requires Wellformed(acts, at) && Exclusion(acts, at) && CanStep(acts, at, i)
    requires Wellformed(acts, at[i := at[i] + 1])
    ensures Exclusion(acts, at[i := at[i] + 1])
  {
    var next := at[i := at[i] + 1];
    forall j, k | 0 <= j < k < |acts| ensures Held(acts, next, j) !! Held(acts, next, k) {
      assert Held(acts, at, j) !! Held(acts, at, k);
      HeldNext(acts, at, i, j);
      HeldNext(acts, at, i, k);
    }
  }

  /** No two goroutines ever hold the same lock. */
  lemma {:induction false} RunsKeepExclusion(acts: seq<seq<Act>>, states: seq<seq<nat>>, movers: seq<nat>, n: nat)
    requires Run(acts, states, movers) && n < |states|
    ensures Exclusion(acts, states[n])
  {
    if n == 0 {
      assert forall i | 0 <= i < |acts| :: acts[i][..states[0][i]] == [];
    } else {
      RunsKeepExclusion(acts, states, movers, n - 1);
      StepKeepsExclusion(acts, states[n - 1], movers[n - 1]);
    }
  }

  /** So what one does, no other is about to do, nor anything else under the same lock. */
  lemma DoneByOneAlone(acts: seq<seq<Act>>, states: seq<seq<nat>>, movers: seq<nat>, n: nat, i: nat, j: nat)
    requires Run(acts, states, movers) && n < |states| && i < |acts| && j < |acts| && i != j
    requires states[n][i] < |acts[i]| && acts[i][states[n][i]].Do?
    ensures Guard(acts[i][states[n][i]].w) !in Held(acts, states[n], j)
    ensures states[n][j] < |acts[j]| && acts[j][states[n][j]].Do? ==>
              Guard(acts[j][states[n][j]].w) != Guard(acts[i][states[n][i]].w)
  {
    RunsKeepExclusion(acts, states, movers, n);
    var at := states[n];
    assert Fits(HeldAfter(acts[i][..at[i]]), acts[i][at[i]]);
    assert Held(acts, at, i) !! Held(acts, at, j);
    assert at[j] < |acts[j]| ==> Fits(HeldAfter(acts[j][..at[j]]), acts[j][at[j]]);
  }

  lemma DoneHoldsNothing(acts: seq<seq<Act>>, at: seq<nat>, i: nat)
    requires Wellformed(acts, at) && i < |acts|
    ensures at[i] == |acts[i]| ==> Held(acts, at, i) == {}
  {
    assert acts[i][..|acts[i]|] == acts[i];
  }

  /** From a goroutine that is not done, one that can go on: itself, or whoever is at the end of the
      chain of those that hold what the next one waits for. Ranks grow along it. */
  lemma {:induction false} SomeoneCanStep(acts: seq<seq<Act>>, at: seq<nat>, i: nat) returns (mover: nat)
    requires Wellformed(acts, at) && i < |acts| && at[i] < |acts[i]|
    ensures CanStep(acts, at, mover)
    decreases if acts[i][at[i]].Take? then 6 - Rank(acts[i][at[i]].l) else 0
  {
    if CanStep(acts, at, i) {
      return i;
    }
    var l := acts[i][at[i]].l;
    var j :| 0 <= j < |acts| && l in Held(acts, at, j);
    DoneHoldsNothing(acts, at, j);
    assert Fits(Held(acts, at, j), acts[j][at[j]]);
    if CanStep(acts, at, j) {
      return j;
    }
    mover := SomeoneCanStep(acts, at, j);
  }

  /** No reachable state is deadlocked: a run of any number of operations that cannot go on has
      finished them all, and all locks are free. */
  lemma NoDeadlock(acts: seq<seq<Act>>, states: seq<seq<nat>>, movers: seq<nat>)
    requires Run(acts, states, movers)
    requires forall i | 0 <= i < |acts| :: !CanStep(acts, states[|movers|], i)
    ensures forall i | 0 <= i < |acts| ::
              states[|movers|][i] == |acts[i]| && Held(acts, states[|movers|], i) == {}
  {
    var at := states[|movers|];
    forall i | 0 <= i < |acts| ensures at[i] == |acts[i]| && Held(acts, at, i) == {} {
      if at[i] < |acts[i]| {
        var mover := SomeoneCanStep(acts, at, i);
      }
      DoneHoldsNothing(acts, at, i);
    }
  }

  function Sum(at: seq<nat>): nat {
    if at == [] then 0 else Sum(at[..|at| - 1]) + at[|at| - 1]
  }

  lemma {:induction false} SumOneMore(at: seq<nat>, i: nat)
    requires i < |at|
    ensures Sum(at[i := at[i] + 1]) == Sum(at) + 1
  {
    var next := at[i := at[i] + 1];
    if i == |at| - 1 {
      assert next[..|at| - 1] == at[..|at| - 1];
    } else {
      assert next[..|at| - 1] == at[..|at| - 1][i := at[i] + 1];
      SumOneMore(at[..|at| - 1], i);
    }
  }

  lemma {:induction false} SumAtMost(at: seq<nat>, most: seq<nat>)
    requires |at| == |most| && forall i | 0 <= i < |at| :: at[i] <= most[i]
    ensures Sum(at) <= Sum(most)
    ensures (forall i | 0 <= i < |at| :: at[i] == 0) ==> Sum(at) == 0
  {
    if at != [] {
      SumAtMost(at[..|at| - 1], most[..|at| - 1]);
    }
  }

  function Lengths(acts: seq<seq<Act>>): seq<nat> {
    seq(|acts|, i requires 0 <= i < |acts| => |acts[i]|)
  }

  lemma {:induction false} StepsAreCounted(acts: seq<seq<Act>>, states: seq<seq<nat>>, movers: seq<nat>, n: nat)
    requires Run(acts, states, movers) && n < |states|
    ensures n == Sum(states[n])
  {
    if n == 0 {
      SumAtMost(states[0], states[0]);
    } else {
      StepsAreCounted(acts, states, movers, n - 1);
      assert CanStep(acts, states[n - 1], movers[n - 1]);
      SumOneMore(states[n - 1], movers[n - 1]);
    }
  }

  /** Every run is finite: it has one step for each act done. */
  lemma RunsEnd(acts: seq<seq<Act>>, states: seq<seq<nat>>, movers: seq<nat>, n: nat)
    requires Run(acts, states, movers) && n < |states|
    ensures n == Sum(states[n]) <= Sum(Lengths(acts))
  {
    StepsAreCounted(acts, states, movers, n);
    assert Wellformed(acts, states[n]);
    SumAtMost(states[n], Lengths(acts));
  }

  // The lock itself --------------------------------------------------------------------------

  /** ctxlock.Mutex: a channel with room for one; full while someone holds the lock. */
  class Mutex {
    var full: bool

    constructor ()
      ensures !full
    {
      full := false;
    }

    /** Waits until there is room or the context has ended, so one of the two holds when it goes on.
        With both, either may be chosen; a lock given up on is not taken. */
    method Lock(ended: bool) returns (ok: bool)
      requires !full || ended
      modifies this
      ensures ok ==> !old(full) && full
      ensures !ok ==> ended && full == old(full)
    {
      ok := *;
      ok := !full && (ok || !ended);
      full := full || ok;
    }

    method Unlock()
      requires full
      modifies this
      ensures !full
    {
      full := false;
    }
  }
}
