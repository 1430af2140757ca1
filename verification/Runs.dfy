/** Whole runs: the driver's sections, in any order, among everything else that happens to the
    node and the array. A rescan, and anything but another node's disconnect, waits for the
    Exclusive lock, so between two states of a run there is one section or one outside event. */
module Runs {
  import opened Types
  import opened World
  import opened Attach
  import Iscsi

  /** left: the stale paths a sweep could not delete. flushed: what the section logged. Of its detach,
      if it did one, read: the array told it the LUNs; cut: the stale paths deleted first; filed: the
      volume's map showed no other identity. */
  datatype Step =
    | Rescan
    | OtherNodes
    | KernelDrops(gone: set<Sd>)
    | UdevReads
    | MultipathdActs
    | HoldersChange
    | Attach(serial: Serial, attach: AttachResult, left: set<Sd>, filed: bool, read: bool, flushed: seq<Event>)
    | Release(serial: Serial, release: ReleaseResult, read: bool, cut: set<Sd>, flushed: seq<Event>)
    | Leftover(serial: Serial, settled: bool, read: bool, cut: set<Sd>, flushed: seq<Event>)
    | PathCheck(swept: bool, settled: bool, left: set<Sd>)

  /** A scan adds disks under names not in use. Those of this array are on LUNs the array maps, and
      are cached under the identity they have then. */
  ghost predicate Rescanned(prefix: string, a: State, b: State) {
    && b == a.(paths := b.paths, udev := b.udev, nextInst := b.nextInst)
    && Submap(a.paths, b.paths) && a.nextInst <= b.nextInst
    && forall sd | sd in b.paths && sd !in a.paths ::
         && a.nextInst <= b.paths[sd].inst < b.nextInst
         && (OfArray(prefix, b.paths[sd].id) ==> Reach(a, b.paths[sd]) == Some(b.paths[sd].id.serial))
  }

  /** What a section with a detach flushed, from a to b; done: the detach succeeded. */
  ghost predicate Flushed(a: State, b: State, serial: Serial, done: bool, read: bool, cut: set<Sd>, flushed: seq<Event>) {
    FlushSpec(a, serial, read, cut, flushed, 0) && (read && done && b.unread == {} ==> Thorough(a, serial, cut))
  }

  ghost predicate Next(prefix: string, a: State, step: Step, b: State) {
    match step
    case Rescan => Rescanned(prefix, a, b)
    case OtherNodes => Disturbed(a, b)
    case KernelDrops(gone) =>
      && b == a.(paths := a.paths - gone, maps := b.maps, orphans := a.orphans + gone)
      && b.maps.Keys <= a.maps.Keys && forall m | m in b.maps :: b.maps[m] == a.maps[m] - gone
    case UdevReads => b == a.(udev := b.udev)
    case MultipathdActs => MultipathdRan(a, b)
    case HoldersChange => b == a.(held := b.held)
    case Attach(serial, r, left, filed, read, flushed) =>
      && serial != "" && ArrayOf(prefix, serial) && AttachSpec(prefix, a, b, serial, r, left)
      && RollbackFlushes(a, serial, filed, read && r.RolledBack? && b.unread == {}, flushed, 0)
    case Release(serial, r, read, cut, flushed) =>
      ReleaseSpec(a, b, serial, r) && Flushed(a, b, serial, r.Released? || r.DisconnectFailed?, read, cut, flushed)
    case Leftover(serial, settled, read, cut, flushed) =>
      TidySpec(a, b, settled) && Flushed(a, b, serial, settled, read, cut, flushed)
    case PathCheck(swept, settled, left) => PathCheckSpec(prefix, a, b, swept, settled, left)
  }

  ghost predicate Run(prefix: string, states: seq<State>, steps: seq<Step>) {
    && |states| == |steps| + 1
    && forall i | 0 <= i < |steps| :: Next(prefix, states[i], steps[i], states[i + 1])
  }

  lemma AttachKeepsSound(prefix: string, a: State, b: State, step: Step)
    requires Sound(prefix, a) && Next(prefix, a, step, b) && step.Attach?
    ensures Sound(prefix, b)
  {
    var r, left := step.attach, step.left;
    var given := if r.Attached? || r.RollbackFailed? then {r.lun} else {};
    assert Submap(b.luns - given, a.luns) by {
      assert given == {} ==> b.luns - given == b.luns;
    }
    forall l | l in b.luns
      ensures b.luns[l] != "" && ArrayOf(prefix, b.luns[l])
    {
      assert l !in given ==> l in b.luns - given;
    }
    forall sd | Crossed(prefix, b, sd)
      ensures b.paths[sd].inst in b.missed || b.paths[sd].lun in b.dirty
    {
      if b.paths[sd].lun !in given {
        assert b.paths[sd].lun in b.luns - given;
        assert Crossed(prefix, a, sd);
      }
    }
  }

  lemma NextKeepsSound(prefix: string, a: State, step: Step, b: State)
    requires Sound(prefix, a) && Next(prefix, a, step, b)
    ensures Sound(prefix, b)
  {
    if step.Attach? {
      AttachKeepsSound(prefix, a, b, step);
    } else {
      forall sd | Crossed(prefix, b, sd)
        ensures b.paths[sd].inst in b.missed || b.paths[sd].lun in b.dirty
      {
        assert sd in a.paths && a.paths[sd] == b.paths[sd] ==> Crossed(prefix, a, sd);
      }
    }
  }

  /** Across any run, whenever the Exclusive lock is free, no path is crossed but as Sound allows. */
  lemma {:induction false} RunsStaySound(prefix: string, states: seq<State>, steps: seq<Step>, i: nat)
    requires Run(prefix, states, steps) && Sound(prefix, states[0]) && i < |states|
    ensures Sound(prefix, states[i])
    ensures forall v, sd | ArrayOf(prefix, v) && Misleads(states[i], v, sd) ::
              states[i].paths[sd].inst in states[i].missed || states[i].paths[sd].lun in states[i].dirty
  {
    forall v, sd | ArrayOf(prefix, v) && Misleads(states[i], v, sd) ensures Crossed(prefix, states[i], sd) {
      MisleadingIsCrossed(prefix, states[i], v, sd);
    }
    if i > 0 {
      RunsStaySound(prefix, states, steps, i - 1);
      NextKeepsSound(prefix, states[i - 1], steps[i - 1], states[i]);
    }
  }

  // What Sound allows ------------------------------------------------------------------------

  /** The sections that sweep all of this host's paths against the array's list to the end. */
  predicate Sweeps(step: Step) {
    (step.Attach? && step.attach.Attached?) || (step.PathCheck? && step.swept)
  }

  ghost predicate LeftOn(step: Step, after: State, lun: int)
    requires Sweeps(step)
  {
    exists sd :: sd in step.left && sd in after.paths && after.paths[sd].lun == lun
  }

  ghost predicate LeftDisk(step: Step, after: State, inst: nat)
    requires Sweeps(step)
  {
    exists sd :: sd in step.left && sd in after.paths && after.paths[sd].inst == inst
  }

  /** No sweep between them has got through with no stale path left on lun. */
  ghost predicate NotCleared(states: seq<State>, steps: seq<Step>, j: nat, i: nat, lun: int)
    requires |states| == |steps| + 1 && i <= |steps|
  {
    forall k | j < k < i && Sweeps(steps[k]) :: LeftOn(steps[k], states[k + 1], lun)
  }

  lemma StillNotCleared(states: seq<State>, steps: seq<Step>, j: nat, i: nat, lun: int)
    requires |states| == |steps| + 1 && i < |steps| && NotCleared(states, steps, j, i, lun)
    requires Sweeps(steps[i]) ==> LeftOn(steps[i], states[i + 1], lun)
    ensures NotCleared(states, steps, j, i + 1, lun)
  {
  }

  predicate FailedOn(step: Step, lun: int) {
    step.Attach? && step.attach.RollbackFailed? && step.attach.lun == lun
  }

  /** An attach on lun failed and could not be undone, and no sweep since has got through with no
      stale path left there. */
  ghost predicate RollbackFailedOn(states: seq<State>, steps: seq<Step>, i: nat, lun: int)
    requires |states| == |steps| + 1 && i <= |steps|
  {
    exists j | 0 <= j < i ::
      FailedOn(steps[j], lun) && NotCleared(states, steps, j, i, lun)
  }

  /** Every sweep between them that got through could not read the disk, or could not delete it. */
  ghost predicate NotRead(states: seq<State>, steps: seq<Step>, j: nat, i: nat, inst: nat)
    requires |states| == |steps| + 1 && i <= |steps|
  {
    forall k | j < k < i && Sweeps(steps[k]) :: inst in states[k + 1].unread || LeftDisk(steps[k], states[k + 1], inst)
  }

  lemma StillNotRead(states: seq<State>, steps: seq<Step>, j: nat, i: nat, inst: nat)
    requires |states| == |steps| + 1 && i < |steps| && NotRead(states, steps, j, i, inst)
    requires Sweeps(steps[i]) ==> inst in states[i + 1].unread || LeftDisk(steps[i], states[i + 1], inst)
    ensures NotRead(states, steps, j, i + 1, inst)
  {
  }

  predicate Unreadable(step: Step, after: State, inst: nat) {
    Sweeps(step) && inst in after.unread
  }

  /** A sweep could not read the disk, and each that got through since could not either, or could
      not delete it. */
  ghost predicate MissedSince(states: seq<State>, steps: seq<Step>, i: nat, inst: nat)
    requires |states| == |steps| + 1 && i <= |steps|
  {
    exists j | 0 <= j < i :: Unreadable(steps[j], states[j + 1], inst) && NotRead(states, steps, j, i, inst)
  }

  /** Only a path a sweep leaves keeps its LUN dirty; only that, or a failed read, its disk missed. */
  lemma WhatSweepsLeave(a: State, b: State, left: set<Sd>)
    requires SweptDown(a, b, left)
    ensures forall lun | lun in b.dirty :: lun in a.dirty && exists sd :: sd in left && sd in b.paths && b.paths[sd].lun == lun
    ensures forall inst | inst in b.missed ::
              inst in b.unread || (inst in a.missed && exists sd :: sd in left && sd in b.paths && b.paths[sd].inst == inst)
  {
    var w := b.(missed := a.missed, dirty := a.dirty);
    assert b.dirty == AfterSweep(w, left).dirty && b.missed == AfterSweep(w, left).missed;
  }

  lemma WhyDirty(prefix: string, a: State, step: Step, b: State, lun: int)
    requires Next(prefix, a, step, b) && lun in b.dirty
    ensures FailedOn(step, lun) || (lun in a.dirty && (Sweeps(step) ==> LeftOn(step, b, lun)))
  {
    if Sweeps(step) {
      WhatSweepsLeave(a, b, step.left);
    }
  }

  lemma WhyMissed(prefix: string, a: State, step: Step, b: State, inst: nat)
    requires Next(prefix, a, step, b) && inst in b.missed
    ensures Unreadable(step, b, inst) || (inst in a.missed && (Sweeps(step) ==> LeftDisk(step, b, inst)))
  {
    if Sweeps(step) {
      WhatSweepsLeave(a, b, step.left);
    }
  }

  lemma {:induction false} DirtyLunsHadFailedRollbacks(prefix: string, states: seq<State>, steps: seq<Step>, i: nat, lun: int)
    requires Run(prefix, states, steps) && i < |states|
    requires lun in states[i].dirty && lun !in states[0].dirty
    ensures RollbackFailedOn(states, steps, i, lun)
  {
    if i > 0 {
      var step := steps[i - 1];
      assert Next(prefix, states[i - 1], step, states[i]);
      WhyDirty(prefix, states[i - 1], step, states[i], lun);
      if !FailedOn(step, lun) {
        DirtyLunsHadFailedRollbacks(prefix, states, steps, i - 1, lun);
        var j :| 0 <= j < i - 1 && FailedOn(steps[j], lun) && NotCleared(states, steps, j, i - 1, lun);
        StillNotCleared(states, steps, j, i - 1, lun);
      }
    }
  }

  lemma {:induction false} MissedDisksWereUnreadable(prefix: string, states: seq<State>, steps: seq<Step>, i: nat, inst: nat)
    requires Run(prefix, states, steps) && i < |states|
    requires inst in states[i].missed && inst !in states[0].missed
    ensures MissedSince(states, steps, i, inst)
  {
    if i > 0 {
      var step := steps[i - 1];
      assert Next(prefix, states[i - 1], step, states[i]);
      WhyMissed(prefix, states[i - 1], step, states[i], inst);
      if !Unreadable(step, states[i], inst) {
        MissedDisksWereUnreadable(prefix, states, steps, i - 1, inst);
        var j :| 0 <= j < i - 1 && Unreadable(steps[j], states[j + 1], inst) && NotRead(states, steps, j, i - 1, inst);
        StillNotRead(states, steps, j, i - 1, inst);
      }
    }
  }

  /** A path that reaches another volume than it claims has one of two causes: the last attach on
      its LUN could not be rolled back, or a sweep could not read it; and no sweep since has read
      and deleted it. */
  lemma CrossedPathsHaveACause(prefix: string, states: seq<State>, steps: seq<Step>, i: nat, sd: Sd)
    requires Run(prefix, states, steps) && Sound(prefix, states[0]) && i < |states|
    requires states[0].dirty == {} && states[0].missed == {} && Crossed(prefix, states[i], sd)
    ensures RollbackFailedOn(states, steps, i, states[i].paths[sd].lun) || MissedSince(states, steps, i, states[i].paths[sd].inst)
  {
    RunsStaySound(prefix, states, steps, i);
    var p := states[i].paths[sd];
    if p.lun in states[i].dirty {
      DirtyLunsHadFailedRollbacks(prefix, states, steps, i, p.lun);
    } else {
      MissedDisksWereUnreadable(prefix, states, steps, i, p.inst);
    }
  }

  /** On a node whose disks read, whatever else fails, only a failed rollback is left. */
  lemma CrossedPathsComeFromFailedRollbacks(prefix: string, states: seq<State>, steps: seq<Step>, i: nat, sd: Sd)
    requires Run(prefix, states, steps) && Sound(prefix, states[0]) && i < |states|
    requires states[0].dirty == {} && states[0].missed == {} && Crossed(prefix, states[i], sd)
    requires forall k | 0 <= k < |steps| && Sweeps(steps[k]) :: states[k + 1].unread == {}
    ensures RollbackFailedOn(states, steps, i, states[i].paths[sd].lun)
  {
    CrossedPathsHaveACause(prefix, states, steps, i, sd);
  }

  /** A path check that reads every disk and deletes what it is to delete leaves nothing crossed,
      whatever went before, and nothing exempt. */
  lemma PathCheckCures(prefix: string, a: State, b: State, settled: bool)
    requires Next(prefix, a, PathCheck(true, settled, {}), b) && b.unread == {}
    ensures b.missed == {} && b.dirty == {} && forall sd :: !Crossed(prefix, b, sd)
  {
  }

  /** The sections that detach, and so may flush. */
  predicate Detaches(step: Step, prefix: string) {
    (step.Attach? || step.Release? || step.Leftover?) && ArrayOf(prefix, step.serial)
  }

  predicate Exempt(w: State, p: Path) {
    p.inst in w.missed || p.lun in w.dirty
  }

  /** sd leads to its own volume or nowhere, unless Sound exempts it. */
  lemma SoundPathsAreHome(prefix: string, a: State, serial: Serial, sd: Sd, reach: Option<Serial>)
    requires Sound(prefix, a) && ArrayOf(prefix, serial)
    requires sd in Carrying(a, serial) && ReachedIn(a, serial, a.paths[sd], reach)
    ensures Iscsi.Home(reach, serial) || Exempt(a, a.paths[sd])
  {
    assert !Iscsi.Home(reach, serial) ==> Crossed(prefix, a, sd);
  }

  /** What a section from a flushed, whichever section it was. */
  lemma FlushedSomehow(prefix: string, a: State, step: Step, b: State, e: Event)
    requires Next(prefix, a, step, b) && Detaches(step, prefix) && e in step.flushed
    ensures e.FlushPath? ==>
      e.sd in Carrying(a, step.serial) && e.path == a.paths[e.sd] && ReachedIn(a, step.serial, e.path, e.reach)
    ensures e.FlushMap? ==>
      && e.m == Volume(step.serial)
      && forall sd | sd in e.down :: sd in a.paths && ReachedIn(a, step.serial, a.paths[sd], e.down[sd])
  {
    var k :| 0 <= k < |step.flushed| && step.flushed[k] == e;
    if step.Attach? {
      var thorough := step.read && step.attach.RolledBack? && b.unread == {};
      assert RollbackFlushAllowed(a, step.serial, step.filed, thorough, step.flushed[k]);
    } else {
      assert FlushAllowed(a, step.serial, step.read, step.cut, step.flushed[k]);
    }
  }

  /** From a Sound state a section flushes down a path, its own or one of its map that claims to be,
      only into the volume or nowhere, the array asked or not, unless Sound exempts the path. */
  lemma SectionsFlushHome(prefix: string, states: seq<State>, steps: seq<Step>, i: nat, e: Event)
    requires Run(prefix, states, steps) && Sound(prefix, states[0]) && i < |steps|
    requires Detaches(steps[i], prefix) && e in steps[i].flushed
    ensures var a, serial := states[i], steps[i].serial;
            && (e.FlushPath? ==> e.path.id == Volume(serial) && (Iscsi.Home(e.reach, serial) || Exempt(a, e.path)))
            && (e.FlushMap? ==> e.m == Volume(serial) && forall sd | sd in e.down ::
                  sd in a.paths && (Iscsi.Home(e.down[sd], serial) || a.paths[sd].id != e.m || Exempt(a, a.paths[sd])))
  {
    RunsStaySound(prefix, states, steps, i);
    var a, serial := states[i], steps[i].serial;
    assert Next(prefix, a, steps[i], states[i + 1]);
    FlushedSomehow(prefix, a, steps[i], states[i + 1], e);
    if e.FlushPath? {
      SoundPathsAreHome(prefix, a, serial, e.sd, e.reach);
    } else if e.FlushMap? {
      forall sd | sd in e.down && a.paths[sd].id == e.m ensures Iscsi.Home(e.down[sd], serial) || Exempt(a, a.paths[sd]) {
        SoundPathsAreHome(prefix, a, serial, sd, e.down[sd]);
      }
    }
  }

  /** Nothing foreign leads elsewhere from the volume's map; for an attach, when it was rolled back. */
  ghost predicate NoForeignMember(a: State, step: Step)
    requires step.Attach? || step.Release? || step.Leftover?
  {
    if step.Attach? then step.filed && forall sd | sd in a.paths :: !a.paths[sd].id.Unnamed?
    else Iscsi.NoneForeign(a, step.serial)
  }

  /** The section's detach read the array's LUN map and every disk, and deleted all it was to delete. */
  ghost predicate DetachedAll(step: Step, b: State)
    requires step.Attach? || step.Release? || step.Leftover?
  {
    && step.read && b.unread == {}
    && match step
       case Attach(_, r, _, _, _, _) => r.RolledBack?
       case Release(_, r, _, _, _) => r.Released? || r.DisconnectFailed?
       case Leftover(_, settled, _, _, _) => settled
  }

  /** With nothing foreign in the map, all flushes of a section stay home if its stale deletions
      succeeded, or if Sound exempted nothing to begin with. */
  lemma FlushesStayHome(prefix: string, states: seq<State>, steps: seq<Step>, i: nat)
    requires Run(prefix, states, steps) && Sound(prefix, states[0]) && i < |steps| && Detaches(steps[i], prefix)
    requires NoForeignMember(states[i], steps[i])
    requires DetachedAll(steps[i], states[i + 1]) || (states[i].missed == {} && states[i].dirty == {})
    ensures Iscsi.FlushesOwn(steps[i].flushed, 0, steps[i].serial)
  {
    var a, step := states[i], steps[i];
    assert Next(prefix, a, step, states[i + 1]);
    if DetachedAll(step, states[i + 1]) {
      if step.Attach? {
        RollbackFlushesHome(a, step.serial, step.flushed, 0);
      } else {
        ThoroughStaysHome(a, step.serial, step.cut);
        HomeFlushes(a, step.serial, step.read, step.cut, step.flushed, 0);
      }
    } else {
      forall k | 0 <= k < |step.flushed| ensures Iscsi.FlushesHome(step.flushed[k], step.serial) {
        SectionsFlushHome(prefix, states, steps, i, step.flushed[k]);
        UnexemptFlushHome(a, step, states[i + 1], prefix, k);
      }
    }
  }

  lemma UnexemptFlushHome(a: State, step: Step, b: State, prefix: string, k: nat)
    requires Next(prefix, a, step, b) && Detaches(step, prefix) && NoForeignMember(a, step) && k < |step.flushed|
    requires var e := step.flushed[k];
             && (e.FlushPath? ==> Iscsi.Home(e.reach, step.serial))
             && (e.FlushMap? ==> forall sd | sd in e.down ::
                   sd in a.paths && (Iscsi.Home(e.down[sd], step.serial) || a.paths[sd].id != e.m))
    ensures Iscsi.FlushesHome(step.flushed[k], step.serial)
  {
    var e := step.flushed[k];
    if e.FlushMap? {
      if step.Attach? {
        var thorough := step.read && step.attach.RolledBack? && b.unread == {};
        assert RollbackFlushAllowed(a, step.serial, step.filed, thorough, e);
      } else {
        assert FlushAllowed(a, step.serial, step.read, step.cut, e);
      }
    }
  }

  // Mounts and records -----------------------------------------------------------------------

  /** The volume's connection and the device's membership, as a mount found them: still on lun,
      and nothing has joined. */
  ghost predicate Undisturbed(states: seq<State>, d: Iscsi.Device, lun: int, serial: Serial) {
    && (forall i | 0 <= i < |states| :: lun in states[i].luns && states[i].luns[lun] == serial)
    && (forall i | 0 < i < |states| :: Iscsi.PathsOf(states[i], d) <= Iscsi.PathsOf(states[i - 1], d))
  }

  lemma NextKeepsOnLun(prefix: string, a: State, step: Step, b: State, d: Iscsi.Device, lun: int)
    requires Next(prefix, a, step, b) && Sound(prefix, a) && Sound(prefix, b)
    requires OnLun(a, d, lun) && Iscsi.PathsOf(b, d) <= Iscsi.PathsOf(a, d)
    ensures OnLun(b, d, lun)
  {
    forall sd | sd in Iscsi.PathsOf(b, d)
      ensures sd in b.paths && b.paths[sd].lun == lun
    {
      assert sd in Iscsi.PathsOf(a, d) && sd in b.paths;
    }
  }

  /** A mounted device goes on reaching its volume and nothing else, through any steps, as long as
      its connection stays and no path joins it. */
  lemma {:induction false} MountedStaysServed(prefix: string, states: seq<State>, steps: seq<Step>,
                                              d: Iscsi.Device, lun: int, serial: Serial, i: nat)
    requires Run(prefix, states, steps) && Sound(prefix, states[0]) && i < |states|
    requires Undisturbed(states, d, lun, serial) && OnLun(states[0], d, lun)
    ensures OnLun(states[i], d, lun)
    ensures forall sd | sd in Iscsi.PathsOf(states[i], d) :: Reach(states[i], states[i].paths[sd]) == Some(serial)
  {
    if i > 0 {
      MountedStaysServed(prefix, states, steps, d, lun, serial, i - 1);
      RunsStaySound(prefix, states, steps, i - 1);
      RunsStaySound(prefix, states, steps, i);
      NextKeepsOnLun(prefix, states[i - 1], steps[i - 1], states[i], d, lun);
    }
  }

  /** The calls that delete paths all reported success, and the kernel dropped none by itself. */
  predicate Settled(step: Step) {
    match step
    case KernelDrops(_) => false
    case Attach(_, r, _, _, _, _) => r.Settled()
    case Release(_, r, _, _, _) => !r.DetachFailed?
    case Leftover(_, settled, _, _, _) => settled
    case PathCheck(_, settled, _) => settled
    case _ => true
  }

  /** Over such a run every record multipathd holds is about the disk that has the name now, so a
      disk given a reused name never inherits the record of the one before it. */
  lemma {:induction false} NoRecordOutlivesItsDisk(prefix: string, states: seq<State>, steps: seq<Step>, i: nat, sd: Sd)
    requires Run(prefix, states, steps) && Sound(prefix, states[0]) && states[0].orphans == {} && i < |states|
    requires forall k | 0 <= k < |steps| :: Settled(steps[k])
    requires sd in states[i].pathvec
    ensures sd in states[i].paths && states[i].pathvec[sd].inst == states[i].paths[sd].inst
  {
    NoOrphans(prefix, states, steps, i);
    RunsStaySound(prefix, states, steps, i);
  }

  lemma {:induction false} NoOrphans(prefix: string, states: seq<State>, steps: seq<Step>, i: nat)
    requires Run(prefix, states, steps) && states[0].orphans == {} && i < |states|
    requires forall k | 0 <= k < |steps| :: Settled(steps[k])
    ensures states[i].orphans == {}
  {
    if i > 0 {
      NoOrphans(prefix, states, steps, i - 1);
      assert Next(prefix, states[i - 1], steps[i - 1], states[i]);
    }
  }
}
