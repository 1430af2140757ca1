/** Values every module shares. */
module Types {
  datatype Option<+T> = None | Some(value: T)

  /** a holds nothing that b does not hold as well. */
  predicate Submap<K, V(==)>(a: map<K, V>, b: map<K, V>) {
    forall k {:trigger k in a} | k in a :: k in b && a[k] == b[k]
  }

  lemma OneLess<T>(todo: set<T>, x: T)
    requires x in todo
    ensures |todo - {x}| < |todo|
  {
  }

  /** done and todo share all between them. */
  predicate Shared<T(==)>(all: set<T>, done: set<T>, todo: set<T>) {
    done + todo == all && done !! todo
  }

  lemma OneMoreDone<T>(all: set<T>, done: set<T>, todo: set<T>, x: T)
    requires Shared(all, done, todo) && x in todo
    ensures Shared(all, done + {x}, todo - {x}) && |todo - {x}| < |todo| && x in all && x !in done
  {
  }

  /** What was only added to twice was only added to. */
  lemma Longer<T>(a: seq<T>, b: seq<T>, c: seq<T>)
    requires a <= b <= c
    ensures a <= c
  {
  }

  /** strings.ToLower, on ASCII, one character at a time. */
  function LowerChar(c: char): char {
    if 'A' <= c <= 'Z' then c - 'A' + 'a' else c
  }

  /** No capital is left; only capitals change, each to the letter thirty-two places on. */
  function Lower(s: string): (r: string)
    ensures |r| == |s|
    ensures forall i | 0 <= i < |r| :: !('A' <= r[i] <= 'Z')
    ensures forall i | 0 <= i < |r| :: r[i] == s[i] || ('A' <= s[i] <= 'Z' && r[i] as int == s[i] as int + 32)
  {
    seq(|s|, i requires 0 <= i < |s| => LowerChar(s[i]))
  }
}

/** One node: what the array maps to it, the kernel's SCSI paths, multipathd and udev.
    Nothing here is driver code; the primitives of Host are the operations the driver
    performs on the outside world, each of which may fail. */
module World {
  import opened Types

  type Sd = string
  type Serial = string

  /** A SCSI identity. A FlashArray volume is known by its serial; Naa is any other disk whose
      identity multipathd could file paths under, Unnamed one without a NAA identifier. */
  datatype Ident = Volume(serial: Serial) | Naa(name: string) | Unnamed(name: string)

  /** A path's identity is read once, when the kernel scans it; what it reaches is up to the
      array. inst tells apart the disks that have had the same sd name. */
  datatype Path = Path(lun: int, id: Ident, inst: nat)

  /** multipathd's record of a path: the identity it files it under, and for which disk. */
  datatype Entry = Entry(id: Option<Ident>, inst: nat)

  /** held: maps something in sysfs holds. unread: disks some read of sysfs has failed for since the
      present section of Exclusive began, or the last one if none is under way. The rest is
      bookkeeping no code acts on. missed: disks the last complete sweep could not read, and those
      missed before that it could not delete. dirty: LUNs a failed rollback left behind, until a
      complete sweep leaves no stale path there. orphans: names whose multipathd entry may outlive
      the disk. */
  datatype State = State(
    hostKnown: bool,
    luns: map<int, Serial>,
    paths: map<Sd, Path>,
    running: bool,
    pathvec: map<Sd, Entry>,
    maps: map<Ident, set<Sd>>,
    udev: map<Sd, Ident>,
    nextInst: nat,
    held: set<Ident>,
    unread: set<nat>,
    missed: set<nat>,
    dirty: set<int>,
    orphans: set<Sd>)

  /** What the world was asked to do, with what the array mapped at that moment; down: where each path
      under the map led. */
  datatype Event =
    | QueueOff(m: Ident)
    | DeleteTry(sd: Sd, path: Path, reach: Option<Serial>)
    | FlushMap(m: Ident, down: map<Sd, Option<Serial>>)
    | FlushPath(sd: Sd, path: Path, reach: Option<Serial>)
    | DropTry(m: Ident)
    | Multipathd(verb: string, sd: Sd)
    | Reprobe(sd: Sd)
    | Swept(ownLun: int, held: bool)
    | ConnectTry(serial: Serial)
    | DisconnectTry(serial: Serial, carrying: set<nat>, unread: set<nat>)
    | FsFormat
    | FsMount
    | FsShutdown
    | FsUnmount(ok: bool)

  /** Between two states of the log only multipathd and udev were told anything. */
  ghost predicate OnlyMultipathdSince(a: seq<Event>, b: seq<Event>) {
    a <= b && forall i | |a| <= i < |b| :: b[i].Multipathd? || b[i].Reprobe?
  }

  /** The volume a path really reaches. */
  function Reach(w: State, p: Path): Option<Serial> {
    if p.lun in w.luns then Some(w.luns[p.lun]) else None
  }

  /** The paths whose cached identity names this volume. */
  function Carrying(w: State, serial: Serial): set<Sd> {
    set sd | sd in w.paths && w.paths[sd].id == Volume(serial)
  }

  /** The disks behind those paths. */
  function CarryingDisks(w: State, serial: Serial): set<nat> {
    set sd | sd in Carrying(w, serial) :: w.paths[sd].inst
  }

  predicate OfArray(prefix: string, id: Ident) {
    id.Volume? && prefix <= id.serial
  }

  /** Bookkeeping of the kernel and multipathd that no operation may break. */
  predicate Wf(w: State) {
    && (forall m | m in w.maps :: w.maps[m] <= w.paths.Keys)
    && (forall sd | sd in w.paths :: w.paths[sd].inst < w.nextInst)
    && (!w.hostKnown ==> w.luns == map[])
    && (!w.running ==> w.pathvec == map[])
  }

  /** Another node, or whoever shares the host object, only ever takes connections away. */
  predicate Disturbed(a: State, b: State) {
    && b == a.(luns := b.luns, hostKnown := b.hostKnown)
    && Submap(b.luns, a.luns)
    && (b.hostKnown ==> a.hostKnown)
    && (!b.hostKnown ==> b.luns == map[])
  }

  /** multipathd handling uevents: it drops entries of disks that are gone, takes disks that
      exist, and regroups its maps, but never invents a path. */
  predicate MultipathdRan(a: State, b: State) {
    && b == a.(pathvec := b.pathvec, maps := b.maps)
    && (!a.running ==> b == a)
    && (forall sd | sd in b.pathvec ::
          (sd in a.pathvec && b.pathvec[sd] == a.pathvec[sd])
          || (sd in a.paths && b.pathvec[sd].inst == a.paths[sd].inst))
    && (forall m | m in b.maps :: b.maps[m] <= a.paths.Keys)
  }

  function Forget(maps: map<Ident, set<Sd>>, sd: Sd): map<Ident, set<Sd>> {
    map m | m in maps :: maps[m] - {sd}
  }

  /** calm: a node where nothing the driver asks for fails. readable: one where reads of sysfs do
      not. quiet: one where nobody but this operation acts. What is promised of calm nodes says that
      the driver does its work; all else holds of any. */
  class Host {
    const calm: bool
    const readable: bool
    const quiet: bool
    var w: State
    ghost var log: seq<Event>

    /** Lets other nodes act. */
    method Disturb()
      requires Wf(w)
      modifies this`w
      ensures Wf(w) && Disturbed(old(w), w) && (quiet ==> w == old(w))
    {
      var next: State := *;
      if !quiet && Disturbed(w, next) {
        w := next;
      }
    }

    /** Lets multipathd catch up with the kernel. */
    method MultipathdEvents()
      requires Wf(w)
      modifies this`w
      ensures Wf(w) && MultipathdRan(old(w), w) && (quiet ==> w == old(w))
    {
      var next: State := *;
      if !quiet && MultipathdRan(w, next) {
        w := next;
      }
    }

    /** Whatever else happens while nobody holds the Exclusive lock: rescans, other volumes' own
        sections, disks that go away. */
    method Interleave()
      requires Wf(w)
      modifies this`w
      ensures Wf(w) && (quiet ==> w == old(w))
    {
      var next: State := *;
      if !quiet && Wf(next) {
        w := next;
      }
    }

    /** The start of a section of Exclusive. */
    method Begin()
      requires Wf(w)
      modifies this`w
      ensures Wf(w) && w == old(w).(unread := {})
    {
      w := w.(unread := {});
    }

    method Note(e: Event)
      modifies this`log
      ensures log == old(log) + [e]
    {
      log := log + [e];
    }

    /** Reads a disk's cached identity, or None when it cannot be read. */
    method ReadIdent(sd: Sd) returns (id: Option<Ident>)
      requires Wf(w)
      modifies this`w
      ensures id.Some? ==> sd in w.paths && id.value == w.paths[sd].id
      ensures Wf(w) && w == if id.None? && sd in old(w).paths then Unread(old(w), sd) else old(w)
      ensures (calm || readable) && sd in w.paths ==> id.Some?
    {
      var fails: bool := *;
      if sd !in w.paths {
        return None;
      } else if fails && !calm && !readable {
        w := Unread(w, sd);
        return None;
      }
      return Some(w.paths[sd].id);
    }

    /** Reads a disk's LUN from its device link, or None when it cannot be read. */
    method ReadLun(sd: Sd) returns (lun: Option<int>)
      requires Wf(w)
      modifies this`w
      ensures lun.Some? ==> sd in w.paths && lun.value == w.paths[sd].lun
      ensures Wf(w) && w == if lun.None? && sd in old(w).paths then Unread(old(w), sd) else old(w)
      ensures (calm || readable) && sd in w.paths ==> lun.Some?
    {
      var fails: bool := *;
      if sd !in w.paths {
        return None;
      } else if fails && !calm && !readable {
        w := Unread(w, sd);
        return None;
      }
      return Some(w.paths[sd].lun);
    }

    /** Deletes a disk; one already gone counts as deleted. multipathd may keep its entry. */
    method DeletePath(sd: Sd) returns (ok: bool)
      requires Wf(w)
      modifies this`w, this`log
      ensures Wf(w)
      ensures sd !in old(w.paths) ==> ok && w == old(w) && log == old(log)
      ensures calm ==> ok
      ensures sd in old(w.paths) ==>
        && Disturbed(if ok then Without(old(w), sd) else old(w), w)
        && (quiet ==> w.luns == old(w).luns)
        && log == old(log) + [DeleteTry(sd, old(w.paths)[sd], Reach(w, old(w.paths)[sd]))]
    {
      if sd !in w.paths {
        return true;
      }
      Disturb();
      log := log + [DeleteTry(sd, w.paths[sd], Reach(w, w.paths[sd]))];
      var fails: bool := *;
      fails := fails && !calm;
      if !fails {
        w := Without(w, sd);
      }
      return !fails;
    }

    /** multipathd del path: drops its entry and takes the path out of every map. */
    method DelPath(sd: Sd) returns (ok: bool)
      requires Wf(w)
      modifies this`w, this`log
      ensures Wf(w) && w == (if ok then Dropped(old(w), sd) else old(w))
      ensures ok ==> old(w).running
      ensures calm && old(w).running ==> ok
      ensures log == old(log) + [Multipathd("del", sd)]
    {
      log := log + [Multipathd("del", sd)];
      var fails: bool := *;
      if (fails && !calm) || !w.running {
        return false;
      }
      w := Dropped(w, sd);
      return true;
    }

    /** multipathd add path: files a disk it has no entry for under udev's identity. */
    method AddPath(sd: Sd) returns (ok: bool)
      requires Wf(w)
      modifies this`w, this`log
      ensures Wf(w)
      ensures w == if ok then Added(old(w), sd) else old(w)
      ensures ok ==> old(w).running && sd in old(w.paths) && sd !in old(w.pathvec)
      ensures calm && old(w).running && sd in old(w.paths) && sd !in old(w.pathvec) ==> ok
      ensures log == old(log) + [Multipathd("add", sd)]
    {
      log := log + [Multipathd("add", sd)];
      var fails: bool := *;
      if (fails && !calm) || !w.running || sd !in w.paths || sd in w.pathvec {
        return false;
      }
      w := Added(w, sd);
      return true;
    }

    /** multipathd fail path: no I/O down this path from now on. */
    method FailPath(sd: Sd)
      modifies this`log
      ensures log == old(log) + [Multipathd("fail", sd)]
    {
      log := log + [Multipathd("fail", sd)];
    }

    /** Has the kernel announce sd again, so that udev reads it again some time later. */
    method AskUdev(sd: Sd)
      modifies this`log
      ensures log == old(log) + [Reprobe(sd)]
    {
      log := log + [Reprobe(sd)];
    }

    method StopQueueing(m: Ident)
      modifies this`log
      ensures log == old(log) + [QueueOff(m)]
    {
      log := log + [QueueOff(m)];
    }

    /** blockdev --flushbufs on a map: its buffers go wherever the paths under it lead now. */
    method FlushMapBuffers(m: Ident)
      requires Wf(w)
      modifies this`w, this`log
      ensures Wf(w) && Disturbed(old(w), w)
      ensures log == old(log) + [FlushMap(m, Down(w, m))]
    {
      Disturb();
      log := log + [FlushMap(m, Down(w, m))];
    }

    /** blockdev --flushbufs on one disk: its buffers go wherever its LUN leads now. */
    method FlushPathBuffers(sd: Sd)
      requires Wf(w)
      modifies this`w, this`log
      ensures Wf(w) && Disturbed(old(w), w)
      ensures sd in w.paths ==> log == old(log) + [FlushPath(sd, w.paths[sd], Reach(w, w.paths[sd]))]
      ensures sd !in w.paths ==> log == old(log)
    {
      Disturb();
      if sd in w.paths {
        log := log + [FlushPath(sd, w.paths[sd], Reach(w, w.paths[sd]))];
      }
    }

    /** One attempt to remove a multipath map, by whichever command. */
    method RemoveMapCommand(m: Ident) returns (ok: bool)
      requires Wf(w)
      modifies this`w, this`log
      ensures Wf(w) && (w == old(w) || w == old(w).(maps := old(w).maps - {m}))
      ensures ok ==> m !in w.maps
      ensures calm ==> ok
      ensures log == old(log) + [DropTry(m)]
    {
      log := log + [DropTry(m)];
      var done: bool, reported: bool := *, *;
      done, reported := done || calm, reported || calm;
      if done {
        w := w.(maps := w.maps - {m});
      }
      return done && reported;
    }

    /** Bookkeeping of this model: names whose records multipathd may still keep. */
    method NoteOrphans(sds: set<Sd>)
      requires Wf(w)
      modifies this`w
      ensures Wf(w) && w == old(w).(orphans := old(w).orphans + sds)
    {
      w := w.(orphans := w.orphans + sds);
    }

    /** Bookkeeping of this model: a rollback on lun failed. */
    method NoteDirty(lun: int)
      requires Wf(w)
      modifies this`w
      ensures Wf(w) && w == old(w).(dirty := old(w).dirty + {lun})
    {
      w := w.(dirty := w.dirty + {lun});
    }

    /** Bookkeeping of this model: a complete sweep left only these of the paths it was to delete. */
    method NoteLeft(left: set<Sd>)
      requires Wf(w)
      modifies this`w
      ensures Wf(w) && w == AfterSweep(old(w), left)
    {
      w := AfterSweep(w, left);
    }

    method NoteSwept(ownLun: int, held: bool)
      modifies this`log
      ensures log == old(log) + [Swept(ownLun, held)]
    {
      log := log + [Swept(ownLun, held)];
    }

    /** The array's own word on what each of this host's LUNs carries. */
    method HostLuns() returns (r: LunAnswer)
      requires Wf(w)
      modifies this`w
      ensures Wf(w) && Disturbed(old(w), w) && (quiet ==> w == old(w))
      ensures r.Luns? ==> w.hostKnown && r.luns == w.luns
      ensures r.NoHost? ==> !w.hostKnown
      ensures calm ==> !r.LunError?
    {
      Disturb();
      var fails: bool := *;
      if fails && !calm {
        return LunError;
      } else if !w.hostKnown {
        return NoHost;
      }
      return Luns(w.luns);
    }

    /** Finds or recreates this node's host object on the array. */
    method EnsureHost() returns (ok: bool)
      requires Wf(w)
      modifies this`w
      ensures Wf(w) && Submap(w.luns, old(w.luns)) && (quiet ==> w.luns == old(w).luns)
      ensures w == old(w).(luns := w.luns, hostKnown := w.hostKnown)
      ensures (calm ==> ok) && (ok ==> w.hostKnown)
    {
      Disturb();
      var fails: bool := *;
      fails := fails && !calm;
      if !fails {
        w := w.(hostKnown := true);
      }
      return !fails;
    }

    /** Connects a volume to this host. An existing connection counts as success; a new one gets
        any LUN number not in use; an error leaves the array as it was. */
    method Connect(serial: Serial) returns (lun: Option<int>)
      requires Wf(w)
      modifies this`w, this`log
      ensures Wf(w)
      ensures w == old(w).(luns := w.luns, hostKnown := w.hostKnown)
      ensures lun.None? ==> Submap(w.luns, old(w.luns))
      ensures lun.Some? ==> lun.value in w.luns && w.luns[lun.value] == serial
      ensures lun.Some? ==> Submap(w.luns - {lun.value}, old(w.luns))
      ensures calm && w.hostKnown ==> lun.Some?
      ensures log == old(log) + [ConnectTry(serial)]
    {
      Disturb();
      log := log + [ConnectTry(serial)];
      var fails: bool := *;
      if (fails && !calm) || !w.hostKnown {
        return None;
      }
      if at :| at in w.luns && w.luns[at] == serial {
        return Some(at);
      }
      var free := FreeLun(w.luns);
      w := w.(luns := w.luns[free := serial]);
      return Some(free);
    }

    /** Disconnects a volume from this host; a failed call may have taken effect all the same. */
    method Disconnect(serial: Serial) returns (ok: bool)
      requires Wf(w)
      modifies this`w, this`log
      ensures Wf(w) && Disturbed(old(w), w)
      ensures ok ==> serial !in w.luns.Values
      ensures calm ==> ok
      ensures log == old(log) + [DisconnectTry(serial, CarryingDisks(w, serial), w.unread)]
    {
      Disturb();
      ghost var carrying := CarryingDisks(w, serial);
      log := log + [DisconnectTry(serial, carrying, w.unread)];
      var took: bool, reported: bool := *, *;
      took, reported := took || calm, reported || calm;
      if took {
        w := w.(luns := map l | l in w.luns && w.luns[l] != serial :: w.luns[l]);
      }
      assert Carrying(w, serial) == Carrying(old(w), serial);
      assert CarryingDisks(w, serial) == carrying;
      return took && reported;
    }
  }

  datatype LunAnswer = NoHost | LunError | Luns(luns: map<int, Serial>)

  /** Any LUN number not in use. */
  method FreeLun(luns: map<int, Serial>) returns (free: int)
    ensures free !in luns
  {
    free := *;
    while free in luns
      decreases set l | l in luns && free <= l
    {
      ghost var above := set l | l in luns && free <= l;
      assert free in above;
      free := free + 1;
      assert free - 1 !in set l | l in luns && free <= l;
    }
  }

  function Unread(w: State, sd: Sd): State
    requires sd in w.paths
  {
    w.(unread := w.unread + {w.paths[sd].inst})
  }

  /** What is still missed and dirty after a complete sweep. */
  function AfterSweep(w: State, left: set<Sd>): State {
    w.(missed := w.unread + set sd | sd in left && sd in w.paths && w.paths[sd].inst in w.missed :: w.paths[sd].inst,
       dirty := set sd | sd in left && sd in w.paths && w.paths[sd].lun in w.dirty :: w.paths[sd].lun)
  }

  /** The node once the kernel has dropped a disk. */
  function Without(w: State, sd: Sd): State {
    w.(paths := w.paths - {sd}, maps := Forget(w.maps, sd))
  }

  /** The node once multipathd has dropped its entry for sd. */
  function Dropped(w: State, sd: Sd): State {
    w.(pathvec := w.pathvec - {sd}, maps := Forget(w.maps, sd))
  }

  function Members(w: State, m: Ident): set<Sd> {
    if m in w.maps then w.maps[m] else {}
  }

  /** Where the paths under a map lead. */
  function Down(w: State, m: Ident): map<Sd, Option<Serial>> {
    map sd | sd in Members(w, m) && sd in w.paths :: Reach(w, w.paths[sd])
  }

  /** The node once multipathd has taken sd, under whatever identity udev has for it. */
  function Added(w: State, sd: Sd): State {
    if sd !in w.paths then w
    else if sd !in w.udev then w.(pathvec := w.pathvec[sd := Entry(None, w.paths[sd].inst)])
    else w.(pathvec := w.pathvec[sd := Entry(Some(w.udev[sd]), w.paths[sd].inst)],
            maps := w.maps[w.udev[sd] := Members(w, w.udev[sd]) + {sd}])
  }
}
