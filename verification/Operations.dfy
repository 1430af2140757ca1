/** internal/driver/driver.go: which locks each operation takes, lets go and works under, on every
    path. What the array, the host and the request's deadline do is left open: any outcome of any
    call may occur. A ghost field records the acts; every method proves them to be in order. */
module Operations {
  import opened Types
  import opened Locks

  /** An unlock closure: lockCtx's no-op or the Unlock of one volume's lock. */
  datatype Unlock = NoOp | Release(name: string)

  datatype Volume = Volume(name: string, destroyed: bool)

  datatype Answer<T> = Ok(value: T) | NotFound | Failed

  /** How Create ended: nothing done, the volume was there already, or this one was made. */
  datatype Creation = Refused | Existing | Made(name: string)

  /** calm: no call fails, no context ends, and volumes looked up are live. */
  class Goroutine {
    const calm: bool
    ghost var acts: seq<Act>

    ghost function Holding(): set<Lock>
      reads this
    {
      HeldAfter(acts)
    }

    /** The work done so far. */
    ghost function Worked(): set<Work>
      reads this
    {
      WorkDone(acts)
    }

    /** Free to take any lock from this rank on. */
    ghost predicate Free(rank: nat)
      reads this
    {
      Ordered(acts) && forall l | l in Holding() :: Rank(l) < rank
    }

    ghost predicate Idle()
      reads this
    {
      Ordered(acts) && Holding() == {}
    }

    /** The acts went on in order, and every lock taken meanwhile was let go. */
    twostate predicate Kept()
      reads this
    {
      Ordered(acts) && Holding() == old(Holding()) && old(Worked()) <= Worked()
    }

    /** The closure owes exactly what is held. */
    ghost predicate Owes(u: Unlock)
      reads this
    {
      Ordered(acts) && Holding() == if u.Release? then {VolumeLock(u.name)} else {}
    }

    constructor (calm: bool)
      ensures acts == [] && Idle() && Worked() == {} && this.calm == calm
    {
      this.calm, acts := calm, [];
    }

    ghost method Add(act: Act)
      requires Ordered(acts) && Fits(Holding(), act)
      modifies this
      ensures Ordered(acts) && Holding() == After(old(Holding()), act)
      ensures acts == old(acts) + [act] && Worked() == old(Worked()) + if act.Do? then {act.w} else {}
    {
      OrderedOnceMore(acts, act);
      acts := acts + [act];
    }

    /** Something of this volume's is read or changed. */
    ghost method WorkOn(an: string)
      requires Ordered(acts) && VolumeLock(an) in Holding()
      modifies this
      ensures Kept() && OnVolume(an) in Worked()
    {
      Add(Do(OnVolume(an)));
    }

    /** A short section under one of the plain mutexes. */
    method Under(work: Work)
      requires Free(Rank(Guard(work)))
      modifies this
      ensures Kept() && work in Worked()
    {
      Add(Take(Guard(work)));
      Add(Do(work));
      Add(Drop(Guard(work)));
    }

    /** A call to the array: the client's mu is taken for a moment any number of times. */
    method CallArray() returns (answer: Answer<Volume>)
      requires Free(6)
      modifies this
      ensures Kept() && (calm ==> answer.Ok? && !answer.value.destroyed)
    {
      var times: int := *;
      while times > 0
        invariant Free(6) && Kept()
      {
        Under(Renewing);
        times := times - 1;
      }
      answer := *;
      if calm {
        answer := Ok(Volume("", false));
      }
    }

    /** driver.lockCtx: d.mu to find the lock, then the lock itself, unless the context ends. */
    method LockCtx(name: string) returns (u: Unlock, ok: bool)
      requires Free(1)
      modifies this
      ensures Ordered(acts) && old(Worked()) <= Worked() && u == if ok then Release(name) else NoOp
      ensures calm ==> ok
      ensures Holding() == old(Holding()) + if ok then {VolumeLock(name)} else {}
    {
      Under(Remembering);
      ok := *;
      ok := ok || calm;
      if !ok {
        return NoOp, false;
      }
      Add(Take(VolumeLock(name)));
      return Release(name), true;
    }

    /** driver.lock waits however long it takes. */
    method Lock(name: string) returns (u: Unlock)
      requires Free(1)
      modifies this
      ensures Ordered(acts) && old(Worked()) <= Worked() && u == Release(name)
      ensures Holding() == old(Holding()) + {VolumeLock(name)}
    {
      Under(Remembering);
      Add(Take(VolumeLock(name)));
      return Release(name);
    }

    method Call(u: Unlock)
      requires Owes(u)
      modifies this
      ensures Idle() && old(Worked()) <= Worked()
    {
      if u.Release? {
        Add(Drop(VolumeLock(u.name)));
      }
    }

    /** driver.setKnown and driver.replaceKnown. */
    method SetKnown()
      requires Free(4)
      modifies this
      ensures Kept()
    {
      Under(Remembering);
      var changed: bool := *;
      if changed {
        Save();
      }
    }

    /** Their save: saveMu, and mu inside it. */
    method Save()
      requires Free(4)
      modifies this
      ensures Kept() && Saving in Worked()
    {
      Add(Take(SaveLock));
      Under(Remembering);
      Add(Do(Saving));
      Add(Drop(SaveLock));
    }

    /** driver.resolve. */
    method Resolve() returns (name: Answer<string>, cached: bool)
      requires Free(4)
      modifies this
      ensures Kept() && (cached ==> name.Ok?) && (calm ==> name.Ok?)
    {
      Under(Remembering);
      name, cached := *, *;
      if cached && name.Ok? {
        return name, true;
      }
      var _ := CallArray();
      name := *;
      if calm && !name.Ok? {
        name := Ok("");
      }
      if name.Ok? {
        Under(Remembering);
        SetKnown();
      }
      return name, false;
    }

    /** driver.resolveLocked: a cached name whose volume is gone or destroyed is let go of and
        resolved again. Whatever it returns, the closure owes exactly the lock that is held. */
    method ResolveLocked() returns (an: string, v: Answer<Volume>, u: Unlock)
      requires Idle()
      modifies this
      ensures Owes(u) && (u.Release? ==> u.name == an) && (u.NoOp? ==> v.Failed?) && old(Worked()) <= Worked()
      ensures calm ==> v.Ok? && !v.value.destroyed
    {
      var name, cached := Resolve();
      if !name.Ok? {
        return "", Failed, NoOp;
      }
      an := name.value;
      var ok: bool;
      u, ok := LockCtx(an);
      if !ok {
        return "", Failed, u;
      }
      v := CallArray();
      if cached && (v.NotFound? || (v.Ok? && v.value.destroyed)) {
        Call(u);
        an, v, u := Reresolved();
      }
    }

    /** driver.resolveLocked from its second resolution on. */
    method Reresolved() returns (an: string, v: Answer<Volume>, u: Unlock)
      requires Idle()
      modifies this
      ensures Owes(u) && (u.Release? ==> u.name == an) && (u.NoOp? ==> v.Failed?) && old(Worked()) <= Worked()
      ensures calm ==> v.Ok? && !v.value.destroyed
    {
      Under(Remembering);
      var name, _ := Resolve();
      if !name.Ok? {
        return "", Failed, NoOp;
      }
      an := name.value;
      var ok: bool;
      u, ok := LockCtx(an);
      if !ok {
        return "", Failed, u;
      }
      v := CallArray();
    }

    /** transport.Exclusive: not entered when the context ends first; inside, array calls and work on
        what this host's LUNs carry. */
    method Exclusive(work: Work) returns (entered: bool)
      requires Free(3) && Guard(work) == ExclusiveLock
      modifies this
      ensures Kept() && (entered ==> work in Worked()) && (calm ==> entered)
    {
      entered := *;
      entered := entered || calm;
      if entered {
        Add(Take(ExclusiveLock));
        InExclusive();
        Add(Do(work));
        Add(Drop(ExclusiveLock));
      }
    }

    method InExclusive()
      requires Free(4)
      modifies this
      ensures Kept()
    {
      var times: int := *;
      while times > 0
        invariant Free(4) && Kept()
      {
        var _ := CallArray();
        times := times - 1;
      }
    }

    /** driver.Create: the closure is swapped when a destroyed volume forces a new name, and called
        once whatever happens; the volume is made and tagged under the lock of the name it gets. */
    method Create(importing: bool) returns (made: Creation)
      requires Idle()
      modifies this
      ensures Idle() && old(Worked()) <= Worked() && (made.Made? ==> OnVolume(made.name) in Worked())
      ensures calm ==> if importing then made.Made? else made.Existing?
    {
      var u: Unlock;
      if importing {
        made, u := ImportBody();
      } else {
        made, u := CreateBody();
      }
      Call(u);
    }

    method CreateBody() returns (made: Creation, u: Unlock)
      requires Idle()
      modifies this
      ensures Owes(u) && old(Worked()) <= Worked() && (made.Made? ==> OnVolume(made.name) in Worked())
      ensures calm ==> made.Existing?
    {
      var an: string, v: Answer<Volume>;
      an, v, u := ResolveLocked();
      if v.Failed? || (v.Ok? && !v.value.destroyed) {
        return if v.Ok? then Existing else Refused, u;
      }
      if v.Ok? {
        var found := CallArray();
        if !found.NotFound? {
          return Refused, u;
        }
        an := *;
        Call(u);
        var ok: bool;
        u, ok := LockCtx(an);
        if !ok {
          return Refused, u;
        }
      }
      made := Make(an);
    }

    method Make(an: string) returns (made: Creation)
      requires Free(2) && VolumeLock(an) in Holding()
      modifies this
      ensures Kept() && (made.Made? ==> made.name == an && OnVolume(an) in Worked()) && (calm ==> made.Made?)
    {
      var clone: bool := *;
      if clone {
        var _, _ := Resolve();
      }
      var created := CallArray();
      if !created.Ok? {
        return Refused;
      }
      var _ := CallArray();
      WorkOn(an);
      Under(Remembering);
      SetKnown();
      return Made(an);
    }

    method ImportBody() returns (made: Creation, u: Unlock)
      requires Idle()
      modifies this
      ensures Owes(u) && old(Worked()) <= Worked() && (made.Made? ==> OnVolume(made.name) in Worked())
      ensures calm ==> made.Made?
    {
      var an: string, ok: bool := *, *;
      u, ok := LockCtx(an);
      if !ok {
        return Refused, u;
      }
      var adopted := CallArray();
      if !adopted.Ok? {
        return Refused, u;
      }
      WorkOn(an);
      Under(Remembering);
      SetKnown();
      return Made(an), u;
    }

    /** driver.Remove. */
    method Remove() returns (gone: Option<string>)
      requires Idle()
      modifies this
      ensures Idle() && old(Worked()) <= Worked() && (gone.Some? ==> OnVolume(gone.value) in Worked())
      ensures calm ==> gone.Some?
    {
      var an, v, u := ResolveLocked();
      gone := None;
      if !v.Failed? {
        var ok: bool := *;
        ok := ok || v.NotFound?;
        if v.Ok? && !v.value.destroyed {
          ok := Let(an);
        }
        if ok {
          WorkOn(an);
          Under(Remembering);
          SetKnown();
          gone := Some(an);
        }
      }
      Call(u);
    }

    /** What Remove does to a live volume before it destroys it: tear down a lingering mount, see
        that no other host has it, and release this one. */
    method Let(an: string) returns (ok: bool)
      requires Free(2) && VolumeLock(an) in Holding()
      modifies this
      ensures Kept() && (calm ==> ok)
    {
      Under(Remembering);
      var lingering: bool := *;
      if lingering {
        ok := Teardown(an);
        if !ok {
          return;
        }
      }
      var conns := CallArray();
      if !conns.Ok? {
        return false;
      }
      var connected: bool := *;
      if connected {
        ok := Exclusive(Detaching);
      } else {
        ok := true;
      }
    }

    /** driver.teardown. */
    method Teardown(an: string) returns (ok: bool)
      requires Free(2) && VolumeLock(an) in Holding()
      modifies this
      ensures Kept() && (ok ==> Detaching in Worked() && OnVolume(an) in Worked()) && (calm ==> ok)
    {
      ok := *;
      ok := ok || calm;
      if !ok {
        return;
      }
      WorkOn(an);
      var serial := CallArray();
      ok := false;
      if serial.Ok? {
        ok := Exclusive(Detaching);
      }
      Under(Remembering);
    }

    /** driver.Mount: serves a tracked volume even if the lookup failed; refs and mounts change under
        the volume's lock only. attached: it was not tracked, so it was connected, and scanned for. */
    method Mount() returns (served: Option<string>, attached: bool)
      requires Idle()
      modifies this
      ensures Idle() && old(Worked()) <= Worked() && (served.Some? ==> OnVolume(served.value) in Worked())
      ensures attached ==> served.Some? && Connecting in Worked() && (calm ==> Scanning in Worked())
      ensures calm ==> served.Some?
    {
      var an, v, u := ResolveLocked();
      Under(Remembering);
      var tracked: bool := *;
      served, attached := None, false;
      if tracked && u.Release? {
        Under(Remembering);
        Under(Remembering);
        WorkOn(an);
        served := Some(an);
      } else if v.Ok? && !v.value.destroyed {
        served := Attach(an);
        attached := served.Some?;
      }
      Call(u);
    }

    /** The rest of driver.Mount: log in, take over, clear leftovers, connect and attach under
        Exclusive, and wait for the device with every rescan under Exclusive. */
    method Attach(an: string) returns (served: Option<string>)
      requires Free(2) && VolumeLock(an) in Holding()
      modifies this
      ensures Kept() && (served.Some? ==> served.value == an && OnVolume(an) in Worked() && Connecting in Worked())
      ensures calm ==> served.Some? && Scanning in Worked()
    {
      Prepare();
      var connected := Exclusive(Connecting);
      served := None;
      if connected {
        served := MountDevice(an);
      }
    }

    method Prepare()
      requires Free(2)
      modifies this
      ensures Kept()
    {
      var _ := CallArray();
      Under(LoggingIn);
      Poll();
      var _ := Exclusive(Detaching);
    }

    /** The device appears and is mounted, or the volume is released again. */
    method MountDevice(an: string) returns (served: Option<string>)
      requires Free(2) && VolumeLock(an) in Holding()
      modifies this
      ensures Kept() && (served.Some? ==> served.value == an && OnVolume(an) in Worked())
      ensures calm ==> served.Some? && Scanning in Worked()
    {
      Rescan();
      var mounted: bool := *;
      if !mounted && !calm {
        var _ := Exclusive(Detaching);
        Under(Remembering);
        return None;
      }
      WorkOn(an);
      Under(Remembering);
      Under(Remembering);
      return Some(an);
    }

    /** transport.WaitForDevice: a scan first, and then every few seconds. */
    method Rescan()
      requires Free(2)
      modifies this
      ensures Kept() && (calm ==> Scanning in Worked())
    {
      var _ := Exclusive(Scanning);
      var rounds: int := *;
      while rounds > 0
        invariant Free(2) && Kept() && (calm ==> Scanning in Worked())
      {
        var _ := Exclusive(Scanning);
        rounds := rounds - 1;
      }
    }

    /** driver.takeOver: polls the array, markHeld and clearHeld under mu. */
    method Poll()
      requires Free(2)
      modifies this
      ensures Kept()
    {
      var polls: int := *;
      while polls > 0
        invariant Free(2) && Kept()
      {
        var _ := CallArray();
        Under(Remembering);
        polls := polls - 1;
      }
    }

    /** driver.Unmount waits for the lock however long it takes. */
    method Unmount() returns (done: Option<string>)
      requires Idle()
      modifies this
      ensures Idle() && old(Worked()) <= Worked() && (done.Some? ==> OnVolume(done.value) in Worked())
      ensures calm ==> done.Some?
    {
      var name, _ := Resolve();
      if !name.Ok? {
        return None;
      }
      var an := name.value;
      var u := Lock(an);
      Under(Remembering);
      var tracked, linger: bool := *, *;
      WorkOn(an);
      if !tracked {
        var _ := CallArray();
        var _ := Exclusive(Detaching);
      } else if linger {
        Under(Remembering);
      } else {
        var _ := Teardown(an);
      }
      Call(u);
      return Some(an);
    }

    /** driver.lingerExpired and driver.keepExpired: whether the timer is current is looked up, and all
        else done, under the volume's lock. */
    method TimerExpired(an: string)
      requires Idle()
      modifies this
      ensures Idle() && old(Worked()) <= Worked() && OnVolume(an) in Worked()
    {
      var u := Lock(an);
      Under(Remembering);
      WorkOn(an);
      var current: bool := *;
      if current {
        var _ := Teardown(an);
        Under(Remembering);
      }
      Call(u);
    }

    /** driver.Shutdown: one volume at a time. */
    method Shutdown(idle: seq<string>)
      requires Idle()
      modifies this
      ensures Idle() && old(Worked()) <= Worked() && forall v | v in idle :: OnVolume(v) in Worked()
    {
      Under(Remembering);
      for i := 0 to |idle|
        invariant Idle() && old(Worked()) <= Worked() && forall k | 0 <= k < i :: OnVolume(idle[k]) in Worked()
      {
        TimerExpired(idle[i]);
      }
    }

    /** driver.checkPaths. */
    method CheckPaths() returns (checked: bool)
      requires Idle()
      modifies this
      ensures Kept() && (checked ==> Checking in Worked()) && (calm ==> checked)
    {
      checked := Exclusive(Checking);
    }
  }
}
