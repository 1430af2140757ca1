/** internal/driver/driver.go: the methods that change the driver's mounts and kept attachments,
    each shown to do to the fields what Lifecycle says of the values. Answers of the array, of the
    mounter and of releaseHost are parameters. */
module Mounts {
  import opened Types
  import opened L = Lifecycle

  /** What a teardown meets: which of its steps go well. */
  datatype TearEnv = TearEnv(unmounted: bool, serialRead: bool, idle: bool, detached: bool, disconnected: bool,
                             postDisconnect: bool)

  /** It ends well only if every step does, and leaves the volume tracked only if it did not unmount. */
  function End(env: TearEnv): (end: TearEnd)
    ensures end.UnmountFailed? <==> !env.unmounted
    ensures end == Untracked(true) <==> env == TearEnv(true, true, true, true, true, true)
  {
    if !env.unmounted then UnmountFailed
    else Untracked(env.serialRead && env.idle && env.detached && env.disconnected && env.postDisconnect)
  }

  lemma Cancelled(b: Book, v: Volume, st: Mount)
    requires v in b.mounts && st == b.mounts[v].(armed := false, gen := b.mounts[v].gen + 1)
    ensures b.(mounts := b.mounts[v := st]) == L.CancelTeardown(b, v)
  {
  }

  lemma Scheduled(b: Book, v: Volume, st: Mount)
    requires v in b.mounts && st == b.mounts[v].(armed := true, gen := b.mounts[v].gen + 1)
    ensures b.(mounts := b.mounts[v := st], timers := b.timers + {LingerTimer(v, st.id, st.gen)}) == L.ScheduleTeardown(b, v)
  {
  }

  lemma SetRefsTwice(b: Book, v: Volume, first: map<RefId, int>, second: map<RefId, int>)
    requires v in b.mounts
    ensures L.SetRefs(L.SetRefs(b, v, first), v, second) == L.SetRefs(b, v, second)
  {
  }

  /** How far Shutdown got, from was to b, with the volumes left still to do: mounts with refs are
      as they were; of the others, only those left, those a container may use and those that did
      not unmount are still tracked. */
  ghost predicate ShutFar(was: Book, b: Book, left: set<Volume>, inUse: Volume -> Option<bool>, env: Volume -> TearEnv) {
    && b.closing && b.mounts.Keys <= was.mounts.Keys && b.pending == was.pending
    && (forall v | v in was.mounts && was.mounts[v].refs != map[] :: v in b.mounts && b.mounts[v] == was.mounts[v])
    && (forall v | v in b.mounts && b.mounts[v].refs == map[] ::
          v in left || inUse(v) != Some(false) || !env(v).unmounted)
  }

  lemma ShutStep(was: Book, b: Book, left: set<Volume>, v: Volume, inUse: Volume -> Option<bool>, env: Volume -> TearEnv)
    requires ShutFar(was, b, left, inUse, env)
    ensures ShutFar(was, L.ShutDownOne(b, v, inUse(v), End(env(v))), left - {v}, inUse, env)
  {
  }

  /** Exactly these volumes are tracked, without refs, with a timer each or without; none is kept. */
  ghost predicate Recovered(b: Book, found: set<Volume>, armed: bool) {
    && b.mounts.Keys == found && b.pending == map[]
    && forall v | v in b.mounts :: b.mounts[v].refs == map[] && b.mounts[v].armed == armed
  }

  /** Of these volumes those done have their timers. */
  ghost predicate ArmedSoFar(b: Book, found: set<Volume>, done: set<Volume>) {
    && b.mounts.Keys == found && b.pending == map[]
    && forall v | v in b.mounts :: b.mounts[v].refs == map[] && b.mounts[v].armed == (v in done)
  }

  function Names(found: seq<Volume>): set<Volume> {
    set v | v in found
  }

  lemma RecoveredOneMore(b: Book, found: seq<Volume>, i: nat)
    requires i < |found| && Recovered(b, Names(found[..i]), false)
    ensures Recovered(L.Track(b, found[i], map[]), Names(found[..i + 1]), false)
  {
    assert found[..i + 1] == found[..i] + [found[i]];
  }

  lemma ArmedOneMore(b: Book, found: set<Volume>, done: set<Volume>, v: Volume)
    requires ArmedSoFar(b, found, done) && v in found
    ensures ArmedSoFar(L.ScheduleTeardown(b, v), found, done + {v})
  {
  }

  class MountState {
    const id: nat
    var refs: map<RefId, int>
    var armed: bool
    var gen: nat

    constructor (id: nat, refs: map<RefId, int>)
      ensures Value() == Mount(id, refs, false, 0)
    {
      this.id, this.refs, armed, gen := id, refs, false, 0;
    }

    ghost function Value(): Mount
      reads this
    {
      Mount(id, refs, armed, gen)
    }
  }

  class Driver {
    const linger: int
    const keepFor: int
    var mounts: map<Volume, MountState>
    var pending: map<Volume, Pending>
    var closing: bool
    var next: nat
    ghost var timers: set<Timer>
    ghost var torn: seq<Tear>
    ghost var states: set<MountState> // every mountState there has been

    static ghost function Values(ms: map<Volume, MountState>): map<Volume, Mount>
      reads ms.Values
    {
      map v | v in ms :: ms[v].Value()
    }

    ghost function Mounts(): map<Volume, Mount>
      reads this, states
      requires mounts.Values <= states
    {
      Values(mounts)
    }

    static lemma ValuesOneMore(ms: map<Volume, MountState>, v: Volume, st: MountState)
      ensures Values(ms[v := st]) == Values(ms)[v := st.Value()]
    {
    }

    ghost function Cfg(): Config {
      Config(linger, keepFor)
    }

    ghost function Now(): Book
      reads this, states
      requires mounts.Values <= states
    {
      Book(Mounts(), pending, closing, next, timers, torn)
    }

    /** Each mountState has an id of its own and belongs to at most one volume. */
    ghost predicate Apart()
      reads this, states
    {
      && mounts.Values <= states
      && (forall s | s in states :: s.id < next)
      && (forall s, t | s in states && t in states && s.id == t.id :: s == t)
      && (forall u, v | u in mounts && v in mounts && mounts[u] == mounts[v] :: u == v)
    }

    ghost predicate Ok()
      reads this, states
    {
      Apart() && Valid(Now(), Cfg())
    }

    constructor (linger: int, keepFor: int)
      ensures Apart() && states == {} && Now() == Book(map[], map[], false, 0, {}, [])
      ensures this.linger == linger && this.keepFor == keepFor
    {
      this.linger, this.keepFor := linger, keepFor;
      mounts, pending, closing, next := map[], map[], false, 0;
      timers, torn, states := {}, [], {};
    }

    method CancelKeep(v: Volume)
      requires Apart()
      modifies this`pending
      ensures Apart() && Now() == L.CancelKeep(old(Now()), v)
    {
      pending := pending - {v};
    }

    method KeepAttached(v: Volume) returns (kept: bool)
      requires Apart()
      modifies this`pending, this`next, this`timers
      ensures Apart() && Now() == L.KeepAttached(old(Now()), v, Cfg())
      ensures kept <==> 0 < keepFor
    {
      if keepFor <= 0 {
        return false;
      }
      var p: Pending;
      if v in pending {
        p := pending[v];
      } else {
        p, next := Pending(next, 0), next + 1;
      }
      p := p.(gen := p.gen + 1);
      pending := pending[v := p];
      timers := timers + {KeepTimer(v, p.rec, p.gen)};
      assert Mounts() == old(Mounts());
      return true;
    }

    /** Whatever timer there was is outdated. */
    method NextGeneration(v: Volume, st: MountState, armed: bool)
      requires Apart() && v in mounts && mounts[v] == st
      modifies st
      ensures Apart() && Now() == old(Now()).(mounts := old(Mounts())[v := st.Value()])
      ensures st.Value() == old(Mounts())[v].(armed := armed, gen := old(st.gen) + 1)
    {
      st.gen := st.gen + 1;
      st.armed := armed;
      assert Mounts() == old(Mounts())[v := st.Value()];
    }

    method CancelTeardown(v: Volume, st: MountState)
      requires Apart() && v in mounts && mounts[v] == st
      modifies st
      ensures Apart() && Now() == L.CancelTeardown(old(Now()), v)
    {
      NextGeneration(v, st, false);
      Cancelled(old(Now()), v, st.Value());
    }

    method ScheduleTeardown(v: Volume, st: MountState)
      requires Apart() && v in mounts && mounts[v] == st
      modifies st, this`timers
      ensures Apart() && Now() == L.ScheduleTeardown(old(Now()), v)
      ensures states == old(states)
    {
      NextGeneration(v, st, true);
      ghost var was := Mounts();
      timers := timers + {LingerTimer(v, st.id, st.gen)};
      assert Mounts() == was;
      Scheduled(old(Now()), v, st.Value());
    }

    method Untrack(v: Volume)
      requires Apart()
      modifies this`mounts
      ensures Apart() && Now() == old(Now()).(mounts := old(Now()).mounts - {v})
    {
      mounts := mounts - {v};
    }

    ghost method BeginTeardown(v: Volume, st: MountState)
      requires Apart() && v in mounts && mounts[v] == st
      modifies this`torn
      ensures Apart() && Now() == old(Now()).(torn := old(torn) + [Tear(v, old(Now()).mounts[v].id)])
    {
      torn := torn + [Tear(v, st.id)];
    }

    /** driver.teardown: whatever fails after the filesystem has unmounted, the volume is untracked. */
    method Teardown(v: Volume, st: MountState, env: TearEnv) returns (end: TearEnd)
      requires Apart() && v in mounts && mounts[v] == st
      modifies this`mounts, this`torn
      ensures Apart() && end == End(env) && Now() == L.Teardown(old(Now()), v, end)
    {
      BeginTeardown(v, st);
      if !env.unmounted {
        return UnmountFailed;
      }
      if !env.serialRead || !env.idle || !env.detached {
        Untrack(v);
        return Untracked(false);
      }
      Untrack(v);
      return Untracked(env.disconnected && env.postDisconnect);
    }

    /** driver.dropStaleRefs. */
    method DropStaleRefs(v: Volume, st: MountState, now: int, inUse: Option<bool>) returns (dropped: bool)
      requires Apart() && v in mounts && mounts[v] == st
      modifies st`refs
      ensures Apart() && (dropped <==> Discardable(old(st.refs), now, inUse))
      ensures Now() == if dropped then L.SetRefs(old(Now()), v, map[]) else old(Now())
    {
      var left := st.refs.Keys;
      while left != {}
        invariant left <= st.refs.Keys && st.refs == old(st.refs)
        invariant forall r | r in st.refs && r !in left :: now - st.refs[r] >= REF_PENDING
      {
        var r :| r in left;
        if now - st.refs[r] < REF_PENDING {
          return false;
        }
        left := left - {r};
      }
      if inUse != Some(false) {
        return false;
      }
      st.refs := map[];
      assert Mounts() == old(Mounts())[v := st.Value()];
      return true;
    }

    /** driver.Mount, from the lookup in mounts on. */
    method Mount(v: Volume, ref: RefId, now: int, attach: AttachEnd) returns (served: bool)
      requires Ok()
      modifies this, states
      ensures Ok() && Now() == Mounted(old(Now()), v, ref, now, attach, Cfg())
      ensures served <==> old(v in mounts) || attach == Attached
      ensures served ==> v in mounts && mounts[v].refs == old(RefsFor(v))[ref := now]
    {
      MountedValid(Now(), v, ref, now, attach, Cfg());
      if v in mounts {
        var st := mounts[v];
        CancelKeep(v);
        CancelTeardown(v, st);
        SetRefs(v, st, st.refs[ref := now]);
        assert Now().mounts[v] == mounts[v].Value();
        return true;
      }
      match attach {
        case Failed =>
          return false;
        case TooSlow =>
          var _ := KeepAttached(v);
          return false;
        case Attached =>
          Track(v, map[ref := now]);
          CancelKeep(v);
          assert Now().mounts[v] == mounts[v].Value();
          return true;
      }
    }

    method SetRefs(v: Volume, st: MountState, refs: map<RefId, int>)
      requires Apart() && v in mounts && mounts[v] == st
      modifies st`refs
      ensures Apart() && Now() == L.SetRefs(old(Now()), v, refs)
    {
      st.refs := refs;
      assert Mounts() == old(Mounts())[v := st.Value()];
    }

    ghost function RefsFor(v: Volume): map<RefId, int>
      reads this, states
      requires mounts.Values <= states
    {
      if v in mounts then mounts[v].refs else map[]
    }

    method NewState(refs: map<RefId, int>) returns (st: MountState)
      requires Apart()
      modifies this`next, this`states
      ensures Apart() && Now() == old(Now()).(next := old(next) + 1)
      ensures fresh(st) && states == old(states) + {st} && st.Value() == L.Mount(old(next), refs, false, 0)
    {
      st := new MountState(next, refs);
      next := next + 1;
      states := states + {st};
      assert Mounts() == old(Mounts());
    }

    method Track(v: Volume, refs: map<RefId, int>)
      requires Apart()
      modifies this`mounts, this`next, this`states
      ensures Apart() && Now() == L.Track(old(Now()), v, refs) && fresh(states - old(states))
    {
      var st := NewState(refs);
      ghost var was := Now();
      assert st !in mounts.Values;
      ValuesOneMore(mounts, v, st);
      mounts := mounts[v := st];
      assert Now() == was.(mounts := was.mounts[v := st.Value()]);
    }

    /** driver.Unmount, from the lookup in mounts on, for a tracked volume. */
    method Unmount(v: Volume, ref: RefId, now: int, inUse: Option<bool>, synced: bool, env: TearEnv)
      requires Ok() && v in mounts
      modifies this, states
      ensures Ok() && Now() == Unmounted(old(Now()), v, ref, now, inUse, synced, End(env), Cfg())
    {
      UnmountedValid(Now(), v, ref, now, inUse, synced, End(env), Cfg());
      ghost var was, left := Now(), mounts[v].refs - {ref};
      SetRefsTwice(was, v, left, map[]);
      var st := mounts[v];
      SetRefs(v, st, st.refs - {ref});
      assert st.refs == Now().mounts[v].refs == left;
      if st.refs != map[] {
        var dropped := DropStaleRefs(v, st, now, inUse);
        if !dropped {
          return;
        }
      }
      assert Now() == L.SetRefs(was, v, map[]);
      if linger > 0 && synced {
        ScheduleTeardown(v, st);
      } else {
        var _ := Teardown(v, st, env);
      }
    }

    /** driver.Remove, from the answer of the array on; released as in Lifecycle.Removed. */
    method Remove(v: Volume, found: Lookup, inUse: Option<bool>, env: TearEnv, released: bool) returns (ok: bool)
      requires Ok()
      modifies this, states
      ensures Ok() && Now() == Removed(old(Now()), v, found, inUse, End(env), released)
      ensures ok <==>
        || found == Gone
        || (&& found == Live && released
            && (old(v in mounts) ==>
                  old(RefsFor(v)) == map[] && inUse == Some(false) && env == TearEnv(true, true, true, true, true, true)))
    {
      RemovedValid(Now(), v, found, inUse, End(env), released, Cfg());
      if found != Live {
        if found == Gone {
          CancelKeep(v);
        }
        return found == Gone;
      }
      if v in mounts {
        var st := mounts[v];
        if st.refs != map[] || inUse != Some(false) {
          return false;
        }
        CancelTeardown(v, st);
        var end := Teardown(v, st, env);
        if end != Untracked(true) {
          return false;
        }
      }
      if !released {
        return false;
      }
      CancelKeep(v);
      return true;
    }

    /** driver.lingerExpired; st is the mountState the timer was armed for. */
    method LingerExpired(v: Volume, st: MountState, gen: nat, inUse: Option<bool>, env: TearEnv)
      requires Ok() && st in states
      modifies this, states
      ensures Ok() && Now() == LingerFired(old(Now()), v, st.id, gen, inUse, End(env))
    {
      LingerFiredValid(Now(), v, st.id, gen, inUse, End(env), Cfg());
      if closing || v !in mounts || mounts[v] != st || st.gen != gen || st.refs != map[] {
        return;
      }
      Disarm(v, st);
      if inUse != Some(false) {
        ScheduleTeardown(v, st);
        return;
      }
      var end := Teardown(v, st, env);
      if end != Untracked(true) && v in mounts && mounts[v] == st {
        ScheduleTeardown(v, st);
      }
    }

    method Disarm(v: Volume, st: MountState)
      requires Apart() && v in mounts && mounts[v] == st
      modifies st`armed
      ensures Apart() && Now() == L.Disarm(old(Now()), v)
    {
      st.armed := false;
      assert Mounts() == old(Mounts())[v := st.Value()];
    }

    /** driver.keepExpired. */
    method KeepExpired(v: Volume, gen: nat, released: bool)
      requires Ok()
      modifies this, states
      ensures Ok() && Now() == KeepFired(old(Now()), v, gen, released, Cfg())
    {
      KeepFiredValid(Now(), v, gen, released, Cfg());
      var current := v in pending && pending[v].gen == gen && !closing;
      if current {
        CancelKeep(v);
      }
      if !current || v in mounts {
        return;
      }
      if !released {
        var _ := KeepAttached(v);
      }
    }

    /** One volume's turn in driver.Shutdown. */
    method ShutDownOne(v: Volume, inUse: Option<bool>, env: TearEnv)
      requires Ok()
      modifies this, states
      ensures Ok() && Now() == L.ShutDownOne(old(Now()), v, inUse, End(env))
      ensures states == old(states)
    {
      ShutDownOneValid(Now(), v, inUse, End(env), Cfg());
      if v in mounts && mounts[v].refs == map[] {
        var st := mounts[v];
        CancelTeardown(v, st);
        if inUse == Some(false) {
          var _ := Teardown(v, st, env);
        }
      }
    }

    method Close()
      requires Ok()
      modifies this`closing
      ensures Ok() && Now() == old(Now()).(closing := true)
    {
      ClosedValid(Now(), Cfg());
      closing := true;
      assert Mounts() == old(Mounts());
    }

    /** driver.Shutdown when it gets as far as the first `reached` of the idle volumes. */
    method Shutdown(inUse: Volume -> Option<bool>, env: Volume -> TearEnv, reached: nat)
      requires Ok()
      modifies this, states
      ensures Ok() && closing
      ensures exists left: set<Volume> {:trigger ShutFar(old(Now()), Now(), left, inUse, env)} ::
                ShutFar(old(Now()), Now(), left, inUse, env) && (|old(Idle())| <= reached ==> left == {})
    {
      var idle := Idle();
      ghost var was, total := Now(), |idle|;
      Close();
      var done := 0;
      while idle != {} && done < reached
        invariant Ok() && closing && states == old(states)
        invariant done + |idle| == total && ShutFar(was, Now(), idle, inUse, env)
      {
        var v :| v in idle;
        ShutStep(was, Now(), idle, v, inUse, env);
        ShutDownOne(v, inUse(v), env(v));
        idle := idle - {v};
        done := done + 1;
      }
    }

    function Idle(): (idle: set<Volume>)
      reads this, states
      requires mounts.Values <= states
      ensures forall v :: v in idle <==> v in mounts && mounts[v].refs == map[]
    {
      set v | v in mounts && mounts[v].refs == map[]
    }

    /** driver.recoverMounts on a driver just made, given the volumes found mounted: it tracks
        exactly those, without refs, and with a linger each has its timer. */
    method RecoverMounts(found: seq<Volume>)
      requires Ok() && mounts == map[] && pending == map[]
      modifies this, states
      ensures Ok() && Recovered(Now(), Names(found), linger > 0)
    {
      for i := 0 to |found|
        invariant Ok() && Recovered(Now(), Names(found[..i]), false)
        invariant fresh(states - old(states))
      {
        RecoveredOneMore(Now(), found, i);
        TrackValid(Now(), found[i], map[], Cfg());
        Track(found[i], map[]);
      }
      assert found[..|found|] == found;
      if linger > 0 {
        ArmAll(Names(found));
      }
    }

    method ArmNext(v: Volume, ghost found: set<Volume>, ghost done: set<Volume>)
      requires Ok() && ArmedSoFar(Now(), found, done) && v in found
      modifies this`timers, states
      ensures Ok() && ArmedSoFar(Now(), found, done + {v}) && states == old(states)
    {
      assert v in Now().mounts && mounts[v] in mounts.Values;
      ScheduleTeardownValid(Now(), v, Cfg());
      ArmedOneMore(Now(), found, done, v);
      ScheduleTeardown(v, mounts[v]);
    }

    method ArmAll(ghost found: set<Volume>)
      requires Ok() && Recovered(Now(), found, false)
      modifies this`timers, states
      ensures Ok() && Recovered(Now(), found, true)
    {
      var left := mounts.Keys;
      ghost var done: set<Volume> := {};
      assert left == Now().mounts.Keys;
      while left != {}
        invariant Shared(found, done, left)
        invariant Ok() && ArmedSoFar(Now(), found, done) && states == old(states)
        decreases |left|
      {
        var v :| v in left;
        OneMoreDone(found, done, left, v);
        ArmNext(v, found, done);
        done, left := done + {v}, left - {v};
      }
    }
  }
}
