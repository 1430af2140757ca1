/** internal/driver/driver.go, the attach and detach half: what the driver does to the array and
    the node's SCSI paths, one section of the transport's Exclusive lock at a time. */
module Attach {
  import opened Types
  import opened World
  import Iscsi
  import Membership

  /** driver.arrayPrefix: the part of a serial all volumes of one array share. */
  function ArrayPrefix(serial: Serial): string {
    if |serial| < 16 then serial else serial[..16]
  }

  /** prefix is what the serials of one array share: their first sixteen characters, or all of a shorter
      one. */
  predicate ArrayOf(prefix: string, serial: Serial) {
    prefix <= serial && |prefix| <= 16 && (|prefix| < 16 ==> prefix == serial)
  }

  lemma ArrayPrefixIs(prefix: string, serial: Serial)
    ensures ArrayOf(prefix, serial) <==> prefix == ArrayPrefix(serial)
  {
  }

  /** Everything the array maps to this host is one of its own volumes. */
  ghost predicate OneArray(prefix: string, luns: map<int, Serial>) {
    forall l | l in luns :: luns[l] != "" && ArrayOf(prefix, luns[l])
  }

  predicate SameArray(u: Serial, v: Serial) {
    |u| >= 16 && |v| >= 16 && u[..16] == v[..16]
  }

  ghost predicate AllOfArray(luns: map<int, Serial>, v: Serial) {
    forall l | l in luns :: SameArray(luns[l], v)
  }

  /** A path that claims a volume of v's array, on a LUN the array gives to another volume than that. */
  predicate Misleads(w: State, v: Serial, sd: Sd) {
    && sd in w.paths && w.paths[sd].id.Volume? && SameArray(w.paths[sd].id.serial, v)
    && w.paths[sd].lun in w.luns && w.luns[w.paths[sd].lun] != w.paths[sd].id.serial
  }

  lemma MisleadingIsCrossed(prefix: string, w: State, v: Serial, sd: Sd)
    requires ArrayOf(prefix, v)
    ensures Misleads(w, v, sd) ==> Crossed(prefix, w, sd)
    ensures |v| >= 16 && Crossed(prefix, w, sd) ==> Misleads(w, v, sd)
  {
  }

  /** A path of this array on a LUN the array gives to another volume than the path claims. */
  ghost predicate Crossed(prefix: string, w: State, sd: Sd) {
    && sd in w.paths && OfArray(prefix, w.paths[sd].id)
    && w.paths[sd].lun in w.luns && w.luns[w.paths[sd].lun] != w.paths[sd].id.serial
  }

  /** No path is crossed, but on the LUN of an attach whose rollback failed, or one that sweeps have
      missed. */
  ghost predicate NoneCrossed(prefix: string, w: State) {
    forall sd | Crossed(prefix, w, sd) :: w.paths[sd].inst in w.missed || w.paths[sd].lun in w.dirty
  }

  /** What every section keeps. */
  ghost predicate Sound(prefix: string, w: State) {
    Wf(w) && OneArray(prefix, w.luns) && NoneCrossed(prefix, w) && Iscsi.FreshBut(w, {})
  }

  /** Between two states of the log, every disconnect of this host found no path of the volume
      but ones that had just proved unreadable; none at all where everything reads. */
  ghost predicate DisconnectsBare(from: nat, log: seq<Event>, readable: bool) {
    forall i | from <= i < |log| && log[i].DisconnectTry? ::
      log[i].carrying <= log[i].unread && (readable ==> log[i].carrying == {})
  }

  /** p led there in a, or now leads to the volume or nowhere. */
  predicate ReachedIn(a: State, serial: Serial, p: Path, reach: Option<Serial>) {
    Iscsi.Home(reach, serial) || reach == Reach(a, p)
  }

  /** What a detach of serial that began in a may flush: paths of the volume, and its map with what was
      under it in a and not cut before. read: the array had told it the LUNs. */
  ghost predicate FlushAllowed(a: State, serial: Serial, read: bool, cut: set<Sd>, e: Event) {
    && (e.FlushPath? ==>
          && e.sd in Carrying(a, serial) && e.path == a.paths[e.sd]
          && ReachedIn(a, serial, e.path, e.reach) && (read ==> Iscsi.Home(e.reach, serial)))
    && (e.FlushMap? ==>
          && e.m == Volume(serial) && e.down.Keys <= Members(a, e.m) - cut
          && forall sd | sd in e.down :: sd in a.paths && ReachedIn(a, serial, a.paths[sd], e.down[sd]))
  }

  ghost predicate FlushSpec(a: State, serial: Serial, read: bool, cut: set<Sd>, log: seq<Event>, lo: nat) {
    forall i | lo <= i < |log| :: FlushAllowed(a, serial, read, cut, log[i])
  }

  /** Every path of the volume that led to another was cut before anything was flushed. */
  ghost predicate Thorough(a: State, serial: Serial, cut: set<Sd>) {
    forall sd | sd in Carrying(a, serial) && !Iscsi.OwnOrNothing(a, a.paths[sd], serial) :: sd in cut
  }

  /** Nothing such a detach may flush lands in another volume: the array told it the LUNs, or none of
      the volume's paths led to another; and no path left under the map did. */
  ghost predicate StaysHome(a: State, serial: Serial, read: bool, cut: set<Sd>) {
    (read || Iscsi.SafeToFlush(a, serial, None)) && Iscsi.MembersHome(a, serial, cut)
  }

  lemma HomeFlushes(a: State, serial: Serial, read: bool, cut: set<Sd>, log: seq<Event>, lo: nat)
    requires FlushSpec(a, serial, read, cut, log, lo) && StaysHome(a, serial, read, cut)
    ensures Iscsi.FlushesOwn(log, lo, serial)
  {
    forall i | lo <= i < |log| ensures Iscsi.FlushesHome(log[i], serial) {
      assert FlushAllowed(a, serial, read, cut, log[i]);
    }
  }

  /** It is enough that the deletions of stale paths worked and nothing foreign was under the map. */
  lemma ThoroughStaysHome(a: State, serial: Serial, cut: set<Sd>)
    requires Thorough(a, serial, cut) && Iscsi.NoneForeign(a, serial)
    ensures StaysHome(a, serial, true, cut)
  {
  }

  ghost predicate NoFlushes(log: seq<Event>, lo: nat) {
    forall i | lo <= i < |log| :: !log[i].FlushPath? && !log[i].FlushMap?
  }

  /** Between two states of the log, every connect came after a sweep of the LUNs not in use, with
      no other since, which left no deleted path with multipathd. */
  ghost predicate ConnectsSwept(from: nat, log: seq<Event>) {
    forall i | from <= i < |log| && log[i].ConnectTry? ::
      exists j | from <= j < i :: log[j] == Swept(-1, false) && forall k | j < k < i :: !log[k].Swept?
  }

  ghost predicate NoConnects(from: nat, log: seq<Event>) {
    forall i | from <= i < |log| :: !log[i].ConnectTry?
  }

  lemma ConnectsSweptAround(from: nat, log0: seq<Event>, log1: seq<Event>, log2: seq<Event>)
    requires from <= |log0| && log0 <= log1 <= log2
    requires NoConnects(from, log0) && ConnectsSwept(|log0|, log1) && NoConnects(|log1|, log2)
    ensures ConnectsSwept(from, log2)
  {
  }

  /** How a release of this host's attachment ended. */
  datatype ReleaseResult = NoLock | DetachFailed | DisconnectFailed | Released

  /** The state a release of a leaves: nothing but things taken away, the volume's own paths only,
      and its connection only if no path of it that could be read is left. */
  ghost predicate ReleaseSpec(a: State, b: State, serial: Serial, r: ReleaseResult) {
    && Wf(b) && Iscsi.Fewer(a.(unread := {}), b) && (Iscsi.FreshBut(a, {}) ==> Iscsi.FreshBut(b, {}))
    && a.paths.Keys - b.paths.Keys <= Carrying(a, serial)
    && (r.Released? ==> serial !in b.luns.Values)
    && (r.Released? || r.DisconnectFailed? ==> CarryingDisks(b, serial) <= b.unread)
    && (r.Released? || r.DisconnectFailed? ==> b.orphans == a.orphans)
    && (r.NoLock? ==> b == a)
  }

  /** The state a section leaves that only tidies up; settled: multipathd holds nothing it deleted. */
  ghost predicate TidySpec(a: State, b: State, settled: bool) {
    && Wf(b) && Iscsi.Fewer(a.(unread := {}), b) && (Iscsi.FreshBut(a, {}) ==> Iscsi.FreshBut(b, {}))
    && (settled ==> b.orphans == a.orphans)
  }

  /** There is a volume to detach, multipathd could be asked for its map, and nothing holds that. */
  predicate Detachable(w: State, serial: Serial, mapsUnread: bool) {
    serial != "" && !(w.running && mapsUnread) && Volume(serial) !in w.held
  }

  /** driver.detachLocked. The caller holds the Exclusive lock. read: the array told it the LUNs; cut:
      the stale paths it deleted first. */
  method DetachLocked(h: Host, serial: Serial, mapsUnread: bool) returns (ok: bool, ghost read: bool, ghost cut: set<Sd>)
    requires Wf(h.w)
    modifies h`w, h`log
    ensures ReleaseSpec(old(h.w), h.w, serial, if ok then DisconnectFailed else DetachFailed)
    ensures h.calm && Detachable(old(h.w), serial, mapsUnread) ==> ok && Carrying(h.w, serial) == {}
    ensures h.calm && h.w.hostKnown ==> read
    ensures ok && h.w.unread == {} ==> Carrying(h.w, serial) == {}
    ensures h.calm || h.readable ==> h.w.unread == old(h.w).unread
    ensures old(h.log) <= h.log && FlushSpec(old(h.w), serial, read, cut, h.log, |old(h.log)|)
    ensures StaysHome(old(h.w), serial, read, cut) ==> Iscsi.FlushesOwn(h.log, |old(h.log)|, serial)
    ensures read && ok && h.w.unread == {} ==> Thorough(old(h.w), serial, cut)
    ensures h.calm && read && Detachable(old(h.w), serial, mapsUnread) ==> Thorough(old(h.w), serial, cut)
    ensures forall i | |old(h.log)| <= i < |h.log| :: Iscsi.DetachCommand(h.log[i])
  {
    ghost var a := h.w;
    var answer := h.HostLuns();
    read := answer.Luns?;
    ghost var b, lo: nat := h.w, |h.log|;
    var want := if answer.Luns? then Some(answer.luns) else None;
    ghost var t;
    ok, t := Iscsi.Detach(h, serial, want, mapsUnread, false);
    cut := t.cut;
    DetachFlushes(a, b, h.log, lo, serial, want, t);
    DetachReleases(a, b, h.w, serial, ok, t);
    if read && ((ok && h.w.unread == {}) || (h.calm && Detachable(a, serial, mapsUnread))) {
      DetachIsThorough(a, b, h.w, serial, ok, want, t, h.log, lo);
    }
    if StaysHome(a, serial, read, cut) {
      HomeFlushes(a, serial, read, cut, h.log, lo);
    }
  }

  lemma DetachIsThorough(a: State, b: State, c: State, serial: Serial, ok: bool, want: Option<map<int, Serial>>,
                         t: Iscsi.DetachTrace, log: seq<Event>, lo: nat)
    requires Disturbed(a, b) && Iscsi.DetachedState(b, c, serial, ok, t) && Iscsi.DetachedLog(b, log, lo, serial, want, t)
    requires want == Some(b.luns) && serial != ""
    requires t.cut == Iscsi.StaleOf(t).Keys && !t.untouched && (c.unread == {} || t.matched.Keys == Carrying(b, serial))
    ensures Thorough(a, serial, t.cut)
  {
    forall sd | sd in Carrying(a, serial) && !Iscsi.OwnOrNothing(a, a.paths[sd], serial) ensures sd in t.cut {
      assert sd in Carrying(b, serial) && sd in t.matched && t.matched[sd] == a.paths[sd];
      assert Iscsi.Get(b.luns, a.paths[sd].lun) != serial;
    }
  }

  /** The state a detach from b leaves, seen from a. */
  lemma DetachReleases(a: State, b: State, c: State, serial: Serial, ok: bool, t: Iscsi.DetachTrace)
    requires Disturbed(a, b) && Iscsi.DetachedState(b, c, serial, ok, t)
    ensures ReleaseSpec(a, c, serial, if ok then DisconnectFailed else DetachFailed)
    ensures ok && c.unread == {} ==> Carrying(c, serial) == {}
    ensures t.gone == Carrying(b, serial) ==> Carrying(c, serial) == {}
  {
    assert Iscsi.Fewer(a.(unread := {}), b) && (Iscsi.FreshBut(a, {}) ==> Iscsi.FreshBut(b, {}));
    Iscsi.FewerTransitive(a.(unread := {}), b, c);
    assert b.paths == a.paths && Carrying(a, serial) == Carrying(b, serial);
    assert forall sd | sd in Carrying(c, serial) :: c.paths[sd].inst in CarryingDisks(c, serial) && sd in Carrying(b, serial);
  }

  /** What a detach from b flushed, seen from the state a before the array was asked for its LUNs. */
  lemma DetachFlushes(a: State, b: State, log: seq<Event>, lo: nat, serial: Serial, want: Option<map<int, Serial>>,
                      t: Iscsi.DetachTrace)
    requires Iscsi.DetachedLog(b, log, lo, serial, want, t) && Disturbed(a, b) && (want.Some? ==> want.value == b.luns)
    ensures FlushSpec(a, serial, want.Some?, t.cut, log, lo)
    ensures forall i | lo <= i < |log| :: Iscsi.DetachCommand(log[i])
  {
    forall i | lo <= i < |log| ensures FlushAllowed(a, serial, want.Some?, t.cut, log[i]) {
      if log[i].FlushPath? {
        Iscsi.FlushesArePaths(b, log, lo, serial, want, t, i);
      } else if log[i].FlushMap? {
        Iscsi.FlushesTheMap(b, log, lo, serial, want, t, i);
      }
    }
    forall i | lo <= i < |log| ensures Iscsi.DetachCommand(log[i]) {
      Iscsi.DetachCommands(b, log, lo, serial, want, t, i);
    }
  }

  /** driver.rollbackLocked, and the section releaseHost runs: detach, and disconnect only if that
      worked. The caller holds the Exclusive lock. */
  method ReleaseLocked(h: Host, serial: Serial, mapsUnread: bool)
    returns (r: ReleaseResult, ghost read: bool, ghost cut: set<Sd>)
    requires Wf(h.w) && (h.calm || h.readable ==> h.w.unread == {})
    modifies h`w, h`log
    ensures ReleaseSpec(old(h.w), h.w, serial, r) && !r.NoLock?
    ensures h.calm && Detachable(old(h.w), serial, mapsUnread) ==>
      r.Released? && Carrying(h.w, serial) == {} && (h.w.hostKnown ==> read && Thorough(old(h.w), serial, cut))
    ensures h.calm || h.readable ==> h.w.unread == {}
    ensures old(h.log) <= h.log && DisconnectsBare(|old(h.log)|, h.log, h.readable)
    ensures FlushSpec(old(h.w), serial, read, cut, h.log, |old(h.log)|)
    ensures StaysHome(old(h.w), serial, read, cut) ==> Iscsi.FlushesOwn(h.log, |old(h.log)|, serial)
    ensures read && !r.DetachFailed? && h.w.unread == {} ==> Thorough(old(h.w), serial, cut)
    ensures r.DetachFailed? ==> forall i | |old(h.log)| <= i < |h.log| :: Iscsi.DetachCommand(h.log[i])
    ensures !r.DetachFailed? ==> |old(h.log)| < |h.log| && h.log[|h.log| - 1].DisconnectTry?
    ensures NoConnects(|old(h.log)|, h.log) && NoFilesystem(h.log, |old(h.log)|)
  {
    var detached;
    detached, read, cut := DetachLocked(h, serial, mapsUnread);
    if !detached {
      return DetachFailed, read, cut;
    }
    ghost var b := h.w;
    var ok := h.Disconnect(serial);
    assert Carrying(h.w, serial) == Carrying(b, serial);
    r := if ok then Released else DisconnectFailed;
  }

  /** driver.releaseHost and driver.rollbackAttach. gotLock: the wait for the Exclusive lock did
      not run out of time. */
  method ReleaseHost(h: Host, serial: Serial, gotLock: bool, mapsUnread: bool)
    returns (r: ReleaseResult, ghost read: bool, ghost cut: set<Sd>)
    requires Wf(h.w)
    modifies h`w, h`log
    ensures ReleaseSpec(old(h.w), h.w, serial, r) && (r.NoLock? <==> !gotLock)
    ensures h.calm && gotLock && Detachable(old(h.w), serial, mapsUnread) ==>
      r.Released? && Carrying(h.w, serial) == {} && (h.w.hostKnown ==> read && Thorough(old(h.w), serial, cut))
    ensures (h.calm || h.readable) && gotLock ==> h.w.unread == {}
    ensures old(h.log) <= h.log && DisconnectsBare(|old(h.log)|, h.log, h.readable)
    ensures FlushSpec(old(h.w), serial, read, cut, h.log, |old(h.log)|)
    ensures StaysHome(old(h.w), serial, read, cut) ==> Iscsi.FlushesOwn(h.log, |old(h.log)|, serial)
    ensures read && (r.Released? || r.DisconnectFailed?) && h.w.unread == {} ==> Thorough(old(h.w), serial, cut)
    ensures NoConnects(|old(h.log)|, h.log) && NoFilesystem(h.log, |old(h.log)|)
  {
    if !gotLock {
      return NoLock, false, {};
    }
    h.Begin();
    ghost var a := h.w;
    r, read, cut := ReleaseLocked(h, serial, mapsUnread);
    FlushesSameThere(old(h.w), a, serial, read, cut, h.log, |old(h.log)|);
  }

  /** Which reads have failed says nothing of flushes. */
  lemma FlushesSameThere(a: State, b: State, serial: Serial, read: bool, cut: set<Sd>, log: seq<Event>, lo: nat)
    requires b == a.(unread := b.unread)
    ensures FlushSpec(b, serial, read, cut, log, lo) ==> FlushSpec(a, serial, read, cut, log, lo)
    ensures StaysHome(a, serial, read, cut) ==> StaysHome(b, serial, read, cut)
    ensures Thorough(b, serial, cut) ==> Thorough(a, serial, cut)
  {
    assert Carrying(a, serial) == Carrying(b, serial);
  }

  /** One path of v, one of u, each leading to its own volume, and both under v's map. */
  predicate MapShared(a: State, v: Serial, u: Serial) {
    && a.running && v != u && v != "" && u != "" && ArrayOf(ArrayPrefix(v), u)
    && a.paths == map["sda" := Path(1, Volume(v), 0), "sdb" := Path(2, Volume(u), 1)]
    && a.luns == map[1 := v, 2 := u] && a.pathvec == map[] && a.maps == map[Volume(v) := {"sda", "sdb"}]
  }

  lemma SharedButSound(a: State, v: Serial, u: Serial)
    requires Wf(a) && MapShared(a, v, u)
    ensures Sound(ArrayPrefix(v), a) && Iscsi.SafeToFlush(a, v, Some(a.luns)) && Iscsi.SafeToFlush(a, v, None)
    ensures Carrying(a, v) == {"sda"} && Iscsi.StalePaths(a, v, Some(a.luns)) == {}
  {
  }

  lemma SharedDetached(a: State, b: State, v: Serial, u: Serial, t: Iscsi.DetachTrace)
    requires Wf(a) && MapShared(a, v, u) && b == a.(paths := a.paths - {"sda"}, maps := map[])
    requires !t.untouched && t.cut == Iscsi.StaleOf(t).Keys && t.gone == t.matched.Keys == {"sda"}
    ensures Iscsi.DetachedState(a, b, v, true, t)
  {
    assert Carrying(a, v) == {"sda"} && Carrying(b, v) == {};
  }

  /** Deleting what is stale does not help against a foreign path under the map: on this Sound node, with
      the array's list at hand, a detach that succeeds flushes the map with another volume's path under it. */
  lemma ForeignMemberFlushed(a: State, v: Serial, u: Serial) returns (b: State, log: seq<Event>, t: Iscsi.DetachTrace)
    requires Wf(a) && MapShared(a, v, u)
    ensures Sound(ArrayPrefix(v), a) && Iscsi.SafeToFlush(a, v, Some(a.luns)) && Iscsi.SafeToFlush(a, v, None)
    ensures Iscsi.DetachedLog(a, log, 0, v, Some(a.luns), t) && Iscsi.DetachedState(a, b, v, true, t)
    ensures exists i | 0 <= i < |log| :: log[i].FlushMap? && "sdb" in log[i].down && log[i].down["sdb"] == Some(u)
  {
    SharedButSound(a, v, u);
    b := a.(paths := a.paths - {"sda"}, maps := map[]);
    log, t := Iscsi.OneDetach(a, v, Some(a.luns), {}, Some("sda"));
    SharedDetached(a, b, v, u, t);
    assert "sdb" in Members(a, Volume(v)) && log[t.stales + 1].down["sdb"] == Some(u);
  }

  ghost predicate NoFilesystem(log: seq<Event>, lo: nat) {
    forall i | lo <= i < |log| :: !Iscsi.OnFilesystem(log[i])
  }

  /** How an attach ended. */
  datatype AttachResult =
    | LockTimeout | NoHostObject | NoLunMap | PathsHeld | ConnectFailed
    | Attached(lun: int)
    | RolledBack(lun: int, settled: bool)
    | RollbackFailed(lun: int, settled: bool) {
    /** No sweep or detach of the attach left a deleted path with multipathd. */
    predicate Settled() {
      match this
      case PathsHeld => false
      case RolledBack(_, settled) => settled
      case RollbackFailed(_, settled) => settled
      case _ => true
    }
  }

  /** Of the paths a complete sweep was to delete only left is left, and none on lun: every path
      that is crossed is one of these, or on a disk that could not be read. */
  ghost predicate CleanBut(prefix: string, w: State, left: set<Sd>) {
    forall sd | Crossed(prefix, w, sd) :: sd in left || w.paths[sd].inst in w.unread
  }

  /** b's missed and dirty are what a complete sweep that left these leaves of a's. */
  ghost predicate SweptDown(a: State, b: State, left: set<Sd>) {
    b == AfterSweep(b.(missed := a.missed, dirty := a.dirty), left)
  }

  /** The state an attach of serial to a leaves; left: the stale paths it could not delete. */
  ghost predicate AttachSpec(prefix: string, a: State, b: State, serial: Serial, r: AttachResult, left: set<Sd>) {
    && Wf(b) && (Iscsi.FreshBut(a, {}) ==> Iscsi.FreshBut(b, {}))
    && Iscsi.FewerPaths(a.(unread := {}), b.(missed := a.missed, dirty := a.dirty))
    && (r.Settled() ==> b.orphans == a.orphans)
    && match r
       case Attached(lun) =>
         && Submap(b.luns - {lun}, a.luns) && (lun in b.luns ==> b.luns[lun] == serial)
         && CleanBut(prefix, b, left) && (forall sd | sd in left && sd in b.paths :: b.paths[sd].lun != lun)
         && SweptDown(a, b, left)
       case RollbackFailed(lun, _) =>
         && Submap(b.luns - {lun}, a.luns) && (lun in b.luns ==> b.luns[lun] == serial)
         && b.dirty == a.dirty + {lun} && b.missed == a.missed
       case RolledBack(lun, _) =>
         Submap(b.luns, a.luns) && serial !in b.luns.Values && b.dirty == a.dirty && b.missed == a.missed
       case _ => Submap(b.luns, a.luns) && b.dirty == a.dirty && b.missed == a.missed
  }

  /** The last sweep there was covered every LUN and left no deleted path with multipathd. */
  ghost predicate FullySwept(from: nat, log: seq<Event>) {
    exists j | from <= j < |log| :: log[j] == Swept(-1, false) && forall k | j < k < |log| :: !log[k].Swept?
  }

  ghost predicate OnlyTidies(log: seq<Event>, lo: nat) {
    forall i | lo <= i < |log| :: !log[i].ConnectTry? && !log[i].DisconnectTry? && !log[i].FlushPath? && !log[i].FlushMap?
  }

  /** A sweep asks nothing of the array, flushes nothing, and is marked once in the log. */
  lemma SweepOnlyTidies(b: State, log: seq<Event>, lo: nat, t: Iscsi.SweepTrace)
    requires Iscsi.SweptLog(b, log, lo, t) && t.drops <= t.mark < |log| && log[t.mark].Swept?
    ensures OnlyTidies(log, lo) && (log[t.mark] == Swept(-1, false) ==> FullySwept(lo, log))
  {
  }

  /** No volume has the empty serial. */
  ghost predicate Named(luns: map<int, Serial>) {
    forall l | l in luns :: luns[l] != ""
  }

  /** What a complete sweep against the array's own list leaves: a path is crossed only if the sweep
      could not delete or read it; if it met no trouble on its own LUN, none of the former there. */
  lemma SweptLunIsClean(prefix: string, a: State, b: State, lun: int, crossedOnly: bool, r: Iscsi.SweepResult,
                        t: Iscsi.SweepTrace)
    requires Iscsi.SweptState(a, b, a.luns, prefix, lun, crossedOnly, r, t) && (!crossedOnly || Named(a.luns))
    ensures CleanBut(prefix, b, r.left)
    ensures r.undeleted == {} ==> forall sd | sd in r.left && sd in b.paths :: b.paths[sd].lun != lun
  {
    forall sd | Crossed(prefix, b, sd)
      ensures sd in r.left || b.paths[sd].inst in b.unread
    {
      assert sd in a.paths && b.paths[sd] == a.paths[sd] && b.luns[b.paths[sd].lun] == a.luns[b.paths[sd].lun];
      assert Iscsi.IsStale(a.luns, prefix, crossedOnly, a.paths[sd]);
    }
    forall sd | r.undeleted == {} && sd in r.left && sd in b.paths
      ensures b.paths[sd].lun != lun
    {
      assert sd in a.paths && a.paths[sd] == t.stale[sd] == b.paths[sd];
      assert t.stale[sd].lun == lun ==> sd in r.undeleted;
    }
  }

  /** Sweep with the list the array has just given. */
  method SweepNow(h: Host, want: map<int, Serial>, prefix: string, ownLun: int, crossedOnly: bool)
    returns (r: Iscsi.SweepResult)
    requires Wf(h.w) && want == h.w.luns
    modifies h`w, h`log
    ensures Wf(h.w) && Iscsi.Fewer(old(h.w), h.w) && (Iscsi.FreshBut(old(h.w), {}) ==> Iscsi.FreshBut(h.w, {}))
    ensures old(h.log) <= h.log && OnlyTidies(h.log, |old(h.log)|)
    ensures !r.held ==> h.w.orphans == old(h.w).orphans
    ensures !crossedOnly || Named(want) ==> CleanBut(prefix, h.w, r.left)
    ensures r.undeleted == {} && (!crossedOnly || Named(want)) ==>
      forall sd | sd in r.left && sd in h.w.paths :: h.w.paths[sd].lun != ownLun
    ensures Named(want) ==> Iscsi.CutsNothingLive(h.log, |old(h.log)|, |h.log|)
    ensures r.left <= Iscsi.Attempted(h.log, |old(h.log)|, |h.log|)
    ensures ownLun == -1 && !r.held ==> FullySwept(|old(h.log)|, h.log)
    ensures h.calm || h.readable ==> h.w.unread == old(h.w).unread
    ensures h.calm ==> r.Ok() && r.left == {}
    ensures h.calm && old(h.w).running ==> forall serial: Serial | prefix <= serial :: Filed(h.w, serial)
    ensures Iscsi.OnlyOwnLeft(h.w, want, prefix, crossedOnly, r.left) && (h.quiet ==> h.w.luns == want)
  {
    ghost var a, lo: nat := h.w, |h.log|;
    ghost var t;
    r, t := Iscsi.Sweep(h, want, prefix, ownLun, crossedOnly, false);
    SweepOnlyTidies(a, h.log, lo, t);
    if t.clean {
      forall serial: Serial | prefix <= serial ensures Filed(h.w, serial) {
        CleanIsFiled(h.w, prefix, serial);
      }
    }
    if !crossedOnly || Named(want) {
      SweptLunIsClean(prefix, a, h.w, ownLun, crossedOnly, r, t);
    }
  }

  /** connectSwept up to the connect: None to go on, or why not. want: the LUNs the array told; left: the
      paths that could not be deleted. */
  method SweepBeforeConnect(h: Host, prefix: string)
    returns (stop: Option<AttachResult>, ghost want: map<int, Serial>, ghost left: set<Sd>)
    requires Wf(h.w)
    modifies h`w, h`log
    ensures Wf(h.w) && Iscsi.FewerPaths(old(h.w), h.w) && Submap(h.w.luns, old(h.w.luns))
    ensures Iscsi.FreshBut(old(h.w), {}) ==> Iscsi.FreshBut(h.w, {})
    ensures stop.Some? ==> stop.value in {NoHostObject, NoLunMap, PathsHeld}
    ensures old(h.log) <= h.log && OnlyTidies(h.log, |old(h.log)|)
    ensures stop != Some(PathsHeld) ==> h.w.orphans == old(h.w).orphans
    ensures stop.None? ==> FullySwept(|old(h.log)|, h.log)
    ensures h.calm || h.readable ==> h.w.unread == old(h.w).unread
    ensures h.calm ==> stop.None? || (stop == Some(NoLunMap) && !h.w.hostKnown && !h.quiet)
    ensures h.calm && stop.None? ==> forall sd | Crossed(prefix, h.w, sd) :: h.w.paths[sd].inst in h.w.unread
    ensures h.calm && old(h.w).running && stop.None? ==> forall serial: Serial | prefix <= serial :: Filed(h.w, serial)
    ensures stop.None? ==> Submap(h.w.luns, want) && Iscsi.OnlyOwnLeft(h.w, want, prefix, false, left)
    ensures stop.None? ==> (h.quiet ==> h.w.luns == want) && (h.calm ==> left == {})
  {
    want, left := map[], {};
    var answer := h.HostLuns();
    if answer.NoHost? {
      var found := h.EnsureHost();
      if !found {
        return Some(NoHostObject), want, left;
      }
      answer := h.HostLuns();
    }
    if !answer.Luns? {
      return Some(NoLunMap), want, left;
    }
    var r := SweepNow(h, answer.luns, prefix, -1, false);
    return if r.held then Some(PathsHeld) else None, answer.luns, r.left;
  }

  /** How things stand between the connect that gave lun and the end of an attach to a. */
  ghost predicate Connected(a: State, w: State, serial: Serial, lun: int) {
    && Wf(w) && (Iscsi.FreshBut(a, {}) ==> Iscsi.FreshBut(w, {}))
    && Iscsi.FewerPaths(a.(unread := {}), w)
    && Submap(w.luns - {lun}, a.luns) && (lun in w.luns ==> w.luns[lun] == serial)
  }

  lemma StillConnected(a: State, b: State, c: State, serial: Serial, lun: int)
    requires Connected(a, b, serial, lun) && Wf(c) && Iscsi.Fewer(b.(unread := {}), c)
    requires Iscsi.FreshBut(b, {}) ==> Iscsi.FreshBut(c, {})
    ensures Connected(a, c, serial, lun)
    ensures serial !in c.luns.Values ==> Submap(c.luns, a.luns)
  {
    forall l | l in c.luns - {lun}
      ensures l in a.luns && c.luns[l] == a.luns[l]
    {
      assert l in b.luns - {lun};
    }
    if serial !in c.luns.Values {
      forall l | l in c.luns
        ensures l in a.luns && c.luns[l] == a.luns[l]
      {
        assert c.luns[l] in c.luns.Values;
        assert l in b.luns - {lun};
      }
    }
  }

  /** The paths under the volume's map claim to be its own, if they show an identity at all. */
  ghost predicate Filed(w: State, serial: Serial) {
    forall sd | sd in Members(w, Volume(serial)) :: sd in w.paths && ShowsNoOther(w.paths[sd], serial)
  }

  predicate ShowsNoOther(p: Path, serial: Serial) {
    p.id == Volume(serial) || p.id.Unnamed?
  }

  lemma CleanIsFiled(w: State, prefix: string, serial: Serial)
    requires Wf(w) && Membership.ToRefile(w, prefix) == {} && prefix <= serial
    ensures Filed(w, serial)
  {
    var m := Volume(serial);
    forall sd | sd in Members(w, m) ensures sd in w.paths && ShowsNoOther(w.paths[sd], serial) {
      assert m in Membership.Place(w, sd).maps;
      assert sd !in Membership.ToRefile(w, prefix);
      assert m !in Membership.ForeignMaps(Membership.KernelWwid(w, sd), Membership.Place(w, sd));
    }
  }

  /** What the rollback of an attach to a may flush. filed: the map was; thorough: the array told it the
      LUNs and all stale paths were deleted first. */
  ghost predicate RollbackFlushAllowed(a: State, serial: Serial, filed: bool, thorough: bool, e: Event) {
    && (e.FlushPath? ==>
          && e.sd in Carrying(a, serial) && e.path == a.paths[e.sd]
          && ReachedIn(a, serial, e.path, e.reach) && (thorough ==> Iscsi.Home(e.reach, serial)))
    && (e.FlushMap? ==>
          && e.m == Volume(serial)
          && forall sd | sd in e.down :: sd in a.paths && MemberAllowed(a, serial, filed, thorough, a.paths[sd], e.down[sd]))
  }

  predicate MemberAllowed(a: State, serial: Serial, filed: bool, thorough: bool, p: Path, reach: Option<Serial>) {
    && ReachedIn(a, serial, p, reach) && (filed ==> ShowsNoOther(p, serial))
    && (thorough && p.id == Volume(serial) ==> Iscsi.Home(reach, serial))
  }

  ghost predicate RollbackFlushes(a: State, serial: Serial, filed: bool, thorough: bool, log: seq<Event>, lo: nat) {
    forall i | lo <= i < |log| :: RollbackFlushAllowed(a, serial, filed, thorough, log[i])
  }

  /** With both, and every disk showing its identity, none of it lands in another volume. */
  lemma RollbackFlushesHome(a: State, serial: Serial, log: seq<Event>, lo: nat)
    requires RollbackFlushes(a, serial, true, true, log, lo)
    requires forall sd | sd in a.paths :: !a.paths[sd].id.Unnamed?
    ensures Iscsi.FlushesOwn(log, lo, serial)
  {
    forall i | lo <= i < |log| ensures Iscsi.FlushesHome(log[i], serial) {
      assert RollbackFlushAllowed(a, serial, true, true, log[i]);
    }
  }

  /** What is flushed after the connect that gave lun, seen from before it. */
  lemma FlushedSince(a: State, w: State, serial: Serial, lun: int, read: bool, cut: set<Sd>, thorough: bool,
                     log: seq<Event>, lo: nat)
    requires Connected(a, w, serial, lun) && FlushSpec(w, serial, read, cut, log, lo)
    requires thorough ==> read && Thorough(w, serial, cut)
    ensures RollbackFlushes(a, serial, Filed(w, serial), thorough, log, lo)
  {
    forall i | lo <= i < |log|
      ensures RollbackFlushAllowed(a, serial, Filed(w, serial), thorough, log[i])
    {
      assert FlushAllowed(w, serial, read, cut, log[i]);
      if log[i].FlushPath? {
        ReachedSince(a, w, serial, lun, log[i].path, log[i].reach);
      } else if log[i].FlushMap? {
        forall sd | sd in log[i].down
          ensures sd in a.paths && MemberAllowed(a, serial, Filed(w, serial), thorough, a.paths[sd], log[i].down[sd])
        {
          assert a.paths[sd] == w.paths[sd] && sd in Members(w, Volume(serial)) && sd !in cut;
          ReachedSince(a, w, serial, lun, w.paths[sd], log[i].down[sd]);
        }
      }
    }
  }

  lemma ReachedSince(a: State, w: State, serial: Serial, lun: int, p: Path, reach: Option<Serial>)
    requires Connected(a, w, serial, lun) && ReachedIn(w, serial, p, reach)
    ensures ReachedIn(a, serial, p, reach)
  {
    assert p.lun != lun && p.lun in w.luns ==> p.lun in w.luns - {lun};
  }

  /** The state a rollback leaves, seen from before the connect. */
  lemma RolledBackSince(prefix: string, a: State, b: State, c: State, serial: Serial, lun: int, held: bool, r: ReleaseResult)
    requires Connected(a, b, serial, lun) && ReleaseSpec(b, c, serial, r) && (!held ==> b.orphans == a.orphans)
    ensures r.Released? ==> AttachSpec(prefix, a, c, serial, RolledBack(lun, !held), {})
    ensures !r.Released? && !r.NoLock? ==>
      AttachSpec(prefix, a, c.(dirty := c.dirty + {lun}), serial, RollbackFailed(lun, !held && !r.DetachFailed?), {})
  {
    StillConnected(a, b, c, serial, lun);
  }

  /** driver.rollbackLocked, as connectSwept uses it. read: the array told it the LUNs. */
  method RollBack(h: Host, prefix: string, serial: Serial, lun: int, held: bool, mapsUnread: bool, ghost a: State)
    returns (r: AttachResult, ghost read: bool)
    requires Connected(a, h.w, serial, lun) && (!held ==> h.w.orphans == a.orphans)
    requires h.calm || h.readable ==> h.w.unread == {}
    modifies h`w, h`log
    ensures AttachSpec(prefix, a, h.w, serial, r, {}) && (r.RolledBack? || r.RollbackFailed?) && r.lun == lun
    ensures h.calm && Detachable(old(h.w), serial, mapsUnread) ==> r.RolledBack? && (h.w.hostKnown ==> read)
    ensures h.calm || h.readable ==> h.w.unread == {}
    ensures h.w.hostKnown ==> old(h.w).hostKnown
    ensures old(h.log) <= h.log && NoConnects(|old(h.log)|, h.log)
    ensures DisconnectsBare(|old(h.log)|, h.log, h.readable)
    ensures RollbackFlushes(a, serial, Filed(old(h.w), serial), read && r.RolledBack? && h.w.unread == {}, h.log, |old(h.log)|)
  {
    var released;
    ghost var cut;
    released, read, cut := ReleaseLocked(h, serial, mapsUnread);
    ghost var thorough := read && released.Released? && h.w.unread == {};
    FlushedSince(a, old(h.w), serial, lun, read, cut, thorough, h.log, |old(h.log)|);
    RolledBackSince(prefix, a, old(h.w), h.w, serial, lun, held, released);
    if released.Released? {
      return RolledBack(lun, !held), read;
    }
    ghost var log := h.log;
    h.NoteDirty(lun);
    assert h.log == log;
    return RollbackFailed(lun, !held && !released.DetachFailed?), read;
  }

  /** connectSwept's sweep after the connect that gave lun; a is the state before it. */
  method SweepOwnLun(h: Host, prefix: string, serial: Serial, lun: int, ghost a: State)
    returns (ok: bool, held: bool, left: set<Sd>)
    requires Connected(a, h.w, serial, lun) && (h.calm || h.readable ==> h.w.unread == {}) && prefix <= serial
    modifies h`w, h`log
    ensures Connected(a, h.w, serial, lun) && (h.calm || h.readable ==> h.w.unread == {})
    ensures ok ==> CleanBut(prefix, h.w, left) && !held && forall sd | sd in left && sd in h.w.paths :: h.w.paths[sd].lun != lun
    ensures !held ==> h.w.orphans == old(h.w).orphans
    ensures h.calm ==> left == {} && (ok || !h.w.hostKnown)
    ensures h.calm && old(h.w).running && Filed(old(h.w), serial) ==> Filed(h.w, serial)
    ensures h.w.held == old(h.w).held && h.w.running == old(h.w).running && (h.w.hostKnown ==> old(h.w).hostKnown)
    ensures old(h.log) <= h.log && OnlyTidies(h.log, |old(h.log)|)
    ensures ok && h.quiet ==> Iscsi.OnlyOwnLeft(h.w, h.w.luns, prefix, false, left)
  {
    left := {};
    var answer := h.HostLuns();
    ghost var b := h.w;
    StillConnected(a, old(h.w), b, serial, lun);
    if !answer.Luns? {
      return false, false, left;
    }
    var swept := SweepNow(h, answer.luns, prefix, lun, false);
    StillConnected(a, b, h.w, serial, lun);
    return swept.Ok(), swept.held, swept.left;
  }

  /** connectSwept after the connect that gave lun; a is the state before it. filed: when it was rolled
      back, if it was, the map was filed. */
  method SweepAfterConnect(h: Host, prefix: string, serial: Serial, lun: int, mapsUnread: bool, ghost a: State)
    returns (r: AttachResult, left: set<Sd>, ghost filed: bool, ghost read: bool)
    requires Connected(a, h.w, serial, lun) && h.w.orphans == a.orphans && (h.calm || h.readable ==> h.w.unread == {})
    requires prefix <= serial
    modifies h`w, h`log
    ensures AttachSpec(prefix, a, h.w, serial, r, left)
    ensures (r.Attached? || r.RolledBack? || r.RollbackFailed?) && r.lun == lun
    ensures h.calm && Detachable(old(h.w), serial, mapsUnread) ==> !r.RollbackFailed? && (h.w.hostKnown ==> r.Attached?)
    ensures h.calm ==> left == {}
    ensures h.calm || h.readable ==> h.w.unread == {}
    ensures h.calm && old(h.w).running && Filed(old(h.w), serial) ==> filed
    ensures old(h.log) <= h.log && NoConnects(|old(h.log)|, h.log)
    ensures DisconnectsBare(|old(h.log)|, h.log, h.readable)
    ensures RollbackFlushes(a, serial, filed, read && r.RolledBack? && h.w.unread == {}, h.log, |old(h.log)|)
    ensures r.Attached? && h.quiet ==> Iscsi.OnlyOwnLeft(h.w, h.w.luns, prefix, false, left)
  {
    var ok, held;
    ok, held, left := SweepOwnLun(h, prefix, serial, lun, a);
    filed, read := Filed(h.w, serial), true;
    if ok {
      h.NoteLeft(left);
      return Attached(lun), left, true, true;
    }
    left := {};
    ghost var swept := h.log;
    r, read := RollBack(h, prefix, serial, lun, held, mapsUnread, a);
    Longer(old(h.log), swept, h.log);
    RollbackSameThere(a, a, serial, filed, read && r.RolledBack? && h.w.unread == {}, h.log, |old(h.log)|, |swept|);
  }

  lemma SweptThenConnected(from: nat, swept: seq<Event>, log: seq<Event>)
    requires from <= |swept| < |log| && swept <= log && FullySwept(from, swept)
    requires log[|swept|].ConnectTry?
    requires forall i | from <= i < |log| && i != |swept| :: !log[i].ConnectTry?
    ensures ConnectsSwept(from, log)
  {
  }

  /** The node is swept for an attach to a, and all deleted paths forgotten. */
  ghost predicate Ready(a: State, w: State) {
    && Wf(w) && Iscsi.FewerPaths(a.(unread := {}), w) && Submap(w.luns, a.luns)
    && (Iscsi.FreshBut(a, {}) ==> Iscsi.FreshBut(w, {})) && w.orphans == a.orphans
  }

  lemma JustConnected(prefix: string, a: State, b: State, c: State, serial: Serial, lun: Option<int>)
    requires Ready(a, b) && Wf(c) && c == b.(luns := c.luns, hostKnown := c.hostKnown)
    requires if lun.None? then Submap(c.luns, b.luns)
             else Submap(c.luns - {lun.value}, b.luns) && lun.value in c.luns && c.luns[lun.value] == serial
    ensures if lun.None? then AttachSpec(prefix, a, c, serial, ConnectFailed, {}) else Connected(a, c, serial, lun.value)
  {
  }

  /** connectSwept once the node is swept; a is the state before. */
  method ConnectAndSweep(h: Host, prefix: string, serial: Serial, mapsUnread: bool, ghost a: State)
    returns (r: AttachResult, left: set<Sd>, ghost filed: bool, ghost read: bool)
    requires Ready(a, h.w) && (h.calm || h.readable ==> h.w.unread == {}) && prefix <= serial
    modifies h`w, h`log
    ensures AttachSpec(prefix, a, h.w, serial, r, left)
    ensures r.ConnectFailed? || r.Attached? || r.RolledBack? || r.RollbackFailed?
    ensures h.calm && Detachable(old(h.w), serial, mapsUnread) ==> !r.RollbackFailed? && (h.w.hostKnown ==> r.Attached?)
    ensures h.calm ==> left == {}
    ensures h.calm || h.readable ==> h.w.unread == {}
    ensures h.calm && old(h.w).running && Filed(old(h.w), serial) ==> filed
    ensures old(h.log) < h.log && h.log[|old(h.log)|].ConnectTry? && NoConnects(|old(h.log)| + 1, h.log)
    ensures DisconnectsBare(|old(h.log)|, h.log, h.readable)
    ensures RollbackFlushes(a, serial, filed, read && r.RolledBack? && h.w.unread == {}, h.log, |old(h.log)|)
    ensures r.Attached? && h.quiet ==> Iscsi.OnlyOwnLeft(h.w, h.w.luns, prefix, false, left)
  {
    var lun := h.Connect(serial);
    JustConnected(prefix, a, old(h.w), h.w, serial, lun);
    if lun.None? {
      return ConnectFailed, {}, true, true;
    }
    r, left, filed, read := SweepAfterConnect(h, prefix, serial, lun.value, mapsUnread, a);
  }

  /** What connectSwept does under Exclusive. */
  method SweepAndConnect(h: Host, prefix: string, serial: Serial, mapsUnread: bool)
    returns (r: AttachResult, left: set<Sd>, ghost filed: bool, ghost read: bool)
    requires Wf(h.w) && prefix <= serial
    modifies h`w, h`log
    ensures AttachSpec(prefix, old(h.w), h.w, serial, r, left) && !r.LockTimeout?
    ensures r.Attached? && h.quiet ==> Iscsi.OnlyOwnLeft(h.w, h.w.luns, prefix, false, left)
    ensures h.calm && Detachable(old(h.w), serial, mapsUnread) ==>
      !r.PathsHeld? && !r.NoHostObject? && !r.RollbackFailed? && (h.w.hostKnown ==> r.Attached?)
    ensures h.calm ==> left == {} && (r.NoLunMap? ==> !h.quiet)
    ensures h.calm || h.readable ==> h.w.unread == {}
    ensures h.calm && old(h.w).running ==> filed
    ensures old(h.log) <= h.log && ConnectsSwept(|old(h.log)|, h.log) && DisconnectsBare(|old(h.log)|, h.log, h.readable)
    ensures RollbackFlushes(old(h.w), serial, filed, read && r.RolledBack? && h.w.unread == {}, h.log, |old(h.log)|)
    ensures r.PathsHeld? || r.NoLunMap? || r.NoHostObject? ==> NoConnects(|old(h.log)|, h.log)
  {
    left, filed, read := {}, true, true;
    h.Begin();
    ghost var a := h.w;
    var stop, _, _ := SweepBeforeConnect(h, prefix);
    if stop.Some? {
      return stop.value, left, filed, read;
    }
    ghost var swept := h.log;
    r, left, filed, read := ConnectAndSweep(h, prefix, serial, mapsUnread, a);
    SweptThenConnected(|old(h.log)|, swept, h.log);
    RollbackSameThere(old(h.w), a, serial, filed, read && r.RolledBack? && h.w.unread == {}, h.log, |old(h.log)|, |swept|);
  }

  /** driver.connectSwept. Of the rollback, if there was one, filed: the volume's map was filed when it
      began; read: the array told it the LUNs. */
  method ConnectSwept(h: Host, serial: Serial, gotLock: bool, mapsUnread: bool)
    returns (r: AttachResult, left: set<Sd>, ghost filed: bool, ghost read: bool)
    requires Wf(h.w)
    modifies h`w, h`log
    ensures Wf(h.w) && forall prefix | ArrayOf(prefix, serial) :: AttachSpec(prefix, old(h.w), h.w, serial, r, left)
    ensures r.Attached? ==> forall sd | Misleads(h.w, serial, sd) :: sd in left || h.w.paths[sd].inst in h.w.unread
    ensures r.Attached? && h.quiet ==> forall sd, v |
      sd in h.w.paths && h.w.paths[sd].id == Volume(v) && SameArray(v, serial) ::
      Reach(h.w, h.w.paths[sd]) == Some(v) || sd in left || h.w.paths[sd].inst in h.w.unread
    ensures r.LockTimeout? <==> !gotLock
    ensures h.calm && gotLock && Detachable(old(h.w), serial, mapsUnread) ==>
      !r.PathsHeld? && !r.NoHostObject? && !r.RollbackFailed? && (h.w.hostKnown ==> r.Attached?)
    ensures h.calm ==> left == {} && (r.NoLunMap? ==> !h.quiet)
    ensures (h.calm || h.readable) && gotLock ==> h.w.unread == {}
    ensures h.calm && old(h.w).running ==> filed
    ensures r.LockTimeout? ==> h.w == old(h.w) && h.log == old(h.log)
    ensures old(h.log) <= h.log && ConnectsSwept(|old(h.log)|, h.log) && DisconnectsBare(|old(h.log)|, h.log, h.readable)
    ensures RollbackFlushes(old(h.w), serial, filed, read && r.RolledBack? && h.w.unread == {}, h.log, |old(h.log)|)
    ensures r.PathsHeld? || r.NoLunMap? || r.NoHostObject? ==> NoConnects(|old(h.log)|, h.log)
  {
    left, filed, read := {}, true, true;
    if !gotLock {
      r := LockTimeout;
    } else {
      r, left, filed, read := SweepAndConnect(h, ArrayPrefix(serial), serial, mapsUnread);
    }
    OnlyItsPrefix(old(h.w), h.w, serial, r, left);
    if r.Attached? && h.quiet {
      OwnPathsReach(h.w, serial, left);
    }
  }

  lemma OwnPathsReach(w: State, serial: Serial, left: set<Sd>)
    requires Iscsi.OnlyOwnLeft(w, w.luns, ArrayPrefix(serial), false, left)
    ensures forall sd, v | sd in w.paths && w.paths[sd].id == Volume(v) && SameArray(v, serial) ::
      Reach(w, w.paths[sd]) == Some(v) || sd in left || w.paths[sd].inst in w.unread
  {
  }

  /** What holds for the prefix the driver computes holds for whatever that is, and of the paths it means. */
  lemma OnlyItsPrefix(a: State, b: State, serial: Serial, r: AttachResult, left: set<Sd>)
    requires AttachSpec(ArrayPrefix(serial), a, b, serial, r, left)
    ensures forall prefix | ArrayOf(prefix, serial) :: AttachSpec(prefix, a, b, serial, r, left)
    ensures r.Attached? ==> forall sd | Misleads(b, serial, sd) :: sd in left || b.paths[sd].inst in b.unread
  {
    forall prefix | ArrayOf(prefix, serial) ensures prefix == ArrayPrefix(serial) {
      ArrayPrefixIs(prefix, serial);
    }
    forall sd | r.Attached? && Misleads(b, serial, sd) ensures sd in left || b.paths[sd].inst in b.unread {
      ArrayPrefixIs(ArrayPrefix(serial), serial);
      MisleadingIsCrossed(ArrayPrefix(serial), b, serial, sd);
    }
  }

  lemma RollbackSameThere(a: State, b: State, serial: Serial, filed: bool, thorough: bool, log: seq<Event>, lo: nat, from: nat)
    requires b == a.(unread := b.unread) && lo <= from && RollbackFlushes(b, serial, filed, thorough, log, from)
    requires forall i | lo <= i < from && i < |log| :: !log[i].FlushPath? && !log[i].FlushMap?
    ensures RollbackFlushes(a, serial, filed, thorough, log, lo)
  {
    assert Carrying(a, serial) == Carrying(b, serial);
    forall i | lo <= i < |log| ensures RollbackFlushAllowed(a, serial, filed, thorough, log[i]) {
      assert i >= from ==> RollbackFlushAllowed(b, serial, filed, thorough, log[i]);
    }
  }

  /** After an attach no path on its LUN is crossed exactly when every path there that claims another
      volume of the array could be read, and so was deleted. */
  lemma AttachedLunIsCleanIff(prefix: string, a: State, b: State, serial: Serial, lun: int, left: set<Sd>)
    requires AttachSpec(prefix, a, b, serial, Attached(lun), left) && lun in b.luns
    ensures (forall sd | Crossed(prefix, b, sd) :: b.paths[sd].lun != lun) <==>
            (forall sd | sd in b.paths && b.paths[sd].lun == lun && OfArray(prefix, b.paths[sd].id)
               && b.paths[sd].id != Volume(serial) :: b.paths[sd].inst !in b.unread)
  {
    forall sd | sd in b.paths && b.paths[sd].lun == lun && OfArray(prefix, b.paths[sd].id) && b.paths[sd].id != Volume(serial)
      ensures Crossed(prefix, b, sd)
    {
    }
  }

  /** Such a node: its one disk claims a volume that is gone, cannot be read, and is on the LUN the
      next volume gets. The attach succeeds all the same. */
  lemma UnreadableDiskStaysCrossed(a: State, v: Serial, next: Serial) returns (b: State)
    requires Wf(a) && v != next && v != "" && a.paths == map["sda" := Path(1, Volume(v), 0)] && a.luns == map[]
    requires a.pathvec == map[] && a.missed == {} && a.dirty == {} && a.hostKnown
    ensures Sound(ArrayPrefix(v), a)
    ensures AttachSpec(ArrayPrefix(v), a, b, next, Attached(1), {}) && Crossed(ArrayPrefix(v), b, "sda")
  {
    b := a.(luns := map[1 := next], unread := {0}, missed := {0});
  }

  /** How removing a leftover device went. */
  datatype LeftoverResult = StillConnectedHere | NothingThere | HeldByMount | LeftoverLockTimeout | NotRemoved | Removed

  /** What clearing a leftover comes to, by who says what: listed, whether the array said this host is
      connected (None: it could not be asked); busy, whether the kernel holds the device (None: it could
      not tell). shows: the device is sure to be looked up right. */
  predicate ClearedAs(w: State, serial: Serial, shows: bool, listed: Option<bool>, busy: Option<bool>, gotLock: bool,
                      r: Option<LeftoverResult>)
  {
    && (listed.None? ==> r.None?) && (r.None? ==> listed.None? || (listed == Some(false) && busy.None?))
    && (r == Some(StillConnectedHere) <==> listed == Some(true))
    && (r == Some(HeldByMount) ==> listed == Some(false) && busy == Some(true))
    && (r == Some(LeftoverLockTimeout) ==> listed == Some(false) && busy == Some(false) && !gotLock)
    && (r == Some(NotRemoved) || r == Some(Removed) ==> listed == Some(false) && busy == Some(false) && gotLock)
    && (shows && listed == Some(false) ==>
          if Volume(serial) !in w.maps then r == Some(NothingThere)
          else match busy
               case None => r == None
               case Some(true) => r == Some(HeldByMount)
               case Some(false) => if gotLock then r == Some(Removed) || r == Some(NotRemoved) else r == Some(LeftoverLockTimeout))
  }

  /** driver.clearLeftover. */
  method ClearLeftover(h: Host, serial: Serial, listed: Option<bool>, busy: Option<bool>, gotLock: bool, mapsUnread: bool)
    returns (r: Option<LeftoverResult>, ghost read: bool, ghost cut: set<Sd>)
    requires Wf(h.w)
    modifies h`w, h`log
    ensures ClearedAs(old(h.w), serial, h.calm && old(h.w).running, listed, busy, gotLock, r)
    ensures TidySpec(old(h.w), h.w, r != Some(NotRemoved))
    ensures r != Some(Removed) && r != Some(NotRemoved) ==> h.w == old(h.w) && h.log == old(h.log)
    ensures r == Some(Removed) ==> CarryingDisks(h.w, serial) <= h.w.unread
    ensures r == Some(Removed) && (h.calm || h.readable) ==> Carrying(h.w, serial) == {}
    ensures h.calm && Detachable(old(h.w), serial, mapsUnread) ==> r != Some(NotRemoved)
    ensures old(h.log) <= h.log && forall i | |old(h.log)| <= i < |h.log| :: Iscsi.DetachCommand(h.log[i])
    ensures FlushSpec(old(h.w), serial, read, cut, h.log, |old(h.log)|)
    ensures StaysHome(old(h.w), serial, read, cut) ==> Iscsi.FlushesOwn(h.log, |old(h.log)|, serial)
    ensures read && r != Some(NotRemoved) && h.w.unread == {} ==> Thorough(old(h.w), serial, cut)
  {
    read, cut := false, {};
    if listed.None? {
      return None, read, cut;
    } else if listed.value {
      return Some(StillConnectedHere), read, cut; // its device is no leftover
    }
    var dev := Iscsi.FindDevice(h, serial, false);
    if dev.None? {
      return Some(NothingThere), read, cut;
    } else if busy.None? {
      return None, read, cut;
    } else if busy.value {
      return Some(HeldByMount), read, cut;
    } else if !gotLock {
      return Some(LeftoverLockTimeout), read, cut;
    }
    h.Begin();
    ghost var a := h.w;
    var ok;
    ok, read, cut := DetachLocked(h, serial, mapsUnread);
    FlushesSameThere(old(h.w), a, serial, read, cut, h.log, |old(h.log)|);
    return Some(if ok then Removed else NotRemoved), read, cut;
  }

  /** The state a path check leaves. swept: it got as far as a sweep; settled: multipathd holds
      nothing it deleted; left: the crossed paths it could not delete. */
  ghost predicate PathCheckSpec(prefix: string, a: State, b: State, swept: bool, settled: bool, left: set<Sd>) {
    && Wf(b) && Iscsi.Fewer(a.(unread := {}), b.(missed := a.missed, dirty := a.dirty))
    && (Iscsi.FreshBut(a, {}) ==> Iscsi.FreshBut(b, {})) && (settled ==> b.orphans == a.orphans)
    && if swept then SweptDown(a, b, left) && CleanBut(prefix, b, left) else b.missed == a.missed && b.dirty == a.dirty
  }

  /** driver.checkPaths; stored is the array prefix known so far, "" if none. */
  method CheckPaths(h: Host, stored: string, gotLock: bool)
    returns (prefix: string, swept: bool, settled: bool, left: set<Sd>)
    requires Wf(h.w)
    modifies h`w, h`log
    ensures forall p | OneArray(p, old(h.w.luns)) :: PathCheckSpec(p, old(h.w), h.w, swept, settled, left)
    ensures prefix == stored || exists l | l in old(h.w).luns :: ArrayOf(prefix, old(h.w).luns[l])
    ensures !gotLock ==> h.w == old(h.w) && prefix == stored && !swept
    ensures !gotLock || prefix == "" ==> h.log == old(h.log)
    ensures swept ==> forall v, sd | AllOfArray(old(h.w).luns, v) && Misleads(h.w, v, sd) ::
      sd in left || h.w.paths[sd].inst in h.w.unread
    ensures old(h.log) <= h.log && NoConnects(|old(h.log)|, h.log) && NoFlushes(h.log, |old(h.log)|)
    ensures OneArray(prefix, old(h.w).luns) ==> Iscsi.CutsNothingLive(h.log, |old(h.log)|, |h.log|)
    ensures left <= Iscsi.Attempted(h.log, |old(h.log)|, |h.log|)
    ensures h.calm ==> settled && left == {} && (gotLock && h.w.hostKnown && prefix != "" ==> swept)
    ensures (h.calm || h.readable) && gotLock ==> h.w.unread == {}
  {
    prefix, swept, settled, left := stored, false, true, {};
    ghost var a := h.w;
    if !gotLock {
      return;
    }
    h.Begin();
    var answer := h.HostLuns();
    if !answer.Luns? {
      return;
    }
    if l :| l in answer.luns {
      prefix := ArrayPrefix(answer.luns[l]);
      ArrayPrefixIs(prefix, answer.luns[l]);
    }
    if prefix == "" {
      return; // no array has been seen so far
    }
    ghost var b := h.w;
    var r := SweepNow(h, answer.luns, prefix, -1, true);
    swept, settled, left := true, !r.held, r.left;
    CheckedForAll(a, b, h.w, prefix, settled, left);
    h.NoteLeft(left);
    NoneMisleads(a, h.w, settled, left);
  }

  lemma NoneMisleads(a: State, b: State, settled: bool, left: set<Sd>)
    requires forall p | OneArray(p, a.luns) :: PathCheckSpec(p, a, b, true, settled, left)
    ensures forall v, sd | AllOfArray(a.luns, v) && Misleads(b, v, sd) ::
              sd in left || b.paths[sd].inst in b.unread
  {
    forall v, sd | AllOfArray(a.luns, v) && Misleads(b, v, sd)
      ensures sd in left || b.paths[sd].inst in b.unread
    {
      assert OneArray(v[..16], a.luns);
      MisleadingIsCrossed(v[..16], b, v, sd);
    }
  }

  /** A sweep of b, which a became, leaves what it should whatever array's the volumes are: no array
      but one has volumes mapped here, and it is that one's paths that were judged. */
  lemma CheckedForAll(a: State, b: State, c: State, prefix: string, settled: bool, left: set<Sd>)
    requires Disturbed(a.(unread := {}), b) && Wf(c) && Iscsi.Fewer(b, c) && (settled ==> c.orphans == b.orphans)
    requires (Iscsi.FreshBut(b, {}) ==> Iscsi.FreshBut(c, {})) && (Named(b.luns) ==> CleanBut(prefix, c, left))
    requires forall l | l in b.luns :: exists k | k in b.luns :: ArrayOf(prefix, b.luns[k])
    ensures forall p | OneArray(p, a.luns) :: PathCheckSpec(p, a, AfterSweep(c, left), true, settled, left)
  {
    assert Iscsi.FreshBut(a, {}) ==> Iscsi.FreshBut(b, {});
    forall p | OneArray(p, a.luns) ensures CleanBut(p, AfterSweep(c, left), left) {
      CleanForAny(a.luns, b.luns, c, prefix, left, p);
    }
    PathsFewer(a, b, c, left);
  }

  lemma CleanForAny(luns: map<int, Serial>, listed: map<int, Serial>, c: State, prefix: string, left: set<Sd>, p: string)
    requires Submap(listed, luns) && OneArray(p, luns) && Wf(c) && Submap(c.luns, listed)
    requires Named(listed) ==> CleanBut(prefix, c, left)
    requires forall l | l in listed :: exists k | k in listed :: ArrayOf(prefix, listed[k])
    ensures CleanBut(p, AfterSweep(c, left), left)
  {
    assert forall l | l in listed :: l in luns && listed[l] == luns[l];
    assert CleanBut(p, c, left);
  }

  lemma PathsFewer(a: State, b: State, c: State, left: set<Sd>)
    requires Disturbed(a.(unread := {}), b) && Wf(c) && Iscsi.Fewer(b, c)
    ensures var d := AfterSweep(c, left); Wf(d) && SweptDown(a, d, left)
    ensures Iscsi.Fewer(a.(unread := {}), AfterSweep(c, left).(missed := a.missed, dirty := a.dirty))
  {
  }

  /** The device serves the volume: every path under it reaches that volume in the array's map. */
  ghost predicate Serves(w: State, d: Iscsi.Device, serial: Serial) {
    && Iscsi.PathsOf(w, d) != {}
    && forall sd | sd in Iscsi.PathsOf(w, d) :: sd in w.paths && Reach(w, w.paths[sd]) == Some(serial)
  }

  /** Every path under the device is on the LUN the array connected the volume at. */
  ghost predicate OnLun(w: State, d: Iscsi.Device, lun: int) {
    forall sd | sd in Iscsi.PathsOf(w, d) :: sd in w.paths && w.paths[sd].lun == lun
  }

  /** What a Mount meets that is not this driver's doing. */
  datatype Surroundings = Surroundings(
    listed: Option<bool>, busy: Option<bool>, leftoverLock: bool, attachLock: bool, rollbackLock: bool,
    mapsUnread: bool, keep: bool, mountedElsewhere: Option<bool>,
    formatted: bool, mounts: bool, unmounts: bool)

  datatype MountResult =
    | Refused
    | NotAttached(attach: AttachResult)
    | Kept(lun: int)
    | BackedOut(lun: int, release: ReleaseResult)
    | MountedElsewhere(lun: int)
    | StaysMounted(lun: int)
    | Mounted(lun: int, d: Iscsi.Device)

  /** driver.abandonMount: the filesystem is shut down before it is unmounted, and the volume is
      detached only once it is unmounted. */
  method AbandonMount(h: Host, serial: Serial, lun: int, s: Surroundings)
    returns (r: MountResult, ghost read: bool, ghost cut: set<Sd>)
    requires Wf(h.w)
    modifies h`w, h`log
    ensures r == StaysMounted(lun) || (r.BackedOut? && r.lun == lun)
    ensures r.StaysMounted? <==> !s.unmounts
    ensures r.StaysMounted? ==> h.w == old(h.w) && h.log == old(h.log) + [FsShutdown, FsUnmount(false)]
    ensures r.BackedOut? ==>
      && ReleaseSpec(old(h.w), h.w, serial, r.release) && (r.release.NoLock? <==> !s.rollbackLock)
      && old(h.log) + [FsShutdown, FsUnmount(true)] <= h.log
    ensures Wf(h.w) && DisconnectsBare(|old(h.log)|, h.log, h.readable) && NoConnects(|old(h.log)|, h.log)
    ensures FlushSpec(old(h.w), serial, read, cut, h.log, |old(h.log)|)
    ensures StaysHome(old(h.w), serial, read, cut) ==> Iscsi.FlushesOwn(h.log, |old(h.log)|, serial)
  {
    h.Note(FsShutdown);
    h.Note(FsUnmount(s.unmounts));
    if !s.unmounts {
      return StaysMounted(lun), false, {};
    }
    var released;
    released, read, cut := ReleaseHost(h, serial, s.rollbackLock, s.mapsUnread);
    return BackedOut(lun, released), read, cut;
  }

  /** The mounter does what it is asked, and the device is mounted nowhere else. */
  predicate Mountable(s: Surroundings) {
    s.mountedElsewhere == Some(false) && s.formatted && s.mounts
  }

  /** What backing out to the end leaves. */
  ghost predicate GoneFrom(w: State, serial: Serial) {
    serial !in w.luns.Values && CarryingDisks(w, serial) <= w.unread
  }

  /** How a mount of a device ends where nothing fails and nobody else acts: d is checked before anything
      else, and touched only if it is mounted nowhere. */
  ghost predicate EndsAs(w: State, d: Iscsi.Device, lun: int, s: Surroundings, r: MountResult) {
    if !Iscsi.Fit(w, d, lun) || s.mountedElsewhere.None? then r.BackedOut?
    else if s.mountedElsewhere.value then r.MountedElsewhere?
    else if s.formatted && s.mounts then r.Mounted?
    else r.BackedOut?
  }

  /** Where Mount is once it has found the device: checks, mounts and checks again. */
  method MountFound(h: Host, serial: Serial, lun: int, d: Iscsi.Device, s: Surroundings) returns (r: MountResult)
    requires Wf(h.w)
    modifies h`w, h`log
    ensures Wf(h.w) && old(h.log) <= h.log
    ensures DisconnectsBare(|old(h.log)|, h.log, h.readable) && NoConnects(|old(h.log)|, h.log)
    ensures r.Mounted? ==> r.d == d && r.lun == lun && h.log == old(h.log) + [FsFormat, FsMount] && Mountable(s)
    ensures r.Mounted? ==> OnLun(h.w, d, lun) && (h.calm || h.readable ==> Iscsi.Fit(h.w, d, lun))
    ensures r.Mounted? && lun in h.w.luns && h.w.luns[lun] == serial ==> Serves(h.w, d, serial)
    ensures h.calm && h.quiet ==> EndsAs(old(h.w), d, lun, s, r)
    ensures s.mountedElsewhere != Some(false) || (h.calm && !Iscsi.Fit(old(h.w), d, lun)) ==> NoFilesystem(h.log, |old(h.log)|)
    ensures (r.Mounted? || r.BackedOut? || r.StaysMounted? || r.MountedElsewhere?) && r.lun == lun
    ensures r.StaysMounted? ==> s.formatted && s.mounts && !s.unmounts
    ensures r.BackedOut? && r.release.Released? ==> GoneFrom(h.w, serial)
    ensures r.BackedOut? ==> (r.release.NoLock? <==> !s.rollbackLock)
    ensures r.MountedElsewhere? ==> s.mountedElsewhere == Some(true) && h.log == old(h.log)
  {
    var ok;
    ghost var named, unread;
    ok, named, unread := Iscsi.CheckLun(h, d, lun);
    if !ok || s.mountedElsewhere.None? {
      var released, _, _ := ReleaseHost(h, serial, s.rollbackLock, s.mapsUnread);
      return BackedOut(lun, released);
    } else if s.mountedElsewhere.value {
      return MountedElsewhere(lun);
    }
    r := MountChecked(h, serial, lun, d, s);
  }

  /** Mount from the formatting on. */
  method MountChecked(h: Host, serial: Serial, lun: int, d: Iscsi.Device, s: Surroundings) returns (r: MountResult)
    requires Wf(h.w) && s.mountedElsewhere == Some(false)
    modifies h`w, h`log
    ensures Wf(h.w) && old(h.log) <= h.log
    ensures DisconnectsBare(|old(h.log)|, h.log, h.readable) && NoConnects(|old(h.log)|, h.log)
    ensures r.Mounted? ==> r.d == d && h.log == old(h.log) + [FsFormat, FsMount] && s.formatted && s.mounts
    ensures forall i | |old(h.log)| <= i < |h.log| && h.log[i] == FsMount :: s.formatted
    ensures r.Mounted? ==> OnLun(h.w, d, lun) && (h.calm || h.readable ==> Iscsi.Fit(h.w, d, lun))
    ensures r.Mounted? && lun in h.w.luns && h.w.luns[lun] == serial ==> Serves(h.w, d, serial)
    ensures h.calm && h.quiet && Iscsi.Fit(old(h.w), d, lun) ==> if s.formatted && s.mounts then r.Mounted? else r.BackedOut?
    ensures (r.Mounted? || r.BackedOut? || r.StaysMounted?) && r.lun == lun
    ensures r.StaysMounted? ==> s.formatted && s.mounts && !s.unmounts
    ensures r.BackedOut? && r.release.Released? ==> GoneFrom(h.w, serial)
    ensures r.BackedOut? ==> (r.release.NoLock? <==> !s.rollbackLock)
  {
    h.Interleave();
    h.Note(FsFormat);
    if s.formatted {
      h.Note(FsMount);
    }
    if !s.formatted || !s.mounts {
      var released, _, _ := ReleaseHost(h, serial, s.rollbackLock, s.mapsUnread);
      return BackedOut(lun, released);
    }
    h.Interleave();
    var ok;
    ghost var named, unread;
    ok, named, unread := Iscsi.CheckLun(h, d, lun);
    if !ok {
      ghost var read, cut;
      r, read, cut := AbandonMount(h, serial, lun, s);
      return;
    }
    return Mounted(lun, d);
  }

  /** The volume's map is there, with paths. */
  predicate Appeared(w: State, serial: Serial) {
    Volume(serial) in w.maps && w.maps[Volume(serial)] != {}
  }

  /** Mount once the array has connected the volume at lun. */
  method MountAttached(h: Host, serial: Serial, lun: int, s: Surroundings) returns (r: MountResult)
    requires Wf(h.w)
    modifies h`w, h`log
    ensures Wf(h.w) && old(h.log) <= h.log
    ensures NoConnects(|old(h.log)|, h.log) && DisconnectsBare(|old(h.log)|, h.log, h.readable)
    ensures Reached(r) && r.lun == lun
    ensures r.Mounted? ==> OnLun(h.w, r.d, r.lun) && (h.calm || h.readable ==> Iscsi.Fit(h.w, r.d, r.lun))
    ensures r.Mounted? && r.lun in h.w.luns && h.w.luns[r.lun] == serial ==> Serves(h.w, r.d, serial)
    ensures h.calm && h.quiet && old(h.w).running ==>
      (r.Mounted? <==> Appeared(old(h.w), serial) && Iscsi.Fit(old(h.w), Iscsi.MapDev(Volume(serial)), lun) && Mountable(s))
    ensures r.Kept? ==> s.keep
    ensures h.calm && old(h.w).running && !Appeared(old(h.w), serial) ==>
      (if s.keep then r.Kept? else r.BackedOut?) && NoFilesystem(h.log, |old(h.log)|)
    ensures h.calm && h.quiet && old(h.w).running && Appeared(old(h.w), serial) ==>
      EndsAs(old(h.w), Iscsi.MapDev(Volume(serial)), lun, s, r)
    ensures r.BackedOut? && r.release.Released? ==> GoneFrom(h.w, serial)
  {
    var found := Iscsi.FindDevice(h, serial, true); // transport.WaitForDevice
    if found.None? && s.keep {
      return Kept(lun);
    } else if found.None? {
      var released, _, _ := ReleaseHost(h, serial, s.rollbackLock, s.mapsUnread);
      return BackedOut(lun, released);
    }
    h.Interleave();
    r := MountFound(h, serial, lun, found.value, s);
  }

  /** The mount got past its attach. */
  predicate Reached(r: MountResult) {
    !r.Refused? && !r.NotAttached?
  }

  /** The array knows this host and is asked in vain for nothing, no leftover is in use, locks are
      free, and the volume can be detached: nothing that keeps a mount from attaching. */
  predicate NothingInTheWay(w: State, serial: Serial, s: Surroundings) {
    && w.hostKnown && Detachable(w, serial, s.mapsUnread)
    && s.listed.Some? && s.busy == Some(false) && s.leftoverLock && s.attachLock
  }

  /** Mount from the attach on. before and after: the node around it; left: the stale paths it could
      not delete. */
  method MountCleared(h: Host, serial: Serial, s: Surroundings)
    returns (r: MountResult, ghost before: State, ghost after: State, left: set<Sd>)
    requires Wf(h.w)
    modifies h`w, h`log
    ensures Wf(h.w) && old(h.log) <= h.log
    ensures ConnectsSwept(|old(h.log)|, h.log) && DisconnectsBare(|old(h.log)|, h.log, h.readable)
    ensures Reached(r) || r.NotAttached?
    ensures r.NotAttached? ==> !r.attach.Attached?
    ensures h.quiet ==> before == old(h.w)
    ensures h.calm && s.attachLock && Detachable(before, serial, s.mapsUnread) && after.hostKnown ==> Reached(r)
    ensures Reached(r) ==> forall prefix | ArrayOf(prefix, serial) ::
      AttachSpec(prefix, before, after, serial, Attached(r.lun), left)
    ensures r.NotAttached? ==> h.w == after
    ensures h.calm && h.quiet && Reached(r) && after.running ==>
      (r.Mounted? <==> Appeared(after, serial) && Iscsi.Fit(after, Iscsi.MapDev(Volume(serial)), r.lun) && Mountable(s))
    ensures r.Mounted? ==> OnLun(h.w, r.d, r.lun) && (h.calm || h.readable ==> Iscsi.Fit(h.w, r.d, r.lun))
    ensures r.Mounted? && r.lun in h.w.luns && h.w.luns[r.lun] == serial ==> Serves(h.w, r.d, serial)
    ensures r.Kept? ==> s.keep
    ensures r.BackedOut? && r.release.Released? ==> GoneFrom(h.w, serial)
  {
    h.Interleave();
    before := h.w;
    var attach;
    ghost var filed, read;
    attach, left, filed, read := ConnectSwept(h, serial, s.attachLock, s.mapsUnread);
    after := h.w;
    ghost var log := h.log;
    if !attach.Attached? {
      return NotAttached(attach), before, after, left;
    }
    h.Interleave();
    r := MountAttached(h, serial, attach.lun, s);
    ConnectsSweptAround(|old(h.log)|, old(h.log), log, h.log);
  }

  /** driver.Mount from clearLeftover on, for a volume no other host holds. cleared: how that went; before
      and after: the node around the attach; left: the stale paths it could not delete. */
  method MountDevice(h: Host, serial: Serial, s: Surroundings)
    returns (r: MountResult, ghost cleared: Option<LeftoverResult>, ghost before: State, ghost after: State, left: set<Sd>)
    requires Wf(h.w)
    modifies h`w, h`log
    ensures Wf(h.w) && old(h.log) <= h.log
    ensures ConnectsSwept(|old(h.log)|, h.log) && DisconnectsBare(|old(h.log)|, h.log, h.readable)
    ensures ClearedAs(old(h.w), serial, h.calm && old(h.w).running, s.listed, s.busy, s.leftoverLock, cleared)
    ensures r.Refused? <==>
      cleared.None? || cleared == Some(HeldByMount) || cleared == Some(LeftoverLockTimeout) || cleared == Some(NotRemoved)
    ensures r.Refused? ==> NoConnects(|old(h.log)|, h.log) && TidySpec(old(h.w), h.w, cleared != Some(NotRemoved))
    ensures r.Refused? && cleared != Some(NotRemoved) ==> h.w == old(h.w) && h.log == old(h.log)
    ensures h.calm && old(h.w).running && Volume(serial) in old(h.w).maps && s.listed == Some(false) && s.busy == Some(true) ==>
      r.Refused? && h.w == old(h.w) && h.log == old(h.log)
    ensures r.NotAttached? ==> !r.attach.Attached?
    ensures h.calm && h.quiet && NothingInTheWay(old(h.w), serial, s) && h.w.hostKnown ==> Reached(r)
    ensures Reached(r) ==> forall prefix | ArrayOf(prefix, serial) ::
      AttachSpec(prefix, before, after, serial, Attached(r.lun), left)
    ensures h.quiet ==> TidySpec(old(h.w), before, false)
    ensures h.calm && h.quiet && Reached(r) && after.running ==>
      (r.Mounted? <==> Appeared(after, serial) && Iscsi.Fit(after, Iscsi.MapDev(Volume(serial)), r.lun) && Mountable(s))
    ensures r.Mounted? ==> OnLun(h.w, r.d, r.lun) && (h.calm || h.readable ==> Iscsi.Fit(h.w, r.d, r.lun))
    ensures r.Mounted? && r.lun in h.w.luns && h.w.luns[r.lun] == serial ==> Serves(h.w, r.d, serial)
    ensures r.Kept? ==> s.keep
    ensures r.BackedOut? && r.release.Released? ==> GoneFrom(h.w, serial)
  {
    before, after, left := h.w, h.w, {};
    var answer, _, _ := ClearLeftover(h, serial, s.listed, s.busy, s.leftoverLock, s.mapsUnread);
    cleared := answer;
    if answer.None? || answer.value in {HeldByMount, LeftoverLockTimeout, NotRemoved} {
      return Refused, cleared, h.w, h.w, left;
    }
    ghost var log := h.log;
    r, before, after, left := MountCleared(h, serial, s);
    ConnectsSweptAround(|old(h.log)|, log, h.log, h.log);
  }
}
