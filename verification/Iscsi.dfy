/** internal/transport/iscsi.go: Sweep, Detach and the device checks. */
module Iscsi {
  import opened Types
  import opened World
  import Membership

  /** Milliseconds: forgetWait and forgetPoll. */
  const FORGET_WAIT: int := 20_000
  const FORGET_POLL: int := 250

  /** Some moment from t on. */
  method Later(t: int) returns (now: int)
    ensures now >= t
  {
    now := *;
    if now < t {
      now := t;
    }
  }

  /** multipathd's records, or None when it cannot be asked. */
  method AskMultipathd(h: Host) returns (known: Option<set<Sd>>)
    requires Wf(h.w)
    modifies h`w
    ensures Wf(h.w) && MultipathdRan(old(h.w), h.w)
    ensures known.Some? ==> known.value == h.w.pathvec.Keys
    ensures h.calm ==> known.Some?
  {
    h.MultipathdEvents();
    var fails: bool := *;
    return if fails && !h.calm then None else Some(h.w.pathvec.Keys);
  }

  /** multipathd del path for each of these. */
  method DelPaths(h: Host, sds: set<Sd>)
    requires Wf(h.w)
    modifies h`w, h`log
    ensures Wf(h.w) && MultipathdRan(old(h.w), h.w) && OnlyMultipathdSince(old(h.log), h.log)
    ensures h.w.pathvec.Keys <= old(h.w.pathvec.Keys)
    ensures h.calm && old(h.w).running ==> h.w.pathvec.Keys !! sds
  {
    var left := sds;
    while left != {}
      invariant left <= sds && Wf(h.w) && MultipathdRan(old(h.w), h.w) && OnlyMultipathdSince(old(h.log), h.log)
      invariant h.w.pathvec.Keys <= old(h.w.pathvec.Keys)
      invariant h.calm && old(h.w).running ==> forall p | p in sds - left :: p !in h.w.pathvec
      decreases |left|
    {
      var p :| p in left;
      left := left - {p};
      var _ := h.DelPath(p);
    }
  }

  /** iscsi.forgetDeleted, out of time: tells multipathd to drop what it still has, and asks once more. */
  method DropRest(h: Host, deleted: set<Sd>, known: Option<set<Sd>>) returns (ok: bool)
    requires Wf(h.w)
    modifies h`w, h`log
    ensures Wf(h.w) && MultipathdRan(old(h.w), h.w) && OnlyMultipathdSince(old(h.log), h.log)
    ensures ok ==> deleted !! h.w.pathvec.Keys
    ensures h.calm && known == Some(old(h.w).pathvec.Keys) && old(h.w).running && deleted !! old(h.w).paths.Keys ==> ok
  {
    if known.Some? {
      DelPaths(h, deleted * known.value);
    }
    var now := AskMultipathd(h);
    return now.Some? && deleted !! now.value;
  }

  /** iscsi.forgetDeleted. ok: multipathd is known to have no record of the deleted names. It is told to drop
      what it has of them only after waiting for twenty seconds, unless the context ended before. */
  method ForgetDeleted(h: Host, deleted: set<Sd>, cancelled: bool)
    returns (ok: bool, ghost waited: int, ghost ended: bool)
    requires Wf(h.w) && deleted !! h.w.paths.Keys
    modifies h`w, h`log
    ensures Wf(h.w) && MultipathdRan(old(h.w), h.w)
    ensures ok ==> deleted !! h.w.pathvec.Keys
    ensures h.calm ==> ok
    ensures OnlyMultipathdSince(old(h.log), h.log)
    ensures h.log == old(h.log) || ended || waited > 20_000
  {
    ended, waited := cancelled, 0;
    if deleted == {} || !h.w.running {
      return true, waited, ended;
    }
    var now, deadline, done := 0, FORGET_WAIT, cancelled;
    while true
      invariant Wf(h.w) && MultipathdRan(old(h.w), h.w)
      invariant h.log == old(h.log) && ended == done
      decreases !done, if now > deadline then 0 else deadline - now + 1
    {
      var known := AskMultipathd(h);
      now := Later(now);
      waited := now;
      if known.Some? && deleted !! known.value {
        return true, waited, ended;
      }
      if now > deadline || done {
        ok := DropRest(h, deleted, known);
        return;
      }
      var ends: bool := *;
      if ends {
        done, ended := true, true;
      } else {
        now := Later(now + FORGET_POLL);
      }
    }
  }

  /** The commands of a detach: nothing is asked of the array, nothing swept, and no filesystem touched. */
  predicate DetachCommand(e: Event) {
    !e.DisconnectTry? && !e.ConnectTry? && !e.Swept? && !OnFilesystem(e)
  }

  predicate OnFilesystem(e: Event) {
    e.FsFormat? || e.FsMount? || e.FsShutdown? || e.FsUnmount?
  }

  /** Map m is gone if ok says so, and no other map is. */
  ghost predicate OnlyMapGone(a: State, b: State, m: Ident, ok: bool) {
    (ok ==> m !in b.maps) && forall k | k in a.maps && k != m :: k in b.maps
  }

  /** a with some maps removed, and whatever connections others took away meanwhile. */
  ghost predicate MapsRemoved(a: State, b: State) {
    && b == a.(maps := b.maps, luns := b.luns, hostKnown := b.hostKnown)
    && Submap(b.maps, a.maps) && Submap(b.luns, a.luns) && (b.hostKnown ==> a.hostKnown)
  }

  /** A flush of the map that went down exactly the paths under it in a that were not cut since, each
      leading where it led in a or, by then, nowhere. */
  ghost predicate MapFlushed(a: State, m: Ident, cut: set<Sd>, e: Event) {
    && e.FlushMap? && e.m == m && e.down.Keys == Members(a, m) - cut
    && forall sd | sd in e.down :: sd in a.paths && (e.down[sd] == None || e.down[sd] == Reach(a, a.paths[sd]))
  }

  /** The commands that take one map down: a flush first if asked for, then removals. */
  ghost predicate TakesDown(m: Ident, flush: bool, events: seq<Event>) {
    && |events| > (if flush then 1 else 0)
    && (flush ==> events[0].FlushMap? && events[0].m == m)
    && forall i | (if flush then 1 else 0) <= i < |events| :: events[i] == DropTry(m)
  }

  method TryRemove(h: Host, m: Ident) returns (ok: bool)
    requires Wf(h.w)
    modifies h`w, h`log
    ensures Wf(h.w) && MapsRemoved(old(h.w), h.w) && OnlyMapGone(old(h.w), h.w, m, ok)
    ensures (h.calm ==> ok) && h.w.luns == old(h.w).luns
    ensures h.log == old(h.log) + [DropTry(m)]
  {
    ok := h.RemoveMapCommand(m);
  }

  /** iscsi.dropMap. open: dmsetup said that something has the map open, and so it was not forced. */
  method DropMap(h: Host, m: Ident, flush: bool) returns (ok: bool, ghost cmds: seq<Event>, ghost open: bool)
    requires Wf(h.w)
    modifies h`w, h`log
    ensures Wf(h.w) && MapsRemoved(old(h.w), h.w) && OnlyMapGone(old(h.w), h.w, m, ok)
    ensures h.calm ==> ok
    ensures h.log == old(h.log) + cmds && TakesDown(m, flush, cmds)
    ensures flush ==> MapFlushed(old(h.w), m, {}, cmds[0])
    ensures !flush ==> h.w.luns == old(h.w).luns
    ensures Tries(if flush then |cmds| - 1 else |cmds|, ok, open)
  {
    cmds := [];
    if flush {
      h.FlushMapBuffers(m);
      cmds := [FlushMap(m, Down(h.w, m))];
    }
    ghost var more;
    ok, more, open := TryAllRemovals(h, m);
    cmds := cmds + more;
  }

  /** One removal after another until one works; the third, which forces it, not on an open map. */
  ghost predicate Tries(tries: int, ok: bool, open: bool) {
    1 <= tries <= 3 && (open ==> !ok && tries == 2) && (!ok && !open ==> tries == 3)
  }

  /** The rest of iscsi.dropMap: the removals, one after the other. */
  method TryAllRemovals(h: Host, m: Ident) returns (ok: bool, ghost cmds: seq<Event>, ghost open: bool)
    requires Wf(h.w)
    modifies h`w, h`log
    ensures Wf(h.w) && MapsRemoved(old(h.w), h.w) && OnlyMapGone(old(h.w), h.w, m, ok)
    ensures (h.calm ==> ok) && h.w.luns == old(h.w).luns
    ensures h.log == old(h.log) + cmds && TakesDown(m, false, cmds) && Tries(|cmds|, ok, open)
  {
    open := false;
    ok := TryRemove(h, m); // multipathd remove map
    cmds := [DropTry(m)];
    var nodeLeft: bool := *;
    if ok && !nodeLeft {
      return;
    }
    ok := TryRemove(h, m); // multipath -f
    cmds := cmds + [DropTry(m)];
    var inUse: bool := *;
    if ok || inUse {
      open := !ok;
      return;
    }
    ok := TryRemove(h, m); // dmsetup remove --force
    cmds := cmds + [DropTry(m)];
  }

  /** iscsi.removeMap: a map something in sysfs holds is left alone if that can be seen (seen); errors
      of that look are ignored. Queueing goes off before anything else. */
  method RemoveMap(h: Host, m: Ident, flush: bool) returns (ok: bool, ghost cmds: seq<Event>, ghost seen: bool)
    requires Wf(h.w)
    modifies h`w, h`log
    ensures Wf(h.w) && MapsRemoved(old(h.w), h.w) && OnlyMapGone(old(h.w), h.w, m, ok)
    ensures h.log == old(h.log) + cmds
    ensures (seen ==> m in old(h.w).held) && (h.calm || h.readable ==> seen == (m in old(h.w).held))
    ensures seen ==> !ok && cmds == [] && h.w == old(h.w)
    ensures !seen ==> cmds != [] && cmds[0] == QueueOff(m) && TakesDown(m, flush, cmds[1..]) && (h.calm ==> ok)
    ensures !seen && flush ==> MapFlushed(old(h.w), m, {}, cmds[1])
  {
    var unlisted: bool := *;
    seen := m in h.w.held && (!unlisted || h.calm || h.readable);
    if m in h.w.held && (!unlisted || h.calm || h.readable) {
      return false, [], seen;
    }
    h.StopQueueing(m);
    ghost var open;
    ok, cmds, open := DropMap(h, m, flush);
    cmds := [QueueOff(m)] + cmds;
  }

  // Sweep ------------------------------------------------------------------------------------

  /** Indexing Go's map: a LUN without an entry reads as the empty serial. */
  function Get(want: map<int, Serial>, lun: int): Serial {
    if lun in want then want[lun] else ""
  }

  /** Sweep's test: a path of this array whose LUN the array gives to another volume, or
      (unless crossedOnly) to none. */
  predicate IsStale(want: map<int, Serial>, prefix: string, crossedOnly: bool, p: Path) {
    && OfArray(prefix, p.id)
    && Get(want, p.lun) != p.id.serial
    && !(crossedOnly && Get(want, p.lun) == "")
  }

  /** want may be acted on: it contradicts nothing the array maps, and unless only crossed paths
      are judged it leaves nothing out. */
  predicate Trustworthy(want: map<int, Serial>, luns: map<int, Serial>, crossedOnly: bool) {
    forall l | l in luns :: luns[l] != "" && (if l in want then want[l] == luns[l] else crossedOnly)
  }

  /** A sweep on a trustworthy list never cuts a path that reaches its own volume. */
  lemma StaleMeansNotLive(want: map<int, Serial>, w: State, prefix: string, crossedOnly: bool, p: Path)
    requires Trustworthy(want, w.luns, crossedOnly) && IsStale(want, prefix, crossedOnly, p)
    ensures Reach(w, p) != Some(p.id.serial)
  {
  }

  /** On a list that leaves out one of the two LUNs a volume is at, a full sweep takes a live path there
      for stale; one for crossed paths only does not. */
  lemma LivePathTakenForStale(w: State, v: Serial, prefix: string) returns (p: Path)
    requires v != "" && prefix <= v && w.luns == map[1 := v, 2 := v]
    ensures p.id == Volume(v) && Reach(w, p) == Some(v)
    ensures IsStale(map[2 := v], prefix, false, p) && !IsStale(map[2 := v], prefix, true, p)
  {
    p := Path(1, Volume(v), 0);
  }

  /** A node from which the kernel has only taken paths away. */
  ghost predicate FewerPaths(a: State, b: State) {
    && Submap(b.paths, a.paths)
    && a.unread <= b.unread && a.orphans <= b.orphans
    && b.running == a.running && b.udev == a.udev && b.nextInst == a.nextInst && b.held == a.held
    && b.missed == a.missed && b.dirty == a.dirty
  }

  /** And the array only connections. */
  ghost predicate Fewer(a: State, b: State) {
    FewerPaths(a, b) && Submap(b.luns, a.luns) && (b.hostKnown ==> a.hostKnown)
  }

  /** Every record of multipathd is about the disk that has the name now, names in sds and known
      orphans aside. */
  ghost predicate FreshBut(w: State, sds: set<Sd>) {
    forall sd {:trigger sd in w.pathvec} | sd in w.pathvec ::
      || sd in w.orphans || sd in sds
      || (sd in w.paths && w.pathvec[sd].inst == w.paths[sd].inst)
  }

  /** What the first loop of a sweep of a leaves: the paths it takes to be stale. */
  ghost predicate Judged(a: State, b: State, want: map<int, Serial>, prefix: string, crossedOnly: bool,
                         stale: map<Sd, Path>) {
    && b == a.(unread := b.unread) && a.unread <= b.unread
    && Submap(stale, a.paths)
    && (forall sd | sd in stale :: IsStale(want, prefix, crossedOnly, stale[sd]))
    && (forall sd | sd in a.paths && IsStale(want, prefix, crossedOnly, a.paths[sd]) ::
          sd in stale || a.paths[sd].inst in b.unread)
  }

  ghost predicate AllFound(w: State, want: map<int, Serial>, prefix: string, crossedOnly: bool, stale: map<Sd, Path>) {
    forall sd | sd in w.paths && IsStale(want, prefix, crossedOnly, w.paths[sd]) :: sd in stale
  }

  /** Where Sweep's first loop stands: todo is yet to be read. sure: no read can have failed. */
  ghost predicate Judging(a: State, w: State, want: map<int, Serial>, prefix: string, crossedOnly: bool, sure: bool,
                          stale: map<Sd, Path>, todo: set<Sd>) {
    && w == a.(unread := w.unread) && a.unread <= w.unread && (sure ==> w == a)
    && Submap(stale, a.paths)
    && (forall sd | sd in stale :: IsStale(want, prefix, crossedOnly, stale[sd]))
    && (forall sd | sd in a.paths && IsStale(want, prefix, crossedOnly, a.paths[sd]) ::
          sd in stale || sd in todo || (!sure && a.paths[sd].inst in w.unread))
  }

  lemma FoundStale(a: State, w: State, want: map<int, Serial>, prefix: string, crossedOnly: bool, sure: bool,
                   stale: map<Sd, Path>, todo: set<Sd>, p: Sd)
    requires Judging(a, w, want, prefix, crossedOnly, sure, stale, todo)
    requires p in a.paths && IsStale(want, prefix, crossedOnly, a.paths[p])
    ensures Judging(a, w, want, prefix, crossedOnly, sure, stale[p := a.paths[p]], todo - {p})
  {
  }

  /** Any other path is let be: it is not stale, or could not be read. */
  lemma LetBe(a: State, w: State, w': State, want: map<int, Serial>, prefix: string, crossedOnly: bool, sure: bool,
              stale: map<Sd, Path>, todo: set<Sd>, p: Sd)
    requires Judging(a, w, want, prefix, crossedOnly, sure, stale, todo) && p in a.paths && p in w.paths
    requires (w' == w && !IsStale(want, prefix, crossedOnly, a.paths[p])) || (!sure && w' == Unread(w, p))
    ensures Judging(a, w', want, prefix, crossedOnly, sure, stale, todo - {p})
  {
  }

  /** Sweep's first loop on one path. */
  method JudgePath(h: Host, p: Sd, want: map<int, Serial>, prefix: string, crossedOnly: bool,
                   before: map<Sd, Path>, ghost a: State, ghost todo: set<Sd>)
    returns (stale: map<Sd, Path>)
    requires Wf(h.w) && p in h.w.paths
    requires Judging(a, h.w, want, prefix, crossedOnly, h.calm || h.readable, before, todo)
    modifies h`w
    ensures Wf(h.w) && Judging(a, h.w, want, prefix, crossedOnly, h.calm || h.readable, stale, todo - {p})
  {
    stale := before;
    ghost var w, sure := h.w, h.calm || h.readable;
    var id := h.ReadIdent(p);
    var lun := None;
    if id.Some? && OfArray(prefix, id.value) {
      lun := h.ReadLun(p);
    }
    if lun.Some? && IsStale(want, prefix, crossedOnly, h.w.paths[p]) {
      FoundStale(a, w, want, prefix, crossedOnly, sure, before, todo, p);
      return before[p := h.w.paths[p]];
    }
    LetBe(a, w, h.w, want, prefix, crossedOnly, sure, before, todo, p);
  }

  /** Sweep's first loop: the paths it takes to be stale, less those it could not read. */
  method JudgePaths(h: Host, want: map<int, Serial>, prefix: string, crossedOnly: bool)
    returns (stale: map<Sd, Path>)
    requires Wf(h.w)
    modifies h`w
    ensures Wf(h.w) && Judged(old(h.w), h.w, want, prefix, crossedOnly, stale)
    ensures h.calm || h.readable ==> h.w == old(h.w) && AllFound(h.w, want, prefix, crossedOnly, stale)
  {
    stale := map[];
    ghost var a := h.w;
    var devs := h.w.paths.Keys;
    while devs != {}
      invariant Wf(h.w) && devs <= a.paths.Keys
      invariant Judging(a, h.w, want, prefix, crossedOnly, h.calm || h.readable, stale, devs)
      decreases |devs|
    {
      var p :| p in devs;
      stale := JudgePath(h, p, want, prefix, crossedOnly, stale, a, devs);
      devs := devs - {p};
    }
  }

  /** log[lo..hi] switches queueing off for exactly these maps and does nothing else. */
  ghost predicate QueuesOff(ms: set<Ident>, log: seq<Event>, lo: nat, hi: nat)
    requires lo <= hi <= |log|
  {
    && (forall i | lo <= i < hi :: log[i].QueueOff?)
    && ms == set i | lo <= i < hi && log[i].QueueOff? :: log[i].m
  }

  lemma QueuedOffOneMore(ms: set<Ident>, m: Ident, log: seq<Event>, lo: nat)
    requires lo <= |log| && QueuesOff(ms, log, lo, |log|)
    ensures QueuesOff(ms + {m}, log + [QueueOff(m)], lo, |log| + 1)
  {
    var all := log + [QueueOff(m)];
    forall x | x in ms + {m}
      ensures exists i :: lo <= i < |all| && all[i].QueueOff? && all[i].m == x
    {
      if x == m {
        assert all[|log|] == QueueOff(m);
      } else {
        var i :| lo <= i < |log| && log[i].QueueOff? && log[i].m == x;
        assert all[i] == log[i];
      }
    }
  }

  /** The maps that hold a stale path. */
  function HoldersOf(w: State, stale: set<Sd>): set<Ident> {
    set m | m in w.maps && w.maps[m] * stale != {}
  }

  /** listing is what reads of some of these maps' members returned: all of them, or only part
      if the read failed midway, which nothing tells apart. */
  ghost predicate Listed(w: State, holders: set<Ident>, listing: map<Ident, set<Sd>>) {
    forall m | m in listing :: m in holders && m in w.maps && listing[m] <= w.maps[m]
  }

  /** Every one of these maps was listed, with all its members. */
  ghost predicate AllListed(w: State, holders: set<Ident>, listing: map<Ident, set<Sd>>) {
    forall m | m in holders :: m in listing && m in w.maps && listing[m] == w.maps[m]
  }

  /** The maps a sweep treats as having only stale members. */
  function WhollyStale(listing: map<Ident, set<Sd>>, stale: set<Sd>): set<Ident> {
    set m | m in listing && listing[m] <= stale
  }

  /** Reads a map's members: all of them, part of them, or (None) not even that it holds a path. */
  method ListMembers(h: Host, m: Ident) returns (slaves: Option<set<Sd>>)
    requires m in h.w.maps
    ensures slaves.Some? ==> slaves.value <= h.w.maps[m]
    ensures h.calm ==> slaves == Some(h.w.maps[m])
  {
    var unseen: bool, missing: set<Sd> := *, *;
    return if h.calm then Some(h.w.maps[m]) else if unseen then None else Some(h.w.maps[m] - missing);
  }

  /** Where StopWhollyStale stands: the maps judged so far, of which it stopped the condemned. */
  ghost predicate Stopping(w: State, stale: set<Sd>, judged: set<Ident>, calm: bool, wholly: set<Ident>,
                           listing: map<Ident, set<Sd>>, log: seq<Event>, lo: nat)
  {
    && Listed(w, HoldersOf(w, stale), listing) && listing.Keys <= judged
    && (calm ==> AllListed(w, judged, listing))
    && wholly == WhollyStale(listing, stale)
    && lo <= |log| && QueuesOff(wholly, log, lo, |log|)
  }

  /** Its loop body. */
  method StopIfWhollyStale(h: Host, stale: set<Sd>, m: Ident, before: set<Ident>, ghost judged: set<Ident>,
                           ghost read: map<Ident, set<Sd>>, ghost lo: nat)
    returns (wholly: set<Ident>, ghost listing: map<Ident, set<Sd>>)
    requires m in HoldersOf(h.w, stale) && m !in judged && Stopping(h.w, stale, judged, h.calm, before, read, h.log, lo)
    modifies h`log
    ensures old(h.log) <= h.log && Stopping(h.w, stale, judged + {m}, h.calm, wholly, listing, h.log, lo)
  {
    wholly, listing := before, read;
    var slaves := ListMembers(h, m);
    if slaves.Some? {
      listing := listing[m := slaves.value];
      if slaves.value <= stale {
        QueuedOffOneMore(wholly, m, h.log, lo);
        h.StopQueueing(m);
        wholly := wholly + {m};
      }
    }
  }

  /** Switches queueing off for every map whose listed members are all stale. */
  method StopWhollyStale(h: Host, stale: set<Sd>) returns (wholly: set<Ident>, ghost listing: map<Ident, set<Sd>>)
    modifies h`log
    ensures old(h.log) <= h.log && QueuesOff(wholly, h.log, |old(h.log)|, |h.log|)
    ensures Listed(h.w, HoldersOf(h.w, stale), listing) && wholly == WhollyStale(listing, stale)
    ensures h.calm ==> AllListed(h.w, HoldersOf(h.w, stale), listing)
  {
    wholly, listing := {}, map[];
    var holders := HoldersOf(h.w, stale);
    ghost var all, judged: set<Ident>, lo: nat := holders, {}, |h.log|;
    while holders != {}
      invariant Shared(all, judged, holders)
      invariant old(h.log) <= h.log && Stopping(h.w, stale, judged, h.calm, wholly, listing, h.log, lo)
      decreases |holders|
    {
      var m :| m in holders;
      OneMoreDone(all, judged, holders, m);
      wholly, listing := StopIfWhollyStale(h, stale, m, wholly, judged, listing, lo);
      judged, holders := judged + {m}, holders - {m};
    }
  }

  /** The paths of the delete attempts in log[lo..hi]. */
  ghost function Attempted(log: seq<Event>, lo: nat, hi: nat): set<Sd>
    requires lo <= hi <= |log|
  {
    set i | lo <= i < hi && log[i].DeleteTry? :: log[i].sd
  }

  lemma AttemptedOneMore(log: seq<Event>, lo: nat, e: Event)
    requires lo <= |log| && e.DeleteTry?
    ensures Attempted(log + [e], lo, |log| + 1) == Attempted(log, lo, |log|) + {e.sd}
  {
    var all := log + [e];
    forall sd | sd in Attempted(log, lo, |log|) + {e.sd}
      ensures sd in Attempted(all, lo, |all|)
    {
      if sd == e.sd {
        assert all[|log|] == e;
      } else {
        var i :| lo <= i < |log| && log[i].DeleteTry? && log[i].sd == sd;
        assert all[i].sd == sd;
      }
    }
  }

  lemma AttemptedNoMore(log: seq<Event>, lo: nat, e: Event)
    requires lo <= |log| && !e.DeleteTry?
    ensures Attempted(log + [e], lo, |log| + 1) == Attempted(log, lo, |log|)
  {
    var all := log + [e];
    forall sd | sd in Attempted(log, lo, |log|)
      ensures sd in Attempted(all, lo, |all|)
    {
      var i :| lo <= i < |log| && log[i].DeleteTry? && log[i].sd == sd;
      assert all[i].sd == sd;
    }
  }

  /** log[lo..hi] are delete attempts, each on one of these paths, with what the path reached at
      that moment: nothing the array did not already map to its LUN in a. */
  ghost predicate DeletesOf(a: State, stale: map<Sd, Path>, log: seq<Event>, lo: nat, hi: nat)
    requires lo <= hi <= |log|
  {
    forall i | lo <= i < hi ::
      && log[i].DeleteTry? && log[i].sd in stale && log[i].path == stale[log[i].sd]
      && (log[i].reach.Some? ==> Reach(a, log[i].path) == log[i].reach)
  }

  /** No delete attempt in log[lo..hi] was on a path that still reached its own volume. */
  ghost predicate CutsNothingLive(log: seq<Event>, lo: nat, hi: nat)
    requires lo <= hi <= |log|
  {
    forall i | lo <= i < hi && log[i].DeleteTry? && log[i].path.id.Volume? ::
      log[i].reach != Some(log[i].path.id.serial)
  }

  lemma StaleDeletesCutNothingLive(a: State, stale: map<Sd, Path>, log: seq<Event>, lo: nat, hi: nat,
                                   want: map<int, Serial>, prefix: string, crossedOnly: bool)
    requires lo <= hi <= |log| && DeletesOf(a, stale, log, lo, hi)
    requires Trustworthy(want, a.luns, crossedOnly)
    requires forall sd | sd in stale :: IsStale(want, prefix, crossedOnly, stale[sd])
    ensures CutsNothingLive(log, lo, hi)
  {
  }

  /** b is a with the paths named gone deleted; multipathd has not noticed yet. */
  ghost predicate Cut(a: State, gone: set<Sd>, b: State) {
    && b == a.(luns := b.luns, hostKnown := b.hostKnown, paths := b.paths, maps := b.maps)
    && Submap(b.luns, a.luns) && (b.hostKnown ==> a.hostKnown)
    && Submap(b.paths, a.paths) && b.paths.Keys == a.paths.Keys - gone
    && b.maps.Keys == a.maps.Keys && forall m | m in b.maps :: b.maps[m] == a.maps[m] - gone
  }

  lemma CutOneMore(a: State, gone: set<Sd>, w: State, sd: Sd, ok: bool, next: State)
    requires Cut(a, gone, w) && Wf(next) && Disturbed(if ok then Without(w, sd) else w, next)
    ensures Cut(a, if ok then gone + {sd} else gone, next)
  {
    forall m | m in next.maps ensures next.maps[m] == a.maps[m] - (if ok then gone + {sd} else gone) {
      assert w.maps[m] == a.maps[m] - gone;
    }
  }

  lemma CutLeavesFewer(a: State, gone: set<Sd>, b: State, sds: set<Sd>)
    requires Cut(a, gone, b)
    ensures Fewer(a, b) && (FreshBut(a, sds) ==> FreshBut(b, sds + gone))
  {
  }

  /** Where a run of deletions stands that began in a at log[lo]: tried of stale have been tried
      and gone are gone. */
  ghost predicate Deleting(a: State, w: State, stale: map<Sd, Path>, tried: set<Sd>, gone: set<Sd>,
                           log: seq<Event>, lo: nat) {
    && Wf(w) && gone <= tried && Cut(a, gone, w)
    && lo <= |log| && DeletesOf(a, stale, log, lo, |log|) && Attempted(log, lo, |log|) == tried
  }

  /** deletePath, one of several: gone is what has been deleted before. */
  method DeleteNext(h: Host, sd: Sd, ghost stale: map<Sd, Path>, ghost a: State, ghost tried: set<Sd>,
                    before: set<Sd>, ghost lo: nat)
    returns (gone: set<Sd>)
    requires sd in stale && sd !in tried && sd in a.paths && stale[sd] == a.paths[sd]
    requires Deleting(a, h.w, stale, tried, before, h.log, lo)
    modifies h`w, h`log
    ensures Deleting(a, h.w, stale, tried + {sd}, gone, h.log, lo) && old(h.log) <= h.log
    ensures h.quiet ==> h.w.luns == old(h.w).luns
    ensures h.calm ==> gone == before + {sd}
  {
    var ok := h.DeletePath(sd);
    gone := if ok then before + {sd} else before;
    CutOneMore(a, before, old(h.w), sd, ok, h.w);
    AttemptedOneMore(old(h.log), lo, DeleteTry(sd, stale[sd], Reach(h.w, stale[sd])));
  }

  lemma NoneDeleted(a: State, stale: map<Sd, Path>, log: seq<Event>)
    requires Wf(a)
    ensures Deleting(a, a, stale, {}, {}, log, |log|)
  {
  }

  /** Sweep's deletions. */
  method DeleteStale(h: Host, stale: map<Sd, Path>) returns (gone: set<Sd>)
    requires Wf(h.w) && Submap(stale, h.w.paths)
    modifies h`w, h`log
    ensures Deleting(old(h.w), h.w, stale, stale.Keys, gone, h.log, |old(h.log)|)
    ensures old(h.log) <= h.log && (h.calm ==> gone == stale.Keys)
    ensures h.quiet ==> h.w.luns == old(h.w).luns
  {
    gone := {};
    ghost var a, lo, tried: set<Sd> := h.w, |h.log|, {};
    NoneDeleted(a, stale, h.log);
    var todo := stale.Keys;
    while todo != {}
      invariant Shared(stale.Keys, tried, todo)
      invariant h.quiet ==> h.w.luns == a.luns
      invariant Deleting(a, h.w, stale, tried, gone, h.log, lo) && old(h.log) <= h.log
      invariant h.calm ==> gone == tried
      decreases |todo|
    {
      var sd :| sd in todo;
      OneMoreDone(stale.Keys, tried, todo, sd);
      ghost var log := h.log;
      gone := DeleteNext(h, sd, stale, a, tried, gone, lo);
      Longer(old(h.log), log, h.log);
      tried, todo := tried + {sd}, todo - {sd};
    }
  }

  /** log[lo..hi] tries to remove exactly these maps, unflushed, and does nothing else. */
  ghost predicate DropsUnflushed(ms: set<Ident>, log: seq<Event>, lo: nat, hi: nat)
    requires lo <= hi <= |log|
  {
    && (forall i | lo <= i < hi :: log[i].DropTry?)
    && ms == set i | lo <= i < hi && log[i].DropTry? :: log[i].m
  }

  lemma TookDown(ms: set<Ident>, m: Ident, log: seq<Event>, lo: nat, cmds: seq<Event>)
    requires lo <= |log| && DropsUnflushed(ms, log, lo, |log|) && TakesDown(m, false, cmds)
    ensures DropsUnflushed(ms + {m}, log + cmds, lo, |log| + |cmds|)
  {
    var all := log + cmds;
    forall i | lo <= i < |all|
      ensures all[i].DropTry? && all[i].m in ms + {m}
    {
      assert i >= |log| ==> all[i] == cmds[i - |log|];
    }
    forall x | x in ms + {m}
      ensures exists i :: lo <= i < |all| && all[i].DropTry? && all[i].m == x
    {
      if x == m {
        assert all[|log|] == cmds[0];
      } else {
        var i :| lo <= i < |log| && log[i].DropTry? && log[i].m == x;
        assert all[i] == log[i];
      }
    }
  }

  /** Where those removals stand that began in a at log[lo]. */
  ghost predicate Dropping(a: State, w: State, done: set<Ident>, log: seq<Event>, lo: nat, calm: bool) {
    && Wf(w) && MapsRemoved(a, w) && w.luns == a.luns
    && lo <= |log| && DropsUnflushed(done, log, lo, |log|)
    && (calm ==> done !! w.maps.Keys)
  }

  /** dropMap, one of several. */
  method DropNext(h: Host, m: Ident, ghost a: State, ghost done: set<Ident>, ghost lo: nat)
    requires Dropping(a, h.w, done, h.log, lo, h.calm)
    modifies h`w, h`log
    ensures Dropping(a, h.w, done + {m}, h.log, lo, h.calm) && old(h.log) <= h.log
  {
    var _, cmds, _ := DropMap(h, m, false);
    TookDown(done, m, old(h.log), lo, cmds);
  }

  /** Removes the maps a sweep has left without a good path. */
  method DropWhollyStale(h: Host, wholly: set<Ident>)
    requires Wf(h.w)
    modifies h`w, h`log
    ensures Dropping(old(h.w), h.w, wholly, h.log, |old(h.log)|, h.calm) && old(h.log) <= h.log
  {
    var todo := wholly;
    ghost var a, lo, done: set<Ident> := h.w, |h.log|, {};
    while todo != {}
      invariant Shared(wholly, done, todo)
      invariant Dropping(a, h.w, done, h.log, lo, h.calm) && old(h.log) <= h.log
      decreases |todo|
    {
      var m :| m in todo;
      OneMoreDone(wholly, done, todo, m);
      DropNext(h, m, a, done, lo);
      done, todo := done + {m}, todo - {m};
    }
  }

  /** Sweep's error: stale paths on the LUN being attached that could not be deleted, and whether
      multipathd still holds deleted paths (ErrPathsHeld). left: all that could not be deleted, which
      are only logged. */
  datatype SweepResult = SweepResult(undeleted: set<Sd>, held: bool, left: set<Sd>) {
    predicate Ok() { undeleted == {} && !held }
  }

  /** What a sweep did: the paths it judged stale, those it deleted, the maps it dropped, what it
      had read of those maps' members, and where in the log each stage ends. */
  datatype SweepTrace = SweepTrace(
    stale: map<Sd, Path>, gone: set<Sd>, dropped: set<Ident>, listing: map<Ident, set<Sd>>,
    offs: nat, dels: nat, drops: nat, mark: nat, clean: bool)

  /** The state once the stale paths of a have been dealt with. */
  ghost predicate StaleGone(a: State, b: State, ownLun: int, r: SweepResult, t: SweepTrace) {
    && Wf(b) && Fewer(a, b) && (FreshBut(a, {}) ==> FreshBut(b, {}))
    && Submap(t.stale, a.paths) && t.gone <= t.stale.Keys
    && b.paths.Keys == a.paths.Keys - t.gone
    && r.left == t.stale.Keys - t.gone && r.undeleted == (set sd | sd in r.left && t.stale[sd].lun == ownLun)
    && b.orphans == a.orphans + (if r.held then t.gone else {})
    && Listed(a, HoldersOf(a, t.stale.Keys), t.listing) && t.dropped == WhollyStale(t.listing, t.stale.Keys)
  }

  /** The state a sweep of a leaves: those were the stale paths, but for what could not be read. */
  ghost predicate SweptState(a: State, b: State, want: map<int, Serial>, prefix: string, ownLun: int,
                             crossedOnly: bool, r: SweepResult, t: SweepTrace) {
    && StaleGone(a, b, ownLun, r, t)
    && (forall sd | sd in t.stale :: IsStale(want, prefix, crossedOnly, t.stale[sd]))
    && (forall sd | sd in a.paths && IsStale(want, prefix, crossedOnly, a.paths[sd]) ::
          sd in t.stale || a.paths[sd].inst in b.unread)
  }

  /** What a sweep from log[lo] did to the node: first every condemned map stops queueing, then
      each stale path is tried, then the condemned maps are dropped unflushed. */
  ghost predicate SweptLog(a: State, log: seq<Event>, lo: nat, t: SweepTrace) {
    && lo <= t.offs <= t.dels <= t.drops <= |log|
    && QueuesOff(t.dropped, log, lo, t.offs)
    && DeletesOf(a, t.stale, log, t.offs, t.dels) && Attempted(log, t.offs, t.dels) == t.stale.Keys
    && DropsUnflushed(t.dropped, log, t.dels, t.drops)
    && (forall i | t.drops <= i < |log| :: log[i].Multipathd? || log[i].Reprobe? || (i == t.mark && log[i].Swept?))
  }

  lemma MultipathdLeavesFewer(a: State, b: State, sds: set<Sd>)
    requires MultipathdRan(a, b)
    ensures Fewer(a, b) && (FreshBut(a, sds) ==> FreshBut(b, sds))
  {
  }

  lemma FewerTransitive(a: State, b: State, c: State)
    requires Fewer(a, b) && Fewer(b, c)
    ensures Fewer(a, c)
  {
  }

  /** multipathd has forgotten the deleted paths gone, or they are known orphans. */
  ghost predicate Forgotten(a: State, b: State, gone: set<Sd>, ok: bool) {
    && Wf(b) && Fewer(a, b)
    && b.paths == a.paths && b.unread == a.unread && b.luns == a.luns
    && b.orphans == a.orphans + (if ok then {} else gone)
    && (FreshBut(a, gone) ==> FreshBut(b, {}))
  }

  /** The end of a sweep that has deleted gone: wait for multipathd to forget them. */
  method FinishDeleting(h: Host, gone: set<Sd>, cancelled: bool) returns (ok: bool)
    requires Wf(h.w) && gone !! h.w.paths.Keys
    modifies h`w, h`log
    ensures Forgotten(old(h.w), h.w, gone, ok) && (h.calm ==> ok)
    ensures OnlyMultipathdSince(old(h.log), h.log)
  {
    ghost var waited, ended;
    ok, waited, ended := ForgetDeleted(h, gone, cancelled);
    MultipathdLeavesFewer(old(h.w), h.w, gone);
    if !ok {
      h.NoteOrphans(gone);
    }
  }

  lemma DeletesPersist(a: State, stale: map<Sd, Path>, log: seq<Event>, longer: seq<Event>, lo: nat, hi: nat)
    requires log <= longer && lo <= hi <= |log|
    ensures DeletesOf(a, stale, log, lo, hi) ==> DeletesOf(a, stale, longer, lo, hi)
    ensures Attempted(log, lo, hi) == Attempted(longer, lo, hi)
  {
  }

  lemma SweptLogPersists(a: State, log: seq<Event>, longer: seq<Event>, lo: nat, t: SweepTrace)
    requires SweptLog(a, log, lo, t) && log <= longer
    requires forall i | |log| <= i < |longer| ::
               longer[i].Multipathd? || longer[i].Reprobe? || (i == t.mark && longer[i].Swept?)
    ensures SweptLog(a, longer, lo, t)
  {
  }

  lemma StagesMakeSweptLog(a: State, log0: seq<Event>, log1: seq<Event>, log2: seq<Event>, log3: seq<Event>,
                           t: SweepTrace, lo: nat)
    requires lo <= |log0| && t.offs == |log0| && t.dels == |log1| && t.drops == |log2|
    requires log0 <= log1 <= log2 <= log3
    requires QueuesOff(t.dropped, log0, lo, |log0|)
    requires DeletesOf(a, t.stale, log1, |log0|, |log1|) && Attempted(log1, |log0|, |log1|) == t.stale.Keys
    requires DropsUnflushed(t.dropped, log2, |log1|, |log2|)
    requires OnlyMultipathdSince(log2, log3)
    ensures SweptLog(a, log3, lo, t)
  {
  }

  lemma StaleSteps(a: State, b: State, c: State, d: State, ownLun: int, r: SweepResult, t: SweepTrace)
    requires Submap(t.stale, a.paths) && t.gone <= t.stale.Keys
    requires Cut(a, t.gone, b) && MapsRemoved(b, c) && Forgotten(c, d, t.gone, !r.held)
    requires r.left == t.stale.Keys - t.gone && r.undeleted == set sd | sd in r.left && t.stale[sd].lun == ownLun
    requires Listed(a, HoldersOf(a, t.stale.Keys), t.listing) && t.dropped == WhollyStale(t.listing, t.stale.Keys)
    ensures StaleGone(a, d, ownLun, r, t)
  {
    CutLeavesFewer(a, t.gone, b, {});
    assert Fewer(b, c) && (FreshBut(b, t.gone) ==> FreshBut(c, t.gone));
    FewerTransitive(a, b, c);
    FewerTransitive(a, c, d);
  }

  /** Sweep once it knows the stale paths. */
  method SweepStale(h: Host, stale: map<Sd, Path>, ownLun: int, cancelled: bool)
    returns (r: SweepResult, ghost t: SweepTrace)
    requires Wf(h.w) && Submap(stale, h.w.paths)
    modifies h`w, h`log
    ensures t.stale == stale && t.mark == |h.log| && StaleGone(old(h.w), h.w, ownLun, r, t)
    ensures old(h.log) <= h.log && SweptLog(old(h.w), h.log, |old(h.log)|, t)
    ensures h.calm ==> SweptAll(old(h.w), r, t)
    ensures h.w.unread == old(h.w).unread && (h.quiet ==> h.w.luns == old(h.w).luns)
  {
    ghost var a := h.w;
    var wholly;
    ghost var listing;
    wholly, listing := StopWhollyStale(h, stale.Keys);
    ghost var log0 := h.log;
    var gone := DeleteStale(h, stale);
    ghost var b, log1 := h.w, h.log;
    DropWhollyStale(h, wholly);
    ghost var c, log2 := h.w, h.log;
    var ok := FinishDeleting(h, gone, cancelled);
    var left := stale.Keys - gone;
    r := SweepResult(set sd | sd in left && stale[sd].lun == ownLun, !ok, left);
    t := SweepTrace(stale, gone, wholly, listing, |log0|, |log1|, |log2|, |h.log|, false);
    StaleSteps(a, b, c, h.w, ownLun, r, t);
    StagesMakeSweptLog(a, log0, log1, log2, h.log, t, |old(h.log)|);
  }

  /** Nothing went wrong: every stale path is gone, and all members of their maps were seen. */
  ghost predicate SweptAll(a: State, r: SweepResult, t: SweepTrace) {
    r.Ok() && t.gone == t.stale.Keys && AllListed(a, HoldersOf(a, t.stale.Keys), t.listing)
  }

  lemma SweptLogOf(a: State, b: State, log: seq<Event>, lo: nat, t: SweepTrace)
    requires SweptLog(b, log, lo, t) && b.luns == a.luns
    ensures SweptLog(a, log, lo, t)
  {
  }

  /** Reading the paths first changes nothing of that. */
  lemma StaleGoneSinceRead(a: State, b: State, c: State, ownLun: int, r: SweepResult, t: SweepTrace)
    requires b == a.(unread := b.unread) && a.unread <= b.unread && StaleGone(b, c, ownLun, r, t)
    ensures StaleGone(a, c, ownLun, r, t)
  {
    assert HoldersOf(a, t.stale.Keys) == HoldersOf(b, t.stale.Keys);
  }

  /** Nor does what multipathd does afterwards. */
  lemma StaleGoneForGood(a: State, c: State, d: State, ownLun: int, r: SweepResult, t: SweepTrace)
    requires StaleGone(a, c, ownLun, r, t) && Wf(d) && MultipathdRan(c, d)
    ensures StaleGone(a, d, ownLun, r, t)
  {
    MultipathdLeavesFewer(c, d, {});
    FewerTransitive(a, c, d);
  }

  lemma NothingStale(b: State, log: seq<Event>, ownLun: int, t: SweepTrace)
    requires Wf(b) && t == SweepTrace(map[], {}, {}, map[], |log|, |log|, |log|, |log|, false)
    ensures StaleGone(b, b, ownLun, SweepResult({}, false, {}), t) && SweptLog(b, log, |log|, t)
  {
  }

  /** What every return of Sweep runs: the membership check. */
  method EndSweep(h: Host, prefix: string, ownLun: int, held: bool) returns (ghost clean: bool)
    requires Wf(h.w)
    modifies h`w, h`log
    ensures Wf(h.w) && MultipathdRan(old(h.w), h.w)
    ensures clean ==> Membership.ToRefile(h.w, prefix) == {}
    ensures h.calm && old(h.w).running ==> clean
    ensures old(h.log) < h.log && h.log[|old(h.log)|] == Swept(ownLun, held)
    ensures forall i | |old(h.log)| < i < |h.log| :: h.log[i].Multipathd? || h.log[i].Reprobe?
  {
    h.NoteSwept(ownLun, held);
    clean := Membership.FixMembership(h, prefix);
    if clean {
      Membership.FixedForGood(old(h.w), prefix, h.w);
    }
  }

  /** iscsi.Sweep. */
  method Sweep(h: Host, want: map<int, Serial>, prefix: string, ownLun: int, crossedOnly: bool, cancelled: bool)
    returns (r: SweepResult, ghost t: SweepTrace)
    requires Wf(h.w)
    modifies h`w, h`log
    ensures SweptState(old(h.w), h.w, want, prefix, ownLun, crossedOnly, r, t)
    ensures old(h.log) <= h.log && SweptLog(old(h.w), h.log, |old(h.log)|, t)
    ensures Trustworthy(want, old(h.w).luns, crossedOnly) ==> CutsNothingLive(h.log, t.offs, t.dels)
    ensures t.drops <= t.mark < |h.log| && h.log[t.mark] == Swept(ownLun, r.held)
    ensures t.clean ==> Membership.ToRefile(h.w, prefix) == {}
    ensures AllListed(old(h.w), HoldersOf(old(h.w), t.stale.Keys), t.listing) ==>
      forall m | m in t.dropped :: m in old(h.w).maps && old(h.w).maps[m] <= t.stale.Keys
    ensures h.calm ==> AllFound(old(h.w), want, prefix, crossedOnly, t.stale) && SweptAll(old(h.w), r, t)
    ensures h.calm || h.readable ==>
      AllFound(old(h.w), want, prefix, crossedOnly, t.stale) && h.w.unread == old(h.w).unread
    ensures h.calm && old(h.w).running ==> t.clean
    ensures OnlyOwnLeft(h.w, want, prefix, crossedOnly, r.left)
    ensures OnlyStraysGone(old(h.w), h.w, want, prefix, crossedOnly)
    ensures h.quiet ==> h.w.luns == old(h.w).luns
  {
    ghost var a, lo: nat := h.w, |h.log|;
    var stale := JudgePaths(h, want, prefix, crossedOnly);
    ghost var b := h.w;
    if stale == map[] {
      r := SweepResult({}, false, {});
      t := SweepTrace(map[], {}, {}, map[], lo, lo, lo, lo, false);
      NothingStale(b, h.log, ownLun, t);
    } else {
      r, t := SweepStale(h, stale, ownLun, cancelled);
    }
    ghost var c, log := h.w, h.log;
    ghost var clean := EndSweep(h, prefix, ownLun, r.held);
    t := t.(clean := clean);
    SweepFinished(a, b, c, h.w, log, h.log, lo, want, prefix, ownLun, crossedOnly, r, t);
  }

  /** Of the array's paths a sweep leaves only those on a LUN that want gives to their own volume (for a
      sweep of crossed ones, or to nobody), those it failed to delete, and those it could not read. */
  ghost predicate OnlyOwnLeft(w: State, want: map<int, Serial>, prefix: string, crossedOnly: bool, left: set<Sd>) {
    forall sd, v | sd in w.paths && w.paths[sd].id == Volume(v) && v != "" && prefix <= v ::
      || (w.paths[sd].lun in want && want[w.paths[sd].lun] == v)
      || (crossedOnly && (w.paths[sd].lun in want ==> want[w.paths[sd].lun] == ""))
      || sd in left || w.paths[sd].inst in w.unread
  }

  /** And it takes away no others. */
  ghost predicate OnlyStraysGone(a: State, b: State, want: map<int, Serial>, prefix: string, crossedOnly: bool) {
    forall sd | sd in a.paths && sd !in b.paths ::
      && a.paths[sd].id.Volume? && prefix <= a.paths[sd].id.serial
      && (a.paths[sd].lun in want ==> want[a.paths[sd].lun] != a.paths[sd].id.serial)
      && (crossedOnly ==> a.paths[sd].lun in want && want[a.paths[sd].lun] != "")
  }

  lemma SweptPaths(a: State, b: State, want: map<int, Serial>, prefix: string, ownLun: int, crossedOnly: bool,
                   r: SweepResult, t: SweepTrace)
    requires SweptState(a, b, want, prefix, ownLun, crossedOnly, r, t)
    ensures OnlyOwnLeft(b, want, prefix, crossedOnly, r.left) && OnlyStraysGone(a, b, want, prefix, crossedOnly)
  {
    forall sd, v | sd in b.paths && b.paths[sd].id == Volume(v) && v != "" && prefix <= v
      ensures || (b.paths[sd].lun in want && want[b.paths[sd].lun] == v)
              || (crossedOnly && (b.paths[sd].lun in want ==> want[b.paths[sd].lun] == ""))
              || sd in r.left || b.paths[sd].inst in b.unread
    {
      assert sd in a.paths && a.paths[sd] == b.paths[sd];
      assert IsStale(want, prefix, crossedOnly, a.paths[sd]) ==> sd in t.stale || a.paths[sd].inst in b.unread;
    }
    forall sd | sd in a.paths && sd !in b.paths ensures sd in t.stale && t.stale[sd] == a.paths[sd] {}
  }

  lemma SweepFinished(a: State, b: State, c: State, d: State, log: seq<Event>, longer: seq<Event>, lo: nat,
                      want: map<int, Serial>, prefix: string, ownLun: int, crossedOnly: bool, r: SweepResult, t: SweepTrace)
    requires Judged(a, b, want, prefix, crossedOnly, t.stale) && StaleGone(b, c, ownLun, r, t)
    requires Wf(d) && MultipathdRan(c, d) && SweptLog(b, log, lo, t) && t.mark == |log|
    requires log < longer && longer[|log|].Swept?
    requires forall i | |log| < i < |longer| :: longer[i].Multipathd? || longer[i].Reprobe?
    ensures SweptState(a, d, want, prefix, ownLun, crossedOnly, r, t) && SweptLog(a, longer, lo, t)
    ensures Trustworthy(want, a.luns, crossedOnly) ==> CutsNothingLive(longer, t.offs, t.dels)
    ensures OnlyOwnLeft(d, want, prefix, crossedOnly, r.left) && OnlyStraysGone(a, d, want, prefix, crossedOnly)
  {
    StaleGoneSinceRead(a, b, c, ownLun, r, t);
    StaleGoneForGood(a, c, d, ownLun, r, t);
    SweptLogPersists(b, log, longer, lo, t);
    SweptLogOf(a, b, longer, lo, t);
    SweptPaths(a, d, want, prefix, ownLun, crossedOnly, r, t);
    if Trustworthy(want, a.luns, crossedOnly) {
      StaleDeletesCutNothingLive(a, t.stale, longer, t.offs, t.dels, want, prefix, crossedOnly);
    }
  }

  /** Where nothing goes wrong a sweep leaves none of the paths it is to remove, and drops exactly
      the maps that had members, stale ones only. */
  lemma CalmSweepIsExact(a: State, b: State, want: map<int, Serial>, prefix: string, ownLun: int, crossedOnly: bool,
                         r: SweepResult, t: SweepTrace)
    requires SweptState(a, b, want, prefix, ownLun, crossedOnly, r, t)
    requires AllFound(a, want, prefix, crossedOnly, t.stale) && SweptAll(a, r, t)
    ensures forall sd | sd in a.paths :: sd in b.paths <==> !IsStale(want, prefix, crossedOnly, a.paths[sd])
    ensures forall m :: m in t.dropped <==> m in a.maps && a.maps[m] * t.stale.Keys != {} && a.maps[m] <= t.stale.Keys
    ensures b.orphans == a.orphans
  {
  }

  /** Exactly when a sweep drops no map with a member that is not stale, however its reads of their
      members turn out: when no map holding a stale path has such a member. */
  lemma DropsOnlyStaleMapsIff(a: State, stale: set<Sd>)
    ensures (forall m | m in HoldersOf(a, stale) :: a.maps[m] <= stale) <==>
            (forall listing, m | Listed(a, HoldersOf(a, stale), listing) && m in WhollyStale(listing, stale) ::
               a.maps[m] <= stale)
  {
    forall m | m in HoldersOf(a, stale) && !(a.maps[m] <= stale)
      ensures exists listing :: Listed(a, HoldersOf(a, stale), listing) && m in WhollyStale(listing, stale)
    {
      var short := map[m := a.maps[m] * stale];
      assert Listed(a, HoldersOf(a, stale), short) && m in WhollyStale(short, stale);
    }
  }

  /** It need not be: a read of a map's members that stops after the stale one has the sweep drop
      the map under a path that is fine. */
  lemma LiveMapDropped(a: State) returns (t: SweepTrace)
    requires a.paths == map["sda" := Path(1, Volume("0123456789abcdef00000001"), 0),
                            "sdb" := Path(2, Volume("0123456789abcdef00000002"), 1)]
    requires a.luns == map[2 := "0123456789abcdef00000002"]
    requires a.maps == map[Volume("0123456789abcdef00000002") := {"sda", "sdb"}]
    ensures forall sd | sd in a.paths :: sd in t.stale <==> IsStale(a.luns, "0123456789abcdef", false, a.paths[sd])
    ensures Submap(t.stale, a.paths)
    ensures Listed(a, HoldersOf(a, t.stale.Keys), t.listing) && t.dropped == WhollyStale(t.listing, t.stale.Keys)
    ensures exists m | m in t.dropped :: m in a.maps && !(a.maps[m] <= t.stale.Keys)
  {
    var m := Volume("0123456789abcdef00000002");
    t := SweepTrace(map["sda" := a.paths["sda"]], {"sda"}, {m}, map[m := {"sda"}], 0, 0, 0, 0, false);
    assert "sda" in a.maps[m] * t.stale.Keys;
    assert m in HoldersOf(a, t.stale.Keys);
    assert "sdb" in a.maps[m] && m in t.dropped;
  }

  // Detach -----------------------------------------------------------------------------------

  /** Where sysBlockMatching stands. */
  ghost predicate Matching(a: State, w: State, serial: Serial, sure: bool, paths: map<Sd, Path>, todo: set<Sd>) {
    && w == a.(unread := w.unread) && a.unread <= w.unread && (sure ==> w == a)
    && Submap(paths, a.paths) && paths.Keys <= Carrying(a, serial)
    && (forall sd | sd in Carrying(a, serial) ::
          sd in paths || sd in todo || (!sure && a.paths[sd].inst in w.unread))
  }

  method MatchPath(h: Host, p: Sd, serial: Serial, before: map<Sd, Path>, ghost a: State, ghost todo: set<Sd>)
    returns (paths: map<Sd, Path>)
    requires Wf(h.w) && p in h.w.paths && Matching(a, h.w, serial, h.calm || h.readable, before, todo)
    modifies h`w
    ensures Wf(h.w) && Matching(a, h.w, serial, h.calm || h.readable, paths, todo - {p})
  {
    paths := before;
    var id := h.ReadIdent(p);
    if id == Some(Volume(serial)) {
      paths := paths[p := h.w.paths[p]];
    }
  }

  /** sysBlockMatching: the disks whose identity carries serial, less those it could not read. */
  method MatchPaths(h: Host, serial: Serial) returns (paths: map<Sd, Path>)
    requires Wf(h.w)
    modifies h`w
    ensures Wf(h.w) && Matching(old(h.w), h.w, serial, h.calm || h.readable, paths, {})
    ensures h.calm || h.readable ==> paths.Keys == Carrying(h.w, serial)
  {
    paths := map[];
    ghost var a := h.w;
    var devs := h.w.paths.Keys;
    while devs != {}
      invariant Wf(h.w) && devs <= a.paths.Keys
      invariant Matching(a, h.w, serial, h.calm || h.readable, paths, devs)
      decreases |devs|
    {
      var p :| p in devs;
      paths := MatchPath(h, p, serial, paths, a, devs);
      devs := devs - {p};
    }
  }

  /** The paths Detach may flush: their LUN is known and the array gives it to this volume. */
  method ValidPaths(h: Host, paths: map<Sd, Path>, serial: Serial, want: map<int, Serial>) returns (valid: map<Sd, Path>)
    ensures Submap(valid, paths)
    ensures forall sd | sd in valid :: Get(want, valid[sd].lun) == serial
    ensures h.calm ==> forall sd | sd in paths && Get(want, paths[sd].lun) == serial :: sd in valid
  {
    valid := map[];
    var todo := paths.Keys;
    while todo != {}
      invariant todo <= paths.Keys && Submap(valid, paths)
      invariant forall sd | sd in valid :: Get(want, valid[sd].lun) == serial
      invariant h.calm ==> forall sd | sd in paths && Get(want, paths[sd].lun) == serial :: sd in valid || sd in todo
      decreases |todo|
    {
      var p :| p in todo;
      todo := todo - {p};
      var unread: bool := *;
      if (!unread || h.calm || h.readable) && Get(want, paths[p].lun) == serial {
        valid := valid[p := paths[p]];
      }
    }
  }

  /** log[i] flushes one of these paths, or tries to delete it right after its flush; either way
      it reaches nothing the array did not already map to its LUN in a. */
  ghost predicate FlushesOrDeletes(a: State, paths: map<Sd, Path>, log: seq<Event>, lo: nat, i: nat)
    requires lo <= i < |log|
  {
    && (log[i].DeleteTry? || log[i].FlushPath?) && log[i].sd in paths && log[i].path == paths[log[i].sd]
    && (log[i].DeleteTry? ==> lo < i && log[i - 1].FlushPath? && log[i - 1].sd == log[i].sd)
    && (log[i].reach.Some? ==> Reach(a, log[i].path) == log[i].reach)
  }

  /** log[lo..hi] does nothing else. */
  ghost predicate FlushesAndDeletes(a: State, paths: map<Sd, Path>, log: seq<Event>, lo: nat, hi: nat)
    requires lo <= hi <= |log|
  {
    forall i | lo <= i < hi :: FlushesOrDeletes(a, paths, log, lo, i)
  }

  lemma FlushedAndTried(a: State, paths: map<Sd, Path>, log: seq<Event>, lo: nat, flush: Event, try: Event)
    requires lo <= |log| && FlushesAndDeletes(a, paths, log, lo, |log|)
    requires flush.FlushPath? && try.DeleteTry? && flush.sd == try.sd && flush.sd in paths
    requires flush.path == try.path == paths[try.sd]
    requires flush.reach.Some? ==> Reach(a, flush.path) == flush.reach
    requires try.reach.Some? ==> Reach(a, try.path) == try.reach
    ensures FlushesAndDeletes(a, paths, log + [flush] + [try], lo, |log| + 2)
    ensures Attempted(log + [flush] + [try], lo, |log| + 2) == Attempted(log, lo, |log|) + {try.sd}
  {
    AttemptedNoMore(log, lo, flush);
    AttemptedOneMore(log + [flush], lo, try);
    var all := log + [flush] + [try];
    forall i | lo <= i < |all|
      ensures FlushesOrDeletes(a, paths, all, lo, i)
    {
      assert i < |log| ==> FlushesOrDeletes(a, paths, log, lo, i) && all[i] == log[i];
      assert lo < i < |log| ==> all[i - 1] == log[i - 1];
    }
  }

  /** Where Detach's last loop stands. */
  ghost predicate Flushing(a: State, w: State, valid: map<Sd, Path>, tried: set<Sd>, gone: set<Sd>,
                           log: seq<Event>, lo: nat) {
    && Wf(w) && gone <= tried && Cut(a, gone, w)
    && lo <= |log| && FlushesAndDeletes(a, valid, log, lo, |log|) && Attempted(log, lo, |log|) == tried
  }

  lemma FlushedOne(a: State, w: State, w1: State, w2: State, valid: map<Sd, Path>, tried: set<Sd>, before: set<Sd>,
                   sd: Sd, ok: bool, log: seq<Event>, lo: nat)
    requires Flushing(a, w, valid, tried, before, log, lo) && sd in valid && Submap(valid, a.paths) && sd !in tried
    requires Disturbed(w, w1) && Wf(w2) && Disturbed(if ok then Without(w1, sd) else w1, w2)
    ensures Flushing(a, w2, valid, tried + {sd}, if ok then before + {sd} else before,
                     log + [FlushPath(sd, valid[sd], Reach(w1, valid[sd]))] + [DeleteTry(sd, valid[sd], Reach(w2, valid[sd]))], lo)
  {
    CutOneMore(a, before, w1, sd, ok, w2);
    FlushedAndTried(a, valid, log, lo, FlushPath(sd, valid[sd], Reach(w1, valid[sd])),
                    DeleteTry(sd, valid[sd], Reach(w2, valid[sd])));
  }

  /** Detach's last loop on one path. */
  method FlushAndDelete(h: Host, sd: Sd, ghost a: State, ghost valid: map<Sd, Path>, serial: Serial,
                        ghost tried: set<Sd>, before: set<Sd>, ghost lo: nat) returns (gone: set<Sd>)
    requires sd in valid && Submap(valid, a.paths) && valid.Keys <= Carrying(a, serial) && sd !in tried
    requires Flushing(a, h.w, valid, tried, before, h.log, lo)
    modifies h`w, h`log
    ensures Flushing(a, h.w, valid, tried + {sd}, gone, h.log, lo)
    ensures old(h.log) <= h.log && (h.calm ==> gone == before + {sd})
  {
    gone := before;
    assert sd in h.w.paths && h.w.paths[sd] == valid[sd];
    var unread: bool := *;
    if !unread && sd in h.w.paths && h.w.paths[sd].id != Volume(serial) {
      return; // the name belongs to another disk by now
    }
    ghost var log, w := h.log, h.w;
    h.FlushPathBuffers(sd);
    ghost var w1 := h.w;
    var ok := h.DeletePath(sd);
    FlushedOne(a, w, w1, h.w, valid, tried, before, sd, ok, log, lo);
    gone := if ok then before + {sd} else before;
  }

  lemma NoneFlushed(a: State, valid: map<Sd, Path>, log: seq<Event>)
    requires Wf(a)
    ensures Flushing(a, a, valid, {}, {}, log, |log|)
  {
  }

  /** Detach's last loop. */
  method FlushAndDeleteAll(h: Host, valid: map<Sd, Path>, serial: Serial) returns (gone: set<Sd>)
    requires Wf(h.w) && Submap(valid, h.w.paths) && valid.Keys <= Carrying(h.w, serial)
    modifies h`w, h`log
    ensures Flushing(old(h.w), h.w, valid, valid.Keys, gone, h.log, |old(h.log)|) && old(h.log) <= h.log
    ensures h.calm ==> gone == valid.Keys
  {
    gone := {};
    ghost var a, lo, tried: set<Sd> := h.w, |h.log|, {};
    NoneFlushed(a, valid, h.log);
    var todo := valid.Keys;
    while todo != {}
      invariant Shared(valid.Keys, tried, todo)
      invariant Flushing(a, h.w, valid, tried, gone, h.log, lo) && old(h.log) <= h.log
      invariant h.calm ==> gone == tried
      decreases |todo|
    {
      var p :| p in todo;
      OneMoreDone(valid.Keys, tried, todo, p);
      ghost var log := h.log;
      gone := FlushAndDelete(h, p, a, valid, serial, tried, gone, lo);
      Longer(old(h.log), log, h.log);
      tried, todo := tried + {p}, todo - {p};
    }
  }

  /** What a Detach did: whether it saw that the volume's map was held, the paths it matched and, of
      those, the ones it took to be valid, the stale ones it deleted before anything else (cut), all it
      deleted, and where in the log its stages end. untouched: it gave up before doing anything. */
  datatype DetachTrace = DetachTrace(
    untouched: bool, seen: bool, matched: map<Sd, Path>, valid: map<Sd, Path>, cut: set<Sd>, gone: set<Sd>,
    stales: nat, maps: nat, rest: nat)

  function StaleOf(t: DetachTrace): map<Sd, Path> {
    t.matched - t.valid.Keys
  }

  /** The state a Detach of serial leaves. */
  ghost predicate DetachedState(a: State, b: State, serial: Serial, ok: bool, t: DetachTrace) {
    && Wf(b) && Fewer(a, b) && (FreshBut(a, {}) ==> FreshBut(b, {}))
    && t.gone <= Carrying(a, serial) && b.paths.Keys == a.paths.Keys - t.gone
    && b.orphans <= a.orphans + (if ok then {} else t.gone)
    && (ok ==> forall sd | sd in Carrying(b, serial) :: b.paths[sd].inst in b.unread)
    && (t.untouched ==> !ok && b == a)
    && (!t.untouched ==> forall sd | sd in Carrying(a, serial) :: sd in t.matched || a.paths[sd].inst in b.unread)
    && (ok ==> t.cut == StaleOf(t).Keys)
  }

  predicate HasMap(a: State, serial: Serial) {
    a.running && Volume(serial) in a.maps
  }

  /** log[lo..hi] takes the volume's map down: queueing off first, then flushed if asked for, with the
      paths under it that were not cut, then removed. */
  ghost predicate MapDown(a: State, serial: Serial, flush: bool, cut: set<Sd>, log: seq<Event>, lo: nat, hi: nat)
    requires lo <= hi <= |log|
  {
    && lo < hi && log[lo] == QueueOff(Volume(serial))
    && TakesDown(Volume(serial), flush, log[lo + 1..hi])
    && (flush ==> MapFlushed(a, Volume(serial), cut, log[lo + 1]))
  }

  /** What a Detach from log[lo] did: the stale paths are tried first, unflushed; then the map goes
      down, if there is one not seen to be held, flushed only if a path that may be flushed is left;
      then those are flushed and tried, unless the map was held. */
  ghost predicate DetachedLog(a: State, log: seq<Event>, lo: nat, serial: Serial,
                              want: Option<map<int, Serial>>, t: DetachTrace) {
    && lo <= t.stales <= t.maps <= t.rest <= |log|
    && Submap(t.matched, a.paths) && t.matched.Keys <= Carrying(a, serial) && Submap(t.valid, t.matched)
    && (if want.Some? then forall sd | sd in t.valid :: Get(want.value, t.valid[sd].lun) == serial
        else t.valid == t.matched)
    && t.cut <= StaleOf(t).Keys
    && DeletesOf(a, StaleOf(t), log, lo, t.stales) && Attempted(log, lo, t.stales) == StaleOf(t).Keys
    && (t.seen ==> HasMap(a, serial) && Volume(serial) in a.held)
    && (if HasMap(a, serial) && !t.seen && !t.untouched
        then MapDown(a, serial, want.None? || t.valid != map[], t.cut, log, t.stales, t.maps)
        else t.stales == t.maps)
    && (t.seen ==> t.maps == t.rest)
    && FlushesAndDeletes(a, t.valid, log, t.maps, t.rest)
    && Attempted(log, t.maps, t.rest) == (if t.rest == t.maps then {} else t.valid.Keys)
    && (forall i | t.rest <= i < |log| :: log[i].Multipathd? || log[i].Reprobe?)
  }

  lemma FlushesPersist(a: State, c: State, valid: map<Sd, Path>, log: seq<Event>, longer: seq<Event>, lo: nat, hi: nat)
    requires log <= longer && lo <= hi <= |log| && FlushesAndDeletes(c, valid, log, lo, hi)
    requires Submap(c.luns, a.luns)
    ensures FlushesAndDeletes(a, valid, longer, lo, hi)
    ensures Attempted(log, lo, hi) == Attempted(longer, lo, hi)
  {
    DeletesPersist(a, valid, log, longer, lo, hi);
    forall i | lo <= i < hi
      ensures FlushesOrDeletes(a, valid, longer, lo, i)
    {
      assert FlushesOrDeletes(c, valid, log, lo, i) && longer[i] == log[i];
      assert lo < i ==> longer[i - 1] == log[i - 1];
    }
  }

  /** A flush of the map as it was once cut were deleted, seen from before. */
  lemma MapFlushedSince(a: State, b: State, c: State, m: Ident, cut: set<Sd>, e: Event)
    requires b == a.(unread := b.unread) && Wf(a) && Cut(b, cut, c) && MapFlushed(c, m, {}, e)
    ensures MapFlushed(a, m, cut, e)
  {
    assert Members(c, m) == Members(a, m) - cut;
  }

  lemma MapStageMakesLog(a: State, b: State, c: State, log0: seq<Event>, log1: seq<Event>, log3: seq<Event>,
                         serial: Serial, seen: bool, flush: bool, cut: set<Sd>)
    requires b == a.(unread := b.unread) && Wf(a) && Cut(b, cut, c) && log1 <= log3
    requires MapTried(c, serial, seen, flush, log0, log1)
    ensures (seen ==> HasMap(a, serial) && Volume(serial) in a.held)
    ensures if HasMap(a, serial) && !seen then MapDown(a, serial, flush, cut, log3, |log0|, |log1|) else log0 == log1
  {
    if HasMap(a, serial) && !seen {
      assert log3[|log0| + 1..|log1|] == log1[|log0| + 1..];
      if flush {
        assert log3[|log0| + 1] == log1[|log0| + 1..][0];
        MapFlushedSince(a, b, c, Volume(serial), cut, log3[|log0| + 1]);
      }
    }
  }

  lemma DetachStagesMakeLog(a: State, b: State, c: State, d: State, log0: seq<Event>, log1: seq<Event>, log2: seq<Event>,
                            log3: seq<Event>, lo: nat, serial: Serial, want: Option<map<int, Serial>>, t: DetachTrace)
    requires Wf(a) && StalesTried(a, b, c, log0, lo, serial, want, t.matched, t.valid, t.cut) && !t.untouched
    requires Submap(d.luns, c.luns)
    requires t.stales == |log0| && t.maps == |log1| && t.rest == |log2|
    requires log0 <= log1 <= log2 <= log3
    requires MapTried(c, serial, t.seen, want.None? || t.valid != map[], log0, log1)
    requires FlushesAndDeletes(d, t.valid, log2, |log1|, |log2|) && (t.seen ==> log1 == log2)
    requires Attempted(log2, |log1|, |log2|) == (if log2 == log1 then {} else t.valid.Keys)
    requires OnlyMultipathdSince(log2, log3)
    ensures DetachedLog(a, log3, lo, serial, want, t)
  {
    MapStageMakesLog(a, b, c, log0, log1, log3, serial, t.seen, want.None? || t.valid != map[], t.cut);
    DeletesPersist(b, StaleOf(t), log0, log3, lo, |log0|);
    FlushesPersist(a, d, t.valid, log2, log3, |log1|, |log2|);
  }

  /** b is a with the paths named gone deleted, and whatever others took away meanwhile. */
  ghost predicate Less(a: State, gone: set<Sd>, b: State) {
    && Fewer(a, b) && b.paths.Keys == a.paths.Keys - gone && b.orphans == a.orphans
    && (FreshBut(a, {}) ==> FreshBut(b, gone))
  }

  lemma LessAfterMap(a: State, b: State, c: State, d: State, gone: set<Sd>)
    requires b == a.(unread := b.unread) && a.unread <= b.unread
    requires Cut(b, gone, c) && MapsRemoved(c, d)
    ensures Less(a, gone, d) && d.unread == b.unread
  {
    CutLeavesFewer(b, gone, c, {});
    assert Fewer(a, b) && Fewer(c, d) && (FreshBut(c, gone) ==> FreshBut(d, gone));
    FewerTransitive(a, b, c);
    FewerTransitive(a, c, d);
  }

  lemma LessOnceMore(a: State, d: State, e: State, gone: set<Sd>, more: set<Sd>)
    requires Less(a, gone, d) && Cut(d, more, e)
    ensures Less(a, gone + more, e) && e.unread == d.unread
  {
    CutLeavesFewer(d, more, e, gone);
    FewerTransitive(a, d, e);
  }

  lemma DetachSteps(a: State, e: State, f: State, serial: Serial, ok: bool, forgot: bool, t: DetachTrace)
    requires Less(a, t.gone, e) && Forgotten(e, f, t.gone, forgot) && !t.untouched
    requires t.matched.Keys <= Carrying(a, serial) && t.gone <= t.matched.Keys
    requires forall sd | sd in Carrying(a, serial) :: sd in t.matched || a.paths[sd].inst in e.unread
    requires ok ==> forgot && t.gone == t.matched.Keys && t.cut == StaleOf(t).Keys
    ensures DetachedState(a, f, serial, ok, t)
  {
    FewerTransitive(a, e, f);
  }

  lemma ValidSurvive(b: State, c: State, d: State, gone: set<Sd>, valid: map<Sd, Path>, serial: Serial)
    requires Submap(valid, b.paths) && valid.Keys <= Carrying(b, serial) && gone !! valid.Keys
    requires Cut(b, gone, c) && MapsRemoved(c, d)
    ensures Submap(valid, d.paths) && valid.Keys <= Carrying(d, serial)
  {
  }

  /** Detach's first stage, from a: match the volume's paths and delete the stale ones. */
  ghost predicate StalesTried(a: State, b: State, c: State, log: seq<Event>, lo: nat, serial: Serial,
                              want: Option<map<int, Serial>>, matched: map<Sd, Path>, valid: map<Sd, Path>, gone: set<Sd>) {
    && b == a.(unread := b.unread) && a.unread <= b.unread
    && (forall sd | sd in Carrying(b, serial) :: sd in matched || b.paths[sd].inst in b.unread)
    && Submap(matched, a.paths) && matched.Keys <= Carrying(a, serial) && Submap(valid, matched)
    && (if want.Some? then forall sd | sd in valid :: Get(want.value, valid[sd].lun) == serial else valid == matched)
    && gone <= (matched - valid.Keys).Keys && Wf(c) && Cut(b, gone, c)
    && lo <= |log| && DeletesOf(b, matched - valid.Keys, log, lo, |log|)
    && Attempted(log, lo, |log|) == (matched - valid.Keys).Keys
  }

  method TryStales(h: Host, serial: Serial, want: Option<map<int, Serial>>)
    returns (matched: map<Sd, Path>, valid: map<Sd, Path>, gone: set<Sd>, ghost b: State)
    requires Wf(h.w)
    modifies h`w, h`log
    ensures old(h.log) <= h.log
    ensures StalesTried(old(h.w), b, h.w, h.log, |old(h.log)|, serial, want, matched, valid, gone)
    ensures h.calm ==> gone == matched.Keys - valid.Keys && matched.Keys == Carrying(old(h.w), serial)
    ensures h.calm || h.readable ==> b == old(h.w)
    ensures h.calm && want.Some? ==> forall sd | sd in matched && Get(want.value, matched[sd].lun) == serial :: sd in valid
  {
    matched := MatchPaths(h, serial);
    b := h.w;
    valid := matched;
    if want.Some? {
      valid := ValidPaths(h, matched, serial, want.value);
    }
    gone := DeleteStale(h, matched - valid.Keys);
  }

  /** Detach's second stage, from c: the map goes down, if there is one and it is not seen to be held. */
  ghost predicate MapTried(c: State, serial: Serial, seen: bool, flush: bool, log0: seq<Event>, log1: seq<Event>) {
    && log0 <= log1
    && (seen ==> HasMap(c, serial) && Volume(serial) in c.held)
    && if HasMap(c, serial) && !seen
       then
         && |log0| < |log1| && log1[|log0|] == QueueOff(Volume(serial))
         && TakesDown(Volume(serial), flush, log1[|log0| + 1..])
         && (flush ==> MapFlushed(c, Volume(serial), {}, log1[|log0| + 1..][0]))
       else log0 == log1
  }

  method TryMap(h: Host, serial: Serial, inMap: bool, flush: bool) returns (ok: bool, ghost seen: bool)
    requires Wf(h.w) && inMap == HasMap(h.w, serial)
    modifies h`w, h`log
    ensures Wf(h.w) && MapsRemoved(old(h.w), h.w) && MapTried(old(h.w), serial, seen, flush, old(h.log), h.log)
    ensures seen ==> !ok
    ensures h.calm || h.readable ==> seen == InTheWay(old(h.w), serial)
    ensures h.calm && !seen ==> ok
  {
    ok, seen := true, false;
    if inMap {
      ghost var cmds;
      ok, cmds, seen := RemoveMap(h, Volume(serial), flush);
      assert !seen ==> h.log[|old(h.log)|] == cmds[0] && h.log[|old(h.log)| + 1..] == cmds[1..];
    }
  }

  /** Detach when the map would not go: the stale paths it has deleted stay unaccounted for. */
  method GiveUp(h: Host, serial: Serial, want: Option<map<int, Serial>>, gone: set<Sd>, matched: map<Sd, Path>,
                valid: map<Sd, Path>, ghost seen: bool,
                ghost a: State, ghost b: State, ghost c: State, ghost lo: nat, ghost log0: seq<Event>)
    returns (ghost t: DetachTrace)
    requires Wf(a) && StalesTried(a, b, c, log0, lo, serial, want, matched, valid, gone)
    requires Wf(h.w) && MapsRemoved(c, h.w) && MapTried(c, serial, seen, want.None? || valid != map[], log0, h.log)
    modifies h`w
    ensures DetachedState(a, h.w, serial, false, t) && h.w.unread == old(h.w).unread
    ensures t == DetachTrace(false, seen, matched, valid, gone, gone, |log0|, |h.log|, |h.log|)
    ensures DetachedLog(a, h.log, lo, serial, want, t)
  {
    ghost var d := h.w;
    h.NoteOrphans(gone);
    t := DetachTrace(false, seen, matched, valid, gone, gone, |log0|, |h.log|, |h.log|);
    LessAfterMap(a, b, c, d, gone);
    DetachSteps(a, d, h.w, serial, false, false, t);
    DetachStagesMakeLog(a, b, c, d, log0, h.log, h.log, h.log, lo, serial, want, t);
  }

  /** Detach's last stages: flush and delete what is valid, and wait for multipathd to forget that and
      what was deleted before. between: node and log after the first. */
  method FlushRest(h: Host, serial: Serial, valid: map<Sd, Path>, gone: set<Sd>, cancelled: bool)
    returns (more: set<Sd>, forgot: bool, ghost between: State, ghost log: seq<Event>)
    requires Wf(h.w) && Submap(valid, h.w.paths) && valid.Keys <= Carrying(h.w, serial) && gone !! h.w.paths.Keys
    modifies h`w, h`log
    ensures old(h.log) <= log && Flushing(old(h.w), between, valid, valid.Keys, more, log, |old(h.log)|)
    ensures Forgotten(between, h.w, gone + more, forgot) && OnlyMultipathdSince(log, h.log)
    ensures h.w.unread == old(h.w).unread && (h.calm ==> more == valid.Keys && forgot)
  {
    more := FlushAndDeleteAll(h, valid, serial);
    between, log := h.w, h.log;
    forgot := FinishDeleting(h, gone + more, cancelled);
  }

  method Finish(h: Host, serial: Serial, want: Option<map<int, Serial>>, gone: set<Sd>, matched: map<Sd, Path>,
                valid: map<Sd, Path>, cancelled: bool,
                ghost a: State, ghost b: State, ghost c: State, ghost lo: nat, ghost log0: seq<Event>)
    returns (ok: bool, ghost t: DetachTrace)
    requires Wf(a) && StalesTried(a, b, c, log0, lo, serial, want, matched, valid, gone)
    requires Wf(h.w) && MapsRemoved(c, h.w) && MapTried(c, serial, false, want.None? || valid != map[], log0, h.log)
    modifies h`w, h`log
    ensures DetachedState(a, h.w, serial, ok, t) && !t.untouched && !t.seen
    ensures old(h.log) <= h.log && DetachedLog(a, h.log, lo, serial, want, t)
    ensures t.matched == matched && t.valid == valid && t.cut == gone
    ensures h.w.unread == old(h.w).unread
    ensures h.calm && gone == matched.Keys - valid.Keys ==> ok && t.gone == matched.Keys
  {
    ghost var d, log1 := h.w, h.log;
    ValidSurvive(b, c, d, gone, valid, serial);
    var more, forgot;
    ghost var e, log2;
    more, forgot, e, log2 := FlushRest(h, serial, valid, gone, cancelled);
    ok := gone == matched.Keys - valid.Keys && more == valid.Keys && forgot;
    t := DetachTrace(false, false, matched, valid, gone, gone + more, |log0|, |log1|, |log2|);
    DetachFinished(a, b, c, d, e, h.w, log0, log1, log2, h.log, lo, serial, want, more, ok, forgot, gone, t);
  }

  lemma DetachFinished(a: State, b: State, c: State, d: State, e: State, f: State, log0: seq<Event>, log1: seq<Event>,
                       log2: seq<Event>, log3: seq<Event>, lo: nat, serial: Serial, want: Option<map<int, Serial>>,
                       more: set<Sd>, ok: bool, forgot: bool, gone: set<Sd>, t: DetachTrace)
    requires Wf(a) && t.matched.Keys >= t.valid.Keys
    requires StalesTried(a, b, c, log0, lo, serial, want, t.matched, t.valid, gone)
    requires MapsRemoved(c, d) && MapTried(c, serial, false, want.None? || t.valid != map[], log0, log1)
    requires log1 <= log2 && Flushing(d, e, t.valid, t.valid.Keys, more, log2, |log1|)
    requires Forgotten(e, f, gone + more, forgot) && OnlyMultipathdSince(log2, log3)
    requires t == DetachTrace(false, false, t.matched, t.valid, gone, gone + more, |log0|, |log1|, |log2|)
    requires ok ==> gone == t.matched.Keys - t.valid.Keys && more == t.valid.Keys && forgot
    ensures DetachedState(a, f, serial, ok, t) && (ok ==> t.gone == t.matched.Keys)
    ensures DetachedLog(a, log3, lo, serial, want, t)
  {
    LessAfterMap(a, b, c, d, gone);
    LessOnceMore(a, d, e, gone, more);
    DetachSteps(a, e, f, serial, ok, forgot, t);
    DetachStagesMakeLog(a, b, c, d, log0, log1, log2, log3, lo, serial, want, t);
  }

  /** Something holds the volume's map. */
  predicate InTheWay(w: State, serial: Serial) {
    HasMap(w, serial) && Volume(serial) in w.held
  }

  /** iscsi.Detach once the stale paths have been tried. */
  method DetachRest(h: Host, serial: Serial, want: Option<map<int, Serial>>, inMap: bool, gone: set<Sd>,
                    matched: map<Sd, Path>, valid: map<Sd, Path>, cancelled: bool,
                    ghost a: State, ghost b: State, ghost lo: nat)
    returns (ok: bool, ghost t: DetachTrace)
    requires Wf(a) && StalesTried(a, b, h.w, h.log, lo, serial, want, matched, valid, gone) && inMap == HasMap(h.w, serial)
    modifies h`w, h`log
    ensures DetachedState(a, h.w, serial, ok, t) && !t.untouched && (t.seen ==> !ok)
    ensures old(h.log) <= h.log && DetachedLog(a, h.log, lo, serial, want, t)
    ensures t.matched == matched && t.valid == valid && t.cut == gone && h.w.unread == old(h.w).unread
    ensures h.calm || h.readable ==> t.seen == InTheWay(old(h.w), serial)
    ensures h.calm && gone == matched.Keys - valid.Keys && !t.seen ==> ok && t.gone == matched.Keys
  {
    ghost var c, log0 := h.w, h.log;
    var removed;
    ghost var seen;
    removed, seen := TryMap(h, serial, inMap, want.None? || valid != map[]);
    ghost var log1 := h.log;
    if !removed {
      t := GiveUp(h, serial, want, gone, matched, valid, seen, a, b, c, lo, log0);
      return false, t;
    }
    ok, t := Finish(h, serial, want, gone, matched, valid, cancelled, a, b, c, lo, log0);
    Longer(log0, log1, h.log);
  }

  /** iscsi.Detach once it knows the volume's map: inMap says there is one. */
  method DetachFrom(h: Host, serial: Serial, want: Option<map<int, Serial>>, inMap: bool, cancelled: bool)
    returns (ok: bool, ghost t: DetachTrace)
    requires Wf(h.w) && inMap == HasMap(h.w, serial)
    modifies h`w, h`log
    ensures DetachedState(old(h.w), h.w, serial, ok, t) && !t.untouched && (t.seen ==> !ok)
    ensures old(h.log) <= h.log && DetachedLog(old(h.w), h.log, |old(h.log)|, serial, want, t)
    ensures h.calm || h.readable ==> h.w.unread == old(h.w).unread && t.seen == InTheWay(old(h.w), serial)
    ensures h.calm ==> t.cut == StaleOf(t).Keys && t.matched.Keys == Carrying(old(h.w), serial)
    ensures h.calm && !t.seen ==> ok && t.gone == t.matched.Keys
    ensures h.calm && want.Some? ==>
      forall sd | sd in t.matched && Get(want.value, t.matched[sd].lun) == serial :: sd in t.valid
  {
    ghost var a, lo: nat := h.w, |h.log|;
    var matched, valid, gone;
    ghost var b;
    matched, valid, gone, b := TryStales(h, serial, want);
    assert HasMap(h.w, serial) == HasMap(a, serial) && h.w.held == a.held;
    ok, t := DetachRest(h, serial, want, inMap, gone, matched, valid, cancelled, a, b, lo);
  }

  /** iscsi.Detach. mapsUnread: multipathd does not say which map serves the volume. */
  method Detach(h: Host, serial: Serial, want: Option<map<int, Serial>>, mapsUnread: bool, cancelled: bool)
    returns (ok: bool, ghost t: DetachTrace)
    requires Wf(h.w)
    modifies h`w, h`log
    ensures DetachedState(old(h.w), h.w, serial, ok, t) && (t.seen ==> !ok)
    ensures old(h.log) <= h.log && DetachedLog(old(h.w), h.log, |old(h.log)|, serial, want, t)
    ensures t.untouched <==> serial == "" || (old(h.w).running && mapsUnread)
    ensures t.untouched ==> h.log == old(h.log)
    ensures (h.calm || h.readable) && !t.untouched ==> t.seen == InTheWay(old(h.w), serial)
    ensures h.calm || h.readable ==> h.w.unread == old(h.w).unread
    ensures h.calm && !t.untouched ==> t.cut == StaleOf(t).Keys && t.matched.Keys == Carrying(old(h.w), serial)
    ensures h.calm && !t.untouched && !InTheWay(old(h.w), serial) ==> ok && t.gone == t.matched.Keys
    ensures h.calm && !t.untouched && want.Some? ==>
      forall sd | sd in t.matched && Get(want.value, t.matched[sd].lun) == serial :: sd in t.valid
  {
    if serial == "" || (h.w.running && mapsUnread) {
      return false, DetachTrace(true, false, map[], map[], {}, {}, |h.log|, |h.log|, |h.log|);
    }
    ok, t := DetachFrom(h, serial, want, h.w.running && Volume(serial) in h.w.maps, cancelled);
  }

  /** Exactly when a detach leaves the volume's map alone: when multipathd does not run, when there is none,
      or when it saw that the map is held. */
  lemma MapUntouchedIff(a: State, log: seq<Event>, lo: nat, serial: Serial, want: Option<map<int, Serial>>, t: DetachTrace)
    requires DetachedLog(a, log, lo, serial, want, t) && !t.untouched
    ensures (forall i | lo <= i < |log| :: !OnMap(log[i])) <==> t.seen || !(a.running && Volume(serial) in a.maps)
  {
    if t.seen || !(a.running && Volume(serial) in a.maps) {
      forall i | lo <= i < |log| ensures !OnMap(log[i]) {
        assert t.maps <= i < t.rest ==> FlushesOrDeletes(a, t.valid, log, t.maps, i);
      }
    } else {
      assert OnMap(log[t.stales]);
    }
  }

  predicate OnMap(e: Event) {
    e.QueueOff? || e.FlushMap? || e.DropTry?
  }

  /** A detach may flush this path: its list says the LUN is the volume's, or there is no list. */
  predicate MayFlush(want: Option<map<int, Serial>>, serial: Serial, p: Path) {
    want.Some? ==> Get(want.value, p.lun) == serial
  }

  /** What goes there goes to this volume or nowhere. */
  predicate Home(reach: Option<Serial>, serial: Serial) {
    reach == None || reach == Some(serial)
  }

  predicate OwnOrNothing(w: State, p: Path, serial: Serial) {
    Home(Reach(w, p), serial)
  }

  ghost predicate SafeToFlush(a: State, serial: Serial, want: Option<map<int, Serial>>) {
    forall sd | sd in Carrying(a, serial) && MayFlush(want, serial, a.paths[sd]) :: OwnOrNothing(a, a.paths[sd], serial)
  }

  /** Every path under the volume's map, those cut aside, leads to the volume or nowhere. */
  ghost predicate MembersHome(a: State, serial: Serial, cut: set<Sd>) {
    forall sd | sd in Members(a, Volume(serial)) && sd !in cut :: sd in a.paths && OwnOrNothing(a, a.paths[sd], serial)
  }

  /** A detach may flush the volume's map: there is one, and a path it may flush, or no list. */
  ghost predicate MayFlushMap(a: State, serial: Serial, want: Option<map<int, Serial>>) {
    HasMap(a, serial) && (want.None? || exists sd :: sd in Carrying(a, serial) && MayFlush(want, serial, a.paths[sd]))
  }

  /** Nothing a detach flushes that first deletes cut can land in another volume. */
  ghost predicate SafeAfter(a: State, serial: Serial, want: Option<map<int, Serial>>, cut: set<Sd>) {
    SafeToFlush(a, serial, want) && (MayFlushMap(a, serial, want) ==> MembersHome(a, serial, cut))
  }

  /** The volume's paths a detach deletes unflushed. */
  function StalePaths(a: State, serial: Serial, want: Option<map<int, Serial>>): set<Sd> {
    set sd | sd in Carrying(a, serial) && !MayFlush(want, serial, a.paths[sd])
  }

  predicate FlushesHome(e: Event, serial: Serial) {
    && (e.FlushPath? ==> Home(e.reach, serial))
    && (e.FlushMap? ==> forall sd | sd in e.down :: Home(e.down[sd], serial))
  }

  /** Since log[lo] nothing was flushed into another volume, down a path or a map. */
  ghost predicate FlushesOwn(log: seq<Event>, lo: nat, serial: Serial) {
    forall i | lo <= i < |log| :: FlushesHome(log[i], serial)
  }

  /** Each path a detach flushes is one of the volume's, and reaches what it reached at the start
      or, by then, nothing. */
  lemma FlushesArePaths(a: State, log: seq<Event>, lo: nat, serial: Serial, want: Option<map<int, Serial>>, t: DetachTrace,
                        i: nat)
    requires DetachedLog(a, log, lo, serial, want, t) && lo <= i < |log| && log[i].FlushPath?
    ensures log[i].sd in Carrying(a, serial) && log[i].path == a.paths[log[i].sd] && MayFlush(want, serial, log[i].path)
    ensures log[i].reach == None || log[i].reach == Reach(a, log[i].path)
  {
    forall k | t.stales < k < t.maps ensures !log[k].FlushPath? {
      assert log[t.stales + 1..t.maps][k - t.stales - 1] == log[k];
    }
    assert t.maps <= i < t.rest;
    assert FlushesOrDeletes(a, t.valid, log, t.maps, i);
  }

  /** It flushes no map but the volume's, with the paths under it that it has not cut. */
  lemma FlushesTheMap(a: State, log: seq<Event>, lo: nat, serial: Serial, want: Option<map<int, Serial>>, t: DetachTrace,
                      i: nat)
    requires DetachedLog(a, log, lo, serial, want, t) && lo <= i < |log| && log[i].FlushMap?
    ensures MapFlushed(a, Volume(serial), t.cut, log[i]) && MayFlushMap(a, serial, want)
  {
    forall k | t.stales + 1 < k < t.maps ensures !log[k].FlushMap? {
      assert log[t.stales + 1..t.maps][k - t.stales - 1] == log[k];
    }
    forall k | t.maps <= k < t.rest ensures !log[k].FlushMap? {
      assert FlushesOrDeletes(a, t.valid, log, t.maps, k);
    }
    assert i == t.stales + 1 && log[t.stales + 1..t.maps][0] == log[i];
    assert want.Some? ==> exists sd :: sd in t.valid;
  }

  lemma SafeFlushes(a: State, log: seq<Event>, lo: nat, serial: Serial, want: Option<map<int, Serial>>, t: DetachTrace)
    requires DetachedLog(a, log, lo, serial, want, t) && SafeAfter(a, serial, want, t.cut)
    ensures FlushesOwn(log, lo, serial)
  {
    forall i | lo <= i < |log| ensures FlushesHome(log[i], serial) {
      if log[i].FlushPath? {
        FlushesArePaths(a, log, lo, serial, want, t, i);
      } else if log[i].FlushMap? {
        FlushesTheMap(a, log, lo, serial, want, t, i);
      }
    }
  }

  lemma TriedOneMore(a: State, stale: map<Sd, Path>, sd: Sd, log: seq<Event>)
    requires sd in stale && DeletesOf(a, stale - {sd}, log, 0, |log|)
    requires Attempted(log, 0, |log|) == stale.Keys - {sd}
    ensures var all := log + [DeleteTry(sd, stale[sd], Reach(a, stale[sd]))];
            DeletesOf(a, stale, all, 0, |all|) && Attempted(all, 0, |all|) == stale.Keys
  {
    AttemptedOneMore(log, 0, DeleteTry(sd, stale[sd], Reach(a, stale[sd])));
  }

  lemma {:induction false} AllTried(a: State, stale: map<Sd, Path>) returns (log: seq<Event>)
    requires Submap(stale, a.paths)
    ensures DeletesOf(a, stale, log, 0, |log|) && Attempted(log, 0, |log|) == stale.Keys
    decreases |stale|
  {
    if stale == map[] {
      return [];
    }
    var sd :| sd in stale;
    var before := AllTried(a, stale - {sd});
    TriedOneMore(a, stale, sd, before);
    log := before + [DeleteTry(sd, stale[sd], Reach(a, stale[sd]))];
  }

  /** Where the paths under the volume's map lead, those cut aside. */
  function DownBut(a: State, serial: Serial, cut: set<Sd>): map<Sd, Option<Serial>> {
    map sd | sd in Members(a, Volume(serial)) && sd !in cut && sd in a.paths :: Reach(a, a.paths[sd])
  }

  function MapCommands(a: State, serial: Serial, cut: set<Sd>): seq<Event> {
    var m := Volume(serial);
    if HasMap(a, serial) then [QueueOff(m), FlushMap(m, DownBut(a, serial, cut)), DropTry(m)] else []
  }

  function PathCommands(a: State, p: map<Sd, Path>, sd: Option<Sd>): seq<Event>
    requires sd.Some? ==> sd.value in p
  {
    if sd.None? then []
    else [FlushPath(sd.value, p[sd.value], Reach(a, p[sd.value])), DeleteTry(sd.value, p[sd.value], Reach(a, p[sd.value]))]
  }

  ghost predicate ShowsMapDown(a: State, serial: Serial, cut: set<Sd>, log: seq<Event>, at: nat) {
    && at + 2 < |log| && log[at] == QueueOff(Volume(serial)) && log[at + 2] == DropTry(Volume(serial))
    && log[at + 1] == FlushMap(Volume(serial), DownBut(a, serial, cut))
  }

  lemma MapCommandsFlush(a: State, serial: Serial, cut: set<Sd>, before: seq<Event>, after: seq<Event>)
    requires Wf(a) && HasMap(a, serial)
    ensures var log := before + MapCommands(a, serial, cut) + after;
            && MapDown(a, serial, true, cut, log, |before|, |before| + 3)
            && ShowsMapDown(a, serial, cut, log, |before|)
  {
    var log := before + MapCommands(a, serial, cut) + after;
    assert log[|before| + 1..|before| + 3] == [log[|before| + 1], log[|before| + 2]];
  }

  lemma PathCommandsFlush(a: State, valid: map<Sd, Path>, sd: Option<Sd>, before: seq<Event>)
    requires valid.Keys == if sd.Some? then {sd.value} else {}
    ensures var log := before + PathCommands(a, valid, sd);
            && FlushesAndDeletes(a, valid, log, |before|, |log|)
            && Attempted(log, |before|, |log|) == valid.Keys
  {
    var log := before + PathCommands(a, valid, sd);
    if sd.Some? {
      assert log[|before| + 1].DeleteTry? && log[|before| + 1].sd == sd.value;
      assert forall i | |before| <= i < |log| :: FlushesOrDeletes(a, valid, log, |before|, i);
    }
  }

  lemma Matched(a: State, serial: Serial, want: Option<map<int, Serial>>, cut: set<Sd>, sd: Option<Sd>)
    returns (stale: map<Sd, Path>, valid: map<Sd, Path>)
    requires cut <= StalePaths(a, serial, want)
    requires if sd.Some? then sd.value in Carrying(a, serial) && MayFlush(want, serial, a.paths[sd.value]) else want.None?
    ensures stale.Keys == cut && valid.Keys == if sd.Some? then {sd.value} else {}
    ensures Submap(stale + valid, a.paths) && Submap(stale, a.paths) && (stale + valid).Keys <= Carrying(a, serial)
    ensures Submap(valid, stale + valid) && stale + valid - valid.Keys == stale
    ensures if want.Some? then forall x | x in valid :: Get(want.value, valid[x].lun) == serial else valid == stale + valid
  {
    stale := map x | x in cut && x in a.paths :: a.paths[x];
    valid := if sd.Some? then map[sd.value := a.paths[sd.value]] else map[];
  }

  /** A detach that manages to delete cut of the stale paths, then flushes the map if there is one, and
      last the path sd, if there is one it may flush. */
  lemma OneDetach(a: State, serial: Serial, want: Option<map<int, Serial>>, cut: set<Sd>, sd: Option<Sd>)
    returns (log: seq<Event>, t: DetachTrace)
    requires Wf(a) && cut <= StalePaths(a, serial, want)
    requires if sd.Some? then sd.value in Carrying(a, serial) && MayFlush(want, serial, a.paths[sd.value]) else want.None?
    ensures DetachedLog(a, log, 0, serial, want, t) && t.cut == cut && !t.untouched && !t.seen
    ensures StaleOf(t).Keys == cut && t.gone == t.matched.Keys == cut + if sd.Some? then {sd.value} else {}
    ensures sd.Some? ==> |log| >= 2 && log[|log| - 2] == FlushPath(sd.value, a.paths[sd.value], Reach(a, a.paths[sd.value]))
    ensures HasMap(a, serial) ==> ShowsMapDown(a, serial, cut, log, t.stales)
  {
    var stale, valid := Matched(a, serial, want, cut, sd);
    var log0 := AllTried(a, stale);
    var log1 := log0 + MapCommands(a, serial, cut);
    log := log1 + PathCommands(a, valid, sd);
    t := DetachTrace(false, false, stale + valid, valid, cut, cut + valid.Keys, |log0|, |log1|, |log|);
    assert StaleOf(t) == stale;
    OneDetachIsOne(a, serial, want, sd, log0, t);
  }

  lemma OneDetachIsOne(a: State, serial: Serial, want: Option<map<int, Serial>>, sd: Option<Sd>,
                       log0: seq<Event>, t: DetachTrace)
    requires Wf(a) && t.valid.Keys == if sd.Some? then {sd.value} else {}
    requires Submap(t.matched, a.paths) && t.matched.Keys <= Carrying(a, serial) && Submap(t.valid, t.matched)
    requires if want.Some? then forall x | x in t.valid :: Get(want.value, t.valid[x].lun) == serial else t.valid == t.matched
    requires want.None? || sd.Some?
    requires t.cut == StaleOf(t).Keys && !t.seen && !t.untouched
    requires DeletesOf(a, StaleOf(t), log0, 0, |log0|) && Attempted(log0, 0, |log0|) == StaleOf(t).Keys
    requires var log1 := log0 + MapCommands(a, serial, t.cut);
             t.stales == |log0| && t.maps == |log1| && t.rest == |log1 + PathCommands(a, t.valid, sd)|
    ensures var log := log0 + MapCommands(a, serial, t.cut) + PathCommands(a, t.valid, sd);
            DetachedLog(a, log, 0, serial, want, t) && (HasMap(a, serial) ==> ShowsMapDown(a, serial, t.cut, log, t.stales))
  {
    var log1 := log0 + MapCommands(a, serial, t.cut);
    var log := log1 + PathCommands(a, t.valid, sd);
    DeletesPersist(a, StaleOf(t), log0, log, 0, |log0|);
    if HasMap(a, serial) {
      MapCommandsFlush(a, serial, t.cut, log0, PathCommands(a, t.valid, sd));
    }
    PathCommandsFlush(a, t.valid, sd, log1);
  }

  /** Exactly when no detach that manages to delete cut of the volume's stale paths can flush into
      another volume, whatever it was told of the LUNs: when no path of the volume it may flush
      reaches another, and if it may flush the map, no path left under that does. */
  lemma FlushesStayHomeIff(a: State, serial: Serial, want: Option<map<int, Serial>>, cut: set<Sd>)
    requires Wf(a) && cut <= StalePaths(a, serial, want)
    ensures SafeAfter(a, serial, want, cut) <==>
            forall log: seq<Event>, lo: nat, t: DetachTrace | DetachedLog(a, log, lo, serial, want, t) && t.cut == cut ::
              FlushesOwn(log, lo, serial)
  {
    if SafeAfter(a, serial, want, cut) {
      forall log: seq<Event>, lo: nat, t: DetachTrace | DetachedLog(a, log, lo, serial, want, t) && t.cut == cut
        ensures FlushesOwn(log, lo, serial)
      {
        SafeFlushes(a, log, lo, serial, want, t);
      }
    } else {
      var log, t := StrayFlush(a, serial, want, cut);
      assert !FlushesOwn(log, 0, serial);
    }
  }

  /** Otherwise some detach does: down a path, or down the map. */
  lemma StrayFlush(a: State, serial: Serial, want: Option<map<int, Serial>>, cut: set<Sd>)
    returns (log: seq<Event>, t: DetachTrace)
    requires Wf(a) && cut <= StalePaths(a, serial, want) && !SafeAfter(a, serial, want, cut)
    ensures DetachedLog(a, log, 0, serial, want, t) && t.cut == cut && !FlushesOwn(log, 0, serial)
  {
    if sd :| sd in Carrying(a, serial) && MayFlush(want, serial, a.paths[sd]) && !OwnOrNothing(a, a.paths[sd], serial) {
      log, t := OneDetach(a, serial, want, cut, Some(sd));
      assert !FlushesHome(log[|log| - 2], serial);
    } else {
      log, t := StrayMapFlush(a, serial, want, cut);
    }
  }

  lemma StrayMapFlush(a: State, serial: Serial, want: Option<map<int, Serial>>, cut: set<Sd>)
    returns (log: seq<Event>, t: DetachTrace)
    requires Wf(a) && cut <= StalePaths(a, serial, want) && MayFlushMap(a, serial, want) && !MembersHome(a, serial, cut)
    ensures DetachedLog(a, log, 0, serial, want, t) && t.cut == cut && !FlushesOwn(log, 0, serial)
  {
    var p := None;
    if sd :| sd in Carrying(a, serial) && MayFlush(want, serial, a.paths[sd]) {
      p := Some(sd);
    }
    log, t := OneDetach(a, serial, want, cut, p);
    assert a.maps[Volume(serial)] <= a.paths.Keys;
    var x :| x in Members(a, Volume(serial)) && x !in cut && !OwnOrNothing(a, a.paths[x], serial);
    assert log[t.stales + 1].down[x] == Reach(a, a.paths[x]);
    assert !FlushesHome(log[t.stales + 1], serial);
  }

  /** And whichever deletions fail: when that holds with none of them made. */
  lemma AllFlushesStayHomeIff(a: State, serial: Serial, want: Option<map<int, Serial>>)
    requires Wf(a)
    ensures SafeAfter(a, serial, want, {}) <==>
            forall log: seq<Event>, lo: nat, t: DetachTrace | DetachedLog(a, log, lo, serial, want, t) ::
              FlushesOwn(log, lo, serial)
  {
    if SafeAfter(a, serial, want, {}) {
      forall log: seq<Event>, lo: nat, t: DetachTrace | DetachedLog(a, log, lo, serial, want, t)
        ensures FlushesOwn(log, lo, serial)
      {
        SafeFlushes(a, log, lo, serial, want, t);
      }
    } else {
      FlushesStayHomeIff(a, serial, want, {});
    }
  }

  /** No path under the volume's map that claims to be another's leads to another volume. */
  ghost predicate NoneForeign(a: State, serial: Serial) {
    forall sd | sd in Members(a, Volume(serial)) ::
      sd in a.paths && (sd in Carrying(a, serial) || OwnOrNothing(a, a.paths[sd], serial))
  }

  /** A list that leaves out and contradicts nothing the array maps makes it so, as long as every stale
      path under the map is deleted and no foreign one is there. */
  lemma HonestListIsSafe(a: State, serial: Serial, want: map<int, Serial>, cut: set<Sd>)
    requires Submap(a.luns, want) && serial != ""
    requires NoneForeign(a, serial) && Members(a, Volume(serial)) * StalePaths(a, serial, Some(want)) <= cut
    ensures SafeAfter(a, serial, Some(want), cut)
  {
    forall sd | sd in Members(a, Volume(serial)) && sd !in cut ensures sd in a.paths && OwnOrNothing(a, a.paths[sd], serial) {
      assert sd in Carrying(a, serial) ==> sd !in StalePaths(a, serial, Some(want));
    }
  }

  /** An input: the volume was taken away and its LUN given to another while this host kept the
      path, and the array does not answer. The detach may flush the path into the other volume. */
  lemma FlushedIntoAnother(a: State, v: Serial, other: Serial) returns (log: seq<Event>, t: DetachTrace)
    requires Wf(a) && v != other && a.paths == map["sda" := Path(1, Volume(v), 0)] && a.luns == map[1 := other]
    ensures DetachedLog(a, log, 0, v, None, t)
    ensures exists i | 0 <= i < |log| :: log[i] == FlushPath("sda", a.paths["sda"], Some(other))
    ensures !SafeToFlush(a, v, None)
  {
    assert "sda" in Carrying(a, v);
    log, t := OneDetach(a, v, None, {}, Some("sda"));
    assert log[|log| - 2] == FlushPath("sda", a.paths["sda"], Some(other));
  }

  /** Both paths of v are under its map, and the first one's LUN is another volume's by now. */
  predicate StaleMember(a: State, v: Serial, other: Serial) {
    && v != other && v != "" && a.running
    && a.paths == map["sda" := Path(1, Volume(v), 0), "sdb" := Path(2, Volume(v), 1)]
    && a.luns == map[1 := other, 2 := v] && a.maps == map[Volume(v) := {"sda", "sdb"}]
  }

  lemma StaleMemberPaths(a: State, v: Serial, other: Serial)
    requires StaleMember(a, v, other)
    ensures Carrying(a, v) == {"sda", "sdb"} && StalePaths(a, v, Some(a.luns)) == {"sda"}
    ensures SafeToFlush(a, v, Some(a.luns))
  {
  }

  /** Another input: with an honest list, the deletion of the stale path fails, and the map is flushed
      with that path still under it. */
  lemma MapFlushedIntoAnother(a: State, v: Serial, other: Serial) returns (log: seq<Event>, t: DetachTrace)
    requires Wf(a) && StaleMember(a, v, other)
    ensures SafeToFlush(a, v, Some(a.luns)) && DetachedLog(a, log, 0, v, Some(a.luns), t) && t.cut == {}
    ensures exists i | 0 <= i < |log| :: log[i].FlushMap? && "sda" in log[i].down && log[i].down["sda"] == Some(other)
  {
    StaleMemberPaths(a, v, other);
    log, t := OneDetach(a, v, Some(a.luns), {}, Some("sdb"));
    assert "sda" in Members(a, Volume(v)) && log[t.stales + 1].down["sda"] == Some(other);
  }

  /** By the time anything is flushed, every stale path has been tried; and the map is flushed
      only if a path that may be flushed is left, or the array could not be asked. */
  lemma StalePathsGoFirst(a: State, log: seq<Event>, lo: nat, serial: Serial,
                          want: Option<map<int, Serial>>, t: DetachTrace, i: nat)
    requires DetachedLog(a, log, lo, serial, want, t)
    requires lo <= i < |log| && (log[i].FlushPath? || log[i].FlushMap?)
    ensures t.stales <= i && Attempted(log, lo, t.stales) == t.matched.Keys - t.valid.Keys
    ensures log[i].FlushMap? ==> log[i].m == Volume(serial) && (want.None? || t.valid != map[])
  {
    forall k | lo <= k < t.stales ensures log[k].DeleteTry? {}
    if t.stales < i < t.maps {
      assert log[t.stales + 1..t.maps][i - t.stales - 1] == log[i];
    } else if t.maps <= i < t.rest {
      assert FlushesOrDeletes(a, t.valid, log, t.maps, i);
    }
  }

  /** A held map that a detach takes down all the same: the look at its holders failed. */
  lemma HeldMapTakenDown(a: State, serial: Serial) returns (log: seq<Event>, t: DetachTrace)
    requires Wf(a) && InTheWay(a, serial)
    ensures DetachedLog(a, log, 0, serial, None, t) && !t.untouched && !t.seen
    ensures QueueOff(Volume(serial)) in log && DropTry(Volume(serial)) in log
  {
    log, t := OneDetach(a, serial, None, {}, None);
    assert log[t.stales] == QueueOff(Volume(serial)) && log[t.stales + 2] == DropTry(Volume(serial));
  }

  // The device -------------------------------------------------------------------------------

  datatype Device = MapDev(m: Ident) | Disk(sd: Sd)

  /** The disks under a device. */
  function PathsOf(w: State, d: Device): set<Sd> {
    match d
    case MapDev(m) => Members(w, m)
    case Disk(sd) => if sd in w.paths then {sd} else {}
  }

  /** iscsi.findDevice: a link counts only if what it points at carries the volume's identity. */
  method FindDevice(h: Host, serial: Serial, requirePaths: bool) returns (d: Option<Device>)
    ensures d.Some? ==>
      match d.value
      case MapDev(m) => m == Volume(serial) && m in h.w.maps
      case Disk(sd) => sd in h.w.paths && h.w.paths[sd].id == Volume(serial)
    ensures d.Some? && requirePaths ==> PathsOf(h.w, d.value) != {}
    ensures d.Some? ==> (d.value.MapDev? <==> h.w.running)
    ensures h.calm && h.w.running ==>
      (d.Some? <==> Volume(serial) in h.w.maps && (requirePaths ==> h.w.maps[Volume(serial)] != {}))
  {
    var link: Sd := *;
    var hidden: bool := *;
    if hidden && !h.calm {
      return None;
    } else if !h.w.running {
      return if link in h.w.paths && h.w.paths[link].id == Volume(serial) then Some(Disk(link)) else None;
    }
    var m := Volume(serial);
    return if m in h.w.maps && (!requirePaths || h.w.maps[m] != {}) then Some(MapDev(m)) else None;
  }

  /** What multipathd files under m that is another volume's by its identity. */
  function ForeignFiled(w: State, m: Ident): set<Sd> {
    set sd | sd in w.pathvec && w.pathvec[sd].id == Some(m) &&
             Membership.KernelWwid(w, sd) != None && Membership.KernelWwid(w, sd) != Some(m)
  }

  /** No disk multipathd would add to this map is another volume's by its identity. */
  predicate NothingForeignFiled(w: State, m: Ident) {
    ForeignFiled(w, m) == {}
  }

  /** What CheckLUN lets pass. named: the device is a map whose WWID could be read; unread: the disks
      multipathd files under it whose identity could not. */
  ghost predicate Passes(w: State, d: Device, lun: int, named: bool, unread: set<Sd>) {
    && PathsOf(w, d) != {} && (named ==> d.MapDev?)
    && (forall sd | sd in PathsOf(w, d) :: OnItsLun(w, d, lun, named, sd))
    && (named && w.running ==> ForeignFiled(w, d.m) <= unread)
  }

  predicate OnItsLun(w: State, d: Device, lun: int, named: bool, sd: Sd)
    requires named ==> d.MapDev?
  {
    sd in w.paths && w.paths[sd].lun == lun && (named ==> Membership.KernelWwid(w, sd) == Some(d.m))
  }

  /** All CheckLUN looks for. */
  ghost predicate Fit(w: State, d: Device, lun: int) {
    Passes(w, d, lun, d.MapDev?, {})
  }

  /** CheckLUN's first loop: the device's own paths. */
  method CheckMembers(h: Host, d: Device, lun: int, named: bool) returns (ok: bool)
    requires named ==> d.MapDev?
    ensures ok ==> forall sd | sd in PathsOf(h.w, d) :: OnItsLun(h.w, d, lun, named, sd)
    ensures (h.calm || h.readable) && !ok ==> exists sd :: sd in PathsOf(h.w, d) && !OnItsLun(h.w, d, lun, named, sd)
  {
    var todo := PathsOf(h.w, d);
    while todo != {}
      invariant todo <= PathsOf(h.w, d)
      invariant forall sd | sd in PathsOf(h.w, d) - todo :: OnItsLun(h.w, d, lun, named, sd)
      decreases |todo|
    {
      var p :| p in todo;
      todo := todo - {p};
      var unread: bool := *;
      if (unread && !h.calm && !h.readable) || p !in h.w.paths || h.w.paths[p].lun != lun {
        return false;
      }
      if named {
        var kw, known := Membership.ReadKernelWwid(h, p);
        if kw != Some(d.m) {
          return false;
        }
      }
    }
    return true;
  }

  /** Its second: what multipathd files under the map. A disk whose identity cannot be read is passed
      over. */
  method CheckFiled(h: Host, m: Ident) returns (ok: bool, ghost unread: set<Sd>)
    ensures ok <==> ForeignFiled(h.w, m) <= unread
    ensures h.calm || h.readable ==> unread == {}
  {
    unread := {};
    var known := h.w.pathvec;
    var todo := known.Keys;
    while todo != {}
      invariant todo <= known.Keys && (h.calm || h.readable ==> unread == {})
      invariant forall sd | sd in ForeignFiled(h.w, m) && sd !in todo :: sd in unread
      invariant unread !! todo
      decreases |todo|
    {
      var p :| p in todo;
      todo := todo - {p};
      if known[p].id == Some(m) {
        var kw, read := Membership.ReadKernelWwid(h, p);
        if !read {
          unread := unread + {p};
        } else if kw.Some? && kw != Some(m) {
          assert p in ForeignFiled(h.w, m) && p !in unread;
          return false, unread;
        }
      }
    }
    return true, unread;
  }

  /** iscsi.CheckLUN. */
  method CheckLun(h: Host, d: Device, lun: int) returns (ok: bool, ghost named: bool, ghost unread: set<Sd>)
    ensures ok ==> Passes(h.w, d, lun, named, unread)
    ensures ok ==> forall sd | sd in PathsOf(h.w, d) ::
      sd in h.w.paths && h.w.paths[sd].lun == lun && (named ==> d.MapDev? && h.w.paths[sd].id == d.m)
    ensures h.calm || h.readable ==> named == d.MapDev? && unread == {}
    ensures h.calm ==> (ok <==> Fit(h.w, d, lun))
  {
    unread := {};
    var unlisted: bool, unnamed: bool := *, *;
    unlisted, unnamed := unlisted && !h.calm && !h.readable, unnamed && !h.calm && !h.readable;
    var isNamed := d.MapDev? && !unnamed;
    named := isNamed;
    if PathsOf(h.w, d) == {} || unlisted {
      return false, named, unread; // a dm device is on no LUN itself
    }
    ok := CheckMembers(h, d, lun, isNamed);
    if !ok || !isNamed || !h.w.running {
      return;
    }
    var unanswered: bool := *;
    if unanswered && !h.calm {
      return false, named, unread;
    }
    ok, unread := CheckFiled(h, d.m);
  }

  /** A check that passed means that nothing foreign is filed under the map exactly if every foreign
      disk filed there could be read. */
  lemma PassedIsCleanIff(w: State, d: Device, lun: int, unread: set<Sd>)
    requires Passes(w, d, lun, true, unread) && w.running
    ensures NothingForeignFiled(w, d.m) <==> ForeignFiled(w, d.m) !! unread
  {
  }

  /** One that could not passes: the node is ready to add the disk to the map it lets be mounted. */
  lemma UnreadableForeignPasses(w: State, v: Serial, other: Serial)
    requires v != other && w.running
    requires w.paths == map["sda" := Path(1, Volume(v), 0), "sdb" := Path(2, Volume(other), 1)]
    requires w.maps == map[Volume(v) := {"sda"}]
    requires w.pathvec == map["sda" := Entry(Some(Volume(v)), 0), "sdb" := Entry(Some(Volume(v)), 1)]
    ensures Passes(w, MapDev(Volume(v)), 1, true, {"sdb"}) && !Passes(w, MapDev(Volume(v)), 1, true, {})
    ensures ForeignFiled(w, Volume(v)) == {"sdb"}
  {
    assert Membership.KernelWwid(w, "sdb") == Some(Volume(other));
    assert "sdb" in ForeignFiled(w, Volume(v));
  }

  lemma DetachCommands(a: State, log: seq<Event>, lo: nat, serial: Serial, want: Option<map<int, Serial>>,
                       t: DetachTrace, i: nat)
    requires DetachedLog(a, log, lo, serial, want, t) && lo <= i < |log|
    ensures DetachCommand(log[i])
  {
    if t.stales < i < t.maps {
      assert log[t.stales + 1..t.maps][i - t.stales - 1] == log[i];
    } else if t.maps <= i < t.rest {
      assert FlushesOrDeletes(a, t.valid, log, t.maps, i);
    }
  }
}
