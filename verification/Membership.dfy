/** internal/transport/iscsi.go: keeping multipathd's idea of each path in step with the kernel. */
module Membership {
  import opened Types
  import opened World

  /** What multipathd makes of one path: its record of it, and the maps it is in. */
  datatype Placement = Placement(entry: Option<Entry>, maps: set<Ident>)

  function Place(w: State, sd: Sd): Placement {
    Placement(if sd in w.pathvec then Some(w.pathvec[sd]) else None,
              set m | m in w.maps && sd in w.maps[m])
  }

  /** The identity multipathd ought to file a disk under, or None when the disk shows no NAA
      identity (such a disk is never judged). */
  function KernelWwid(w: State, sd: Sd): Option<Ident> {
    if sd in w.paths && !w.paths[sd].id.Unnamed? then Some(w.paths[sd].id) else None
  }

  /** multipathd's record names another volume. */
  predicate FiledElsewhere(kw: Option<Ident>, at: Placement) {
    kw.Some? && at.entry.Some? && at.entry.value.id.Some? && at.entry.value.id != kw
  }

  /** The maps of other volumes the path is in. */
  function ForeignMaps(kw: Option<Ident>, at: Placement): set<Ident> {
    set m | m in at.maps && kw.Some? && kw.value != m
  }

  predicate Misplaced(kw: Option<Ident>, at: Placement) {
    FiledElsewhere(kw, at) || ForeignMaps(kw, at) != {}
  }

  predicate Misfiled(w: State, sd: Sd) {
    Misplaced(KernelWwid(w, sd), Place(w, sd))
  }

  function MisfiledPaths(w: State): set<Sd> {
    set sd | sd in w.paths && Misfiled(w, sd)
  }

  /** udev has read sd again since the kernel gave it its name. */
  predicate UdevAgrees(w: State, sd: Sd) {
    sd in w.udev && KernelWwid(w, sd) == Some(w.udev[sd])
  }

  lemma PlaceAdded(w: State, sd: Sd, x: Sd)
    requires sd in w.paths
    ensures x != sd ==> Place(Added(w, sd), x) == Place(w, x)
    ensures Place(Added(w, sd), sd) ==
      if sd in w.udev
      then Placement(Some(Entry(Some(w.udev[sd]), w.paths[sd].inst)), Place(w, sd).maps + {w.udev[sd]})
      else Placement(Some(Entry(None, w.paths[sd].inst)), Place(w, sd).maps)
  {
  }

  /** Where a refiled path ends up when every command succeeds: under its own identity if udev
      has it by now, and otherwise nowhere until udev does. */
  function Home(w: State, sd: Sd): Placement {
    if sd in w.paths && UdevAgrees(w, sd)
    then Placement(Some(Entry(Some(w.udev[sd]), w.paths[sd].inst)), {w.udev[sd]})
    else Placement(None, {})
  }

  /** b is a with all of sds refiled and nothing else touched. */
  ghost predicate RefiledAll(a: State, sds: set<Sd>, b: State) {
    && b == a.(pathvec := b.pathvec, maps := b.maps)
    && forall sd :: Place(b, sd) == if sd in sds then Home(a, sd) else Place(a, sd)
  }

  /** What a sweep has to refile: whatever is in a map of this array it does not belong to, and
      every path of this array multipathd files elsewhere. */
  predicate NeedsRefile(prefix: string, kw: Option<Ident>, at: Placement) {
    || (exists m | m in ForeignMaps(kw, at) :: OfArray(prefix, m))
    || (kw.Some? && OfArray(prefix, kw.value) && FiledElsewhere(kw, at))
  }

  function ToRefile(w: State, prefix: string): set<Sd> {
    set sd | sd in w.paths && NeedsRefile(prefix, KernelWwid(w, sd), Place(w, sd))
  }

  /** Read off the node: a path with an identity that is in a map of this array other than its own volume's, or
      one of this array that multipathd's record gives another identity; a record without one is left alone. */
  lemma ToRefileIff(w: State, prefix: string, sd: Sd)
    ensures sd in ToRefile(w, prefix) <==>
            && sd in w.paths && !w.paths[sd].id.Unnamed?
            && var id := w.paths[sd].id;
               || (exists m | m in w.maps && OfArray(prefix, m) :: sd in w.maps[m] && m != id)
               || (OfArray(prefix, id) && sd in w.pathvec && w.pathvec[sd].id.Some? && w.pathvec[sd].id != Some(id))
  {
    if m :| m in w.maps && OfArray(prefix, m) && sd in w.maps[m] {
      assert m in Place(w, sd).maps;
    }
  }

  /** kernelWWID and mapWWID read sysfs; ok is false when a read fails. */
  method ReadKernelWwid(h: Host, sd: Sd) returns (id: Option<Ident>, ok: bool)
    ensures ok ==> id == KernelWwid(h.w, sd)
    ensures !ok ==> id == None
    ensures h.calm || h.readable ==> ok
  {
    var fails: bool := *;
    fails := fails && !h.calm && !h.readable;
    return if fails then None else KernelWwid(h.w, sd), !fails;
  }

  /** udev's identity for sd; known is false when its database cannot be read at all. */
  method ReadUdev(h: Host, sd: Sd) returns (id: Option<Ident>, known: bool)
    ensures known ==> id == if sd in h.w.udev then Some(h.w.udev[sd]) else None
    ensures h.calm ==> known
  {
    var fails: bool := *;
    if fails && !h.calm {
      return None, false;
    }
    return if sd in h.w.udev then Some(h.w.udev[sd]) else None, true;
  }

  /** How placements may change when one path is dropped and perhaps taken again. */
  ghost predicate OnlyMoved(a: State, sd: Sd, b: State) {
    && MultipathdRan(a, b)
    && forall x | x != sd :: Place(b, x) == Place(a, x)
  }

  /** A path added without a look at udev (its database could not be read) is misfiled by that
      exactly when udev still has another identity for it. */
  lemma AddedBlindly(w: State, sd: Sd)
    requires sd in w.paths && sd !in w.pathvec && sd in w.udev && KernelWwid(w, sd).Some?
    ensures Misfiled(Added(w, sd), sd) <==> Misfiled(w, sd) || !UdevAgrees(w, sd)
  {
  }

  lemma MovedWithoutHarm(a: State, sd: Sd, b: State)
    requires OnlyMoved(a, sd, b) && (Misfiled(b, sd) ==> Misfiled(a, sd))
    ensures MisfiledPaths(b) <= MisfiledPaths(a)
  {
  }

  lemma DroppingMoves(a: State, w: State, sd: Sd)
    requires OnlyMoved(a, sd, w) && w.running
    ensures OnlyMoved(a, sd, Dropped(w, sd)) && Place(Dropped(w, sd), sd) == Placement(None, {})
  {
  }

  lemma AddingMoves(a: State, w: State, sd: Sd)
    requires OnlyMoved(a, sd, w) && w.running && sd in w.paths
    ensures OnlyMoved(a, sd, Added(w, sd))
  {
    forall x | x != sd ensures Place(Added(w, sd), x) == Place(a, x) {
      PlaceAdded(w, sd, x);
    }
  }

  lemma DroppedAndTaken(a: State, sd: Sd)
    requires Wf(a) && a.running && sd in a.paths
    ensures OnlyMoved(a, sd, Added(Dropped(a, sd), sd)) && OnlyMoved(a, sd, Dropped(a, sd))
    ensures UdevAgrees(a, sd) ==> Place(Added(Dropped(a, sd), sd), sd) == Home(a, sd)
    ensures Place(Dropped(a, sd), sd) == Placement(None, {})
  {
    DroppingMoves(a, a, sd);
    AddingMoves(a, Dropped(a, sd), sd);
    PlaceAdded(Dropped(a, sd), sd, sd);
  }

  /** iscsi.refile. clean: every command worked and udev could be read. */
  method Refile(h: Host, sd: Sd, kw: Ident, inMap: bool) returns (ghost clean: bool)
    requires Wf(h.w) && KernelWwid(h.w, sd) == Some(kw)
    modifies h`w, h`log
    ensures OnlyMultipathdSince(old(h.log), h.log)
    ensures Wf(h.w) && OnlyMoved(old(h.w), sd, h.w)
    ensures clean ==> Place(h.w, sd) == Home(old(h.w), sd)
    ensures h.calm && old(h.w).running ==> clean
    ensures clean ==>
      h.log == old(h.log)
      + (if inMap then [Multipathd("fail", sd)] else []) + [Multipathd("del", sd)]
      + (if UdevAgrees(old(h.w), sd) then [Multipathd("add", sd)] else [Reprobe(sd)])
  {
    ghost var log := h.log;
    if inMap {
      h.FailPath(sd);
    }
    ghost var told := h.log;
    clean := DropAndTake(h, sd, kw);
    assert told == log + if inMap then [Multipathd("fail", sd)] else [];
  }

  /** The rest of iscsi.refile: drop the record, and take the path again if udev agrees, or if its
      database cannot be read. */
  method DropAndTake(h: Host, sd: Sd, kw: Ident) returns (ghost clean: bool)
    requires Wf(h.w) && KernelWwid(h.w, sd) == Some(kw)
    modifies h`w, h`log
    ensures OnlyMultipathdSince(old(h.log), h.log)
    ensures Wf(h.w) && OnlyMoved(old(h.w), sd, h.w)
    ensures clean ==> Place(h.w, sd) == Home(old(h.w), sd)
    ensures h.calm && old(h.w).running ==> clean
    ensures clean ==>
      h.log == old(h.log) + [Multipathd("del", sd)]
      + (if UdevAgrees(old(h.w), sd) then [Multipathd("add", sd)] else [Reprobe(sd)])
  {
    ghost var a := h.w;
    if a.running {
      DroppedAndTaken(a, sd);
      AddingMoves(a, a, sd);
    }
    var gone := h.DelPath(sd);
    var u, known := ReadUdev(h, sd);
    clean := gone && known;
    if !known || u == Some(kw) {
      var added := h.AddPath(sd);
      clean := clean && added;
    } else {
      h.AskUdev(sd);
    }
  }

  /** b is a, or a with p dropped. */
  ghost predicate DroppedOrNot(a: State, p: Sd, b: State) {
    OnlyMoved(a, p, b) && Place(b, p).maps <= Place(a, p).maps
  }

  lemma DroppedHarmlessly(a: State, p: Sd)
    requires Wf(a) && a.running
    ensures DroppedOrNot(a, p, Dropped(a, p)) && MisfiledPaths(Dropped(a, p)) <= MisfiledPaths(a)
  {
    DroppingMoves(a, a, p);
    MovedWithoutHarm(a, p, Dropped(a, p));
  }

  /** Taken anew, only p itself can come to be misfiled. */
  lemma TakenAnew(a: State, b: State, p: Sd)
    requires DroppedOrNot(a, p, b) && a.running && p in a.paths
    ensures OnlyMoved(a, p, Added(b, p)) && MisfiledPaths(Added(b, p)) <= MisfiledPaths(a) + {p}
  {
    AddingMoves(a, b, p);
    forall x | x in MisfiledPaths(Added(b, p)) && x != p ensures x in MisfiledPaths(a) {
      assert Place(Added(b, p), x) == Place(a, x) && KernelWwid(a, x) == KernelWwid(b, x);
    }
  }

  /** It ends up where udev has it, which misfiles it exactly if udev is out of date. */
  lemma TakenWhereUdevHasIt(a: State, b: State, p: Sd)
    requires DroppedOrNot(a, p, b) && p in a.paths && KernelWwid(a, p).Some? && p in a.udev
    ensures UdevAgrees(a, p) ==> Place(Added(b, p), p).entry == Home(a, p).entry
    ensures UdevAgrees(a, p) && Misfiled(Added(b, p), p) ==> Misfiled(a, p)
    ensures !UdevAgrees(a, p) ==> Misfiled(Added(b, p), p)
  {
    PlaceAdded(b, p, p);
  }

  /** All that AddPath does to a path that was dropped before, or not. */
  lemma TakenPath(a: State, b: State, p: Sd)
    requires DroppedOrNot(a, p, b) && a.running && p in a.paths && KernelWwid(a, p).Some?
    ensures OnlyMoved(a, p, Added(b, p)) && MisfiledPaths(Added(b, p)) <= MisfiledPaths(a) + {p}
    ensures UdevAgrees(a, p) ==>
      MisfiledPaths(Added(b, p)) <= MisfiledPaths(a) && Place(Added(b, p), p).entry == Home(a, p).entry
    ensures p in a.udev && !UdevAgrees(a, p) ==> Misfiled(Added(b, p), p)
  {
    TakenAnew(a, b, p);
    if p in a.udev {
      TakenWhereUdevHasIt(a, b, p);
      if UdevAgrees(a, p) {
        MovedWithoutHarm(a, p, Added(b, p));
      }
    }
  }

  /** iscsi.addPath, for a disk whose sysfs identity is wwid; known is an earlier reading of
      multipathd's records. legible: udev's database could be read. took: multipathd took p anew. */
  method TakePath(h: Host, p: Sd, wwid: Ident, known: map<Sd, Entry>) returns (ghost legible: bool, ghost took: bool)
    requires Wf(h.w) && KernelWwid(h.w, p) == Some(wwid)
    modifies h`w, h`log
    ensures OnlyMultipathdSince(old(h.log), h.log)
    ensures Wf(h.w) && OnlyMoved(old(h.w), p, h.w)
    ensures p in known && known[p].id == Some(wwid) ==> h.w == old(h.w) && h.log == old(h.log)
    ensures h.calm ==> legible
    ensures h.calm && old(h.w).running && UdevAgrees(old(h.w), p) && (p in known <==> p in old(h.w).pathvec) ==>
      (p in known && known[p].id == Some(wwid)) || Place(h.w, p).entry == Home(old(h.w), p).entry
    ensures legible || !took || UdevAgrees(old(h.w), p) ==> MisfiledPaths(h.w) <= MisfiledPaths(old(h.w))
    ensures MisfiledPaths(h.w) <= MisfiledPaths(old(h.w)) + {p}
    ensures took && p in old(h.w).udev && !UdevAgrees(old(h.w), p) ==> !legible && Misfiled(h.w, p)
    ensures legible && !UdevAgrees(old(h.w), p) ==> h.w == old(h.w)
    ensures !(p in known && known[p].id == Some(wwid)) ==>
      var more := h.log[|old(h.log)|..];
      if legible && !UdevAgrees(old(h.w), p) then more == if p in old(h.w).udev then [Reprobe(p)] else []
      else if p !in known then more == [Multipathd("add", p)]
      else more == [Multipathd("del", p)] || more == [Multipathd("del", p), Multipathd("add", p)]
  {
    ghost var a := h.w;
    legible, took := true, false;
    if p in known && known[p].id == Some(wwid) {
      return;
    }
    var u, readable := ReadUdev(h, p);
    legible := readable;
    if readable && u != Some(wwid) {
      if u.Some? {
        h.AskUdev(p);
      }
      return;
    }
    if p in known {
      var gone := h.DelPath(p);
      if !gone {
        return;
      }
      DroppedHarmlessly(a, p);
    }
    if h.w.running {
      TakenPath(a, h.w, p);
    }
    took := h.AddPath(p);
  }

  /** Where fixMembership stands: done is what it has refiled so far. */
  ghost predicate Progress(a: State, prefix: string, done: set<Sd>, w: State, clean: bool) {
    && Wf(w) && MultipathdRan(a, w)
    && MisfiledPaths(w) <= MisfiledPaths(a)
    && (clean ==> done <= ToRefile(a, prefix) && RefiledAll(a, done, w))
  }

  lemma OneMoreRefiled(a: State, prefix: string, done: set<Sd>, w: State, clean: bool,
                       sd: Sd, w': State, clean': bool)
    requires Progress(a, prefix, done, w, clean) && Wf(w') && OnlyMoved(w, sd, w')
    requires sd in w.paths && Misfiled(w, sd)
    requires clean' ==> clean && sd in ToRefile(a, prefix) && Place(w', sd) == Home(w, sd)
    ensures Progress(a, prefix, done + {sd}, w', clean')
  {
    MovedWithoutHarm(w, sd, w');
    assert UdevAgrees(w, sd) == UdevAgrees(a, sd);
  }

  /** sd was in the foreign map m when the sweep began. */
  predicate WasForeign(a: State, sd: Sd, m: Ident) {
    m in ForeignMaps(KernelWwid(a, sd), Place(a, sd))
  }

  /** multipathd filed sd, a path of this array, under another volume when the sweep began. */
  predicate WasFiledElsewhere(a: State, prefix: string, sd: Sd) {
    && KernelWwid(a, sd).Some? && OfArray(prefix, KernelWwid(a, sd).value)
    && FiledElsewhere(KernelWwid(a, sd), Place(a, sd))
  }

  /** The loop body of iscsi.fixMembership for one member of one map. */
  method FixMember(h: Host, m: Ident, sl: Sd, ghost a: State, prefix: string,
                   ghost before: set<Sd>, ghost wasClean: bool)
    returns (ghost done: set<Sd>, ghost clean: bool)
    requires OfArray(prefix, m) && sl in Members(h.w, m)
    requires Progress(a, prefix, before, h.w, wasClean)
    modifies h`w, h`log
    ensures OnlyMultipathdSince(old(h.log), h.log)
    ensures Progress(a, prefix, done, h.w, clean) && OnlyMoved(old(h.w), sl, h.w)
    ensures before <= done && (clean ==> wasClean) && (h.calm && a.running && wasClean ==> clean)
    ensures clean ==> sl in done || !WasForeign(a, sl, m)
    ensures clean && done == {} ==> h.w == old(h.w) && h.log == old(h.log)
  {
    done := before;
    assert m in Place(h.w, sl).maps;
    var kw, ok := ReadKernelWwid(h, sl);
    clean := wasClean && ok;
    if kw.Some? && kw.value != m {
      ghost var w := h.w;
      assert m in ForeignMaps(kw, Place(w, sl));
      ghost var c := Refile(h, sl, kw.value, true);
      OneMoreRefiled(a, prefix, done, w, clean, sl, h.w, clean && c);
      done, clean := done + {sl}, clean && c;
    }
  }

  /** Of what was foreign to m, todo is yet to be looked at. */
  ghost predicate MapDone(a: State, m: Ident, done: set<Sd>, todo: set<Sd>) {
    forall sd | WasForeign(a, sd, m) :: sd in done || sd in todo
  }

  lemma OneMoreMember(a: State, m: Ident, before: set<Sd>, done: set<Sd>, todo: set<Sd>, sl: Sd)
    requires MapDone(a, m, before, todo) && before <= done && (sl in done || !WasForeign(a, sl, m))
    ensures MapDone(a, m, done, todo - {sl})
  {
  }

  lemma OthersStayMembers(w: State, sl: Sd, w': State, m: Ident, slaves: set<Sd>)
    requires slaves <= Members(w, m) && OnlyMoved(w, sl, w')
    ensures slaves - {sl} <= Members(w', m)
  {
    forall x | x in slaves - {sl} ensures x in Members(w', m) {
      assert m in Place(w, x).maps && Place(w', x) == Place(w, x);
    }
  }

  lemma ForeignAreMembers(a: State, prefix: string, done: set<Sd>, w: State, m: Ident)
    requires RefiledAll(a, done, w)
    ensures MapDone(a, m, done, Members(w, m))
  {
    forall sd | WasForeign(a, sd, m) && sd !in done ensures sd in Members(w, m) {
      assert m in Place(a, sd).maps && Place(w, sd) == Place(a, sd);
    }
  }

  /** iscsi.fixMembership on one map of this array. */
  method FixMap(h: Host, m: Ident, ghost a: State, prefix: string,
                ghost before: set<Sd>, ghost wasClean: bool)
    returns (ghost done: set<Sd>, ghost clean: bool)
    requires OfArray(prefix, m) && Progress(a, prefix, before, h.w, wasClean)
    modifies h`w, h`log
    ensures OnlyMultipathdSince(old(h.log), h.log)
    ensures Progress(a, prefix, done, h.w, clean)
    ensures before <= done && (clean ==> wasClean) && (h.calm && a.running && wasClean ==> clean)
    ensures clean ==> MapDone(a, m, done, {})
    ensures clean && done == {} ==> h.w == old(h.w) && h.log == old(h.log)
  {
    done, clean := before, wasClean;
    var slaves := Members(h.w, m);
    if clean {
      ForeignAreMembers(a, prefix, done, h.w, m);
    }
    while slaves != {}
      invariant Progress(a, prefix, done, h.w, clean) && OnlyMultipathdSince(old(h.log), h.log)
      invariant before <= done && (clean ==> wasClean) && (h.calm && a.running && wasClean ==> clean)
      invariant slaves <= Members(h.w, m) && (clean ==> MapDone(a, m, done, slaves))
      invariant clean && done == {} ==> h.w == old(h.w) && h.log == old(h.log)
      decreases |slaves|
    {
      var sl :| sl in slaves;
      ghost var w, had := h.w, done;
      done, clean := FixMember(h, m, sl, a, prefix, done, clean);
      OthersStayMembers(w, sl, h.w, m, slaves);
      if clean {
        OneMoreMember(a, m, had, done, slaves, sl);
      }
      slaves := slaves - {sl};
    }
  }

  /** The loop body of iscsi.fixMembership for one of multipathd's records, filed under id. */
  method FixRecord(h: Host, sd: Sd, id: Option<Ident>, ghost a: State, prefix: string,
                   ghost before: set<Sd>, ghost wasClean: bool)
    returns (ghost done: set<Sd>, ghost clean: bool)
    requires Progress(a, prefix, before, h.w, wasClean)
    requires sd in h.w.pathvec && h.w.pathvec[sd].id == id
    modifies h`w, h`log
    ensures OnlyMultipathdSince(old(h.log), h.log)
    ensures Progress(a, prefix, done, h.w, clean) && OnlyMoved(old(h.w), sd, h.w)
    ensures before <= done && (clean ==> wasClean) && (h.calm && a.running && wasClean ==> clean)
    ensures clean && WasFiledElsewhere(a, prefix, sd) ==> sd in done
    ensures clean && done == {} ==> h.w == old(h.w) && h.log == old(h.log)
  {
    done := before;
    var kw, ok := ReadKernelWwid(h, sd);
    clean := wasClean && ok;
    if id.Some? && kw.Some? && id != kw && OfArray(prefix, kw.value) {
      ghost var w := h.w;
      ghost var c := Refile(h, sd, kw.value, false);
      OneMoreRefiled(a, prefix, done, w, clean, sd, h.w, clean && c);
      done, clean := done + {sd}, clean && c;
    }
  }

  /** iscsi.fixMembership, first half: pull paths out of this array's maps. */
  method FixMaps(h: Host, prefix: string) returns (ghost done: set<Sd>, ghost clean: bool)
    requires Wf(h.w)
    modifies h`w, h`log
    ensures OnlyMultipathdSince(old(h.log), h.log)
    ensures Progress(old(h.w), prefix, done, h.w, clean) && (h.calm && old(h.w).running ==> clean)
    ensures clean ==> forall sd, m | OfArray(prefix, m) && WasForeign(old(h.w), sd, m) :: sd in done
    ensures clean && done == {} ==> h.w == old(h.w) && h.log == old(h.log)
  {
    ghost var a := h.w;
    done, clean := {}, true;
    var dms := h.w.maps.Keys;
    while dms != {}
      invariant Progress(a, prefix, done, h.w, clean) && OnlyMultipathdSince(old(h.log), h.log)
      invariant h.calm && a.running ==> clean
      invariant clean ==> forall sd, m | m !in dms && OfArray(prefix, m) && WasForeign(a, sd, m) :: sd in done
      invariant clean && done == {} ==> h.w == a && h.log == old(h.log)
      decreases |dms|
    {
      var m :| m in dms;
      dms := dms - {m};
      var fails: bool := *;
      if fails && !h.calm {
        clean := false;
      } else if OfArray(prefix, m) {
        done, clean := FixMap(h, m, a, prefix, done, clean);
      }
    }
  }

  /** Of the records that filed a path elsewhere, todo are yet to be looked at. */
  ghost predicate RecordsDone(a: State, prefix: string, done: set<Sd>, todo: set<Sd>) {
    forall sd | WasFiledElsewhere(a, prefix, sd) :: sd in done || sd in todo
  }

  lemma OneMoreRecord(a: State, prefix: string, before: set<Sd>, done: set<Sd>, todo: set<Sd>, sd: Sd)
    requires RecordsDone(a, prefix, before, todo) && before <= done && (sd in done || !WasFiledElsewhere(a, prefix, sd))
    ensures RecordsDone(a, prefix, done, todo - {sd})
  {
  }

  lemma FiledAreKnown(a: State, prefix: string, done: set<Sd>, w: State)
    requires RefiledAll(a, done, w)
    ensures RecordsDone(a, prefix, done, w.pathvec.Keys)
  {
    forall sd | WasFiledElsewhere(a, prefix, sd) && sd !in done ensures sd in w.pathvec {
      assert Place(w, sd) == Place(a, sd);
    }
  }

  /** The records of these are still as they were read. */
  ghost predicate AsRead(w: State, known: map<Sd, Entry>, sds: set<Sd>) {
    sds <= known.Keys && forall sd | sd in sds :: Place(w, sd).entry == Some(known[sd])
  }

  lemma OthersStayAsRead(w: State, sd: Sd, w': State, known: map<Sd, Entry>, sds: set<Sd>)
    requires AsRead(w, known, sds) && OnlyMoved(w, sd, w')
    ensures AsRead(w', known, sds - {sd})
  {
  }

  /** iscsi.fixMembership over multipathd's records as it reads them. */
  method FixKnown(h: Host, ghost a: State, prefix: string, ghost before: set<Sd>, ghost wasClean: bool)
    returns (ghost done: set<Sd>, ghost clean: bool)
    requires Progress(a, prefix, before, h.w, wasClean)
    requires wasClean ==> RecordsDone(a, prefix, before, h.w.pathvec.Keys)
    modifies h`w, h`log
    ensures OnlyMultipathdSince(old(h.log), h.log)
    ensures Progress(a, prefix, done, h.w, clean)
    ensures before <= done && (clean ==> wasClean) && (h.calm && a.running && wasClean ==> clean)
    ensures clean ==> RecordsDone(a, prefix, done, {})
    ensures clean && done == {} ==> h.w == old(h.w) && h.log == old(h.log)
  {
    done, clean := before, wasClean;
    var known := h.w.pathvec;
    var sds := known.Keys;
    while sds != {}
      invariant Progress(a, prefix, done, h.w, clean) && OnlyMultipathdSince(old(h.log), h.log)
      invariant before <= done && (clean ==> wasClean) && (h.calm && a.running && wasClean ==> clean)
      invariant AsRead(h.w, known, sds) && (clean ==> RecordsDone(a, prefix, done, sds))
      invariant clean && done == {} ==> h.w == old(h.w) && h.log == old(h.log)
      decreases |sds|
    {
      var sd :| sd in sds;
      ghost var w, had := h.w, done;
      done, clean := FixRecord(h, sd, known[sd].id, a, prefix, done, clean);
      OthersStayAsRead(w, sd, h.w, known, sds);
      if clean {
        OneMoreRecord(a, prefix, had, done, sds, sd);
      }
      OneLess(sds, sd);
      sds := sds - {sd};
    }
  }

  /** iscsi.fixMembership, second half: drop records that file a path under another volume. */
  method FixRecords(h: Host, ghost a: State, prefix: string, ghost before: set<Sd>, ghost wasClean: bool)
    returns (ghost done: set<Sd>, ghost clean: bool)
    requires Progress(a, prefix, before, h.w, wasClean)
    modifies h`w, h`log
    ensures OnlyMultipathdSince(old(h.log), h.log)
    ensures Progress(a, prefix, done, h.w, clean)
    ensures before <= done && (clean ==> wasClean) && (h.calm && a.running && wasClean ==> clean)
    ensures clean ==> RecordsDone(a, prefix, done, {})
    ensures clean && done == {} ==> h.w == old(h.w) && h.log == old(h.log)
  {
    if wasClean {
      FiledAreKnown(a, prefix, before, h.w);
    }
    var fails: bool := *;
    if !h.w.running || (fails && !h.calm) {
      return before, wasClean && !h.w.running;
    }
    done, clean := FixKnown(h, a, prefix, before, wasClean);
  }

  /** iscsi.fixMembership. clean: every command worked and every file could be read. */
  method FixMembership(h: Host, prefix: string) returns (ghost clean: bool)
    requires Wf(h.w)
    modifies h`w, h`log
    ensures OnlyMultipathdSince(old(h.log), h.log)
    ensures Wf(h.w) && MultipathdRan(old(h.w), h.w)
    ensures MisfiledPaths(h.w) <= MisfiledPaths(old(h.w))
    ensures h.calm && old(h.w).running ==> clean
    ensures clean ==> RefiledAll(old(h.w), ToRefile(old(h.w), prefix), h.w)
    ensures clean && ToRefile(old(h.w), prefix) == {} ==> h.w == old(h.w) && h.log == old(h.log)
  {
    ghost var done, firstClean := FixMaps(h, prefix);
    done, clean := FixRecords(h, old(h.w), prefix, done, firstClean);
    if clean {
      assert done == ToRefile(old(h.w), prefix);
    }
  }

  /** What is left after a clean fixMembership: no path in any map of this array it does not
      belong to, no path of this array filed elsewhere, nothing for a second run to do. */
  lemma {:induction false} FixedForGood(a: State, prefix: string, b: State)
    requires RefiledAll(a, ToRefile(a, prefix), b)
    ensures ToRefile(b, prefix) == {}
    ensures forall sd, m | sd in b.paths && OfArray(prefix, m) :: m !in ForeignMaps(KernelWwid(b, sd), Place(b, sd))
    ensures forall sd | sd in b.paths && OfArray(prefix, b.paths[sd].id) :: !FiledElsewhere(KernelWwid(b, sd), Place(b, sd))
    ensures MisfiledPaths(b) == MisfiledPaths(a) - ToRefile(a, prefix)
  {
    forall sd | sd in b.paths
      ensures !NeedsRefile(prefix, KernelWwid(b, sd), Place(b, sd))
      ensures Misfiled(b, sd) <==> Misfiled(a, sd) && sd !in ToRefile(a, prefix)
    {
      assert Place(b, sd) == if sd in ToRefile(a, prefix) then Home(a, sd) else Place(a, sd);
      assert KernelWwid(b, sd) == KernelWwid(a, sd);
      assert ForeignMaps(KernelWwid(a, sd), Home(a, sd)) == {};
    }
    forall sd, m | sd in b.paths && OfArray(prefix, m) && m in ForeignMaps(KernelWwid(b, sd), Place(b, sd))
      ensures false
    {
      assert NeedsRefile(prefix, KernelWwid(b, sd), Place(b, sd));
    }
  }

  /** No path of this array is left in another volume's map exactly when every one that was in
      such a map was also in some map of this array, or was filed elsewhere by multipathd: a
      map of another array is never looked into. */
  lemma NoneLeftInForeignMaps(a: State, prefix: string, b: State)
    requires RefiledAll(a, ToRefile(a, prefix), b)
    ensures (forall sd | sd in b.paths && OfArray(prefix, b.paths[sd].id) ::
               ForeignMaps(KernelWwid(b, sd), Place(b, sd)) == {})
      <==> (forall sd | sd in a.paths && OfArray(prefix, a.paths[sd].id) ::
              ForeignMaps(KernelWwid(a, sd), Place(a, sd)) == {} || sd in ToRefile(a, prefix))
  {
  }

  /** Such a path: in another vendor's map, while multipathd's record of it is right. */
  lemma LeftInAnotherArraysMap(a: State) returns (other: Ident)
    requires a.paths == map["sda" := Path(1, Volume("0123456789abcdef00000001"), 0)]
    requires a.pathvec == map["sda" := Entry(Some(a.paths["sda"].id), 0)]
    requires a.maps == map[Naa("other") := {"sda"}]
    ensures ToRefile(a, "0123456789abcdef") == {} && RefiledAll(a, {}, a)
    ensures other in ForeignMaps(KernelWwid(a, "sda"), Place(a, "sda"))
  {
    other := Naa("other");
    assert Place(a, "sda").maps == {other};
  }
}
