/** internal/driver/known.go: the known-volume file, in memory and on disk, under any interleaving;
    and Get and List of internal/driver/driver.go, which fall back on it. */
module Known {
  import opened Types

  type Names = map<string, string>

  // setKnown, replaceKnown and saveKnown, step by step ---------------------------------------

  /** Where one goroutine is: it has changed known and waits for saveMu; has saveMu; has also taken
      its snapshot, known's at-th value. */
  datatype At = Elsewhere | Changed | Saving | Snapped(at: nat)

  /** history: every value known has had, the present one last. saved: which of them the file
      holds. lastFailed: the last write to end did not work. */
  datatype Sys = Sys(history: seq<Names>, saved: nat, at: map<nat, At>, lastFailed: bool)

  datatype Step =
    | Set(g: nat, name: string, an: string)
    | Replace(g: nat, names: Names)
    | TakeSaveMu(g: nat)
    | Snapshot(g: nat)
    | Write(g: nat, ok: bool)

  function Memory(s: Sys): Names
    requires s.history != []
  {
    s.history[|s.history| - 1]
  }

  function Where(s: Sys, g: nat): At {
    if g in s.at then s.at[g] else Elsewhere
  }

  /** What setKnown makes of known: "" deletes. */
  function Updated(known: Names, name: string, an: string): Names {
    if an == "" then known - {name} else known[name := an]
  }

  /** A change of known; the same value means there is nothing to save. */
  function Becomes(s: Sys, g: nat, known: Names): Sys
    requires s.history != []
  {
    if known == Memory(s) then s else s.(history := s.history + [known], at := s.at[g := Changed])
  }

  predicate Possible(s: Sys, step: Step)
    requires s.history != []
  {
    match step
    case Set(g, _, _) => Where(s, g) == Elsewhere
    case Replace(g, _) => Where(s, g) == Elsewhere
    case TakeSaveMu(g) => Where(s, g) == Changed && forall h | h in s.at :: !s.at[h].Saving? && !s.at[h].Snapped?
    case Snapshot(g) => Where(s, g) == Saving
    case Write(g, _) => Where(s, g).Snapped?
  }

  function Next(s: Sys, step: Step): Sys
    requires s.history != [] && Possible(s, step)
  {
    match step
    case Set(g, name, an) => Becomes(s, g, Updated(Memory(s), name, an))
    case Replace(g, names) => Becomes(s, g, names)
    case TakeSaveMu(g) => s.(at := s.at[g := Saving])
    case Snapshot(g) => s.(at := s.at[g := Snapped(|s.history| - 1)])
    case Write(g, ok) =>
      s.(at := s.at[g := Elsewhere], lastFailed := !ok, saved := if ok then s.at[g].at else s.saved)
  }

  /** Someone has yet to take a snapshot. */
  ghost predicate SnapshotDue(s: Sys) {
    exists g | g in s.at :: s.at[g] == Changed || s.at[g] == Saving
  }

  /** One writer at a time, its snapshot no older than the file; and known's present value is on
      disk, on its way there or about to be, or its write failed. */
  ghost predicate Inv(s: Sys) {
    && s.history != [] && s.saved < |s.history|
    && (forall g, h | g in s.at && h in s.at && g != h && (s.at[g].Saving? || s.at[g].Snapped?) ::
          !s.at[h].Saving? && !s.at[h].Snapped?)
    && (forall g | g in s.at && s.at[g].Snapped? ::
          s.saved <= s.at[g].at < |s.history| && (SnapshotDue(s) || s.at[g].at == |s.history| - 1))
    && (s.lastFailed || SnapshotDue(s) || s.saved == |s.history| - 1 || exists g | g in s.at :: s.at[g].Snapped?)
  }

  /** What each step does to memory and the file, and to whoever takes it; nobody else moves. A change of
      known leaves its maker with a save to make, and one that changes nothing leaves none. */
  lemma StepSays(s: Sys, step: Step)
    requires Inv(s) && Possible(s, step)
    ensures var t, g := Next(s, step), step.g;
            && t.history != [] && t.saved < |t.history| && (forall h | h != g :: Doing(t, h) == Doing(s, h))
            && match step
               case Set(_, name, an) =>
                 && Memory(t) == (if an == "" then Memory(s) - {name} else Memory(s)[name := an])
                 && File(t) == File(s) && (Doing(t, g) == if Memory(t) == Memory(s) then Elsewhere else Changed)
               case Replace(_, names) =>
                 && Memory(t) == names
                 && File(t) == File(s) && (Doing(t, g) == if Memory(t) == Memory(s) then Elsewhere else Changed)
               case TakeSaveMu(_) => Memory(t) == Memory(s) && File(t) == File(s) && Doing(t, g) == Saving
               case Snapshot(_) =>
                 && Memory(t) == Memory(s) && File(t) == File(s)
                 && Doing(t, g).Snapped? && t.history[Doing(t, g).at] == Memory(s)
               case Write(_, ok) =>
                 && Memory(t) == Memory(s) && Doing(t, g) == Elsewhere && (t.lastFailed <==> !ok)
                 && File(t) == if ok then s.history[Doing(s, g).at] else File(s)
  {
  }

  ghost function Doing(s: Sys, g: nat): At {
    if g !in s.at then Elsewhere else s.at[g]
  }

  ghost function File(s: Sys): Names
    requires s.saved < |s.history|
  {
    s.history[s.saved]
  }

  /** Nobody has to wait for more than another's save: whoever is elsewhere may change known, and while
      there is a save to make somebody can take the next step of one. */
  lemma SavesGoOn(s: Sys, g: nat)
    requires Inv(s)
    ensures Doing(s, g) == Elsewhere ==>
              (forall name, an :: Possible(s, Set(g, name, an))) && (forall names :: Possible(s, Replace(g, names)))
    ensures Doing(s, g) != Elsewhere ==>
              exists h :: Possible(s, TakeSaveMu(h)) || Possible(s, Snapshot(h)) || Possible(s, Write(h, true))
  {
    if Doing(s, g) != Elsewhere {
      if h :| h in s.at && s.at[h].Saving? {
        assert Possible(s, Snapshot(h));
      } else if h :| h in s.at && s.at[h].Snapped? {
        assert Possible(s, Write(h, true));
      } else {
        assert Possible(s, TakeSaveMu(g));
      }
    }
  }

  lemma StepKeepsInv(s: Sys, step: Step)
    requires Inv(s) && Possible(s, step)
    ensures Inv(Next(s, step)) && s.saved <= Next(s, step).saved && s.history <= Next(s, step).history
  {
    var t, g := Next(s, step), step.g;
    if t != s {
      match step
      case Set(_, _, _) =>
        assert t.at[g] == Changed;
      case Replace(_, _) =>
        assert t.at[g] == Changed;
      case TakeSaveMu(_) =>
        assert t.at[g] == Saving;
      case Snapshot(_) =>
        assert t.at[g] == Snapped(|t.history| - 1);
      case Write(_, _) =>
        if SnapshotDue(s) {
          DueWithout(s, t, g);
        }
    }
  }

  lemma DueWithout(s: Sys, t: Sys, g: nat)
    requires SnapshotDue(s) && g in s.at && s.at[g].Snapped? && t.at == s.at[g := Elsewhere]
    ensures SnapshotDue(t)
  {
    var h :| h in s.at && (s.at[h] == Changed || s.at[h] == Saving);
    assert t.at[h] == s.at[h];
  }

  ghost predicate Run(states: seq<Sys>, steps: seq<Step>) {
    && |states| == |steps| + 1
    && states[0].history != [] && states[0].saved == |states[0].history| - 1 && states[0].at == map[] && !states[0].lastFailed
    && forall i | 0 <= i < |steps| ::
         && states[i].history != [] && Possible(states[i], steps[i])
         && states[i + 1] == Next(states[i], steps[i])
  }

  lemma {:induction false} RunsKeepInv(states: seq<Sys>, steps: seq<Step>, n: nat)
    requires Run(states, steps) && n < |states|
    ensures Inv(states[n])
  {
    if n > 0 {
      RunsKeepInv(states, steps, n - 1);
      StepKeepsInv(states[n - 1], steps[n - 1]);
    }
  }

  /** However setKnown and replaceKnown and their saves interleave: once none is in flight the file
      holds what memory holds, unless the very last write failed. */
  lemma FileMatchesMemory(states: seq<Sys>, steps: seq<Step>, n: nat)
    requires Run(states, steps) && n < |states|
    requires forall g | g in states[n].at :: states[n].at[g] == Elsewhere
    ensures Inv(states[n]) && (states[n].lastFailed || states[n].history[states[n].saved] == Memory(states[n]))
  {
    RunsKeepInv(states, steps, n);
  }

  /** And at any moment the file holds a value memory has had; later ones never give way to earlier. */
  lemma {:induction false} FileNeverGoesBack(states: seq<Sys>, steps: seq<Step>, m: nat, n: nat)
    requires Run(states, steps) && m <= n < |states|
    ensures states[m].saved <= states[n].saved < |states[n].history| && states[m].history <= states[n].history
  {
    RunsKeepInv(states, steps, n);
    if m < n {
      FileNeverGoesBack(states, steps, m, n - 1);
      RunsKeepInv(states, steps, n - 1);
      StepKeepsInv(states[n - 1], steps[n - 1]);
    }
  }

  /** With every write successful there is no unless. */
  lemma {:induction false} AllWritesWork(states: seq<Sys>, steps: seq<Step>, n: nat)
    requires Run(states, steps) && n < |states|
    requires forall i | 0 <= i < |steps| :: steps[i].Write? ==> steps[i].ok
    ensures !states[n].lastFailed
    ensures (forall g | g in states[n].at :: states[n].at[g] == Elsewhere) ==>
              Inv(states[n]) && states[n].history[states[n].saved] == Memory(states[n])
  {
    if n > 0 {
      AllWritesWork(states, steps, n - 1);
    }
    if forall g | g in states[n].at :: states[n].at[g] == Elsewhere {
      FileMatchesMemory(states, steps, n);
    }
  }

  // Get and List -----------------------------------------------------------------------------

  datatype Answer<T> = Ok(value: T) | NotFound | Failed

  /** The array, as one operation asks it: the first and, after a stale cached name, the second time. */
  datatype Asked = Asked(tag: Answer<string>, volume: Answer<bool>)

  /** The tag, or without one the computed name, and what the array says about the volume of that name; no
      answer about the tag is none about the volume. */
  ghost predicate Found(asked: Asked, computed: string, an: string, last: Answer<bool>) {
    if asked.tag.Failed? then last.Failed?
    else last == asked.volume && an == if asked.tag.Ok? then asked.tag.value else computed
  }

  predicate Stale(volume: Answer<bool>) {
    volume.NotFound? || (volume.Ok? && volume.value)
  }

  /** file is None when it is missing or cannot be read. */
  class Driver {
    var names: Names
    var known: Names
    var file: Option<Names>

    constructor (file: Option<Names>)
      ensures this.file == file && names == map[] && known == if file.Some? then file.value else map[]
    {
      this.file := file;
      names, known := map[], if file.Some? then file.value else map[];
    }

    /** The driver's setKnown with its save; writes says whether writing the file works. */
    method SetKnown(name: string, an: string, writes: bool)
      modifies this`known, this`file
      ensures known == if an == "" then old(known) - {name} else old(known)[name := an]
      ensures file == if known != old(known) && writes then Some(known) else old(file)
    {
      if an == "" && name !in known {
        assert known - {name} == known;
        return;
      }
      if an != "" && name in known && known[name] == an {
        assert known[name := an] == known;
        return;
      }
      known := if an == "" then known - {name} else known[name := an];
      SaveKnown(writes);
    }

    method SaveKnown(writes: bool)
      modifies this`file
      ensures file == if writes then Some(known) else old(file)
    {
      if writes {
        file := Some(known);
      }
    }

    method ReplaceKnown(names: Names, writes: bool)
      modifies this`known, this`file
      ensures known == names
      ensures file == if names != old(known) && writes then Some(names) else old(file)
    {
      if known != names {
        known := names;
        SaveKnown(writes);
      }
    }

    /** driver.resolve; an untagged volume goes by its computed name. Only a tag is remembered. */
    method Resolve(name: string, computed: string, tag: Answer<string>, writes: bool)
      returns (an: Option<string>, cached: bool)
      modifies this
      ensures cached == (name in old(names))
      ensures cached ==> an == Some(old(names)[name])
      ensures !cached ==> an == (match tag case Ok(t) => Some(t) case NotFound => Some(computed) case Failed => None)
      ensures names == if !cached && tag.Ok? then old(names)[name := tag.value] else old(names)
      ensures known == if !cached && tag.Ok? then Updated(old(known), name, tag.value) else old(known)
      ensures file == if known != old(known) && writes then Some(known) else old(file)
    {
      if name in names {
        return Some(names[name]), true;
      }
      match tag
      case NotFound =>
        return Some(computed), false;
      case Failed =>
        return None, false;
      case Ok(t) =>
        names := names[name := t];
        SetKnown(name, t, writes);
        return Some(t), false;
    }

    /** What this operation has remembered, if the array gave it this tag: the tag, and known with it. */
    ghost predicate Remembered(name: string, tag: Answer<string>, names0: Names, known0: Names)
      reads this
    {
      && names == (if tag.Ok? then names0[name := tag.value] else names0)
      && known == (if tag.Ok? then Updated(known0, name, tag.value) else known0)
    }

    /** driver.lookup: last says what the array answered last about the volume, if it came to that. A name
        at hand is gone by unless the array says that its volume is gone or destroyed; then, and without
        one, the array is asked for the tag. */
    method Lookup(name: string, computed: string, first: Asked, second: Asked, writes: bool)
      returns (an: string, last: Answer<bool>)
      modifies this
      ensures name !in old(names) ==>
        Found(first, computed, an, last) && Remembered(name, first.tag, old(names), old(known))
      ensures name in old(names) && !(first.volume.NotFound? || first.volume == Ok(true)) ==>
        an == old(names)[name] && last == first.volume && names == old(names) && known == old(known)
      ensures name in old(names) && (first.volume.NotFound? || first.volume == Ok(true)) ==>
        Found(second, computed, an, last) && Remembered(name, second.tag, old(names) - {name}, old(known))
      ensures file == if known != old(known) && writes then Some(known) else old(file)
    {
      var resolved, cached := Resolve(name, computed, first.tag, writes);
      if resolved.None? {
        return "", Failed;
      }
      an, last := resolved.value, first.volume;
      if cached && Stale(last) {
        names := names - {name};
        resolved, cached := Resolve(name, computed, second.tag, writes);
        if resolved.None? {
          return "", Failed;
        }
        an, last := resolved.value, second.volume;
      }
    }

    /** driver.Get: the volume's array name if it answers that the volume exists, NotFound if the array itself
        said that it does not, Failed if there is no answer and the name is not known. last: what the
        array said last about the volume, if anything. */
    method Get(name: string, computed: string, first: Asked, second: Asked, writes: bool)
      returns (r: Answer<string>, ghost last: Answer<bool>)
      requires first.tag != Ok("") && second.tag != Ok("") && computed != "" && "" !in names.Values
      modifies this
      ensures name !in old(names) ==> last == if first.tag.Failed? then Failed else first.volume
      ensures name in old(names) && !(first.volume.NotFound? || first.volume == Ok(true)) ==> last == first.volume
      ensures name in old(names) && (first.volume.NotFound? || first.volume == Ok(true)) ==>
        last == if second.tag.Failed? then Failed else second.volume
      ensures r.NotFound? <==> last.NotFound?
      ensures r.Ok? <==> last.Ok? || (last.Failed? && name in known)
      ensures r.Ok? ==> name in known && known[name] == r.value
      ensures old(known).Keys <= known.Keys && known - {name} == old(known) - {name}
      ensures file == if known != old(known) && writes then Some(known) else old(file)
    {
      var an, answer := Lookup(name, computed, first, second, writes);
      last := answer;
      match answer
      case NotFound =>
        return NotFound, answer;
      case Failed =>
        return if name in known then Ok(known[name]) else Failed, answer;
      case Ok(_) =>
        SetKnown(name, an, writes);
        return Ok(an), answer;
    }

    /** driver.List: the array's names, which become the known ones; without an answer the known
        ones, if there are any. */
    method List(tags: Option<Names>, writes: bool) returns (listed: Option<set<string>>)
      modifies this
      ensures tags.Some? ==> known == tags.value && listed == Some(tags.value.Keys)
      ensures names == if tags.Some? then old(names) + tags.value else old(names)
      ensures file == if known != old(known) && writes then Some(known) else old(file)
      ensures tags.None? ==> known == old(known) && listed == if known == map[] then None else Some(known.Keys)
    {
      if tags.None? {
        return if known == map[] then None else Some(known.Keys);
      }
      names := names + tags.value;
      ReplaceKnown(tags.value, writes);
      return Some(tags.value.Keys);
    }
  }
}
