/** internal/driver/driver.go: takeOver and its preempt-grace record, and the timing rule of
    internal/config/config.go that keeps a lingering volume clear of it. Times are milliseconds. */
module TakeOver {
  import opened Types

  type Volume = string
  type HostName = string

  const STALE_HOLD: int := 120_000
  const RELEASE_POLL: int := 2_000
  const MAX_RELEASE_WAIT: int := 30_000

  /** driver.holdState. */
  datatype Hold = Hold(hosts: multiset<HostName>, since: int, seen: int)

  /** One answer of the array to who else holds a volume. */
  datatype Sighting = Sighting(at: int, hosts: multiset<HostName>)

  /** The i-th sighting came no later than two minutes after the one before it. */
  ghost predicate SoonAfter(seen: seq<Sighting>, i: nat)
    requires 0 < i < |seen|
  {
    seen[i].at - seen[i - 1].at <= 120_000
  }

  lemma SoonAfterStill(seen: seq<Sighting>, longer: seq<Sighting>)
    requires seen <= longer
    ensures forall i | 0 < i < |seen| :: SoonAfter(longer, i) == SoonAfter(seen, i)
  {
  }

  /** From its k-th on, the sightings all saw the same hosts, never more than two minutes apart. */
  ghost predicate Unbroken(seen: seq<Sighting>, k: nat) {
    && k < |seen|
    && (forall i | k <= i < |seen| :: seen[i].hosts == seen[|seen| - 1].hosts)
    && (forall i | k < i < |seen| :: SoonAfter(seen, i))
  }

  /** The record says nothing the sightings do not bear out; its row began with the k-th. */
  ghost predicate Backed(h: Hold, seen: seq<Sighting>, k: nat) {
    && Unbroken(seen, k) && seen[k].at == h.since
    && h.seen == seen[|seen| - 1].at && h.hosts == seen[|seen| - 1].hosts
  }

  /** Of the sightings from the from-th on, the k-th is the earliest of an unbroken row. */
  ghost predicate RowBegins(seen: seq<Sighting>, from: nat, k: nat) {
    from <= k && Unbroken(seen, k) && forall j | from <= j < k :: !Unbroken(seen, j)
  }

  /** Such a row is at least grace old. */
  ghost predicate RowAged(seen: seq<Sighting>, from: nat, now: int, grace: int) {
    exists k | from <= k < |seen| :: Unbroken(seen, k) && now - seen[k].at >= grace
  }

  /** Sightings come in order, and none is later than now. */
  ghost predicate InOrder(seen: seq<Sighting>, now: int) {
    && (forall i, j | 0 <= i <= j < |seen| :: seen[i].at <= seen[j].at)
    && (forall i | 0 <= i < |seen| :: seen[i].at <= now)
  }

  /** Retries no further apart than two minutes that keep seeing the same hosts make an unbroken row, as
      old as the first of them. */
  lemma RetriesAgeTheRow(seen: seq<Sighting>, from: nat, k: nat, now: int, grace: int)
    requires from <= k < |seen| && now - seen[k].at >= grace
    requires forall i | k <= i < |seen| :: seen[i].hosts == seen[k].hosts
    requires forall i | k < i < |seen| :: SoonAfter(seen, i)
    ensures RowAged(seen, from, now, grace)
  {
    assert Unbroken(seen, k);
  }

  /** If the earliest row is not that old, none is. */
  lemma EarliestIsOldest(seen: seq<Sighting>, from: nat, k: nat, now: int, grace: int)
    requires RowBegins(seen, from, k) && InOrder(seen, now)
    ensures RowAged(seen, from, now, grace) <==> now - seen[k].at >= grace
  {
    if j :| from <= j < |seen| && Unbroken(seen, j) && now - seen[j].at >= grace {
      assert j >= k;
    }
  }

  /** Cutting these hosts off at now is what the grace period allows: they are exactly who was seen
      last, and an unbroken row of such sightings began at least grace ago. */
  ghost predicate Justified(seen: seq<Sighting>, hosts: multiset<HostName>, now: int, grace: int) {
    && |seen| > 0 && hosts == seen[|seen| - 1].hosts
    && exists k | 0 <= k < |seen| :: Unbroken(seen, k) && now - seen[k].at >= grace
  }

  /** The hosts are those of the record, seen again soon enough. */
  predicate GoesOn(was: Option<Hold>, hosts: multiset<HostName>, now: int) {
    was.Some? && was.value.hosts == hosts && now - was.value.seen <= STALE_HOLD
  }

  /** markHeld's new record: a new holder, or one not seen for too long, restarts the grace. */
  function Marked(was: Option<Hold>, hosts: multiset<HostName>, now: int): Hold {
    if GoesOn(was, hosts, now) then was.value.(seen := now) else Hold(hosts, now, now)
  }

  /** Kept or begun anew, the record is about the earliest row there is since the from-th sighting. */
  lemma MarkedIsBacked(before: seq<Sighting>, from: nat, was: Option<Hold>, k: nat, next: Sighting)
    requires if was.Some? then Backed(was.value, before, k) && RowBegins(before, from, k) else from == |before|
    ensures var row := if GoesOn(was, next.hosts, next.at) then k else |before|;
            Backed(Marked(was, next.hosts, next.at), before + [next], row) && RowBegins(before + [next], from, row)
  {
    var seen := before + [next];
    SoonAfterStill(before, seen);
    if GoesOn(was, next.hosts, next.at) {
      forall j | from <= j < k ensures !Unbroken(seen, j) {
        if Unbroken(seen, j) {
          StillUnbroken(before, next, j);
        }
      }
    } else if was.Some? {
      forall j | from <= j < |before| ensures !Unbroken(seen, j) {
        assert !SoonAfter(seen, |before|) || was.value.hosts != next.hosts;
        assert seen[|before| - 1] == before[|before| - 1];
      }
    }
  }

  lemma StillUnbroken(before: seq<Sighting>, next: Sighting, j: nat)
    requires j < |before| && Unbroken(before + [next], j)
    ensures Unbroken(before, j)
  {
    var seen := before + [next];
    assert forall i | 0 <= i < |before| :: seen[i] == before[i];
    assert seen[|before|] == next && seen[|before| - 1].hosts == next.hosts;
    SoonAfterStill(before, seen);
  }

  /** What there is about one volume: its record, all sightings, where the record's row of them begins, and
      how many there were when a record was last cleared. */
  datatype Track = Track(hold: Option<Hold>, seen: seq<Sighting>, row: nat, cleared: nat)

  /** The record, if there is one, is about the earliest row in these sightings since the last was
      cleared; if there is none, nothing has been seen since that would make one. */
  ghost predicate Recorded(t: Track, seen: seq<Sighting>, preempt: bool) {
    if t.hold.Some? then Backed(t.hold.value, seen, t.row) && RowBegins(seen, t.cleared, t.row)
    else preempt ==> t.cleared == |seen|
  }

  /** A record made as markHeld makes it is as it should be. */
  lemma MarkedTrack(t: Track, last: Sighting, h: Hold, begins: nat)
    requires t.seen != [] && t.seen[|t.seen| - 1] == last
    requires Recorded(t, t.seen[..|t.seen| - 1], true)
    requires h == Marked(t.hold, last.hosts, last.at)
    requires begins == if GoesOn(t.hold, last.hosts, last.at) then t.row else |t.seen| - 1
    ensures Recorded(Track(Some(h), t.seen, begins, t.cleared), t.seen, true)
    ensures begins < |t.seen| && h.since == t.seen[begins].at && RowBegins(t.seen, t.cleared, begins)
    ensures h.hosts == last.hosts && h.seen == last.at
  {
    var before := t.seen[..|t.seen| - 1];
    assert t.seen == before + [last];
    MarkedIsBacked(before, t.cleared, t.hold, t.row, last);
  }

  /** A row goes on through whatever is seen after it if that does not break off from its last sighting. */
  lemma RowContinues(seen: seq<Sighting>, longer: seq<Sighting>, k: nat)
    requires Unbroken(seen, k) && seen <= longer && Unbroken(longer, |seen| - 1)
    ensures Unbroken(longer, k) && longer[k] == seen[k]
  {
    assert longer[|seen| - 1] == seen[|seen| - 1];
    forall i | k <= i < |longer| ensures longer[i].hosts == longer[|longer| - 1].hosts {
      assert i < |seen| ==> longer[i] == seen[i];
    }
    SoonAfterStill(seen, longer);
    forall i | k < i < |longer| ensures SoonAfter(longer, i) {
      assert i < |seen| ==> SoonAfter(seen, i);
    }
  }

  /** So if it was old enough and no row is in the end, it did break off. */
  lemma YoungRowBroke(seen: seq<Sighting>, longer: seq<Sighting>, from: nat, k: nat, now: int, grace: int)
    requires from <= k && Unbroken(seen, k) && seen <= longer && now - seen[k].at >= grace
    requires !RowAged(longer, from, now, grace)
    ensures !Unbroken(longer, |seen| - 1)
  {
    if Unbroken(longer, |seen| - 1) {
      RowContinues(seen, longer, k);
    }
  }

  lemma SeenOnceMore(seen: seq<Sighting>, next: Sighting)
    requires InOrder(seen, next.at)
    ensures InOrder(seen + [next], next.at)
  {
  }

  lemma OldHoldJustifies(h: Hold, seen: seq<Sighting>, k: nat, now: int, grace: int)
    requires Backed(h, seen, k) && now - h.since >= grace
    ensures Justified(seen, h.hosts, now, grace)
  {
  }

  /** Free: nobody else held it. Otherwise why nobody was cut off, or how far the cutting got. */
  datatype Outcome = Free | ArrayError | NotAllowed | StillHeld | CutFailed | Preempted

  ghost predicate SawSome(t: Track) {
    t.seen != [] && t.seen[|t.seen| - 1].hosts != multiset{}
  }

  /** How takeOver may end, by what it has seen up to now, from being the sightings there were when a
      record was last cleared before it. Whom it asked to cut off, and whether it did, is what the grace
      period allows and demands: exactly the hosts seen last, if and only if the row of sightings of them
      is at least grace old. */
  ghost predicate Ended(t: Track, from: nat, now: int, grace: int, preempt: bool, answers: bool, r: Outcome,
                        cut: seq<HostName>)
  {
    match r
    case Free => cut == [] && t.seen != [] && t.seen[|t.seen| - 1].hosts == multiset{} && t.hold.None?
    case ArrayError => cut == [] && !answers
    case NotAllowed => cut == [] && !preempt && SawSome(t)
    case StillHeld =>
      && cut == [] && preempt && SawSome(t) && t.hold.Some? && now - t.hold.value.since < grace
      && !RowAged(t.seen, from, now, grace)
    case CutFailed => cut != [] && !answers && CutJustly(t, from, now, grace, preempt, cut)
    case Preempted =>
      && cut != [] && CutJustly(t, from, now, grace, preempt, cut)
      && t.hold.None? && multiset(cut) == t.seen[|t.seen| - 1].hosts
  }

  /** Only hosts of the last sighting were cut off, and justly. */
  ghost predicate CutJustly(t: Track, from: nat, now: int, grace: int, preempt: bool, cut: seq<HostName>) {
    && preempt && SawSome(t) && RowAged(t.seen, from, now, grace)
    && Justified(t.seen, t.seen[|t.seen| - 1].hosts, now, grace) && multiset(cut) <= t.seen[|t.seen| - 1].hosts
  }

  lemma AtLeastOne(hosts: seq<HostName>)
    requires hosts != []
    ensures multiset(hosts) != multiset{}
  {
    assert hosts[0] in multiset(hosts);
  }

  class Driver {
    const preempt: bool
    const grace: int
    const answers: bool // the array answers every request
    var clock: int
    var heldSince: map<Volume, Hold>
    ghost var seen: map<Volume, seq<Sighting>>
    ghost var row: map<Volume, nat> // where in seen each record's row of sightings begins
    ghost var cleared: map<Volume, nat> // how many had been seen when each record was last cleared

    ghost function Seen(v: Volume): seq<Sighting>
      reads this
    {
      if v in seen then seen[v] else []
    }

    ghost function Cleared(v: Volume): nat
      reads this
    {
      if v in cleared then cleared[v] else 0
    }

    ghost function Of(v: Volume): Track
      reads this
    {
      Track(if v in heldSince then Some(heldSince[v]) else None, Seen(v), if v in row then row[v] else 0, Cleared(v))
    }

    /** Every record but v's is as it should be. */
    ghost predicate ValidBut(v: Option<Volume>)
      reads this
    {
      && (forall u | v != Some(u) :: Recorded(Of(u), Of(u).seen, preempt))
      && (forall u :: InOrder(Of(u).seen, clock))
      && (!preempt ==> heldSince == map[])
    }

    /** v's record is as it should be but for the last sighting. */
    ghost predicate Lagging(v: Volume)
      reads this
    {
      Of(v).seen != [] && Recorded(Of(v), Of(v).seen[..|Of(v).seen| - 1], preempt)
    }

    ghost predicate Valid()
      reads this
    {
      ValidBut(None)
    }

    constructor (preempt: bool, grace: int, answers: bool, now: int)
      ensures Valid() && heldSince == map[] && seen == map[]
      ensures this.preempt == preempt && this.grace == grace && this.answers == answers && clock == now
    {
      this.preempt, this.grace, this.answers, clock := preempt, grace, answers, now;
      heldSince, seen, row, cleared := map[], map[], map[], map[];
    }

    /** Time passes, at least that much. */
    method Pass(atLeast: nat)
      requires Valid()
      modifies this`clock
      ensures Valid() && clock >= old(clock) + atLeast
    {
      var later: int := *;
      clock := if later > clock + atLeast then later else clock + atLeast;
      assert forall u :: Of(u) == old(Of(u));
    }

    /** driver.otherHosts: None when the array does not answer. */
    method OtherHosts(v: Volume) returns (others: Option<seq<HostName>>)
      requires Valid()
      modifies this`seen
      ensures others.None? ==> seen == old(seen) && Valid() && !answers
      ensures others.Some? ==> ValidBut(Some(v)) && Lagging(v)
      ensures others.Some? ==> Seen(v) == old(Seen(v)) + [Sighting(clock, multiset(others.value))]
      ensures forall u | u != v :: Seen(u) == old(Seen(u))
    {
      var answered: bool, hosts: seq<HostName> := *, *;
      if !answered && !answers {
        return None;
      }
      ghost var was := Of(v);
      SeenOnceMore(was.seen, Sighting(clock, multiset(hosts)));
      seen := seen[v := was.seen + [Sighting(clock, multiset(hosts))]];
      assert Of(v) == was.(seen := was.seen + [Sighting(clock, multiset(hosts))]);
      assert Of(v).seen[..|Of(v).seen| - 1] == was.seen;
      assert forall u | u != v :: Of(u) == old(Of(u));
      return Some(hosts);
    }

    /** driver.clearHeld. */
    method ClearHeld(v: Volume)
      requires ValidBut(Some(v))
      modifies this`heldSince, this`cleared
      ensures Valid() && heldSince == old(heldSince) - {v}
      ensures Cleared(v) == |Seen(v)|
    {
      ghost var t := Of(v);
      heldSince := heldSince - {v};
      cleared := cleared[v := |Seen(v)|];
      assert Of(v) == t.(hold := None, cleared := |t.seen|);
      assert forall u | u != v :: Of(u) == old(Of(u));
    }

    /** driver.markHeld: since when exactly these hosts have been seen holding v. */
    method MarkHeld(v: Volume, others: seq<HostName>) returns (since: int)
      requires ValidBut(Some(v)) && Lagging(v) && preempt
      requires Of(v).seen[|Of(v).seen| - 1] == Sighting(clock, multiset(others))
      modifies this`heldSince, this`row
      ensures Valid() && heldSince.Keys == old(heldSince).Keys + {v} && since == heldSince[v].since
      ensures Seen(v) == old(Seen(v)) && Cleared(v) == old(Cleared(v))
      ensures forall u | u != v && u in old(heldSince) :: heldSince[u] == old(heldSince)[u]
      ensures heldSince[v].hosts == multiset(others) && heldSince[v].seen == clock
      ensures exists k | 0 <= k < |Seen(v)| :: RowBegins(Seen(v), Cleared(v), k) && since == Seen(v)[k].at
    {
      ghost var t := Of(v);
      ghost var before := t.seen[..|t.seen| - 1];
      var was := if v in heldSince then Some(heldSince[v]) else None;
      var hosts := multiset(others);
      var h := Hold(hosts, clock, clock);
      ghost var begins := |before|;
      if was.Some? && was.value.hosts == hosts && clock - was.value.seen <= STALE_HOLD {
        h := was.value.(seen := clock);
        begins := t.row;
      }
      heldSince, row := heldSince[v := h], row[v := begins];
      assert Of(v) == Track(Some(h), t.seen, begins, t.cleared);
      forall u | u != v ensures Of(u) == old(Of(u)) {
        assert u in heldSince <==> u in old(heldSince);
      }
      MarkedTrack(t, Sighting(clock, hosts), h, begins);
      since := h.since;
    }

    /** array.Disconnect for another host; cut records whom it was asked to cut off. */
    method CutOff(hosts: seq<HostName>) returns (ok: bool, cut: seq<HostName>)
      ensures cut <= hosts && (ok ==> cut == hosts) && (answers ==> ok)
      ensures hosts != [] ==> cut != []
    {
      ok, cut := true, [];
      while |cut| < |hosts| && ok
        invariant cut <= hosts && (answers ==> ok)
        invariant hosts != [] && (!ok || |cut| == |hosts|) ==> cut != []
        decreases |hosts| - |cut|, ok
      {
        cut := cut + [hosts[|cut|]];
        ok := *;
        ok := ok || answers;
      }
    }

    /** v is held by others, and recorded as held by exactly them since held. */
    ghost predicate Waiting(v: Volume, others: seq<HostName>, held: int)
      reads this
    {
      Valid() && v in heldSince && heldSince[v].since == held && heldSince[v].hosts == multiset(others)
    }

    /** The hosts v's last sighting saw. */
    ghost predicate LastSaw(v: Volume, hosts: multiset<HostName>)
      reads this
    {
      Of(v).seen != [] && Of(v).seen[|Of(v).seen| - 1].hosts == hosts
    }

    /** What a poll of v came to: no answer, nobody, or these others, recorded as holding it since held. */
    ghost predicate Polled(v: Volume, others: Option<seq<HostName>>, held: int)
      reads this
    {
      match others
      case None => Valid() && !answers
      case Some(hosts) =>
        && LastSaw(v, multiset(hosts))
        && if hosts == [] then ValidBut(Some(v)) else Waiting(v, hosts, held)
    }

    method Poll(v: Volume, since: int) returns (others: Option<seq<HostName>>, held: int)
      requires Valid() && preempt
      modifies this`heldSince, this`row, this`seen
      ensures old(Seen(v)) <= Seen(v) && Polled(v, others, held)
    {
      held := since;
      others := OtherHosts(v);
      if others.Some? && others.value != [] {
        held := MarkHeld(v, others.value);
      }
    }

    /** One round of takeOver's loop: a poll after some time, or at once when the context has ended. */
    method Round(v: Volume, before: seq<HostName>, since: int) returns (ended: bool, others: Option<seq<HostName>>, held: int)
      requires Waiting(v, before, since) && preempt
      modifies this`clock, this`heldSince, this`row, this`seen
      ensures clock >= old(clock) + (if ended then 0 else RELEASE_POLL)
      ensures old(Seen(v)) <= Seen(v) && Polled(v, others, held)
    {
      ended := *;
      if !ended {
        Pass(RELEASE_POLL);
      }
      others, held := Poll(v, since);
    }

    /** takeOver's loop: the others, as seen last, and since when; None if the array stopped answering.
        Unless the context ended it goes on for the rest of the grace, but no longer than half a minute. */
    method WaitForRelease(v: Volume, before: seq<HostName>, since: int)
      returns (others: Option<seq<HostName>>, held: int, ended: bool)
      requires Waiting(v, before, since) && LastSaw(v, multiset(before)) && before != [] && preempt
      modifies this`clock, this`heldSince, this`row, this`seen
      ensures clock >= old(clock) && old(Seen(v)) <= Seen(v) && Polled(v, others, held)
      ensures others.Some? && others.value != [] && !ended ==> clock >= old(clock) + 30_000 || clock - since >= grace
    {
      others, held := Some(before), since;
      var wait := if grace - (clock - held) < MAX_RELEASE_WAIT then grace - (clock - held) else MAX_RELEASE_WAIT;
      var deadline := clock + wait;
      ended := false;
      while others.Some? && others.value != [] && clock < deadline && !ended
        invariant clock >= old(clock) && old(Seen(v)) <= Seen(v) && Polled(v, others, held)
        decreases if ended then 0 else 1, if clock < deadline then deadline - clock else 0
      {
        ended, others, held := Round(v, others.value, held);
      }
    }

    /** The end of takeOver, with others still holding v since held. */
    method CutOrRefuse(v: Volume, others: seq<HostName>, held: int) returns (r: Outcome, cut: seq<HostName>)
      requires Waiting(v, others, held) && LastSaw(v, multiset(others)) && others != [] && preempt
      modifies this`heldSince, this`cleared
      ensures Valid() && r in {StillHeld, CutFailed, Preempted}
      ensures Ended(Of(v), old(Cleared(v)), clock, grace, preempt, answers, r, cut)
    {
      AtLeastOne(others);
      EarliestIsOldest(Seen(v), Cleared(v), Of(v).row, clock, grace);
      cut := [];
      if clock - held < grace {
        return StillHeld, cut;
      }
      OldHoldJustifies(heldSince[v], Seen(v), Of(v).row, clock, grace);
      var ok;
      ok, cut := CutOff(others);
      assert others == cut + others[|cut|..];
      if !ok {
        return CutFailed, cut;
      }
      ClearHeld(v);
      return Preempted, cut;
    }

    /** takeOver when nobody else holds v, or no more. */
    method FindFree(v: Volume, ghost from: nat) returns (r: Outcome, cut: seq<HostName>)
      requires ValidBut(Some(v)) && LastSaw(v, multiset{})
      modifies this`heldSince, this`cleared
      ensures Valid() && r == Free && Ended(Of(v), from, clock, grace, preempt, answers, r, cut)
    {
      ClearHeld(v);
      return Free, [];
    }

    /** takeOver once others were seen and marked as holding v. ended: the context ended meanwhile. */
    method WaitAndCut(v: Volume, before: seq<HostName>, since: int, ghost from: nat)
      returns (r: Outcome, cut: seq<HostName>, ended: bool)
      requires Cleared(v) == from
      requires Waiting(v, before, since) && LastSaw(v, multiset(before)) && before != [] && preempt
      modifies this
      ensures Valid() && clock >= old(clock) && old(Seen(v)) <= Seen(v)
      ensures Ended(Of(v), from, clock, grace, preempt, answers, r, cut)
      ensures r.StillHeld? && !ended ==> clock >= old(clock) + 30_000 || clock - since >= grace
    {
      var answer, held;
      answer, held, ended := WaitForRelease(v, before, since);
      if answer.None? {
        return ArrayError, [], ended;
      } else if answer.value == [] {
        r, cut := FindFree(v, from);
        return;
      }
      r, cut := CutOrRefuse(v, answer.value, held);
    }

    /** driver.takeOver. cut: the hosts it asked the array to disconnect, in order; ended: the context
        ended while it waited. Otherwise it refuses only after half a minute, or when a sighting broke the
        row meanwhile. */
    method TakeOver(v: Volume) returns (r: Outcome, cut: seq<HostName>, ended: bool)
      requires Valid()
      modifies this
      ensures Valid() && clock >= old(clock) && old(Seen(v)) <= Seen(v)
      ensures Ended(Of(v), old(Cleared(v)), clock, grace, preempt, answers, r, cut)
      ensures r.StillHeld? && !ended ==> clock >= old(clock) + 30_000 || !Unbroken(Seen(v), |old(Seen(v))|)
    {
      var answer := OtherHosts(v);
      if answer.None? {
        ClearHeld(v);
        return ArrayError, [], false;
      } else if answer.value == [] {
        ended := false;
        r, cut := FindFree(v, old(Cleared(v)));
        return;
      }
      ghost var mid := Seen(v);
      r, cut, ended := WaitOut(v, answer.value, old(Cleared(v)), |old(Seen(v))|);
      Longer(old(Seen(v)), mid, Seen(v));
    }

    /** takeOver once others were seen. */
    method WaitOut(v: Volume, others: seq<HostName>, ghost from: nat, ghost n: nat)
      returns (r: Outcome, cut: seq<HostName>, ended: bool)
      requires n == |Seen(v)| - 1
      requires ValidBut(Some(v)) && Lagging(v) && Cleared(v) == from && others != []
      requires Of(v).seen[|Of(v).seen| - 1] == Sighting(clock, multiset(others))
      modifies this
      ensures Valid() && clock >= old(clock) && old(Seen(v)) <= Seen(v)
      ensures Ended(Of(v), from, clock, grace, preempt, answers, r, cut)
      ensures r.StillHeld? && !ended ==> clock >= old(clock) + 30_000 || !Unbroken(Seen(v), n)
    {
      AtLeastOne(others);
      if !preempt {
        return NotAllowed, [], false;
      }
      var held := MarkHeld(v, others);
      ghost var was, k := Seen(v), Of(v).row;
      assert Waiting(v, others, held) && LastSaw(v, multiset(others));
      r, cut, ended := WaitAndCut(v, others, held, from);
      if r.StillHeld? && clock - held >= grace {
        YoungRowBroke(was, Seen(v), from, k, clock, grace);
      }
    }
  }

  // The linger and keep timers --------------------------------------------------------------

  /** config.ValidateLinger. */
  predicate ValidateLinger(linger: int, grace: int) {
    if linger < 0 then false
    else if linger == 0 then true
    else if grace == 0 then false
    else !(linger >= 30_000 || 2 * linger > grace)
  }

  /** A linger is accepted if there is none, or if it is under thirty seconds and at most half the grace. */
  lemma LingerAcceptedIff(linger: int, grace: int)
    ensures ValidateLinger(linger, grace) <==>
            linger == 0 || (0 < linger < 30_000 && grace != 0 && linger + linger <= grace)
  {
  }

  /** driver.keepFor: half the grace, rounded towards zero; keepAttached keeps nothing when it is not
      positive. */
  function KeepFor(grace: int): (half: int)
    ensures grace >= 0 ==> half + half <= grace <= half + half + 1
    ensures grace < 0 ==> half + half - 1 <= grace <= half + half
  {
    if grace >= 0 then grace / 2 else -(-grace / 2)
  }

  /** Every unbroken row of sightings that another node's record can start from began no earlier
      than half the grace before armed. */
  ghost predicate RowsSince(seen: seq<Sighting>, armed: int, grace: int) {
    forall k | 0 <= k < |seen| && Unbroken(seen, k) :: 2 * (armed - seen[k].at) <= grace
  }

  /** A linger or keep timer armed on this node is due by the time another node may justly cut it
      off, however often that node's mounts were retried and its record started over. */
  lemma TimersDueBeforePreemption(linger: int, grace: int, armed: int, seen: seq<Sighting>,
                                  hosts: multiset<HostName>, now: int)
    requires ValidateLinger(linger, grace) && linger != 0
    requires Justified(seen, hosts, now, grace) && RowsSince(seen, armed, grace)
    ensures armed + linger <= now
    ensures armed + KeepFor(grace) <= now
  {
  }

  /** The bound is as tight as it can be in whole milliseconds: a linger longer than what is left
      of the grace after its half can be overtaken by a preemption that breaks no rule. */
  lemma LongerLingerOvertaken(linger: int, grace: int, armed: int, me: HostName) returns (seen: seq<Sighting>, now: int)
    requires grace > 0 && linger > grace - KeepFor(grace)
    ensures !ValidateLinger(linger, grace)
    ensures RowsSince(seen, armed, grace) && Justified(seen, multiset{me}, now, grace)
    ensures now < armed + linger
  {
    seen := [Sighting(armed - KeepFor(grace), multiset{me})];
    now := armed - KeepFor(grace) + grace;
    assert Unbroken(seen, 0);
  }
}
