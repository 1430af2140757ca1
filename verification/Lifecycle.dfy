/** internal/driver/driver.go: what the driver keeps in memory about its mounts and kept
    attachments, and the timers that act on it. Every operation here runs under the volume's own
    lock, so one volume's operations never overlap; timers fire arbitrarily late, stopped or not.
    Times are milliseconds. */
module Lifecycle {
  import opened Types

  type Volume = string
  type RefId = string

  const REF_PENDING: int := 120_000

  /** driver.mountState; id stands for the pointer a timer compares. */
  datatype Mount = Mount(id: nat, refs: map<RefId, int>, armed: bool, gen: nat)

  /** driver.pendingAttach; rec tells records apart, which the driver itself does not do. */
  datatype Pending = Pending(rec: nat, gen: nat)

  datatype Timer =
    | LingerTimer(v: Volume, id: nat, gen: nat)
    | KeepTimer(v: Volume, rec: nat, gen: nat)

  /** A teardown: of which mount of which volume. */
  datatype Tear = Tear(v: Volume, id: nat)

  /** timers: every timer ever armed. torn: every teardown begun. next: ids and records so far. */
  datatype Book = Book(
    mounts: map<Volume, Mount>, pending: map<Volume, Pending>, closing: bool,
    next: nat, timers: set<Timer>, torn: seq<Tear>)

  datatype Config = Config(linger: int, keepFor: int)

  /** How a teardown ends: the filesystem did not unmount and nothing changed, or the volume is
      untracked, whatever then failed. */
  datatype TearEnd = UnmountFailed | Untracked(ok: bool)

  /** How a Mount that has to attach ends. */
  datatype AttachEnd = Failed | TooSlow | Attached

  // What each piece of bookkeeping does ------------------------------------------------------

  function CancelKeep(b: Book, v: Volume): Book {
    b.(pending := b.pending - {v})
  }

  /** The record's generation goes on; a new record starts over at 1. */
  function KeepAttached(b: Book, v: Volume, cfg: Config): Book {
    if cfg.keepFor <= 0 then b
    else if v in b.pending then
      var p := Pending(b.pending[v].rec, b.pending[v].gen + 1);
      b.(pending := b.pending[v := p], timers := b.timers + {KeepTimer(v, p.rec, p.gen)})
    else
      b.(pending := b.pending[v := Pending(b.next, 1)], next := b.next + 1,
         timers := b.timers + {KeepTimer(v, b.next, 1)})
  }

  function CancelTeardown(b: Book, v: Volume): Book
    requires v in b.mounts
  {
    var st := b.mounts[v];
    b.(mounts := b.mounts[v := st.(armed := false, gen := st.gen + 1)])
  }

  function ScheduleTeardown(b: Book, v: Volume): Book
    requires v in b.mounts
  {
    var st := b.mounts[v];
    b.(mounts := b.mounts[v := st.(armed := true, gen := st.gen + 1)],
       timers := b.timers + {LingerTimer(v, st.id, st.gen + 1)})
  }

  function Teardown(b: Book, v: Volume, end: TearEnd): Book
    requires v in b.mounts
  {
    var c := b.(torn := b.torn + [Tear(v, b.mounts[v].id)]);
    if end.UnmountFailed? then c else c.(mounts := b.mounts - {v})
  }

  function Disarm(b: Book, v: Volume): Book
    requires v in b.mounts
  {
    b.(mounts := b.mounts[v := b.mounts[v].(armed := false)])
  }

  function SetRefs(b: Book, v: Volume, refs: map<RefId, int>): Book
    requires v in b.mounts
  {
    b.(mounts := b.mounts[v := b.mounts[v].(refs := refs)])
  }

  /** A new mountState for v. */
  function Track(b: Book, v: Volume, refs: map<RefId, int>): Book {
    b.(mounts := b.mounts[v := Mount(b.next, refs, false, 0)], next := b.next + 1)
  }

  /** No remaining ref can belong to a container still starting, and no container uses the volume. */
  predicate AllStale(refs: map<RefId, int>, now: int, inUse: Option<bool>) {
    (forall r | r in refs :: now - refs[r] >= REF_PENDING) && inUse == Some(false)
  }

  /** Without naming it: no ref is younger than two minutes, and no container uses the volume. */
  ghost predicate Discardable(refs: map<RefId, int>, now: int, inUse: Option<bool>) {
    inUse == Some(false) && forall r | r in refs :: refs[r] + 120_000 <= now
  }

  // The operations ---------------------------------------------------------------------------

  /** How Remove finds the volume on the array: gone or destroyed, not to be told, or live. */
  datatype Lookup = Gone | Unsure | Live

  datatype Op =
    | DoMount(v: Volume, ref: RefId, now: int, attach: AttachEnd)
    | DoUnmount(v: Volume, ref: RefId, now: int, inUse: Option<bool>, synced: bool, end: TearEnd)
    | DoRemove(v: Volume, found: Lookup, inUse: Option<bool>, end: TearEnd, released: bool)
    | LingerFires(v: Volume, id: nat, gen: nat, inUse: Option<bool>, end: TearEnd)
    | KeepFires(v: Volume, rec: nat, gen: nat, released: bool)
    | CloseDown
    | ShutDown(v: Volume, inUse: Option<bool>, end: TearEnd)

  function Mounted(b: Book, v: Volume, ref: RefId, now: int, attach: AttachEnd, cfg: Config): Book {
    if v in b.mounts then SetRefs(CancelTeardown(CancelKeep(b, v), v), v, b.mounts[v].refs[ref := now])
    else match attach
      case Failed => b
      case TooSlow => KeepAttached(b, v, cfg)
      case Attached => CancelKeep(Track(b, v, map[ref := now]), v)
  }

  function Unmounted(b: Book, v: Volume, ref: RefId, now: int, inUse: Option<bool>, synced: bool, end: TearEnd,
                     cfg: Config): Book
  {
    if v !in b.mounts then b
    else
      var refs := b.mounts[v].refs - {ref};
      if refs != map[] && !AllStale(refs, now, inUse) then SetRefs(b, v, refs)
      else
        var c := SetRefs(b, v, map[]);
        if cfg.linger > 0 && synced then ScheduleTeardown(c, v) else Teardown(c, v, end)
  }

  /** released: the array lists no other host, and this host let go of the volume. */
  function Removed(b: Book, v: Volume, found: Lookup, inUse: Option<bool>, end: TearEnd, released: bool): Book {
    match found
    case Gone => CancelKeep(b, v)
    case Unsure => b
    case Live =>
      if v !in b.mounts then (if released then CancelKeep(b, v) else b)
      else if b.mounts[v].refs != map[] || inUse != Some(false) then b
      else
        var c := Teardown(CancelTeardown(b, v), v, end);
        if end == Untracked(true) && released then CancelKeep(c, v) else c
  }

  /** The timer is the one the tracked mount waits for. */
  predicate LingerCurrent(b: Book, v: Volume, id: nat, gen: nat) {
    && !b.closing && v in b.mounts
    && b.mounts[v].id == id && b.mounts[v].gen == gen && b.mounts[v].refs == map[]
  }

  function LingerFired(b: Book, v: Volume, id: nat, gen: nat, inUse: Option<bool>, end: TearEnd): Book {
    if !LingerCurrent(b, v, id, gen) then b
    else
      var c := Disarm(b, v);
      if inUse != Some(false) then ScheduleTeardown(c, v)
      else if end.UnmountFailed? then ScheduleTeardown(Teardown(c, v, end), v)
      else Teardown(c, v, end)
  }

  /** The driver compares generations only, not records. */
  predicate KeepCurrent(b: Book, v: Volume, gen: nat) {
    !b.closing && v in b.pending && b.pending[v].gen == gen
  }

  function KeepFired(b: Book, v: Volume, gen: nat, released: bool, cfg: Config): Book {
    if !KeepCurrent(b, v, gen) then b
    else
      var c := CancelKeep(b, v);
      if v in b.mounts || released then c else KeepAttached(c, v, cfg)
  }

  function ShutDownOne(b: Book, v: Volume, inUse: Option<bool>, end: TearEnd): Book {
    if v !in b.mounts || b.mounts[v].refs != map[] then b
    else
      var c := CancelTeardown(b, v);
      if inUse == Some(false) then Teardown(c, v, end) else c
  }

  /** A timer can only fire once armed, and Shutdown works on volumes only once it has begun. */
  predicate Possible(b: Book, op: Op) {
    match op
    case LingerFires(v, id, gen, _, _) => LingerTimer(v, id, gen) in b.timers
    case KeepFires(v, rec, gen, _) => KeepTimer(v, rec, gen) in b.timers
    case ShutDown(_, _, _) => b.closing
    case _ => true
  }

  function Apply(b: Book, op: Op, cfg: Config): Book {
    match op
    case DoMount(v, ref, now, attach) => Mounted(b, v, ref, now, attach, cfg)
    case DoUnmount(v, ref, now, inUse, synced, end) => Unmounted(b, v, ref, now, inUse, synced, end, cfg)
    case DoRemove(v, found, inUse, end, released) => Removed(b, v, found, inUse, end, released)
    case LingerFires(v, id, gen, inUse, end) => LingerFired(b, v, id, gen, inUse, end)
    case KeepFires(v, _, gen, released) => KeepFired(b, v, gen, released, cfg)
    case CloseDown => b.(closing := true)
    case ShutDown(v, inUse, end) => ShutDownOne(b, v, inUse, end)
  }

  ghost predicate Run(books: seq<Book>, ops: seq<Op>, cfg: Config) {
    && |books| == |ops| + 1
    && forall i | 0 <= i < |ops| :: Possible(books[i], ops[i]) && books[i + 1] == Apply(books[i], ops[i], cfg)
  }

  // What every operation keeps ---------------------------------------------------------------

  ghost predicate MountOk(b: Book, v: Volume)
    requires v in b.mounts
  {
    var st := b.mounts[v];
    st.id < b.next && v !in b.pending && (st.armed ==> LingerTimer(v, st.id, st.gen) in b.timers)
  }

  ghost predicate PendingOk(b: Book, v: Volume, cfg: Config)
    requires v in b.pending
  {
    var p := b.pending[v];
    p.rec < b.next && 0 < cfg.keepFor && KeepTimer(v, p.rec, p.gen) in b.timers
  }

  ghost predicate TimerOk(b: Book, t: Timer) {
    match t
    case LingerTimer(v, id, gen) => id < b.next && (v in b.mounts && b.mounts[v].id == id ==> gen <= b.mounts[v].gen)
    case KeepTimer(v, rec, gen) => rec < b.next && (v in b.pending && b.pending[v].rec == rec ==> gen <= b.pending[v].gen)
  }

  /** No volume is both tracked and kept; what is armed or kept has its timer; no timer is ahead of
      what it was armed for. */
  ghost predicate Valid(b: Book, cfg: Config) {
    && (forall v | v in b.mounts :: MountOk(b, v))
    && (forall v | v in b.pending :: PendingOk(b, v, cfg))
    && (forall t | t in b.timers :: TimerOk(b, t))
  }

  lemma CancelKeepValid(b: Book, v: Volume, cfg: Config)
    requires Valid(b, cfg)
    ensures Valid(CancelKeep(b, v), cfg)
  {
  }

  lemma KeepAttachedValid(b: Book, v: Volume, cfg: Config)
    requires Valid(b, cfg) && v !in b.mounts
    ensures Valid(KeepAttached(b, v, cfg), cfg)
  {
  }

  lemma CancelTeardownValid(b: Book, v: Volume, cfg: Config)
    requires Valid(b, cfg) && v in b.mounts
    ensures Valid(CancelTeardown(b, v), cfg)
  {
  }

  lemma ScheduleTeardownValid(b: Book, v: Volume, cfg: Config)
    requires Valid(b, cfg) && v in b.mounts
    ensures Valid(ScheduleTeardown(b, v), cfg)
  {
  }

  lemma TeardownValid(b: Book, v: Volume, end: TearEnd, cfg: Config)
    requires Valid(b, cfg) && v in b.mounts
    ensures Valid(Teardown(b, v, end), cfg)
  {
  }

  lemma DisarmValid(b: Book, v: Volume, cfg: Config)
    requires Valid(b, cfg) && v in b.mounts
    ensures Valid(Disarm(b, v), cfg)
  {
  }

  lemma SetRefsValid(b: Book, v: Volume, refs: map<RefId, int>, cfg: Config)
    requires Valid(b, cfg) && v in b.mounts
    ensures Valid(SetRefs(b, v, refs), cfg)
  {
  }

  lemma TrackValid(b: Book, v: Volume, refs: map<RefId, int>, cfg: Config)
    requires Valid(b, cfg) && v !in b.pending
    ensures Valid(Track(b, v, refs), cfg)
  {
  }

  lemma MountedValid(b: Book, v: Volume, ref: RefId, now: int, attach: AttachEnd, cfg: Config)
    requires Valid(b, cfg)
    ensures Valid(Mounted(b, v, ref, now, attach, cfg), cfg)
  {
    CancelKeepValid(b, v, cfg);
    var c := CancelKeep(b, v);
    if v in b.mounts {
      CancelTeardownValid(c, v, cfg);
      SetRefsValid(CancelTeardown(c, v), v, b.mounts[v].refs[ref := now], cfg);
    } else {
      KeepAttachedValid(b, v, cfg);
      TrackValid(c, v, map[ref := now], cfg);
    }
  }

  lemma UnmountedValid(b: Book, v: Volume, ref: RefId, now: int, inUse: Option<bool>, synced: bool, end: TearEnd,
                       cfg: Config)
    requires Valid(b, cfg)
    ensures Valid(Unmounted(b, v, ref, now, inUse, synced, end, cfg), cfg)
  {
    if v in b.mounts {
      SetRefsValid(b, v, b.mounts[v].refs - {ref}, cfg);
      SetRefsValid(b, v, map[], cfg);
      var c := SetRefs(b, v, map[]);
      ScheduleTeardownValid(c, v, cfg);
      TeardownValid(c, v, end, cfg);
    }
  }

  lemma RemovedValid(b: Book, v: Volume, found: Lookup, inUse: Option<bool>, end: TearEnd, released: bool, cfg: Config)
    requires Valid(b, cfg)
    ensures Valid(Removed(b, v, found, inUse, end, released), cfg)
  {
    CancelKeepValid(b, v, cfg);
    if v in b.mounts {
      CancelTeardownValid(b, v, cfg);
      TeardownValid(CancelTeardown(b, v), v, end, cfg);
      CancelKeepValid(Teardown(CancelTeardown(b, v), v, end), v, cfg);
    }
  }

  lemma LingerFiredValid(b: Book, v: Volume, id: nat, gen: nat, inUse: Option<bool>, end: TearEnd, cfg: Config)
    requires Valid(b, cfg)
    ensures Valid(LingerFired(b, v, id, gen, inUse, end), cfg)
  {
    if LingerCurrent(b, v, id, gen) {
      DisarmValid(b, v, cfg);
      var c := Disarm(b, v);
      ScheduleTeardownValid(c, v, cfg);
      TeardownValid(c, v, end, cfg);
      if end.UnmountFailed? {
        ScheduleTeardownValid(Teardown(c, v, end), v, cfg);
      }
    }
  }

  lemma KeepFiredValid(b: Book, v: Volume, gen: nat, released: bool, cfg: Config)
    requires Valid(b, cfg)
    ensures Valid(KeepFired(b, v, gen, released, cfg), cfg)
  {
  }

  lemma ShutDownOneValid(b: Book, v: Volume, inUse: Option<bool>, end: TearEnd, cfg: Config)
    requires Valid(b, cfg)
    ensures Valid(ShutDownOne(b, v, inUse, end), cfg)
  {
  }

  lemma ClosedValid(b: Book, cfg: Config)
    requires Valid(b, cfg)
    ensures Valid(b.(closing := true), cfg)
  {
  }

  lemma ApplyKeepsValid(b: Book, op: Op, cfg: Config)
    requires Valid(b, cfg)
    ensures Valid(Apply(b, op, cfg), cfg)
  {
    match op
    case DoMount(v, ref, now, attach) => MountedValid(b, v, ref, now, attach, cfg);
    case DoUnmount(v, ref, now, inUse, synced, end) => UnmountedValid(b, v, ref, now, inUse, synced, end, cfg);
    case DoRemove(v, found, inUse, end, released) => RemovedValid(b, v, found, inUse, end, released, cfg);
    case LingerFires(v, id, gen, inUse, end) => LingerFiredValid(b, v, id, gen, inUse, end, cfg);
    case KeepFires(v, _, gen, released) => KeepFiredValid(b, v, gen, released, cfg);
    case CloseDown => ClosedValid(b, cfg);
    case ShutDown(v, inUse, end) => ShutDownOneValid(b, v, inUse, end, cfg);
  }

  /** Over any interleaving of operations and late timers, no volume is ever both tracked and kept. */
  lemma {:induction false} RunsStayValid(books: seq<Book>, ops: seq<Op>, cfg: Config, n: nat)
    requires Run(books, ops, cfg) && Valid(books[0], cfg) && n < |books|
    ensures Valid(books[n], cfg) && books[n].mounts.Keys !! books[n].pending.Keys
  {
    if n > 0 {
      RunsStayValid(books, ops, cfg, n - 1);
      ApplyKeepsValid(books[n - 1], ops[n - 1], cfg);
    }
    forall v | v in books[n].mounts ensures v !in books[n].pending { assert MountOk(books[n], v); }
  }

  // Teardowns --------------------------------------------------------------------------------

  /** The refs v would be torn down under: what Unmount leaves, or what v has. */
  function RefsLeft(b: Book, v: Volume, op: Op): map<RefId, int>
    requires v in b.mounts
  {
    if op.DoUnmount? then b.mounts[v].refs - {op.ref} else b.mounts[v].refs
  }

  /** An operation tears down at most once, and then the mount tracked at that moment, with no ref
      left but those Unmount may discard; anything but an Unmount of the last ref first made sure
      no container uses it, and a timer's teardown is of the mount it was armed for. */
  ghost predicate TornJustly(b: Book, op: Op, t: Tear) {
    && t.v in b.mounts && t.id == b.mounts[t.v].id
    && match op
       case DoUnmount(v, _, now, inUse, _, _) =>
         t.v == v && (RefsLeft(b, v, op) == map[] || Discardable(RefsLeft(b, v, op), now, inUse))
       case DoRemove(v, found, inUse, _, _) => t.v == v && found == Live && b.mounts[v].refs == map[] && inUse == Some(false)
       case LingerFires(v, id, gen, inUse, _) =>
         t == Tear(v, id) && b.mounts[v].gen == gen && b.mounts[v].refs == map[] && inUse == Some(false) && !b.closing
       case ShutDown(v, inUse, _) => t.v == v && b.mounts[v].refs == map[] && inUse == Some(false) && b.closing
       case _ => false
  }

  /** Nothing was torn down since, or one mount justly. */
  ghost predicate TearsJustly(b: Book, op: Op, c: Book) {
    c.torn == b.torn || (|c.torn| == |b.torn| + 1 && c.torn[..|b.torn|] == b.torn && TornJustly(b, op, c.torn[|b.torn|]))
  }

  lemma UnmountTearsJustly(b: Book, u: Volume, ref: RefId, now: int, inUse: Option<bool>, synced: bool, end: TearEnd, cfg: Config)
    ensures TearsJustly(b, DoUnmount(u, ref, now, inUse, synced, end), Unmounted(b, u, ref, now, inUse, synced, end, cfg))
  {
  }

  lemma TimerTearsJustly(b: Book, u: Volume, id: nat, gen: nat, inUse: Option<bool>, end: TearEnd)
    ensures TearsJustly(b, LingerFires(u, id, gen, inUse, end), LingerFired(b, u, id, gen, inUse, end))
  {
  }

  lemma TeardownsAreJust(b: Book, op: Op, cfg: Config)
    requires Possible(b, op)
    ensures TearsJustly(b, op, Apply(b, op, cfg))
  {
    match op
    case DoMount(_, _, _, _) =>
    case DoUnmount(u, ref, now, inUse, synced, end) => UnmountTearsJustly(b, u, ref, now, inUse, synced, end, cfg);
    case DoRemove(_, _, _, _, _) =>
    case LingerFires(u, id, gen, inUse, end) => TimerTearsJustly(b, u, id, gen, inUse, end);
    case KeepFires(_, _, _, _) =>
    case CloseDown =>
    case ShutDown(_, _, _) =>
  }

  lemma UntrackedByUnmount(b: Book, u: Volume, ref: RefId, now: int, inUse: Option<bool>, synced: bool, end: TearEnd,
                           cfg: Config, v: Volume)
    requires v in b.mounts && v !in Unmounted(b, u, ref, now, inUse, synced, end, cfg).mounts
    ensures Unmounted(b, u, ref, now, inUse, synced, end, cfg).torn == b.torn + [Tear(v, b.mounts[v].id)]
  {
  }

  lemma UntrackedByRemove(b: Book, u: Volume, found: Lookup, inUse: Option<bool>, end: TearEnd, released: bool, v: Volume)
    requires v in b.mounts && v !in Removed(b, u, found, inUse, end, released).mounts
    ensures Removed(b, u, found, inUse, end, released).torn == b.torn + [Tear(v, b.mounts[v].id)]
  {
  }

  lemma UntrackedByTimer(b: Book, u: Volume, id: nat, gen: nat, inUse: Option<bool>, end: TearEnd, v: Volume)
    requires v in b.mounts && v !in LingerFired(b, u, id, gen, inUse, end).mounts
    ensures LingerFired(b, u, id, gen, inUse, end).torn == b.torn + [Tear(v, b.mounts[v].id)]
  {
  }

  /** The other direction: a tracked mount goes away only through a teardown, and nothing but its
      volume's own operations changes it. */
  lemma UntrackedOnlyByTeardown(b: Book, op: Op, cfg: Config, v: Volume)
    requires v in b.mounts && v !in Apply(b, op, cfg).mounts
    ensures Apply(b, op, cfg).torn == b.torn + [Tear(v, b.mounts[v].id)]
  {
    match op
    case CloseDown =>
    case DoMount(_, _, _, _) =>
    case DoUnmount(u, ref, now, inUse, synced, end) => UntrackedByUnmount(b, u, ref, now, inUse, synced, end, cfg, v);
    case DoRemove(u, found, inUse, end, released) => UntrackedByRemove(b, u, found, inUse, end, released, v);
    case LingerFires(u, id, gen, inUse, end) => UntrackedByTimer(b, u, id, gen, inUse, end, v);
    case KeepFires(_, _, _, _) =>
    case ShutDown(_, _, _) =>
  }

  /** Unmount of ref, or an Unmount that may discard every ref left: the only ways v loses ref. */
  ghost predicate GivesUp(b: Book, op: Op, v: Volume, ref: RefId) {
    && op.DoUnmount? && op.v == v && v in b.mounts
    && (op.ref == ref || Discardable(b.mounts[v].refs - {op.ref}, op.now, op.inUse))
  }

  predicate Holds(b: Book, v: Volume, id: nat, ref: RefId) {
    v in b.mounts && b.mounts[v].id == id && ref in b.mounts[v].refs
  }

  lemma RefStaysInUnmount(b: Book, u: Volume, of: RefId, now: int, inUse: Option<bool>, synced: bool, end: TearEnd,
                          cfg: Config, v: Volume, id: nat, ref: RefId)
    requires Holds(b, v, id, ref) && !GivesUp(b, DoUnmount(u, of, now, inUse, synced, end), v, ref)
    ensures Holds(Unmounted(b, u, of, now, inUse, synced, end, cfg), v, id, ref)
  {
    if u == v {
      assert ref in b.mounts[v].refs - {of};
    }
  }

  lemma RefStaysInRemove(b: Book, u: Volume, found: Lookup, inUse: Option<bool>, end: TearEnd, released: bool,
                         v: Volume, id: nat, ref: RefId)
    requires Holds(b, v, id, ref)
    ensures Holds(Removed(b, u, found, inUse, end, released), v, id, ref)
  {
  }

  lemma RefStays(b: Book, op: Op, cfg: Config, v: Volume, id: nat, ref: RefId)
    requires Holds(b, v, id, ref) && !GivesUp(b, op, v, ref)
    ensures Holds(Apply(b, op, cfg), v, id, ref)
  {
    match op
    case DoMount(_, _, _, _) =>
    case DoUnmount(u, of, now, inUse, synced, end) =>
      RefStaysInUnmount(b, u, of, now, inUse, synced, end, cfg, v, id, ref);
    case DoRemove(u, found, inUse, end, released) => RefStaysInRemove(b, u, found, inUse, end, released, v, id, ref);
    case LingerFires(_, _, _, _, _) =>
    case KeepFires(_, _, _, _) =>
    case CloseDown =>
    case ShutDown(_, _, _) =>
  }

  /** However operations and timers interleave, a mount a container holds a ref on stays tracked
      until that ref is unmounted or an Unmount finds every ref left stale. */
  lemma {:induction false} HeldMountStays(books: seq<Book>, ops: seq<Op>, cfg: Config, v: Volume, id: nat, ref: RefId,
                                          from: nat, n: nat)
    requires Run(books, ops, cfg) && from <= n < |books| && Holds(books[from], v, id, ref)
    requires forall i | from <= i < n :: !GivesUp(books[i], ops[i], v, ref)
    ensures Holds(books[n], v, id, ref)
  {
    if n > from {
      HeldMountStays(books, ops, cfg, v, id, ref, from, n - 1);
      RefStays(books[n - 1], ops[n - 1], cfg, v, id, ref);
    }
  }

  /** A Mount answers that it serves the volume: it was tracked, or the attach worked. */
  predicate Serves(b: Book, op: Op) {
    op.DoMount? && (op.v in b.mounts || op.attach.Attached?)
  }

  /** So a volume whose Mount was served to ref stays tracked with it. */
  lemma ServedMountStays(books: seq<Book>, ops: seq<Op>, cfg: Config, i: nat, n: nat)
    requires Run(books, ops, cfg) && i < n < |books| && Serves(books[i], ops[i])
    requires forall k | i < k < n :: !GivesUp(books[k], ops[k], ops[i].v, ops[i].ref)
    ensures ops[i].v in books[n].mounts && ops[i].ref in books[n].mounts[ops[i].v].refs
    ensures books[n].mounts[ops[i].v].id == books[i + 1].mounts[ops[i].v].id
  {
    var op := ops[i];
    MountSays(books[i], op.v, op.ref, op.now, op.attach, cfg);
    HeldMountStays(books, ops, cfg, op.v, books[i + 1].mounts[op.v].id, op.ref, i + 1, n);
  }

  // What the operations come to --------------------------------------------------------------

  function RefsOf(b: Book, v: Volume): map<RefId, int> {
    if v in b.mounts then b.mounts[v].refs else map[]
  }

  /** A served Mount leaves the volume tracked, unarmed and no longer kept, with this ref at this time
      beside every earlier one; one that is not changes no mount, and keeps the attachment only if the
      device was slow and there is a grace. */
  lemma MountSays(b: Book, v: Volume, ref: RefId, now: int, attach: AttachEnd, cfg: Config)
    ensures var op, c := DoMount(v, ref, now, attach), Apply(b, DoMount(v, ref, now, attach), cfg);
            && (Serves(b, op) ==>
                  && v in c.mounts && c.mounts[v].refs == RefsOf(b, v)[ref := now] && !c.mounts[v].armed && v !in c.pending
                  && (v in b.mounts ==> c.mounts[v].id == b.mounts[v].id && c.mounts[v].gen > b.mounts[v].gen))
            && (!Serves(b, op) ==> c.mounts == b.mounts && c.torn == b.torn)
            && (!Serves(b, op) && attach.TooSlow? && cfg.keepFor > 0 ==>
                  v in c.pending && KeepTimer(v, c.pending[v].rec, c.pending[v].gen) in c.timers)
            && (!Serves(b, op) && !(attach.TooSlow? && cfg.keepFor > 0) ==> c == b)
  {
  }

  /** An Unmount that leaves refs which cannot be discarded changes only these; one that does not lingers
      if it may, under a new timer, and tears down at once otherwise. One of an untracked volume changes
      nothing here. */
  lemma UnmountSays(b: Book, v: Volume, ref: RefId, now: int, inUse: Option<bool>, synced: bool, end: TearEnd, cfg: Config)
    requires Valid(b, cfg)
    ensures var rest, c := RefsOf(b, v) - {ref}, Apply(b, DoUnmount(v, ref, now, inUse, synced, end), cfg);
            if v !in b.mounts then c == b
            else if rest != map[] && !Discardable(rest, now, inUse) then
              c == b.(mounts := b.mounts[v := b.mounts[v].(refs := rest)])
            else if cfg.linger > 0 && synced then
              && c.torn == b.torn && NewlyArmed(b, c, v, b.mounts[v].gen)
              && c.mounts[v].refs == map[] && c.mounts[v].id == b.mounts[v].id
            else
              && c.torn == b.torn + [Tear(v, b.mounts[v].id)] && (v !in c.mounts <==> end.Untracked?)
              && (v in c.mounts ==> c.mounts[v] == b.mounts[v].(refs := map[]))
  {
    if v in b.mounts {
      assert LingerTimer(v, b.mounts[v].id, b.mounts[v].gen + 1) in b.timers ==>
          TimerOk(b, LingerTimer(v, b.mounts[v].id, b.mounts[v].gen + 1));
    }
  }

  /** Remove of a live volume tears down an idle mount of it, refuses with refs or in use, and lets go of a
      kept attachment only once nothing is mounted and the volume is released. */
  lemma RemoveSays(b: Book, v: Volume, found: Lookup, inUse: Option<bool>, end: TearEnd, released: bool, cfg: Config)
    requires Valid(b, cfg)
    ensures var c := Apply(b, DoRemove(v, found, inUse, end, released), cfg);
            match found
            case Gone => c == b.(pending := b.pending - {v})
            case Unsure => c == b
            case Live =>
              if v !in b.mounts then c == b.(pending := if released then b.pending - {v} else b.pending)
              else if b.mounts[v].refs != map[] || inUse != Some(false) then c == b
              else
                && c.torn == b.torn + [Tear(v, b.mounts[v].id)] && (v !in c.mounts <==> end.Untracked?)
                && (v in c.mounts ==> !c.mounts[v].armed && c.mounts[v].gen > b.mounts[v].gen)
                && c.pending == b.pending
  {
    if v in b.mounts {
      assert MountOk(b, v);
      assert b.pending - {v} == b.pending;
    }
  }

  /** Shutdown tears down an idle mount of no known use and leaves any other, its timer outdated. */
  lemma ShutDownSays(b: Book, v: Volume, inUse: Option<bool>, end: TearEnd, cfg: Config)
    ensures var c := Apply(b, ShutDown(v, inUse, end), cfg);
            if v !in b.mounts || b.mounts[v].refs != map[] then c == b
            else
              && (v !in c.mounts <==> inUse == Some(false) && end.Untracked?)
              && c.torn == (if inUse == Some(false) then b.torn + [Tear(v, b.mounts[v].id)] else b.torn)
              && (v in c.mounts ==> !c.mounts[v].armed && c.mounts[v].gen > b.mounts[v].gen && c.mounts[v].id == b.mounts[v].id)
  {
  }

  /** What is tracked or kept of any other volume stays as it is. */
  lemma OthersUntouched(b: Book, op: Op, cfg: Config, u: Volume)
    requires op.CloseDown? || op.v != u
    ensures var c := Apply(b, op, cfg); SameMount(b, c, u) && SamePending(b, c, u)
  {
    match op
    case DoMount(_, _, _, _) => OthersUntouchedByMount(b, op, cfg, u);
    case DoUnmount(_, _, _, _, _, _) =>
    case DoRemove(_, _, _, _, _) =>
    case LingerFires(_, _, _, _, _) => OthersUntouchedByTimer(b, op, cfg, u);
    case KeepFires(_, _, _, _) => OthersUntouchedByTimer(b, op, cfg, u);
    case CloseDown =>
    case ShutDown(_, _, _) =>
  }

  ghost predicate SameMount(b: Book, c: Book, u: Volume) {
    (u in c.mounts <==> u in b.mounts) && (u in b.mounts ==> c.mounts[u] == b.mounts[u])
  }

  ghost predicate SamePending(b: Book, c: Book, u: Volume) {
    (u in c.pending <==> u in b.pending) && (u in b.pending ==> c.pending[u] == b.pending[u])
  }

  lemma OthersUntouchedByTimer(b: Book, op: Op, cfg: Config, u: Volume)
    requires (op.LingerFires? || op.KeepFires?) && op.v != u
    ensures var c := Apply(b, op, cfg); SameMount(b, c, u) && SamePending(b, c, u)
  {
  }

  lemma OthersUntouchedByMount(b: Book, op: Op, cfg: Config, u: Volume)
    requires op.DoMount? && op.v != u
    ensures var c := Apply(b, op, cfg); SameMount(b, c, u) && SamePending(b, c, u)
  {
  }

  /** A mount without refs is never forgotten: a timer is armed for it, its teardown has failed, or
      Shutdown has begun. */
  ghost predicate IdleHandled(b: Book) {
    forall v | v in b.mounts && b.mounts[v].refs == map[] ::
      b.mounts[v].armed || b.closing || Tear(v, b.mounts[v].id) in b.torn
  }

  lemma ApplyKeepsIdleHandled(b: Book, op: Op, cfg: Config)
    requires IdleHandled(b) && Possible(b, op)
    ensures IdleHandled(Apply(b, op, cfg))
  {
    var c := Apply(b, op, cfg);
    forall v | v in c.mounts && c.mounts[v].refs == map[] ensures c.mounts[v].armed || c.closing || Tear(v, c.mounts[v].id) in c.torn {
      NothingForgotten(b, op, cfg);
      if op.CloseDown? || op.v != v {
        OthersUntouched(b, op, cfg, v);
      } else {
        OwnIdleHandled(b, op, cfg);
      }
    }
  }

  lemma OwnIdleHandled(b: Book, op: Op, cfg: Config)
    requires IdleHandled(b) && Possible(b, op) && !op.CloseDown?
    ensures var c, v := Apply(b, op, cfg), op.v;
            v in c.mounts && c.mounts[v].refs == map[] ==> c.mounts[v].armed || c.closing || Tear(v, c.mounts[v].id) in c.torn
  {
    var c, v := Apply(b, op, cfg), op.v;
    match op
    case DoMount(_, _, _, _) =>
      assert v in c.mounts && v !in b.mounts ==> op.ref in c.mounts[v].refs;
      assert v in b.mounts ==> op.ref in c.mounts[v].refs;
    case DoUnmount(_, _, _, _, _, _) =>
    case DoRemove(_, _, _, _, _) =>
    case LingerFires(_, _, _, _, _) =>
    case KeepFires(_, _, _, _) =>
    case ShutDown(_, _, _) =>
  }

  /** No teardown and no timer is forgotten, and only Shutdown sets closing, for good. */
  lemma NothingForgotten(b: Book, op: Op, cfg: Config)
    ensures var c := Apply(b, op, cfg);
            b.torn <= c.torn && b.timers <= c.timers && (c.closing <==> b.closing || op.CloseDown?)
  {
  }

  lemma {:induction false} IdleMountsAreHandled(books: seq<Book>, ops: seq<Op>, cfg: Config, n: nat)
    requires Run(books, ops, cfg) && IdleHandled(books[0]) && n < |books|
    ensures IdleHandled(books[n])
  {
    if n > 0 {
      IdleMountsAreHandled(books, ops, cfg, n - 1);
      ApplyKeepsIdleHandled(books[n - 1], ops[n - 1], cfg);
    }
  }

  // Timers that lost their turn --------------------------------------------------------------

  /** What t was armed for is gone or has moved on to a later generation. */
  ghost predicate Superseded(b: Book, t: Timer) {
    match t
    case LingerTimer(v, id, gen) => id < b.next && (v in b.mounts && b.mounts[v].id == id ==> gen < b.mounts[v].gen)
    case KeepTimer(v, rec, gen) => rec < b.next && (v in b.pending && b.pending[v].rec == rec ==> gen < b.pending[v].gen)
  }

  /** Generations only grow and neither mounts nor records come back. */
  lemma SupersededStays(b: Book, op: Op, cfg: Config, t: Timer)
    requires Superseded(b, t)
    ensures Superseded(Apply(b, op, cfg), t)
  {
    if t.LingerTimer? {
      MountsMoveOn(b, op, cfg, t.v, t.id);
    } else {
      RecordsMoveOn(b, op, cfg, t.v, t.rec);
    }
  }

  /** A mount of v in b that was there in a has moved on since, if at all. */
  ghost predicate MovedOn(a: Book, b: Book, v: Volume, id: nat) {
    && a.next <= b.next
    && (v in b.mounts && b.mounts[v].id == id ==> v in a.mounts && a.mounts[v].id == id && a.mounts[v].gen <= b.mounts[v].gen)
  }

  lemma MountMovesOn(b: Book, u: Volume, ref: RefId, now: int, attach: AttachEnd, cfg: Config, v: Volume, id: nat)
    requires id < b.next
    ensures MovedOn(b, Mounted(b, u, ref, now, attach, cfg), v, id)
  {
  }

  lemma UnmountMovesOn(b: Book, u: Volume, ref: RefId, now: int, inUse: Option<bool>, synced: bool, end: TearEnd,
                       cfg: Config, v: Volume, id: nat)
    ensures MovedOn(b, Unmounted(b, u, ref, now, inUse, synced, end, cfg), v, id)
  {
  }

  lemma TimerMovesOn(b: Book, u: Volume, oldId: nat, gen: nat, inUse: Option<bool>, end: TearEnd, v: Volume, id: nat)
    ensures MovedOn(b, LingerFired(b, u, oldId, gen, inUse, end), v, id)
  {
  }

  lemma MountsMoveOn(b: Book, op: Op, cfg: Config, v: Volume, id: nat)
    requires id < b.next
    ensures MovedOn(b, Apply(b, op, cfg), v, id)
  {
    match op
    case DoMount(u, ref, now, attach) => MountMovesOn(b, u, ref, now, attach, cfg, v, id);
    case DoUnmount(u, ref, now, inUse, synced, end) => UnmountMovesOn(b, u, ref, now, inUse, synced, end, cfg, v, id);
    case DoRemove(_, _, _, _, _) =>
    case LingerFires(u, of, gen, inUse, end) => TimerMovesOn(b, u, of, gen, inUse, end, v, id);
    case KeepFires(_, _, _, _) =>
    case CloseDown =>
    case ShutDown(_, _, _) =>
  }

  lemma RecordsMoveOn(b: Book, op: Op, cfg: Config, v: Volume, rec: nat)
    requires rec < b.next
    ensures var c := Apply(b, op, cfg);
            b.next <= c.next && (v in c.pending && c.pending[v].rec == rec ==>
                                   v in b.pending && b.pending[v].rec == rec && b.pending[v].gen <= c.pending[v].gen)
  {
    match op
    case CloseDown =>
    case DoMount(_, _, _, _) =>
    case DoUnmount(_, _, _, _, _, _) =>
    case DoRemove(_, _, _, _, _) =>
    case LingerFires(_, _, _, _, _) =>
    case KeepFires(_, _, _, _) =>
    case ShutDown(_, _, _) =>
  }

  lemma {:induction false} SupersededForever(books: seq<Book>, ops: seq<Op>, cfg: Config, t: Timer, n: nat)
    requires Run(books, ops, cfg) && Superseded(books[0], t) && n < |books|
    ensures Superseded(books[n], t)
  {
    if n > 0 {
      SupersededForever(books, ops, cfg, t, n - 1);
      SupersededStays(books[n - 1], ops[n - 1], cfg, t);
    }
  }

  /** A Mount of v, or a re-arm, supersedes every linger timer v ever had. */
  lemma MountSupersedes(b: Book, op: Op, cfg: Config, t: Timer)
    requires Valid(b, cfg) && t in b.timers && t.LingerTimer?
    requires op.DoMount? && op.v == t.v
    ensures Superseded(Apply(b, op, cfg), t)
  {
  }

  lemma RearmSupersedes(b: Book, op: Op, cfg: Config, t: Timer)
    requires Valid(b, cfg) && t in b.timers && t.LingerTimer?
    requires var c := Apply(b, op, cfg); exists u :: u in c.timers && u !in b.timers && u.LingerTimer? && u.v == t.v
    ensures Superseded(Apply(b, op, cfg), t)
  {
    assert TimerOk(b, t);
  }

  /** A superseded linger timer does nothing, however late it fires and whatever happened since. */
  lemma LateLingerTimerDoesNothing(books: seq<Book>, ops: seq<Op>, cfg: Config, t: Timer, n: nat, inUse: Option<bool>, end: TearEnd)
    requires Run(books, ops, cfg) && n < |books| && t.LingerTimer? && Superseded(books[0], t)
    ensures Apply(books[n], LingerFires(t.v, t.id, t.gen, inUse, end), cfg) == books[n]
  {
    SupersededForever(books, ops, cfg, t, n);
  }

  /** A superseded keep timer does nothing while its record lasts. */
  lemma LateKeepTimerDoesNothing(books: seq<Book>, ops: seq<Op>, cfg: Config, t: Timer, n: nat, released: bool)
    requires Run(books, ops, cfg) && n < |books| && t.KeepTimer? && Superseded(books[0], t)
    requires t.v in books[n].pending ==> books[n].pending[t.v].rec == t.rec
    ensures Apply(books[n], KeepFires(t.v, t.rec, t.gen, released), cfg) == books[n]
  {
    SupersededForever(books, ops, cfg, t, n);
  }

  /** In whichever record, a keep timer does nothing exactly when Shutdown has begun, nothing is kept,
      or what is kept is at another generation. For a superseded one: unless a later record has
      reached the same generation. */
  lemma KeepTimerActsIff(b: Book, cfg: Config, v: Volume, rec: nat, gen: nat, released: bool)
    requires Valid(b, cfg)
    ensures Apply(b, KeepFires(v, rec, gen, released), cfg) == b <==>
            !(!b.closing && v in b.pending && b.pending[v].gen == gen)
    ensures Superseded(b, KeepTimer(v, rec, gen)) && KeepCurrent(b, v, gen) ==> b.pending[v].rec != rec
  {
    if KeepCurrent(b, v, gen) {
      assert PendingOk(b, v, cfg) && (v in b.mounts ==> MountOk(b, v));
      var c := Apply(b, KeepFires(v, rec, gen, released), cfg);
      assert released ==> v !in c.pending;
      assert !released ==> v in c.pending && c.pending[v].rec == b.next;
    }
  }

  /** After its record is gone it may act again: records do not tell each other apart, and a new
      one starts over at generation 1. The first Mount's timer releases what the second one kept. */
  lemma OldKeepTimerActsOnNewRecord(v: Volume)
    ensures var cfg := Config(0, 1);
            var b0 := Book(map[], map[], false, 0, {}, []);
            var slow := DoMount(v, "a", 0, TooSlow);
            var b1 := Apply(b0, slow, cfg);
            var b2 := Apply(b1, DoRemove(v, Gone, None, UnmountFailed, false), cfg);
            var b3 := Apply(b2, slow, cfg);
            var late := KeepFires(v, 0, 1, true);
            && Possible(b3, late) && Superseded(b2, KeepTimer(v, 0, 1)) && Superseded(b3, KeepTimer(v, 0, 1))
            && v in b3.pending && v !in Apply(b3, late, cfg).pending
  {
  }

  // Timers that act --------------------------------------------------------------------------

  /** v waits for a linger timer armed just now. */
  ghost predicate NewlyArmed(before: Book, after: Book, v: Volume, gen: nat) {
    && v in after.mounts && after.mounts[v].armed && gen < after.mounts[v].gen
    && LingerTimer(v, after.mounts[v].id, after.mounts[v].gen) in after.timers - before.timers
  }

  /** An idle mount is never left without a timer by the one that fired. */
  lemma LingerFiresOnce(b: Book, v: Volume, id: nat, gen: nat, inUse: Option<bool>, end: TearEnd, cfg: Config)
    requires Valid(b, cfg) && LingerCurrent(b, v, id, gen)
    ensures var c := Apply(b, LingerFires(v, id, gen, inUse, end), cfg);
            v !in c.mounts || NewlyArmed(b, c, v, gen)
    ensures v !in Apply(b, LingerFires(v, id, gen, inUse, end), cfg).mounts <==> inUse == Some(false) && end.Untracked?
  {
  }

  /** A kept attachment whose timer fires is released, or kept on under a new timer. */
  lemma KeepFiresOnce(b: Book, v: Volume, rec: nat, gen: nat, released: bool, cfg: Config)
    requires Valid(b, cfg) && KeepCurrent(b, v, gen)
    ensures var c := Apply(b, KeepFires(v, rec, gen, released), cfg);
            if released then v !in c.pending
            else v in c.pending && KeepTimer(v, c.pending[v].rec, c.pending[v].gen) in c.timers - b.timers
  {
  }
}
