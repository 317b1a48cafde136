/**
 Cross-process population of a shared toolchain volume
 (backend/app/container/docker_driver.py, _acquire_toolchain_lock,
 _populate_toolchain_volume, _read_toolchain_manifest, prepare_toolchain_volume).

 Any number of callers run the same program. Each engine call is one atomic step; between two
 steps every other caller, every populate helper and the clock may move. A caller may crash at
 any point; its populate helper is a container of its own and keeps running.
 */
module Toolchain {
  import opened Common
  import ImageIds

  const MANIFEST := "nukelab-toolchain.json"
  const LOCK_TIMEOUT := 900

  /** A file a reader can parse as JSON, or one it cannot (being written, truncated, malformed). */
  datatype File = Garbled | Doc(text: string)

  datatype Stamp = NoStamp | Stamped(imageId: Option<string>)

  datatype Volume = Volume(files: map<string, File>, stamp: Stamp)

  /** What the tag resolves to during the run. */
  datatype Image = Image(id: Option<string>, files: map<string, File>)

  /** The lock container: the engine's identity for it and its creation time. */
  datatype Lock = Lock(id: nat, created: int)

  /** One entry per lock container ever created; a container's identity is its position. */
  datatype Issue = Issue(created: int, owner: nat)

  datatype Outcome =
    | Reused(manifest: string)     // fast path
    | Rechecked(manifest: string)  // populated by someone else while waiting
    | Populated(manifest: string)  // populated by this caller
    | TimedOut
    | Failed

  datatype Pc =
    | Idle
    | FastManifest
    | FastStamp(seen: File)
    | Trying(deadline: int)
    | Conflict(deadline: int)
    | Inspected(deadline: int, handle: Lock)
    | Removing(deadline: int, handle: Lock)
    | HeldManifest
    | HeldStamp(seen: File)
    | Populating
    | BackManifest
    | BackStamp(seen: File)
    | Releasing(outcome: Outcome)
    | Finished(outcome: Outcome)
    | Crashed

  /** The populate container's shell script: rm, then cp, then printf of the stamp. */
  datatype Helper = NoHelper | Wiping | Copying | Stamping | Exited

  datatype Proc = Proc(pc: Pc, held: Option<Lock>, helper: Helper)

  datatype State = State(
    clock: int,
    lock: Option<Lock>,
    issued: seq<Issue>,
    vol: Volume,
    procs: seq<Proc>,
    stampedBy: seq<nat>  // the callers whose helper wrote the stamp, in order
  )

  datatype Action =
    | Tick(seconds: int)
    | Call(c: nat)
    | CallFails(c: nat)            // the image is not available locally
    | ReadManifest(c: nat)         // first half of the reading helper: cat of the manifest
    | ReadStamp(c: nat)            // second half: cat of the stamp, then the decision
    | ReadError(c: nat)            // the reading helper fails and the error is swallowed
    | TryCreate(c: nat)
    | EngineError(c: nat)          // container creation fails with something else than 409
    | GiveUp(c: nat)
    | Inspect(c: nat)
    | InspectError(c: nat)
    | JudgeAge(c: nat)
    | RemoveStale(c: nat, removed: bool)
    | Wipe(c: nat, gone: set<string>, stampToo: bool)
    | WipeEnds(c: nat)
    | Copy(c: nat, batch: map<string, File>)
    | CopyEnds(c: nat)
    | CopyCutShort(c: nat)         // cp fails; the shell goes on to the stamp
    | WriteStamp(c: nat)
    | SeeExit(c: nat)
    | PopulateError(c: nat)        // the wait or the start fails; the helper is killed
    | Release(c: nat, removed: bool)
    | Crash(c: nat)

  // ---------------------------------------------------------------------------------------
  // The volume
  // ---------------------------------------------------------------------------------------

  /** The globs `*` and `.[!.]*` reach every name except those starting with two dots. */
  predicate Reached(name: string) {
    !(|name| >= 2 && name[0] == '.' && name[1] == '.')
  }

  predicate Ships(img: Image) {
    && img.id.Some? && img.id.value != ""
    && MANIFEST in img.files && img.files[MANIFEST].Doc?
  }

  /** Every image file is there as shipped, and nothing a wipe reaches is left from elsewhere. */
  predicate Complete(img: Image, v: Volume) {
    && (forall f | f in img.files :: f in v.files && v.files[f] == img.files[f])
    && (forall f | f in v.files :: f in img.files || !Reached(f))
  }

  predicate StampMatches(img: Image, s: Stamp) {
    s.Stamped? && ImageIds.Match(s.imageId, img.id)
  }

  predicate Good(img: Image, v: Volume) {
    Complete(img, v) && StampMatches(img, v.stamp)
  }

  predicate Parses(v: Volume) {
    MANIFEST in v.files && v.files[MANIFEST].Doc?
  }

  // ---------------------------------------------------------------------------------------
  // Steps
  // ---------------------------------------------------------------------------------------

  function With(s: State, c: nat, p: Proc): State
    requires c < |s.procs|
  {
    s.(procs := s.procs[c := p])
  }

  predicate Reading(pc: Pc) {
    pc.FastManifest? || pc.FastStamp? || pc.HeldManifest? || pc.HeldStamp? || pc.BackManifest? || pc.BackStamp?
  }

  /** What a caller does once its read is over; `found` is the manifest when both files parsed. */
  function AfterRead(img: Image, s: State, p: Proc, found: Option<string>, stamp: Stamp): Proc
    requires Reading(p.pc)
  {
    if p.pc.FastManifest? || p.pc.FastStamp? then
      if found.Some? && StampMatches(img, stamp) then p.(pc := Finished(Reused(found.value)))
      else p.(pc := Trying(s.clock + LOCK_TIMEOUT))
    else if p.pc.HeldManifest? || p.pc.HeldStamp? then
      if found.Some? && StampMatches(img, stamp) then p.(pc := Releasing(Rechecked(found.value)))
      else p.(pc := Populating, helper := Wiping)
    else
      if found.Some? then p.(pc := Releasing(Populated(found.value)))
      else p.(pc := Releasing(Failed))
  }

  function OnceSeen(pc: Pc, seen: File): Pc
    requires pc.FastManifest? || pc.HeldManifest? || pc.BackManifest?
  {
    if pc.FastManifest? then FastStamp(seen) else if pc.HeldManifest? then HeldStamp(seen) else BackStamp(seen)
  }

  predicate Enabled(img: Image, s: State, a: Action) {
    if a.Tick? then a.seconds > 0
    else a.c < |s.procs| && var p := s.procs[a.c];
      match a
      case Call(_) => p.pc.Idle?
      case CallFails(_) => p.pc.Idle?
      case ReadManifest(_) => p.pc.FastManifest? || p.pc.HeldManifest? || p.pc.BackManifest?
      case ReadStamp(_) => p.pc.FastStamp? || p.pc.HeldStamp? || p.pc.BackStamp?
      case ReadError(_) => Reading(p.pc)
      case TryCreate(_) => p.pc.Trying?
      case EngineError(_) => p.pc.Trying?
      case GiveUp(_) => p.pc.Conflict? && s.clock > p.pc.deadline
      case Inspect(_) => p.pc.Conflict? && s.clock <= p.pc.deadline
      case InspectError(_) => p.pc.Conflict? && s.clock <= p.pc.deadline
      case JudgeAge(_) => p.pc.Inspected?
      case RemoveStale(_, _) => p.pc.Removing?
      case Wipe(_, gone, _) => p.helper.Wiping? && forall f | f in gone :: Reached(f)
      case WipeEnds(_) => p.helper.Wiping? && s.vol.stamp.NoStamp? && forall f | f in s.vol.files :: !Reached(f)
      case Copy(_, batch) =>
        && p.helper.Copying?
        && forall f | f in batch :: f in img.files && (batch[f].Garbled? || batch[f] == img.files[f])
      case CopyEnds(_) => p.helper.Copying? && forall f | f in img.files :: f in s.vol.files && s.vol.files[f] == img.files[f]
      case CopyCutShort(_) => p.helper.Copying?
      case WriteStamp(_) => p.helper.Stamping?
      case SeeExit(_) => p.pc.Populating? && p.helper.Exited?
      case PopulateError(_) => p.pc.Populating?
      case Release(_, _) => p.pc.Releasing? && p.held.Some?
      case Crash(_) => !p.pc.Idle? && !p.pc.Finished?
  }

  function Next(img: Image, s: State, a: Action): State
    requires Enabled(img, s, a)
  {
    if a.Tick? then s.(clock := s.clock + a.seconds)
    else
      var c := a.c;
      var p := s.procs[c];
      match a
      case Call(_) => With(s, c, p.(pc := FastManifest))
      case CallFails(_) => With(s, c, p.(pc := Finished(Failed)))
      case ReadManifest(_) =>
        if MANIFEST in s.vol.files then With(s, c, p.(pc := OnceSeen(p.pc, s.vol.files[MANIFEST])))
        else With(s, c, AfterRead(img, s, p, None, NoStamp))
      case ReadStamp(_) =>
        var found := if p.pc.seen.Doc? && s.vol.stamp.Stamped? then Some(p.pc.seen.text) else None;
        With(s, c, AfterRead(img, s, p, found, s.vol.stamp))
      case ReadError(_) => With(s, c, AfterRead(img, s, p, None, NoStamp))
      case TryCreate(_) =>
        if s.lock.None? then
          var l := Lock(|s.issued|, s.clock);
          With(s, c, p.(pc := HeldManifest, held := Some(l))).(lock := Some(l), issued := s.issued + [Issue(s.clock, c)])
        else With(s, c, p.(pc := Conflict(p.pc.deadline)))
      case EngineError(_) => With(s, c, p.(pc := Finished(Failed)))
      case GiveUp(_) => With(s, c, p.(pc := Finished(TimedOut)))
      case Inspect(_) =>
        if s.lock.None? then With(s, c, p.(pc := Trying(p.pc.deadline)))
        else With(s, c, p.(pc := Inspected(p.pc.deadline, s.lock.value)))
      case InspectError(_) => With(s, c, p.(pc := Trying(p.pc.deadline)))
      case JudgeAge(_) =>
        if s.clock - p.pc.handle.created > LOCK_TIMEOUT
        then With(s, c, p.(pc := Removing(p.pc.deadline, p.pc.handle)))
        else With(s, c, p.(pc := Trying(p.pc.deadline)))
      case RemoveStale(_, removed) =>
        With(s, c, p.(pc := Trying(p.pc.deadline))).(lock := Drop(s.lock, p.pc.handle, removed))
      case Wipe(_, gone, stampToo) =>
        s.(vol := Volume(s.vol.files - gone, if stampToo then NoStamp else s.vol.stamp))
      case WipeEnds(_) => With(s, c, p.(helper := Copying))
      case Copy(_, batch) => s.(vol := s.vol.(files := s.vol.files + batch))
      case CopyEnds(_) => With(s, c, p.(helper := Stamping))
      case CopyCutShort(_) => With(s, c, p.(helper := Stamping))
      case WriteStamp(_) =>
        With(s, c, p.(helper := Exited)).(vol := s.vol.(stamp := Stamped(img.id)), stampedBy := s.stampedBy + [c])
      case SeeExit(_) => With(s, c, p.(pc := BackManifest))
      case PopulateError(_) => With(s, c, p.(pc := Releasing(Failed), helper := NoHelper))
      case Release(_, removed) =>
        With(s, c, p.(pc := Finished(p.pc.outcome))).(lock := Drop(s.lock, p.held.value, removed))
      case Crash(_) => With(s, c, p.(pc := Crashed))
  }

  /** Deleting a container through its handle touches that container only, never a successor. */
  function Drop(lock: Option<Lock>, handle: Lock, removed: bool): Option<Lock> {
    if removed && lock.Some? && lock.value.id == handle.id then None else lock
  }

  // ---------------------------------------------------------------------------------------
  // Runs
  // ---------------------------------------------------------------------------------------

  /** Between acquiring and releasing the lock, or with a populate helper still at work. */
  predicate Critical(p: Proc) {
    || p.pc.HeldManifest? || p.pc.HeldStamp? || p.pc.Populating?
    || p.pc.BackManifest? || p.pc.BackStamp? || p.pc.Releasing?
    || p.helper.Wiping? || p.helper.Copying? || p.helper.Stamping?
  }

  /** Whoever is in the critical section entered it at most LOCK_TIMEOUT ago. */
  predicate Timely(s: State) {
    forall c | 0 <= c < |s.procs| && Critical(s.procs[c]) ::
      s.procs[c].held.Some? ==> s.clock - s.procs[c].held.value.created <= LOCK_TIMEOUT
  }

  /** The assumption, if any, that a run is allowed to break. */
  datatype Slack = Strict | LateHolder | FailedRecheck | FailedCopy

  predicate InTime(x: Slack, s: State) {
    x.LateHolder? || Timely(s)
  }

  /** Not a failed copy, and not a failed re-check under the lock. */
  predicate Sound(x: Slack, s: State, a: Action) {
    && (a.CopyCutShort? ==> x.FailedCopy?)
    && (a.ReadError? && a.c < |s.procs| && (s.procs[a.c].pc.HeldManifest? || s.procs[a.c].pc.HeldStamp?) ==> x.FailedRecheck?)
  }

  predicate Fresh(s: State) {
    && (forall c | 0 <= c < |s.procs| :: s.procs[c] == Proc(Idle, None, NoHelper))
    && (s.lock.Some? ==> Known(s, s.lock.value))
    && s.stampedBy == []
  }

  /** A volume that would be served is complete. */
  predicate Trustworthy(img: Image, v: Volume) {
    StampMatches(img, v.stamp) && Parses(v) ==> Complete(img, v)
  }

  predicate Possible(img: Image, s: State, acts: seq<Action>)
    decreases |acts|
  {
    acts == [] || (Enabled(img, s, acts[0]) && Possible(img, Next(img, s, acts[0]), acts[1..]))
  }

  function Run(img: Image, s: State, acts: seq<Action>): State
    requires Possible(img, s, acts)
    decreases |acts|
  {
    if acts == [] then s else Run(img, Next(img, s, acts[0]), acts[1..])
  }

  /** A possible run that is in time in every state and sound in every step. */
  predicate Admissible(x: Slack, img: Image, s: State, acts: seq<Action>)
    decreases |acts|
  {
    && InTime(x, s)
    && (acts == [] ||
        (Enabled(img, s, acts[0]) && Sound(x, s, acts[0]) && Admissible(x, img, Next(img, s, acts[0]), acts[1..])))
  }

  // ---------------------------------------------------------------------------------------
  // The inductive invariant
  // ---------------------------------------------------------------------------------------

  predicate SawDoc(pc: Pc) {
    (pc.FastStamp? || pc.HeldStamp? || pc.BackStamp?) && pc.seen.Doc?
  }

  predicate Success(o: Outcome) {
    o.Reused? || o.Rechecked? || o.Populated?
  }

  predicate Known(s: State, l: Lock) {
    l.id < |s.issued| && s.issued[l.id].created == l.created
  }

  predicate LockInv(s: State) {
    && (s.lock.Some? ==> Known(s, s.lock.value))
    && (forall c | 0 <= c < |s.procs| :: LockProc(s, c))
  }

  predicate LockProc(s: State, c: nat)
    requires c < |s.procs|
  {
    var p := s.procs[c];
    && (p.held.Some? ==> Known(s, p.held.value) && s.issued[p.held.value.id].owner == c)
    && (Critical(p) ==> p.held.Some? && s.lock == p.held)
    && (p.pc.Inspected? ==> Known(s, p.pc.handle))
    && (p.pc.Removing? ==> Known(s, p.pc.handle) && s.clock - p.pc.handle.created > LOCK_TIMEOUT)
    && (p.pc.Idle? || p.pc.FastManifest? || p.pc.FastStamp? || p.pc.Trying? || p.pc.Conflict? || p.pc.Inspected? || p.pc.Removing?
        ==> p.held.None? && p.helper.NoHelper?)
    && (p.pc.HeldManifest? || p.pc.HeldStamp? ==> p.helper.NoHelper?)
    && (p.pc.Populating? ==> !p.helper.NoHelper?)
    && (p.pc.BackManifest? || p.pc.BackStamp? ==> p.helper.Exited?)
    && (p.pc.Finished? || p.pc.Releasing? ==> p.helper.NoHelper? || p.helper.Exited?)
  }

  predicate VolProc(img: Image, s: State, c: nat)
    requires Ships(img) && c < |s.procs|
  {
    var p := s.procs[c];
    && (p.helper.Wiping? ==> !Good(img, s.vol))
    && (p.helper.Copying? || p.helper.Stamping? ==>
          s.vol.stamp.NoStamp? && forall f | f in s.vol.files :: f in img.files || !Reached(f))
    && (p.helper.Stamping? ==> Complete(img, s.vol))
    && (p.pc.HeldStamp? ==> MANIFEST in s.vol.files && p.pc.seen == s.vol.files[MANIFEST])
    && (p.helper.Exited? ==> s.stampedBy == [c])
    && (p.pc.BackStamp? ==> p.pc.seen == img.files[MANIFEST])
    && ((p.pc.Releasing? || p.pc.Finished?) && Success(p.pc.outcome) ==> Good(img, s.vol))
    && ((p.pc.Releasing? || p.pc.Finished?) && p.pc.outcome.Populated? ==> s.stampedBy == [c])
  }

  predicate VolInv(img: Image, s: State)
    requires Ships(img)
  {
    && (forall c | 0 <= c < |s.procs| :: VolProc(img, s, c))
    && (StampMatches(img, s.vol.stamp) ==>
          Complete(img, s.vol) || (!Parses(s.vol) && forall c | 0 <= c < |s.procs| :: !SawDoc(s.procs[c].pc)))
    && (s.stampedBy == [] || (|s.stampedBy| == 1 && Good(img, s.vol)))
  }

  predicate Inv(img: Image, s: State)
    requires Ships(img)
  {
    LockInv(s) && VolInv(img, s)
  }

  /** One critical caller at most: all of them hold the one lock, and no two ever held the same. */
  lemma AtMostOneCritical(s: State, c: nat, d: nat)
    requires LockInv(s) && c < |s.procs| && d < |s.procs|
    requires Critical(s.procs[c]) && Critical(s.procs[d])
    ensures c == d
  {
    assert LockProc(s, c) && LockProc(s, d);
  }

  lemma InitiallyInv(img: Image, s: State)
    requires Ships(img) && Fresh(s) && Trustworthy(img, s.vol)
    ensures Inv(img, s)
  {
    forall c | 0 <= c < |s.procs| ensures LockProc(s, c) && VolProc(img, s, c) {
      assert s.procs[c] == Proc(Idle, None, NoHelper);
    }
  }

  /** A caller that does not move keeps its part: a stale removal never hits a lock in use. */
  lemma LockOfOthers(img: Image, s: State, a: Action, d: nat)
    requires LockInv(s) && Timely(s) && Enabled(img, s, a)
    requires d < |s.procs| && (a.Tick? || d != a.c)
    ensures LockProc(Next(img, s, a), d)
  {
    assert LockProc(s, d);
    if !a.Tick? {
      assert LockProc(s, a.c);
      if a.RemoveStale? {
        assert Critical(s.procs[d]) ==> s.procs[d].held.value.id != s.procs[a.c].pc.handle.id;
      }
    }
  }

  lemma LockOfMover(img: Image, s: State, a: Action)
    requires LockInv(s) && Enabled(img, s, a) && !a.Tick?
    ensures LockProc(Next(img, s, a), a.c)
  {
    assert LockProc(s, a.c);
  }

  lemma LockStep(img: Image, s: State, a: Action)
    requires LockInv(s) && Timely(s) && Enabled(img, s, a)
    ensures LockInv(Next(img, s, a))
  {
    var s' := Next(img, s, a);
    forall d | 0 <= d < |s'.procs| ensures LockProc(s', d) {
      if a.Tick? || d != a.c {
        LockOfOthers(img, s, a, d);
      } else {
        LockOfMover(img, s, a);
      }
    }
  }

  predicate TouchesVolume(a: Action) {
    a.Wipe? || a.Copy? || a.WriteStamp?
  }

  predicate Reads(a: Action) {
    a.ReadManifest? || a.ReadStamp? || a.ReadError?
  }

  /** A success is reported only over a good volume; a wipe starts only over one that is not. */
  lemma VolOfReader(img: Image, s: State, a: Action)
    requires Ships(img) && LockInv(s) && VolInv(img, s)
    requires Enabled(img, s, a) && Sound(Strict, s, a) && Reads(a)
    ensures VolProc(img, Next(img, s, a), a.c)
    ensures SawDoc(Next(img, s, a).procs[a.c].pc) && !SawDoc(s.procs[a.c].pc) ==> Parses(s.vol)
  {
    assert LockProc(s, a.c) && VolProc(img, s, a.c);
    if s.procs[a.c].helper.Exited? {
      assert Good(img, s.vol);
    }
  }

  lemma VolOfMover(img: Image, s: State, a: Action)
    requires Ships(img) && LockInv(s) && VolInv(img, s)
    requires Enabled(img, s, a) && Sound(Strict, s, a) && !a.Tick? && !TouchesVolume(a) && !Reads(a)
    ensures VolProc(img, Next(img, s, a), a.c)
    ensures !SawDoc(Next(img, s, a).procs[a.c].pc) || SawDoc(s.procs[a.c].pc)
  {
    assert LockProc(s, a.c) && VolProc(img, s, a.c);
  }

  lemma VolStepQuiet(img: Image, s: State, a: Action)
    requires Ships(img) && LockInv(s) && VolInv(img, s)
    requires Enabled(img, s, a) && Sound(Strict, s, a) && !TouchesVolume(a)
    ensures VolInv(img, Next(img, s, a))
  {
    var s' := Next(img, s, a);
    assert s'.vol == s.vol && s'.stampedBy == s.stampedBy;
    if Reads(a) {
      VolOfReader(img, s, a);
    } else if !a.Tick? {
      VolOfMover(img, s, a);
    }
    forall d | 0 <= d < |s'.procs| ensures VolProc(img, s', d) {
      if a.Tick? || d != a.c {
        assert s'.procs[d] == s.procs[d];
        assert VolProc(img, s, d);
      }
    }
  }

  /** While a helper works, nobody has been told the volume is good and nobody has stamped it. */
  lemma WorkingMeansUnserved(img: Image, s: State, c: nat, d: nat)
    requires Ships(img) && LockInv(s) && VolInv(img, s)
    requires c < |s.procs| && d < |s.procs| && c != d
    requires s.procs[c].helper.Wiping? || s.procs[c].helper.Copying? || s.procs[c].helper.Stamping?
    ensures !Good(img, s.vol) && s.stampedBy == []
    ensures !Critical(s.procs[d]) && s.procs[d].helper.NoHelper?
    ensures s.procs[d].pc.Finished? ==> !Success(s.procs[d].pc.outcome)
  {
    assert VolProc(img, s, c) && VolProc(img, s, d);
    if Critical(s.procs[d]) {
      AtMostOneCritical(s, c, d);
    }
  }

  lemma VolStepHelper(img: Image, s: State, a: Action)
    requires Ships(img) && LockInv(s) && VolInv(img, s)
    requires Enabled(img, s, a) && TouchesVolume(a)
    ensures VolInv(img, Next(img, s, a))
  {
    var s' := Next(img, s, a);
    assert LockProc(s, a.c) && VolProc(img, s, a.c);
    HelperEffect(img, s, a);
    forall d | 0 <= d < |s'.procs| ensures VolProc(img, s', d) {
      if d != a.c {
        WorkingMeansUnserved(img, s, a.c, d);
      }
    }
  }

  lemma HelperEffect(img: Image, s: State, a: Action)
    requires Ships(img) && VolInv(img, s) && Enabled(img, s, a) && TouchesVolume(a)
    requires LockProc(s, a.c) && VolProc(img, s, a.c)
    ensures VolProc(img, Next(img, s, a), a.c)
    ensures var v := Next(img, s, a).vol;
      StampMatches(img, v.stamp) ==> Complete(img, v) || (!Parses(v) && forall c | 0 <= c < |s.procs| :: !SawDoc(s.procs[c].pc))
    ensures a.WriteStamp? ==> s.stampedBy == [] && Good(img, Next(img, s, a).vol)
    ensures !a.WriteStamp? ==> s.stampedBy == []
  {
    assert !Good(img, s.vol);
    if a.Wipe? {
      assert Parses(Next(img, s, a).vol) ==> Parses(s.vol);
    }
  }

  lemma InvStep(img: Image, s: State, a: Action)
    requires Ships(img) && Inv(img, s) && Timely(s) && Enabled(img, s, a) && Sound(Strict, s, a)
    ensures Inv(img, Next(img, s, a))
  {
    LockStep(img, s, a);
    if TouchesVolume(a) {
      VolStepHelper(img, s, a);
    } else {
      VolStepQuiet(img, s, a);
    }
  }

  lemma HelperWorksOnBadVolume(img: Image, s: State, a: Action)
    requires Ships(img) && VolInv(img, s) && Enabled(img, s, a) && TouchesVolume(a)
    ensures !Good(img, s.vol)
  {
    assert VolProc(img, s, a.c);
  }

  /** Good volumes stay good: no step of anyone wipes, overwrites or unstamps one. */
  lemma GoodStep(img: Image, s: State, a: Action)
    requires Ships(img) && Inv(img, s) && Enabled(img, s, a) && Good(img, s.vol)
    ensures Next(img, s, a).vol == s.vol && Next(img, s, a).stampedBy == s.stampedBy
  {
    if TouchesVolume(a) {
      HelperWorksOnBadVolume(img, s, a);
      assert false;
    }
  }
}
