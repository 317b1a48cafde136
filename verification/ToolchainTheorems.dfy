/**
 What every run of the toolchain protocol guarantees, and which assumption each guarantee rests
 on: dropping any one of them has a run below that breaks it.
 */
module ToolchainTheorems {
  import opened Common
  import ImageIds
  import opened Toolchain

  /** Some admissible run leads from s to t. */
  ghost predicate Reaches(x: Slack, img: Image, s: State, t: State) {
    exists acts :: Admissible(x, img, s, acts) && Possible(img, s, acts) && Run(img, s, acts) == t
  }

  predicate Start(img: Image, s: State) {
    Ships(img) && Fresh(s) && Trustworthy(img, s.vol)
  }

  predicate Returned(s: State, c: nat) {
    c < |s.procs| && s.procs[c].pc.Finished? && Success(s.procs[c].pc.outcome)
  }

  lemma {:induction false} InvAlong(img: Image, s: State, acts: seq<Action>)
    requires Ships(img) && Inv(img, s) && Admissible(Strict, img, s, acts)
    ensures Possible(img, s, acts) && Inv(img, Run(img, s, acts))
    ensures Good(img, s.vol) ==> Run(img, s, acts).vol == s.vol && Run(img, s, acts).stampedBy == s.stampedBy
    decreases |acts|
  {
    if acts != [] {
      InvStep(img, s, acts[0]);
      if Good(img, s.vol) {
        GoodStep(img, s, acts[0]);
      }
      InvAlong(img, Next(img, s, acts[0]), acts[1..]);
    }
  }

  lemma InvReached(img: Image, s: State, t: State)
    requires Ships(img) && Inv(img, s) && Reaches(Strict, img, s, t)
    ensures Inv(img, t)
    ensures Good(img, s.vol) ==> t.vol == s.vol && t.stampedBy == s.stampedBy
  {
    var acts :| Admissible(Strict, img, s, acts) && Possible(img, s, acts) && Run(img, s, acts) == t;
    InvAlong(img, s, acts);
  }

  /** The lock depends on holders being in time and on nothing else: not the volume, the image, or what fails. */
  lemma {:induction false} LockAlong(x: Slack, img: Image, s: State, acts: seq<Action>)
    requires LockInv(s) && !x.LateHolder? && Admissible(x, img, s, acts)
    ensures Possible(img, s, acts) && LockInv(Run(img, s, acts))
    decreases |acts|
  {
    if acts != [] {
      LockStep(img, s, acts[0]);
      LockAlong(x, img, Next(img, s, acts[0]), acts[1..]);
    }
  }

  predicate OneCritical(t: State) {
    forall c, d | 0 <= c < |t.procs| && 0 <= d < |t.procs| && Critical(t.procs[c]) && Critical(t.procs[d]) :: c == d
  }

  /** Safety of the lock over every interleaving of callers, crashes, failures and stale removals. */
  lemma MutualExclusion(x: Slack, img: Image, s: State, t: State)
    requires Fresh(s) && !x.LateHolder? && Reaches(x, img, s, t)
    ensures OneCritical(t)
    ensures forall c | 0 <= c < |t.procs| && Critical(t.procs[c]) :: t.lock.Some? && t.lock == t.procs[c].held
  {
    var acts :| Admissible(x, img, s, acts) && Possible(img, s, acts) && Run(img, s, acts) == t;
    LockAlong(x, img, s, acts);
    forall c, d | 0 <= c < |t.procs| && 0 <= d < |t.procs| && Critical(t.procs[c]) && Critical(t.procs[d]) ensures c == d {
      AtMostOneCritical(t, c, d);
    }
    forall c | 0 <= c < |t.procs| && Critical(t.procs[c]) ensures t.lock.Some? && t.lock == t.procs[c].held {
      assert LockProc(t, c);
    }
  }

  /** Once a caller has returned normally the volume is a complete, stamped copy, for good. */
  lemma ReturnedMeansCompleteForever(img: Image, s: State, t: State, c: nat, u: State)
    requires Start(img, s) && Reaches(Strict, img, s, t) && Returned(t, c) && Reaches(Strict, img, t, u)
    ensures Good(img, t.vol) && u.vol == t.vol
  {
    InitiallyInv(img, s);
    InvReached(img, s, t);
    assert VolProc(img, t, c);
    InvReached(img, t, u);
  }

  /** One population at most reaches the stamp, and a caller that reports one is that caller. */
  lemma PopulatedOnce(img: Image, s: State, t: State)
    requires Start(img, s) && Reaches(Strict, img, s, t)
    ensures |t.stampedBy| <= 1
    ensures t.stampedBy != [] ==> Good(img, t.vol) && !Good(img, s.vol)
    ensures forall c: nat | Returned(t, c) && t.procs[c].pc.outcome.Populated? :: t.stampedBy == [c]
  {
    InitiallyInv(img, s);
    InvReached(img, s, t);
    forall c: nat | Returned(t, c) && t.procs[c].pc.outcome.Populated? ensures t.stampedBy == [c] {
      assert VolProc(img, t, c);
    }
  }

  // ---------------------------------------------------------------------------------------
  // Building runs
  // ---------------------------------------------------------------------------------------

  lemma {:induction false} Extend(x: Slack, img: Image, s: State, acts: seq<Action>, a: Action)
    requires Possible(img, s, acts) && Admissible(x, img, s, acts)
    requires var t := Run(img, s, acts); Enabled(img, t, a) && Sound(x, t, a) && InTime(x, Next(img, t, a))
    ensures Possible(img, s, acts + [a]) && Admissible(x, img, s, acts + [a])
    ensures Run(img, s, acts + [a]) == Next(img, Run(img, s, acts), a)
    decreases |acts|
  {
    if acts == [] {
      assert acts + [a] == [a] && [a][1..] == [];
    } else {
      assert (acts + [a])[0] == acts[0] && (acts + [a])[1..] == acts[1..] + [a];
      Extend(x, img, Next(img, s, acts[0]), acts[1..], a);
    }
  }

  /** Only the passing of time can make a caller late: entering the section starts a new lock. */
  lemma TimelyUnlessTick(img: Image, s: State, a: Action)
    requires Timely(s) && Enabled(img, s, a) && !a.Tick?
    ensures Timely(Next(img, s, a))
  {
    var s' := Next(img, s, a);
    forall d | 0 <= d < |s'.procs| && Critical(s'.procs[d])
      ensures s'.procs[d].held.Some? ==> s'.clock - s'.procs[d].held.value.created <= LOCK_TIMEOUT
    {
      if d != a.c {
        assert s'.procs[d] == s.procs[d];
      } else if a.TryCreate? && s.lock.None? {
        assert s'.procs[d].held == Some(Lock(|s.issued|, s.clock));
      } else {
        assert Critical(s.procs[d]);
      }
    }
  }

  lemma Begin(x: Slack, img: Image, s: State)
    requires InTime(x, s)
    ensures Reaches(x, img, s, s)
  {
    var acts: seq<Action> := [];
    assert Admissible(x, img, s, acts) && Possible(img, s, acts) && Run(img, s, acts) == s;
  }

  lemma Go(x: Slack, img: Image, s: State, t: State, a: Action) returns (u: State)
    requires Reaches(x, img, s, t) && InTime(x, t) && Enabled(img, t, a) && Sound(x, t, a) && !a.Tick?
    ensures u == Next(img, t, a) && Reaches(x, img, s, u) && InTime(x, u)
  {
    var acts :| Admissible(x, img, s, acts) && Possible(img, s, acts) && Run(img, s, acts) == t;
    if Timely(t) {
      TimelyUnlessTick(img, t, a);
    }
    Extend(x, img, s, acts, a);
    u := Next(img, t, a);
  }

  lemma FreshIsTimely(s: State)
    requires Fresh(s)
    ensures Timely(s)
  {
    assert forall c | 0 <= c < |s.procs| :: !Critical(s.procs[c]);
  }

  lemma Empty(x: Slack, img: Image, s: State, t: State, c: nat) returns (u: State)
    requires Reaches(x, img, s, t) && InTime(x, t)
    requires c < |t.procs| && t.procs[c].helper.Wiping?
    ensures Reaches(x, img, s, u) && InTime(x, u)
    ensures u == With(t, c, t.procs[c].(helper := Copying)).(vol := u.vol)
    ensures forall f | f in u.vol.files :: !Reached(f) && f in t.vol.files
  {
    var gone := set f | f in t.vol.files && Reached(f);
    u := Go(x, img, s, t, Wipe(c, gone, true));
    u := Go(x, img, s, u, WipeEnds(c));
  }

  /** An undisturbed helper wipes, copies and stamps. */
  lemma Replace(x: Slack, img: Image, s: State, t: State, c: nat) returns (u: State)
    requires Ships(img) && Reaches(x, img, s, t) && InTime(x, t)
    requires c < |t.procs| && t.procs[c].helper.Wiping?
    ensures Reaches(x, img, s, u) && InTime(x, u)
    ensures u == With(t, c, t.procs[c].(helper := Exited)).(vol := u.vol, stampedBy := t.stampedBy + [c])
    ensures u.vol.stamp == Stamped(img.id) && Complete(img, u.vol)
  {
    u := Empty(x, img, s, t, c);
    u := Go(x, img, s, u, Copy(c, img.files));
    u := Go(x, img, s, u, CopyEnds(c));
    u := Go(x, img, s, u, WriteStamp(c));
    assert u.procs == t.procs[c := t.procs[c].(helper := Exited)];
  }

  // ---------------------------------------------------------------------------------------
  // Exactly which volumes are safe to start from
  // ---------------------------------------------------------------------------------------

  ghost predicate ServesOnlyGood(img: Image, s: State) {
    forall t, c: nat | Reaches(Strict, img, s, t) && Returned(t, c) :: Good(img, t.vol)
  }

  /** A matching stamp over an incomplete copy is the only starting volume that gets served wrongly. */
  lemma ServesOnlyGoodIff(img: Image, s: State)
    requires Ships(img) && Fresh(s) && |s.procs| >= 1
    ensures ServesOnlyGood(img, s) <==> Trustworthy(img, s.vol)
  {
    FreshIsTimely(s);
    if Trustworthy(img, s.vol) {
      forall t, c: nat | Reaches(Strict, img, s, t) && Returned(t, c) ensures Good(img, t.vol) {
        InitiallyInv(img, s);
        InvReached(img, s, t);
        assert VolProc(img, t, c);
      }
    } else {
      Begin(Strict, img, s);
      var t := Go(Strict, img, s, s, Call(0));
      t := Go(Strict, img, s, t, ReadManifest(0));
      t := Go(Strict, img, s, t, ReadStamp(0));
      assert Returned(t, 0) && !Good(img, t.vol);
    }
  }

  // ---------------------------------------------------------------------------------------
  // Which manifest is returned
  // ---------------------------------------------------------------------------------------

  /** The manifest on the volume before the run, if readable at all, is the image's own. */
  predicate ManifestCurrent(img: Image, v: Volume)
    requires Ships(img)
  {
    Parses(v) ==> v.files[MANIFEST] == img.files[MANIFEST]
  }

  predicate Carries(img: Image, pc: Pc)
    requires Ships(img)
  {
    && (SawDoc(pc) ==> pc.seen == img.files[MANIFEST])
    && ((pc.Releasing? || pc.Finished?) && Success(pc.outcome) ==> pc.outcome.manifest == img.files[MANIFEST].text)
  }

  predicate ManifestInv(img: Image, s: State)
    requires Ships(img)
  {
    ManifestCurrent(img, s.vol) && forall c | 0 <= c < |s.procs| :: Carries(img, s.procs[c].pc)
  }

  lemma ManifestStep(img: Image, s: State, a: Action)
    requires Ships(img) && ManifestInv(img, s) && Enabled(img, s, a)
    ensures ManifestInv(img, Next(img, s, a))
  {
    var s' := Next(img, s, a);
    if !a.Tick? {
      assert Carries(img, s.procs[a.c].pc);
      assert Carries(img, s'.procs[a.c].pc);
    }
    forall d | 0 <= d < |s'.procs| ensures Carries(img, s'.procs[d].pc) {
      assert a.Tick? || d != a.c ==> s'.procs[d] == s.procs[d];
    }
  }

  lemma {:induction false} ManifestAlong(img: Image, s: State, acts: seq<Action>)
    requires Ships(img) && ManifestInv(img, s) && Possible(img, s, acts)
    ensures ManifestInv(img, Run(img, s, acts))
    decreases |acts|
  {
    if acts != [] {
      ManifestStep(img, s, acts[0]);
      ManifestAlong(img, Next(img, s, acts[0]), acts[1..]);
    }
  }

  ghost predicate ReturnsImageManifest(img: Image, s: State)
    requires Ships(img)
  {
    forall t, c: nat | Reaches(Strict, img, s, t) && Returned(t, c) :: t.procs[c].pc.outcome.manifest == img.files[MANIFEST].text
  }

  lemma FindStale(x: Slack, img: Image, s: State, t: State, c: nat) returns (u: State)
    requires Reaches(x, img, s, t) && InTime(x, t)
    requires c < |t.procs| && t.procs[c] == Proc(Idle, None, NoHelper)
    requires MANIFEST in t.vol.files && !StampMatches(img, t.vol.stamp)
    ensures Reaches(x, img, s, u) && InTime(x, u)
    ensures u == With(t, c, Proc(Trying(t.clock + LOCK_TIMEOUT), None, NoHelper))
  {
    u := Go(x, img, s, t, Call(c));
    u := Go(x, img, s, u, ReadManifest(c));
    u := Go(x, img, s, u, ReadStamp(c));
  }

  /** A caller finds the volume stale, takes the free lock and starts its helper. */
  lemma StartPopulating(x: Slack, img: Image, s: State, t: State, c: nat) returns (u: State)
    requires Reaches(x, img, s, t) && InTime(x, t)
    requires c < |t.procs| && t.procs[c] == Proc(Idle, None, NoHelper) && t.lock.None?
    requires MANIFEST in t.vol.files && !StampMatches(img, t.vol.stamp)
    ensures Reaches(x, img, s, u) && InTime(x, u) && u.lock.Some?
    ensures u == With(t, c, Proc(Populating, u.lock, Wiping)).(lock := u.lock, issued := u.issued)
  {
    u := FindStale(x, img, s, t, c);
    u := Go(x, img, s, u, TryCreate(c));
    u := Go(x, img, s, u, ReadManifest(c));
    u := Go(x, img, s, u, ReadStamp(c));
  }

  /** Caller 0 reads the old manifest, caller 1 replaces the volume, caller 0 reads the new stamp. */
  lemma TornRead(img: Image, s: State) returns (t: State)
    requires Start(img, s) && |s.procs| >= 2 && s.lock.None? && !ManifestCurrent(img, s.vol)
    ensures Reaches(Strict, img, s, t) && Returned(t, 0)
    ensures t.procs[0].pc.outcome.manifest == s.vol.files[MANIFEST].text
  {
    FreshIsTimely(s);
    Begin(Strict, img, s);
    t := Go(Strict, img, s, s, Call(0));
    t := Go(Strict, img, s, t, ReadManifest(0));
    t := StartPopulating(Strict, img, s, t, 1);
    t := Replace(Strict, img, s, t, 1);
    t := Go(Strict, img, s, t, ReadStamp(0));
  }

  /** The fast path can hand out the previous image's manifest exactly when one was there to read. */
  lemma ReturnsImageManifestIff(img: Image, s: State)
    requires Start(img, s) && |s.procs| >= 2 && s.lock.None?
    ensures ReturnsImageManifest(img, s) <==> ManifestCurrent(img, s.vol)
  {
    if ManifestCurrent(img, s.vol) {
      assert ManifestInv(img, s);
      forall t, c: nat | Reaches(Strict, img, s, t) && Returned(t, c)
        ensures t.procs[c].pc.outcome.manifest == img.files[MANIFEST].text
      {
        var acts :| Admissible(Strict, img, s, acts) && Possible(img, s, acts) && Run(img, s, acts) == t;
        ManifestAlong(img, s, acts);
        assert Carries(img, t.procs[c].pc);
      }
    } else {
      var t := TornRead(img, s);
      assert Returned(t, 0);
    }
  }

  // ---------------------------------------------------------------------------------------
  // Each assumption is needed
  // ---------------------------------------------------------------------------------------

  lemma KillWipe(img: Image, s: State, t: State, c: nat, f: string) returns (u: State)
    requires Reaches(Strict, img, s, t) && Timely(t) && Reached(f)
    requires c < |t.procs| && t.lock.Some? && t.procs[c] == Proc(Populating, t.lock, Wiping)
    ensures Reaches(Strict, img, s, u) && u.lock.None?
    ensures |u.procs| == |t.procs| && u.procs[c].helper.NoHelper?
    ensures u.vol == Volume(t.vol.files - {f}, t.vol.stamp)
  {
    u := Go(Strict, img, s, t, Wipe(c, {f}, false));
    u := Go(Strict, img, s, u, PopulateError(c));
    u := Go(Strict, img, s, u, Release(c, true));
  }

  /** A population of another tag killed half way leaves the old stamp over a partial tree. */
  lemma KilledWipeLeavesUntrustworthy(prev: Image, img: Image, s: State, f: string) returns (t: State)
    requires Ships(prev) && Start(img, s) && Good(prev, s.vol) && |s.procs| >= 2 && s.lock.None?
    requires !ImageIds.Match(s.vol.stamp.imageId, img.id)
    requires f in prev.files && f != MANIFEST && Reached(f)
    ensures Reaches(Strict, img, s, t) && t.lock.None? && |t.procs| >= 2 && t.procs[1].helper.NoHelper?
    ensures !Trustworthy(prev, t.vol)
  {
    FreshIsTimely(s);
    Begin(Strict, img, s);
    t := StartPopulating(Strict, img, s, s, 1);
    t := KillWipe(img, s, t, 1, f);
    assert f !in t.vol.files;
  }

  /** With no readable manifest on the volume a caller goes straight for the lock. */
  lemma TakeLock(x: Slack, img: Image, s: State, t: State, c: nat) returns (u: State)
    requires Reaches(x, img, s, t) && InTime(x, t)
    requires c < |t.procs| && t.procs[c] == Proc(Idle, None, NoHelper) && t.lock.None? && MANIFEST !in t.vol.files
    ensures Reaches(x, img, s, u) && InTime(x, u)
    ensures u.lock == Some(Lock(|t.issued|, t.clock))
    ensures u == With(t, c, Proc(HeldManifest, u.lock, NoHelper)).(lock := u.lock, issued := u.issued)
  {
    u := Go(x, img, s, t, Call(c));
    u := Go(x, img, s, u, ReadManifest(c));
    u := Go(x, img, s, u, TryCreate(c));
  }

  /** A caller whose first read fails waits for the lock, evicting one that is too old, and gets it. */
  lemma GetLock(x: Slack, img: Image, s: State, t: State, c: nat) returns (u: State)
    requires Reaches(x, img, s, t) && InTime(x, t) && c < |t.procs| && t.procs[c] == Proc(Idle, None, NoHelper)
    requires t.lock.Some? ==> t.clock - t.lock.value.created > LOCK_TIMEOUT
    ensures Reaches(x, img, s, u) && InTime(x, u) && u.clock == t.clock && u.lock == Some(Lock(|t.issued|, t.clock))
    ensures u == With(t, c, Proc(HeldManifest, u.lock, NoHelper)).(lock := u.lock, issued := u.issued)
  {
    u := Go(x, img, s, t, Call(c));
    u := Go(x, img, s, u, ReadError(c));
    if u.lock.Some? {
      u := Evict(x, img, s, u, c);
    }
    u := Go(x, img, s, u, TryCreate(c));
  }

  /** A holder that outlives the timeout is joined by a second one, whatever is on the volume. */
  lemma LateHolderLosesExclusion(img: Image, s: State) returns (t: State)
    requires Fresh(s) && |s.procs| >= 2
    ensures Reaches(LateHolder, img, s, t)
    ensures |t.procs| >= 2 && Critical(t.procs[0]) && Critical(t.procs[1])
  {
    Begin(LateHolder, img, s);
    t := s;
    if s.lock.Some? {
      t := Wait(img, s, t, Max(1, s.lock.value.created - s.clock + LOCK_TIMEOUT + 1));
    }
    t := GetLock(LateHolder, img, s, t, 0);
    t := Wait(img, s, t, LOCK_TIMEOUT + 1);
    t := GetLock(LateHolder, img, s, t, 1);
  }

  /** Of the assumptions a run may break, exclusion needs the holder's punctuality alone, and it does need it. */
  lemma ExclusionIff(x: Slack, img: Image, s: State)
    requires Fresh(s) && |s.procs| >= 2
    ensures (forall t | Reaches(x, img, s, t) :: OneCritical(t)) <==> !x.LateHolder?
  {
    if x.LateHolder? {
      var t := LateHolderLosesExclusion(img, s);
      assert Reaches(x, img, s, t) && !OneCritical(t);
    } else {
      forall t | Reaches(x, img, s, t) ensures OneCritical(t) {
        MutualExclusion(x, img, s, t);
      }
    }
  }

  lemma Wait(img: Image, s: State, t: State, seconds: nat) returns (u: State)
    requires Reaches(LateHolder, img, s, t) && seconds > 0
    ensures u == t.(clock := t.clock + seconds) && Reaches(LateHolder, img, s, u)
  {
    var acts :| Admissible(LateHolder, img, s, acts) && Possible(img, s, acts) && Run(img, s, acts) == t;
    Extend(LateHolder, img, s, acts, Tick(seconds));
    u := Next(img, t, Tick(seconds));
  }

  /** A waiting caller inspects the lock, finds it too old and deletes it. */
  lemma Evict(x: Slack, img: Image, s: State, t: State, c: nat) returns (u: State)
    requires Reaches(x, img, s, t) && InTime(x, t) && c < |t.procs|
    requires t.procs[c].pc.Trying? && t.clock <= t.procs[c].pc.deadline
    requires t.lock.Some? && t.clock - t.lock.value.created > LOCK_TIMEOUT
    ensures u == t.(lock := None) && Reaches(x, img, s, u) && InTime(x, u)
  {
    u := Go(x, img, s, t, TryCreate(c));
    u := Go(x, img, s, u, Inspect(c));
    u := Go(x, img, s, u, JudgeAge(c));
    u := Go(x, img, s, u, RemoveStale(c, true));
    assert u.procs == t.procs;
  }

  /** A re-check that fails under the lock wipes a volume other callers were already given. */
  lemma FailedRecheckWipesServedVolume(img: Image, s: State) returns (t: State)
    requires Start(img, s) && Good(img, s.vol) && |s.procs| >= 2 && s.lock.None?
    ensures Reaches(FailedRecheck, img, s, t) && Returned(t, 0) && !Good(img, t.vol)
  {
    FreshIsTimely(s);
    Begin(FailedRecheck, img, s);
    t := Go(FailedRecheck, img, s, s, Call(0));
    t := Go(FailedRecheck, img, s, t, ReadManifest(0));
    t := Go(FailedRecheck, img, s, t, ReadStamp(0));
    t := RecheckFails(img, s, t, 1);
    t := Go(FailedRecheck, img, s, t, Wipe(1, {MANIFEST}, false));
  }

  lemma RecheckFails(img: Image, s: State, t: State, c: nat) returns (u: State)
    requires Reaches(FailedRecheck, img, s, t) && Timely(t)
    requires c < |t.procs| && t.procs[c] == Proc(Idle, None, NoHelper) && t.lock.None?
    ensures Reaches(FailedRecheck, img, s, u) && Timely(u)
    ensures u == With(t, c, Proc(Populating, u.lock, Wiping)).(lock := u.lock, issued := u.issued)
  {
    u := Go(FailedRecheck, img, s, t, Call(c));
    u := Go(FailedRecheck, img, s, u, ReadError(c));
    u := Go(FailedRecheck, img, s, u, TryCreate(c));
    u := Go(FailedRecheck, img, s, u, ReadError(c));
  }

  /** A caller whose helper has exited reads the manifest back, releases and returns. */
  lemma ReadBack(x: Slack, img: Image, s: State, t: State, c: nat) returns (u: State)
    requires Reaches(x, img, s, t) && InTime(x, t)
    requires c < |t.procs| && t.procs[c].pc.Populating? && t.procs[c].held.Some? && t.procs[c].helper.Exited?
    requires Parses(t.vol) && t.vol.stamp.Stamped?
    ensures Reaches(x, img, s, u) && InTime(x, u) && u.vol == t.vol && u.clock == t.clock && u.issued == t.issued && u.stampedBy == t.stampedBy
    ensures u.procs == t.procs[c := t.procs[c].(pc := Finished(Populated(t.vol.files[MANIFEST].text)))]
    ensures u.lock == Drop(t.lock, t.procs[c].held.value, true)
  {
    u := Go(x, img, s, t, SeeExit(c));
    u := Go(x, img, s, u, ReadManifest(c));
    u := Go(x, img, s, u, ReadStamp(c));
    u := Go(x, img, s, u, Release(c, true));
  }

  /** A copy that stops early is stamped all the same, returned, and stays a match for later callers. */
  lemma FailedCopyIsServed(img: Image, s: State, f: string) returns (t: State)
    requires Start(img, s) && |s.procs| >= 1 && s.lock.None? && MANIFEST !in s.vol.files
    requires f in img.files && f != MANIFEST && f !in s.vol.files
    ensures Reaches(FailedCopy, img, s, t) && Returned(t, 0)
    ensures !Complete(img, t.vol) && StampMatches(img, t.vol.stamp) && Parses(t.vol)
  {
    FreshIsTimely(s);
    Begin(FailedCopy, img, s);
    t := TakeLock(FailedCopy, img, s, s, 0);
    t := Go(FailedCopy, img, s, t, ReadManifest(0));
    t := Botch(img, s, t, 0);
    t := ReadBack(FailedCopy, img, s, t, 0);
  }

  lemma Botch(img: Image, s: State, t: State, c: nat) returns (u: State)
    requires Ships(img) && Reaches(FailedCopy, img, s, t) && Timely(t)
    requires c < |t.procs| && t.procs[c].helper.Wiping?
    ensures Reaches(FailedCopy, img, s, u) && Timely(u)
    ensures u == With(t, c, t.procs[c].(helper := Exited)).(vol := u.vol, stampedBy := t.stampedBy + [c])
    ensures u.vol.stamp == Stamped(img.id)
    ensures MANIFEST in u.vol.files && u.vol.files[MANIFEST] == img.files[MANIFEST]
    ensures forall f | f in u.vol.files :: f == MANIFEST || f in t.vol.files
  {
    u := Empty(FailedCopy, img, s, t, c);
    u := Go(FailedCopy, img, s, u, Copy(c, map[MANIFEST := img.files[MANIFEST]]));
    u := Go(FailedCopy, img, s, u, CopyCutShort(c));
    u := Go(FailedCopy, img, s, u, WriteStamp(c));
    assert u.procs == t.procs[c := t.procs[c].(helper := Exited)];
  }

  /** An evicted holder finishes and returns; its successor then wipes what it was given. */
  lemma LateHolderUndoesReturned(img: Image, s: State) returns (t: State)
    requires Start(img, s) && |s.procs| >= 2 && s.lock.None? && MANIFEST !in s.vol.files
    ensures Reaches(LateHolder, img, s, t) && Returned(t, 0) && !Good(img, t.vol)
  {
    t := TwoHelpers(img, s);
    t := Replace(LateHolder, img, s, t, 0);
    t := ReadBack(LateHolder, img, s, t, 0);
    t := Go(LateHolder, img, s, t, Wipe(1, {MANIFEST}, false));
  }

  /** Both callers have found the volume unusable and started a helper. */
  lemma TwoHelpers(img: Image, s: State) returns (t: State)
    requires Start(img, s) && |s.procs| >= 2 && s.lock.None? && MANIFEST !in s.vol.files
    ensures Reaches(LateHolder, img, s, t) && |t.procs| == |s.procs|
    ensures t.procs[0].pc.Populating? && t.procs[0].held.Some? && t.procs[0].helper.Wiping?
    ensures t.procs[1].pc.Populating? && t.procs[1].helper.Wiping?
  {
    Begin(LateHolder, img, s);
    t := TakeLock(LateHolder, img, s, s, 0);
    t := Go(LateHolder, img, s, t, ReadManifest(0));
    t := Wait(img, s, t, LOCK_TIMEOUT + 1);
    t := GetLock(LateHolder, img, s, t, 1);
    t := Go(LateHolder, img, s, t, ReadManifest(1));
  }

  /** Whenever some call has returned normally, then or earlier, the volume is a complete, stamped copy. */
  ghost predicate ReturnedMeansGood(x: Slack, img: Image) {
    forall s, t, c: nat | Start(img, s) && Reaches(x, img, s, t) && Returned(t, c) :: Good(img, t.vol)
  }

  function Begins(v: Volume): State {
    State(0, None, [], v, [Proc(Idle, None, NoHelper), Proc(Idle, None, NoHelper)], [])
  }

  /** Unlike exclusion, what a caller was given rests on every one of the assumptions. */
  lemma ReturnedMeansGoodIff(x: Slack, img: Image, f: string)
    requires Ships(img) && f in img.files && f != MANIFEST
    ensures ReturnedMeansGood(x, img) <==> x.Strict?
  {
    var bare, served := Begins(Volume(map[], NoStamp)), Begins(Volume(img.files, Stamped(img.id)));
    match x
    case Strict =>
      forall s, t, c: nat | Start(img, s) && Reaches(x, img, s, t) && Returned(t, c) ensures Good(img, t.vol) {
        InitiallyInv(img, s);
        InvReached(img, s, t);
        assert VolProc(img, t, c);
      }
    case LateHolder =>
      var t := LateHolderUndoesReturned(img, bare);
    case FailedRecheck =>
      assert Good(img, served.vol);
      var t := FailedRecheckWipesServedVolume(img, served);
    case FailedCopy =>
      var t := FailedCopyIsServed(img, bare, f);
  }

  // ---------------------------------------------------------------------------------------
  // An image without an identifier
  // ---------------------------------------------------------------------------------------

  predicate OwnWork(pc: Pc) {
    (pc.Releasing? || pc.Finished?) && Success(pc.outcome) ==> pc.outcome.Populated?
  }

  predicate AllOwnWork(s: State) {
    forall c | 0 <= c < |s.procs| :: OwnWork(s.procs[c].pc)
  }

  lemma OwnWorkStep(img: Image, s: State, a: Action)
    requires img.id.None? || img.id.value == ""
    requires Enabled(img, s, a) && AllOwnWork(s)
    ensures AllOwnWork(Next(img, s, a))
  {
    var s' := Next(img, s, a);
    forall d | 0 <= d < |s'.procs| ensures OwnWork(s'.procs[d].pc) {
      assert OwnWork(s.procs[d].pc);
      assert a.Tick? || d != a.c ==> s'.procs[d] == s.procs[d];
    }
  }

  /** Without an image id nothing ever matches: every caller that succeeds has populated anew. */
  lemma {:induction false} WithoutIdNothingIsReused(img: Image, s: State, acts: seq<Action>)
    requires img.id.None? || img.id.value == ""
    requires Possible(img, s, acts) && AllOwnWork(s)
    ensures AllOwnWork(Run(img, s, acts))
    decreases |acts|
  {
    if acts != [] {
      OwnWorkStep(img, s, acts[0]);
      WithoutIdNothingIsReused(img, Next(img, s, acts[0]), acts[1..]);
    }
  }
}
