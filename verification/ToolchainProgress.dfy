/**
 What callers of the toolchain protocol get: who fails, who waits, who reuses and who populates
 (backend/app/container/docker_driver.py, prepare_toolchain_volume).
 */
module ToolchainProgress {
  import opened Common
  import opened Toolchain
  import opened ToolchainTheorems

  /** Not one of the four troubles from outside: image missing, engine error, failed read, failed wait. */
  predicate Untroubled(a: Action) {
    !a.CallFails? && !a.EngineError? && !a.ReadError? && !a.PopulateError?
  }

  predicate AllUntroubled(acts: seq<Action>) {
    forall i | 0 <= i < |acts| :: Untroubled(acts[i])
  }

  predicate HasFailed(pc: Pc) {
    (pc.Releasing? || pc.Finished?) && pc.outcome.Failed?
  }

  predicate NobodyFailed(s: State) {
    forall c | 0 <= c < |s.procs| :: !HasFailed(s.procs[c].pc)
  }

  lemma {:induction false} LastStep(img: Image, s: State, acts: seq<Action>)
    requires Possible(img, s, acts) && acts != []
    ensures var n := |acts| - 1;
      && Possible(img, s, acts[..n]) && Enabled(img, Run(img, s, acts[..n]), acts[n])
      && Run(img, s, acts) == Next(img, Run(img, s, acts[..n]), acts[n])
    decreases |acts|
  {
    var n := |acts| - 1;
    if n == 0 {
      assert acts[..n] == [] && acts[1..] == [];
    } else {
      LastStep(img, Next(img, s, acts[0]), acts[1..]);
      assert acts[1..][..n - 1] == acts[..n][1..];
    }
  }

  // ---------------------------------------------------------------------------------------
  // Nobody fails without a trouble
  // ---------------------------------------------------------------------------------------

  lemma NobodyFailsStep(img: Image, s: State, a: Action)
    requires Ships(img) && Inv(img, s) && Enabled(img, s, a) && Untroubled(a) && NobodyFailed(s)
    ensures NobodyFailed(Next(img, s, a))
  {
    if !a.Tick? {
      MoverDoesNotFail(img, s, a);
      forall d | 0 <= d < |s.procs| && d != a.c ensures Next(img, s, a).procs[d] == s.procs[d] {
      }
    }
  }

  /** A caller whose helper is done reads back a volume that is good, so it finds the manifest. */
  lemma MoverDoesNotFail(img: Image, s: State, a: Action)
    requires Ships(img) && Inv(img, s) && Enabled(img, s, a) && Untroubled(a) && !a.Tick? && !HasFailed(s.procs[a.c].pc)
    ensures !HasFailed(Next(img, s, a).procs[a.c].pc)
  {
    assert VolProc(img, s, a.c) && LockProc(s, a.c);
  }

  lemma {:induction false} NobodyFailsAlong(img: Image, s: State, acts: seq<Action>)
    requires Ships(img) && Inv(img, s) && NobodyFailed(s) && Admissible(Strict, img, s, acts) && AllUntroubled(acts)
    ensures Possible(img, s, acts) && NobodyFailed(Run(img, s, acts))
    decreases |acts|
  {
    if acts != [] {
      InvStep(img, s, acts[0]);
      NobodyFailsStep(img, s, acts[0]);
      NobodyFailsAlong(img, Next(img, s, acts[0]), acts[1..]);
    }
  }

  /** In every run without a trouble from outside, whatever the interleaving and the crashes, no call fails. */
  lemma NobodyFails(img: Image, s: State, acts: seq<Action>, c: nat)
    requires Start(img, s) && Admissible(Strict, img, s, acts) && AllUntroubled(acts) && c < |s.procs|
    ensures Possible(img, s, acts) && c < |Run(img, s, acts).procs|
    ensures Run(img, s, acts).procs[c].pc.Finished? ==>
      Returned(Run(img, s, acts), c) || Run(img, s, acts).procs[c].pc.outcome == TimedOut
  {
    InitiallyInv(img, s);
    NobodyFailsAlong(img, s, acts);
    SameCallers(img, s, acts);
  }

  lemma {:induction false} SameCallers(img: Image, s: State, acts: seq<Action>)
    requires Possible(img, s, acts)
    ensures |Run(img, s, acts).procs| == |s.procs|
    decreases |acts|
  {
    if acts != [] {
      SameCallers(img, Next(img, s, acts[0]), acts[1..]);
    }
  }

  // ---------------------------------------------------------------------------------------
  // Waiting
  // ---------------------------------------------------------------------------------------

  predicate Waits(pc: Pc) {
    pc.Trying? || pc.Conflict? || pc.Inspected? || pc.Removing?
  }

  /** At some moment of the run, at time `since`, the caller was still on its first read. */
  ghost predicate ReadFirstAt(img: Image, s: State, acts: seq<Action>, c: nat, since: int)
    requires Possible(img, s, acts)
  {
    exists k :: 0 <= k < |acts| && StillReading(img, s, acts[..k], c, since)
  }

  ghost predicate StillReading(img: Image, s: State, acts: seq<Action>, c: nat, since: int) {
    Possible(img, s, acts) && var t := Run(img, s, acts); c < |t.procs| && t.clock == since && (t.procs[c].pc.FastManifest? || t.procs[c].pc.FastStamp?)
  }

  lemma ReadFirstLonger(img: Image, s: State, acts: seq<Action>, c: nat, since: int)
    requires Possible(img, s, acts) && acts != [] && Possible(img, s, acts[..|acts| - 1])
    requires ReadFirstAt(img, s, acts[..|acts| - 1], c, since)
    ensures ReadFirstAt(img, s, acts, c, since)
  {
    var n := |acts| - 1;
    var k :| 0 <= k < n && StillReading(img, s, acts[..n][..k], c, since);
    assert acts[..n][..k] == acts[..k];
  }

  predicate FirstRead(pc: Pc) {
    pc.FastManifest? || pc.FastStamp?
  }

  predicate GaveUp(pc: Pc) {
    (pc.Finished? || pc.Releasing?) && pc.outcome.TimedOut?
  }

  /** A deadline is set when the first read ends and kept until the caller gives up past it. */
  lemma WaitStep(img: Image, s: State, a: Action, c: nat)
    requires Enabled(img, s, a) && c < |s.procs|
    ensures var t := Next(img, s, a);
      && c < |t.procs| && s.clock <= t.clock
      && (Waits(t.procs[c].pc) ==>
            || (Waits(s.procs[c].pc) && t.procs[c].pc.deadline == s.procs[c].pc.deadline)
            || (FirstRead(s.procs[c].pc) && t.procs[c].pc.deadline == s.clock + LOCK_TIMEOUT))
      && (GaveUp(t.procs[c].pc) ==> GaveUp(s.procs[c].pc) || (Waits(s.procs[c].pc) && s.clock > s.procs[c].pc.deadline))
  {
    if !a.Tick? && a.c != c {
      assert Next(img, s, a).procs[c] == s.procs[c];
    }
  }

  /** A waiting caller's deadline is the timeout after its first read; one that gave up is past it. */
  ghost predicate WaitedFair(img: Image, s: State, acts: seq<Action>, c: nat)
    requires Possible(img, s, acts) && c < |Run(img, s, acts).procs|
  {
    var t := Run(img, s, acts);
    && (Waits(t.procs[c].pc) ==> ReadFirstAt(img, s, acts, c, t.procs[c].pc.deadline - LOCK_TIMEOUT))
    && (GaveUp(t.procs[c].pc) ==> exists since :: t.clock > since + LOCK_TIMEOUT && ReadFirstAt(img, s, acts, c, since))
  }

  lemma {:induction false} WaitedSince(img: Image, s: State, acts: seq<Action>, c: nat)
    requires Fresh(s) && Possible(img, s, acts) && c < |s.procs|
    ensures c < |Run(img, s, acts).procs| && WaitedFair(img, s, acts, c)
    decreases |acts|
  {
    SameCallers(img, s, acts);
    if acts != [] {
      var n := |acts| - 1;
      LastStep(img, s, acts);
      WaitedSince(img, s, acts[..n], c);
      var before, t := Run(img, s, acts[..n]), Run(img, s, acts);
      WaitStep(img, before, acts[n], c);
      if FirstRead(before.procs[c].pc) {
        assert StillReading(img, s, acts[..n], c, before.clock);
        assert ReadFirstAt(img, s, acts, c, before.clock);
      } else if Waits(before.procs[c].pc) {
        ReadFirstLonger(img, s, acts, c, before.procs[c].pc.deadline - LOCK_TIMEOUT);
      } else if GaveUp(before.procs[c].pc) {
        var since :| before.clock > since + LOCK_TIMEOUT && ReadFirstAt(img, s, acts[..n], c, since);
        ReadFirstLonger(img, s, acts, c, since);
        assert t.clock > since + LOCK_TIMEOUT;
      }
    }
  }

  /** No call times out before fifteen minutes have passed since its first read. */
  lemma TimedOutOnlyAfterTimeout(img: Image, s: State, acts: seq<Action>, c: nat)
    requires Fresh(s) && Possible(img, s, acts) && c < |s.procs| == |Run(img, s, acts).procs|
    requires Run(img, s, acts).procs[c].pc == Finished(TimedOut)
    ensures exists since :: Run(img, s, acts).clock > since + 15 * 60 && ReadFirstAt(img, s, acts, c, since)
  {
    WaitedSince(img, s, acts, c);
  }

  // ---------------------------------------------------------------------------------------
  // Reuse
  // ---------------------------------------------------------------------------------------

  /** On its first read of the good volume, or through with it. */
  predicate Reuses(img: Image, p: Proc)
    requires Ships(img)
  {
    && p.held.None? && p.helper.NoHelper?
    && (|| p.pc.Idle? || p.pc.FastManifest? || p.pc == FastStamp(img.files[MANIFEST]) || p.pc.Crashed?
        || p.pc == Finished(Reused(img.files[MANIFEST].text)))
  }

  predicate AllReuse(img: Image, s: State)
    requires Ships(img)
  {
    Good(img, s.vol) && forall c | 0 <= c < |s.procs| :: Reuses(img, s.procs[c])
  }

  lemma ReuseStep(img: Image, s: State, a: Action)
    requires Ships(img) && AllReuse(img, s) && Enabled(img, s, a) && Untroubled(a)
    ensures AllReuse(img, Next(img, s, a)) && Next(img, s, a).vol == s.vol && Next(img, s, a).issued == s.issued && Next(img, s, a).lock == s.lock
  {
    if !a.Tick? {
      assert Reuses(img, s.procs[a.c]);
      var t := Next(img, s, a);
      assert Reuses(img, t.procs[a.c]);
      forall d | 0 <= d < |t.procs| ensures Reuses(img, t.procs[d]) {
        assert d != a.c ==> t.procs[d] == s.procs[d];
      }
    }
  }

  /** On a good volume nobody takes the lock or touches the volume, and every call that ends returns the image's manifest. */
  lemma {:induction false} GoodVolumeIsReused(img: Image, s: State, acts: seq<Action>)
    requires Ships(img) && AllReuse(img, s) && Possible(img, s, acts) && AllUntroubled(acts)
    ensures var t := Run(img, s, acts);
      && t.vol == s.vol && t.issued == s.issued && t.lock == s.lock
      && forall c | 0 <= c < |t.procs| && t.procs[c].pc.Finished? :: t.procs[c].pc.outcome == Reused(img.files[MANIFEST].text)
    decreases |acts|
  {
    if acts != [] {
      ReuseStep(img, s, acts[0]);
      GoodVolumeIsReused(img, Next(img, s, acts[0]), acts[1..]);
    }
  }

  // ---------------------------------------------------------------------------------------
  // Runs that end well
  // ---------------------------------------------------------------------------------------

  lemma Pass(img: Image, s: State, t: State, seconds: nat) returns (u: State)
    requires Reaches(Strict, img, s, t) && seconds > 0 && forall c | 0 <= c < |t.procs| :: !Critical(t.procs[c])
    ensures u == t.(clock := t.clock + seconds) && Reaches(Strict, img, s, u) && Timely(u)
  {
    var acts :| Admissible(Strict, img, s, acts) && Possible(img, s, acts) && Run(img, s, acts) == t;
    Extend(Strict, img, s, acts, Tick(seconds));
    u := Next(img, t, Tick(seconds));
  }

  /** Two callers miss; one populates, the other waits, checks again and returns the same manifest. */
  lemma WaiterReturns(img: Image, s: State) returns (t: State)
    requires Start(img, s) && |s.procs| >= 2 && s.lock.None? && MANIFEST !in s.vol.files
    ensures Reaches(Strict, img, s, t) && |t.procs| == |s.procs| && t.lock.None? && t.stampedBy == [0] && Good(img, t.vol)
    ensures t.procs[0].pc == Finished(Populated(img.files[MANIFEST].text))
    ensures t.procs[1].pc == Finished(Rechecked(img.files[MANIFEST].text))
  {
    FreshIsTimely(s);
    Begin(Strict, img, s);
    t := Go(Strict, img, s, s, Call(1));
    t := Go(Strict, img, s, t, ReadManifest(1));
    t := PopulateAlone(Strict, img, s, t, 0);
    t := Go(Strict, img, s, t, TryCreate(1));
    t := Go(Strict, img, s, t, ReadManifest(1));
    t := Go(Strict, img, s, t, ReadStamp(1));
    t := Go(Strict, img, s, t, Release(1, true));
  }

  /** A caller that finds no manifest takes the free lock, populates, reads back and releases. */
  lemma PopulateAlone(x: Slack, img: Image, s: State, t: State, c: nat) returns (u: State)
    requires Ships(img) && Reaches(x, img, s, t) && InTime(x, t)
    requires c < |t.procs| && t.procs[c] == Proc(Idle, None, NoHelper) && t.lock.None? && MANIFEST !in t.vol.files
    ensures Reaches(x, img, s, u) && InTime(x, u) && u.lock.None? && u.stampedBy == t.stampedBy + [c] && u.clock == t.clock
    ensures Good(img, u.vol)
    ensures |u.procs| == |t.procs| && u.procs == t.procs[c := u.procs[c]] && u.procs[c].pc == Finished(Populated(img.files[MANIFEST].text))
  {
    u := TakeLock(x, img, s, t, c);
    u := FromLock(x, img, s, u, c);
  }

  /** From the lock on: the re-check finds nothing, the helper replaces the volume, the caller reads it back. */
  lemma FromLock(x: Slack, img: Image, s: State, t: State, c: nat) returns (u: State)
    requires Ships(img) && Reaches(x, img, s, t) && InTime(x, t) && MANIFEST !in t.vol.files
    requires c < |t.procs| && t.lock.Some? && t.procs[c] == Proc(HeldManifest, t.lock, NoHelper)
    ensures Reaches(x, img, s, u) && InTime(x, u) && u.lock.None? && u.stampedBy == t.stampedBy + [c] && u.clock == t.clock
    ensures Good(img, u.vol)
    ensures |u.procs| == |t.procs| && u.procs == t.procs[c := u.procs[c]] && u.procs[c].pc == Finished(Populated(img.files[MANIFEST].text))
  {
    u := Go(x, img, s, t, ReadManifest(c));
    u := Replace(x, img, s, u, c);
    u := ReadBack(x, img, s, u, c);
  }

  /** A lock left behind by a crash is removed once it is too old, and population goes ahead. */
  lemma StaleLockDoesNotBlock(img: Image, s: State) returns (t: State)
    requires Start(img, s) && |s.procs| >= 1 && MANIFEST !in s.vol.files
    requires s.lock.Some? && s.clock - s.lock.value.created > 15 * 60
    ensures Reaches(Strict, img, s, t) && Returned(t, 0) && t.lock.None? && t.stampedBy == [0] && Good(img, t.vol)
  {
    FreshIsTimely(s);
    Begin(Strict, img, s);
    t := GetLock(Strict, img, s, s, 0);
    t := FromLock(Strict, img, s, t, 0);
  }

  /** One that is not too old is respected until the waiter's time is up. */
  lemma WaiterTimesOut(img: Image, s: State) returns (t: State)
    requires Start(img, s) && |s.procs| >= 1 && MANIFEST !in s.vol.files && s.lock.Some? && s.lock.value.created == s.clock
    ensures Reaches(Strict, img, s, t) && |t.procs| >= 1 && t.procs[0].pc == Finished(TimedOut) && t.lock == s.lock && t.vol == s.vol
  {
    FreshIsTimely(s);
    Begin(Strict, img, s);
    t := Go(Strict, img, s, s, Call(0));
    t := Go(Strict, img, s, t, ReadManifest(0));
    t := Go(Strict, img, s, t, TryCreate(0));
    t := Go(Strict, img, s, t, Inspect(0));
    t := Go(Strict, img, s, t, JudgeAge(0));
    t := Pass(img, s, t, LOCK_TIMEOUT + 1);
    t := Go(Strict, img, s, t, TryCreate(0));
    t := Go(Strict, img, s, t, GiveUp(0));
  }

  /** A call that finds no image, or whose lock the engine refuses for another reason, ends failed and touches nothing. */
  lemma RefusedCallFails(img: Image, s: State, a: Action)
    requires (a.CallFails? || a.EngineError?) && Enabled(img, s, a)
    ensures var s' := Next(img, s, a);
      && s'.procs == s.procs[a.c := s.procs[a.c].(pc := Finished(Failed))]
      && s'.lock == s.lock && s'.vol == s.vol && s'.issued == s.issued && s'.stampedBy == s.stampedBy && s'.clock == s.clock
  {
  }
}
