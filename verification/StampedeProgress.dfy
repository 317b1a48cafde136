/**
 What callers of cache_get_or_set get: hits are returned, misses poll or build, and what one call
 stores the next one looked (backend/app/core/cache.py).
 */
module StampedeProgress {
  import opened Common
  import opened StampedeCache

  lemma {:induction false} RunSplit(s: State, acts: seq<Action>, k: nat)
    requires Possible(s, acts) && k <= |acts|
    ensures Possible(s, acts[..k]) && Possible(Run(s, acts[..k]), acts[k..])
    ensures Run(s, acts) == Run(Run(s, acts[..k]), acts[k..])
    decreases k
  {
    if k == 0 {
      assert acts[..k] == [] && acts[k..] == acts;
    } else {
      RunSplit(Next(s, acts[0]), acts[1..], k - 1);
      assert acts[1..][..k - 1] == acts[..k][1..] && acts[1..][k - 1..] == acts[k..];
    }
  }

  /** A call that has returned stays as it is. */
  lemma {:induction false} ReturnedStays(s: State, acts: seq<Action>, i: nat)
    requires Possible(s, acts) && i < |s.callers| && s.callers[i].pc.Returned?
    ensures i < |Run(s, acts).callers| && Run(s, acts).callers[i] == s.callers[i]
    decreases |acts|
  {
    if acts != [] {
      ReturnedStays(Next(s, acts[0]), acts[1..], i);
    }
  }

  // ---------------------------------------------------------------------------------------
  // Hits
  // ---------------------------------------------------------------------------------------

  /** The k-th action is an answered read by caller i of an intact, unexpired value that is not None. */
  ghost predicate Hits(s: State, acts: seq<Action>, k: nat, i: nat)
    requires Possible(s, acts)
  {
    && k < |acts| && acts[k] == Get(i, Answered, false) && Possible(s, acts[..k])
    && var e := Run(s, acts[..k]).entry; e.Some? && Run(s, acts[..k]).clock < e.value.expires && !e.value.item.empty
  }

  /** Whoever looked such a value returns it, and that is the end of the call. */
  lemma HitIsReturned(s: State, acts: seq<Action>, k: nat, i: nat)
    requires Possible(s, acts) && Hits(s, acts, k, i)
    ensures var seen := Run(s, acts[..k]);
      && i < |Run(s, acts).callers|
      && Run(s, acts).callers[i].pc == Returned(seen.entry.value.item, FromCache(seen.entry.value, seen.clock))
  {
    RunSplit(s, acts, k);
    var seen, rest := Run(s, acts[..k]), acts[k..];
    assert rest[0] == acts[k];
    ReturnedStays(Next(seen, rest[0]), rest[1..], i);
  }

  /** A call that returns its own build never read a value it could have returned. */
  lemma OwnBuildMeansMisses(s: State, acts: seq<Action>, k: nat, i: nat)
    requires Possible(s, acts) && i < |Run(s, acts).callers| && Run(s, acts).callers[i].pc.Returned? && Run(s, acts).callers[i].pc.source.OwnBuild?
    ensures !Hits(s, acts, k, i)
  {
    if Hits(s, acts, k, i) {
      HitIsReturned(s, acts, k, i);
    }
  }

  predicate FromCacheIsSomething(c: Caller) {
    c.pc.Returned? && c.pc.source.FromCache? ==> !c.pc.item.empty
  }

  /** A stored None is a miss: what is returned from the cache is always a value. */
  lemma {:induction false} NoneIsNeverAHit(s: State, acts: seq<Action>)
    requires Possible(s, acts) && forall i | 0 <= i < |s.callers| :: FromCacheIsSomething(s.callers[i])
    ensures forall i | 0 <= i < |Run(s, acts).callers| :: FromCacheIsSomething(Run(s, acts).callers[i])
    decreases |acts|
  {
    if acts != [] {
      NoneIsNeverAHit(Next(s, acts[0]), acts[1..]);
    }
  }

  /** A value that does not deserialize is deleted by its reader, who does not return it. */
  lemma CorruptIsDropped(s: State, acts: seq<Action>, i: nat)
    requires Possible(s, acts + [Get(i, Answered, true)]) && Possible(s, acts)
    requires Run(s, acts).entry.Some? && Run(s, acts).clock < Run(s, acts).entry.value.expires
    ensures var t := Run(s, acts + [Get(i, Answered, true)]); t.entry.None? && i < |t.callers| && !t.callers[i].pc.Returned?
  {
    RunSplit(s, acts + [Get(i, Answered, true)], |acts|);
    assert (acts + [Get(i, Answered, true)])[..|acts|] == acts && (acts + [Get(i, Answered, true)])[|acts|..] == [Get(i, Answered, true)];
    assert [Get(i, Answered, true)][1..] == [];
  }

  // ---------------------------------------------------------------------------------------
  // Misses
  // ---------------------------------------------------------------------------------------

  function Reads(acts: seq<Action>, i: nat): nat {
    if acts == [] then 0 else Reads(acts[..|acts| - 1], i) + if acts[|acts| - 1].Get? && acts[|acts| - 1].c == i then 1 else 0
  }

  function Raises(acts: seq<Action>, i: nat): nat {
    if acts == [] then 0 else Raises(acts[..|acts| - 1], i) + if acts[|acts| - 1] == BuildRaises(i) then 1 else 0
  }

  /** How many reads a caller has behind it, by where it is. */
  predicate Counted(c: Caller, looked: nat, raises: nat) {
    && (c.pc.Idle? || c.pc.Reading? ==> looked == 0)
    && (c.pc.Locking? || c.pc.Building? || c.pc.Storing? || c.pc.Unlocking? ==> looked == 1)
    && (c.pc.Polling? ==> looked + c.pc.left == 6 && c.pc.left > 0)
    && (c.pc.Uncached? ==> looked == 6)
    && (c.pc.Returned? && c.pc.source.OwnBuild? ==> looked == if c.won.Some? then 1 else 6)
    && (c.pc.Raised? || (c.pc.Unlocking? && c.pc.result.None?) ==> raises > 0)
    && (c.pc.Idle? || c.pc.Reading? || c.pc.Locking? || c.pc.Polling? || c.pc.Uncached? ==> c.won.None?)
    && (c.pc.Building? || c.pc.Storing? || c.pc.Unlocking? ==> c.won.Some?)
  }

  lemma CountedStep(s: State, a: Action, i: nat, looked: nat, raises: nat)
    requires Enabled(s, a) && i < |s.callers| && Counted(s.callers[i], looked, raises)
    ensures i < |Next(s, a).callers|
    ensures Counted(Next(s, a).callers[i], looked + (if a.Get? && a.c == i then 1 else 0), raises + (if a == BuildRaises(i) then 1 else 0))
  {
  }

  lemma {:induction false} CountedAlong(s: State, acts: seq<Action>, i: nat)
    requires Fresh(s) && Possible(s, acts) && i < |s.callers|
    ensures i < |Run(s, acts).callers| && Counted(Run(s, acts).callers[i], Reads(acts, i), Raises(acts, i))
    decreases |acts|
  {
    if acts != [] {
      var n := |acts| - 1;
      RunSplit(s, acts, n);
      CountedAlong(s, acts[..n], i);
      assert acts[n..] == [acts[n]] && [acts[n]][1..] == [];
      CountedStep(Run(s, acts[..n]), acts[n], i, Reads(acts[..n], i), Raises(acts[..n], i));
    }
  }

  /**
   A call that builds for itself read the cache once if it won the lock, and once and five polls
   more if it lost; and only a builder that raised makes a call raise.
   */
  lemma LosersPollFiveTimes(s: State, acts: seq<Action>, i: nat)
    requires Fresh(s) && Possible(s, acts) && i < |s.callers|
    ensures var t := Run(s, acts); i < |t.callers| && var c := t.callers[i];
      && (c.pc.Returned? && c.pc.source.OwnBuild? ==> Reads(acts, i) == if c.won.Some? then 1 else 1 + 5)
      && (c.pc.Raised? ==> Raises(acts, i) > 0)
  {
    CountedAlong(s, acts, i);
  }

  // ---------------------------------------------------------------------------------------
  // Runs that end well
  // ---------------------------------------------------------------------------------------

  /** A winner builds, stores and unlocks. */
  lemma BuildAndStore(s: State, acts: seq<Action>, i: nat) returns (longer: seq<Action>)
    requires Possible(s, acts) && i < |Run(s, acts).callers|
    requires var t := Run(s, acts);
      t.entry.None? && t.lock.None? && t.callers[i].pc.Idle? && t.callers[i].won.None?
    ensures Possible(s, longer)
    ensures var t, u := Run(s, acts), Run(s, longer);
      var item := Item(i, t.clock, t.clock, false);
      && |u.callers| == |t.callers| && u.clock == t.clock && u.lock.None? && u.writers == t.writers + {i}
      && u.entry == Some(Entry(item, i, t.clock, t.clock + t.callers[i].ttl))
      && u.callers[i].pc == Returned(item, OwnBuild) && forall j | 0 <= j < |t.callers| && j != i :: u.callers[j] == t.callers[j]
  {
    longer := Acquire(s, acts, i);
    longer := Take(s, longer, BuildEnds(i, false));
    longer := Take(s, longer, Store(i, Answered));
    longer := Take(s, longer, Unlock(i, Answered));
  }

  /** What the first caller stores, the second returns until the last second of the ttl, and no longer. */
  lemma SecondCallerHits(s: State) returns (acts: seq<Action>)
    requires Fresh(s) && |s.callers| >= 2
    ensures Possible(s, acts) && |Run(s, acts).callers| == |s.callers|
    ensures var t := Run(s, acts);
      && t.clock == s.clock + s.callers[0].ttl - 1
      && t.callers[0].pc.Returned? && t.callers[0].pc.source.OwnBuild?
      && t.callers[1].pc.Returned? && t.callers[1].pc.source.FromCache? && t.callers[1].pc.item == t.callers[0].pc.item
      && t.writers == {0} && t.lock.None?
  {
    acts := [];
    acts := BuildAndStore(s, acts, 0);
    if s.callers[0].ttl > 1 {
      acts := Take(s, acts, Tick(s.callers[0].ttl - 1));
    }
    acts := Take(s, acts, Call(1));
    acts := Take(s, acts, Get(1, Answered, false));
  }

  /** After an invalidation the next caller takes the lock at once and rebuilds. */
  lemma RebuiltAfterInvalidation(s: State) returns (acts: seq<Action>)
    requires Fresh(s) && |s.callers| >= 2
    ensures Possible(s, acts) && |Run(s, acts).callers| == |s.callers|
    ensures var t := Run(s, acts);
      && t.callers[1].pc.Returned? && t.callers[1].pc.source.OwnBuild? && t.callers[1].pc.item.author == 1
      && t.entry.Some? && t.entry.value.item == t.callers[1].pc.item && t.lock.None? && t.writers == {0, 1}
  {
    acts := BuildAndStore(s, [], 0);
    acts := Take(s, acts, Invalidate);
    acts := BuildAndStore(s, acts, 1);
  }

  /**
   A lock taken by a command whose answer was lost belongs to nobody: its sender polls, and the next
   caller gets to build exactly when the lock's life is over.
   */
  lemma LostAnswerHoldsLock(s: State, wait: int) returns (acts: seq<Action>)
    requires Fresh(s) && |s.callers| >= 2 && wait > 0
    ensures Possible(s, acts) && |Run(s, acts).callers| == |s.callers|
    ensures var t := Run(s, acts);
      && t.clock == s.clock + wait && t.callers[0].pc == Polling(5)
      && t.callers[1].pc == if wait < s.callers[0].lockTtl then Polling(5) else Building(t.clock)
  {
    acts := [];
    acts := Take(s, acts, Call(0));
    acts := Take(s, acts, Call(1));
    acts := Take(s, acts, Get(0, Answered, false));
    acts := Take(s, acts, Get(1, Answered, false));
    acts := Take(s, acts, TryLock(0, Lost(true)));
    acts := Take(s, acts, Tick(wait));
    acts := Take(s, acts, TryLock(1, Answered));
  }
}
