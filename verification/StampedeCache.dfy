/**
 cache_get_or_set on one key (backend/app/core/cache.py): a read, a lock with a time to live, a
 build, a store, and polling for those that lost the race.

 Every Redis command may be skipped (the circuit is open), may fail with or without having taken
 effect, or may succeed. Callers live in any number of processes and interleave freely.
 */
module StampedeCache {
  import opened Common

  const RETRY_ATTEMPTS := 5

  /** A built value, known by who built it and when; `empty` is the builder's None. */
  datatype Item = Item(author: nat, began: int, ended: int, empty: bool)

  datatype Entry = Entry(item: Item, writer: nat, storedAt: int, expires: int)

  /** The lock key; nobody owns it when the SET took effect but its answer was lost. */
  datatype LockKey = LockKey(owner: Option<nat>, expires: int)

  datatype Source = OwnBuild | FromCache(entry: Entry, readAt: int)

  datatype Pc =
    | Idle
    | Reading
    | Locking
    | Building(began: int)
    | Storing(item: Item)
    | Unlocking(result: Option<Item>)
    | Polling(left: nat)
    | Uncached(began: int)
    | Returned(item: Item, source: Source)
    | Raised
    | Crashed

  /** `since` is when the call began; `won` holds the time at which it got the lock. */
  datatype Caller = Caller(pc: Pc, ttl: int, lockTtl: int, since: int, won: Option<int>)

  datatype State = State(
    clock: int,
    entry: Option<Entry>,
    lock: Option<LockKey>,
    callers: seq<Caller>,
    writers: set<nat>    // everyone who ever sent the SET of the value
  )

  datatype Reply = Skipped | Lost(effect: bool) | Answered

  datatype Action =
    | Tick(seconds: int)
    | Call(c: nat)
    | Get(c: nat, r: Reply, corrupt: bool)
    | TryLock(c: nat, r: Reply)
    | BuildEnds(c: nat, empty: bool)
    | BuildRaises(c: nat)
    | Store(c: nat, r: Reply)
    | Unlock(c: nat, r: Reply)
    | Crash(c: nat)
    | Invalidate

  predicate Live(expires: int, clock: int) {
    clock < expires
  }

  /** What a caller does after a read that found nothing. */
  function Missed(s: State, c: Caller): Caller
    requires c.pc.Reading? || c.pc.Polling?
  {
    if c.pc.Reading? then c.(pc := Locking)
    else if c.pc.left > 1 then c.(pc := Polling(c.pc.left - 1))
    else c.(pc := Uncached(s.clock))
  }

  predicate Effective(r: Reply) {
    r.Answered? || (r.Lost? && r.effect)
  }

  predicate Enabled(s: State, a: Action) {
    if a.Tick? then a.seconds > 0
    else if a.Invalidate? then true
    else a.c < |s.callers| && var c := s.callers[a.c];
      match a
      case Call(_) => c.pc.Idle? && c.won.None?
      case Get(_, _, _) => c.pc.Reading? || (c.pc.Polling? && c.pc.left > 0)
      case TryLock(_, _) => c.pc.Locking?
      case BuildEnds(_, _) => c.pc.Building? || c.pc.Uncached?
      case BuildRaises(_) => c.pc.Building? || c.pc.Uncached?
      case Store(_, _) => c.pc.Storing?
      case Unlock(_, _) => c.pc.Unlocking?
      case Crash(_) => !c.pc.Idle? && !c.pc.Returned? && !c.pc.Raised?
  }

  function With(s: State, i: nat, c: Caller): State
    requires i < |s.callers|
  {
    s.(callers := s.callers[i := c])
  }

  function Next(s: State, a: Action): State
    requires Enabled(s, a)
  {
    if a.Tick? then s.(clock := s.clock + a.seconds)
    else if a.Invalidate? then s.(entry := None)
    else
      var i := a.c;
      var c := s.callers[i];
      match a
      case Call(_) => With(s, i, c.(pc := Reading, since := s.clock))
      case Get(_, r, corrupt) =>
        if r.Answered? && s.entry.Some? && Live(s.entry.value.expires, s.clock) then
          if corrupt then With(s, i, Missed(s, c)).(entry := None)
          else if s.entry.value.item.empty then With(s, i, Missed(s, c))
          else With(s, i, c.(pc := Returned(s.entry.value.item, FromCache(s.entry.value, s.clock))))
        else With(s, i, Missed(s, c))
      case TryLock(_, r) =>
        var free := s.lock.None? || !Live(s.lock.value.expires, s.clock);
        if free && r.Answered? then
          With(s, i, c.(pc := Building(s.clock), won := Some(s.clock)))
            .(lock := Some(LockKey(Some(i), s.clock + c.lockTtl)))
        else if free && Effective(r) then
          With(s, i, c.(pc := Polling(RETRY_ATTEMPTS))).(lock := Some(LockKey(None, s.clock + c.lockTtl)))
        else With(s, i, c.(pc := Polling(RETRY_ATTEMPTS)))
      case BuildEnds(_, empty) =>
        var item := Item(i, c.pc.began, s.clock, empty);
        With(s, i, c.(pc := if c.pc.Building? then Storing(item) else Returned(item, OwnBuild)))
      case BuildRaises(_) => With(s, i, c.(pc := if c.pc.Building? then Unlocking(None) else Raised))
      case Store(_, r) =>
        var stored := With(s, i, c.(pc := Unlocking(Some(c.pc.item))));
        if Effective(r)
        then stored.(entry := Some(Entry(c.pc.item, i, s.clock, s.clock + c.ttl)), writers := s.writers + {i})
        else stored
      case Unlock(_, r) =>
        var freed := With(s, i, c.(pc := if c.pc.result.Some? then Returned(c.pc.result.value, OwnBuild) else Raised));
        if Effective(r) then freed.(lock := None) else freed
      case Crash(_) => With(s, i, c.(pc := Crashed))
  }

  // ---------------------------------------------------------------------------------------
  // Runs
  // ---------------------------------------------------------------------------------------

  predicate Fresh(s: State) {
    && (forall i | 0 <= i < |s.callers| :: s.callers[i].pc.Idle? && s.callers[i].won.None? && s.callers[i].ttl > 0 && s.callers[i].lockTtl > 0)
    && s.entry.None? && s.lock.None? && s.writers == {}
  }

  predicate InBranch(c: Caller) {
    c.pc.Building? || c.pc.Storing? || c.pc.Unlocking?
  }

  /** Building, storing and deleting the lock finish while it is still alive. */
  predicate Timely(s: State) {
    forall i | 0 <= i < |s.callers| && InBranch(s.callers[i]) ::
      s.callers[i].won.Some? ==> s.clock < s.callers[i].won.value + s.callers[i].lockTtl
  }

  predicate Possible(s: State, acts: seq<Action>)
    decreases |acts|
  {
    acts == [] || (Enabled(s, acts[0]) && Possible(Next(s, acts[0]), acts[1..]))
  }

  function Run(s: State, acts: seq<Action>): State
    requires Possible(s, acts)
    decreases |acts|
  {
    if acts == [] then s else Run(Next(s, acts[0]), acts[1..])
  }

  predicate AlwaysTimely(s: State, acts: seq<Action>)
    requires Possible(s, acts)
    decreases |acts|
  {
    Timely(s) && (acts == [] || AlwaysTimely(Next(s, acts[0]), acts[1..]))
  }

  // ---------------------------------------------------------------------------------------
  // Bounded staleness: no assumption on timing, on Redis or on the breaker
  // ---------------------------------------------------------------------------------------

  /** The entry was written by a call that held the lock, from its own build, for its own ttl. */
  predicate WellStored(s: State, e: Entry) {
    && e.writer < |s.callers| && s.callers[e.writer].won.Some?
    && e.item.author == e.writer && e.expires == e.storedAt + s.callers[e.writer].ttl
    && s.callers[e.writer].won.value <= e.item.began <= e.item.ended <= e.storedAt <= s.clock
  }

  predicate OwnItem(s: State, i: nat, item: Item)
    requires i < |s.callers|
  {
    item.author == i && s.callers[i].since <= item.began <= item.ended <= s.clock
  }

  predicate CallerOk(s: State, i: nat)
    requires i < |s.callers|
  {
    var c := s.callers[i];
    && (c.won.Some? ==> c.since <= c.won.value <= s.clock)
    && (c.pc.Idle? || c.pc.Reading? || c.pc.Locking? || c.pc.Polling? || c.pc.Uncached? ==> c.won.None?)
    && (!c.pc.Idle? ==> c.since <= s.clock)
    && (c.pc.Building? ==> c.won == Some(c.pc.began))
    && (c.pc.Uncached? ==> c.since <= c.pc.began <= s.clock)
    && (c.pc.Storing? ==> OwnItem(s, i, c.pc.item) && c.won.Some? && c.won.value <= c.pc.item.began)
    && (c.pc.Unlocking? ==> c.won.Some? && (c.pc.result.Some? ==> OwnItem(s, i, c.pc.result.value)))
    && (c.pc.Returned? && c.pc.source.OwnBuild? ==> OwnItem(s, i, c.pc.item))
    && (c.pc.Returned? && c.pc.source.FromCache? ==>
          var e, at := c.pc.source.entry, c.pc.source.readAt;
          e.item == c.pc.item && WellStored(s, e) && c.since <= at <= s.clock && e.storedAt <= at < e.expires)
  }

  predicate FreshInv(s: State) {
    && (forall i | 0 <= i < |s.callers| :: CallerOk(s, i))
    && (s.entry.Some? ==> WellStored(s, s.entry.value))
    && (forall w | w in s.writers :: w < |s.callers| && s.callers[w].won.Some?)
  }

  /** Time moves on, settings stay, and a lock once won stays won. */
  predicate Grown(s: State, s': State) {
    && |s'.callers| == |s.callers| && s.clock <= s'.clock
    && forall w | 0 <= w < |s.callers| ::
         s'.callers[w].ttl == s.callers[w].ttl && (s.callers[w].won.Some? ==> s'.callers[w].won == s.callers[w].won)
  }

  lemma NextGrown(s: State, a: Action)
    requires FreshInv(s) && Enabled(s, a)
    ensures Grown(s, Next(s, a))
  {
    if !a.Tick? && !a.Invalidate? {
      assert CallerOk(s, a.c);
    }
  }

  lemma CallerGrown(s: State, s': State, j: nat)
    requires Grown(s, s') && j < |s.callers| && CallerOk(s, j) && s'.callers[j] == s.callers[j]
    ensures CallerOk(s', j)
  {
  }

  lemma OthersStayOk(s: State, a: Action, j: nat)
    requires FreshInv(s) && Enabled(s, a) && j < |s.callers|
    requires a.Tick? || a.Invalidate? || j != a.c
    ensures CallerOk(Next(s, a), j)
  {
    NextGrown(s, a);
    CallerGrown(s, Next(s, a), j);
  }

  lemma StoredStays(s: State, i: nat, c: Caller, e: Entry)
    requires i < |s.callers| && WellStored(s, e)
    requires c.ttl == s.callers[i].ttl && (s.callers[i].won.Some? ==> c.won == s.callers[i].won)
    ensures WellStored(With(s, i, c), e)
  {
  }

  lemma ReaderStaysOk(s: State, a: Action)
    requires FreshInv(s) && Enabled(s, a) && a.Get?
    ensures CallerOk(Next(s, a), a.c)
  {
    assert CallerOk(s, a.c);
    var i := a.c;
    if s.entry.Some? {
      var e := s.entry.value;
      StoredStays(s, i, s.callers[i].(pc := Returned(e.item, FromCache(e, s.clock))), e);
    }
  }

  lemma WorkerStaysOk(s: State, a: Action)
    requires FreshInv(s) && Enabled(s, a) && (a.TryLock? || a.BuildEnds? || a.BuildRaises? || a.Store?)
    ensures CallerOk(Next(s, a), a.c)
  {
    assert CallerOk(s, a.c);
  }

  lemma MoverStaysOk(s: State, a: Action)
    requires FreshInv(s) && Enabled(s, a) && !a.Tick? && !a.Invalidate?
    ensures CallerOk(Next(s, a), a.c)
  {
    if a.Get? {
      ReaderStaysOk(s, a);
    } else if a.TryLock? || a.BuildEnds? || a.BuildRaises? || a.Store? {
      WorkerStaysOk(s, a);
    } else {
      assert CallerOk(s, a.c);
    }
  }

  lemma StoreStaysOk(s: State, a: Action)
    requires FreshInv(s) && Enabled(s, a) && a.Store?
    ensures Next(s, a).entry.Some? ==> WellStored(Next(s, a), Next(s, a).entry.value)
    ensures forall w | w in Next(s, a).writers :: w < |s.callers| && Next(s, a).callers[w].won.Some?
  {
    assert CallerOk(s, a.c);
    NextGrown(s, a);
  }

  lemma EntryStaysOk(s: State, a: Action)
    requires FreshInv(s) && Enabled(s, a)
    ensures Next(s, a).entry.Some? ==> WellStored(Next(s, a), Next(s, a).entry.value)
    ensures forall w | w in Next(s, a).writers :: w < |s.callers| && Next(s, a).callers[w].won.Some?
  {
    if a.Store? {
      StoreStaysOk(s, a);
    } else {
      NextGrown(s, a);
    }
  }

  lemma FreshStep(s: State, a: Action)
    requires FreshInv(s) && Enabled(s, a)
    ensures FreshInv(Next(s, a))
  {
    EntryStaysOk(s, a);
    forall j | 0 <= j < |s.callers| ensures CallerOk(Next(s, a), j) {
      if a.Tick? || a.Invalidate? || j != a.c {
        OthersStayOk(s, a, j);
      } else {
        MoverStaysOk(s, a);
      }
    }
  }

  lemma {:induction false} FreshAlong(s: State, acts: seq<Action>)
    requires FreshInv(s) && Possible(s, acts)
    ensures FreshInv(Run(s, acts))
    decreases |acts|
  {
    if acts != [] {
      FreshStep(s, acts[0]);
      FreshAlong(Next(s, acts[0]), acts[1..]);
    }
  }

  /** A returned value was built by this very call, or stored by a lock holder less than its ttl ago. */
  lemma BoundedStaleness(s: State, acts: seq<Action>, i: nat)
    requires Fresh(s) && Possible(s, acts) && i < |Run(s, acts).callers|
    requires Run(s, acts).callers[i].pc.Returned?
    ensures var t, c := Run(s, acts), Run(s, acts).callers[i];
      match c.pc.source
      case OwnBuild => c.pc.item.author == i && c.since <= c.pc.item.began
      case FromCache(e, readAt) =>
        && e.item == c.pc.item && e.writer < |t.callers| && t.callers[e.writer].won.Some?
        && c.since <= readAt && 0 <= readAt - e.storedAt < t.callers[e.writer].ttl
  {
    FreshAlong(s, acts);
    assert CallerOk(Run(s, acts), i);
  }

  /** Whoever lost the race never wrote the key. */
  lemma LosersNeverWrite(s: State, acts: seq<Action>, w: nat)
    requires Fresh(s) && Possible(s, acts) && w in Run(s, acts).writers
    ensures w < |Run(s, acts).callers| && Run(s, acts).callers[w].won.Some?
  {
    FreshAlong(s, acts);
  }

  // ---------------------------------------------------------------------------------------
  // The stampede lock
  // ---------------------------------------------------------------------------------------

  /** Whoever is in the acquired branch owns the lock key, unexpired. */
  predicate LockInv(s: State) {
    forall i | 0 <= i < |s.callers| && InBranch(s.callers[i]) ::
      && s.callers[i].won.Some?
      && s.lock == Some(LockKey(Some(i), s.callers[i].won.value + s.callers[i].lockTtl))
  }

  lemma LockStep(s: State, a: Action)
    requires LockInv(s) && Timely(s) && Enabled(s, a)
    ensures LockInv(Next(s, a))
  {
    var s' := Next(s, a);
    forall i | 0 <= i < |s'.callers| && InBranch(s'.callers[i])
      ensures s'.callers[i].won.Some? && s'.lock == Some(LockKey(Some(i), s'.callers[i].won.value + s'.callers[i].lockTtl))
    {
      if !a.Tick? && !a.Invalidate? && i != a.c {
        assert InBranch(s.callers[i]);
      }
    }
  }

  lemma {:induction false} LockAlong(s: State, acts: seq<Action>)
    requires LockInv(s) && Possible(s, acts) && AlwaysTimely(s, acts)
    ensures LockInv(Run(s, acts)) && Timely(Run(s, acts))
    decreases |acts|
  {
    if acts != [] {
      LockStep(s, acts[0]);
      LockAlong(Next(s, acts[0]), acts[1..]);
    }
  }

  /** If building, storing and unlocking fit in the lock's life, one caller at most rebuilds, and it deletes its own lock. */
  lemma OneRebuilder(s: State, acts: seq<Action>)
    requires Fresh(s) && Possible(s, acts) && AlwaysTimely(s, acts)
    ensures var t := Run(s, acts);
      && (forall i, j | 0 <= i < |t.callers| && 0 <= j < |t.callers| && InBranch(t.callers[i]) && InBranch(t.callers[j]) :: i == j)
      && (forall i | 0 <= i < |t.callers| && t.callers[i].pc.Unlocking? :: t.lock.Some? && t.lock.value.owner == Some(i))
  {
    LockAlong(s, acts);
    var t := Run(s, acts);
    forall i, j | 0 <= i < |t.callers| && 0 <= j < |t.callers| && InBranch(t.callers[i]) && InBranch(t.callers[j])
      ensures i == j
    {
      assert t.lock.value.owner == Some(i) && t.lock.value.owner == Some(j);
    }
  }

  /** In time, what is stored is younger than the lock: cached data is never older than ttl plus lock_ttl. */
  predicate YoungEntry(s: State, e: Entry) {
    e.writer < |s.callers| && e.storedAt - e.item.began < s.callers[e.writer].lockTtl
  }

  predicate YoungInv(s: State) {
    && (s.entry.Some? ==> YoungEntry(s, s.entry.value))
    && (forall i | 0 <= i < |s.callers| && s.callers[i].pc.Returned? && s.callers[i].pc.source.FromCache? ::
          YoungEntry(s, s.callers[i].pc.source.entry))
  }

  lemma LockTtlsStay(s: State, a: Action)
    requires Enabled(s, a)
    ensures |Next(s, a).callers| == |s.callers|
    ensures forall w | 0 <= w < |s.callers| :: Next(s, a).callers[w].lockTtl == s.callers[w].lockTtl
  {
  }

  lemma YoungEntryStep(s: State, a: Action)
    requires FreshInv(s) && YoungInv(s) && Timely(s) && Enabled(s, a)
    ensures Next(s, a).entry.Some? ==> YoungEntry(Next(s, a), Next(s, a).entry.value)
  {
    LockTtlsStay(s, a);
    if a.Store? {
      assert CallerOk(s, a.c) && InBranch(s.callers[a.c]);
    }
  }

  lemma YoungStep(s: State, a: Action)
    requires FreshInv(s) && YoungInv(s) && Timely(s) && Enabled(s, a)
    ensures YoungInv(Next(s, a))
  {
    YoungEntryStep(s, a);
    LockTtlsStay(s, a);
    var s' := Next(s, a);
    forall i | 0 <= i < |s'.callers| && s'.callers[i].pc.Returned? && s'.callers[i].pc.source.FromCache?
      ensures YoungEntry(s', s'.callers[i].pc.source.entry)
    {
      assert a.Tick? || a.Invalidate? || i != a.c ==> s'.callers[i] == s.callers[i];
    }
  }

  lemma {:induction false} YoungAlong(s: State, acts: seq<Action>)
    requires FreshInv(s) && YoungInv(s) && Possible(s, acts) && AlwaysTimely(s, acts)
    ensures YoungInv(Run(s, acts))
    decreases |acts|
  {
    if acts != [] {
      FreshStep(s, acts[0]);
      YoungStep(s, acts[0]);
      YoungAlong(Next(s, acts[0]), acts[1..]);
    }
  }

  lemma CachedDataAge(s: State, acts: seq<Action>, i: nat)
    requires Fresh(s) && Possible(s, acts) && AlwaysTimely(s, acts) && i < |Run(s, acts).callers|
    requires Run(s, acts).callers[i].pc.Returned? && Run(s, acts).callers[i].pc.source.FromCache?
    ensures var t, src := Run(s, acts), Run(s, acts).callers[i].pc.source;
      && src.entry.writer < |t.callers|
      && src.readAt - src.entry.item.began < t.callers[src.entry.writer].ttl + t.callers[src.entry.writer].lockTtl
  {
    FreshAlong(s, acts);
    YoungAlong(s, acts);
    assert CallerOk(Run(s, acts), i);
  }

  // ---------------------------------------------------------------------------------------
  // A builder slower than the lock
  // ---------------------------------------------------------------------------------------

  lemma {:induction false} Extend(s: State, acts: seq<Action>, a: Action)
    requires Possible(s, acts) && Enabled(Run(s, acts), a)
    ensures Possible(s, acts + [a]) && Run(s, acts + [a]) == Next(Run(s, acts), a)
    decreases |acts|
  {
    if acts == [] {
      assert acts + [a] == [a] && [a][1..] == [];
    } else {
      assert (acts + [a])[0] == acts[0] && (acts + [a])[1..] == acts[1..] + [a];
      Extend(Next(s, acts[0]), acts[1..], a);
    }
  }

  lemma Take(s: State, acts: seq<Action>, a: Action) returns (longer: seq<Action>)
    requires Possible(s, acts) && Enabled(Run(s, acts), a)
    ensures longer == acts + [a] && Possible(s, longer) && Run(s, longer) == Next(Run(s, acts), a)
  {
    Extend(s, acts, a);
    longer := acts + [a];
  }

  lemma Acquire(s: State, acts: seq<Action>, i: nat) returns (longer: seq<Action>)
    requires Possible(s, acts) && i < |Run(s, acts).callers|
    requires var t := Run(s, acts);
      t.entry.None? && (t.lock.None? || !Live(t.lock.value.expires, t.clock)) && t.callers[i].pc.Idle? && t.callers[i].won.None?
    ensures Possible(s, longer)
    ensures var t := Run(s, acts);
      Run(s, longer) == With(t, i, t.callers[i].(pc := Building(t.clock), since := t.clock, won := Some(t.clock)))
        .(lock := Some(LockKey(Some(i), t.clock + t.callers[i].lockTtl)))
  {
    longer := Take(s, acts, Call(i));
    longer := Take(s, longer, Get(i, Answered, false));
    longer := Take(s, longer, TryLock(i, Answered));
  }

  /** The first holder outlives its lock and deletes the second one's; a third joins the second. */
  lemma SlowBuilderLetsTwoIn(s: State) returns (acts: seq<Action>)
    requires Fresh(s) && |s.callers| >= 3
    ensures Possible(s, acts) && |Run(s, acts).callers| >= 3
    ensures InBranch(Run(s, acts).callers[1]) && InBranch(Run(s, acts).callers[2])
  {
    acts := Acquire(s, [], 0);
    acts := Take(s, acts, Tick(s.callers[0].lockTtl));
    acts := Acquire(s, acts, 1);
    acts := Take(s, acts, BuildRaises(0));
    acts := Take(s, acts, Unlock(0, Answered));
    acts := Acquire(s, acts, 2);
  }

  predicate OneInBranch(t: State) {
    forall i, j | 0 <= i < |t.callers| && 0 <= j < |t.callers| && InBranch(t.callers[i]) && InBranch(t.callers[j]) :: i == j
  }

  /** One rebuilder at a time in every run exactly when no run may outlive its lock in the branch. */
  lemma OneRebuilderIff(s: State, late: bool)
    requires Fresh(s) && |s.callers| >= 2
    ensures (forall acts | Possible(s, acts) && (late || AlwaysTimely(s, acts)) :: OneInBranch(Run(s, acts))) <==> !late
  {
    if late {
      var acts := Acquire(s, [], 0);
      acts := Take(s, acts, Tick(s.callers[0].lockTtl));
      acts := Acquire(s, acts, 1);
      var t := Run(s, acts);
      assert InBranch(t.callers[0]) && InBranch(t.callers[1]) && !OneInBranch(t);
    } else {
      forall acts | Possible(s, acts) && AlwaysTimely(s, acts) ensures OneInBranch(Run(s, acts)) {
        OneRebuilder(s, acts);
      }
    }
  }
}
