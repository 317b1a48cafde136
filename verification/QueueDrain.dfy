/** The queued-server pass as a whole: it ends, and what it has done when it ends. */
module QueueDrain {
  import opened Common
  import opened Queue
  import Fleet
  import FleetService

  // ---------------------------------------------------------------------------------------
  // Accounts of a pass, from its start s0
  // ---------------------------------------------------------------------------------------

  function ServersFor(s: State, e: Eid): set<Sid> {
    set sid | sid in s.servers && s.servers[sid].entry == Some(e)
  }

  function ChargesFor(cs: seq<Charge>, e: Eid): nat {
    if cs == [] then 0 else ChargesFor(cs[..|cs| - 1], e) + if cs[|cs| - 1].entry == e then 1 else 0
  }

  function Spent(cs: seq<Charge>, user: User): int {
    if cs == [] then 0 else Spent(cs[..|cs| - 1], user) + if cs[|cs| - 1].user == user then cs[|cs| - 1].amount else 0
  }

  function Price(w: World, x: Entry): nat {
    if w.credits && x.plan in w.plans && w.plans[x.plan].cost > 0 then 1 else 0
  }

  function Wants(w: World, x: Entry): nat {
    if w.pool != [] && x.plan in w.plans then w.plans[x.plan].gpus else 0
  }

  function DevicesTotal(w: World, s0: State, es: seq<Eid>): nat
    requires forall e | e in es :: e in s0.entries
  {
    if es == [] then 0 else DevicesTotal(w, s0, es[..|es| - 1]) + Wants(w, s0.entries[es[|es| - 1]])
  }

  /** An entry was left alone, failed holding nothing, or started with its one server. */
  ghost predicate EntryOk(w: World, s0: State, s: State, e: Eid)
    requires e in s0.entries && e in s.entries
  {
    var x0, x := s0.entries[e], s.entries[e];
    && x.(status := Pending, retries := 0) == x0.(status := Pending, retries := 0)
    && if x.status == x0.status then
      x == x0 && ChargesFor(s.charges, e) == 0 && ServersFor(s, e) == ServersFor(s0, e)
    else if x.status == Started then
      && x0.status == Pending && ChargesFor(s.charges, e) == Price(w, x0)
      && exists sid :: ServersFor(s, e) == {sid} && OwnServer(w, s0, s, e, sid)
    else
      x0.status == Pending && x.status == Failed && ChargesFor(s.charges, e) <= Price(w, x0) && ServersFor(s, e) == {}
  }

  ghost predicate OwnServer(w: World, s0: State, s: State, e: Eid, sid: Sid)
    requires e in s0.entries
  {
    && s0.serial <= sid && sid in s.servers
    && s.servers[sid] == Server(s0.entries[e].user, s0.entries[e].plan, Some(e))
    && |Fleet.Held(s.rows, sid)| == Wants(w, s0.entries[e])
  }

  predicate OfPass(s0: State, server: Server) {
    server.entry.Some? && server.entry.value in s0.entries
  }

  /** Rows of the pass belong to servers of the pass; older rows are untouched. */
  ghost predicate RowsOk(s0: State, s: State) {
    && (forall d | d in s0.rows :: d in s.rows && s.rows[d] == s0.rows[d])
    && (forall d | d in s.rows && d !in s0.rows :: s0.serial <= s.rows[d] && s.rows[d] in s.servers && OfPass(s0, s.servers[s.rows[d]]))
  }

  ghost predicate MoneyOk(s0: State, s: State) {
    && (forall u :: Balance(s, u) == Balance(s0, u) - Spent(s.charges, u))
    && (forall u :: Balance(s0, u) >= 0 ==> Balance(s, u) >= 0)
  }

  ghost predicate Inv(w: World, s0: State, s: State) {
    && KeysDrawn(s) && s0.serial <= s.serial
    && s.entries.Keys == s0.entries.Keys
    && (forall e | e in s0.entries :: EntryOk(w, s0, s, e))
    && RowsOk(s0, s)
    && MoneyOk(s0, s)
  }

  /** A pass starts with no charge of its own and no server for an entry still waiting. */
  ghost predicate Begins(s0: State) {
    && KeysDrawn(s0) && s0.charges == []
    && forall e | e in Waiting(s0) :: ServersFor(s0, e) == {}
  }

  // ---------------------------------------------------------------------------------------
  // One iteration, part by part
  // ---------------------------------------------------------------------------------------

  datatype Move = Move(paid: bool, launched: bool, taken: set<Device>)

  ghost predicate EntriesMove(s: State, e: Eid, n: State, launched: bool)
    requires e in s.entries
  {
    && n.entries.Keys == s.entries.Keys
    && (forall o | o in s.entries && o != e :: n.entries[o] == s.entries[o])
    && n.entries[e].(status := Pending, retries := 0) == s.entries[e].(status := Pending, retries := 0)
    && n.entries[e].status == (if launched then Started else Failed)
  }

  ghost predicate MoneyMoves(w: World, s: State, e: Eid, n: State, paid: bool)
    requires e in s.entries
  {
    var x := s.entries[e];
    if paid then
      && Price(w, x) == 1 && Balance(s, x.user) >= w.plans[x.plan].cost
      && n.balance == s.balance[x.user := Balance(s, x.user) - w.plans[x.plan].cost]
      && n.charges == s.charges + [Charge(x.user, w.plans[x.plan].cost, e)]
    else n.balance == s.balance && n.charges == s.charges
  }

  ghost predicate DevicesMove(w: World, s: State, e: Eid, n: State, m: Move)
    requires e in s.entries
  {
    var x := s.entries[e];
    if m.launched then
      && (forall d | d in m.taken :: d in w.pool && d !in s.rows) && |m.taken| == Wants(w, x)
      && n.rows == Take(s.rows, m.taken, s.serial)
      && n.servers == s.servers[s.serial := Server(x.user, x.plan, Some(e))]
      && n.serial == s.serial + 1
    else n.rows == s.rows && n.servers == s.servers && s.serial <= n.serial
  }

  ghost predicate Moves(w: World, s: State, e: Eid, n: State, m: Move)
    requires e in s.entries
  {
    && EntriesMove(s, e, n, m.launched)
    && MoneyMoves(w, s, e, n, m.paid)
    && (m.launched ==> m.paid == (Price(w, s.entries[e]) == 1))
    && DevicesMove(w, s, e, n, m)
  }

  /** With no device listed twice, an iteration never loses the session's changes. */
  lemma NeverRolledBack(w: World, s: State, e: Eid)
    requires e in Fitting(w, s) && Fleet.Distinct(w.pool)
    ensures FateOf(w, s, e) != RolledBack
  {
    PickedIsFree(w, s, PlanOf(w, s, e));
  }

  lemma TurnedAwayMoves(w: World, s: State, e: Eid, saved: map<Eid, Entry>)
    requires e in Fitting(w, s) && s.saved.Keys == s.entries.Keys
    requires FateOf(w, s, e) in {Rejected, NoDevices, Unpaid}
    ensures Moves(w, s, e, Iterate(w, s, e, saved), Move(false, false, {}))
  {
    var n := Iterate(w, s, e, saved);
    var entries := if FateOf(w, s, e) == Unpaid then Fail(s.entries, e, 1) else Fail(s.entries, e, 0);
    var serial := if FateOf(w, s, e) == Rejected then s.serial else s.serial + 1;
    assert n == s.(entries := entries, serial := serial, saved := saved);
  }

  lemma SpawnFailedMoves(w: World, s: State, e: Eid, saved: map<Eid, Entry>)
    requires e in Fitting(w, s) && s.saved.Keys == s.entries.Keys && FateOf(w, s, e) == SpawnFailed
    ensures Moves(w, s, e, Iterate(w, s, e, saved), Move(Priced(w, PlanOf(w, s, e)), false, {}))
  {
    var n := Iterate(w, s, e, saved);
    assert n.entries == Fail(s.entries, e, 1) && n.rows == s.rows && n.servers == s.servers && n.serial == s.serial + 1;
  }

  lemma LaunchedMoves(w: World, s: State, e: Eid, saved: map<Eid, Entry>)
    requires e in Fitting(w, s) && s.saved.Keys == s.entries.Keys && FateOf(w, s, e) == Launched && Fleet.Distinct(w.pool)
    ensures var plan := PlanOf(w, s, e); Moves(w, s, e, Iterate(w, s, e, saved), Move(Priced(w, plan), true, Picked(w, s, plan)))
  {
    var n, plan := Iterate(w, s, e, saved), PlanOf(w, s, e);
    PickedIsFree(w, s, plan);
    assert n.entries == s.entries[e := s.entries[e].(status := Started)];
    assert n.rows == Take(s.rows, Picked(w, s, plan), s.serial) && n.serial == s.serial + 1;
    assert n.servers == s.servers[s.serial := Server(s.entries[e].user, s.entries[e].plan, Some(e))];
  }

  lemma IterateMoves(w: World, s: State, e: Eid, saved: map<Eid, Entry>) returns (m: Move)
    requires e in Fitting(w, s) && s.saved.Keys == s.entries.Keys && Fleet.Distinct(w.pool)
    ensures Moves(w, s, e, Iterate(w, s, e, saved), m) && m.launched == (FateOf(w, s, e) == Launched)
  {
    NeverRolledBack(w, s, e);
    var fate := FateOf(w, s, e);
    if fate == Launched {
      LaunchedMoves(w, s, e, saved);
      m := Move(Priced(w, PlanOf(w, s, e)), true, Picked(w, s, PlanOf(w, s, e)));
    } else if fate == SpawnFailed {
      SpawnFailedMoves(w, s, e, saved);
      m := Move(Priced(w, PlanOf(w, s, e)), false, {});
    } else {
      TurnedAwayMoves(w, s, e, saved);
      m := Move(false, false, {});
    }
  }

  // ---------------------------------------------------------------------------------------
  // One iteration keeps the accounts
  // ---------------------------------------------------------------------------------------

  lemma ChargesGrow(cs: seq<Charge>, c: Charge, e: Eid, u: User)
    ensures ChargesFor(cs + [c], e) == ChargesFor(cs, e) + (if c.entry == e then 1 else 0)
    ensures Spent(cs + [c], u) == Spent(cs, u) + (if c.user == u then c.amount else 0)
  {
    assert (cs + [c])[..|cs|] == cs;
  }

  lemma MoneyStep(w: World, s0: State, s: State, e: Eid, n: State, paid: bool)
    requires MoneyOk(s0, s) && e in s.entries && MoneyMoves(w, s, e, n, paid)
    ensures MoneyOk(s0, n)
  {
    if paid {
      var user, cost := s.entries[e].user, w.plans[s.entries[e].plan].cost;
      forall u ensures Balance(n, u) == Balance(s0, u) - Spent(n.charges, u) && (Balance(s0, u) >= 0 ==> Balance(n, u) >= 0) {
        ChargesGrow(s.charges, Charge(user, cost, e), e, u);
        assert Balance(s, u) == Balance(s0, u) - Spent(s.charges, u);
      }
    } else {
      assert forall u :: Balance(n, u) == Balance(s, u);
    }
  }

  lemma ChargeCount(w: World, s: State, e: Eid, n: State, paid: bool, o: Eid)
    requires e in s.entries && MoneyMoves(w, s, e, n, paid)
    ensures ChargesFor(n.charges, o) == ChargesFor(s.charges, o) + (if o == e && paid then 1 else 0)
  {
    if paid {
      ChargesGrow(s.charges, Charge(s.entries[e].user, w.plans[s.entries[e].plan].cost, e), o, 0);
    }
  }

  lemma KeysStep(w: World, s: State, e: Eid, n: State, m: Move)
    requires KeysDrawn(s) && e in s.entries && DevicesMove(w, s, e, n, m)
    ensures s.serial <= n.serial
    ensures (forall sid | sid in n.servers :: sid < n.serial) && (forall d | d in n.rows :: n.rows[d] < n.serial)
  {
  }

  lemma RowsStep(w: World, s0: State, s: State, e: Eid, n: State, m: Move)
    requires s0.serial <= s.serial && RowsOk(s0, s) && e in s.entries && e in s0.entries && DevicesMove(w, s, e, n, m)
    requires s.serial !in s.servers
    ensures RowsOk(s0, n)
  {
    if m.launched {
      assert forall d | d in s.rows :: d in n.rows && n.rows[d] == s.rows[d];
      forall d | d in n.rows && d !in s0.rows
        ensures s0.serial <= n.rows[d] && n.rows[d] in n.servers && OfPass(s0, n.servers[n.rows[d]])
      {
        if d in s.rows {
          assert n.servers[n.rows[d]] == s.servers[s.rows[d]];
        } else {
          assert n.rows[d] == s.serial;
        }
      }
    }
  }

  /** What other servers hold is untouched, and the free list shrinks by exactly what was taken. */
  lemma HeldStep(w: World, s: State, e: Eid, n: State, m: Move, sid: Sid)
    requires KeysDrawn(s) && Fleet.Distinct(w.pool) && e in s.entries && DevicesMove(w, s, e, n, m)
    ensures sid < s.serial ==> Fleet.Held(n.rows, sid) == Fleet.Held(s.rows, sid)
    ensures m.launched ==> Fleet.Held(n.rows, s.serial) == m.taken
    ensures |Fleet.Free(w.pool, n.rows)| == |Fleet.Free(w.pool, s.rows)| - (if m.launched then Wants(w, s.entries[e]) else 0)
  {
    if m.launched {
      ReserveThenRelease(s.rows, m.taken, s.serial);
      FreeTaken(w.pool, s.rows, s.serial, m.taken);
      assert forall d | d in n.rows :: d in m.taken || (d in s.rows && n.rows[d] == s.rows[d]);
    }
  }

  lemma ServersStep(w: World, s: State, e: Eid, n: State, m: Move, o: Eid)
    requires KeysDrawn(s) && e in s.entries && DevicesMove(w, s, e, n, m)
    ensures ServersFor(n, o) == ServersFor(s, o) + if o == e && m.launched then {s.serial} else {}
  {
  }

  lemma OwnServerKept(w: World, s0: State, s: State, e: Eid, n: State, m: Move, o: Eid, sid: Sid)
    requires KeysDrawn(s) && e in s.entries && Fleet.Distinct(w.pool) && DevicesMove(w, s, e, n, m)
    requires o in s0.entries && OwnServer(w, s0, s, o, sid)
    ensures OwnServer(w, s0, n, o, sid)
  {
    HeldStep(w, s, e, n, m, sid);
  }

  lemma OtherEntryStep(w: World, s0: State, s: State, e: Eid, n: State, m: Move, o: Eid)
    requires KeysDrawn(s) && e in s.entries && Fleet.Distinct(w.pool) && Moves(w, s, e, n, m)
    requires o in s0.entries && o in s.entries && o != e && EntryOk(w, s0, s, o)
    ensures o in n.entries && EntryOk(w, s0, n, o)
  {
    assert n.entries[o] == s.entries[o];
    assert ServersFor(n, o) == ServersFor(s, o) by { ServersStep(w, s, e, n, m, o); }
    assert ChargesFor(n.charges, o) == ChargesFor(s.charges, o) by { ChargeCount(w, s, e, n, m.paid, o); }
    if s.entries[o].status != s0.entries[o].status && s.entries[o].status == Started {
      var sid :| ServersFor(s, o) == {sid} && OwnServer(w, s0, s, o, sid);
      OwnServerKept(w, s0, s, e, n, m, o, sid);
    }
  }

  lemma ChosenEntryStep(w: World, s0: State, s: State, e: Eid, n: State, m: Move)
    requires KeysDrawn(s) && s0.serial <= s.serial && e in Waiting(s) && Fleet.Distinct(w.pool) && Begins(s0)
    requires Moves(w, s, e, n, m) && e in s0.entries && EntryOk(w, s0, s, e)
    ensures e in n.entries && EntryOk(w, s0, n, e)
  {
    assert s.entries[e] == s0.entries[e] && e in Waiting(s0);
    assert ServersFor(n, e) == (if m.launched then {s.serial} else {}) by { ServersStep(w, s, e, n, m, e); }
    assert ChargesFor(n.charges, e) == (if m.paid then 1 else 0) by { ChargeCount(w, s, e, n, m.paid, e); }
    if m.launched {
      HeldStep(w, s, e, n, m, s.serial);
      assert ServersFor(n, e) == {s.serial} && OwnServer(w, s0, n, e, s.serial);
    }
  }

  lemma EntriesStep(w: World, s0: State, s: State, e: Eid, n: State, m: Move)
    requires KeysDrawn(s) && s0.serial <= s.serial && s.entries.Keys == s0.entries.Keys && e in Waiting(s)
    requires forall o | o in s0.entries :: EntryOk(w, s0, s, o)
    requires Begins(s0) && Fleet.Distinct(w.pool) && Moves(w, s, e, n, m)
    ensures n.entries.Keys == s0.entries.Keys && forall o | o in s0.entries :: EntryOk(w, s0, n, o)
  {
    forall o | o in s0.entries ensures EntryOk(w, s0, n, o) {
      if o == e {
        ChosenEntryStep(w, s0, s, e, n, m);
      } else {
        OtherEntryStep(w, s0, s, e, n, m, o);
      }
    }
  }

  lemma QueueShrinks(s: State, e: Eid, n: State, launched: bool)
    requires e in Waiting(s) && EntriesMove(s, e, n, launched)
    ensures |Waiting(n)| < |Waiting(s)|
  {
    assert Waiting(n) == Waiting(s) - {e};
  }

  lemma InvStep(w: World, s0: State, s: State, e: Eid, n: State, m: Move)
    requires Begins(s0) && Inv(w, s0, s) && e in Waiting(s) && Fleet.Distinct(w.pool)
    requires n.saved.Keys == n.entries.Keys && Moves(w, s, e, n, m)
    ensures Inv(w, s0, n)
  {
    assert KeysDrawn(n) && s0.serial <= n.serial by { KeysStep(w, s, e, n, m); }
    assert RowsOk(s0, n) by { RowsStep(w, s0, s, e, n, m); }
    assert MoneyOk(s0, n) by { MoneyStep(w, s0, s, e, n, m.paid); }
    EntriesStep(w, s0, s, e, n, m);
  }

  lemma InitiallyInv(w: World, s0: State)
    requires Begins(s0)
    ensures Inv(w, s0, s0)
  {
  }

  // ---------------------------------------------------------------------------------------
  // The pass
  // ---------------------------------------------------------------------------------------

  function TimedOut(s: State, now: int): set<Eid> {
    set e | e in Waiting(s) && s.entries[e].requested < now - QUEUE_TIMEOUT
  }

  function Cancel(entries: map<Eid, Entry>, es: set<Eid>): map<Eid, Entry> {
    map e | e in entries :: if e in es then entries[e].(status := Cancelled) else entries[e]
  }

  /** The state the loop starts from: entries that waited over an hour are cancelled. */
  function Opening(s: State, now: int): State {
    s.(entries := Cancel(s.entries, TimedOut(s, now)))
  }

  lemma CancelOne(entries: map<Eid, Entry>, es: set<Eid>, e: Eid)
    requires e in entries
    ensures var c := Cancel(entries, es); c[e := c[e].(status := Cancelled)] == Cancel(entries, es + {e})
  {
  }

  method CancelTimedOut(p: Pass, now: int) returns (count: nat)
    requires KeysDrawn(p.db)
    modifies p
    ensures p.db == Opening(old(p.db), now).(saved := p.db.saved) && p.db.saved.Keys == old(p.db.entries.Keys)
    ensures count == |TimedOut(old(p.db), now)|
  {
    var late := TimedOut(p.db, now);
    var rest := late;
    count := 0;
    assert Cancel(p.db.entries, {}) == p.db.entries && late - late == {};
    while rest != {}
      invariant rest <= late && count == |late| - |rest|
      invariant p.db == old(p.db).(entries := Cancel(old(p.db.entries), late - rest), saved := p.db.saved)
      invariant p.db.saved.Keys == old(p.db.entries.Keys)
      decreases |rest|
    {
      var e :| e in rest;
      CancelOne(old(p.db.entries), late - rest, e);
      assert (late - rest) + {e} == late - (rest - {e});
      p.db := p.db.(entries := p.db.entries[e := p.db.entries[e].(status := Cancelled)]);
      p.Notify(e);
      count := count + 1;
      rest := rest - {e};
    }
    assert late - {} == late;
  }

  lemma OpeningBegins(s: State, now: int)
    requires Begins(s)
    ensures Begins(Opening(s, now))
  {
    assert forall e | e in Waiting(Opening(s, now)) :: e in Waiting(s) && ServersFor(Opening(s, now), e) == ServersFor(s, e);
  }

  /** The accounts do not depend on what was committed at the start. */
  lemma SavedIrrelevant(w: World, s0: State, s: State)
    requires Begins(s0) && s == s0.(saved := s.saved) && s.saved.Keys == s.entries.Keys
    ensures Inv(w, s0, s)
  {
  }

  /** The log holds exactly the entries started so far, each once. */
  ghost predicate Logged(s0: State, s: State, log: seq<Eid>) {
    && s.entries.Keys == s0.entries.Keys
    && (forall i, j | 0 <= i < j < |log| :: log[i] != log[j])
    && (forall e :: e in log <==> e in Waiting(s0) && s.entries[e].status == Started)
  }

  /** Entries started so far, in order; what they took is what the free list lost. */
  ghost predicate LogOk(w: World, s0: State, s: State, log: seq<Eid>) {
    Logged(s0, s, log) && |Fleet.Free(w.pool, s.rows)| == |Fleet.Free(w.pool, s0.rows)| - DevicesTotal(w, s0, log)
  }

  lemma LoggedStep(s0: State, s: State, e: Eid, n: State, launched: bool, log: seq<Eid>)
    requires Logged(s0, s, log) && e in Waiting(s) && EntriesMove(s, e, n, launched) && s.entries[e] == s0.entries[e]
    ensures Logged(s0, n, if launched then log + [e] else log)
  {
    assert e !in log;
  }

  lemma LogStep(w: World, s0: State, s: State, e: Eid, n: State, m: Move, log: seq<Eid>)
    requires KeysDrawn(s) && Fleet.Distinct(w.pool) && e in Waiting(s) && LogOk(w, s0, s, log) && Moves(w, s, e, n, m)
    requires s.entries[e] == s0.entries[e]
    ensures LogOk(w, s0, n, if m.launched then log + [e] else log)
  {
    assert Logged(s0, n, if m.launched then log + [e] else log) by {
      LoggedStep(s0, s, e, n, m.launched, log);
    }
    assert |Fleet.Free(w.pool, n.rows)| == |Fleet.Free(w.pool, s.rows)| - (if m.launched then Wants(w, s.entries[e]) else 0) by {
      HeldStep(w, s, e, n, m, s.serial);
    }
    if m.launched {
      assert (log + [e])[..|log|] == log;
    }
  }

  lemma MoveAdvances(w: World, s0: State, s: State, e: Eid, n: State, m: Move, log: seq<Eid>)
    requires Begins(s0) && Inv(w, s0, s) && LogOk(w, s0, s, log) && Fleet.Distinct(w.pool)
    requires e in Waiting(s) && n.saved.Keys == s.entries.Keys && Moves(w, s, e, n, m)
    ensures Inv(w, s0, n) && LogOk(w, s0, n, if m.launched then log + [e] else log)
    ensures |Waiting(n)| < |Waiting(s)|
  {
    assert Inv(w, s0, n) by { InvStep(w, s0, s, e, n, m); }
    assert LogOk(w, s0, n, if m.launched then log + [e] else log) by {
      StillAsAtStart(w, s0, s, e);
      LogStep(w, s0, s, e, n, m, log);
    }
    QueueShrinks(s, e, n, m.launched);
  }

  lemma StillAsAtStart(w: World, s0: State, s: State, e: Eid)
    requires Inv(w, s0, s) && e in Waiting(s)
    ensures s.entries[e] == s0.entries[e]
  {
    assert EntryOk(w, s0, s, e);
  }

  lemma CommitKeepsInv(w: World, s0: State, s: State)
    requires Inv(w, s0, s)
    ensures Inv(w, s0, s.(saved := s.entries))
  {
    var n := s.(saved := s.entries);
    assert forall u :: Balance(n, u) == Balance(s, u);
    forall e | e in s0.entries ensures EntryOk(w, s0, n, e) {
      assert EntryOk(w, s0, s, e) && ServersFor(n, e) == ServersFor(s, e);
      if n.entries[e].status != s0.entries[e].status && n.entries[e].status == Started {
        var sid :| ServersFor(s, e) == {sid} && OwnServer(w, s0, s, e, sid);
        assert OwnServer(w, s0, n, e, sid);
      }
    }
  }

  // ---------------------------------------------------------------------------------------
  // Who starts
  // ---------------------------------------------------------------------------------------

  /** One turn of the loop: the entry and the states around it. */
  datatype Turn = Turn(e: Eid, before: State, after: State)

  /** The plan is on offer, the user is there, the quota and the balance allow it and devices are to be had. */
  predicate Admissible(w: World, s: State, e: Eid)
    requires e in s.entries && s.entries[e].plan in w.plans
  {
    var x, plan := s.entries[e], w.plans[s.entries[e].plan];
    && plan.active
    && x.user in w.users && w.users[x.user]
    && w.quota(s.servers, x.user, x.plan)
    && (w.credits && plan.cost > 0 ==> (if x.user in s.balance then s.balance[x.user] else 0) >= plan.cost)
    && (w.pool != [] && plan.gpus > 0 ==> |FleetService.Unheld(w.pool, s.rows)| >= plan.gpus)
  }

  /** And the payment and the spawn work. */
  predicate Deserves(w: World, s: State, e: Eid)
    requires e in s.entries && s.entries[e].plan in w.plans
  {
    Admissible(w, s, e) && (w.credits && w.plans[s.entries[e].plan].cost > 0 ==> !w.payFails(e)) && w.spawns(e)
  }

  lemma FateByFields(w: World, s: State, e: Eid)
    requires e in Fitting(w, s) && Fleet.Distinct(w.pool)
    ensures FateOf(w, s, e) == Launched <==> Deserves(w, s, e)
    ensures FateOf(w, s, e) == Unpaid || FateOf(w, s, e) == SpawnFailed <==> Admissible(w, s, e) && !Deserves(w, s, e)
  {
    FleetService.UnheldCount(w.pool, s.rows);
  }

  /**
   The entry's turn had come, by priority and then by age among those that fit, and it started
   exactly when it deserved to; a failure counts as a retry exactly when it came after the reservation.
   */
  ghost predicate FairTurn(w: World, t: Turn) {
    var s, e := t.before, t.e;
    && e in s.entries && s.entries[e].status == Pending && s.entries[e].plan in w.plans && w.fits(s.servers, s.entries[e].plan)
    && (forall o | o in s.entries && s.entries[o].status == Pending && s.entries[o].plan in w.plans && w.fits(s.servers, s.entries[o].plan) ::
          s.entries[o].priority < s.entries[e].priority
          || (s.entries[o].priority == s.entries[e].priority && s.entries[e].requested <= s.entries[o].requested))
    && e in t.after.entries
    && t.after.entries[e] == s.entries[e].(
         status := if Deserves(w, s, e) then Started else Failed,
         retries := s.entries[e].retries + if Admissible(w, s, e) && !Deserves(w, s, e) then 1 else 0)
  }

  lemma OutcomeByFate(w: World, s: State, e: Eid, n: State)
    requires e in Fitting(w, s) && s.saved.Keys == s.entries.Keys && Fleet.Distinct(w.pool) && n == Iterate(w, s, e, n.saved)
    ensures var fate := FateOf(w, s, e);
      && e in n.entries
      && n.entries[e] == s.entries[e].(
           status := if fate == Launched then Started else Failed,
           retries := s.entries[e].retries + if fate == Unpaid || fate == SpawnFailed then 1 else 0)
  {
    NeverRolledBack(w, s, e);
  }

  lemma TurnIsFair(w: World, s: State, e: Eid, n: State)
    requires Ready(w, s, e) && s.saved.Keys == s.entries.Keys && Fleet.Distinct(w.pool) && n == Iterate(w, s, e, n.saved)
    ensures FairTurn(w, Turn(e, s, n))
  {
    FateByFields(w, s, e);
    OutcomeByFate(w, s, e, n);
    forall o | o in s.entries && s.entries[o].status == Pending && s.entries[o].plan in w.plans && w.fits(s.servers, s.entries[o].plan)
      ensures s.entries[o].priority < s.entries[e].priority
        || (s.entries[o].priority == s.entries[e].priority && s.entries[e].requested <= s.entries[o].requested)
    {
      assert o in Fitting(w, s);
    }
  }

  predicate SameButSaved(a: State, b: State) {
    a == b.(saved := a.saved)
  }

  ghost predicate AllFair(w: World, turns: seq<Turn>) {
    forall i | 0 <= i < |turns| :: FairTurn(w, turns[i])
  }

  /** The state the i-th turn starts from. */
  function Prior(s0: State, turns: seq<Turn>, i: nat): State
    requires i <= |turns|
  {
    if i == 0 then s0 else turns[i - 1].after
  }

  /** The turns follow each other from s0 to s. */
  predicate Chained(s0: State, s: State, turns: seq<Turn>) {
    && (forall i | 0 <= i < |turns| :: SameButSaved(Prior(s0, turns, i), turns[i].before))
    && SameButSaved(Prior(s0, turns, |turns|), s)
  }

  /** Every entry ends as its turn left it … */
  predicate Final(s: State, turns: seq<Turn>) {
    forall i | 0 <= i < |turns| ::
      turns[i].e in s.entries && turns[i].e in turns[i].after.entries && s.entries[turns[i].e] == turns[i].after.entries[turns[i].e]
  }

  /** … and entries without a turn do not change. */
  ghost predicate Covered(s0: State, s: State, turns: seq<Turn>) {
    forall e | e in s0.entries && e in s.entries && s.entries[e] != s0.entries[e] :: exists i :: 0 <= i < |turns| && turns[i].e == e
  }

  lemma ChainStep(s0: State, s: State, e: Eid, n: State, turns: seq<Turn>)
    requires Chained(s0, s, turns)
    ensures Chained(s0, n, turns + [Turn(e, s, n)])
  {
    var longer := turns + [Turn(e, s, n)];
    forall i | 0 <= i < |longer| ensures SameButSaved(Prior(s0, longer, i), longer[i].before) {
      assert Prior(s0, longer, i) == Prior(s0, turns, i);
      if i < |turns| {
        assert longer[i] == turns[i];
      }
    }
  }

  lemma FinalStep(w: World, s: State, e: Eid, n: State, launched: bool, turns: seq<Turn>)
    requires Final(s, turns) && AllFair(w, turns) && e in Waiting(s) && EntriesMove(s, e, n, launched)
    ensures Final(n, turns + [Turn(e, s, n)])
  {
    forall i | 0 <= i < |turns| ensures turns[i].e != e {
      assert FairTurn(w, turns[i]);
    }
  }

  lemma CoveredStep(s0: State, s: State, e: Eid, n: State, launched: bool, turns: seq<Turn>)
    requires Covered(s0, s, turns) && e in s.entries && EntriesMove(s, e, n, launched)
    ensures Covered(s0, n, turns + [Turn(e, s, n)])
  {
    var longer := turns + [Turn(e, s, n)];
    forall o | o in s0.entries && o in n.entries && n.entries[o] != s0.entries[o] ensures exists i :: 0 <= i < |longer| && longer[i].e == o {
      if o == e {
        assert longer[|turns|].e == o;
      } else {
        var i :| 0 <= i < |turns| && turns[i].e == o;
        assert longer[i].e == o;
      }
    }
  }

  ghost predicate TurnsOk(w: World, s0: State, s: State, turns: seq<Turn>) {
    AllFair(w, turns) && Chained(s0, s, turns) && Final(s, turns) && Covered(s0, s, turns)
  }

  lemma TurnsStep(w: World, s0: State, s: State, e: Eid, n: State, launched: bool, turns: seq<Turn>)
    requires TurnsOk(w, s0, s, turns) && e in Waiting(s) && EntriesMove(s, e, n, launched) && FairTurn(w, Turn(e, s, n))
    ensures TurnsOk(w, s0, n, turns + [Turn(e, s, n)])
  {
    assert Chained(s0, n, turns + [Turn(e, s, n)]) by { ChainStep(s0, s, e, n, turns); }
    assert Final(n, turns + [Turn(e, s, n)]) by { FinalStep(w, s, e, n, launched, turns); }
    assert Covered(s0, n, turns + [Turn(e, s, n)]) by { CoveredStep(s0, s, e, n, launched, turns); }
  }

  /** Every charge is its entry's plan price, to its entry's user. */
  ghost predicate TariffOk(w: World, s0: State, s: State) {
    forall i | 0 <= i < |s.charges| :: var c := s.charges[i];
      && c.entry in s0.entries && c.user == s0.entries[c.entry].user
      && s0.entries[c.entry].plan in w.plans && c.amount == w.plans[s0.entries[c.entry].plan].cost
  }

  lemma TariffStep(w: World, s0: State, s: State, e: Eid, n: State, paid: bool)
    requires TariffOk(w, s0, s) && e in s.entries && e in s0.entries && s.entries[e] == s0.entries[e] && MoneyMoves(w, s, e, n, paid)
    ensures TariffOk(w, s0, n)
  {
  }

  /** Everything the loop keeps. */
  ghost predicate Progress(w: World, s0: State, s: State, log: seq<Eid>, turns: seq<Turn>) {
    Inv(w, s0, s) && LogOk(w, s0, s, log) && TariffOk(w, s0, s) && TurnsOk(w, s0, s, turns)
  }

  lemma ProgressBegins(w: World, s0: State, s: State)
    requires Begins(s0) && s == s0.(saved := s.saved) && s.saved.Keys == s.entries.Keys
    ensures Progress(w, s0, s, [], [])
  {
    SavedIrrelevant(w, s0, s);
  }

  lemma ProgressStep(w: World, s0: State, s: State, e: Eid, n: State, started: bool, log: seq<Eid>, turns: seq<Turn>)
    requires Begins(s0) && Progress(w, s0, s, log, turns) && Fleet.Distinct(w.pool)
    requires Ready(w, s, e) && Iterated(w, s, e, n, started)
    ensures Progress(w, s0, n, if started then log + [e] else log, turns + [Turn(e, s, n)])
    ensures |Waiting(n)| < |Waiting(s)|
  {
    var m := IterateMoves(w, s, e, n.saved);
    assert Inv(w, s0, n) && LogOk(w, s0, n, if started then log + [e] else log) && |Waiting(n)| < |Waiting(s)| by {
      MoveAdvances(w, s0, s, e, n, m, log);
    }
    assert TariffOk(w, s0, n) by {
      StillAsAtStart(w, s0, s, e);
      TariffStep(w, s0, s, e, n, m.paid);
    }
    assert TurnsOk(w, s0, n, turns + [Turn(e, s, n)]) by {
      TurnIsFair(w, s, e, n);
      TurnsStep(w, s0, s, e, n, m.launched, turns);
    }
  }

  lemma ProgressEnds(w: World, s0: State, s: State, log: seq<Eid>, turns: seq<Turn>)
    requires Progress(w, s0, s, log, turns)
    ensures Progress(w, s0, s.(saved := s.entries), log, turns)
  {
    var n := s.(saved := s.entries);
    assert Inv(w, s0, n) by { CommitKeepsInv(w, s0, s); }
    assert LogOk(w, s0, n, log) by { CommitKeepsLog(w, s0, s, log); }
    assert TurnsOk(w, s0, n, turns) by { CommitKeepsTurns(w, s0, s, turns); }
  }

  lemma CommitKeepsLog(w: World, s0: State, s: State, log: seq<Eid>)
    requires LogOk(w, s0, s, log)
    ensures LogOk(w, s0, s.(saved := s.entries), log)
  {
  }

  lemma CommitKeepsTurns(w: World, s0: State, s: State, turns: seq<Turn>)
    requires TurnsOk(w, s0, s, turns)
    ensures TurnsOk(w, s0, s.(saved := s.entries), turns)
  {
  }

  /** One round of the loop: the next entry, if any fits, gets its turn. */
  method Round(p: Pass, ghost s0: State, ghost log: seq<Eid>, ghost turns: seq<Turn>)
    returns (more: bool, ok: bool, ghost log': seq<Eid>, ghost turns': seq<Turn>)
    requires Begins(s0) && Fleet.Distinct(p.w.pool) && Progress(p.w, s0, p.db, log, turns)
    modifies p
    ensures Progress(p.w, s0, p.db, log', turns') && |log'| == |log| + if ok then 1 else 0
    ensures if more then |Waiting(p.db)| < |Waiting(old(p.db))| else p.db == old(p.db) && !ok && Fitting(p.w, p.db) == {}
  {
    log', turns' := log, turns;
    var next := p.NextInQueue();
    if next.None? {
      return false, false, log, turns;
    }
    more := true;
    ghost var s := p.db;
    ok := p.TryStart(next.value);
    ProgressStep(p.w, s0, s, next.value, p.db, ok, log, turns);
    turns' := turns + [Turn(next.value, s, p.db)];
    log' := if ok then log + [next.value] else log;
  }

  /**
   process_server_queue. The loop ends because every iteration takes one entry out of the queue
   for good; the condition on the pool is what makes that so (see Livelock).
   */
  method Process(p: Pass, now: int) returns (started: nat, timedOut: nat, ghost log: seq<Eid>, ghost turns: seq<Turn>)
    requires Begins(p.db) && Fleet.Distinct(p.w.pool)
    modifies p
    ensures timedOut == |TimedOut(old(p.db), now)|
    ensures Progress(p.w, Opening(old(p.db), now), p.db, log, turns)
    ensures Fitting(p.w, p.db) == {} && p.db.saved == p.db.entries && started == |log|
  {
    ghost var s0 := Opening(p.db, now);
    OpeningBegins(p.db, now);
    started, log, turns := 0, [], [];
    timedOut := CancelTimedOut(p, now);
    ProgressBegins(p.w, s0, p.db);
    var more, ok := true, false;
    while more
      invariant Progress(p.w, s0, p.db, log, turns) && started == |log|
      invariant more || Fitting(p.w, p.db) == {}
      decreases more, |Waiting(p.db)|
    {
      more, ok, log, turns := Round(p, s0, log, turns);
      if ok {
        started := started + 1;
      }
    }
    ProgressEnds(p.w, s0, p.db, log, turns);
    p.Commit();
  }

  /** An entry is cancelled in the opening exactly when it has been pending for more than an hour. */
  lemma CancelledAfterAnHour(s: State, now: int, e: Eid)
    requires e in s.entries
    ensures e in Opening(s, now).entries
    ensures Opening(s, now).entries[e] ==
      if s.entries[e].status == Pending && s.entries[e].requested < now - 3600 then s.entries[e].(status := Cancelled) else s.entries[e]
  {
  }

  /** So every entry that starts deserved it at its turn, and every entry whose turn came and deserved it starts. */
  lemma StartedIffDeserved(w: World, s0: State, s: State, log: seq<Eid>, turns: seq<Turn>, e: Eid)
    requires Progress(w, s0, s, log, turns) && e in s0.entries && s0.entries[e].status == Pending
    ensures e in s.entries
    ensures s.entries[e].status == Started <==>
      exists i :: 0 <= i < |turns| && turns[i].e == e && e in turns[i].before.entries && turns[i].before.entries[e].plan in w.plans && Deserves(w, turns[i].before, e)
  {
    if s.entries[e].status == Started {
      var i :| 0 <= i < |turns| && turns[i].e == e;
      assert FairTurn(w, turns[i]);
    }
    if i :| 0 <= i < |turns| && turns[i].e == e && e in turns[i].before.entries && turns[i].before.entries[e].plan in w.plans && Deserves(w, turns[i].before, e) {
      assert FairTurn(w, turns[i]);
    }
  }

  // ---------------------------------------------------------------------------------------
  // What the accounts mean
  // ---------------------------------------------------------------------------------------

  /** At the end every device taken in the pass is held by the one server of an entry that started. */
  lemma DevicesOnlyWithStarted(w: World, s0: State, s: State, d: Device)
    requires Begins(s0) && Inv(w, s0, s) && d in s.rows && d !in s0.rows
    ensures exists e :: e in Waiting(s0) && s.entries[e].status == Started && ServersFor(s, e) == {s.rows[d]}
  {
    var sid := s.rows[d];
    var e := s.servers[sid].entry.value;
    assert sid in ServersFor(s, e) && sid !in ServersFor(s0, e);
    assert EntryOk(w, s0, s, e);
  }

  /** Held and free devices make up the pool, whatever the table says. */
  lemma {:induction false} HeldPlusFree(pool: seq<Device>, rows: map<Device, Sid>)
    requires Fleet.Distinct(pool)
    ensures |Fleet.Free(pool, rows)| + |set d | d in pool && d in rows| == |pool|
    decreases |pool|
  {
    var held := set d | d in pool && d in rows;
    if pool == [] {
      assert held == {};
    } else {
      HeldPlusFree(pool[1..], rows);
      var rest := set d | d in pool[1..] && d in rows;
      assert pool[0] !in pool[1..];
      if pool[0] in rows {
        assert held == rest + {pool[0]};
      } else {
        assert held == rest;
      }
    }
  }

  // ---------------------------------------------------------------------------------------
  // When the loop ends
  // ---------------------------------------------------------------------------------------

  /** The loop goes round for ever through these states, starting these entries. */
  ghost predicate Forever(w: World, run: nat -> State, picks: nat -> Eid) {
    forall i: nat :: RoundTrip(w, run(i), picks(i), run(i + 1))
  }

  ghost predicate RoundTrip(w: World, s: State, e: Eid, n: State) {
    && s.saved.Keys == s.entries.Keys && Ready(w, s, e)
    && n == Iterate(w, s, e, n.saved) && n.saved.Keys == s.entries.Keys
    && (FateOf(w, s, e) == RolledBack ==> n.saved == s.saved)
  }

  lemma {:induction false} Countdown(w: World, run: nat -> State, picks: nat -> Eid, i: nat)
    requires Fleet.Distinct(w.pool) && Forever(w, run, picks)
    ensures |Waiting(run(i))| + i <= |Waiting(run(0))|
  {
    if i > 0 {
      Countdown(w, run, picks, i - 1);
      var s, e := run(i - 1), picks(i - 1);
      assert RoundTrip(w, s, e, run(i - 1 + 1));
      var m := IterateMoves(w, s, e, run(i).saved);
      QueueShrinks(s, e, run(i), m.launched);
    }
  }

  /** If the pool lists no device twice, no queue keeps the loop going for ever … */
  lemma AlwaysEnds(w: World, run: nat -> State, picks: nat -> Eid)
    requires Fleet.Distinct(w.pool)
    ensures !Forever(w, run, picks)
  {
    if Forever(w, run, picks) {
      Countdown(w, run, picks, |Waiting(run(0))| + 1);
    }
  }

  function Trapped(i: nat): State {
    var first, second := Entry(0, 0, 1, 0, Pending, 0), Entry(0, 0, 0, 0, Pending, 0);
    var saved := map[0 := first, 1 := second];
    var entries := if i == 0 then saved else if i % 2 == 1 then Fail(saved, 0, 0) else Fail(saved, 1, 0);
    State(entries, saved, map[], map[], map[], [], i)
  }

  function Trap(pool: seq<Device>): World {
    World(pool, map[0 := Plan(true, 0, |pool|)], map[0 := true], false, (_, _) => true, (_, _, _) => true, _ => false, _ => true, _ => true)
  }

  /**
   … and if it does, some queue does: each failed reservation rolls back the failure recorded
   for the other entry, which is then tried again.
   */
  lemma Livelock(pool: seq<Device>)
    requires !Fleet.Distinct(pool)
    ensures Begins(Trapped(0)) && Forever(Trap(pool), Trapped, (i: nat) => i % 2)
  {
    var w := Trap(pool);
    forall i: nat ensures RoundTrip(w, Trapped(i), i % 2, Trapped(i + 1)) {
      TrapTurns(pool, i);
    }
  }

  lemma TrapWaits(i: nat)
    ensures Waiting(Trapped(i)) == if i == 0 then {0, 1} else {i % 2}
  {
  }

  lemma TrapRollsBack(pool: seq<Device>, i: nat)
    requires !Fleet.Distinct(pool)
    ensures Ready(Trap(pool), Trapped(i), i % 2) && FateOf(Trap(pool), Trapped(i), i % 2) == RolledBack
  {
    TrapWaits(i);
    Fleet.AllFree(pool);
    assert pool[..|pool|] == pool;
  }

  lemma TrapTurns(pool: seq<Device>, i: nat)
    requires !Fleet.Distinct(pool)
    ensures RoundTrip(Trap(pool), Trapped(i), i % 2, Trapped(i + 1))
  {
    TrapRollsBack(pool, i);
  }
}
