/**
 The quarter-hour billing pass (backend/app/tasks.py, process_nuke_billing) over the credit
 ledger (backend/app/services/credit_service.py, _create_transaction, consume_credits and
 reconcile_server_billing). Times are microseconds and amounts exact integers.
 */
module Billing {
  import opened Common

  type Sid = nat
  type User = nat

  const HOUR := 3_600_000_000

  datatype Server = Server(user: User, cost: int, running: bool, container: Option<nat>, total: int, startedAt: Option<int>, stoppedAt: Option<int>)

  datatype Tx = Tx(user: User, amount: int, balanceAfter: int, server: Sid)

  datatype State = State(servers: map<Sid, Server>, balance: map<User, int>, ledger: seq<Tx>)

  /** Settings and what the runtime answers: a delete that fails or raises leaves the container. */
  datatype World = World(autoStop: bool, deletes: Sid -> bool, now: int)

  function Balance(s: State, u: User): int {
    if u in s.balance then s.balance[u] else 0
  }

  /** A quarter of the hourly cost, truncated, and at least one credit. */
  function Tick(cost: int): (t: int)
    requires cost > 0
    ensures t >= 1 && -3 <= 4 * t - cost <= 3
    ensures cost % 4 == 0 ==> 4 * t == cost
    ensures 4 * t <= cost || t == 1
  {
    if cost / 4 <= 0 then 1 else cost / 4
  }

  // ---------------------------------------------------------------------------------------
  // The ledger
  // ---------------------------------------------------------------------------------------

  /** consume_credits takes the amount or raises without effect. */
  predicate CanConsume(s: State, u: User, amount: int) {
    u in s.balance && s.balance[u] >= amount
  }

  function Consumed(s: State, sid: Sid, amount: int): State
    requires sid in s.servers && CanConsume(s, s.servers[sid].user, amount)
  {
    var x := s.servers[sid];
    s.(balance := s.balance[x.user := s.balance[x.user] - amount],
       ledger := s.ledger + [Tx(x.user, -amount, s.balance[x.user] - amount, sid)],
       servers := s.servers[sid := x.(total := x.total + amount)])
  }

  /** The cost of the whole run, truncated, and at least one credit. */
  function Exact(cost: int, micros: int): int {
    if micros * cost / HOUR <= 0 then 1 else micros * cost / HOUR
  }

  /** What reconciling a stopped server still takes. */
  function Owed(s: State, sid: Sid): int
    requires sid in s.servers
  {
    var x := s.servers[sid];
    if x.startedAt.None? || x.stoppedAt.None? || x.cost <= 0 || x.stoppedAt.value <= x.startedAt.value then 0
    else Max(0, Min(Exact(x.cost, x.stoppedAt.value - x.startedAt.value) - x.total, Balance(s, x.user)))
  }

  // ---------------------------------------------------------------------------------------
  // One server's turn
  // ---------------------------------------------------------------------------------------

  datatype Outcome = Unpriced | Billed | StoppedNow | Unbilled

  function OutcomeOf(w: World, s: State, sid: Sid): Outcome
    requires sid in s.servers
  {
    var x := s.servers[sid];
    if x.cost <= 0 then Unpriced
    else if Balance(s, x.user) <= 0 then (if w.autoStop && w.deletes(sid) then StoppedNow else Unbilled)
    else if Balance(s, x.user) >= Tick(x.cost) then Billed
    else Unbilled
  }

  function Turn(w: World, s: State, sid: Sid): State
    requires sid in s.servers
  {
    var x := s.servers[sid];
    match OutcomeOf(w, s, sid)
    case Billed => Consumed(s, sid, Tick(x.cost))
    case StoppedNow => s.(servers := s.servers[sid := x.(running := false, container := None, stoppedAt := Some(w.now))])
    case _ => s
  }

  function Turns(w: World, s: State, sids: seq<Sid>): State
    requires forall sid | sid in sids :: sid in s.servers
  {
    if sids == [] then s else
      var t := Turns(w, s, sids[..|sids| - 1]);
      if sids[|sids| - 1] in t.servers then Turn(w, t, sids[|sids| - 1]) else t
  }

  // ---------------------------------------------------------------------------------------
  // The code
  // ---------------------------------------------------------------------------------------

  class Biller {
    var db: State

    /** consume_credits, and the caller's update of total_cost once it has succeeded. */
    method Consume(sid: Sid, amount: int) returns (ok: bool)
      requires sid in db.servers
      modifies this
      ensures ok == CanConsume(old(db), old(db).servers[sid].user, amount)
      ensures db == if ok then Consumed(old(db), sid, amount) else old(db)
    {
      var x := db.servers[sid];
      if x.user !in db.balance || db.balance[x.user] - amount < 0 {
        return false;
      }
      var left := db.balance[x.user] - amount;
      db := db.(balance := db.balance[x.user := left], ledger := db.ledger + [Tx(x.user, -amount, left, sid)]);
      db := db.(servers := db.servers[sid := x.(total := x.total + amount)]);
      ok := true;
    }

    /** reconcile_server_billing: the rest of the exact cost, or as much of it as there is. */
    method Reconcile(sid: Sid) returns (taken: int)
      requires sid in db.servers
      modifies this
      ensures taken == Owed(old(db), sid)
      ensures db == if taken > 0 then Consumed(old(db), sid, taken) else old(db)
    {
      var x := db.servers[sid];
      if x.startedAt.None? || x.stoppedAt.None? || x.cost <= 0 {
        return 0;
      }
      var micros := x.stoppedAt.value - x.startedAt.value;
      if micros <= 0 {
        return 0;
      }
      var additional := Exact(x.cost, micros) - x.total;
      if additional <= 0 {
        return 0;
      }
      var balance := Balance(db, x.user);
      if balance >= additional {
        var _ := Consume(sid, additional);
        return additional;
      }
      if balance > 0 {
        var _ := Consume(sid, balance);
        return balance;
      }
      taken := 0;
    }

    method BillOne(w: World, sid: Sid) returns (o: Outcome)
      requires sid in db.servers
      modifies this
      ensures o == OutcomeOf(w, old(db), sid) && db == Turn(w, old(db), sid)
    {
      var x := db.servers[sid];
      if x.cost <= 0 {
        return Unpriced;
      }
      if Balance(db, x.user) <= 0 {
        if w.autoStop && w.deletes(sid) {
          db := db.(servers := db.servers[sid := x.(running := false, container := None, stoppedAt := Some(w.now))]);
          var taken := Reconcile(sid);
          return StoppedNow;
        }
        return Unbilled;
      }
      var ok := Consume(sid, Tick(x.cost));
      o := if ok then Billed else Unbilled;
    }

    /** The pass over the running servers it listed at its start. */
    method Bill(w: World, sids: seq<Sid>) returns (billed: nat, stopped: nat)
      requires forall sid | sid in sids :: sid in db.servers
      modifies this
      ensures db == Turns(w, old(db), sids)
      ensures billed == Count(w, old(db), sids, Billed) && stopped == Count(w, old(db), sids, StoppedNow)
    {
      billed, stopped := 0, 0;
      for i := 0 to |sids|
        invariant db == Turns(w, old(db), sids[..i]) && db.servers.Keys == old(db).servers.Keys
        invariant billed == Count(w, old(db), sids[..i], Billed) && stopped == Count(w, old(db), sids[..i], StoppedNow)
      {
        assert sids[..i + 1][..i] == sids[..i] && sids[i] in sids;
        var o := BillOne(w, sids[i]);
        if o == Billed {
          billed := billed + 1;
        }
        if o == StoppedNow {
          stopped := stopped + 1;
        }
      }
      assert sids[..|sids|] == sids;
    }
  }

  function Count(w: World, s: State, sids: seq<Sid>, o: Outcome): nat
    requires forall sid | sid in sids :: sid in s.servers
  {
    if sids == [] then 0 else
      var last, t := sids[|sids| - 1], Turns(w, s, sids[..|sids| - 1]);
      Count(w, s, sids[..|sids| - 1], o) + if last in t.servers && OutcomeOf(w, t, last) == o then 1 else 0
  }

  // ---------------------------------------------------------------------------------------
  // Conservation
  // ---------------------------------------------------------------------------------------

  /** What the listed servers of a user have been charged. */
  function TotalOf(s: State, sids: seq<Sid>, u: User): int {
    if sids == [] then 0 else
      var last := sids[|sids| - 1];
      TotalOf(s, sids[..|sids| - 1], u) + if last in s.servers && s.servers[last].user == u then s.servers[last].total else 0
  }

  predicate Distinct(sids: seq<Sid>) {
    forall i, j | 0 <= i < j < |sids| :: sids[i] != sids[j]
  }

  /** `n` differs from `s` in one server, whose total rose by `delta`. */
  ghost predicate OnlyTotal(s: State, n: State, sid: Sid, delta: int) {
    && sid in s.servers && n.servers.Keys == s.servers.Keys
    && (forall o | o in s.servers && o != sid :: n.servers[o] == s.servers[o])
    && n.servers[sid].user == s.servers[sid].user && n.servers[sid].total == s.servers[sid].total + delta
  }

  lemma {:induction false} TotalMoves(s: State, n: State, sid: Sid, delta: int, sids: seq<Sid>, u: User)
    requires OnlyTotal(s, n, sid, delta) && Distinct(sids)
    ensures TotalOf(n, sids, u) == TotalOf(s, sids, u) + if sid in sids && s.servers[sid].user == u then delta else 0
    decreases |sids|
  {
    if sids != [] {
      var last, rest := sids[|sids| - 1], sids[..|sids| - 1];
      TotalMoves(s, n, sid, delta, rest, u);
      assert sids == rest + [last];
      assert last !in rest;
    }
  }

  /** Credits a user still has plus credits charged to the user's servers. */
  function Wealth(s: State, all: seq<Sid>, u: User): int {
    Balance(s, u) + TotalOf(s, all, u)
  }

  lemma TurnConserves(w: World, s: State, sid: Sid, all: seq<Sid>, u: User)
    requires sid in s.servers && sid in all && Distinct(all)
    ensures Wealth(Turn(w, s, sid), all, u) == Wealth(s, all, u)
    ensures Turn(w, s, sid).servers.Keys == s.servers.Keys
    ensures Balance(s, u) >= 0 ==> Balance(Turn(w, s, sid), u) >= 0
  {
    var n, x := Turn(w, s, sid), s.servers[sid];
    match OutcomeOf(w, s, sid)
    case Billed =>
      assert CanConsume(s, x.user, Tick(x.cost));
      TotalMoves(s, n, sid, Tick(x.cost), all, u);
    case StoppedNow => TotalMoves(s, n, sid, 0, all, u);
    case _ =>
  }

  /** Over a pass, what a user's balance loses is what the totals of the user's servers gain. */
  lemma {:induction false} PassConserves(w: World, s: State, sids: seq<Sid>, all: seq<Sid>, u: User)
    requires forall sid | sid in sids :: sid in s.servers && sid in all
    requires Distinct(all)
    ensures Wealth(Turns(w, s, sids), all, u) == Wealth(s, all, u)
    ensures Turns(w, s, sids).servers.Keys == s.servers.Keys
    ensures Balance(s, u) >= 0 ==> Balance(Turns(w, s, sids), u) >= 0
    decreases |sids|
  {
    if sids != [] {
      var last := sids[|sids| - 1];
      PassConserves(w, s, sids[..|sids| - 1], all, u);
      assert last in sids;
      TurnConserves(w, Turns(w, s, sids[..|sids| - 1]), last, all, u);
    }
  }

  /** What a turn can make of a server. */
  ghost predicate Treated(w: World, sid: Sid, x: Server, y: Server) {
    || y == x
    || (x.cost > 0 && y == x.(total := x.total + Tick(x.cost)))
    || (x.cost > 0 && w.autoStop && w.deletes(sid) && y == x.(running := false, container := None, stoppedAt := Some(w.now)))
  }

  /** A turn bills whoever can pay a tick, stops whoever has nothing left if stopping is on and works, and else does nothing. */
  lemma TurnByFields(w: World, s: State, sid: Sid)
    requires sid in s.servers
    ensures var x, n := s.servers[sid], Turn(w, s, sid);
      var balance := if x.user in s.balance then s.balance[x.user] else 0;
      if x.cost > 0 && balance >= Tick(x.cost) then
        && n.servers == s.servers[sid := x.(total := x.total + Tick(x.cost))]
        && n.balance == s.balance[x.user := balance - Tick(x.cost)]
      else
        && n.balance == s.balance && n.ledger == s.ledger
        && n.servers == if x.cost > 0 && balance <= 0 && w.autoStop && w.deletes(sid)
                        then s.servers[sid := x.(running := false, container := None, stoppedAt := Some(w.now))] else s.servers
  {
  }

  lemma TurnTreats(w: World, s: State, last: Sid, sid: Sid)
    requires last in s.servers && sid in s.servers
    ensures sid in Turn(w, s, last).servers
    ensures if sid == last then Treated(w, sid, s.servers[sid], Turn(w, s, last).servers[sid]) else Turn(w, s, last).servers[sid] == s.servers[sid]
  {
  }

  /** Each server had exactly one turn: billed one tick, stopped without charge, or left as it was. */
  lemma {:induction false} OneTurnEach(w: World, s: State, sids: seq<Sid>, sid: Sid)
    requires (forall x | x in sids :: x in s.servers) && Distinct(sids) && sid in s.servers
    ensures sid in Turns(w, s, sids).servers
    ensures Treated(w, sid, s.servers[sid], Turns(w, s, sids).servers[sid])
    ensures sid !in sids ==> Turns(w, s, sids).servers[sid] == s.servers[sid]
    decreases |sids|
  {
    if sids != [] {
      var last, rest := sids[|sids| - 1], sids[..|sids| - 1];
      assert sids == rest + [last] && last !in rest && last in sids;
      OneTurnEach(w, s, rest, sid);
      OneTurnEach(w, s, rest, last);
      TurnTreats(w, Turns(w, s, rest), last, sid);
    }
  }

  // ---------------------------------------------------------------------------------------
  // The exact cost and the ledger
  // ---------------------------------------------------------------------------------------

  /** The exact cost is the hourly rate for the time run, rounded down to a credit but not below one. */
  lemma ExactRate(cost: int, micros: int)
    requires cost > 0 && micros > 0
    ensures var e := Exact(cost, micros);
      && e >= 1 && micros * cost < (e + 1) * 3_600_000_000
      && (e * 3_600_000_000 <= micros * cost || e == 1)
    ensures Exact(cost, 3_600_000_000) == cost
  {
    assert 3_600_000_000 * cost / 3_600_000_000 == cost;
  }

  /** What ledger entries from `from` on sum up to for a user. */
  function Posted(ledger: seq<Tx>, from: nat, u: User): int
    requires from <= |ledger|
    decreases |ledger|
  {
    if |ledger| == from then 0 else
      Posted(ledger[..|ledger| - 1], from, u) + if ledger[|ledger| - 1].user == u then ledger[|ledger| - 1].amount else 0
  }

  /** The ledger only grows, its new entries explain every balance, and each tells the balance it left. */
  ghost predicate Booked(s0: State, s: State) {
    && |s0.ledger| <= |s.ledger| && s.ledger[..|s0.ledger|] == s0.ledger
    && (forall u :: Balance(s, u) == Balance(s0, u) + Posted(s.ledger, |s0.ledger|, u))
    && (forall i | |s0.ledger| <= i < |s.ledger| ::
          s.ledger[i].balanceAfter == Balance(s0, s.ledger[i].user) + Posted(s.ledger[..i + 1], |s0.ledger|, s.ledger[i].user))
  }

  lemma PostOne(ledger: seq<Tx>, x: Tx, from: nat, u: User)
    requires from <= |ledger|
    ensures Posted(ledger + [x], from, u) == Posted(ledger, from, u) + if x.user == u then x.amount else 0
  {
    assert (ledger + [x])[..|ledger|] == ledger;
  }

  lemma ConsumeIsBooked(s0: State, s: State, sid: Sid, amount: int)
    requires Booked(s0, s) && sid in s.servers && CanConsume(s, s.servers[sid].user, amount)
    ensures Booked(s0, Consumed(s, sid, amount))
  {
    var n, user := Consumed(s, sid, amount), s.servers[sid].user;
    var x := n.ledger[|s.ledger|];
    assert n.ledger == s.ledger + [x];
    forall u ensures Balance(n, u) == Balance(s0, u) + Posted(n.ledger, |s0.ledger|, u) {
      PostOne(s.ledger, x, |s0.ledger|, u);
      assert Balance(s, u) == Balance(s0, u) + Posted(s.ledger, |s0.ledger|, u);
    }
    forall i | |s0.ledger| <= i < |n.ledger|
      ensures n.ledger[i].balanceAfter == Balance(s0, n.ledger[i].user) + Posted(n.ledger[..i + 1], |s0.ledger|, n.ledger[i].user)
    {
      if i < |s.ledger| {
        assert n.ledger[..i + 1] == s.ledger[..i + 1] && n.ledger[i] == s.ledger[i];
      } else {
        assert n.ledger[..i + 1] == n.ledger;
        assert Balance(n, user) == Balance(s, user) - amount;
      }
    }
  }

  /** After a pass every change of a balance is in the ledger, with the balance it left. */
  lemma {:induction false} PassIsBooked(w: World, s: State, sids: seq<Sid>)
    requires forall x | x in sids :: x in s.servers
    ensures Booked(s, Turns(w, s, sids))
    decreases |sids|
  {
    if sids == [] {
      assert s.ledger[..|s.ledger|] == s.ledger;
    } else {
      var last, t := sids[|sids| - 1], Turns(w, s, sids[..|sids| - 1]);
      PassIsBooked(w, s, sids[..|sids| - 1]);
      if last in t.servers {
        if OutcomeOf(w, t, last) == Billed {
          ConsumeIsBooked(s, t, last, Tick(t.servers[last].cost));
        } else {
          var n := Turn(w, t, last);
          assert n.balance == t.balance && n.ledger == t.ledger;
          assert forall u :: Balance(n, u) == Balance(t, u);
        }
      }
    }
  }

  /** What ledger entries from `from` on sum up to for a server. */
  function PostedFor(ledger: seq<Tx>, from: nat, sid: Sid): int
    requires from <= |ledger|
    decreases |ledger|
  {
    if |ledger| == from then 0 else
      PostedFor(ledger[..|ledger| - 1], from, sid) + if ledger[|ledger| - 1].server == sid then ledger[|ledger| - 1].amount else 0
  }

  /** Every server's total rose by what the new entries that name it took. */
  ghost predicate Attributed(s0: State, s: State) {
    && |s0.ledger| <= |s.ledger| && s.servers.Keys == s0.servers.Keys
    && forall sid | sid in s0.servers :: s.servers[sid].total == s0.servers[sid].total - PostedFor(s.ledger, |s0.ledger|, sid)
  }

  lemma ConsumeIsAttributed(s0: State, s: State, sid: Sid, amount: int)
    requires Attributed(s0, s) && sid in s.servers && CanConsume(s, s.servers[sid].user, amount)
    ensures Attributed(s0, Consumed(s, sid, amount))
  {
    var n := Consumed(s, sid, amount);
    assert n.ledger[..|s.ledger|] == s.ledger;
    assert n.servers.Keys == s.servers.Keys;
  }

  /** A pass charges each server through the ledger entries that name it. */
  lemma {:induction false} PassIsAttributed(w: World, s: State, sids: seq<Sid>)
    requires forall x | x in sids :: x in s.servers
    ensures Attributed(s, Turns(w, s, sids))
    decreases |sids|
  {
    if sids != [] {
      var last, t := sids[|sids| - 1], Turns(w, s, sids[..|sids| - 1]);
      PassIsAttributed(w, s, sids[..|sids| - 1]);
      assert last in sids;
      if OutcomeOf(w, t, last) == Billed {
        ConsumeIsAttributed(s, t, last, Tick(t.servers[last].cost));
      } else {
        var n := Turn(w, t, last);
        assert n.ledger == t.ledger && n.servers.Keys == t.servers.Keys;
        assert forall sid | sid in t.servers :: n.servers[sid].total == t.servers[sid].total;
      }
    }
  }

  /** A stop for depleted credits takes nothing, whatever is still owed. */
  lemma DepletionTakesNothing(s: State, sid: Sid)
    requires sid in s.servers && Balance(s, s.servers[sid].user) <= 0
    ensures Owed(s, sid) == 0
  {
  }

  /** After reconciling, the exact cost is covered or the balance is used up; nothing beyond the cost is taken. */
  lemma ReconcileCovers(s: State, sid: Sid)
    requires sid in s.servers && s.servers[sid].cost > 0 && s.servers[sid].startedAt.Some? && s.servers[sid].stoppedAt.Some?
    requires s.servers[sid].stoppedAt.value > s.servers[sid].startedAt.value
    ensures var x := s.servers[sid]; var exact := Exact(x.cost, x.stoppedAt.value - x.startedAt.value);
      && 0 <= Owed(s, sid) && (x.total + Owed(s, sid) >= exact || Balance(s, x.user) - Owed(s, sid) <= 0)
      && (Owed(s, sid) > 0 ==> x.total + Owed(s, sid) <= exact && Owed(s, sid) <= Balance(s, x.user))
  {
  }

  /** Reconciling conserves too, never overdraws, and settles a server whose cost is covered. */
  lemma ReconcileSettles(s: State, sid: Sid, all: seq<Sid>, u: User)
    requires sid in s.servers && sid in all && Distinct(all) && Owed(s, sid) > 0
    ensures CanConsume(s, s.servers[sid].user, Owed(s, sid))
    ensures var n, x := Consumed(s, sid, Owed(s, sid)), s.servers[sid];
      && Wealth(n, all, u) == Wealth(s, all, u)
      && Balance(n, x.user) >= 0
      && (Balance(n, x.user) > 0 ==> n.servers[sid].total == Exact(x.cost, x.stoppedAt.value - x.startedAt.value))
      && Owed(n, sid) == 0
  {
    TotalMoves(s, Consumed(s, sid, Owed(s, sid)), sid, Owed(s, sid), all, u);
  }

  // ---------------------------------------------------------------------------------------
  // A balance that no tick fits into
  // ---------------------------------------------------------------------------------------

  /** Left running and unbilled, with stopping switched on and working, exactly when 0 < balance < tick. */
  lemma FreeRideIff(w: World, s: State, sid: Sid)
    requires sid in s.servers && s.servers[sid].cost > 0 && w.autoStop && w.deletes(sid)
    ensures OutcomeOf(w, s, sid) == Unbilled <==> 0 < Balance(s, s.servers[sid].user) < Tick(s.servers[sid].cost)
  {
  }

  ghost predicate Stuck(s: State, u: User) {
    0 < Balance(s, u) && forall sid | sid in s.servers && s.servers[sid].user == u && s.servers[sid].cost > 0 :: Balance(s, u) < Tick(s.servers[sid].cost)
  }

  /** Such a user's servers run on for nothing through every pass, and no pass can change that. */
  lemma {:induction false} StuckThroughPasses(w: World, s: State, sids: seq<Sid>, u: User)
    requires (forall x | x in sids :: x in s.servers) && Stuck(s, u)
    ensures Stuck(Turns(w, s, sids), u) && Balance(Turns(w, s, sids), u) == Balance(s, u)
    ensures Turns(w, s, sids).servers.Keys == s.servers.Keys
    ensures forall sid | sid in s.servers && s.servers[sid].user == u :: Turns(w, s, sids).servers[sid] == s.servers[sid]
    decreases |sids|
  {
    if sids != [] {
      var last, rest := sids[|sids| - 1], sids[..|sids| - 1];
      StuckThroughPasses(w, s, rest, u);
      assert last in sids;
      StuckTurn(w, Turns(w, s, rest), last, u);
    }
  }

  lemma StuckTurn(w: World, s: State, sid: Sid, u: User)
    requires sid in s.servers && Stuck(s, u)
    ensures Stuck(Turn(w, s, sid), u) && Balance(Turn(w, s, sid), u) == Balance(s, u)
    ensures Turn(w, s, sid).servers.Keys == s.servers.Keys
    ensures forall o | o in s.servers :: Turn(w, s, sid).servers[o].user == s.servers[o].user
    ensures forall o | o in s.servers && s.servers[o].user == u :: Turn(w, s, sid).servers[o] == s.servers[o]
  {
  }

  // ---------------------------------------------------------------------------------------
  // Whom a pass leaves alone
  // ---------------------------------------------------------------------------------------

  lemma {:induction false} TurnsSplit(w: World, s: State, a: seq<Sid>, b: seq<Sid>)
    requires forall x | x in a + b :: x in s.servers
    requires forall x | x in b :: x in Turns(w, s, a).servers
    ensures Turns(w, s, a + b) == Turns(w, Turns(w, s, a), b)
    decreases |b|
  {
    if b == [] {
      assert a + b == a;
    } else {
      var last, rest := b[|b| - 1], b[..|b| - 1];
      assert b == rest + [last];
      assert a + b == (a + rest) + [last];
      assert (a + b)[..|a + b| - 1] == a + rest;
      assert forall x | x in a + rest :: x in a + b;
      TurnsSplit(w, s, a, rest);
    }
  }

  /** A pass never adds to a balance, loses no server and keeps owners and costs. */
  lemma {:induction false} BalanceNeverRises(w: World, s: State, sids: seq<Sid>, u: User)
    requires forall x | x in sids :: x in s.servers
    ensures Balance(Turns(w, s, sids), u) <= Balance(s, u)
    ensures Turns(w, s, sids).servers.Keys == s.servers.Keys
    decreases |sids|
  {
    if sids != [] {
      BalanceNeverRises(w, s, sids[..|sids| - 1], u);
      assert sids[|sids| - 1] in sids;
    }
  }

  /** The user's balance and servers are as they were. */
  ghost predicate Unmoved(s: State, n: State, u: User) {
    && Balance(n, u) == Balance(s, u)
    && forall sid | sid in s.servers && s.servers[sid].user == u :: sid in n.servers && n.servers[sid] == s.servers[sid]
  }

  predicate Priced(s: State, u: User, sid: Sid) {
    sid in s.servers && s.servers[sid].user == u && s.servers[sid].cost > 0
  }

  /** A listed server that can be stopped or billed at the balance of the start is, or the balance has moved. */
  lemma OneMoves(w: World, s: State, before: seq<Sid>, sid: Sid, later: seq<Sid>, u: User)
    requires w.autoStop && w.deletes(sid) && Distinct(before + [sid] + later)
    requires (forall x | x in before + [sid] + later :: x in s.servers) && Priced(s, u, sid) && s.servers[sid].running
    requires Balance(s, u) <= 0 || Tick(s.servers[sid].cost) <= Balance(s, u)
    ensures !Unmoved(s, Turns(w, s, before + [sid] + later), u)
  {
    var all := before + [sid] + later;
    assert all[|before|] == sid;
    assert forall i | 0 <= i < |before| :: all[i] == before[i];
    assert forall i | 0 <= i < |later| :: all[|before| + 1 + i] == later[i];
    assert sid !in before && sid !in later;
    assert forall x | x in before :: x in all;
    var t := Turns(w, s, before);
    BalanceNeverRises(w, s, before, u);
    OneTurnEach(w, s, before, sid);
    var n := Turn(w, t, sid);
    assert (before + [sid])[..|before|] == before;
    assert Turns(w, s, before + [sid]) == n;
    BalanceNeverRises(w, s, before + [sid], u);
    TurnsSplit(w, s, before + [sid], later);
    BalanceNeverRises(w, n, later, u);
    OneTurnEach(w, n, later, sid);
    TurnMovesAtSameBalance(w, t, sid);
  }

  lemma TurnMovesAtSameBalance(w: World, s: State, sid: Sid)
    requires sid in s.servers && w.autoStop && w.deletes(sid) && s.servers[sid].running && s.servers[sid].cost > 0
    ensures Balance(Turn(w, s, sid), s.servers[sid].user) <= Balance(s, s.servers[sid].user) && sid in Turn(w, s, sid).servers
    ensures Balance(s, s.servers[sid].user) <= 0 || Tick(s.servers[sid].cost) <= Balance(s, s.servers[sid].user) ==>
      Turn(w, s, sid).servers[sid] != s.servers[sid]
  {
  }

  lemma {:induction false} UnpricedUnmoved(w: World, s: State, sids: seq<Sid>, u: User)
    requires (forall x | x in sids :: x in s.servers) && forall sid :: !Priced(s, u, sid)
    ensures Unmoved(s, Turns(w, s, sids), u)
    decreases |sids|
  {
    if sids != [] {
      var last, rest := sids[|sids| - 1], sids[..|sids| - 1];
      UnpricedUnmoved(w, s, rest, u);
      BalanceNeverRises(w, s, rest, u);
      OwnersStay(w, s, rest, last);
      assert last in sids && !Priced(s, u, last);
    }
  }

  lemma {:induction false} OwnersStay(w: World, s: State, sids: seq<Sid>, sid: Sid)
    requires (forall x | x in sids :: x in s.servers) && sid in s.servers
    ensures sid in Turns(w, s, sids).servers && Turns(w, s, sids).servers[sid].user == s.servers[sid].user
    decreases |sids|
  {
    if sids != [] {
      OwnersStay(w, s, sids[..|sids| - 1], sid);
      assert sids[|sids| - 1] in sids;
    }
  }

  /**
   With stopping on and working and all of a user's priced servers listed as running, a pass leaves
   the user's balance and servers as they were exactly when the user has no priced server, or has
   a balance above zero that no tick of theirs fits into.
   */
  lemma PassLeavesUserIff(w: World, s: State, sids: seq<Sid>, u: User)
    requires w.autoStop && (forall x | x in sids :: x in s.servers && s.servers[x].running && w.deletes(x)) && Distinct(sids)
    requires forall sid | Priced(s, u, sid) :: sid in sids
    ensures Unmoved(s, Turns(w, s, sids), u) <==> Stuck(s, u) || forall sid :: !Priced(s, u, sid)
  {
    if Stuck(s, u) {
      StuckThroughPasses(w, s, sids, u);
    } else if sid0 :| Priced(s, u, sid0) {
      var sid := sid0;
      if 0 < Balance(s, u) {
        sid :| Priced(s, u, sid) && Balance(s, u) >= Tick(s.servers[sid].cost);
      }
      var k :| 0 <= k < |sids| && sids[k] == sid;
      assert sids == sids[..k] + [sid] + sids[k + 1..];
      OneMoves(w, s, sids[..k], sid, sids[k + 1..], u);
    } else {
      UnpricedUnmoved(w, s, sids, u);
    }
  }
}
