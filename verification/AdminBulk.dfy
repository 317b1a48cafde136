/**
 The administrator's bulk action (backend/app/api/admin.py, bulk_server_action): one loop over the
 requested servers, one commit, then the GPU releases.
 */
module AdminBulk {
  import opened Common
  import opened Fleet
  import opened FleetSafety
  import FleetService

  datatype Action = StartAll | StopAll | EraseAll

  /** What the runtime and the allocator answer for one entry of the request. */
  datatype Answer = Answer(del: Delete, spawn: Spawn, halt: Halt, launch: Launch, released: bool)

  predicate Faithful(a: Answer) {
    Honest(a.del) && (a.halt.reported ==> a.halt.down)
  }

  class Console {
    var st: State

    constructor (st: State)
      ensures this.st == st
    {
      this.st := st;
    }

    /** One entry of the loop; false is an entry recorded under "failed". */
    method Entry(action: Action, sid: Sid, a: Answer) returns (ok: bool)
      requires Faithful(a) && sid in st.servers && Inv(st)
      requires action.StartAll? ==> st.pending == {}
      modifies this
      ensures Inv(st) && EntryDone(action, old(st), st, sid, ok)
      ensures st == Apply(old(st), OpOf(action, sid, a)) && SucceedsIff(action, old(st), sid, a, ok)
    {
      var rec := st.servers[sid];
      if action.StartAll? && Distinct(st.pool) {
        FleetService.EnsureIff(st, sid, GpuCount(st, rec));
      }
      EntryKeeps(st, OpOf(action, sid, a));
      match action {
      case StartAll =>
        ok := rec.container.None? ||
          (if RecreateByRecord(st, rec) then Ensure(st, sid, GpuCount(st, rec)).Some? && a.spawn.SpawnOk? else a.launch.reported);
        StartEntry(st, sid, a, ok);
        st := BackgroundStart(st, sid, a.del, a.spawn, a.launch);
      case StopAll =>
        ok := rec.container.None? || a.halt.reported;
        StopEntry(st, sid, a);
        st := BulkStopPath(st, sid, a.halt);
      case EraseAll =>
        ok := rec.container.None? || a.del.reported;
        EraseEntry(st, sid, a);
        st := BulkErasePath(st, sid, a.del);
      }
    }

    /** The deferred release of one stopped or deleted server; a failure is logged and dropped. */
    method ReleaseOne(sid: Sid, released: bool)
      requires Inv(st) && !Up(st, sid)
      modifies this
      ensures Inv(st) && st.servers == old(st.servers) && st.containers == old(st.containers)
      ensures st.pending == old(st.pending) - {sid} && st.pool == old(st.pool) && st.plans == old(st.plans)
      ensures forall t: Sid | t != sid :: SameFor(old(st), st, t)
      ensures released ==> Held(st.rows, sid) == {}
      ensures forall d | d in st.rows :: d in old(st.rows) && st.rows[d] == old(st.rows)[d]
    {
      ReleaseDown(st, sid, released);
      st := if released then Release(st, sid).(pending := st.pending - {sid}) else st.(pending := st.pending - {sid});
    }

    /** The loop over the request; `releases` are the servers whose devices are to be given back. */
    method Entries(action: Action, ids: seq<Sid>, answers: seq<Answer>)
      returns (succeeded: seq<Sid>, failed: seq<Sid>, releases: seq<Sid>, outcomes: seq<bool>, ghost trail: seq<State>, ghost oks: seq<bool>)
      requires |answers| == |ids| && (forall i | 0 <= i < |ids| :: Faithful(answers[i]))
      requires Inv(st) && st.pending == {}
      modifies this
      ensures Inv(st) && Accounts(action, ids, answers, old(st), st, succeeded, failed, releases, trail, oks)
      ensures |outcomes| == |releases|
      ensures (forall i | 0 <= i < |ids| :: answers[i].released) ==> forall k | 0 <= k < |outcomes| :: outcomes[k]
    {
      ghost var before := st;
      var known := st.servers;
      succeeded, failed, releases, outcomes := [], [], [], [];
      trail, oks := [st], [];
      for i := 0 to |ids|
        invariant Inv(st) && (action.StartAll? ==> st.pending == {})
        invariant Accounts(action, ids[..i], answers[..i], before, st, succeeded, failed, releases, trail, oks)
        invariant |outcomes| == |releases|
        invariant (forall k | 0 <= k < |ids| :: answers[k].released) ==> forall k | 0 <= k < |outcomes| :: outcomes[k]
      {
        var halts;
        succeeded, failed, halts, trail, oks := Step(action, ids, answers, i, known, before, succeeded, failed, releases, trail, oks);
        if halts {
          releases, outcomes := releases + [ids[i]], outcomes + [answers[i].released];
        }
      }
      assert ids[..|ids|] == ids && answers[..|ids|] == answers;
    }

    /** One round of the loop, with the lists the answer is made of. */
    method Step(action: Action, ids: seq<Sid>, answers: seq<Answer>, i: nat, known: map<Sid, Record>, ghost before: State,
                succeeded: seq<Sid>, failed: seq<Sid>, ghost releases: seq<Sid>, ghost trail: seq<State>, ghost oks: seq<bool>)
      returns (succeeded': seq<Sid>, failed': seq<Sid>, halts: bool, ghost trail': seq<State>, ghost oks': seq<bool>)
      requires |answers| == |ids| && i < |ids| && Faithful(answers[i]) && known == before.servers
      requires Inv(st) && (action.StartAll? ==> st.pending == {})
      requires Accounts(action, ids[..i], answers[..i], before, st, succeeded, failed, releases, trail, oks)
      modifies this
      ensures Inv(st) && (action.StartAll? ==> st.pending == {})
      ensures Accounts(action, ids[..i + 1], answers[..i + 1], before, st, succeeded', failed', if halts then releases + [ids[i]] else releases, trail', oks')
    {
      var sid := ids[i];
      ghost var prev := st;
      assert ids[..i + 1] == ids[..i] + [sid] && answers[..i + 1] == answers[..i] + [answers[i]];
      var ok := OneOf(action, known, releases, sid, answers[i]);
      halts := ok && Halts(action, known, sid);
      AccountsStep(action, ids[..i], answers[..i], before, prev, st, succeeded, failed, releases, trail, oks, sid, answers[i], ok);
      trail', oks' := trail + [st], oks + [ok];
      succeeded', failed' := if ok then succeeded + [sid] else succeeded, if ok then failed else failed + [sid];
    }

    /** One requested id, found or not among the servers fetched at the start. */
    method OneOf(action: Action, known: map<Sid, Record>, ghost releases: seq<Sid>, sid: Sid, a: Answer) returns (ok: bool)
      requires Faithful(a) && Inv(st) && (action.StartAll? ==> st.pending == {})
      requires sid in known ==> Agrees(action, known, st, releases, sid)
      modifies this
      ensures Inv(st) && (sid !in known ==> !ok) && TrailStep(action, known, sid, a, old(st), st, ok)
      ensures if sid in known && sid in old(st).servers then EntryDone(action, old(st), st, sid, ok) else st == old(st)
    {
      if sid !in known {
        ok := false;
      } else if sid !in st.servers {
        // deleted by an earlier entry of the same request
        ok := known[sid].container.None? || a.del.reported;
      } else {
        ok := Entry(action, sid, a);
      }
    }

    /** Releases run after the commit, one by one. */
    method Releases(releases: seq<Sid>, outcomes: seq<bool>)
      requires |outcomes| == |releases| && Inv(st)
      requires (forall sid | sid in releases :: !Up(st, sid)) && (forall sid | sid in st.pending :: sid in releases)
      modifies this
      ensures Inv(st) && st.pending == {}
      ensures st.servers == old(st.servers) && st.containers == old(st.containers)
      ensures forall t: Sid | t !in releases :: SameFor(old(st).(pending := {}), st, t)
      ensures (forall k | 0 <= k < |outcomes| :: outcomes[k]) ==> forall sid | sid in releases :: Held(st.rows, sid) == {}
    {
      ghost var before := st;
      for j := 0 to |releases|
        invariant Inv(st) && st.servers == before.servers && st.containers == before.containers
        invariant st.pool == before.pool && st.plans == before.plans
        invariant forall sid | sid in st.pending :: sid in releases[j..]
        invariant forall t: Sid | t !in releases :: Kept(before.rows, st.rows, t)
        invariant (forall k | 0 <= k < |outcomes| :: outcomes[k]) ==> forall k | 0 <= k < j :: Held(st.rows, releases[k]) == {}
      {
        ghost var prev, rows := st, st.rows;
        assert releases[j] in releases && !Up(before, releases[j]);
        ReleaseOne(releases[j], outcomes[j]);
        forall t: Sid | t !in releases ensures Kept(before.rows, st.rows, t) {
          assert Kept(before.rows, rows, t) && SameFor(prev, st, t);
        }
        forall k | 0 <= k < j && Held(rows, releases[k]) == {} ensures Held(st.rows, releases[k]) == {} {
          assert forall d | d in Held(st.rows, releases[k]) :: d in Held(rows, releases[k]);
        }
      }
    }

    /** The whole request: no device is ever shared, and every server reported stopped or deleted is down. */
    method BulkAction(action: Action, ids: seq<Sid>, answers: seq<Answer>)
      returns (succeeded: seq<Sid>, failed: seq<Sid>, ghost trail: seq<State>, ghost oks: seq<bool>)
      requires |answers| == |ids| && (forall i | 0 <= i < |ids| :: Faithful(answers[i]))
      requires Inv(st) && st.pending == {}
      modifies this
      ensures Inv(st) && st.pending == {} && Exclusive(st)
      ensures forall t: Sid | t !in ids :: SameFor(old(st), st, t)
      ensures Reported(ids, oks, succeeded, failed)
      ensures exists worked :: Replays(action, ids, answers, old(st), worked, trail, oks) && st.servers == worked.servers && st.containers == worked.containers
      ensures forall sid | sid in succeeded :: sid in old(st.servers)
      ensures forall sid | sid in succeeded && Halts(action, old(st.servers), sid) :: !Up(st, sid)
      ensures action.EraseAll? ==> forall sid | sid in succeeded :: sid !in st.servers
      ensures (forall i | 0 <= i < |ids| :: answers[i].released) ==>
        forall sid | sid in succeeded && Halts(action, old(st.servers), sid) :: Held(st.rows, sid) == {}
    {
      ghost var before := st;
      var releases, outcomes;
      succeeded, failed, releases, outcomes, trail, oks := Entries(action, ids, answers);
      ghost var mid := st;
      Releases(releases, outcomes);
      assert forall t: Sid | t !in ids :: t !in releases;
      forall t: Sid | t !in ids ensures SameFor(before, st, t) {
        SameTransitive(before, mid.(pending := {}), st, t);
      }
      InvIsExclusive(st);
    }
  }

  function OpOf(action: Action, sid: Sid, a: Answer): Op {
    match action
    case StartAll => BulkStart(sid, a.del, a.spawn, a.launch)
    case StopAll => BulkStop(sid, a.halt)
    case EraseAll => BulkErase(sid, a.del)
  }

  predicate Startable(st: State, sid: Sid, a: Answer)
    requires sid in st.servers
  {
    if st.pool != [] && st.servers[sid].gpus > 0 then FleetService.Available(st, sid, GpuCount(st, st.servers[sid])) && a.spawn.SpawnOk?
    else a.launch.reported
  }

  /** When an entry counts as a success: nothing to do, or everything the runtime and the pool had to grant. */
  predicate SucceedsIff(action: Action, st: State, sid: Sid, a: Answer, ok: bool)
    requires sid in st.servers
  {
    var rec := st.servers[sid];
    match action
    case StartAll => Distinct(st.pool) ==>
      ok == (rec.container.None? || Startable(st, sid, a))
    case StopAll => ok <==> rec.container.None? || a.halt.reported
    case EraseAll => ok <==> rec.container.None? || a.del.reported
  }

  /** One id of the request: unknown ones fail, ones already deleted by it are judged by the record fetched, others are a fleet step. */
  predicate TrailStep(action: Action, known: map<Sid, Record>, sid: Sid, a: Answer, prev: State, next: State, ok: bool) {
    if sid !in known then next == prev && !ok
    else if sid !in prev.servers then next == prev && action.EraseAll? && (ok <==> known[sid].container.None? || a.del.reported)
    else Enabled(prev, OpOf(action, sid, a)) && next == Apply(prev, OpOf(action, sid, a)) && SucceedsIff(action, prev, sid, a, ok)
  }

  /** The states the request went through, one per id, and what it noted for each. */
  predicate Replays(action: Action, ids: seq<Sid>, answers: seq<Answer>, before: State, after: State, trail: seq<State>, oks: seq<bool>) {
    && |answers| == |oks| == |ids| && |trail| == |ids| + 1 && trail[0] == before && trail[|ids|] == after
    && forall i | 0 <= i < |ids| :: TrailStep(action, before.servers, ids[i], answers[i], trail[i], trail[i + 1], oks[i])
  }

  function Chosen(ids: seq<Sid>, oks: seq<bool>): seq<Sid>
    requires |oks| == |ids|
  {
    if ids == [] then [] else
      var n := |ids| - 1;
      Chosen(ids[..n], oks[..n]) + if oks[n] then [ids[n]] else []
  }

  /** Successes are listed in the order of the request; ids with a failure are listed as failed. */
  ghost predicate Reported(ids: seq<Sid>, oks: seq<bool>, succeeded: seq<Sid>, failed: seq<Sid>) {
    && |oks| == |ids| && succeeded == Chosen(ids, oks)
    && forall sid :: sid in failed <==> exists i :: 0 <= i < |ids| && ids[i] == sid && !oks[i]
  }

  /** Everything the loop keeps. */
  ghost predicate Accounts(action: Action, ids: seq<Sid>, answers: seq<Answer>, before: State, st: State, succeeded: seq<Sid>,
                           failed: seq<Sid>, releases: seq<Sid>, trail: seq<State>, oks: seq<bool>) {
    && Progress(action, before, st, ids, succeeded, failed, releases)
    && Replays(action, ids, answers, before, st, trail, oks)
    && Reported(ids, oks, succeeded, failed)
  }

  lemma AccountsStep(action: Action, ids: seq<Sid>, answers: seq<Answer>, before: State, prev: State, st: State, succeeded: seq<Sid>,
                     failed: seq<Sid>, releases: seq<Sid>, trail: seq<State>, oks: seq<bool>, sid: Sid, a: Answer, ok: bool)
    requires Accounts(action, ids, answers, before, prev, succeeded, failed, releases, trail, oks)
    requires TrailStep(action, before.servers, sid, a, prev, st, ok)
    requires if sid in before.servers && sid in prev.servers then EntryDone(action, prev, st, sid, ok) else st == prev
    ensures Accounts(action, ids + [sid], answers + [a], before, st,
                     if ok then succeeded + [sid] else succeeded,
                     if ok then failed else failed + [sid],
                     if ok && Halts(action, before.servers, sid) then releases + [sid] else releases,
                     trail + [st], oks + [ok])
  {
    assert Replays(action, ids + [sid], answers + [a], before, st, trail + [st], oks + [ok]) by {
      ReplayStep(action, ids, answers, before, prev, st, trail, oks, sid, a, ok);
    }
    ReportStep(ids, oks, succeeded, failed, sid, ok);
    ProgressStep(action, before, prev, st, ids, succeeded, failed, releases, sid, ok);
  }

  lemma ReplayStep(action: Action, ids: seq<Sid>, answers: seq<Answer>, before: State, prev: State, st: State,
                   trail: seq<State>, oks: seq<bool>, sid: Sid, a: Answer, ok: bool)
    requires Replays(action, ids, answers, before, prev, trail, oks) && TrailStep(action, before.servers, sid, a, prev, st, ok)
    ensures Replays(action, ids + [sid], answers + [a], before, st, trail + [st], oks + [ok])
  {
    var ids', answers', trail', oks' := ids + [sid], answers + [a], trail + [st], oks + [ok];
    forall i | 0 <= i < |ids'| ensures TrailStep(action, before.servers, ids'[i], answers'[i], trail'[i], trail'[i + 1], oks'[i]) {
      if i < |ids| {
        assert TrailStep(action, before.servers, ids[i], answers[i], trail[i], trail[i + 1], oks[i]);
      }
    }
  }

  lemma ReportStep(ids: seq<Sid>, oks: seq<bool>, succeeded: seq<Sid>, failed: seq<Sid>, sid: Sid, ok: bool)
    requires Reported(ids, oks, succeeded, failed)
    ensures Reported(ids + [sid], oks + [ok], if ok then succeeded + [sid] else succeeded, if ok then failed else failed + [sid])
  {
    var n, ids', oks' := |ids|, ids + [sid], oks + [ok];
    assert ids'[..n] == ids && oks'[..n] == oks;
    var failed' := if ok then failed else failed + [sid];
    forall t ensures t in failed' <==> exists i :: 0 <= i < |ids'| && ids'[i] == t && !oks'[i] {
      if i :| 0 <= i < n && ids[i] == t && !oks[i] {
        assert ids'[i] == t && !oks'[i];
      }
      if t == sid && !ok {
        assert ids'[n] == t && !oks'[n];
      }
    }
  }

  /** What one entry of the loop did, from state `prev` to state `st`. */
  ghost predicate EntryDone(action: Action, prev: State, st: State, sid: Sid, ok: bool)
    requires sid in prev.servers
  {
    OthersSame(prev, st, sid) && OwnDone(action, prev, st, sid, ok)
  }

  ghost predicate OthersSame(prev: State, st: State, sid: Sid) {
    forall t: Sid | t != sid :: SameFor(prev, st, t)
  }

  /** The entry's own server. */
  ghost predicate OwnDone(action: Action, prev: State, st: State, sid: Sid, ok: bool)
    requires sid in prev.servers
  {
    && Kept(prev.rows, st.rows, sid)
    && (action.StartAll? ==> st.pending == {})
    && (!action.StartAll? ==> prev.pending <= st.pending <= prev.pending + {sid} && (!Up(prev, sid) ==> !Up(st, sid)))
    && (action.EraseAll? && ok ==> sid !in st.servers)
    && (ok && Halts(action, prev.servers, sid) ==> !Up(st, sid))
    && (!(ok && action.EraseAll?) ==> sid in st.servers && (action.StartAll? || st.servers[sid].container == prev.servers[sid].container))
    && (!(ok && Halts(action, prev.servers, sid)) ==> st.pending == prev.pending)
  }

  lemma EntryKeeps(st: State, op: Op)
    requires op.BulkStart? || op.BulkStop? || op.BulkErase?
    requires Inv(st) && Enabled(st, op) && Allowed(CAREFUL, st, op)
    ensures Inv(Apply(st, op)) && OthersSame(st, Apply(st, op), op.sid)
  {
    InvStep(st, op);
    forall t: Sid | t != op.sid ensures SameFor(st, Apply(st, op), t) {
      OthersUntouched(st, op, t);
    }
  }

  lemma StartEntry(st: State, sid: Sid, a: Answer, ok: bool)
    requires sid in st.servers && st.pending == {}
    ensures OwnDone(StartAll, st, BackgroundStart(st, sid, a.del, a.spawn, a.launch), sid, ok)
  {
    BackgroundStartDismissesNobody(st, sid, a.del, a.spawn, a.launch);
    RebuildSettings(AfterDelete(st, sid, a.del), sid, a.spawn);
  }

  lemma StopEntry(st: State, sid: Sid, a: Answer)
    requires sid in st.servers && Faithful(a) && Ok(st, sid)
    ensures OwnDone(StopAll, st, BulkStopPath(st, sid, a.halt), sid, st.servers[sid].container.None? || a.halt.reported)
  {
  }

  lemma EraseEntry(st: State, sid: Sid, a: Answer)
    requires sid in st.servers && Faithful(a) && Ok(st, sid)
    ensures OwnDone(EraseAll, st, BulkErasePath(st, sid, a.del), sid, st.servers[sid].container.None? || a.del.reported)
  {
  }

  /** What the entries processed so far have done, seen from the state before the request. */
  ghost predicate Progress(action: Action, before: State, st: State, done: seq<Sid>, succeeded: seq<Sid>, failed: seq<Sid>, releases: seq<Sid>) {
    && (forall t: Sid | t !in done :: SameFor(before, st, t))
    && (forall sid | sid in done :: sid in succeeded || sid in failed)
    && (forall sid | sid in succeeded :: sid in before.servers && (Halts(action, before.servers, sid) ==> sid in releases))
    && (forall sid | sid in releases :: sid in done && Halts(action, before.servers, sid) && !Up(st, sid))
    && (forall sid | sid in st.pending :: sid in releases)
    && (action.EraseAll? ==> forall sid | sid in succeeded :: sid !in st.servers)
    && (forall sid | sid in before.servers :: Agrees(action, before.servers, st, releases, sid))
  }

  predicate Agrees(action: Action, known: map<Sid, Record>, st: State, releases: seq<Sid>, sid: Sid)
    requires sid in known
  {
    if sid in st.servers then action.StartAll? || st.servers[sid].container == known[sid].container
    else action.EraseAll? && sid in releases
  }

  lemma ProgressStep(action: Action, before: State, prev: State, st: State, done: seq<Sid>, succeeded: seq<Sid>,
                     failed: seq<Sid>, releases: seq<Sid>, sid: Sid, ok: bool)
    requires Progress(action, before, prev, done, succeeded, failed, releases)
    requires if sid in before.servers && sid in prev.servers then EntryDone(action, prev, st, sid, ok) else st == prev
    requires sid !in before.servers ==> !ok
    ensures Progress(action, before, st, done + [sid],
                     if ok then succeeded + [sid] else succeeded,
                     if ok then failed else failed + [sid],
                     if ok && Halts(action, before.servers, sid) then releases + [sid] else releases)
  {
    var releases' := if ok && Halts(action, before.servers, sid) then releases + [sid] else releases;
    forall t: Sid | t != sid ensures SameFor(prev, st, t) {
      assert Kept(prev.rows, prev.rows, t);
    }
    forall t: Sid | t !in done + [sid] ensures SameFor(before, st, t) {
      SameTransitive(before, prev, st, t);
    }
    if sid in before.servers {
      assert Agrees(action, before.servers, prev, releases, sid);
    }
    forall t | t in before.servers ensures Agrees(action, before.servers, st, releases', t) {
      assert Agrees(action, before.servers, prev, releases, t);
      assert t != sid ==> SameFor(prev, st, t);
    }
    var succeeded' := if ok then succeeded + [sid] else succeeded;
    forall t | t in succeeded' && action.EraseAll? ensures t !in st.servers {
      assert t != sid ==> SameFor(prev, st, t);
    }
    forall t | t in releases' ensures t in done + [sid] && Halts(action, before.servers, t) && !Up(st, t) {
      assert t != sid ==> SameFor(prev, st, t);
    }
  }

  /** The entry stops or deletes something, so its devices are released at the end. */
  predicate Halts(action: Action, known: map<Sid, Record>, sid: Sid) {
    action.EraseAll? || (action.StopAll? && sid in known && known[sid].container.Some?)
  }

  lemma ReleaseDown(st: State, sid: Sid, released: bool)
    requires Inv(st) && !Up(st, sid)
    ensures Inv(if released then Release(st, sid).(pending := st.pending - {sid}) else st.(pending := st.pending - {sid}))
  {
    var st' := if released then Release(st, sid).(pending := st.pending - {sid}) else st.(pending := st.pending - {sid});
    forall t: Sid ensures Ok(st', t) {
      assert Ok(st, t);
    }
  }

  predicate SameSettings(st: State, st': State) {
    st'.pool == st.pool && st'.plans == st.plans && st'.pending == st.pending
  }

  lemma SpawnedSettings(st: State, rows: map<Device, Sid>, sid: Sid, devices: set<Device>, spawn: Spawn)
    requires sid in st.servers
    ensures SameSettings(st, Spawned(st, rows, sid, devices, spawn))
  {
  }

  lemma RebuildSettings(st: State, sid: Sid, spawn: Spawn)
    requires sid in st.servers
    ensures SameSettings(st, Rebuild(st, sid, spawn))
  {
    var count := GpuCount(st, st.servers[sid]);
    if Ensure(st, sid, count).Some? {
      var rows := Ensure(st, sid, count).value;
      SpawnedSettings(st, rows, sid, if st.pool == [] || count == 0 then {} else Held(rows, sid), spawn);
    }
  }
}
