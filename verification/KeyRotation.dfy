/**
 Rotation and retirement of the user-auth signing key (backend/scripts/rotate_user_auth_key.py)
 and the key ring that signs and verifies with it (backend/app/core/token_signing.py).

 A key stands for its pair; its id is derived from the public half, so keys and ids are one. The
 file time of the private key tells private keys apart. Production mode: missing keys raise.
 */
module KeyRotation {
  import opened Common

  type Key = nat
  type Mid = nat

  datatype Disk = Disk(priv: Option<Key>, pub: Option<Key>, retired: map<Key, int>)  // retired public key: file time

  // ---------------------------------------------------------------------------------------
  // The script
  // ---------------------------------------------------------------------------------------

  function PutRetired(d: Disk, key: Option<Key>, now: int): Disk {
    if key.Some? then d.(retired := d.retired[key.value := now]) else d
  }

  /** Removal is attempted for files older than the grace period; one that fails (`stays`) is skipped. */
  function Clean(d: Disk, cutoff: int, stays: set<Key>): Disk {
    d.(retired := map k | k in d.retired && (d.retired[k] >= cutoff || k in stays) :: d.retired[k])
  }

  class SecretsDir {
    var disk: Disk

    method CleanupRetired(now: int, grace: int, stays: set<Key>) returns (removed: nat)
      modifies this
      ensures disk == Clean(old(disk), now - grace, stays)
      ensures disk.priv == old(disk).priv && disk.pub == old(disk).pub
      ensures forall k :: k in disk.retired <==> k in old(disk).retired && (old(disk).retired[k] >= now - grace || k in stays)
      ensures forall k | k in disk.retired :: disk.retired[k] == old(disk).retired[k]
      ensures removed == |old(disk).retired| - |disk.retired|
    {
      var cutoff := now - grace;
      removed := 0;
      var paths := disk.retired.Keys;
      while paths != {}
        invariant paths <= disk.retired.Keys <= old(disk).retired.Keys
        invariant disk == old(disk).(retired := disk.retired)
        invariant forall k | k in disk.retired :: disk.retired[k] == old(disk).retired[k]
        invariant forall k | k in old(disk).retired && k !in paths :: k in disk.retired <==> old(disk).retired[k] >= cutoff || k in stays
        invariant removed == |old(disk).retired| - |disk.retired|
        decreases |paths|
      {
        var k :| k in paths;
        if disk.retired[k] < cutoff && k !in stays {
          RemoveOne(disk.retired, k);
          disk := disk.(retired := disk.retired - {k});
          removed := removed + 1;
        }
        paths := paths - {k};
      }
      assert disk.retired == Clean(old(disk), cutoff, stays).retired;
    }

    /** The script from end to end; `retiredAt` is the time the retired file is written. */
    method Rotate(newKey: Key, retiredAt: int, now: int, cleanup: bool, grace: int, stays: set<Key>) returns (removed: nat)
      modifies this
      ensures disk.priv == disk.pub == Some(newKey)
      ensures var kept := PutRetired(old(disk), old(disk).pub, retiredAt);
        disk.retired == if cleanup then Clean(kept, now - grace, stays).retired else kept.retired
    {
      removed := 0;
      var oldPublic := disk.pub;
      disk := disk.(priv := None);
      disk := disk.(priv := Some(newKey));
      disk := disk.(pub := Some(newKey));
      disk := PutRetired(disk, oldPublic, retiredAt);
      if cleanup {
        removed := CleanupRetired(now, grace, stays);
      }
    }
  }

  lemma RemoveOne(m: map<Key, int>, k: Key)
    requires k in m
    ensures |m - {k}| == |m| - 1
  {
    assert (m - {k}).Keys == m.Keys - {k};
    assert |m.Keys - {k}| == |m.Keys| - 1;
  }

  // ---------------------------------------------------------------------------------------
  // Schedules: the script step by step, with signers and verifiers in between
  // ---------------------------------------------------------------------------------------

  /** Where the script is; it keeps the old public key in memory until it is written back. */
  datatype Phase = Resting | Staged(oldKey: Option<Key>) | PrivateWritten(oldKey: Option<Key>, newKey: Key) | PublicWritten(oldKey: Option<Key>, newKey: Key)

  /** A process's key ring, reloaded only when the private key file changes. */
  datatype Cache = Cache(signer: Key, kid: Key, ring: set<Key>)

  datatype Token = Token(signer: Key, kid: Key, issued: int, expires: int)

  /** A signature under way: create_access_token has read the clock and the key id, not yet the key. */
  datatype Draft = Draft(m: Mid, kid: Key, issued: int, expires: int)

  datatype State = State(
    now: int, disk: Disk, phase: Phase, caches: map<Mid, Cache>, drafts: map<nat, Draft>, tokens: set<Token>, next: Key)

  datatype Step =
    | Tick(delay: nat)
    | Begin
    | WritePrivate
    | WritePublic
    | Retire
    | Crash
    | Cleanup(stays: set<Key>)
    | Load(m: Mid)
    | ReadId(n: nat, m: Mid, lifetime: nat)   // first reload of a signature
    | Sign(n: nat)                            // second reload, then the signature itself
    | Abandon(n: nat)

  /**
   What may happen while the script is under way: dying once the private key is set aside, once the
   new private key is there, once the new public key is there; a process reloading at the latter
   two points; and the script starting between the two reloads of a signature. The careful policy
   allows none of it.
   */
  datatype Policy = Policy(
    crashStaged: bool, crashPrivate: bool, crashPublic: bool, loadPrivate: bool, loadPublic: bool, rotateMidSignature: bool)

  const CAREFUL := Policy(false, false, false, false, false, false)

  predicate MayCrash(p: Policy, f: Phase) {
    match f
    case Resting => false
    case Staged(_) => p.crashStaged
    case PrivateWritten(_, _) => p.crashPrivate
    case PublicWritten(_, _) => p.crashPublic
  }

  predicate MayLoad(p: Policy, f: Phase) {
    (f.PrivateWritten? ==> p.loadPrivate) && (f.PublicWritten? ==> p.loadPublic)
  }

  predicate Loads(s: State) {
    s.disk.priv.Some? && s.disk.pub.Some?
  }

  predicate Enabled(p: Policy, grace: nat, s: State, a: Step) {
    match a
    case Tick(_) => true
    case Begin => s.phase.Resting? && (s.drafts != map[] ==> p.rotateMidSignature)
    case WritePrivate => s.phase.Staged?
    case WritePublic => s.phase.PrivateWritten?
    case Retire => s.phase.PublicWritten?
    case Crash => MayCrash(p, s.phase)
    case Cleanup(_) => s.phase.Resting?
    case Load(_) => Loads(s) && MayLoad(p, s.phase)
    case ReadId(n, _, lifetime) => n !in s.drafts && Loads(s) && lifetime <= grace && MayLoad(p, s.phase)
    case Sign(n) => n in s.drafts && Loads(s) && MayLoad(p, s.phase)
    case Abandon(n) => n in s.drafts
  }

  /** _reload_if_changed */
  function Reloaded(s: State, m: Mid): Cache
    requires Loads(s)
  {
    if m in s.caches && s.caches[m].signer == s.disk.priv.value then s.caches[m]
    else Cache(s.disk.priv.value, s.disk.pub.value, {s.disk.pub.value} + s.disk.retired.Keys)
  }

  function Next(p: Policy, grace: nat, s: State, a: Step): State
    requires Enabled(p, grace, s, a)
  {
    match a
    case Tick(d) => s.(now := s.now + d)
    case Begin => s.(phase := Staged(s.disk.pub), disk := s.disk.(priv := None))
    case WritePrivate => s.(phase := PrivateWritten(s.phase.oldKey, s.next), disk := s.disk.(priv := Some(s.next)), next := s.next + 1)
    case WritePublic => s.(phase := PublicWritten(s.phase.oldKey, s.phase.newKey), disk := s.disk.(pub := Some(s.phase.newKey)))
    case Retire => s.(phase := Resting, disk := PutRetired(s.disk, s.phase.oldKey, s.now))
    case Crash => s.(phase := Resting)
    case Cleanup(stays) => s.(disk := Clean(s.disk, s.now - grace, stays))
    case Load(m) => s.(caches := s.caches[m := Reloaded(s, m)])
    case ReadId(n, m, lifetime) =>
      var c := Reloaded(s, m);
      s.(caches := s.caches[m := c], drafts := s.drafts[n := Draft(m, c.kid, s.now, s.now + lifetime)])
    case Sign(n) =>
      var d := s.drafts[n];
      var c := Reloaded(s, d.m);
      s.(caches := s.caches[d.m := c], drafts := s.drafts - {n}, tokens := s.tokens + {Token(c.signer, d.kid, d.issued, d.expires)})
    case Abandon(n) => s.(drafts := s.drafts - {n})
  }

  /**
   decode_access_token, for a token whose other claims are in order: a process first reloads, and
   one that finds a key file missing raises.
   */
  predicate Accepts(s: State, m: Mid, t: Token) {
    Loads(s) && t.kid in Reloaded(s, m).ring && t.kid == t.signer && t.expires > s.now
  }

  predicate OnDisk(d: Disk, k: Key) {
    d.pub == Some(k) || k in d.retired
  }

  predicate Initial(s: State) {
    && s.phase.Resting? && s.disk.retired == map[] && s.caches == map[] && s.drafts == map[] && s.tokens == {}
    && s.disk.priv == s.disk.pub && s.disk.priv.Some? && s.disk.priv.value < s.next
  }

  ghost predicate Runs(p: Policy, grace: nat, s: State, steps: seq<Step>)
    decreases |steps|
  {
    steps == [] || (Enabled(p, grace, s, steps[0]) && Runs(p, grace, Next(p, grace, s, steps[0]), steps[1..]))
  }

  ghost function After(p: Policy, grace: nat, s: State, steps: seq<Step>): State
    requires Runs(p, grace, s, steps)
    decreases |steps|
  {
    if steps == [] then s else After(p, grace, Next(p, grace, s, steps[0]), steps[1..])
  }

  /** Some schedule the policy allows leads from s to e. */
  ghost predicate Reaches(p: Policy, grace: nat, s: State, e: State) {
    exists steps :: Runs(p, grace, s, steps) && After(p, grace, s, steps) == e
  }

  // ---------------------------------------------------------------------------------------
  // Keys on disk, however processes load and sign
  // ---------------------------------------------------------------------------------------

  /** The script dies, if at all, before it has written anything. */
  predicate FinishesWriting(p: Policy) {
    !p.crashPrivate && !p.crashPublic
  }

  /** The script holds at most one public key that is on no disk, and knows the one it is about to replace. */
  predicate PhaseOk(s: State) {
    match s.phase
    case Resting => s.disk.priv.Some? ==> s.disk.pub == s.disk.priv
    case Staged(o) => o == s.disk.pub && s.disk.priv.None?
    case PrivateWritten(o, n) => o == s.disk.pub && s.disk.priv == Some(n) && o != Some(n)
    case PublicWritten(o, n) => s.disk.pub == s.disk.priv == Some(n) && o != Some(n)
  }

  /** Every key in use was drawn before; the private key never became a retired one. */
  ghost predicate KeysOk(s: State) {
    && (s.disk.priv.Some? ==> s.disk.priv.value < s.next && s.disk.priv.value !in s.disk.retired)
    && (s.disk.pub.Some? ==> s.disk.pub.value < s.next)
    && (forall k | k in s.disk.retired :: k < s.next)
    && (s.phase.PublicWritten? && s.phase.oldKey.Some? ==> s.phase.oldKey.value < s.next)
    && (forall m | m in s.caches :: s.caches[m].signer < s.next)
  }

  /** Where the public half of a live token's key is: current, retired recently enough, or in the script's hands. */
  predicate Kept(grace: nat, s: State, t: Token) {
    || s.disk.pub == Some(t.signer)
    || (t.signer in s.disk.retired && t.expires <= s.disk.retired[t.signer] + grace)
    || InScript(s, t.signer)
  }

  /** About to be written: the old public key before it is retired, the new one before it is published. */
  predicate InScript(s: State, k: Key) {
    (s.phase.PublicWritten? && s.phase.oldKey == Some(k)) || (s.phase.PrivateWritten? && s.phase.newKey == k)
  }

  ghost predicate DiskInv(grace: nat, s: State) {
    && PhaseOk(s) && KeysOk(s)
    && (forall t | t in s.tokens :: t.expires <= s.now + grace && (t.expires >= s.now ==> Kept(grace, s, t)))
    && (forall n | n in s.drafts :: s.drafts[n].expires <= s.now + grace)
  }

  lemma DiskStep(p: Policy, grace: nat, s: State, a: Step)
    requires FinishesWriting(p) && DiskInv(grace, s) && Enabled(p, grace, s, a)
    ensures DiskInv(grace, Next(p, grace, s, a))
  {
  }

  lemma {:induction false} DiskThroughout(p: Policy, grace: nat, s: State, steps: seq<Step>)
    requires FinishesWriting(p) && DiskInv(grace, s) && Runs(p, grace, s, steps)
    ensures DiskInv(grace, After(p, grace, s, steps))
    decreases |steps|
  {
    if steps != [] {
      DiskStep(p, grace, s, steps[0]);
      DiskThroughout(p, grace, Next(p, grace, s, steps[0]), steps[1..]);
    }
  }

  /**
   At every moment of every schedule of signing, loading, rotating and cleaning up, the public key
   of a live token is on disk or in the hands of the script about to write it.
   */
  lemma LiveKeysAreKept(p: Policy, grace: nat, s: State, e: State, t: Token)
    requires FinishesWriting(p) && Initial(s) && Reaches(p, grace, s, e) && t in e.tokens && t.expires > e.now
    ensures OnDisk(e.disk, t.signer) || InScript(e, t.signer)
  {
    var steps :| Runs(p, grace, s, steps) && After(p, grace, s, steps) == e;
    DiskThroughout(p, grace, s, steps);
  }

  lemma {:induction false} StagedMeansMissing(p: Policy, grace: nat, s: State, steps: seq<Step>)
    requires Runs(p, grace, s, steps) && (s.phase.Staged? ==> s.disk.priv.None?)
    ensures After(p, grace, s, steps).phase.Staged? ==> After(p, grace, s, steps).disk.priv.None?
    decreases |steps|
  {
    if steps != [] {
      StagedMeansMissing(p, grace, Next(p, grace, s, steps[0]), steps[1..]);
    }
  }

  /** While the private key is set aside, crash or no crash, no process accepts any token. */
  lemma NothingAcceptedWhileStaged(p: Policy, grace: nat, s: State, e: State, m: Mid, t: Token)
    requires Initial(s) && Reaches(p, grace, s, e) && e.phase.Staged?
    ensures !Accepts(e, m, t)
  {
    var steps :| Runs(p, grace, s, steps) && After(p, grace, s, steps) == e;
    StagedMeansMissing(p, grace, s, steps);
  }

  // ---------------------------------------------------------------------------------------
  // Rings of careful schedules
  // ---------------------------------------------------------------------------------------

  /** A ring loaded for the current private key has every public key now on disk. */
  ghost predicate CachesOk(s: State) {
    forall m | m in s.caches && s.disk.priv == Some(s.caches[m].signer) ::
      && s.phase.Resting? && s.caches[m].kid == s.caches[m].signer
      && forall k | OnDisk(s.disk, k) :: k in s.caches[m].ring
  }

  ghost predicate Inv(grace: nat, s: State) {
    && DiskInv(grace, s) && CachesOk(s)
    && (s.phase.Resting? ==> s.disk.priv.Some?)
    && (forall t | t in s.tokens :: t.signer == t.kid)
    && (forall n | n in s.drafts :: s.phase.Resting? && s.disk.priv == Some(s.drafts[n].kid))
  }

  lemma CachesStep(grace: nat, s: State, a: Step)
    requires Inv(grace, s) && Enabled(CAREFUL, grace, s, a)
    ensures Inv(grace, Next(CAREFUL, grace, s, a))
  {
    DiskStep(CAREFUL, grace, s, a);
  }

  lemma {:induction false} InvThroughout(grace: nat, s: State, steps: seq<Step>)
    requires Inv(grace, s) && Runs(CAREFUL, grace, s, steps)
    ensures Inv(grace, After(CAREFUL, grace, s, steps))
    decreases |steps|
  {
    if steps != [] {
      CachesStep(grace, s, steps[0]);
      InvThroughout(grace, Next(CAREFUL, grace, s, steps[0]), steps[1..]);
    }
  }

  /** What the rotation promises: whenever the script rests, a live token has its key, and every process accepts it exactly while it lives. */
  ghost predicate Honoured(s: State, t: Token) {
    s.phase.Resting? ==> (t.expires > s.now ==> OnDisk(s.disk, t.signer)) && forall m :: Accepts(s, m, t) <==> t.expires > s.now
  }

  ghost predicate Safe(p: Policy, grace: nat) {
    forall s, e | Initial(s) && Reaches(p, grace, s, e) :: forall t | t in e.tokens :: Honoured(e, t)
  }

  /** The weaker promise: live tokens' keys are on disk whenever the script rests. */
  ghost predicate DiskSafe(p: Policy, grace: nat) {
    forall s, e | Initial(s) && Reaches(p, grace, s, e) ::
      forall t | t in e.tokens && t.expires > e.now && e.phase.Resting? :: OnDisk(e.disk, t.signer)
  }

  lemma CarefulIsSafe(grace: nat)
    ensures Safe(CAREFUL, grace)
  {
    forall s, e | Initial(s) && Reaches(CAREFUL, grace, s, e) ensures forall t | t in e.tokens :: Honoured(e, t) {
      var steps :| Runs(CAREFUL, grace, s, steps) && After(CAREFUL, grace, s, steps) == e;
      InvThroughout(grace, s, steps);
      RestingHonours(grace, e);
    }
  }

  lemma RestingHonours(grace: nat, s: State)
    requires Inv(grace, s)
    ensures forall t | t in s.tokens :: Honoured(s, t)
  {
    forall t | t in s.tokens && t.expires > s.now && s.phase.Resting? ensures Honoured(s, t) {
      assert Kept(grace, s, t) && OnDisk(s.disk, t.signer);
    }
  }

  // ---------------------------------------------------------------------------------------
  // One losing schedule for each habit
  // ---------------------------------------------------------------------------------------

  const START := State(0, Disk(Some(0), Some(0), map[]), Resting, map[], map[], {}, 1)

  lemma {:induction false} Append(p: Policy, grace: nat, s: State, steps: seq<Step>, a: Step)
    requires Runs(p, grace, s, steps) && Enabled(p, grace, After(p, grace, s, steps), a)
    ensures Runs(p, grace, s, steps + [a]) && After(p, grace, s, steps + [a]) == Next(p, grace, After(p, grace, s, steps), a)
    decreases |steps|
  {
    if steps == [] {
      assert (steps + [a])[1..] == [];
    } else {
      Append(p, grace, Next(p, grace, s, steps[0]), steps[1..], a);
      assert (steps + [a])[1..] == steps[1..] + [a];
    }
  }

  lemma Go(p: Policy, grace: nat, cur: State, a: Step) returns (next: State)
    requires Reaches(p, grace, START, cur) && Enabled(p, grace, cur, a)
    ensures next == Next(p, grace, cur, a) && Reaches(p, grace, START, next)
  {
    var steps :| Runs(p, grace, START, steps) && After(p, grace, START, steps) == cur;
    Append(p, grace, START, steps, a);
    next := Next(p, grace, cur, a);
  }

  lemma AtStart(p: Policy, grace: nat)
    ensures Reaches(p, grace, START, START)
  {
    assert Runs(p, grace, START, []) && After(p, grace, START, []) == START;
  }

  /** An undisturbed signature of process 0. */
  lemma SignNow(p: Policy, grace: nat, cur: State) returns (next: State)
    requires Reaches(p, grace, START, cur) && Loads(cur) && MayLoad(p, cur.phase) && cur.drafts == map[] && cur.now == 0
    ensures Reaches(p, grace, START, next)
    ensures var c := Reloaded(cur, 0);
      next == cur.(caches := cur.caches[0 := c], tokens := cur.tokens + {Token(c.signer, c.kid, 0, grace)})
  {
    next := Go(p, grace, cur, ReadId(0, 0, grace));
    next := Go(p, grace, next, Sign(0));
    assert next.drafts == map[] && next.caches == cur.caches[0 := Reloaded(cur, 0)];
  }

  /** One token signed by process 0 with key 0. */
  lemma Signed(p: Policy, grace: nat) returns (cur: State)
    ensures Reaches(p, grace, START, cur)
    ensures cur == START.(caches := map[0 := Cache(0, 0, {0})], tokens := {Token(0, 0, 0, grace)})
  {
    AtStart(p, grace);
    cur := SignNow(p, grace, START);
    assert {0} + START.disk.retired.Keys == {0};
  }

  /** The new private key is written over an otherwise untouched directory. */
  lemma Switching(p: Policy, grace: nat, cur: State) returns (next: State)
    requires Reaches(p, grace, START, cur) && cur.phase.Resting? && cur.disk == START.disk && cur.next == 1
    requires cur.drafts != map[] ==> p.rotateMidSignature
    ensures Reaches(p, grace, START, next)
    ensures next == cur.(disk := Disk(Some(1), Some(0), map[]), phase := PrivateWritten(Some(0), 1), next := 2)
  {
    next := Go(p, grace, cur, Begin);
    next := Go(p, grace, next, WritePrivate);
  }

  lemma Unsafe(p: Policy, grace: nat, e: State, t: Token)
    requires Reaches(p, grace, START, e) && t in e.tokens && !Honoured(e, t)
    ensures !Safe(p, grace)
  {
  }

  /** The script dies with the private key set aside: no process can load, and none accepts anything. */
  lemma CrashStagedRefusesAll(p: Policy, grace: nat)
    requires p.crashStaged && grace > 0
    ensures !Safe(p, grace)
  {
    var cur := Signed(p, grace);
    cur := Go(p, grace, cur, Begin);
    cur := Go(p, grace, cur, Crash);
    assert !Accepts(cur, 0, Token(0, 0, 0, grace));
    Unsafe(p, grace, cur, Token(0, 0, 0, grace));
  }

  /** It dies between the two new files: what is signed from then on has its public key nowhere. */
  lemma CrashPrivateLosesKey(p: Policy, grace: nat)
    requires p.crashPrivate && grace > 0
    ensures !Safe(p, grace) && !DiskSafe(p, grace)
  {
    AtStart(p, grace);
    var cur := Switching(p, grace, START);
    cur := Go(p, grace, cur, Crash);
    cur := SignNow(p, grace, cur);
    var t := Token(1, 0, 0, grace);
    assert t in cur.tokens && !OnDisk(cur.disk, t.signer);
    Unsafe(p, grace, cur, t);
  }

  /** It dies before the old public key is written back: that key is nowhere. */
  lemma CrashPublicLosesKey(p: Policy, grace: nat)
    requires p.crashPublic && grace > 0
    ensures !Safe(p, grace) && !DiskSafe(p, grace)
  {
    var cur := Signed(p, grace);
    cur := Switching(p, grace, cur);
    cur := Go(p, grace, cur, WritePublic);
    cur := Go(p, grace, cur, Crash);
    var t := Token(0, 0, 0, grace);
    assert t in cur.tokens && !OnDisk(cur.disk, t.signer);
    Unsafe(p, grace, cur, t);
  }

  /** A process that signs between the two new files labels the token with the old key; nobody ever accepts it. */
  lemma LoadPrivateMislabels(p: Policy, grace: nat)
    requires p.loadPrivate && grace > 0
    ensures !Safe(p, grace)
  {
    AtStart(p, grace);
    var cur := Switching(p, grace, START);
    cur := SignNow(p, grace, cur);
    cur := Go(p, grace, cur, WritePublic);
    cur := Go(p, grace, cur, Retire);
    assert !Accepts(cur, 0, Token(1, 0, 0, grace));
    Unsafe(p, grace, cur, Token(1, 0, 0, grace));
  }

  /** A process reloads just before the old key is written back: it refuses live tokens until the next rotation. */
  lemma LoadPublicForgetsKey(p: Policy, grace: nat)
    requires p.loadPublic && grace > 0
    ensures !Safe(p, grace)
  {
    var cur := Signed(p, grace);
    cur := Switching(p, grace, cur);
    cur := Go(p, grace, cur, WritePublic);
    cur := Go(p, grace, cur, Load(1));
    cur := Go(p, grace, cur, Retire);
    assert !Accepts(cur, 1, Token(0, 0, 0, grace));
    Unsafe(p, grace, cur, Token(0, 0, 0, grace));
  }

  /** A whole rotation passes between the two reloads: the token carries the old id and the new signature. */
  lemma RotateMidSignatureMislabels(p: Policy, grace: nat)
    requires p.rotateMidSignature && grace > 0
    ensures !Safe(p, grace)
  {
    AtStart(p, grace);
    var cur := Go(p, grace, START, ReadId(0, 0, grace));
    cur := Switching(p, grace, cur);
    cur := Go(p, grace, cur, WritePublic);
    cur := Go(p, grace, cur, Retire);
    cur := Go(p, grace, cur, Sign(0));
    assert !Accepts(cur, 0, Token(1, 0, 0, grace));
    Unsafe(p, grace, cur, Token(1, 0, 0, grace));
  }

  /** Live tokens are honoured in every schedule exactly when none of the six things happens while the script is under way. */
  lemma SafeExactlyWhenCareful(p: Policy, grace: nat)
    requires grace > 0
    ensures Safe(p, grace) <==> p == CAREFUL
  {
    if p.crashStaged {
      CrashStagedRefusesAll(p, grace);
    } else if p.crashPrivate {
      CrashPrivateLosesKey(p, grace);
    } else if p.crashPublic {
      CrashPublicLosesKey(p, grace);
    } else if p.loadPrivate {
      LoadPrivateMislabels(p, grace);
    } else if p.loadPublic {
      LoadPublicForgetsKey(p, grace);
    } else if p.rotateMidSignature {
      RotateMidSignatureMislabels(p, grace);
    } else {
      CarefulIsSafe(grace);
    }
  }

  /** Their keys are on disk in every schedule exactly when the script, once it has written, finishes. */
  lemma DiskSafeExactlyWhenFinished(p: Policy, grace: nat)
    requires grace > 0
    ensures DiskSafe(p, grace) <==> FinishesWriting(p)
  {
    if p.crashPrivate {
      CrashPrivateLosesKey(p, grace);
    } else if p.crashPublic {
      CrashPublicLosesKey(p, grace);
    } else {
      forall s, e, t | Initial(s) && Reaches(p, grace, s, e) && t in e.tokens && t.expires > e.now && e.phase.Resting?
        ensures OnDisk(e.disk, t.signer)
      {
        LiveKeysAreKept(p, grace, s, e, t);
      }
    }
  }

  /** The token a signature under way would end in now. */
  function TokenOf(s: State, n: nat): Token
    requires n in s.drafts && Loads(s)
  {
    var d := s.drafts[n];
    Token(s.disk.priv.value, d.kid, d.issued, d.expires)
  }

  /**
   A finished signature is good for some process in some state exactly when the id it read is that
   of the key it signs with; otherwise no process accepts it in any state whatsoever.
   */
  lemma MislabelledIff(p: Policy, grace: nat, s: State, n: nat)
    requires Enabled(p, grace, s, Sign(n)) && s.drafts[n].expires > s.drafts[n].issued
    ensures TokenOf(s, n) in Next(p, grace, s, Sign(n)).tokens
    ensures (exists e, m :: Accepts(e, m, TokenOf(s, n))) <==> s.disk.priv == Some(s.drafts[n].kid)
  {
    var d, t := s.drafts[n], TokenOf(s, n);
    assert Reloaded(s, d.m).signer == s.disk.priv.value;
    if s.disk.priv == Some(d.kid) {
      var e := State(d.issued, Disk(Some(d.kid), Some(d.kid), map[]), Resting, map[], map[], {}, 0);
      assert d.kid in {d.kid} + e.disk.retired.Keys;
      assert Accepts(e, 0, t);
    }
  }

  /** So does a process that first loads, and signs, between the two new files. */
  lemma SignMidwayMislabels(p: Policy, grace: nat, lifetime: nat, m: Mid, n: nat, s: State)
    requires p.loadPrivate && lifetime <= grace && s.phase.PrivateWritten? && PhaseOk(s) && Loads(s) && m !in s.caches && n !in s.drafts
    ensures var read := Next(p, grace, s, ReadId(n, m, lifetime));
      && TokenOf(read, n) in Next(p, grace, read, Sign(n)).tokens
      && forall e, k :: !Accepts(e, k, TokenOf(read, n))
  {
    var read := Next(p, grace, s, ReadId(n, m, lifetime));
    assert Reloaded(read, m).signer == s.disk.priv.value;
    assert TokenOf(read, n).kid != TokenOf(read, n).signer;
  }
}
