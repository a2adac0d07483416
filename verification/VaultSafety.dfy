/**
 What every interleaving of the vault protocol keeps: the file on disk can always be
 opened with a stored key, successful writes form one chain in which nobody's update is
 lost, and one uninterrupted load repairs whatever a crash or a failed write left behind.
 */
module VaultSafety {
  import opened Wrappers
  import opened VaultEntries
  import opened VaultProtocol

  // ------------------------------------------------------------------ the invariant

  predicate Readable(w: World) {
    w.disk.Some? ==> Opens(w.current, w.disk.value) || Opens(w.previous, w.disk.value)
  }

  predicate Chained(versions: seq<Version>) {
    && (forall i :: 0 < i < |versions| ==> versions[i].base == Some(versions[i - 1].env))
    && (forall i :: 0 < i < |versions| ==> !versions[i].origin.Created? && !versions[i].origin.Found?)
  }

  predicate FreshNonces(versions: seq<Version>, nextNonce: nat) {
    && (forall i :: 0 <= i < |versions| ==> versions[i].env.nonce < nextNonce)
    && (forall i, j :: 0 <= i < j < |versions| ==> versions[i].env.nonce < versions[j].env.nonce)
  }

  predicate DiskIsLastVersion(w: World) {
    w.disk == if w.versions == [] then None else Some(w.versions[|w.versions| - 1].env)
  }

  /** The file on disk is `env`, and `slot` holds the key that opens it. */
  predicate DiskOpens(w: World, env: Envelope, slot: Slot, key: Key) {
    w.disk == Some(env) && slot == Present(key) && Opens(slot, env)
  }

  predicate HandleHeld(w: World, mine: Handle) {
    w.lock.Held? && w.lock.pid in w.handles && w.handles[w.lock.pid] == mine
  }

  /** A save or a rotation works on its caller's handle. */
  predicate JobOk(w: World)
    requires w.lock.Held?
  {
    w.lock.job.Load? || HandleHeld(w, w.lock.job.mine)
  }

  predicate Owns(job: Job, env: Envelope) {
    job.Load? || job.mine.fingerprint == env
  }

  /** What the lock holder knows at each point of its job. */
  predicate PcOk(w: World)
    requires w.lock.Held?
  {
    var job := w.lock.job;
    match w.lock.at
    case Start => JobOk(w)
    case RestoreCurrent(env, key) => JobOk(w) && Owns(job, env) && DiskOpens(w, env, w.previous, key)
    case ForgetPrevious(env, key) => JobOk(w) && Owns(job, env) && DiskOpens(w, env, w.current, key)
    case Migrate(env, key) => job.Load? && DiskOpens(w, env, w.current, key) && w.previous.Missing?
    case StoreFirstKey(_) => job.Load? && w.disk.None?
    case PlaceEmpty(key) => job.Load? && w.disk.None? && w.current == Present(key)
    case ForgetStale(env, key) => job.Load? && DiskOpens(w, env, w.current, key)
    case ParkPrevious(env, key, minted, mine) =>
      job == Rotate(minted, mine) && HandleHeld(w, mine) && mine.fingerprint == env && mine.key == key
      && DiskOpens(w, env, w.current, key) && w.previous.Missing?
    case SwitchCurrent(env, key, minted, mine) =>
      job == Rotate(minted, mine) && HandleHeld(w, mine) && mine.fingerprint == env && mine.key == key
      && DiskOpens(w, env, w.current, key) && w.previous == Present(key)
    case Replace(env, key, minted, mine) =>
      job == Rotate(minted, mine) && HandleHeld(w, mine) && mine.fingerprint == env && mine.key == key
      && DiskOpens(w, env, w.previous, key) && w.current == Present(minted)
    case Cleanup(minted) => w.disk.Some? && DiskOpens(w, w.disk.value, w.current, minted)
    case Commit(env, mine) =>
      job == Save(mine) && HandleHeld(w, mine) && mine.fingerprint == env
      && DiskOpens(w, env, w.current, mine.key) && w.previous.Missing?
  }

  predicate HistoryOk(w: World) {
    && DiskIsLastVersion(w)
    && Chained(w.versions)
    && FreshNonces(w.versions, w.nextNonce)
  }

  /** A handle's key is the one its last seen envelope is sealed with. */
  predicate HandlesOk(w: World) {
    forall p :: p in w.handles ==> w.handles[p].key == w.handles[p].fingerprint.sealedWith
  }

  predicate Inv(w: World) {
    && HistoryOk(w)
    && HandlesOk(w)
    && Readable(w)
    && (w.lock.Held? ==> PcOk(w))
  }

  /** Before any process has run: no vault at all, or one file, of either envelope kind,
      that a stored key opens. The slots may hold anything else. */
  predicate Initial(w: World) {
    && w.lock == Free(Nothing)
    && w.handles == map[]
    && Readable(w)
    && w.versions == (if w.disk.None? then [] else [Version(w.disk.value, None, Found)])
    && (w.disk.Some? ==> w.disk.value.nonce < w.nextNonce)
  }

  // ------------------------------------------------------------------ safety of every run

  /** Placing a freshly sealed envelope over the one its writer believes is there extends
      the chain; so does placing the first one. */
  lemma PlaceKeepsHistory(w: World, v: Version)
    requires HistoryOk(w) && v.env.nonce == w.nextNonce
    requires w.disk.Some? ==> v.base == w.disk && !v.origin.Created? && !v.origin.Found?
    ensures HistoryOk(Place(w, v))
  {
  }

  /** The version the lock holder's next step puts on disk, if that step replaces the file. */
  function NextVersion(w: World): Option<Version>
    requires w.lock.Held?
  {
    var pid := w.lock.pid;
    match w.lock.at
    case Migrate(env, key) => Some(Version(Seal(env.entries, key, w.nextNonce), Some(env), Migrated(pid)))
    case PlaceEmpty(key) => Some(Version(Seal([], key, w.nextNonce), None, Created(pid)))
    case Replace(_, _, minted, mine) =>
      Some(Version(Seal(mine.entries, minted, w.nextNonce), Some(mine.fingerprint), Rotated(pid)))
    case Commit(_, mine) =>
      Some(Version(Seal(mine.entries, mine.key, w.nextNonce), Some(mine.fingerprint), Saved(pid)))
    case _ => None
  }

  predicate SameHistory(w: World, w': World) {
    w'.disk == w.disk && w'.versions == w.versions && w'.nextNonce == w.nextNonce
  }

  /** A step leaves the file alone or replaces it whole by its next version; it leaves it
      alone when its write fails before taking effect. */
  lemma AdvanceWritesWhole(w: World, fault: Fault)
    requires w.lock.Held?
    ensures SameHistory(if NextVersion(w).Some? && fault != FailsBefore then Place(w, NextVersion(w).value) else w,
                        Advance(w, fault))
  {
  }

  /** The handle the lock holder's next step leaves in its memory, if it completes. */
  function NextHandle(w: World): Option<Handle>
    requires w.lock.Held?
  {
    match w.lock.at
    case ForgetPrevious(env, key) =>
      if w.lock.job.Load? && env.version.Some? then Some(Handle(env.entries, key, env)) else None
    case Migrate(env, key) => Some(Handle(env.entries, key, Seal(env.entries, key, w.nextNonce)))
    case ForgetStale(env, key) => Some(Handle([], key, env))
    case Replace(_, _, minted, mine) =>
      Some(Handle(mine.entries, minted, Seal(mine.entries, minted, w.nextNonce)))
    case Commit(_, mine) => Some(mine.(fingerprint := Seal(mine.entries, mine.key, w.nextNonce)))
    case _ => None
  }

  lemma AdvanceSetsOwnHandle(w: World, fault: Fault)
    requires w.lock.Held?
    ensures Advance(w, fault).handles ==
            if NextHandle(w).Some? && fault.Works? then w.handles[w.lock.pid := NextHandle(w).value] else w.handles
  {
  }

  lemma NextHandleOk(w: World)
    requires w.lock.Held? && PcOk(w) && HandlesOk(w) && NextHandle(w).Some?
    ensures var h := NextHandle(w).value;
            h.key == h.fingerprint.sealedWith && Advance(w, Works).disk == Some(h.fingerprint)
  {
  }

  lemma AdvanceKeepsHistory(w: World, fault: Fault)
    requires Inv(w) && w.lock.Held?
    ensures HistoryOk(Advance(w, fault))
  {
    AdvanceWritesWhole(w, fault);
    if NextVersion(w).Some? {
      PlaceKeepsHistory(w, NextVersion(w).value);
    }
  }

  lemma AdvanceKeepsReadable(w: World, fault: Fault)
    requires Readable(w) && w.lock.Held? && PcOk(w)
    ensures Readable(Advance(w, fault))
  {
  }

  lemma AdvanceKeepsPc(w: World, fault: Fault)
    requires w.lock.Held? && PcOk(w) && Advance(w, fault).lock.Held?
    ensures PcOk(Advance(w, fault))
  {
  }

  lemma AdvanceKeepsInv(w: World, fault: Fault)
    requires Inv(w) && w.lock.Held?
    ensures Inv(Advance(w, fault))
  {
    AdvanceKeepsHistory(w, fault);
    AdvanceKeepsReadable(w, fault);
    if Advance(w, fault).lock.Held? {
      AdvanceKeepsPc(w, fault);
    }
    AdvanceSetsOwnHandle(w, fault);
    if NextHandle(w).Some? {
      NextHandleOk(w);
    }
  }

  lemma AcquireKeepsInv(w: World, pid: Pid, request: Request)
    requires Inv(w)
    ensures Inv(Do(w, Acquire(pid, request)))
  {
  }

  lemma CrashKeepsPc(w: World, pid: Pid)
    requires w.lock.Held? && w.lock.pid != pid && PcOk(w)
    ensures PcOk(w.(handles := w.handles - {pid}))
  {
  }

  lemma CrashKeepsInv(w: World, pid: Pid)
    requires Inv(w)
    ensures Inv(Do(w, Crash(pid)))
  {
    if w.lock.Held? && w.lock.pid != pid {
      CrashKeepsPc(w, pid);
    }
  }

  lemma EditKeepsPc(w: World, pid: Pid, h: Handle)
    requires w.lock.Held? && w.lock.pid != pid && PcOk(w)
    ensures PcOk(w.(handles := w.handles[pid := h]))
  {
  }

  lemma EditKeepsInv(w: World, pid: Pid, entries: seq<Entry>)
    requires Inv(w)
    ensures Inv(Do(w, Edit(pid, entries)))
  {
    if pid in w.handles && w.lock.Held? && w.lock.pid != pid {
      EditKeepsPc(w, pid, w.handles[pid].(entries := entries));
    }
  }

  lemma StepKeepsInv(w: World, a: Action)
    requires Inv(w)
    ensures Inv(Do(w, a))
  {
    match a
    case Acquire(pid, request) => AcquireKeepsInv(w, pid, request);
    case Proceed(fault) =>
      if w.lock.Held? {
        AdvanceKeepsInv(w, fault);
      }
    case Crash(pid) => CrashKeepsInv(w, pid);
    case Edit(pid, entries) => EditKeepsInv(w, pid, entries);
  }

  lemma {:induction false} RunKeepsInv(w: World, actions: seq<Action>)
    requires Inv(w)
    ensures Inv(Exec(w, actions))
  {
    if actions != [] {
      RunKeepsInv(w, actions[..|actions| - 1]);
      StepKeepsInv(Exec(w, actions[..|actions| - 1]), actions[|actions| - 1]);
    }
  }

  /** In every reachable world, whatever crashed or failed on the way, one of the two stored
      keys opens the vault file. */
  lemma AlwaysReadable(w: World, actions: seq<Action>)
    requires Initial(w)
    ensures Readable(Exec(w, actions))
  {
    RunKeepsInv(w, actions);
  }

  // ------------------------------------------------------------------ no lost update

  lemma {:induction false} VersionsOnlyGrow(w: World, actions: seq<Action>)
    ensures w.versions <= Exec(w, actions).versions
  {
    if actions != [] {
      VersionsOnlyGrow(w, actions[..|actions| - 1]);
      var w' := Exec(w, actions[..|actions| - 1]);
      if w'.lock.Held? {
        forall fault: Fault
          ensures w'.versions <= Advance(w', fault).versions
        {
          AdvanceWritesWhole(w', fault);
        }
      }
    }
  }

  /** Whenever a process comes to hold a new fingerprint, it is that of the file on disk. */
  lemma NewFingerprintIsCurrent(w: World, a: Action, p: Pid)
    requires Inv(w) && p in Do(w, a).handles
    requires p in w.handles ==> Do(w, a).handles[p].fingerprint != w.handles[p].fingerprint
    ensures Do(w, a).disk == Some(Do(w, a).handles[p].fingerprint)
  {
    assert a.Proceed? && w.lock.Held?;
    AdvanceSetsOwnHandle(w, a.fault);
    NextHandleOk(w);
  }

  /** If a process last loaded or wrote the vault in world `w`, and after any run of all
      processes its next save or rotation replaces the file, then nobody has replaced the
      file in between: the write overwrites exactly what the process had seen. */
  lemma NoLostUpdate(w: World, actions: seq<Action>, w2: World, a: Action, w3: World, p: Pid)
    requires w2 == Exec(w, actions) && w3 == Do(w2, a)
    requires Inv(w) && p in w.handles && w.disk == Some(w.handles[p].fingerprint)
    requires p in w2.handles && w2.handles[p].fingerprint == w.handles[p].fingerprint && Replaces(w2, w3, p)
    ensures w2.versions == w.versions && w3.versions[|w.versions|].base == w.disk
  {
    RunKeepsInv(w, actions);
    VersionsOnlyGrow(w, actions);
    NothingInBetween(w, w2, a, w3, p);
  }

  /** A process's save or rotation has just replaced the file. */
  predicate Replaces(w: World, w': World, p: Pid) {
    |w'.versions| > |w.versions| && w'.versions[|w'.versions| - 1].origin in {Saved(p), Rotated(p)}
  }

  lemma NothingInBetween(w: World, w2: World, a: Action, w3: World, p: Pid)
    requires Inv(w) && Inv(w2) && w.versions <= w2.versions && p in w.handles && w.disk == Some(w.handles[p].fingerprint)
    requires w3 == Do(w2, a)
    requires p in w2.handles && w2.handles[p].fingerprint == w.handles[p].fingerprint && Replaces(w2, w3, p)
    ensures w2.versions == w.versions && w3.versions[|w.versions|].base == w.disk
  {
    WriterSeesTheDisk(w2, a, p);
    SameFileSameHistory(w, w2);
  }

  /** A process whose save or rotation replaces the file has the file it replaces in its handle. */
  lemma WriterSeesTheDisk(w: World, a: Action, p: Pid)
    requires Inv(w) && Replaces(w, Do(w, a), p)
    ensures p in w.handles && w.disk == Some(w.handles[p].fingerprint)
    ensures Do(w, a).versions[|w.versions|].base == w.disk
  {
    assert a.Proceed? && w.lock.Held?;
    AdvanceWritesWhole(w, a.fault);
  }

  /** The same file on disk means that nothing was written in between, since no two writes
      leave the same nonce. */
  lemma SameFileSameHistory(w: World, w': World)
    requires HistoryOk(w) && HistoryOk(w') && w.versions <= w'.versions
    requires w.disk.Some? && w.disk == w'.disk
    ensures w.versions == w'.versions
  {
  }

  /** Over any run from the start, every write but the first replaced exactly the envelope
      before it: for a save or a rotation, the one its handle had last seen. */
  lemma SuccessfulWritesFormOneChain(w: World, actions: seq<Action>)
    requires Initial(w)
    ensures Chained(Exec(w, actions).versions)
    ensures DiskIsLastVersion(Exec(w, actions))
  {
    RunKeepsInv(w, actions);
  }
}
