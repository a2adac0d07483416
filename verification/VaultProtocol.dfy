/**
 The protocol that several processes follow to share one encrypted vault file and two
 credential slots (src/vault.rs). Every credential write or delete and every file
 replacement is one step; the operating system's file lock lets one process at a time
 take steps, and a crash, a failed read or a failed write may fall between any two.

 Cryptography is ideal: an envelope opens exactly under the key that sealed it and the
 associated data its version calls for, nonces never repeat, and the SHA-256 fingerprint
 of an envelope is as good as the envelope itself.
 */
module VaultProtocol {
  import opened Wrappers
  import opened VaultEntries

  type Pid = nat
  type Key = nat

  const ENVELOPE_VERSION: nat := 1

  datatype Aad = LegacyAad | EnvelopeAad

  datatype Envelope = Envelope(version: Option<nat>, nonce: nat, sealedWith: Key, aad: Aad, entries: seq<Entry>)

  /** What a credential slot holds: nothing, something that is not a key, or a key. */
  datatype Slot = Missing | Invalid | Present(key: Key)

  /** A loaded vault in one process's memory. */
  datatype Handle = Handle(entries: seq<Entry>, key: Key, fingerprint: Envelope)

  datatype Origin = Found | Created(pid: Pid) | Migrated(pid: Pid) | Saved(pid: Pid) | Rotated(pid: Pid)

  /** One envelope that was ever the vault file, and the envelope its writer believed it replaced. */
  datatype Version = Version(env: Envelope, base: Option<Envelope>, origin: Origin)

  /** A call a process makes on the vault, with the key it would generate. */
  datatype Request = LoadVault(minted: Key) | RotateKey(minted: Key) | SaveVault

  /** A call under way. A save or a rotation works on the handle `mine` it was called on. */
  datatype Job = Load(minted: Key) | Rotate(minted: Key, mine: Handle) | Save(mine: Handle)

  /** Where the lock holder stands: each constructor but Start names the write it does next. */
  datatype Pc =
    | Start
    | RestoreCurrent(env: Envelope, key: Key)
    | ForgetPrevious(env: Envelope, key: Key)
    | Migrate(env: Envelope, key: Key)
    | StoreFirstKey(minted: Key)
    | PlaceEmpty(key: Key)
    | ForgetStale(env: Envelope, key: Key)
    | ParkPrevious(env: Envelope, key: Key, minted: Key, mine: Handle)
    | SwitchCurrent(env: Envelope, key: Key, minted: Key, mine: Handle)
    | Replace(env: Envelope, key: Key, minted: Key, mine: Handle)
    | Cleanup(minted: Key)
    | Commit(env: Envelope, mine: Handle)

  datatype Reason = StoreFailed | FileMissing | VaultChanged | KeyChanged | Undecryptable | InvalidKey

  datatype Outcome = Nothing | Finished | Failed(reason: Reason)

  datatype Lock = Free(last: Outcome) | Held(pid: Pid, job: Job, at: Pc)

  /** How a step's store or file access goes. A replacement can fail after the rename took
      effect, because the directory is synced afterwards. */
  datatype Fault = Works | FailsBefore | FailsAfter

  datatype World = World(
    current: Slot,
    previous: Slot,
    disk: Option<Envelope>,
    nextNonce: nat,
    versions: seq<Version>,
    handles: map<Pid, Handle>,
    lock: Lock)

  // ------------------------------------------------------------------ envelopes

  function Seal(entries: seq<Entry>, key: Key, nonce: nat): Envelope {
    Envelope(Some(ENVELOPE_VERSION), nonce, key, EnvelopeAad, entries)
  }

  function ExpectedAad(version: Option<nat>): Option<Aad> {
    match version
    case None => Some(LegacyAad)
    case Some(v) => if v == ENVELOPE_VERSION then Some(EnvelopeAad) else None
  }

  function Open(env: Envelope, key: Key): Option<seq<Entry>> {
    if env.sealedWith == key && ExpectedAad(env.version) == Some(env.aad) then Some(env.entries) else None
  }

  predicate Opens(slot: Slot, env: Envelope) {
    slot.Present? && Open(env, slot.key).Some?
  }

  // ------------------------------------------------------------------ one step

  function Release(w: World, outcome: Outcome): World {
    w.(lock := Free(outcome))
  }

  function MoveTo(w: World, pc: Pc): World
    requires w.lock.Held?
  {
    w.(lock := w.lock.(at := pc))
  }

  /** The world after a write that was meant to lead from `w` to `written` and on to `next`. */
  function Attempt(w: World, written: World, next: World, fault: Fault): World {
    match fault
    case Works => next
    case FailsBefore => Release(w, Failed(StoreFailed))
    case FailsAfter => Release(written, Failed(StoreFailed))
  }

  function Place(w: World, version: Version): World {
    w.(disk := Some(version.env), versions := w.versions + [version], nextNonce := w.nextNonce + 1)
  }

  function Finish(w: World, pid: Pid, handle: Handle): World {
    Release(w.(handles := w.handles[pid := handle]), Finished)
  }

  function Begin(w: World, pid: Pid, job: Job): World {
    w.(lock := Held(pid, job, Start))
  }

  function AdvanceStart(w: World): World
    requires w.lock.Held?
  {
    match w.disk
    case None =>
      if !w.lock.job.Load? then Release(w, Failed(FileMissing))
      else (match w.current
            case Present(key) => MoveTo(w, PlaceEmpty(key))
            case Missing => MoveTo(w, StoreFirstKey(w.lock.job.minted))
            case Invalid => Release(w, Failed(InvalidKey)))
    case Some(env) =>
      if !w.lock.job.Load? && w.lock.job.mine.fingerprint != env then Release(w, Failed(VaultChanged))
      else if Opens(w.current, env) then MoveTo(w, ForgetPrevious(env, w.current.key))
      else if Opens(w.previous, env) then MoveTo(w, RestoreCurrent(env, w.previous.key))
      else Release(w, Failed(Undecryptable))
  }

  /** The continuation of a job once the file on disk has been opened with `key`. */
  function AfterOpen(w: World, env: Envelope, key: Key): World
    requires w.lock.Held?
  {
    match w.lock.job
    case Load(_) =>
      if env.version.None? then MoveTo(w, Migrate(env, key))
      else Finish(w, w.lock.pid, Handle(env.entries, key, env))
    case Rotate(minted, mine) =>
      if mine.key != key then Release(w, Failed(KeyChanged)) else MoveTo(w, ParkPrevious(env, key, minted, mine))
    case Save(mine) =>
      if mine.key != key then Release(w, Failed(KeyChanged)) else MoveTo(w, Commit(env, mine))
  }

  /** One step of the lock holder. A failed read leaves the world as it was. */
  function Advance(w: World, fault: Fault): World
    requires w.lock.Held?
  {
    var pid := w.lock.pid;
    match w.lock.at
    case Start =>
      if fault.Works? then AdvanceStart(w) else Release(w, Failed(StoreFailed))
    case RestoreCurrent(env, key) =>
      var written := w.(current := Present(key));
      Attempt(w, written, MoveTo(written, ForgetPrevious(env, key)), fault)
    case ForgetPrevious(env, key) =>
      var written := w.(previous := Missing);
      Attempt(w, written, AfterOpen(written, env, key), fault)
    case Migrate(env, key) =>
      var sealed := Seal(env.entries, key, w.nextNonce);
      var written := Place(w, Version(sealed, Some(env), Migrated(pid)));
      Attempt(w, written, Finish(written, pid, Handle(env.entries, key, sealed)), fault)
    case StoreFirstKey(minted) =>
      var written := w.(current := Present(minted));
      Attempt(w, written, MoveTo(written, PlaceEmpty(minted)), fault)
    case PlaceEmpty(key) =>
      var sealed := Seal([], key, w.nextNonce);
      var written := Place(w, Version(sealed, None, Created(pid)));
      Attempt(w, written, MoveTo(written, ForgetStale(sealed, key)), fault)
    case ForgetStale(env, key) =>
      var written := w.(previous := Missing);
      Attempt(w, written, Finish(written, pid, Handle([], key, env)), fault)
    case ParkPrevious(env, key, minted, mine) =>
      var written := w.(previous := Present(key));
      Attempt(w, written, MoveTo(written, SwitchCurrent(env, key, minted, mine)), fault)
    case SwitchCurrent(env, key, minted, mine) =>
      var written := w.(current := Present(minted));
      Attempt(w, written, MoveTo(written, Replace(env, key, minted, mine)), fault)
    case Replace(env, key, minted, mine) =>
      var sealed := Seal(mine.entries, minted, w.nextNonce);
      var written := Place(w, Version(sealed, Some(mine.fingerprint), Rotated(pid)));
      var updated := Handle(mine.entries, minted, sealed);
      Attempt(w, written, MoveTo(written.(handles := w.handles[pid := updated]), Cleanup(minted)), fault)
    case Cleanup(_) =>
      var written := w.(previous := Missing);
      Attempt(w, written, Release(written, Finished), fault)
    case Commit(env, mine) =>
      var sealed := Seal(mine.entries, mine.key, w.nextNonce);
      var written := Place(w, Version(sealed, Some(mine.fingerprint), Saved(pid)));
      Attempt(w, written, Finish(written, pid, mine.(fingerprint := sealed)), fault)
  }

  // ------------------------------------------------------------------ interleavings

  /** Everything that can happen next: a process takes the lock, the lock holder takes a
      step, a process dies, or a process edits the entries it holds in memory. */
  datatype Action =
    | Acquire(pid: Pid, request: Request)
    | Proceed(fault: Fault)
    | Crash(pid: Pid)
    | Edit(pid: Pid, entries: seq<Entry>)

  function JobOf(w: World, pid: Pid, request: Request): Job
    requires request.LoadVault? || pid in w.handles
  {
    match request
    case LoadVault(minted) => Load(minted)
    case RotateKey(minted) => Rotate(minted, w.handles[pid])
    case SaveVault => Save(w.handles[pid])
  }

  predicate Enabled(w: World, a: Action) {
    match a
    case Acquire(pid, request) => w.lock.Free? && (request.LoadVault? || pid in w.handles)
    case Proceed(_) => w.lock.Held?
    case Crash(_) => true
    case Edit(pid, _) => pid in w.handles && (w.lock.Held? ==> w.lock.pid != pid)
  }

  function Do(w: World, a: Action): World {
    if !Enabled(w, a) then w
    else
      match a
      case Acquire(pid, request) => Begin(w, pid, JobOf(w, pid, request))
      case Proceed(fault) => Advance(w, fault)
      case Crash(pid) =>
        var dead := w.(handles := w.handles - {pid});
        if w.lock.Held? && w.lock.pid == pid then Release(dead, Nothing) else dead
      case Edit(pid, entries) => w.(handles := w.handles[pid := w.handles[pid].(entries := entries)])
  }

  /** The world after a whole run of actions; an action that is not enabled changes nothing. */
  function Exec(w: World, actions: seq<Action>): World {
    if actions == [] then w else Do(Exec(w, actions[..|actions| - 1]), actions[|actions| - 1])
  }

  // ------------------------------------------------------------------ one whole job

  function Rank(pc: Pc): nat {
    match pc
    case Start => 9
    case StoreFirstKey(_) => 8
    case PlaceEmpty(_) => 7
    case ForgetStale(_, _) => 6
    case RestoreCurrent(_, _) => 8
    case ForgetPrevious(_, _) => 7
    case Migrate(_, _) => 6
    case Commit(_, _) => 6
    case ParkPrevious(_, _, _, _) => 6
    case SwitchCurrent(_, _, _, _) => 5
    case Replace(_, _, _, _) => 4
    case Cleanup(_) => 3
  }

  function Remaining(w: World): nat {
    if w.lock.Held? then 1 + Rank(w.lock.at) else 0
  }

  /** The job of the lock holder carried to its end without a crash; `faults(i)` says how
      its i-th step goes. */
  function RunJob(w: World, faults: nat -> Fault, i: nat): World
    decreases Remaining(w)
  {
    if w.lock.Free? then w else RunJob(Advance(w, faults(i)), faults, i + 1)
  }

  /** While nobody holds the lock, any process may begin a load, and one with a handle a save or
      a rotation as well; beginning changes nothing but the lock. And no job goes on for ever. */
  lemma AnyoneMayBegin(w: World, pid: Pid, request: Request, fault: Fault)
    requires w.lock.Free? && (!request.LoadVault? ==> pid in w.handles)
    ensures var begun := Do(w, Acquire(pid, request));
            && begun.lock.Held? && begun.lock.pid == pid && begun == w.(lock := begun.lock)
            && (Do(begun, Proceed(fault)).lock.Held? ==> Remaining(Do(begun, Proceed(fault))) < Remaining(begun))
  {
  }
}
