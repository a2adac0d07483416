/**
 The vault operations of src/vault.rs as they update the credential slots, the file and
 the caller's memory in place. Each is proved to be a run of the step protocol, so what
 VaultSafety and VaultRecovery prove of the protocol holds of it.
 */
module VaultStore {
  import opened Wrappers
  import opened VaultEntries
  import opened VaultProtocol
  import opened VaultRecovery
  import VaultSafety

  class Store {
    var current: Slot
    var previous: Slot
    var disk: Option<Envelope>
    var nextNonce: nat
    var versions: seq<Version>
    var handles: map<Pid, Handle>

    /** The shared state as a world of the protocol. */
    function Snapshot(lock: Lock): World
      reads this
    {
      World(current, previous, disk, nextNonce, versions, handles, lock)
    }

    constructor (current: Slot, previous: Slot, found: Option<Envelope>)
      ensures this.current == current && this.previous == previous && disk == found && handles == map[]
      ensures Readable() ==> VaultSafety.Initial(Snapshot(Free(Nothing)))
    {
      this.current, this.previous, disk, handles := current, previous, found, map[];
      nextNonce := if found.Some? then found.value.nonce + 1 else 0;
      versions := if found.Some? then [Version(found.value, None, Found)] else [];
    }

    ghost predicate Readable()
      reads this
    {
      VaultSafety.Readable(Snapshot(Free(Nothing)))
    }

    /** A stored key opens the file, if there is one. */
    predicate Openable()
      reads this
    {
      disk.Some? ==> Opens(current, disk.value) || Opens(previous, disk.value)
    }

    /** The file is sealed under the current key, no other key is kept, and the process holds a
        handle of that file with these entries. */
    predicate Settled(pid: Pid, entries: seq<Entry>)
      reads this
    {
      && disk.Some? && disk.value.entries == entries && Opens(current, disk.value) && previous.Missing?
      && pid in handles && handles[pid] == Handle(entries, current.key, disk.value)
    }

    method SetCurrentKey(key: Key, fault: Fault) returns (ok: bool)
      modifies this`current
      ensures ok == fault.Works?
      ensures current == if fault.FailsBefore? then old(current) else Present(key)
    {
      if !fault.FailsBefore? {
        current := Present(key);
      }
      ok := fault.Works?;
    }

    method SetPreviousKey(key: Key, fault: Fault) returns (ok: bool)
      modifies this`previous
      ensures ok == fault.Works?
      ensures previous == if fault.FailsBefore? then old(previous) else Present(key)
    {
      if !fault.FailsBefore? {
        previous := Present(key);
      }
      ok := fault.Works?;
    }

    method DeletePreviousKey(fault: Fault) returns (ok: bool)
      modifies this`previous
      ensures ok == fault.Works?
      ensures previous == if fault.FailsBefore? then old(previous) else Missing
    {
      if !fault.FailsBefore? {
        previous := Missing;
      }
      ok := fault.Works?;
    }

    /** Seal the entries and replace the file by the result. */
    method Persist(entries: seq<Entry>, key: Key, base: Option<Envelope>, origin: Origin, fault: Fault)
      returns (ok: bool, sealed: Envelope)
      modifies this`disk, this`versions, this`nextNonce
      ensures ok == fault.Works?
      ensures sealed == Seal(entries, key, old(nextNonce))
      ensures forall lock: Lock ::
                Snapshot(lock) == (if fault.FailsBefore? then old(Snapshot(lock))
                                   else Place(old(Snapshot(lock)), Version(sealed, base, origin)))
    {
      sealed := Seal(entries, key, nextNonce);
      if !fault.FailsBefore? {
        disk := Some(sealed);
        versions := versions + [Version(sealed, base, origin)];
        nextNonce := nextNonce + 1;
      }
      ok := fault.Works?;
    }

    /** Open the file with the current key and drop the previous one, or recover the previous
        key into the current slot first. `i` counts the accesses made so far. */
    method DecryptExisting(pid: Pid, job: Job, env: Envelope, faults: nat -> Fault, i: nat)
      returns (key: Option<Key>, why: Reason, j: nat)
      requires disk == Some(env)
      requires !job.Load? ==> job.mine.fingerprint == env
      modifies this`current, this`previous
      ensures key.None? ==>
                Snapshot(Free(Failed(why))) == RunJob(AdvanceStart(old(Snapshot(Held(pid, job, Start)))), faults, i)
      ensures key.Some? ==>
                && Open(env, key.value).Some?
                && RunJob(AfterOpen(Snapshot(Held(pid, job, Start)), env, key.value), faults, j)
                   == RunJob(AdvanceStart(old(Snapshot(Held(pid, job, Start)))), faults, i)
      ensures key.Some? ==> Opens(current, env) && current.key == key.value && previous.Missing?
      ensures (forall k :: faults(k).Works?) ==> old(Opens(current, env) || Opens(previous, env)) ==> key.Some?
      ensures old(Opens(current, env) || Opens(previous, env)) ==> Opens(current, env) || Opens(previous, env)
      ensures old(!Opens(current, env) && !Opens(previous, env)) ==>
                key.None? && why == Undecryptable && current == old(current) && previous == old(previous)
    {
      ghost var w := AdvanceStart(Snapshot(Held(pid, job, Start)));
      j := i;
      why := StoreFailed;
      if Opens(current, env) {
        key := Some(current.key);
      } else if Opens(previous, env) {
        key := Some(previous.key);
        var restored := SetCurrentKey(key.value, faults(j));
        Unfold(w, faults, j);
        w := Advance(w, faults(j));
        j := j + 1;
        if !restored {
          return None, StoreFailed, j;
        }
      } else {
        return None, Undecryptable, j;
      }
      var deleted := DeletePreviousKey(faults(j));
      Unfold(w, faults, j);
      w := Advance(w, faults(j));
      j := j + 1;
      if !deleted {
        key := None;
      }
    }

    method LoadOrCreate(pid: Pid, minted: Key, faults: nat -> Fault) returns (outcome: Outcome)
      modifies this
      ensures Snapshot(Free(outcome)) ==
              RunJob(Begin(old(Snapshot(Free(Nothing))), pid, Load(minted)), faults, 0)
      ensures outcome.Finished? || outcome.Failed?
      ensures outcome.Finished? ==> Settled(pid, if old(disk).Some? then old(disk).value.entries else [])
      ensures outcome.Finished? ==> handles == old(handles)[pid := handles[pid]]
      ensures outcome.Failed? ==> handles == old(handles)
      ensures pid !in old(handles) ==> (outcome.Finished? <==> pid in handles)
      ensures old(disk).Some? ==> disk.Some? && disk.value.entries == old(disk).value.entries
      ensures old(disk).Some? && old(disk).value.version.Some? ==> disk == old(disk) && versions == old(versions)
      ensures (forall k :: faults(k).Works?) ==> old(Openable()) && (old(disk).Some? || !old(current).Invalid?) ==>
                outcome.Finished?
      ensures old(Openable()) ==> Openable()
      ensures !old(Openable()) ==>
                outcome.Failed? && Snapshot(Free(Nothing)) == old(Snapshot(Free(Nothing)))
                && (faults(0).Works? ==> outcome == Failed(Undecryptable))
    {
      var job := Load(minted);
      ghost var w := Begin(Snapshot(Free(Nothing)), pid, job);
      Unfold(w, faults, 0);
      if !faults(0).Works? {
        return Failed(StoreFailed);
      }
      if disk.None? {
        outcome := Create(pid, minted, faults);
        return;
      }
      var env := disk.value;
      var key, why, j := DecryptExisting(pid, job, env, faults, 1);
      if key.None? {
        return Failed(why);
      }
      if env.version.None? {
        w := AfterOpen(Snapshot(Held(pid, job, Start)), env, key.value);
        Unfold(w, faults, j);
        var ok, sealed := Persist(env.entries, key.value, Some(env), Migrated(pid), faults(j));
        if !ok {
          return Failed(StoreFailed);
        }
        env := sealed;
      }
      handles := handles[pid := Handle(env.entries, key.value, env)];
      outcome := Finished;
    }

    /** The load of a vault that does not exist yet. */
    method Create(pid: Pid, minted: Key, faults: nat -> Fault) returns (outcome: Outcome)
      requires disk.None?
      modifies this
      ensures Snapshot(Free(outcome)) ==
              RunJob(AdvanceStart(old(Snapshot(Held(pid, Load(minted), Start)))), faults, 1)
      ensures outcome.Finished? || outcome.Failed?
      ensures outcome.Finished? ==> Settled(pid, []) && handles == old(handles)[pid := handles[pid]]
      ensures outcome.Failed? ==> handles == old(handles)
      ensures (forall k :: faults(k).Works?) ==> !old(current).Invalid? ==> outcome.Finished?
      ensures Openable()
    {
      ghost var w := AdvanceStart(Snapshot(Held(pid, Load(minted), Start)));
      var i, key := 1, minted;
      if current.Invalid? {
        return Failed(InvalidKey);
      } else if current.Present? {
        key := current.key;
      } else {
        var stored := SetCurrentKey(minted, faults(1));
        Unfold(w, faults, 1);
        w := Advance(w, faults(1));
        i := 2;
        if !stored {
          return Failed(StoreFailed);
        }
      }
      Unfold(w, faults, i);
      w := Advance(w, faults(i));
      var ok, sealed := Persist([], key, None, Created(pid), faults(i));
      if !ok {
        return Failed(StoreFailed);
      }
      Unfold(w, faults, i + 1);
      var deleted := DeletePreviousKey(faults(i + 1));
      if !deleted {
        return Failed(StoreFailed);
      }
      handles := handles[pid := Handle([], key, sealed)];
      outcome := Finished;
    }

    method Save(pid: Pid, faults: nat -> Fault) returns (outcome: Outcome)
      requires pid in handles
      modifies this
      ensures Snapshot(Free(outcome)) ==
              RunJob(Begin(old(Snapshot(Free(Nothing))), pid, Job.Save(old(handles[pid]))), faults, 0)
      ensures outcome.Finished? || outcome.Failed?
      ensures outcome.Finished? ==>
                && Settled(pid, old(handles[pid]).entries) && current.key == old(handles[pid]).key
                && old(disk) == Some(old(handles[pid]).fingerprint)
                && handles == old(handles)[pid := handles[pid]]
      ensures outcome.Failed? ==>
                handles == old(handles)
                && (disk == old(disk) || (disk.Some? && disk.value.entries == old(handles[pid]).entries))
      ensures old(Openable()) ==> Openable()
      ensures !old(Openable()) || old(disk) != Some(old(handles[pid]).fingerprint) ==>
                outcome.Failed? && Snapshot(Free(Nothing)) == old(Snapshot(Free(Nothing)))
      ensures faults(0).Works? ==>
                && (old(disk).None? ==> outcome == Failed(FileMissing))
                && (old(disk).Some? && old(disk).value != old(handles[pid]).fingerprint ==> outcome == Failed(VaultChanged))
                && (!old(Openable()) && old(disk) == Some(old(handles[pid]).fingerprint) ==> outcome == Failed(Undecryptable))
    {
      var mine := handles[pid];
      var job := Job.Save(mine);
      ghost var w := Begin(Snapshot(Free(Nothing)), pid, job);
      Unfold(w, faults, 0);
      if !faults(0).Works? {
        return Failed(StoreFailed);
      }
      if disk.None? {
        return Failed(FileMissing);
      }
      if mine.fingerprint != disk.value {
        return Failed(VaultChanged);
      }
      var env := disk.value;
      var key, why, j := DecryptExisting(pid, job, env, faults, 1);
      if key.None? {
        return Failed(why);
      }
      if mine.key != key.value {
        return Failed(KeyChanged);
      }
      outcome := CommitEntries(pid, env, faults, j);
    }

    /** The write of a save. */
    method CommitEntries(pid: Pid, env: Envelope, faults: nat -> Fault, i: nat) returns (outcome: Outcome)
      requires pid in handles
      modifies this`disk, this`versions, this`nextNonce, this`handles
      ensures var mine := old(handles[pid]);
              Snapshot(Free(outcome)) == RunJob(old(Snapshot(Held(pid, Job.Save(mine), Commit(env, mine)))), faults, i)
      ensures outcome.Finished? || outcome.Failed?
      ensures disk == old(disk)
              || disk == Some(Seal(old(handles[pid]).entries, old(handles[pid]).key, old(nextNonce)))
      ensures outcome.Finished? ==>
                && disk == Some(Seal(old(handles[pid]).entries, old(handles[pid]).key, old(nextNonce)))
                && handles == old(handles)[pid := old(handles[pid]).(fingerprint := disk.value)]
      ensures outcome.Failed? ==> handles == old(handles)
    {
      var mine := handles[pid];
      Unfold(Snapshot(Held(pid, Job.Save(mine), Commit(env, mine))), faults, i);
      var ok, sealed := Persist(mine.entries, mine.key, Some(mine.fingerprint), Saved(pid), faults(i));
      if !ok {
        return Failed(StoreFailed);
      }
      handles := handles[pid := mine.(fingerprint := sealed)];
      outcome := Finished;
    }

    method RotateMasterKey(pid: Pid, minted: Key, faults: nat -> Fault) returns (outcome: Outcome)
      requires pid in handles
      modifies this
      ensures Snapshot(Free(outcome)) ==
              RunJob(Begin(old(Snapshot(Free(Nothing))), pid, Rotate(minted, old(handles[pid]))), faults, 0)
      ensures outcome.Finished? || outcome.Failed?
      ensures outcome.Finished? ==>
                && Settled(pid, old(handles[pid]).entries) && current == Present(minted)
                && old(disk) == Some(old(handles[pid]).fingerprint)
                && handles == old(handles)[pid := handles[pid]]
      ensures outcome.Failed? ==>
                disk == old(disk) || (disk.Some? && disk.value.entries == old(handles[pid]).entries)
      ensures old(Openable()) ==> Openable()
      ensures !old(Openable()) || old(disk) != Some(old(handles[pid]).fingerprint) ==>
                outcome.Failed? && Snapshot(Free(Nothing)) == old(Snapshot(Free(Nothing)))
      ensures faults(0).Works? ==>
                && (old(disk).None? ==> outcome == Failed(FileMissing))
                && (old(disk).Some? && old(disk).value != old(handles[pid]).fingerprint ==> outcome == Failed(VaultChanged))
                && (!old(Openable()) && old(disk) == Some(old(handles[pid]).fingerprint) ==> outcome == Failed(Undecryptable))
    {
      var mine := handles[pid];
      var job := Rotate(minted, mine);
      ghost var w := Begin(Snapshot(Free(Nothing)), pid, job);
      Unfold(w, faults, 0);
      if !faults(0).Works? {
        return Failed(StoreFailed);
      }
      if disk.None? {
        return Failed(FileMissing);
      }
      if mine.fingerprint != disk.value {
        return Failed(VaultChanged);
      }
      var env := disk.value;
      var key, why, j := DecryptExisting(pid, job, env, faults, 1);
      if key.None? {
        return Failed(why);
      }
      if mine.key != key.value {
        return Failed(KeyChanged);
      }
      outcome := Reseal(pid, minted, env, key.value, faults, j);
    }

    /** The writes of a rotation: the old key is parked before the new one becomes current,
        and is dropped only after the file has been replaced. */
    method Reseal(pid: Pid, minted: Key, env: Envelope, key: Key, faults: nat -> Fault, i: nat)
      returns (outcome: Outcome)
      requires pid in handles
      modifies this
      ensures var mine := old(handles[pid]);
              Snapshot(Free(outcome)) ==
              RunJob(old(Snapshot(Held(pid, Rotate(minted, mine), ParkPrevious(env, key, minted, mine)))), faults, i)
      ensures outcome.Finished? || outcome.Failed?
      ensures outcome.Finished? ==>
                && Settled(pid, old(handles[pid]).entries) && current == Present(minted)
                && handles == old(handles)[pid := handles[pid]]
      ensures outcome.Failed? ==>
                disk == old(disk) || (disk.Some? && disk.value.entries == old(handles[pid]).entries)
      ensures old(disk == Some(env) && Opens(current, env)) && Present(key) == old(current) ==> Openable()
    {
      var mine := handles[pid];
      ghost var w := Snapshot(Held(pid, Rotate(minted, mine), ParkPrevious(env, key, minted, mine)));
      Unfold(w, faults, i);
      w := Advance(w, faults(i));
      var parked := SetPreviousKey(key, faults(i));
      if !parked {
        return Failed(StoreFailed);
      }
      Unfold(w, faults, i + 1);
      w := Advance(w, faults(i + 1));
      var switched := SetCurrentKey(minted, faults(i + 1));
      if !switched {
        return Failed(StoreFailed);
      }
      outcome := ReplaceAndCleanUp(pid, minted, env, key, mine, faults, i + 2);
    }

    method ReplaceAndCleanUp(pid: Pid, minted: Key, env: Envelope, key: Key, mine: Handle, faults: nat -> Fault,
                             i: nat)
      returns (outcome: Outcome)
      modifies this
      ensures Snapshot(Free(outcome)) ==
              RunJob(old(Snapshot(Held(pid, Rotate(minted, mine), Replace(env, key, minted, mine)))), faults, i)
      ensures outcome.Finished? || outcome.Failed?
      ensures outcome.Finished? ==>
                && disk.Some? && disk.value == Seal(mine.entries, minted, disk.value.nonce)
                && current == old(current) && previous.Missing?
                && handles == old(handles)[pid := Handle(mine.entries, minted, disk.value)]
      ensures outcome.Failed? ==> disk == old(disk) || (disk.Some? && disk.value.entries == mine.entries)
      ensures old(current) == Present(minted) && old(Openable()) ==> Openable()
    {
      ghost var w := Snapshot(Held(pid, Rotate(minted, mine), Replace(env, key, minted, mine)));
      Unfold(w, faults, i);
      w := Advance(w, faults(i));
      var ok, sealed := Persist(mine.entries, minted, Some(mine.fingerprint), Rotated(pid), faults(i));
      if !ok {
        return Failed(StoreFailed);
      }
      handles := handles[pid := Handle(mine.entries, minted, sealed)];
      Unfold(w, faults, i + 1);
      var deleted := DeletePreviousKey(faults(i + 1));
      outcome := if deleted then Finished else Failed(StoreFailed);
    }
  }
}
