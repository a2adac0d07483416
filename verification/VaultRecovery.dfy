/**
 Whole jobs of the vault protocol: what one uninterrupted load recovers, when a save goes
 through, and that a rotation or a save interrupted by failures is all or nothing.
 */
module VaultRecovery {
  import opened Wrappers
  import opened VaultProtocol
  import opened VaultSafety

  function NoFaults(): nat -> Fault {
    i => Works
  }

  /** The world after process `pid` loads the vault without interruption. */
  function Loaded(w: World, pid: Pid, minted: Key): World {
    RunJob(Begin(w, pid, Load(minted)), NoFaults(), 0)
  }

  /** The current slot holds the key of the file on disk, which is a versioned envelope, and
      the previous slot is empty. */
  predicate Quiescent(w: World) {
    && w.lock == Free(Finished)
    && w.disk.Some? && w.disk.value.version == Some(ENVELOPE_VERSION)
    && Opens(w.current, w.disk.value)
    && w.previous.Missing?
  }

  lemma Unfold(w: World, faults: nat -> Fault, i: nat)
    requires w.lock.Held?
    ensures RunJob(w, faults, i) == RunJob(Advance(w, faults(i)), faults, i + 1)
  {
  }

  /** From every world with the lock free, however it was reached, one load ends in the
      quiescent state with exactly the entries of the file on disk. A file already in the
      current envelope format is not rewritten; a legacy one is resealed with its entries. */
  lemma LoadRecovers(w: World, pid: Pid, minted: Key)
    requires Inv(w) && w.lock.Free? && w.disk.Some?
    ensures var w' := Loaded(w, pid, minted);
            && Inv(w')
            && Quiescent(w')
            && w'.disk.value.entries == w.disk.value.entries
            && w'.current.key == w.disk.value.sealedWith
            && w'.handles == w.handles[pid := Handle(w.disk.value.entries, w'.current.key, w'.disk.value)]
            && (w.disk.value.version.Some? ==> SameHistory(w, w'))
            && (w.disk.value.version.None? ==>
                  w'.versions == w.versions + [Version(w'.disk.value, w.disk, Migrated(pid))])
  {
    var f := NoFaults();
    var w0 := Begin(w, pid, Load(minted));
    var w1 := Advance(w0, Works);
    AdvanceKeepsInv(w0, Works);
    Unfold(w0, f, 0);
    if w1.lock.at.RestoreCurrent? {
      var w2 := Advance(w1, Works);
      AdvanceKeepsInv(w1, Works);
      Unfold(w1, f, 1);
      FinishLoad(w2, 2);
    } else {
      FinishLoad(w1, 1);
    }
  }

  /** The end of a load, from the point where the current key is known to open the file. */
  lemma FinishLoad(w: World, i: nat)
    requires Inv(w) && w.lock.Held? && w.lock.job.Load? && w.lock.at.ForgetPrevious?
    ensures var w' := RunJob(w, NoFaults(), i);
            && Inv(w')
            && Quiescent(w')
            && w'.current == w.current
            && w'.disk.value.entries == w.disk.value.entries
            && w'.handles == w.handles[w.lock.pid := Handle(w.disk.value.entries, w.current.key, w'.disk.value)]
            && (w.disk.value.version.Some? ==> SameHistory(w, w'))
            && (w.disk.value.version.None? ==>
                  w'.versions == w.versions + [Version(w'.disk.value, w.disk, Migrated(w.lock.pid))])
  {
    var f := NoFaults();
    var w1 := Advance(w, Works);
    AdvanceKeepsInv(w, Works);
    Unfold(w, f, i);
    if w1.lock.Held? {
      AdvanceKeepsInv(w1, Works);
      Unfold(w1, f, i + 1);
    }
  }

  /** Loading again changes neither slot nor the file. */
  lemma LoadingAgainChangesNothing(w: World, first: Pid, second: Pid, minted: Key, again: Key)
    requires Inv(w) && w.lock.Free? && w.disk.Some?
    ensures var w1 := Loaded(w, first, minted); var w2 := Loaded(w1, second, again);
            first in w1.handles && w2 == w1.(handles := w1.handles[second := w1.handles[first]])
  {
    LoadRecovers(w, first, minted);
    LoadRecovers(Loaded(w, first, minted), second, again);
  }

  /** Whatever all processes did since the start, and wherever the lock holder then died,
      the next load returns the entries of the last envelope that reached the disk. */
  lemma EveryCrashIsRecovered(w: World, actions: seq<Action>, victim: Pid, pid: Pid, minted: Key)
    requires Initial(w)
    requires Exec(w, actions).lock.Held? ==> Exec(w, actions).lock.pid == victim
    requires Exec(w, actions).versions != []
    ensures var crashed := Do(Exec(w, actions), Crash(victim));
            var w' := Loaded(crashed, pid, minted);
            && Quiescent(w') && pid in w'.handles
            && w'.handles[pid].entries == crashed.versions[|crashed.versions| - 1].env.entries
            && w'.disk.value.entries == w'.handles[pid].entries
  {
    RunKeepsInv(w, actions);
    StepKeepsInv(Exec(w, actions), Crash(victim));
    LoadRecovers(Do(Exec(w, actions), Crash(victim)), pid, minted);
  }

  /** With no file, a load creates an empty vault under the stored key, or under the minted
      one when none is stored; it fails only when the slot holds something that is no key. */
  lemma LoadCreates(w: World, pid: Pid, minted: Key)
    requires Inv(w) && w.lock.Free? && w.disk.None?
    ensures var w' := Loaded(w, pid, minted);
            && Inv(w')
            && (Quiescent(w') <==> !w.current.Invalid?)
            && (w.current.Invalid? ==> w' == Release(w, Failed(InvalidKey)))
            && (!w.current.Invalid? ==>
                  && pid in w'.handles && w'.handles[pid].entries == [] && w'.disk.value.entries == []
                  && w'.current == (if w.current.Present? then w.current else Present(minted)))
  {
    var f := NoFaults();
    var w0 := Begin(w, pid, Load(minted));
    var w1 := Advance(w0, Works);
    AdvanceKeepsInv(w0, Works);
    Unfold(w0, f, 0);
    if w.current.Missing? {
      AdvanceKeepsInv(w1, Works);
      Unfold(w1, f, 1);
      FinishCreation(Advance(w1, Works), 2);
    } else if w.current.Present? {
      FinishCreation(w1, 1);
    }
  }

  lemma FinishCreation(w: World, i: nat)
    requires Inv(w) && w.lock.Held? && w.lock.at.PlaceEmpty?
    ensures var w' := RunJob(w, NoFaults(), i);
            && Inv(w') && Quiescent(w') && w'.current == w.current
            && w.lock.pid in w'.handles && w'.handles[w.lock.pid].entries == [] && w'.disk.value.entries == []
  {
    var w1 := Advance(w, Works);
    AdvanceKeepsInv(w, Works);
    Unfold(w, NoFaults(), i);
    AdvanceKeepsInv(w1, Works);
    Unfold(w1, NoFaults(), i + 1);
  }

  // ------------------------------------------------------------------ saves and rotations

  /** How far a save or a rotation begun in `start` has got: the file is still the one it
      began with, or it is that file's successor with the handle's entries. */
  predicate Written(start: World, w: World, mine: Handle) {
    && start.disk == Some(mine.fingerprint)
    && |w.versions| == |start.versions| + 1
    && w.versions[..|start.versions|] == start.versions
    && w.versions[|start.versions|].base == start.disk
    && w.disk == Some(w.versions[|start.versions|].env)
    && w.disk.value.entries == mine.entries
  }

  predicate UnderWay(start: World, w: World, job: Job)
    requires !job.Load?
  {
    match w.lock
    case Held(_, j, at) => j == job && (if at.Cleanup? then Written(start, w, job.mine) else SameHistory(start, w))
    case Free(Finished) => Written(start, w, job.mine)
    case Free(_) => SameHistory(start, w) || Written(start, w, job.mine)
  }

  /** Where a step of a save or a rotation leads: to the clean-up only through the
      replacement, and to success only through the clean-up or the commit. */
  lemma ControlFlow(w: World, fault: Fault)
    requires w.lock.Held? && !w.lock.job.Load? && PcOk(w)
    ensures var w' := Advance(w, fault);
            && (w'.lock.Held? ==> w'.lock.job == w.lock.job && !w.lock.at.Commit?)
            && (w'.lock.Held? ==> (w'.lock.at.Cleanup? <==> w.lock.at.Replace? && fault.Works?))
            && (w'.lock == Free(Finished) ==> fault.Works? && (w.lock.at.Cleanup? || w.lock.at.Commit?))
    ensures NextVersion(w).Some? ==> w.lock.at.Replace? || w.lock.at.Commit?
  {
  }

  lemma StepStaysUnderWay(start: World, w: World, job: Job, fault: Fault)
    requires Inv(w) && !job.Load? && w.lock.Held? && UnderWay(start, w, job)
    ensures UnderWay(start, Advance(w, fault), job)
  {
    ControlFlow(w, fault);
    AdvanceWritesWhole(w, fault);
    if NextVersion(w).Some? {
      assert Written(start, Place(w, NextVersion(w).value), job.mine);
    }
  }

  /** What every step of a job keeps, the whole job keeps. */
  lemma {:induction false} RunKeeps(good: World -> bool, w: World, faults: nat -> Fault, i: nat)
    requires good(w) && forall v, f {:trigger good(Advance(v, f))} :: good(v) && v.lock.Held? ==> good(Advance(v, f))
    ensures good(RunJob(w, faults, i)) && RunJob(w, faults, i).lock.Free?
    decreases Remaining(w)
  {
    if w.lock.Held? {
      assert good(Advance(w, faults(i)));
      RunKeeps(good, Advance(w, faults(i)), faults, i + 1);
    }
  }

  lemma RunStaysUnderWay(start: World, w: World, job: Job, faults: nat -> Fault, i: nat)
    requires Inv(w) && !job.Load? && UnderWay(start, w, job)
    ensures var w' := RunJob(w, faults, i); Inv(w') && w'.lock.Free? && UnderWay(start, w', job)
  {
    ghost var good := (v: World) => Inv(v) && UnderWay(start, v, job);
    forall v, f | good(v) && v.lock.Held?
      ensures good(Advance(v, f))
    {
      StepStaysUnderWay(start, v, job, f);
      AdvanceKeepsInv(v, f);
    }
    RunKeeps(good, w, faults, i);
  }

  /** However the reads and writes of a save or a rotation go, and wherever it gives up, the
      load that follows finds either exactly the entries that were on disk or exactly the
      caller's; after a reported success it finds the caller's. */
  lemma WriteIsAllOrNothing(w: World, pid: Pid, request: Request, faults: nat -> Fault, next: Pid, minted: Key)
    requires Inv(w) && w.lock.Free? && w.disk.Some? && pid in w.handles && !request.LoadVault?
    ensures var done := RunJob(Begin(w, pid, JobOf(w, pid, request)), faults, 0);
            var w' := Loaded(done, next, minted);
            && done.lock.Free? && Quiescent(w') && next in w'.handles
            && w'.handles[next].entries in {w.disk.value.entries, w.handles[pid].entries}
            && (done.lock == Free(Finished) ==> w'.handles[next].entries == w.handles[pid].entries)
            && (w.disk != Some(w.handles[pid].fingerprint) ==> w'.handles[next].entries == w.disk.value.entries)
  {
    var job := JobOf(w, pid, request);
    var started := Begin(w, pid, job);
    RunStaysUnderWay(w, started, job, faults, 0);
    var done := RunJob(started, faults, 0);
    assert done.disk.Some?;
    LoadRecovers(done, next, minted);
  }

  /** Without failures a save goes through exactly when the file is still the one the handle
      last saw; the key comparison never refuses one that passed the fingerprint check. */
  lemma SaveSucceedsExactlyWhenUnchanged(w: World, pid: Pid)
    requires Inv(w) && w.lock.Free? && pid in w.handles
    ensures var w' := RunJob(Begin(w, pid, Save(w.handles[pid])), NoFaults(), 0);
            && (w'.lock == Free(Finished) <==> w.disk == Some(w.handles[pid].fingerprint))
            && w'.lock != Free(Failed(KeyChanged))
            && (w'.lock == Free(Finished) ==>
                  Quiescent(w') && pid in w'.handles && w'.handles[pid] == w.handles[pid].(fingerprint := w'.disk.value)
                  && w'.disk.value.entries == w.handles[pid].entries)
  {
    var f := NoFaults();
    var w0 := Begin(w, pid, Save(w.handles[pid]));
    Unfold(w0, f, 0);
    var w1 := Advance(w0, Works);
    AdvanceKeepsInv(w0, Works);
    if w1.lock.Held? {
      if w1.lock.at.RestoreCurrent? {
        Unfold(w1, f, 1);
        AdvanceKeepsInv(w1, Works);
        FinishSave(Advance(w1, Works), 2);
      } else {
        FinishSave(w1, 1);
      }
    }
  }

  lemma FinishSave(w: World, i: nat)
    requires Inv(w) && w.lock.Held? && w.lock.job.Save? && w.lock.at.ForgetPrevious?
    ensures var w' := RunJob(w, NoFaults(), i);
            var mine := w.lock.job.mine;
            && Inv(w') && Quiescent(w') && w.lock.pid in w'.handles
            && w'.handles[w.lock.pid] == mine.(fingerprint := w'.disk.value)
            && w'.disk.value.entries == mine.entries
  {
    var f := NoFaults();
    var w1 := Advance(w, Works);
    AdvanceKeepsInv(w, Works);
    Unfold(w, f, i);
    AdvanceKeepsInv(w1, Works);
    Unfold(w1, f, i + 1);
  }

  /** Without failures, rotating an up-to-date handle reseals its entries under the minted
      key, makes that key current, and leaves no copy of the old key behind. */
  lemma RotationRetiresTheOldKey(w: World, pid: Pid, minted: Key)
    requires Inv(w) && w.lock.Free? && pid in w.handles && w.disk == Some(w.handles[pid].fingerprint)
    ensures var w' := RunJob(Begin(w, pid, Rotate(minted, w.handles[pid])), NoFaults(), 0);
            && Inv(w') && Quiescent(w')
            && w'.current == Present(minted)
            && pid in w'.handles && w'.handles[pid] == Handle(w.handles[pid].entries, minted, w'.disk.value)
            && w'.disk.value.entries == w.handles[pid].entries
            && forall k :: k != minted ==> Open(w'.disk.value, k).None?
  {
    var f := NoFaults();
    var w0 := Begin(w, pid, Rotate(minted, w.handles[pid]));
    Unfold(w0, f, 0);
    var w1 := Advance(w0, Works);
    AdvanceKeepsInv(w0, Works);
    if w1.lock.at.RestoreCurrent? {
      Unfold(w1, f, 1);
      AdvanceKeepsInv(w1, Works);
      FinishRotation(Advance(w1, Works), 2);
    } else {
      FinishRotation(w1, 1);
    }
  }

  lemma FinishReplacing(w: World, i: nat)
    requires Inv(w) && w.lock.Held? && w.lock.job.Rotate? && w.lock.at.Replace?
    ensures var w' := RunJob(w, NoFaults(), i);
            var minted, mine := w.lock.job.minted, w.lock.job.mine;
            && Inv(w') && Quiescent(w') && w'.current == Present(minted)
            && w.lock.pid in w'.handles && w'.handles[w.lock.pid] == Handle(mine.entries, minted, w'.disk.value)
            && w'.disk.value.entries == mine.entries && w'.disk.value.sealedWith == minted
  {
    var f := NoFaults();
    var w1 := Advance(w, Works);
    AdvanceKeepsInv(w, Works);
    Unfold(w, f, i);
    AdvanceKeepsInv(w1, Works);
    Unfold(w1, f, i + 1);
  }

  lemma FinishRotation(w: World, i: nat)
    requires Inv(w) && w.lock.Held? && w.lock.job.Rotate? && w.lock.at.ForgetPrevious?
    ensures var w' := RunJob(w, NoFaults(), i);
            var minted, mine := w.lock.job.minted, w.lock.job.mine;
            && Inv(w') && Quiescent(w') && w'.current == Present(minted)
            && w.lock.pid in w'.handles && w'.handles[w.lock.pid] == Handle(mine.entries, minted, w'.disk.value)
            && w'.disk.value.entries == mine.entries && w'.disk.value.sealedWith == minted
  {
    var f := NoFaults();
    var w1 := Advance(w, Works);
    AdvanceKeepsInv(w, Works);
    Unfold(w, f, i);
    var w2 := Advance(w1, Works);
    AdvanceKeepsInv(w1, Works);
    Unfold(w1, f, i + 1);
    var w3 := Advance(w2, Works);
    AdvanceKeepsInv(w2, Works);
    Unfold(w2, f, i + 2);
    FinishReplacing(w3, i + 3);
  }
}
