/**
 Replacing a file as a whole (src/vault.rs, `atomic_write`): the new contents go to a fresh
 temporary file beside it, which is then renamed over it. A crash leaves the directory as it
 was after any one of the steps, so every directory passed through is reported.
 */
module AtomicFile {
  import opened Wrappers

  type Files = map<string, string>

  datatype Error = NoFreshName | CreateFailed | WriteFailed | RenameFailed | DirectorySyncFailed

  const ATTEMPTS: nat := 128

  /** What goes wrong: a candidate for the temporary name is a tag, a write may stop after so
      many bytes, and the last syncing of the directory comes after the rename. */
  datatype Faults = Faults(tags: nat -> string, createFails: bool, writtenUpTo: Option<nat>, syncFails: bool,
                           renameFails: bool, cleanUpFails: bool, directorySyncFails: bool)

  function TemporaryName(name: string, tag: string): string {
    "." + name + "." + tag + ".tmp"
  }

  lemma TemporaryNameIsAnother(name: string, tag: string)
    ensures TemporaryName(name, tag) != name
  {
  }

  /** A name stands for the same file, or for none, in two directories. */
  predicate SameAt(a: Files, b: Files, name: string) {
    (name in a <==> name in b) && (name in a ==> a[name] == b[name])
  }

  /** Nothing stands in the way of a whole write. */
  predicate Unhindered(faults: Faults, contents: string) {
    && !faults.createFails && !faults.syncFails && !faults.renameFails
    && (faults.writtenUpTo.Some? ==> faults.writtenUpTo.value >= |contents|)
  }

  /** The file is whole, old or new, and nothing else differs but for one temporary file. */
  ghost predicate Whole(before: Files, files: Files, name: string, contents: string, temporary: string) {
    && (SameAt(files, before, name) || (name in files && files[name] == contents))
    && forall other :: other != name && other != temporary ==> SameAt(files, before, other)
  }

  class Directory {
    var files: Files

    constructor (files: Files)
      ensures this.files == files
    {
      this.files := files;
    }

    /** A fresh empty file, unless all of 128 candidate names are taken. */
    method CreateTemporary(name: string, faults: Faults) returns (temporary: Option<string>, error: Error)
      modifies this
      ensures temporary.None? ==> files == old(files) && (error == NoFreshName || error == CreateFailed)
      ensures temporary.Some? ==> temporary.value != name && temporary.value !in old(files)
                                  && files == old(files)[temporary.value := ""]
      ensures temporary.None? && error == NoFreshName <==>
              forall i: nat :: i < 128 ==> TemporaryName(name, faults.tags(i)) in old(files)
      ensures temporary.Some? ==>
                exists i: nat :: i < 128 && temporary.value == "." + name + "." + faults.tags(i) + ".tmp"
      ensures temporary.Some? ==> !faults.createFails
      ensures temporary.None? && error != NoFreshName ==> faults.createFails
    {
      var i: nat := 0;
      while i < ATTEMPTS
        invariant i <= ATTEMPTS && files == old(files)
        invariant forall k: nat :: k < i ==> TemporaryName(name, faults.tags(k)) in files
      {
        var candidate := TemporaryName(name, faults.tags(i));
        if candidate !in files {
          if faults.createFails {
            return None, CreateFailed;
          }
          TemporaryNameIsAnother(name, faults.tags(i));
          files := files[candidate := ""];
          return Some(candidate), CreateFailed;
        }
        i := i + 1;
      }
      return None, NoFreshName;
    }

    /** Removes the temporary file of an attempt that failed, if that works. */
    method CleanUp(temporary: string, faults: Faults)
      modifies this
      ensures files == if faults.cleanUpFails then old(files) else old(files) - {temporary}
    {
      if !faults.cleanUpFails {
        files := files - {temporary};
      }
    }

    /** Writes as much of the contents as can be, to a file that is there. */
    method Fill(t: string, contents: string, faults: Faults) returns (written: nat, ghost seen: seq<Files>)
      requires t in files && files[t] == ""
      modifies this
      ensures written <= |contents| && files == old(files)[t := contents[..written]]
      ensures written == |contents| <==> faults.writtenUpTo.None? || faults.writtenUpTo.value >= |contents|
      ensures |seen| > 0 && seen[0] == old(files) && seen[|seen| - 1] == files
      ensures forall i :: 0 <= i < |seen| ==> OnlyIn(old(files), seen[i], t)
    {
      ghost var before := files;
      seen := [files];
      written := 0;
      while written < |contents| && !(faults.writtenUpTo.Some? && written >= faults.writtenUpTo.value)
        invariant written <= |contents| && t in files && files == before[t := contents[..written]]
        invariant faults.writtenUpTo.Some? ==> written <= faults.writtenUpTo.value
        invariant |seen| > 0 && seen[0] == before && seen[|seen| - 1] == files
        invariant forall i :: 0 <= i < |seen| ==> OnlyIn(before, seen[i], t)
      {
        files := files[t := contents[..written + 1]];
        written := written + 1;
        seen := seen + [files];
      }
    }

    /** Succeeds with exactly the new contents in place, or fails; in between, and so after a
        crash, the file is never anything but whole. */
    method AtomicWrite(name: string, contents: string, faults: Faults)
      returns (error: Option<Error>, ghost temporary: string, ghost seen: seq<Files>)
      modifies this
      ensures error.None? || error == Some(DirectorySyncFailed) ==> files == old(files)[name := contents]
      ensures error.Some? && error != Some(DirectorySyncFailed) ==> SameAt(files, old(files), name)
      ensures error.Some? && error != Some(DirectorySyncFailed) && !faults.cleanUpFails ==> files == old(files)
      ensures |seen| > 0 && seen[0] == old(files) && seen[|seen| - 1] == files
      ensures forall i :: 0 <= i < |seen| ==> Whole(old(files), seen[i], name, contents, temporary)
      ensures temporary in old(files) ==> |seen| == 1
      ensures error == Some(NoFreshName) <==>
              forall i: nat :: i < 128 ==> TemporaryName(name, faults.tags(i)) in old(files)
      ensures error.None? || error == Some(DirectorySyncFailed) <==>
              error != Some(NoFreshName) && Unhindered(faults, contents)
      ensures error.None? ==> !faults.directorySyncFails
    {
      ghost var before := files;
      var created, reason := CreateTemporary(name, faults);
      if created.None? {
        return Some(reason), name, [files];
      }
      var t := created.value;
      temporary := t;
      var written, during := Fill(t, contents, faults);
      FilledIsWhole(before, during, name, contents, t);
      seen := [before] + during;
      if written < |contents| || faults.syncFails || faults.renameFails {
        error := Some(if written < |contents| || faults.syncFails then WriteFailed else RenameFailed);
        CleanUp(t, faults);
        assert before[t := contents[..written]] - {t} == before;
      } else {
        assert contents[..written] == contents;
        files := (files - {t})[name := contents];
        assert before[t := contents] - {t} == before;
        error := if faults.directorySyncFails then Some(DirectorySyncFailed) else None;
      }
      seen := seen + [files];
    }
  }

  /** Two directories differ in one file at most. */
  ghost predicate OnlyIn(before: Files, files: Files, temporary: string) {
    forall other :: other != temporary ==> SameAt(files, before, other)
  }

  lemma FilledIsWhole(before: Files, during: seq<Files>, name: string, contents: string, t: string)
    requires t !in before && t != name && forall i :: 0 <= i < |during| ==> OnlyIn(before[t := ""], during[i], t)
    ensures forall i :: 0 <= i < |during| ==> Whole(before, during[i], name, contents, t)
  {
    forall i | 0 <= i < |during|
      ensures Whole(before, during[i], name, contents, t)
    {
      assert OnlyIn(before[t := ""], during[i], t);
      forall other | other != t
        ensures SameAt(during[i], before, other)
      {
        assert SameAt(during[i], before[t := ""], other);
      }
    }
  }
}
