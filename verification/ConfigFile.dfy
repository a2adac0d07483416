/**
 The configuration file shared by several processes (src/config.rs): each remembers the
 contents it last loaded or saved, and saves only over those. The fingerprint is taken to be
 the contents themselves. Loading and saving happen under a file lock, one at a time.
 */
module ConfigFile {
  import opened Wrappers
  import opened Sequences

  datatype Settings = Settings(providers: map<string, string>, rest: string)

  /** How settings are written down, and read back. */
  datatype Format = Format(print_: Settings -> string, parse: string -> Option<Settings>)

  ghost predicate RoundTrips(f: Format) {
    forall s :: f.parse(f.print_(s)) == Some(s)
  }

  // ------------------------------------------------------------------ bundled providers

  /** Bundled providers a configuration does not have are added to it. */
  function Merged(providers: map<string, string>, bundled: seq<(string, string)>): map<string, string>
    decreases |bundled|
  {
    if bundled == [] then providers
    else Merged(if bundled[0].0 in providers then providers else providers[bundled[0].0 := bundled[0].1], bundled[1..])
  }

  /** Merging clobbers no custom edit and leaves out no bundled provider. */
  lemma {:induction false} MergingKeepsEdits(providers: map<string, string>, bundled: seq<(string, string)>,
                                             id: string)
    ensures id in providers ==> id in Merged(providers, bundled) && Merged(providers, bundled)[id] == providers[id]
    ensures id in Merged(providers, bundled) <==> id in providers || exists i :: 0 <= i < |bundled| && bundled[i].0 == id
    decreases |bundled|
  {
    if bundled != [] {
      var next := if bundled[0].0 in providers then providers else providers[bundled[0].0 := bundled[0].1];
      MergingKeepsEdits(next, bundled[1..], id);
      assert (exists i :: 0 <= i < |bundled| && bundled[i].0 == id) <==>
             bundled[0].0 == id || exists i :: 0 <= i < |bundled[1..]| && bundled[1..][i].0 == id by {
        if exists i :: 0 < i < |bundled| && bundled[i].0 == id {
          var i :| 0 < i < |bundled| && bundled[i].0 == id;
          assert bundled[1..][i - 1].0 == id;
        }
      }
    }
  }

  /** An added provider is the one bundled first under its name. */
  lemma {:induction false} AddedIsTheFirstBundled(providers: map<string, string>, bundled: seq<(string, string)>,
                                                  i: nat)
    requires i < |bundled| && bundled[i].0 !in providers && forall j :: 0 <= j < i ==> bundled[j].0 != bundled[i].0
    ensures bundled[i].0 in Merged(providers, bundled) && Merged(providers, bundled)[bundled[i].0] == bundled[i].1
    decreases |bundled|
  {
    var next := if bundled[0].0 in providers then providers else providers[bundled[0].0 := bundled[0].1];
    if i == 0 {
      MergingKeepsEdits(next, bundled[1..], bundled[0].0);
    } else {
      assert bundled[1..][i - 1] == bundled[i];
      assert forall j :: 0 <= j < i - 1 ==> bundled[1..][j] == bundled[j + 1];
      AddedIsTheFirstBundled(next, bundled[1..], i - 1);
    }
  }

  /** A configuration that has all bundled providers is left alone, so loading what was loaded
      and saved changes nothing. */
  lemma {:induction false} MergingIsDone(providers: map<string, string>, bundled: seq<(string, string)>)
    requires forall i :: 0 <= i < |bundled| ==> bundled[i].0 in providers
    ensures Merged(providers, bundled) == providers
  {
    if bundled != [] {
      assert bundled[0].0 in providers;
      assert forall i :: 0 <= i < |bundled[1..]| ==> bundled[1..][i] == bundled[i + 1];
      MergingIsDone(providers, bundled[1..]);
    }
  }

  function BundledIds(bundled: seq<(string, string)>): set<string> {
    set i | 0 <= i < |bundled| :: bundled[i].0
  }

  lemma MergedHas(providers: map<string, string>, bundled: seq<(string, string)>)
    ensures Merged(providers, bundled).Keys == providers.Keys + BundledIds(bundled)
    ensures forall id :: id in providers ==> Merged(providers, bundled)[id] == providers[id]
  {
    forall id
      ensures id in Merged(providers, bundled).Keys <==> id in providers.Keys + BundledIds(bundled)
      ensures id in providers ==> id in Merged(providers, bundled) && Merged(providers, bundled)[id] == providers[id]
    {
      MergingKeepsEdits(providers, bundled, id);
    }
  }

  method MergeBundled(providers: map<string, string>, bundled: seq<(string, string)>)
    returns (merged: map<string, string>)
    ensures merged == Merged(providers, bundled)
  {
    merged := providers;
    var i := 0;
    assert bundled[0..] == bundled;
    while i < |bundled|
      invariant i <= |bundled| && Merged(merged, bundled[i..]) == Merged(providers, bundled)
    {
      TailOfTail(bundled, i, 1);
      if bundled[i].0 !in merged {
        merged := merged[bundled[i].0 := bundled[i].1];
      }
      i := i + 1;
    }
  }

  // ------------------------------------------------------------------ one process

  datatype Fault = Works | FailsBefore | FailsAfter

  datatype Handle = Handle(settings: Settings, expected: Option<string>)

  function Loaded(disk: Option<string>, f: Format, bundled: seq<(string, string)>,
                  defaults: Settings): Option<Handle> {
    match disk
    case None => Some(Handle(defaults, None))
    case Some(text) =>
      match f.parse(text)
      case None => None
      case Some(s) => Some(Handle(s.(providers := Merged(s.providers, bundled)), Some(text)))
  }

  /** The file, the handle and whether saving succeeded. */
  function Saved(disk: Option<string>, h: Handle, f: Format, fault: Fault): (Option<string>, Handle, bool) {
    if disk != h.expected then (disk, h, false)
    else
      var text := f.print_(h.settings);
      match fault
      case Works => (Some(text), h.(expected := Some(text)), true)
      case FailsBefore => (disk, h, false)
      case FailsAfter => (Some(text), h, false)
  }

  class Store {
    var text: Option<string>

    constructor ()
      ensures text == None
    {
      text := None;
    }

    /** Without a file the defaults, without a readable one nothing; otherwise what the file
        says, with the missing providers added, and the file as what was last seen. */
    method Load(f: Format, bundled: seq<(string, string)>, defaults: Settings) returns (handle: Option<Handle>)
      ensures handle == Loaded(text, f, bundled, defaults)
      ensures text == None ==> handle == Some(Handle(defaults, None))
      ensures handle == None <==> text.Some? && f.parse(text.value) == None
      ensures text.Some? && handle.Some? ==>
                var read, h := f.parse(text.value).value, handle.value;
                && h.expected == text && h.settings.rest == read.rest
                && h.settings.providers.Keys == read.providers.Keys + BundledIds(bundled)
                && forall id :: id in read.providers ==> h.settings.providers[id] == read.providers[id]
    {
      if text.None? {
        return Some(Handle(defaults, None));
      }
      var settings := f.parse(text.value);
      if settings.None? {
        return None;
      }
      var providers := MergeBundled(settings.value.providers, bundled);
      MergedHas(settings.value.providers, bundled);
      handle := Some(Handle(settings.value.(providers := providers), text));
    }

    /** The file is replaced only if it is still what the handle last saw, and the handle moves
        on only if that worked out. */
    method Save(handle: Handle, f: Format, fault: Fault) returns (after: Handle, ok: bool)
      modifies this
      ensures (text, after, ok) == Saved(old(text), handle, f, fault)
      ensures ok <==> old(text) == handle.expected && fault == Works
      ensures text == if old(text) == handle.expected && fault != FailsBefore then Some(f.print_(handle.settings))
                      else old(text)
      ensures after == if ok then Handle(handle.settings, text) else handle
    {
      if text != handle.expected {
        return handle, false;
      }
      var printed := f.print_(handle.settings);
      if fault.FailsBefore? {
        return handle, false;
      }
      text := Some(printed);
      if fault.FailsAfter? {
        return handle, false;
      }
      after, ok := handle.(expected := Some(printed)), true;
    }
  }

  /** What was saved is what the next load finds, once it has every bundled provider. */
  lemma LoadFindsWhatWasSaved(disk: Option<string>, h: Handle, f: Format, bundled: seq<(string, string)>,
                              defaults: Settings)
    requires RoundTrips(f) && Saved(disk, h, f, Works).2
    requires forall i :: 0 <= i < |bundled| ==> bundled[i].0 in h.settings.providers
    ensures Loaded(Saved(disk, h, f, Works).0, f, bundled, defaults) == Some(Saved(disk, h, f, Works).1)
  {
    MergingIsDone(h.settings.providers, bundled);
  }

  // ------------------------------------------------------------------ several processes

  /** A successful save: by whom, over what, and what its process had last seen. */
  datatype Write = Write(pid: nat, over: Option<string>, lastSeen: Option<string>, text: string)

  datatype World = World(disk: Option<string>, handles: map<nat, Handle>, seen: map<nat, Option<string>>,
                         landed: seq<Write>)

  datatype Event = Loads(pid: nat) | Edits(pid: nat, settings: Settings) | Saves(pid: nat, fault: Fault)

  function Step(w: World, f: Format, bundled: seq<(string, string)>, defaults: Settings, e: Event): World {
    match e
    case Loads(pid) =>
      var h := Loaded(w.disk, f, bundled, defaults);
      if h.None? then w else w.(handles := w.handles[pid := h.value], seen := w.seen[pid := w.disk])
    case Edits(pid, settings) =>
      if pid in w.handles then w.(handles := w.handles[pid := w.handles[pid].(settings := settings)]) else w
    case Saves(pid, fault) =>
      if pid !in w.handles then w
      else
        var (disk, h, ok) := Saved(w.disk, w.handles[pid], f, fault);
        var lands := ok || (w.disk == w.handles[pid].expected && fault.FailsAfter?);
        var last := if pid in w.seen then w.seen[pid] else None;
        var text := f.print_(w.handles[pid].settings);
        w.(disk := disk, handles := w.handles[pid := h], seen := if ok then w.seen[pid := Some(text)] else w.seen,
           landed := if lands then w.landed + [Write(pid, w.disk, last, text)] else w.landed)
  }

  function Run(w: World, f: Format, bundled: seq<(string, string)>, defaults: Settings, events: seq<Event>): World {
    if events == [] then w
    else Step(Run(w, f, bundled, defaults, events[..|events| - 1]), f, bundled, defaults, events[|events| - 1])
  }

  /** The contents a write found, going by the writes before it. */
  function Found(initial: Option<string>, landed: seq<Write>, i: nat): Option<string>
    requires i <= |landed|
  {
    if i == 0 then initial else Some(landed[i - 1].text)
  }

  predicate Chained(initial: Option<string>, landed: seq<Write>) {
    forall i :: 0 <= i < |landed| ==>
      landed[i].over == Found(initial, landed, i) && landed[i].lastSeen == landed[i].over
  }

  /** Every write that reached the file replaced the one before it, and only what its own
      process had last seen. */
  predicate OneChain(initial: Option<string>, w: World) {
    && (forall pid :: pid in w.handles ==> pid in w.seen && w.handles[pid].expected == w.seen[pid])
    && w.disk == Found(initial, w.landed, |w.landed|)
    && Chained(initial, w.landed)
  }

  lemma ChainGrows(initial: Option<string>, landed: seq<Write>, next: Write)
    requires Chained(initial, landed) && next.over == next.lastSeen == Found(initial, landed, |landed|)
    ensures Chained(initial, landed + [next]) && Found(initial, landed + [next], |landed| + 1) == Some(next.text)
  {
    var all := landed + [next];
    forall i | 0 <= i < |all|
      ensures all[i].over == Found(initial, all, i) && all[i].lastSeen == all[i].over
    {
      assert Found(initial, all, i) == Found(initial, landed, i);
    }
  }

  lemma StepKeepsOneChain(initial: Option<string>, w: World, f: Format, bundled: seq<(string, string)>,
                          defaults: Settings,
                          e: Event)
    requires OneChain(initial, w)
    ensures OneChain(initial, Step(w, f, bundled, defaults, e))
  {
    var t := Step(w, f, bundled, defaults, e);
    if |t.landed| > |w.landed| {
      ChainGrows(initial, w.landed, t.landed[|w.landed|]);
    } else {
      assert t.landed == w.landed && t.disk == w.disk;
    }
  }

  /** No lost update: over every interleaving of processes, with saves that fail before or
      after the file is replaced, each save that reaches the file overwrites exactly what its
      process last loaded or saved. */
  lemma {:induction false} NoUpdateIsLost(w: World, f: Format, bundled: seq<(string, string)>, defaults: Settings,
                                          events: seq<Event>)
    requires w.handles == map[] && w.landed == []
    ensures OneChain(w.disk, Run(w, f, bundled, defaults, events))
  {
    if events != [] {
      NoUpdateIsLost(w, f, bundled, defaults, events[..|events| - 1]);
      StepKeepsOneChain(w.disk, Run(w, f, bundled, defaults, events[..|events| - 1]), f, bundled, defaults,
                        events[|events| - 1]);
    }
  }

  /** Saving succeeds exactly when the file holds what the process last loaded or saved, be it
      written again by another, and the write works. */
  lemma SaveSucceedsExactlyWhen(initial: Option<string>, w: World, f: Format, bundled: seq<(string, string)>,
                                defaults: Settings, pid: nat, fault: Fault)
    requires OneChain(initial, w) && pid in w.handles
    ensures var t := Step(w, f, bundled, defaults, Saves(pid, fault));
            Saved(w.disk, w.handles[pid], f, fault).2 <==> w.disk == w.seen[pid] && fault.Works?
  {
  }

  /** What a process edits is what its next save puts into an unchanged file, and the other
      processes' handles stay as they are. */
  lemma EditedIsSaved(initial: Option<string>, w: World, f: Format, bundled: seq<(string, string)>, defaults: Settings,
                      pid: nat, settings: Settings)
    requires OneChain(initial, w) && pid in w.handles && w.disk == w.seen[pid]
    ensures var edited := Step(w, f, bundled, defaults, Edits(pid, settings));
            var t := Step(edited, f, bundled, defaults, Saves(pid, Works));
            && edited.disk == w.disk && t.disk == Some(f.print_(settings))
            && pid in t.handles && t.handles[pid] == Handle(settings, t.disk)
            && forall other :: other in w.handles && other != pid ==> other in t.handles && t.handles[other] == w.handles[other]
  {
  }
}
