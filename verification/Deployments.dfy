/** Changing an installed deployment on its host: `_upgrade` and `_roll_back_upgrade`
    (installer/runner.py).

    The hosts are a map of files. Every command may fail, lose its connection or be cancelled
    at any point, and a write that does not finish may leave any content, or none, in its
    file. While a command runs, the other runs may change everything outside the folders and
    the records of this one. `trace` records every state that its own files go through, also
    the ones in mid-write. */
module Deployments {
  import opened Basics
  import opened Text
  import opened EnvEdits
  import opened Render

  // docker-compose.yml and its overrides; a backup has ".usr-before-upgrade" after the name.
  datatype FileName = Env | State | Main | BackendPort | StorePorts | BackendTls | Backup(of: FileName)

  datatype Path = Path(dir: string, name: FileName)

  type Files = map<Path, string>

  datatype Details = Details(
    dir: string,
    project: string,
    version: string,
    imageSource: string,
    imagePrefix: string,
    imageVersion: string,
    components: Components,
    shared: bool)

  datatype Record = Record(id: string, name: string, details: Details)

  // What the state file on the host says.
  datatype HostState = HostState(project: string, version: string, imageSource: string, imagePrefix: string,
                                 components: Components, shared: bool)

  // How a command ends. Cancellation is not an error its caller handles.
  datatype Ran = Done | Failed | Lost | Cancelled

  function ComposeNames(c: Components, shared: bool): seq<FileName> {
    [Main, BackendPort] + (if c.StoreOnly() then [StorePorts] else []) + (if shared then [BackendTls] else [])
  }

  // The files an upgrade changes, and keeps a backup of.
  function Tracked(c: Components, shared: bool): seq<FileName> {
    [Env] + ComposeNames(c, shared)
  }

  ghost predicate Live(name: FileName) {
    !name.Backup? && !name.State?
  }

  ghost predicate Names(names: seq<FileName>) {
    && (forall i :: 0 <= i < |names| ==> Live(names[i]))
    && (forall i, j :: 0 <= i < j < |names| ==> names[i] != names[j])
  }

  lemma {:induction false} TrackedNames(c: Components, shared: bool)
    ensures Names(Tracked(c, shared)) && Tracked(c, shared) != [] && Tracked(c, shared)[0] == Env
  {
    assert Tracked(c, shared)[0] == Env;
  }

  // ---- What is kept -----------------------------------------------------------------------

  ghost predicate Same(f: Files, g: Files, p: Path) {
    (p in f <==> p in g) && (p in f ==> f[p] == g[p])
  }

  // Only live files of these names, or their backups, differ.
  ghost predicate Touches(f: Files, g: Files, dir: string, names: seq<FileName>) {
    forall p: Path :: (p.dir != dir || !(p.name in names || (p.name.Backup? && p.name.of in names))) ==> Same(f, g, p)
  }

  ghost predicate LiveAs(f: Files, orig: Files, dir: string, name: FileName) {
    var p := Path(dir, name);
    p in orig && p in f && f[p] == orig[p]
  }

  ghost predicate BackedUp(f: Files, orig: Files, dir: string, name: FileName) {
    var p, b := Path(dir, name), Path(dir, Backup(name));
    p in orig && b in f && f[b] == orig[p]
  }

  // Only this file differs.
  ghost predicate Changed(f: Files, g: Files, path: Path) {
    forall p :: p != path ==> Same(f, g, p)
  }

  // The original content of the file still exists, in place or in its backup.
  ghost predicate Kept1(f: Files, orig: Files, dir: string, name: FileName) {
    LiveAs(f, orig, dir, name) || BackedUp(f, orig, dir, name)
  }

  ghost predicate Kept(f: Files, orig: Files, dir: string, names: seq<FileName>) {
    forall i :: 0 <= i < |names| ==> Kept1(f, orig, dir, names[i])
  }

  // Every state since the trace was `from` keeps the originals.
  ghost predicate KeptSince(from: nat, trace: seq<Files>, orig: Files, dir: string, names: seq<FileName>) {
    forall k :: from <= k < |trace| ==> Kept(trace[k], orig, dir, names)
  }

  ghost predicate AllBackedUp(f: Files, orig: Files, dir: string, names: seq<FileName>) {
    forall i :: 0 <= i < |names| ==> BackedUp(f, orig, dir, names[i])
  }

  // ---- The host and the server's records -----------------------------------------------------

  // All files of the hosts, and all records.
  datatype Everything = Everything(files: Files, records: map<string, Record>)

  // One change that a run makes.
  datatype Change = Change(from: Everything, to: Everything)

  function Within(f: Files, dirs: set<string>): Files {
    map p | p in f && p.dir in dirs :: f[p]
  }

  function Outside(f: Files, dirs: set<string>): Files {
    map p | p in f && p.dir !in dirs :: f[p]
  }

  function RecordsOf(records: map<string, Record>, ids: set<string>): map<string, Record> {
    map id | id in records && id in ids :: records[id]
  }

  function RecordsBut(records: map<string, Record>, ids: set<string>): map<string, Record> {
    map id | id in records && id !in ids :: records[id]
  }

  // Other folders' files are as they were.
  ghost predicate Elsewhere(f: Files, orig: Files, dir: string) {
    forall p: Path :: p.dir != dir ==> Same(f, orig, p)
  }

  // It changes files of this folder, and no record.
  ghost predicate InFolder(change: Change, dir: string) {
    Elsewhere(change.to.files, change.from.files, dir) && change.to.records == change.from.records
  }

  // So do all the changes made between.
  ghost predicate Steps(before: seq<Change>, after: seq<Change>, dir: string) {
    before <= after && forall k :: |before| <= k < |after| ==> InFolder(after[k], dir)
  }

  lemma {:induction false} NoSteps(changes: seq<Change>, dir: string)
    ensures Steps(changes, changes, dir)
  {
  }

  lemma {:induction false} StepsTwice(before: seq<Change>, between: seq<Change>, after: seq<Change>, dir: string)
    requires Steps(before, between, dir) && Steps(between, after, dir)
    ensures Steps(before, after, dir)
  {
    forall k | |before| <= k < |after| ensures InFolder(after[k], dir) {
      if k < |between| { assert after[k] == between[k]; }
    }
  }

  lemma {:induction false} WithinWritten(f: Files, dirs: set<string>, path: Path, content: Option<string>)
    requires path.dir in dirs
    ensures Within(if content.None? then f - {path} else f[path := content.value], dirs) ==
            if content.None? then Within(f, dirs) - {path} else Within(f, dirs)[path := content.value]
  {
  }

  lemma {:induction false} WithinMoved(f: Files, dirs: set<string>, src: Path, dst: Path)
    requires src.dir in dirs && dst.dir in dirs && src in f
    ensures Within((f - {src})[dst := f[src]], dirs) == (Within(f, dirs) - {src})[dst := f[src]]
  {
  }

  lemma {:induction false} OthersWithin(f: Files, g: Files, dirs: set<string>)
    ensures Within(Outside(f, dirs) + Within(g, dirs), dirs) == Within(g, dirs)
  {
  }

  lemma {:induction false} OthersRecords(a: map<string, Record>, b: map<string, Record>, ids: set<string>)
    ensures RecordsOf(RecordsBut(a, ids) + RecordsOf(b, ids), ids) == RecordsOf(b, ids)
  {
  }

  /** What a run works on: the hosts and the records, which the other runs change as well. No
      other run changes the folders and records of this one. */
  class World {
    var files: Files
    var records: map<string, Record>
    // The run's own folders and records.
    const dirs: set<string>
    const ids: set<string>
    ghost var mine: Files
    ghost var recorded: map<string, Record>
    // Every state its own files have been in, up to now.
    ghost var trace: seq<Files>
    // Every change it has made.
    ghost var changes: seq<Change>

    ghost predicate Valid()
      reads this
    {
      mine == Within(files, dirs) && recorded == RecordsOf(records, ids)
    }

    constructor (files: Files, records: map<string, Record>, dirs: set<string>, ids: set<string>)
      ensures Valid() && this.files == files && this.records == records && this.dirs == dirs && this.ids == ids
      ensures trace == [] && changes == []
    {
      this.files, this.records, this.dirs, this.ids, trace, changes := files, records, dirs, ids, [], [];
      mine, recorded := Within(files, dirs), RecordsOf(records, ids);
    }

    // What other runs do meanwhile: anything, elsewhere.
    method Others()
      requires Valid()
      modifies this`files, this`records
      ensures Valid()
    {
      var f: Files, r: map<string, Record> := *, *;
      OthersWithin(f, files, dirs);
      OthersRecords(r, records, ids);
      files := Outside(f, dirs) + Within(files, dirs);
      records := RecordsBut(r, ids) + RecordsOf(records, ids);
    }

    // One file is changed, or removed.
    method Write(path: Path, content: Option<string>)
      requires Valid() && path.dir in dirs
      modifies this`files, this`records, this`mine, this`trace, this`changes
      ensures Valid() && Steps(old(changes), changes, path.dir) && trace == old(trace) + [mine]
      ensures mine == if content.None? then old(mine) - {path} else old(mine)[path := content.value]
    {
      Others();
      ghost var before := Everything(files, records);
      files := if content.None? then files - {path} else files[path := content.value];
      mine := if content.None? then mine - {path} else mine[path := content.value];
      WithinWritten(before.files, dirs, path, content);
      trace, changes := trace + [mine], changes + [Change(before, Everything(files, records))];
    }

    // `cp -p src dst`, `sed -i`, `cat >`: only this one file changes, to the content when Done.
    method Overwrite(path: Path, content: string) returns (ran: Ran)
      requires Valid() && path.dir in dirs
      modifies this`files, this`records, this`mine, this`trace, this`changes
      ensures Valid() && Steps(old(changes), changes, path.dir)
      ensures |trace| == |old(trace)| + 2 && old(trace) <= trace && trace[|old(trace)| + 1] == mine
      ensures Changed(trace[|old(trace)|], old(mine), path) && Changed(mine, old(mine), path)
      ensures ran.Done? ==> path in mine && mine[path] == content
    {
      ghost var start := changes;
      var garbage := AnyText();
      Write(path, garbage);
      ghost var between := changes;
      ran := Outcome();
      garbage := AnyText();
      Write(path, if ran.Done? then Some(content) else garbage);
      StepsTwice(start, between, changes, path.dir);
    }

    // `cp -p src dst`
    method Copy(src: Path, dst: Path) returns (ran: Ran)
      requires Valid() && src != dst && src.dir in dirs && dst.dir in dirs
      modifies this`files, this`records, this`mine, this`trace, this`changes
      ensures Valid() && Steps(old(changes), changes, dst.dir)
      ensures |old(trace)| <= |trace| && old(trace) <= trace
      ensures forall k :: |old(trace)| <= k < |trace| ==> Changed(trace[k], old(mine), dst)
      ensures Changed(mine, old(mine), dst)
      ensures ran.Done? ==> src in old(mine) && dst in mine && mine[dst] == old(mine)[src]
      ensures ran.Done? ==> |trace| > |old(trace)| && Last(trace) == mine
    {
      if src !in files { return Failed; }
      ran := Overwrite(dst, files[src]);
    }

    // `mv -f src dst` within one folder: it happens at once, though its success may not be seen.
    method Move(src: Path, dst: Path) returns (ran: Ran)
      requires Valid() && src != dst && src.dir == dst.dir && src.dir in dirs
      modifies this`files, this`records, this`mine, this`trace, this`changes
      ensures Valid() && Steps(old(changes), changes, dst.dir)
      ensures trace == old(trace) + [mine]
      ensures ran.Done? ==> src in old(mine)
      ensures if ran.Done? then Moved(old(mine), mine, src, dst)
              else mine == old(mine) || (src in old(mine) && Moved(old(mine), mine, src, dst))
    {
      ran := Attempt();
      if src !in files { ran := if ran.Done? then Failed else ran; }
      var happened: bool := *;
      if src in files && (ran.Done? || happened) {
        ghost var before := Everything(files, records);
        files := (files - {src})[dst := files[src]];
        mine := (mine - {src})[dst := mine[src]];
        WithinMoved(before.files, dirs, src, dst);
        changes := changes + [Change(before, Everything(files, records))];
      }
      trace := trace + [mine];
    }

    // `rm -f path`
    method Remove(path: Path) returns (ran: Ran)
      requires Valid() && path.dir in dirs
      modifies this`files, this`records, this`mine, this`trace, this`changes
      ensures Valid() && Steps(old(changes), changes, path.dir)
      ensures trace == old(trace) + [mine]
      ensures Changed(mine, old(mine), path)
      ensures ran.Done? ==> path !in mine
    {
      ran := Attempt();
      var happened: bool := *;
      if ran.Done? || happened { Write(path, None); } else { trace := trace + [mine]; }
    }

    // Saving a record, which takes its place at once.
    method Save(record: Record) returns (ran: Ran)
      requires Valid() && record.id in ids
      modifies this`files, this`records, this`recorded, this`changes
      ensures Valid() && old(changes) <= changes
      ensures forall k :: |old(changes)| <= k < |changes| ==> Saves(changes[k], record)
      ensures recorded == if ran.Done? then old(recorded)[record.id := record] else old(recorded)
    {
      ran := Attempt();
      if ran.Done? {
        ghost var before := Everything(files, records);
        records, recorded := records[record.id := record], recorded[record.id := record];
        assert RecordsOf(records, ids) == recorded;
        changes := changes + [Change(before, Everything(files, records))];
      }
    }

    // A command that leaves the install's files alone (docker), a check, or an event recorded.
    method Attempt() returns (ran: Ran)
      requires Valid()
      modifies this`files, this`records
      ensures Valid()
    {
      Others();
      ran := Outcome();
    }

    method Outcome() returns (ran: Ran)
    {
      var done: bool, failed: bool, lost: bool := *, *, *;
      ran := if done then Done else if failed then Failed else if lost then Lost else Cancelled;
    }

    method AnyText() returns (text: Option<string>)
    {
      var content: string, there: bool := *, *;
      text := if there then Some(content) else None;
    }
  }

  // The change puts this record in place.
  ghost predicate Saves(change: Change, record: Record) {
    change.to == Everything(change.from.files, change.from.records[record.id := record])
  }

  ghost predicate Moved(f: Files, g: Files, src: Path, dst: Path) {
    && src in f && src !in g && dst in g && g[dst] == f[src]
    && forall p :: p != src && p != dst ==> Same(g, f, p)
  }

  // ---- Backing up --------------------------------------------------------------------------

  // Only backups of these names differ.
  ghost predicate OnlyBackups(f: Files, g: Files, dir: string, names: seq<FileName>) {
    forall p: Path :: !(p.dir == dir && p.name.Backup? && p.name.of in names) ==> Same(f, g, p)
  }

  lemma {:induction false} CopyToBackup(f: Files, g: Files, orig: Files, dir: string, names: seq<FileName>, i: nat)
    requires i < |names| && OnlyBackups(f, orig, dir, names) && Changed(g, f, Path(dir, Backup(names[i])))
    ensures OnlyBackups(g, orig, dir, names)
  {
    assert names[i] in names;
    forall p: Path | !(p.dir == dir && p.name.Backup? && p.name.of in names) ensures Same(g, orig, p) {
      assert Same(g, f, p) && Same(f, orig, p);
    }
  }

  lemma {:induction false} OtherBackups(f: Files, g: Files, orig: Files, dir: string, names: seq<FileName>, i: nat)
    requires Names(names) && i < |names| && Changed(g, f, Path(dir, Backup(names[i])))
    ensures forall j :: 0 <= j < |names| && j != i && BackedUp(f, orig, dir, names[j]) ==>
              BackedUp(g, orig, dir, names[j])
  {
    forall j | 0 <= j < |names| && j != i ensures Same(g, f, Path(dir, Backup(names[j]))) {
      assert Path(dir, Backup(names[j])) != Path(dir, Backup(names[i]));
    }
  }

  /** Before anything changes, every file is copied; the files themselves stay as they are. */
  method BackUp(world: World, dir: string, names: seq<FileName>) returns (ran: Ran)
    requires Names(names)
    requires world.Valid() && dir in world.dirs
    modifies world`files, world`records, world`mine, world`trace, world`changes
    ensures world.Valid() && Steps(old(world.changes), world.changes, dir)
    ensures old(world.trace) <= world.trace
    ensures forall k :: |old(world.trace)| <= k < |world.trace| ==>
              OnlyBackups(world.trace[k], old(world.mine), dir, names)
    ensures OnlyBackups(world.mine, old(world.mine), dir, names)
    ensures ran.Done? ==> AllBackedUp(world.mine, old(world.mine), dir, names)
    ensures ran.Done? && names != [] ==> |world.trace| > |old(world.trace)| && Last(world.trace) == world.mine
  {
    ran := Done;
    ghost var orig := world.mine;
    for i := 0 to |names|
      invariant world.Valid() && Steps(old(world.changes), world.changes, dir)
      invariant ran.Done? && old(world.trace) <= world.trace
      invariant forall k :: |old(world.trace)| <= k < |world.trace| ==> OnlyBackups(world.trace[k], orig, dir, names)
      invariant OnlyBackups(world.mine, orig, dir, names)
      invariant forall j :: 0 <= j < i ==> BackedUp(world.mine, orig, dir, names[j])
      invariant i > 0 ==> |world.trace| > |old(world.trace)| && Last(world.trace) == world.mine
    {
      ghost var before, traced := world.mine, |world.trace|;
      assert Same(before, orig, Path(dir, names[i]));
      ran := world.Copy(Path(dir, names[i]), Path(dir, Backup(names[i])));
      CopyToBackup(before, world.mine, orig, dir, names, i);
      OtherBackups(before, world.mine, orig, dir, names, i);
      forall k | traced <= k < |world.trace| ensures OnlyBackups(world.trace[k], orig, dir, names) {
        CopyToBackup(before, world.trace[k], orig, dir, names, i);
      }
      if !ran.Done? { return; }
    }
  }

  // ---- Rolling back -------------------------------------------------------------------------

  // The first i files are back in place, the others still in their backups.
  ghost predicate Midway(f: Files, orig: Files, dir: string, names: seq<FileName>, i: nat)
    requires i <= |names|
  {
    && Touches(f, orig, dir, names)
    && (forall j :: 0 <= j < i ==> LiveAs(f, orig, dir, names[j]) && Path(dir, Backup(names[j])) !in f)
    && (forall j :: i <= j < |names| ==> BackedUp(f, orig, dir, names[j]))
  }

  lemma {:induction false} MoveBack(f: Files, g: Files, orig: Files, dir: string, names: seq<FileName>, i: nat)
    requires Names(names) && i < |names| && Midway(f, orig, dir, names, i)
    requires Moved(f, g, Path(dir, Backup(names[i])), Path(dir, names[i]))
    ensures Midway(g, orig, dir, names, i + 1)
  {
    var src, dst := Path(dir, Backup(names[i])), Path(dir, names[i]);
    assert names[i] in names;
    forall p: Path | p.dir != dir || !(p.name in names || (p.name.Backup? && p.name.of in names))
      ensures Same(g, orig, p)
    {
      assert p != src && p != dst;
      assert Same(g, f, p) && Same(f, orig, p);
    }
    assert BackedUp(f, orig, dir, names[i]);
    forall j | 0 <= j < |names| && j != i
      ensures Same(g, f, Path(dir, names[j])) && Same(g, f, Path(dir, Backup(names[j])))
    {
      assert names[j] != names[i];
      assert Path(dir, names[j]) != dst && Path(dir, names[j]) != src;
      assert Path(dir, Backup(names[j])) != src && Path(dir, Backup(names[j])) != dst;
    }
  }

  lemma {:induction false} BackedUpMidway(f: Files, orig: Files, dir: string, names: seq<FileName>)
    requires AllBackedUp(f, orig, dir, names) && Touches(f, orig, dir, names)
    ensures Midway(f, orig, dir, names, 0)
  {
  }

  lemma {:induction false} MidwayKept(f: Files, orig: Files, dir: string, names: seq<FileName>, i: nat)
    requires i <= |names| && Midway(f, orig, dir, names, i)
    ensures Kept(f, orig, dir, names) && Touches(f, orig, dir, names)
  {
  }

  // Every backup moved over its file, in order.
  method MoveAllBack(world: World, ghost orig: Files, dir: string, names: seq<FileName>) returns (ran: Ran)
    requires Names(names) && Midway(world.mine, orig, dir, names, 0)
    requires world.Valid() && dir in world.dirs
    modifies world`files, world`records, world`mine, world`trace, world`changes
    ensures world.Valid() && Steps(old(world.changes), world.changes, dir)
    ensures old(world.trace) <= world.trace
    ensures AtMidway(world.mine, orig, dir, names)
    ensures forall k :: |old(world.trace)| <= k < |world.trace| ==> AtMidway(world.trace[k], orig, dir, names)
    ensures ran.Done? ==> Midway(world.mine, orig, dir, names, |names|)
  {
    ghost var start := world.changes;
    NoSteps(start, dir);
    hide Steps, World.Valid, Moved, Midway;
    ran := Done;
    for i := 0 to |names|
      invariant world.Valid() && Steps(start, world.changes, dir)
      invariant ran.Done? && old(world.trace) <= world.trace
      invariant forall k :: |old(world.trace)| <= k < |world.trace| ==> AtMidway(world.trace[k], orig, dir, names)
      invariant Midway(world.mine, orig, dir, names, i)
    {
      ghost var before, did := world.mine, world.changes;
      ran := world.Move(Path(dir, Backup(names[i])), Path(dir, names[i]));
      StepsTwice(start, did, world.changes, dir);
      if world.mine != before || ran.Done? { MoveBack(before, world.mine, orig, dir, names, i); }
      if !ran.Done? { return; }
    }
  }

  ghost predicate AtMidway(f: Files, orig: Files, dir: string, names: seq<FileName>) {
    exists i :: 0 <= i <= |names| && Midway(f, orig, dir, names, i)
  }

  lemma {:induction false} MidwayAlong(trace: seq<Files>, from: nat, orig: Files, dir: string, names: seq<FileName>)
    requires forall k :: from <= k < |trace| ==> AtMidway(trace[k], orig, dir, names)
    ensures KeptSince(from, trace, orig, dir, names)
    ensures forall k :: from <= k < |trace| ==> Touches(trace[k], orig, dir, names)
  {
    hide Midway, Kept, Touches;
    forall k | from <= k < |trace|
      ensures Kept(trace[k], orig, dir, names) && Touches(trace[k], orig, dir, names)
    {
      var i :| 0 <= i <= |names| && Midway(trace[k], orig, dir, names, i);
      MidwayKept(trace[k], orig, dir, names, i);
    }
  }

  /** `_roll_back_upgrade`: None when it raises. Each original stays in place or in its
      backup at every step; restored, the files are as before the upgrade. */
  method RollBack(world: World, ghost orig: Files, dir: string, names: seq<FileName>) returns (restored: Option<bool>)
    requires Names(names) && AllBackedUp(world.mine, orig, dir, names) && Touches(world.mine, orig, dir, names)
    requires world.Valid() && dir in world.dirs
    modifies world`files, world`records, world`mine, world`trace, world`changes
    ensures world.Valid() && Steps(old(world.changes), world.changes, dir)
    ensures old(world.trace) <= world.trace
    ensures KeptSince(|old(world.trace)|, world.trace, orig, dir, names) && Kept(world.mine, orig, dir, names)
    ensures Touches(world.mine, orig, dir, names)
    ensures forall k :: |old(world.trace)| <= k < |world.trace| ==> Touches(world.trace[k], orig, dir, names)
    ensures restored == Some(true) ==> Restored(world.mine, orig, dir, names)
  {
    NoSteps(world.changes, dir);
    BackedUpMidway(world.mine, orig, dir, names);
    MidwayKept(world.mine, orig, dir, names, 0);
    hide Steps, World.Valid, Touches, AllBackedUp, Kept, Restored, Midway;
    var ran := world.Attempt();  // an event
    if !ran.Done? { return None; }
    ran := MoveAllBack(world, orig, dir, names);
    MidwayAlong(world.trace, |old(world.trace)|, orig, dir, names);
    ghost var i :| 0 <= i <= |names| && Midway(world.mine, orig, dir, names, i);
    MidwayKept(world.mine, orig, dir, names, i);
    if !ran.Done? { return if ran.Failed? then Some(false) else None; }
    AllBack(world.mine, orig, dir, names);
    var up := world.Attempt();
    restored := if up.Done? then Some(true) else if up.Failed? then Some(false) else None;
  }

  lemma {:induction false} AllBack(f: Files, orig: Files, dir: string, names: seq<FileName>)
    requires Midway(f, orig, dir, names, |names|)
    ensures Restored(f, orig, dir, names)
  {
    forall p: Path
      ensures if p.dir == dir && p.name.Backup? && p.name.of in names then p !in f else Same(f, orig, p)
    {
      if p.dir == dir && p.name.Backup? && p.name.of in names {
        var j :| 0 <= j < |names| && names[j] == p.name.of;
        assert p == Path(dir, Backup(names[j]));
      } else if p.dir == dir && p.name in names {
        var j :| 0 <= j < |names| && names[j] == p.name;
        assert LiveAs(f, orig, dir, names[j]);
      }
    }
  }

  // As before, byte for byte, with the backups gone.
  ghost predicate Restored(f: Files, orig: Files, dir: string, names: seq<FileName>) {
    forall p: Path :: if p.dir == dir && p.name.Backup? && p.name.of in names then p !in f else Same(f, orig, p)
  }

  // ---- Pointing the deployment at the new version ---------------------------------------------

  // Every original has its backup, and nothing but these files and their backups differs.
  ghost predicate Safe(f: Files, orig: Files, dir: string, names: seq<FileName>) {
    AllBackedUp(f, orig, dir, names) && Touches(f, orig, dir, names)
  }

  lemma {:induction false} LiveWrite(f: Files, g: Files, orig: Files, dir: string, names: seq<FileName>, i: nat)
    requires Names(names) && i < |names| && Safe(f, orig, dir, names) && Changed(g, f, Path(dir, names[i]))
    ensures Safe(g, orig, dir, names)
    ensures forall j :: 0 <= j < |names| && j != i ==> Same(g, f, Path(dir, names[j]))
  {
    var path := Path(dir, names[i]);
    assert names[i] in names;
    forall j | 0 <= j < |names| ensures BackedUp(g, orig, dir, names[j]) {
      assert Path(dir, Backup(names[j])) != path;
      assert Same(g, f, Path(dir, Backup(names[j]))) && BackedUp(f, orig, dir, names[j]);
    }
    forall p: Path | p.dir != dir || !(p.name in names || (p.name.Backup? && p.name.of in names))
      ensures Same(g, orig, p)
    {
      assert Same(g, f, p) && Same(f, orig, p);
    }
  }

  // One live file, written anew.
  method Put(world: World, ghost orig: Files, dir: string, names: seq<FileName>, i: nat, content: string)
    returns (ran: Ran)
    requires Names(names) && i < |names| && Safe(world.mine, orig, dir, names)
    requires world.Valid() && dir in world.dirs
    modifies world`files, world`records, world`mine, world`trace, world`changes
    ensures world.Valid() && Steps(old(world.changes), world.changes, dir)
    ensures old(world.trace) <= world.trace && Safe(world.mine, orig, dir, names)
    ensures forall k :: |old(world.trace)| <= k < |world.trace| ==> Safe(world.trace[k], orig, dir, names)
    ensures forall j :: 0 <= j < |names| && j != i ==> Same(world.mine, old(world.mine), Path(dir, names[j]))
    ensures ran.Done? ==> Path(dir, names[i]) in world.mine && world.mine[Path(dir, names[i])] == content
  {
    hide Steps, World.Valid, Safe;
    ghost var before := world.mine;
    ran := world.Overwrite(Path(dir, names[i]), content);
    LiveWrite(before, world.mine, orig, dir, names, i);
    LiveWrite(before, world.trace[|old(world.trace)|], orig, dir, names, i);
  }

  // The `.env` through a sequence of edits, one command each.
  method EditEnvFile(world: World, ghost orig: Files, dir: string, names: seq<FileName>, edits: seq<Edit>)
    returns (ran: Ran)
    requires Names(names) && names != [] && names[0] == Env && Safe(world.mine, orig, dir, names)
    requires LiveAs(world.mine, orig, dir, Env)
    requires world.Valid() && dir in world.dirs
    modifies world`files, world`records, world`mine, world`trace, world`changes
    ensures world.Valid() && Steps(old(world.changes), world.changes, dir)
    ensures old(world.trace) <= world.trace && Safe(world.mine, orig, dir, names)
    ensures forall k :: |old(world.trace)| <= k < |world.trace| ==> Safe(world.trace[k], orig, dir, names)
    ensures forall j :: 1 <= j < |names| ==> Same(world.mine, old(world.mine), Path(dir, names[j]))
    ensures ran.Done? ==> Path(dir, Env) in world.mine &&
                          world.mine[Path(dir, Env)] == EditTextAll(orig[Path(dir, Env)], edits)
  {
    ran := Done;
    var env := Path(dir, Env);
    for i := 0 to |edits|
      invariant world.Valid() && Steps(old(world.changes), world.changes, dir)
      invariant ran.Done? && old(world.trace) <= world.trace && Safe(world.mine, orig, dir, names)
      invariant forall k :: |old(world.trace)| <= k < |world.trace| ==> Safe(world.trace[k], orig, dir, names)
      invariant forall j :: 1 <= j < |names| ==> Same(world.mine, old(world.mine), Path(dir, names[j]))
      invariant env in world.mine && world.mine[env] == EditTextAll(orig[env], edits[..i])
    {
      ghost var before := world.mine;
      assert Init(edits[..i + 1]) == edits[..i];
      ran := Put(world, orig, dir, names, 0, EditText(world.files[env], edits[i]));
      forall j | 1 <= j < |names| ensures Same(world.mine, old(world.mine), Path(dir, names[j])) {
        assert Same(world.mine, before, Path(dir, names[j])) && Same(before, old(world.mine), Path(dir, names[j]));
      }
      if !ran.Done? { return; }
    }
    assert edits[..|edits|] == edits;
  }

  // This server's Compose files, over the deployment's.
  method PutComposeFiles(world: World, ghost orig: Files, dir: string, names: seq<FileName>,
                         shipped: FileName -> string) returns (ran: Ran)
    requires Names(names) && names != [] && names[0] == Env && Safe(world.mine, orig, dir, names)
    requires world.Valid() && dir in world.dirs
    modifies world`files, world`records, world`mine, world`trace, world`changes
    ensures world.Valid() && Steps(old(world.changes), world.changes, dir)
    ensures old(world.trace) <= world.trace && Safe(world.mine, orig, dir, names)
    ensures forall k :: |old(world.trace)| <= k < |world.trace| ==> Safe(world.trace[k], orig, dir, names)
    ensures Same(world.mine, old(world.mine), Path(dir, Env))
    ensures ran.Done? ==> forall j :: 1 <= j < |names| ==>
              Path(dir, names[j]) in world.mine && world.mine[Path(dir, names[j])] == shipped(names[j])
  {
    ran := Done;
    for i := 1 to |names|
      invariant world.Valid() && Steps(old(world.changes), world.changes, dir)
      invariant ran.Done? && old(world.trace) <= world.trace && Safe(world.mine, orig, dir, names)
      invariant forall k :: |old(world.trace)| <= k < |world.trace| ==> Safe(world.trace[k], orig, dir, names)
      invariant Same(world.mine, old(world.mine), Path(dir, Env))
      invariant forall j :: 1 <= j < i ==>
                  Path(dir, names[j]) in world.mine && world.mine[Path(dir, names[j])] == shipped(names[j])
    {
      ghost var before := world.mine;
      ran := Put(world, orig, dir, names, i, shipped(names[i]));
      assert Same(world.mine, before, Path(dir, names[0]));
      assert forall j :: 1 <= j < i ==> Same(world.mine, before, Path(dir, names[j]));
      if !ran.Done? { return; }
    }
  }

  // ---- Upgrading ------------------------------------------------------------------------------

  datatype UpgradeEnd =
    | Upgraded        // returned
    | Unreachable     // upgraded and recorded, but this server cannot reach it
    | NotStarted      // failed before the backups were complete
    | RolledBack      // undone, the previous version running again
    | RollBackFailed  // "Going back failed too"
    | Interrupted     // cancelled, or the roll back raised
    | Unrecorded      // the new version runs, but recording it raised

  // What an upgrade is asked for, and the files this server ships.
  datatype Order = Order(version: string, source: string, requestedPrefix: string, shipped: FileName -> string,
                         encode: HostState -> string, decode: string -> Option<HostState>)

  // The registry the images come from; "" for images already named on the host.
  function Prefix(order: Order, details: Details): string {
    if order.source != "registry" then ""
    else if order.requestedPrefix != "" then order.requestedPrefix else details.imagePrefix
  }

  function NewState(order: Order, details: Details): HostState {
    HostState(details.project, order.version, order.source, Prefix(order, details), details.components, details.shared)
  }

  function NewRecord(order: Order, deployment: Record, imageVersion: string): Record {
    deployment.(details := deployment.details.(version := order.version, imageSource := order.source,
                imagePrefix := Prefix(order, deployment.details), imageVersion := imageVersion))
  }

  // The files of the requested version, in place.
  ghost predicate RunsNew(f: Files, orig: Files, order: Order, details: Details, names: seq<FileName>) {
    var env := Path(details.dir, Env);
    && env in f && env in orig && f[env] == UpgradeText(orig[env], order.version, Prefix(order, details))
    && forall i :: 1 <= i < |names| ==>
         Path(details.dir, names[i]) in f && f[Path(details.dir, names[i])] == order.shipped(names[i])
  }

  // The host's state file names this version.
  ghost predicate Says(f: Files, order: Order, details: Details) {
    var path := Path(details.dir, State);
    path in f && f[path] == order.encode(NewState(order, details))
  }

  // Every state since the trace was `from` runs the requested version.
  ghost predicate NewSince(from: nat, trace: seq<Files>, orig: Files, order: Order, details: Details,
                           names: seq<FileName>)
  {
    forall k :: from <= k < |trace| ==> RunsNew(trace[k], orig, order, details, names) && Says(trace[k], order, details)
  }

  lemma {:induction false} SafeElsewhere(f: Files, orig: Files, dir: string, names: seq<FileName>)
    requires Touches(f, orig, dir, names)
    ensures Elsewhere(f, orig, dir)
    ensures Names(names) ==> Same(f, orig, Path(dir, State))
  {
    if Names(names) {
      assert State !in names;
      assert Same(f, orig, Path(dir, State));
    }
  }

  lemma {:induction false} SafeKept(f: Files, orig: Files, dir: string, names: seq<FileName>)
    requires Safe(f, orig, dir, names)
    ensures Kept(f, orig, dir, names)
  {
  }

  // The commands that may fail and be undone: the body of the `try`.
  method SwitchVersion(world: World, ghost orig: Files, details: Details, order: Order, names: seq<FileName>)
    returns (ran: Ran)
    requires Names(names) && names != [] && names[0] == Env && Safe(world.mine, orig, details.dir, names)
    requires LiveAs(world.mine, orig, details.dir, Env)
    requires world.Valid() && details.dir in world.dirs
    modifies world`files, world`records, world`mine, world`trace, world`changes
    ensures world.Valid() && Steps(old(world.changes), world.changes, details.dir)
    ensures old(world.trace) <= world.trace && Safe(world.mine, orig, details.dir, names)
    ensures forall k :: |old(world.trace)| <= k < |world.trace| ==> Safe(world.trace[k], orig, details.dir, names)
    ensures ran.Done? ==> RunsNew(world.mine, orig, order, details, names)
  {
    hide Steps, World.Valid, Safe, UpgradeEdits, Prefix, Names;
    var edits := UpgradeEdits(order.version, Prefix(order, details));
    ghost var start, env := world.changes, Path(details.dir, Env);
    ran := EditEnvFile(world, orig, details.dir, names, edits);
    if !ran.Done? { return; }
    ghost var did := world.changes;
    ran := PutComposeFiles(world, orig, details.dir, names, order.shipped);
    StepsTwice(start, did, world.changes, details.dir);
    if !ran.Done? { return; }
    ran := world.Attempt();  // the images
    if !ran.Done? { return; }
    ran := world.Attempt();  // docker compose up
  }

  // Removing the backups once the new version runs; a backup that stays does no harm.
  method RemoveBackups(world: World, ghost orig: Files, details: Details, order: Order, names: seq<FileName>)
    returns (ran: Ran)
    requires Names(names) && Elsewhere(world.mine, orig, details.dir)
    requires RunsNew(world.mine, orig, order, details, names) && Says(world.mine, order, details)
    requires world.Valid() && details.dir in world.dirs
    modifies world`files, world`records, world`mine, world`trace, world`changes
    ensures world.Valid() && Steps(old(world.changes), world.changes, details.dir)
    ensures old(world.trace) <= world.trace && Elsewhere(world.mine, orig, details.dir)
    ensures forall k :: |old(world.trace)| <= k < |world.trace| ==> Elsewhere(world.trace[k], orig, details.dir)
    ensures NewSince(|old(world.trace)|, world.trace, orig, order, details, names)
    ensures RunsNew(world.mine, orig, order, details, names) && Says(world.mine, order, details)
  {
    ghost var start := world.changes;
    NoSteps(start, details.dir);
    hide Steps, World.Valid, RunsNew, Says, Elsewhere, Names, Changed;
    ran := Done;
    for i := 0 to |names|
      invariant world.Valid() && Steps(start, world.changes, details.dir)
      invariant old(world.trace) <= world.trace && Elsewhere(world.mine, orig, details.dir)
      invariant forall k :: |old(world.trace)| <= k < |world.trace| ==> Elsewhere(world.trace[k], orig, details.dir)
      invariant NewSince(|old(world.trace)|, world.trace, orig, order, details, names)
      invariant RunsNew(world.mine, orig, order, details, names) && Says(world.mine, order, details)
    {
      ghost var held, did := world.mine, world.changes;
      ran := world.Remove(Path(details.dir, Backup(names[i])));
      StepsTwice(start, did, world.changes, details.dir);
      RemoveKeeps(held, world.mine, orig, details, order, names, Backup(names[i]));
      if ran.Lost? || ran.Cancelled? { return; }
    }
  }

  // The same deployment in the same folder.
  predicate Placed(record: Record, deployment: Record) {
    record.id == deployment.id && record.details.dir == deployment.details.dir
  }

  // Only this record differs.
  ghost predicate OnlyRecord(records: map<string, Record>, before: map<string, Record>, id: string) {
    forall other :: other != id ==>
      (other in records <==> other in before) && (other in records ==> records[other] == before[other])
  }

  ghost predicate SameRecord(records: map<string, Record>, before: map<string, Record>, id: string) {
    (id in records <==> id in before) && (id in records ==> records[id] == before[id])
  }

  /** It changes nothing but the deployment's folder and its record, which stays in place. */
  ghost predicate OwnStep(change: Change, deployment: Record) {
    && Elsewhere(change.to.files, change.from.files, deployment.details.dir)
    && OnlyRecord(change.to.records, change.from.records, deployment.id)
    && (SameRecord(change.to.records, change.from.records, deployment.id) ||
        (deployment.id in change.to.records && Placed(change.to.records[deployment.id], deployment)))
  }

  ghost predicate OwnSteps(before: seq<Change>, after: seq<Change>, deployment: Record) {
    before <= after && forall k :: |before| <= k < |after| ==> OwnStep(after[k], deployment)
  }

  lemma {:induction false} OwnTwice(before: seq<Change>, between: seq<Change>, after: seq<Change>, deployment: Record)
    requires OwnSteps(before, between, deployment) && OwnSteps(between, after, deployment)
    ensures OwnSteps(before, after, deployment)
  {
    forall k | |before| <= k < |after| ensures OwnStep(after[k], deployment) {
      if k < |between| { assert after[k] == between[k]; }
    }
  }

  lemma {:induction false} StepsOwn(before: seq<Change>, after: seq<Change>, deployment: Record)
    requires Steps(before, after, deployment.details.dir)
    ensures OwnSteps(before, after, deployment)
  {
  }

  lemma {:induction false} SavedOwn(before: seq<Change>, after: seq<Change>, deployment: Record, record: Record)
    requires before <= after && forall k :: |before| <= k < |after| ==> Saves(after[k], record)
    requires Placed(record, deployment)
    ensures OwnSteps(before, after, deployment)
  {
  }

  // Recording that the new version runs, and removing the backups.
  method Settle(world: World, ghost orig: Files, deployment: Record, order: Order, names: seq<FileName>)
    returns (end: UpgradeEnd, ghost settled: nat)
    requires Names(names) && Safe(world.mine, orig, deployment.details.dir, names)
    requires RunsNew(world.mine, orig, order, deployment.details, names)
    requires world.Valid() && deployment.details.dir in world.dirs && deployment.id in world.ids
    modifies world
    ensures world.Valid() && OwnSteps(old(world.changes), world.changes, deployment)
    ensures end in {Upgraded, Unreachable, Unrecorded}
    ensures old(world.trace) <= world.trace && |old(world.trace)| <= settled <= |world.trace|
    ensures forall k :: |old(world.trace)| <= k < settled ==> Kept(world.trace[k], orig, deployment.details.dir, names)
    ensures forall k :: |old(world.trace)| <= k < |world.trace| ==>
              Elsewhere(world.trace[k], orig, deployment.details.dir)
    ensures NewSince(settled, world.trace, orig, order, deployment.details, names)
    ensures Elsewhere(world.mine, orig, deployment.details.dir)
    ensures RunsNew(world.mine, orig, order, deployment.details, names)
    ensures end.Unrecorded? ==> world.recorded == old(world.recorded)
    ensures !end.Unrecorded? ==> Says(world.mine, order, deployment.details) && exists imageVersion ::
              world.recorded == old(world.recorded)[deployment.id := NewRecord(order, deployment, imageVersion)]
  {
    hide Kept, RunsNew, NewState, NewRecord, Elsewhere, Touches, AllBackedUp, Changed, Names, Steps, OwnSteps,
         World.Valid;
    ghost var start := world.changes;
    var details := deployment.details;
    var dir := details.dir;
    var statePath := Path(dir, State);
    SafeElsewhere(world.mine, orig, dir, names);
    ghost var before := world.mine;
    var ran := world.Overwrite(statePath, order.encode(NewState(order, details)));
    WriteStateKeeps(before, world.trace[|old(world.trace)|], orig, details, order, names);
    WriteStateKeeps(before, world.mine, orig, details, order, names);
    settled := |world.trace|;
    StepsOwn(start, world.changes, deployment);
    if !ran.Done? { return Unrecorded, settled; }
    ghost var written := world.changes;
    ran := RemoveBackups(world, orig, details, order, names);
    StepsOwn(written, world.changes, deployment);
    OwnTwice(start, written, world.changes, deployment);
    if ran.Lost? || ran.Cancelled? { return Unrecorded, settled; }
    ghost var removed := world.changes;
    end := RecordVersion(world, deployment, order);
    OwnTwice(start, removed, world.changes, deployment);
  }

  // This WebUI's own record of the new version.
  method RecordVersion(world: World, deployment: Record, order: Order) returns (end: UpgradeEnd)
    requires world.Valid() && deployment.id in world.ids
    modifies world`files, world`records, world`recorded, world`changes
    ensures world.Valid() && OwnSteps(old(world.changes), world.changes, deployment)
    ensures end in {Upgraded, Unreachable, Unrecorded}
    ensures end.Unrecorded? ==> world.recorded == old(world.recorded)
    ensures !end.Unrecorded? ==> exists imageVersion ::
              world.recorded == old(world.recorded)[deployment.id := NewRecord(order, deployment, imageVersion)]
  {
    var ran := world.Attempt();  // the running image's version
    if !ran.Done? && !ran.Failed? { return Unrecorded; }
    var imageVersion: string := *;
    if ran.Failed? { imageVersion := ""; }
    ghost var did := world.changes;
    var saved := world.Save(NewRecord(order, deployment, imageVersion));
    SavedOwn(did, world.changes, deployment, NewRecord(order, deployment, imageVersion));
    if !saved.Done? { return Unrecorded; }
    var reached := world.Attempt();
    end := if reached.Done? then Upgraded else Unreachable;
  }

  lemma {:induction false} WriteStateKeeps(f: Files, g: Files, orig: Files, details: Details, order: Order,
                                           names: seq<FileName>)
    requires Names(names) && Safe(f, orig, details.dir, names) && RunsNew(f, orig, order, details, names)
    requires Changed(g, f, Path(details.dir, State))
    ensures Kept(g, orig, details.dir, names) && Elsewhere(g, orig, details.dir)
    ensures RunsNew(g, orig, order, details, names)
  {
    var dir := details.dir;
    forall p: Path | p.dir != dir ensures Same(g, orig, p) { assert Same(g, f, p) && Same(f, orig, p); }
    forall i | 0 <= i < |names| ensures BackedUp(g, orig, dir, names[i]) && Same(g, f, Path(dir, names[i])) {
      assert BackedUp(f, orig, dir, names[i]);
      assert Same(g, f, Path(dir, Backup(names[i])));
    }
    assert Same(g, f, Path(dir, Env));
  }

  lemma {:induction false} RemoveKeeps(f: Files, g: Files, orig: Files, details: Details, order: Order,
                                       names: seq<FileName>, removed: FileName)
    requires Names(names) && removed.Backup? && Changed(g, f, Path(details.dir, removed))
    requires RunsNew(f, orig, order, details, names) && Elsewhere(f, orig, details.dir)
    ensures RunsNew(g, orig, order, details, names) && Elsewhere(g, orig, details.dir)
    ensures Says(f, order, details) ==> Says(g, order, details)
  {
    var dir := details.dir;
    forall p: Path | p.dir != dir ensures Same(g, orig, p) { assert Same(g, f, p) && Same(f, orig, p); }
    forall i | 0 <= i < |names| ensures Same(g, f, Path(dir, names[i])) { assert Live(names[i]); }
    assert Same(g, f, Path(dir, Env)) && Same(g, f, Path(dir, State));
  }

  // Before anything changes: the host is checked, its state file read, and every file copied.
  method Prepare(world: World, details: Details, order: Order, names: seq<FileName>) returns (ready: bool)
    requires Names(names) && names != [] && names[0] == Env
    requires world.Valid() && details.dir in world.dirs
    modifies world`files, world`records, world`mine, world`trace, world`changes
    ensures world.Valid() && Steps(old(world.changes), world.changes, details.dir)
    ensures old(world.trace) <= world.trace && OnlyBackups(world.mine, old(world.mine), details.dir, names)
    ensures forall k :: |old(world.trace)| <= k < |world.trace| ==>
              OnlyBackups(world.trace[k], old(world.mine), details.dir, names) &&
              Elsewhere(world.trace[k], old(world.mine), details.dir)
    ensures Elsewhere(world.mine, old(world.mine), details.dir)
    ensures ready ==>
              && KeptUntil(|old(world.trace)|, |world.trace|, world.trace, old(world.mine), details.dir, names)
              && Safe(world.mine, old(world.mine), details.dir, names)
              && LiveAs(world.mine, old(world.mine), details.dir, Env)
              && |world.trace| > |old(world.trace)| && Last(world.trace) == world.mine
  {
    var dir := details.dir;
    ghost var orig, from := world.mine, |world.trace|;
    var ran := world.Attempt();  // connecting, and checking the host
    var statePath := Path(dir, State);
    if !ran.Done? || statePath !in world.files { return false; }
    var state := order.decode(world.files[statePath]);
    if state.None? || state.value.project != details.project { return false; }

    ran := BackUp(world, dir, names);
    OnlyBackupsElsewhere(world.trace, from, orig, dir, names);
    OnlyBackupsSafe(world.mine, orig, dir, names);
    if !ran.Done? { return false; }
    OnlyBackupsKept(world.trace, from, |world.trace|, orig, dir, names);
    ran := world.Attempt();  // an event
    if !ran.Done? { return false; }
    assert BackedUp(world.mine, orig, dir, names[0]);
    assert LiveAs(world.mine, orig, dir, Env) by { assert Same(world.mine, orig, Path(dir, Env)); }
    ready := true;
  }

  /** `_upgrade`, for every point at which it may fail. Until the clean-up begins, at
      `settled`, every state of the host holds each original file in place or in its backup,
      and from then on every state runs the requested version;
      undone, the files are as before byte for byte and nothing is recorded. */
  method Upgrade(world: World, deployment: Record, order: Order) returns (end: UpgradeEnd, ghost settled: nat)
    requires world.Valid() && deployment.details.dir in world.dirs && deployment.id in world.ids
    modifies world
    ensures world.Valid() && OwnSteps(old(world.changes), world.changes, deployment)
    ensures var details := deployment.details;
            var names := Tracked(details.components, details.shared);
            var orig := old(world.mine);
            && old(world.trace) <= world.trace && |old(world.trace)| <= settled <= |world.trace|
            && (forall k :: |old(world.trace)| <= k < |world.trace| ==> Elsewhere(world.trace[k], orig, details.dir))
            && Elsewhere(world.mine, orig, details.dir)
            && (end.NotStarted? ==> OnlyBackups(world.mine, orig, details.dir, names))
            && (end.NotStarted? ==> forall k :: |old(world.trace)| <= k < |world.trace| ==>
                                      OnlyBackups(world.trace[k], orig, details.dir, names))
            && (!end.NotStarted? ==>
                  KeptUntil(|old(world.trace)|, settled, world.trace, orig, details.dir, names) &&
                  NewSince(settled, world.trace, orig, order, details, names))
            && (!end.NotStarted? ==> EachCopied(|old(world.trace)|, world.trace, orig, details.dir, names))
            && (end.RolledBack? ==> Restored(world.mine, orig, details.dir, names))
            && (end in {RolledBack, RollBackFailed, Interrupted} ==>
                  Kept(world.mine, orig, details.dir, names) && Touches(world.mine, orig, details.dir, names))
            && (end in {Upgraded, Unreachable, Unrecorded} ==> RunsNew(world.mine, orig, order, details, names))
            && (end in {Upgraded, Unreachable} ==> Says(world.mine, order, details) && exists imageVersion ::
                  world.recorded == old(world.recorded)[deployment.id := NewRecord(order, deployment, imageVersion)])
            && (end !in {Upgraded, Unreachable} ==> world.recorded == old(world.recorded))
  {
    hide RunsNew, Says, NewRecord, Kept, Touches, Elsewhere, OnlyBackups, Restored, AllBackedUp, Tracked, Names, LiveAs,
         Steps, OwnSteps, World.Valid;
    ghost var start := world.changes;
    var details := deployment.details;
    var dir := details.dir;
    var names := Tracked(details.components, details.shared);
    TrackedNames(details.components, details.shared);
    ghost var orig := world.mine;
    settled := |world.trace|;
    var ready := Prepare(world, details, order, names);
    StepsOwn(start, world.changes, deployment);
    if !ready { return NotStarted, settled; }
    ghost var backed, prepared := |world.trace|, world.changes;
    assert AllBackedUp(world.trace[backed - 1], orig, dir, names);
    var ran := SwitchVersion(world, orig, details, order, names);
    StepsOwn(prepared, world.changes, deployment);
    OwnTwice(start, prepared, world.changes, deployment);
    SafeAlong(world.trace, backed, |world.trace|, orig, dir, names);
    SafeKept(world.mine, orig, dir, names);
    SafeElsewhere(world.mine, orig, dir, names);
    ghost var switched, done := |world.trace|, world.changes;
    settled := switched;
    if ran.Cancelled? { return Interrupted, settled; }
    if !ran.Done? {
      var restored := RollBack(world, orig, dir, names);
      StepsOwn(done, world.changes, deployment);
      OwnTwice(start, done, world.changes, deployment);
      settled := |world.trace|;
      TouchesElsewhere(world.trace, switched, orig, dir, names);
      SafeElsewhere(world.mine, orig, dir, names);
      end := if restored == Some(true) then RolledBack else if restored.Some? then RollBackFailed else Interrupted;
      return;
    }
    end, settled := Settle(world, orig, deployment, order, names);
    OwnTwice(start, done, world.changes, deployment);
  }

  // In some state the files are as before, each with its backup.
  ghost predicate EachCopied(from: nat, trace: seq<Files>, orig: Files, dir: string, names: seq<FileName>) {
    exists k :: from <= k < |trace| && AllBackedUp(trace[k], orig, dir, names) &&
                OnlyBackups(trace[k], orig, dir, names)
  }

  ghost predicate KeptUntil(from: nat, to: nat, trace: seq<Files>, orig: Files, dir: string, names: seq<FileName>)
    requires to <= |trace|
  {
    forall k :: from <= k < to ==> Kept(trace[k], orig, dir, names)
  }

  lemma {:induction false} OnlyBackupsElsewhere(trace: seq<Files>, from: nat, orig: Files, dir: string,
                                                names: seq<FileName>)
    requires forall k :: from <= k < |trace| ==> OnlyBackups(trace[k], orig, dir, names)
    ensures forall k :: from <= k < |trace| ==> Elsewhere(trace[k], orig, dir)
  {
  }

  // Once every file has its backup, it had been in place all along.
  lemma {:induction false} OnlyBackupsKept(trace: seq<Files>, from: nat, to: nat, orig: Files, dir: string,
                                           names: seq<FileName>)
    requires Names(names) && to <= |trace|
    requires forall i :: 0 <= i < |names| ==> Path(dir, names[i]) in orig
    requires forall k :: from <= k < to ==> OnlyBackups(trace[k], orig, dir, names)
    ensures KeptUntil(from, to, trace, orig, dir, names)
  {
    forall k, i | from <= k < to && 0 <= i < |names| ensures Kept1(trace[k], orig, dir, names[i]) {
      assert OnlyBackups(trace[k], orig, dir, names) && Live(names[i]);
      assert Same(trace[k], orig, Path(dir, names[i]));
    }
  }

  lemma {:induction false} OnlyBackupsSafe(f: Files, orig: Files, dir: string, names: seq<FileName>)
    requires OnlyBackups(f, orig, dir, names)
    ensures Touches(f, orig, dir, names) && Elsewhere(f, orig, dir)
    ensures AllBackedUp(f, orig, dir, names) ==> Safe(f, orig, dir, names)
    ensures AllBackedUp(f, orig, dir, names) ==> forall i :: 0 <= i < |names| ==> Path(dir, names[i]) in orig
  {
    if AllBackedUp(f, orig, dir, names) {
      forall i | 0 <= i < |names| ensures Path(dir, names[i]) in orig { assert BackedUp(f, orig, dir, names[i]); }
    }
  }

  lemma {:induction false} SafeAlong(trace: seq<Files>, from: nat, to: nat, orig: Files, dir: string,
                                     names: seq<FileName>)
    requires to <= |trace| && forall k :: from <= k < to ==> Safe(trace[k], orig, dir, names)
    ensures KeptUntil(from, to, trace, orig, dir, names)
    ensures forall k :: from <= k < to ==> Elsewhere(trace[k], orig, dir)
  {
    forall k | from <= k < to ensures Kept(trace[k], orig, dir, names) && Elsewhere(trace[k], orig, dir) {
      SafeKept(trace[k], orig, dir, names);
      SafeElsewhere(trace[k], orig, dir, names);
    }
  }

  lemma {:induction false} TouchesElsewhere(trace: seq<Files>, from: nat, orig: Files, dir: string,
                                            names: seq<FileName>)
    requires forall k :: from <= k < |trace| ==> Touches(trace[k], orig, dir, names)
    ensures forall k :: from <= k < |trace| ==> Elsewhere(trace[k], orig, dir)
  {
    forall k | from <= k < |trace| ensures Elsewhere(trace[k], orig, dir) { SafeElsewhere(trace[k], orig, dir, names); }
  }

  // ---- Upgrading again ------------------------------------------------------------------------

  // Each of the files is in place as it was.
  ghost predicate Intact(f: Files, orig: Files, dir: string, names: seq<FileName>) {
    forall i :: 0 <= i < |names| ==> LiveAs(f, orig, dir, names[i])
  }

  /** Copying every file over its backup keeps an original exactly when its file is intact. */
  lemma {:induction false} CopiedAgain(f: Files, g: Files, orig: Files, dir: string, names: seq<FileName>)
    requires Names(names) && AllBackedUp(g, f, dir, names) && OnlyBackups(g, f, dir, names)
    ensures forall i :: 0 <= i < |names| ==> (Kept1(g, orig, dir, names[i]) <==> LiveAs(f, orig, dir, names[i]))
    ensures Kept(g, orig, dir, names) <==> Intact(f, orig, dir, names)
  {
    forall i | 0 <= i < |names| ensures Kept1(g, orig, dir, names[i]) <==> LiveAs(f, orig, dir, names[i]) {
      assert Live(names[i]) && Same(g, f, Path(dir, names[i])) && BackedUp(g, f, dir, names[i]);
    }
  }

  /** Backing up once more, in any state in which each original is in place or in its backup:
      once every file is copied, all originals are still there exactly when every file was
      intact. */
  method BackUpAgain(world: World, ghost orig: Files, dir: string, names: seq<FileName>) returns (ran: Ran)
    requires Names(names) && Kept(world.mine, orig, dir, names)
    requires world.Valid() && dir in world.dirs
    modifies world`files, world`records, world`mine, world`trace, world`changes
    ensures world.Valid() && Steps(old(world.changes), world.changes, dir)
    ensures ran.Done? ==> (Kept(world.mine, orig, dir, names) <==> Intact(old(world.mine), orig, dir, names))
  {
    ghost var before := world.mine;
    ran := BackUp(world, dir, names);
    if ran.Done? { CopiedAgain(before, world.mine, orig, dir, names); }
  }

  // Whatever the upgrade of intact files leaves, their originals are among it.
  lemma {:induction false} KeptThrough(f: Files, g: Files, orig: Files, dir: string, names: seq<FileName>)
    requires Intact(f, orig, dir, names) && Kept(g, f, dir, names)
    ensures Kept(g, orig, dir, names)
  {
    forall i | 0 <= i < |names| ensures Kept1(g, orig, dir, names[i]) {
      assert LiveAs(f, orig, dir, names[i]) && Kept1(g, f, dir, names[i]);
    }
  }

  // Undone, an upgrade leaves no backups.
  lemma {:induction false} RestoredAgain(f: Files, g: Files, orig: Files, dir: string, names: seq<FileName>)
    requires Names(names) && Restored(g, f, dir, names)
    ensures Kept(g, orig, dir, names) <==> Intact(f, orig, dir, names)
  {
    forall i | 0 <= i < |names| ensures Kept1(g, orig, dir, names[i]) <==> LiveAs(f, orig, dir, names[i]) {
      assert names[i] in names && Live(names[i]);
      assert Path(dir, Backup(names[i])) !in g && Same(g, f, Path(dir, names[i]));
    }
  }

  /** A second upgrade after one that was not undone. The first kept every original in place or
      in its backup, but the second copies over the backups: from then on, and once it is
      undone in its turn, the originals are there exactly when the files had been intact. */
  method UpgradeTwice(world: World, deployment: Record, first: Order, second: Order)
    returns (ends: (UpgradeEnd, UpgradeEnd), ghost between: Files, ghost from: nat)
    requires world.Valid() && deployment.details.dir in world.dirs && deployment.id in world.ids
    modifies world
    ensures var details := deployment.details;
            var names := Tracked(details.components, details.shared);
            var orig := old(world.mine);
            ends.0 in {RollBackFailed, Interrupted} ==>
              && Kept(between, orig, details.dir, names)
              && (!ends.1.NotStarted? ==>
                    CopiedOver(from, world.trace, between, orig, details.dir, names))
              && (ends.1.RolledBack? ==>
                    (Kept(world.mine, orig, details.dir, names) <==> Intact(between, orig, details.dir, names)))
              && (ends.1 in {RollBackFailed, Interrupted} && Intact(between, orig, details.dir, names) ==>
                    Kept(world.mine, orig, details.dir, names))
  {
    hide RunsNew, Elsewhere, KeptUntil, NewSince, Says, Touches, NewRecord, AllBackedUp, OnlyBackups, Intact, Kept,
         Restored, Tracked;
    ghost var details := deployment.details;
    ghost var dir, names, orig := details.dir, Tracked(details.components, details.shared), world.mine;
    TrackedNames(details.components, details.shared);
    var one, _ := Upgrade(world, deployment, first);
    between := world.mine;
    from := |world.trace|;
    var two, _ := Upgrade(world, deployment, second);
    ends := (one, two);
    if one in {RollBackFailed, Interrupted} {
      if !two.NotStarted? { CopiedInTrace(from, world.trace, between, orig, dir, names); }
      if two.RolledBack? { RestoredAgain(between, world.mine, orig, dir, names); }
      if two in {RollBackFailed, Interrupted} && Intact(between, orig, dir, names) {
        KeptThrough(between, world.mine, orig, dir, names);
      }
    }
  }

  // In some state each file has been copied, and the originals of before are there
  // exactly when the files were intact.
  ghost predicate CopiedOver(from: nat, trace: seq<Files>, between: Files, orig: Files, dir: string,
                             names: seq<FileName>)
  {
    exists k :: from <= k < |trace| && AllBackedUp(trace[k], between, dir, names) &&
                (Kept(trace[k], orig, dir, names) <==> Intact(between, orig, dir, names))
  }

  lemma {:induction false} CopiedInTrace(from: nat, trace: seq<Files>, between: Files, orig: Files, dir: string,
                                         names: seq<FileName>)
    requires Names(names) && EachCopied(from, trace, between, dir, names)
    ensures CopiedOver(from, trace, between, orig, dir, names)
  {
    var k :| from <= k < |trace| && AllBackedUp(trace[k], between, dir, names) &&
             OnlyBackups(trace[k], between, dir, names);
    CopiedAgain(between, trace[k], orig, dir, names);
  }

  // What a roll back leaves that fails at its i-th move: the files before are back in place,
  // this one is as the upgrade wrote it, and it and those after it are in their backups.
  ghost function StoppedAt(orig: Files, dir: string, names: seq<FileName>, i: nat, written: string): Files
    requires i < |names| && Intact(orig, orig, dir, names)
  {
    map p |
      p in orig.Keys + BackupsOf(dir, names[i..]) && !(p.dir == dir && p.name.Backup? && p.name.of in names[..i]) ::
      if p in BackupsOf(dir, names[i..]) then CopyOf(orig, p)
      else if p == Path(dir, names[i]) then written else orig[p]
  }

  ghost function BackupsOf(dir: string, names: seq<FileName>): set<Path> {
    set j | 0 <= j < |names| :: Path(dir, Backup(names[j]))
  }

  ghost function CopyOf(orig: Files, p: Path): string {
    if p.name.Backup? && Path(p.dir, p.name.of) in orig then orig[Path(p.dir, p.name.of)] else ""
  }

  lemma {:induction false} StoppedMidway(orig: Files, dir: string, names: seq<FileName>, i: nat, written: string)
    requires Names(names) && i < |names| && Intact(orig, orig, dir, names)
    ensures Midway(StoppedAt(orig, dir, names, i, written), orig, dir, names, i)
    ensures !LiveAs(StoppedAt(orig, dir, names, i, written), orig, dir, names[i]) <==>
            written != orig[Path(dir, names[i])]
  {
    var f := StoppedAt(orig, dir, names, i, written);
    forall j | 0 <= j < |names| ensures LiveAs(orig, orig, dir, names[j]) && Live(names[j]) {
    }
    assert f[Path(dir, names[i])] == written by { assert !names[i].Backup?; }
    forall j | 0 <= j < i
      ensures LiveAs(f, orig, dir, names[j]) && Path(dir, Backup(names[j])) !in f
    {
      assert names[j] != names[i] && names[j] == names[..i][j];
    }
    forall j | i <= j < |names| ensures BackedUp(f, orig, dir, names[j]) {
      assert names[i..][j - i] == names[j];
      assert Path(dir, Backup(names[j])) in BackupsOf(dir, names[i..]);
      assert names[j] !in names[..i];
    }
    StoppedTouches(orig, dir, names, i, written);
  }

  lemma {:induction false} StoppedTouches(orig: Files, dir: string, names: seq<FileName>, i: nat, written: string)
    requires Names(names) && i < |names| && Intact(orig, orig, dir, names)
    ensures Touches(StoppedAt(orig, dir, names, i, written), orig, dir, names)
  {
    BackupsAre(dir, names, i);
    assert names[i] in names;
  }

  lemma {:induction false} BackupsAre(dir: string, names: seq<FileName>, i: nat)
    requires i < |names|
    ensures forall p :: p in BackupsOf(dir, names[i..]) ==> p.dir == dir && p.name.Backup? && p.name.of in names
  {
    forall j | 0 <= j < |names[i..]| ensures names[i..][j] in names {
      assert names[i..][j] == names[i + j];
    }
  }

  /** A second upgrade destroys what a failed roll back leaves: at whichever file it stopped,
      the state meets what the first upgrade promises of its end, and once every file has been
      copied again, the original of this one is gone. */
  lemma {:induction false} DamagedLost(orig: Files, g: Files, dir: string, names: seq<FileName>, i: nat,
                                       written: string)
    requires Names(names) && i < |names| && Intact(orig, orig, dir, names) && written != orig[Path(dir, names[i])]
    requires AllBackedUp(g, StoppedAt(orig, dir, names, i, written), dir, names)
    requires OnlyBackups(g, StoppedAt(orig, dir, names, i, written), dir, names)
    ensures AtMidway(StoppedAt(orig, dir, names, i, written), orig, dir, names)
    ensures Kept(StoppedAt(orig, dir, names, i, written), orig, dir, names)
    ensures Touches(StoppedAt(orig, dir, names, i, written), orig, dir, names)
    ensures !Kept(g, orig, dir, names) && !Kept1(g, orig, dir, names[i])
  {
    hide StoppedAt, Midway, Intact, AllBackedUp, OnlyBackups, Touches, Names;
    StoppedMidway(orig, dir, names, i, written);
    MidwayKept(StoppedAt(orig, dir, names, i, written), orig, dir, names, i);
    CopiedAgain(StoppedAt(orig, dir, names, i, written), g, orig, dir, names);
  }
}
