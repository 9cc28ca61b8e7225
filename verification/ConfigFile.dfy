/** The atomic save of the configuration file, as a sequence of file-system calls each of which
    may fail, with a crash possible after any of them. */
module ConfigFile {
  import opened Basics

  /** The agent's configuration. `rest` stands for every field that a domain change leaves alone. */
  datatype Config = Config(protocol: string, endpoint: string, derivedUrl: string, rest: string)

  /** The marshalled form of one configuration, or any other bytes. */
  datatype Content = Whole(cfg: Config) | Torn

  datatype File = File(content: Content, synced: bool)

  /** All directories that ever were, the last one current, and the files they name. */
  datatype Disk = Disk(dirs: seq<map<string, nat>>, files: map<nat, File>)

  function Lookup(dir: map<string, nat>, files: map<nat, File>, path: string): Option<File> {
    if path in dir && dir[path] in files then Some(files[dir[path]]) else None
  }

  /** What may be found at `path` after a crash: the directory is never synced, so any earlier
      state of it may be the one that survived; and a file survives as written only if synced. */
  predicate AfterCrash(d: Disk, path: string, found: Option<Content>) {
    exists i :: 0 <= i < |d.dirs| &&
      match Lookup(d.dirs[i], d.files, path)
      case None => found == None
      case Some(f) => found.Some? && (f.synced ==> found.value == f.content)
  }

  /** After a crash the path holds one of the `complete` contents. */
  ghost predicate CrashSafe(d: Disk, path: string, complete: set<Option<Content>>) {
    forall found :: AfterCrash(d, path, found) ==> found in complete
  }

  // ------------------------------------------------------------ file-system calls

  function Current(d: Disk): map<string, nat> {
    if d.dirs == [] then map[] else d.dirs[|d.dirs| - 1]
  }

  /** What a reader of the path finds. */
  function Read(d: Disk, path: string): Option<Content> {
    match Lookup(Current(d), d.files, path)
    case None => None
    case Some(f) => Some(f.content)
  }

  function Create(d: Disk, name: string, k: nat): Disk {
    Disk(d.dirs + [Current(d)[name := k]], d.files[k := File(Torn, false)])
  }

  function Write(d: Disk, k: nat, content: Content): Disk {
    d.(files := d.files[k := File(content, false)])
  }

  function Sync(d: Disk, k: nat): Disk
    requires k in d.files
  {
    d.(files := d.files[k := d.files[k].(synced := true)])
  }

  /** Atomic: readers see the old name or the new one. */
  function Rename(d: Disk, from: string, to: string): Disk
    requires from in Current(d)
  {
    d.(dirs := d.dirs + [(Current(d) - {from})[to := Current(d)[from]]])
  }

  function Remove(d: Disk, name: string): Disk {
    d.(dirs := d.dirs + [Current(d) - {name}])
  }

  // --------------------------------------------------------------- what they keep

  ghost predicate WellFormed(d: Disk, nextFile: nat) {
    && d.dirs != []
    && (forall i, n :: 0 <= i < |d.dirs| && n in d.dirs[i] ==> d.dirs[i][n] in d.files)
    && (forall k :: k in d.files ==> k < nextFile)
  }

  /** In every directory so far the path names a synced, complete file, or nothing if it was
      absent at first. */
  ghost predicate Settled(d: Disk, path: string, complete: set<Option<Content>>) {
    forall i :: 0 <= i < |d.dirs| ==>
      match Lookup(d.dirs[i], d.files, path)
      case None => None in complete
      case Some(f) => f.synced && Some(f.content) in complete
  }

  /** File `k` has never been at the path. */
  ghost predicate Apart(d: Disk, path: string, k: nat) {
    forall i :: 0 <= i < |d.dirs| && path in d.dirs[i] ==> d.dirs[i][path] != k
  }

  lemma {:induction false} SettledIsSafe(d: Disk, path: string, complete: set<Option<Content>>)
    requires Settled(d, path, complete)
    ensures CrashSafe(d, path, complete)
  {
  }

  lemma {:induction false} CreateKeeps(d: Disk, path: string, complete: set<Option<Content>>, name: string, k: nat)
    requires WellFormed(d, k) && Settled(d, path, complete) && name != path
    ensures var t := Create(d, name, k); WellFormed(t, k + 1) && Settled(t, path, complete) && Apart(t, path, k)
    ensures Read(Create(d, name, k), path) == Read(d, path)
  {
  }

  /** Writing or syncing a file that was never at the path. */
  lemma {:induction false} ChangeKeeps(d: Disk, path: string, complete: set<Option<Content>>, nextFile: nat, k: nat, f: File)
    requires WellFormed(d, nextFile) && Settled(d, path, complete) && Apart(d, path, k) && k in d.files
    ensures
      var t := d.(files := d.files[k := f]);
      WellFormed(t, nextFile) && Settled(t, path, complete) && Apart(t, path, k) && Read(t, path) == Read(d, path)
  {
  }

  /** The rename is safe because the file was synced first. */
  lemma {:induction false} RenameKeeps(d: Disk, path: string, complete: set<Option<Content>>, nextFile: nat, name: string)
    requires WellFormed(d, nextFile) && Settled(d, path, complete) && name in Current(d) && name != path
    requires var f := d.files[Current(d)[name]]; f.synced && Some(f.content) in complete
    ensures var t := Rename(d, name, path);
            && WellFormed(t, nextFile) && Settled(t, path, complete)
            && Read(t, path) == Some(d.files[Current(d)[name]].content)
  {
  }

  /** And only because of that: renaming a file that is not synced lets a crash leave it torn. */
  lemma {:induction false} RenameNeedsSync(d: Disk, path: string, nextFile: nat, name: string)
    requires WellFormed(d, nextFile) && name in Current(d) && name != path
    requires !d.files[Current(d)[name]].synced
    ensures AfterCrash(Rename(d, name, path), path, Some(Torn))
  {
    var t := Rename(d, name, path);
    assert Lookup(t.dirs[|d.dirs|], t.files, path) == Some(d.files[Current(d)[name]]);
  }

  lemma {:induction false} RemoveKeeps(d: Disk, path: string, complete: set<Option<Content>>, nextFile: nat, name: string)
    requires WellFormed(d, nextFile) && Settled(d, path, complete) && name != path
    ensures var t := Remove(d, name);
            WellFormed(t, nextFile) && Settled(t, path, complete) && Read(t, path) == Read(d, path)
  {
  }

  // ---------------------------------------------------------------------- the save

  /** Which calls of one save fail. */
  datatype Faults = Faults(
    mkdir: bool, marshal: bool, create: bool, chmod: bool, write: bool, sync: bool, close: bool,
    rename: bool, remove: bool)

  predicate NoFault(f: Faults) {
    !f.mkdir && !f.marshal && !f.create && !f.chmod && !f.write && !f.sync && !f.close && !f.rename
  }

  /** The disk after each call of a save; `k` numbers the temporary file. */
  function SaveMoments(d: Disk, k: nat, path: string, cfg: Config, tmp: string, f: Faults): seq<Disk> {
    if f.mkdir || f.marshal || f.create then []
    else
      var d1 := Create(d, tmp, k);
      if f.chmod then [d1] + CleanedUp(d1, tmp, f)
      else
        var d2 := Write(d1, k, if f.write then Torn else Whole(cfg));
        if f.write || f.sync then [d1, d2] + CleanedUp(d2, tmp, f)
        else
          var d3 := Sync(d2, k);
          if f.close || f.rename then [d1, d2, d3] + CleanedUp(d3, tmp, f)
          else [d1, d2, d3, Rename(d3, tmp, path)]
  }

  function CleanedUp(d: Disk, tmp: string, f: Faults): seq<Disk> {
    if f.remove then [] else [Remove(d, tmp)]
  }

  function Last(d: Disk, moments: seq<Disk>): Disk {
    if moments == [] then d else moments[|moments| - 1]
  }

  /** The contents that a save puts at the path, if it gets as far as the rename. */
  function Offers(cfg: Config, f: Faults): set<Option<Content>> {
    if NoFault(f) then {Some(Whole(cfg))} else {}
  }

  /** One save: every moment is settled, with the new contents from the rename on. */
  lemma {:induction false} SaveIsSettled(
      d: Disk, k: nat, path: string, cfg: Config, tmp: string, f: Faults, complete: set<Option<Content>>)
    requires WellFormed(d, k) && Settled(d, path, complete) && tmp != path
    ensures
      var ms := SaveMoments(d, k, path, cfg, tmp, f);
      && (forall i :: 0 <= i < |ms| ==> Settled(ms[i], path, complete + Offers(cfg, f)))
      && WellFormed(Last(d, ms), k + 1)
      && Read(Last(d, ms), path) == if NoFault(f) then Some(Whole(cfg)) else Read(d, path)
  {
    if !(f.mkdir || f.marshal || f.create) {
      var after := complete + Offers(cfg, f);
      var d1 := Create(d, tmp, k);
      CreateKeeps(d, path, after, tmp, k);
      RemoveKeeps(d1, path, after, k + 1, tmp);
      if !f.chmod {
        var content := if f.write then Torn else Whole(cfg);
        var d2 := Write(d1, k, content);
        ChangeKeeps(d1, path, after, k + 1, k, File(content, false));
        RemoveKeeps(d2, path, after, k + 1, tmp);
        if !(f.write || f.sync) {
          ChangeKeeps(d2, path, after, k + 1, k, File(content, true));
          SyncedSave(Sync(d2, k), k, path, cfg, tmp, f, after);
        }
      }
    }
  }

  lemma {:induction false} SyncedSave(
      d3: Disk, k: nat, path: string, cfg: Config, tmp: string, f: Faults, after: set<Option<Content>>)
    requires WellFormed(d3, k + 1) && Settled(d3, path, after) && tmp != path
    requires tmp in Current(d3) && Current(d3)[tmp] == k && k in d3.files && d3.files[k] == File(Whole(cfg), true)
    requires !f.mkdir && !f.marshal && !f.create && !f.chmod && !f.write && !f.sync && Offers(cfg, f) <= after
    ensures
      if NoFault(f) then
        var d4 := Rename(d3, tmp, path);
        WellFormed(d4, k + 1) && Settled(d4, path, after) && Read(d4, path) == Some(Whole(cfg))
      else
        var d4 := Last(d3, CleanedUp(d3, tmp, f));
        WellFormed(d4, k + 1) && Settled(d4, path, after) && Read(d4, path) == Read(d3, path)
  {
    if NoFault(f) {
      RenameKeeps(d3, path, after, k + 1, tmp);
    } else {
      RemoveKeeps(d3, path, after, k + 1, tmp);
    }
  }

  /** The names a save adds: the path, or the temporary file if it was made and not removed. */
  function NewNames(path: string, tmp: string, f: Faults): set<string> {
    if NoFault(f) then {path}
    else if f.mkdir || f.marshal || f.create || !f.remove then {}
    else {tmp}
  }

  lemma {:induction false} SaveLeavesNames(d: Disk, k: nat, path: string, cfg: Config, tmp: string, f: Faults)
    requires tmp !in Current(d) && tmp != path
    ensures
      var t := Last(d, SaveMoments(d, k, path, cfg, tmp, f));
      && Current(t).Keys == Current(d).Keys + NewNames(path, tmp, f)
      && forall n :: n in Current(d) && n != path ==> Current(t)[n] == Current(d)[n]
  {
    var made := Current(d)[tmp := k];
    assert Current(Create(d, tmp, k)) == made;
    assert made - {tmp} == Current(d);
  }

  // ----------------------------------------------------------- over many saves

  datatype Save = Save(cfg: Config, tmp: string, f: Faults)

  /** A disk with the path alone, synced, or nothing at all. */
  function FirstDisk(path: string, first: Option<Config>): Disk {
    match first
    case Some(cfg) => Disk([map[path := 0]], map[0 := File(Whole(cfg), true)])
    case None => Disk([map[]], map[])
  }

  /** The disk after each call of each save. */
  function AllMoments(d: Disk, k: nat, path: string, saves: seq<Save>): seq<Disk>
    decreases |saves|
  {
    if saves == [] then []
    else
      var ms := SaveMoments(d, k, path, saves[0].cfg, saves[0].tmp, saves[0].f);
      ms + AllMoments(Last(d, ms), k + 1, path, saves[1..])
  }

  /** The whole of a save that succeeded. */
  ghost predicate Saved(saves: seq<Save>, found: Option<Content>) {
    exists j :: 0 <= j < |saves| && NoFault(saves[j].f) && found == Some(Whole(saves[j].cfg))
  }

  lemma {:induction false} MomentsSafe(
      d: Disk, k: nat, path: string, saves: seq<Save>, complete: set<Option<Content>>, i: nat, found: Option<Content>)
    requires WellFormed(d, k) && Settled(d, path, complete) && forall j :: 0 <= j < |saves| ==> saves[j].tmp != path
    requires i < |AllMoments(d, k, path, saves)| && AfterCrash(AllMoments(d, k, path, saves)[i], path, found)
    ensures found in complete || Saved(saves, found)
    decreases |saves|
  {
    var save := saves[0];
    var ms := SaveMoments(d, k, path, save.cfg, save.tmp, save.f);
    var after := complete + Offers(save.cfg, save.f);
    SaveIsSettled(d, k, path, save.cfg, save.tmp, save.f, complete);
    if i < |ms| {
      SettledIsSafe(ms[i], path, after);
      assert CrashSafe(ms[i], path, after);
    } else {
      LastSettled(d, ms, path, complete, after);
      MomentsSafe(Last(d, ms), k + 1, path, saves[1..], after, i - |ms|, found);
      SavedLater(saves, found);
    }
  }

  lemma LastSettled(d: Disk, ms: seq<Disk>, path: string, complete: set<Option<Content>>, after: set<Option<Content>>)
    requires Settled(d, path, complete) && complete <= after
    requires forall i :: 0 <= i < |ms| ==> Settled(ms[i], path, after)
    ensures Settled(Last(d, ms), path, after)
  {
  }

  lemma SavedLater(saves: seq<Save>, found: Option<Content>)
    requires saves != []
    ensures Saved(saves, found) <==>
      Saved(saves[1..], found) || (NoFault(saves[0].f) && found == Some(Whole(saves[0].cfg)))
  {
    if j :| 0 <= j < |saves[1..]| && NoFault(saves[1..][j].f) && found == Some(Whole(saves[1..][j].cfg)) {
      assert saves[j + 1] == saves[1..][j];
    }
    if j :| 0 < j < |saves| && NoFault(saves[j].f) && found == Some(Whole(saves[j].cfg)) {
      assert saves[1..][j - 1] == saves[j];
    }
  }

  /** Over every sequence of saves with every combination of failing calls, a crash after any
      call leaves at the path the first contents or the whole of a save that succeeded. */
  lemma {:induction false} CrashLeavesWhole(
      path: string, first: Option<Config>, saves: seq<Save>, i: nat, found: Option<Content>)
    requires forall j :: 0 <= j < |saves| ==> saves[j].tmp != path
    requires
      var ms := AllMoments(FirstDisk(path, first), 1, path, saves);
      i < |ms| && AfterCrash(ms[i], path, found)
    ensures found == (if first.Some? then Some(Whole(first.value)) else None) || Saved(saves, found)
  {
    MomentsSafe(FirstDisk(path, first), 1, path, saves,
                {if first.Some? then Some(Whole(first.value)) else None}, i, found);
  }

  class FileSystem {
    const path: string
    var disk: Disk
    var nextFile: nat
    ghost var moments: seq<Disk>              // the disk after every call so far
    ghost var complete: set<Option<Content>>  // the first contents and those of every save that succeeded

    ghost predicate Valid()
      reads this
    {
      && WellFormed(disk, nextFile) && Settled(disk, path, complete)
      && Some(Torn) !in complete
      && forall i :: 0 <= i < |moments| ==> CrashSafe(moments[i], path, complete)
    }

    constructor (path: string, first: Option<Config>)
      ensures Valid() && this.path == path && moments == []
      ensures Read(disk, path) == (if first.Some? then Some(Whole(first.value)) else None)
      ensures complete == {Read(disk, path)}
    {
      this.path, nextFile, moments := path, 1, [];
      disk := FirstDisk(path, first);
      complete := {if first.Some? then Some(Whole(first.value)) else None};
    }

    /** One file-system call done; a crash may come now. */
    method Done(d: Disk)
      modifies `disk, `moments
      ensures disk == d && moments == old(moments) + [d]
    {
      disk, moments := d, moments + [d];
    }

    /** `tmp` is the name CreateTemp picks: new in the directory, and never the path itself,
        whose base name is a proper part of it. */
    method SaveAtomic(cfg: Config, tmp: string, f: Faults) returns (ok: bool)
      requires Valid() && tmp !in Current(disk) && tmp != path
      modifies this
      ensures Valid() && complete == old(complete) + Offers(cfg, f)
      ensures moments == old(moments) + SaveMoments(old(disk), old(nextFile), path, cfg, tmp, f)
      ensures ok <==> NoFault(f)
      ensures Read(disk, path) == if ok then Some(Whole(cfg)) else old(Read(disk, path))
      ensures Current(disk).Keys == old(Current(disk).Keys) + NewNames(path, tmp, f)
      ensures forall n :: n in old(Current(disk)) && n != path ==> Current(disk)[n] == old(Current(disk))[n]
    {
      ghost var ms := SaveMoments(disk, nextFile, path, cfg, tmp, f);
      SaveIsSettled(disk, nextFile, path, cfg, tmp, f, complete);
      SaveLeavesNames(disk, nextFile, path, cfg, tmp, f);
      StillSafe(moments, ms, path, complete, Offers(cfg, f));
      complete := complete + Offers(cfg, f);
      ok := Attempt(cfg, tmp, f);
    }

    /** The calls themselves. */
    method Attempt(cfg: Config, tmp: string, f: Faults) returns (ok: bool)
      requires tmp != path
      modifies `disk, `nextFile, `moments
      ensures ok <==> NoFault(f)
      ensures moments == old(moments) + SaveMoments(old(disk), old(nextFile), path, cfg, tmp, f)
      ensures disk == Last(old(disk), SaveMoments(old(disk), old(nextFile), path, cfg, tmp, f))
      ensures nextFile == old(nextFile) + 1
    {
      var k := nextFile;
      nextFile := nextFile + 1;
      if f.mkdir {
        return false;
      }
      if f.marshal {
        return false;
      }
      if f.create {
        return false;
      }
      Done(Create(disk, tmp, k));
      if f.chmod {
        CleanUp(tmp, f);
        return false;
      }
      Done(Write(disk, k, if f.write then Torn else Whole(cfg)));
      if f.write {
        CleanUp(tmp, f);
        return false;
      }
      if f.sync {
        CleanUp(tmp, f);
        return false;
      }
      Done(Sync(disk, k));
      if f.close {
        CleanUp(tmp, f);
        return false;
      }
      if f.rename {
        CleanUp(tmp, f);
        return false;
      }
      Done(Rename(disk, tmp, path));
      return true;
    }

    /** Closing changes nothing on the disk; the temporary file is removed if that succeeds. */
    method CleanUp(tmp: string, f: Faults)
      modifies `disk, `moments
      ensures moments == old(moments) + CleanedUp(old(disk), tmp, f)
      ensures disk == Last(old(disk), CleanedUp(old(disk), tmp, f))
    {
      if !f.remove {
        Done(Remove(disk, tmp));
      }
    }
  }

  lemma {:induction false} StillSafe(
      before: seq<Disk>, ms: seq<Disk>, path: string, complete: set<Option<Content>>, offered: set<Option<Content>>)
    requires forall i :: 0 <= i < |before| ==> CrashSafe(before[i], path, complete)
    requires forall i :: 0 <= i < |ms| ==> Settled(ms[i], path, complete + offered)
    ensures forall i :: 0 <= i < |before + ms| ==> CrashSafe((before + ms)[i], path, complete + offered)
  {
    forall i | 0 <= i < |before + ms| ensures CrashSafe((before + ms)[i], path, complete + offered) {
      if i < |before| {
        assert (before + ms)[i] == before[i] && CrashSafe(before[i], path, complete);
      } else {
        SettledIsSafe(ms[i - |before|], path, complete + offered);
      }
    }
  }
}
