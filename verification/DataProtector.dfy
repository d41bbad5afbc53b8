/**
 Durable storage by three copies and a majority vote (daemon/SecretsImpl/dataprotector.cpp).

 The directory given to a DataProtector is an object of its own, because every reader constructs a fresh
 DataProtector on it.  It records every state it passes through, so that what a crash at any step leaves
 behind can be spoken of.  Which operation of a store fails, if any, is an input.
 */
module DataProtectors {
  import opened Basics
  import opened Bytes
  import opened MajorityVote

  // ---- the file system ------------------------------------------------------------------------------

  datatype File = Readable(data: ByteArray) | Unreadable

  /** The files of one data directory.  Their names carry no meaning for the reader. */
  type Directory = seq<File>

  datatype Root = Absent | Present(dirs: map<string, Directory>)

  /** QFile::readAll: a file that could not be opened reads as empty. */
  function ReadAll(f: File): ByteArray {
    if f.Readable? then f.data else []
  }

  function Contents(d: Directory): (r: seq<ByteArray>)
    ensures |r| == |d| && forall i :: 0 <= i < |d| ==> r[i] == ReadAll(d[i])
  {
    seq(|d|, i requires 0 <= i < |d| => ReadAll(d[i]))
  }

  datatype Status = Success | Irretrievable | CannotCreateDirectory | CannotDeleteDirectory | CannotOpenFile
                  | CannotWriteFile

  /** Which operation of a store fails: the one environment choice that decides what the store leaves behind. */
  datatype Fault =
    | NoFault
    | CreateRoot                            // mkpath
    | CreateDirectory                       // mkdir of the new directory
    | OpenFile(copy: nat)
    | WriteFile(copy: nat)                  // the write comes up short
    | CommitFile(copy: nat)
    | RemoveOld(name: string, kept: set<nat>) // these files of an old directory, or if none the directory itself

  /** The fault comes to bear on a store into this root. */
  predicate Strikes(fault: Fault, r: Root) {
    match fault
    case NoFault => false
    case CreateRoot => r.Absent?
    case CreateDirectory => true
    case OpenFile(copy) => copy < 3
    case WriteFile(copy) => copy < 3
    case CommitFile(copy) => copy < 3
    case RemoveOld(name, _) => name in Dirs(r)
  }

  // ---- what reading a directory gives ---------------------------------------------------------------

  ghost predicate AnyReadable(d: Directory) {
    exists i :: 0 <= i < |d| && d[i].Readable?
  }

  /** Reading directory `d` gives `data`. */
  ghost predicate Reads(d: Directory, data: ByteArray) {
    AnyReadable(d) && Majority(Contents(d), data)
  }

  /** No one value comes out of directory `d`. */
  ghost predicate ReadsNothing(d: Directory) {
    !AnyReadable(d) || forall v :: !Majority(Contents(d), v)
  }

  ghost function Without<T>(q: seq<T>, k: nat): (r: seq<T>)
    requires k < |q|
    ensures multiset(q) == multiset(r) + multiset{q[k]} && |r| == |q| - 1
  {
    assert q == q[..k] + [q[k]] + q[k + 1..];
    q[..k] + q[k + 1..]
  }

  lemma Cancel(a: Directory, b: Directory, f: File)
    requires multiset(a) + multiset{f} == multiset(b) + multiset{f}
    ensures multiset(a) == multiset(b)
  {
    assert multiset(a) == multiset(a) + multiset{f} - multiset{f};
  }

  lemma ContentsWithout(d: Directory, k: nat)
    requires k < |d|
    ensures Contents(Without(d, k)) == Without(Contents(d), k)
  {
  }

  lemma {:induction false} ContentsPermuted(d: Directory, e: Directory)
    requires multiset(d) == multiset(e)
    ensures multiset(Contents(d)) == multiset(Contents(e))
    decreases |d|
  {
    if d == [] {
      assert |multiset(e)| == 0;
    } else {
      assert d[0] in multiset(e);
      var k :| 0 <= k < |e| && e[k] == d[0];
      ContentsWithout(d, 0);
      ContentsWithout(e, k);
      var rest, others := Without(d, 0), Without(e, k);
      Cancel(rest, others, d[0]);
      hide Without;
      ContentsPermuted(rest, others);
    }
  }

  /** The order in which the files are listed does not matter. */
  lemma ReadingIgnoresOrder(d: Directory, e: Directory)
    requires multiset(d) == multiset(e)
    ensures forall v :: Reads(d, v) <==> Reads(e, v)
    ensures ReadsNothing(d) <==> ReadsNothing(e)
  {
    ContentsPermuted(d, e);
    assert |d| == |multiset(d)| == |e|;
    assert forall v :: Majority(Contents(d), v) <==> Majority(Contents(e), v);
    if AnyReadable(d) { AnyReadablePermuted(d, e); }
    if AnyReadable(e) { AnyReadablePermuted(e, d); }
  }

  lemma AnyReadablePermuted(d: Directory, e: Directory)
    requires multiset(d) == multiset(e) && AnyReadable(d)
    ensures AnyReadable(e)
  {
    var i :| 0 <= i < |d| && d[i].Readable?;
    assert d[i] in multiset(e);
    assert d[i] in e;
  }

  // ---- what a crash may leave -----------------------------------------------------------------------

  /** Nothing but the given values can be read from the directory. */
  ghost predicate OnlyReads(d: Directory, allowed: set<ByteArray>) {
    forall v :: Reads(d, v) ==> v in allowed
  }

  /** Each file that opens holds one of `values`: so does what is left while the directory is being removed. */
  ghost predicate HoldsOnly(d: Directory, values: set<ByteArray>) {
    forall i :: 0 <= i < |d| && d[i].Readable? ==> d[i].data in values
  }

  /** Every file holds `bytes` or nothing, but for the one at `j`, which may hold anything. */
  ghost predicate AlmostWritten(d: Directory, bytes: ByteArray, j: nat) {
    forall i :: 0 <= i < |d| && i != j ==> d[i] == Readable(bytes) || d[i] == Readable([])
  }

  lemma OccursAt(q: seq<ByteArray>, v: ByteArray) returns (i: nat)
    requires multiset(q)[v] > 0
    ensures i < |q| && q[i] == v
  {
    assert v in q;
    i :| 0 <= i < |q| && q[i] == v;
  }

  lemma OccursElsewhere(q: seq<ByteArray>, v: ByteArray, j: nat) returns (i: nat)
    requires j < |q| && multiset(q)[v] >= 2
    ensures i < |q| && i != j && q[i] == v
  {
    var rest := Without(q, j);
    i := OccursAt(rest, v);
    assert rest[i] == q[if i < j then i else i + 1];
    if i >= j { i := i + 1; }
  }

  lemma FewerHoldOnly(d: Directory, i: nat, values: set<ByteArray>)
    requires HoldsOnly(d, values) && i < |d|
    ensures HoldsOnly(d[..i] + d[i + 1..], values)
  {
  }

  lemma HoldsOnlyReads(d: Directory, values: set<ByteArray>)
    requires HoldsOnly(d, values)
    ensures OnlyReads(d, values + {[]})
  {
    forall v | Reads(d, v) ensures v in values + {[]} {
      var i := OccursAt(Contents(d), v);
    }
  }

  /** One file in the making does not decide a vote of three. */
  lemma AlmostWrittenReads(d: Directory, bytes: ByteArray, j: nat)
    requires AlmostWritten(d, bytes, j)
    requires |d| >= 3 || j >= |d|
    ensures OnlyReads(d, {bytes, []})
  {
    forall v | Reads(d, v) ensures v in {bytes, []} {
      if j < |d| {
        var i := OccursElsewhere(Contents(d), v, j);
        assert i != j;
      } else {
        var i := OccursAt(Contents(d), v);
      }
    }
  }

  lemma EmptyReadsNothing(bytes: ByteArray)
    ensures OnlyReads([], {bytes, []})
  {
  }

  ghost predicate CrashSafe(r: Root, allowed: set<ByteArray>) {
    r.Present? ==> forall n :: n in r.dirs ==> OnlyReads(r.dirs[n], allowed)
  }

  /** A store in progress: the new directory is being written, the others are as they were or being removed. */
  ghost predicate Storing(r: Root, target: string, bytes: ByteArray, values: set<ByteArray>) {
    && r.Present?
    && forall n :: n in r.dirs ==>
         if n == target then OnlyReads(r.dirs[n], {bytes, []}) else HoldsOnly(r.dirs[n], values)
  }

  lemma StoringIsCrashSafe(r: Root, target: string, bytes: ByteArray, values: set<ByteArray>)
    requires Storing(r, target, bytes, values)
    ensures CrashSafe(r, values + {bytes, []})
  {
    forall n | n in r.dirs && n != target ensures OnlyReads(r.dirs[n], values + {[]}) {
      HoldsOnlyReads(r.dirs[n], values);
    }
  }

  // ---- the protected folder -------------------------------------------------------------------------

  class Folder {
    var root: Root
    var history: seq<Root> // every state on disk so far

    constructor (root: Root)
      ensures this.root == root && history == [root]
    {
      this.root := root;
      history := [root];
    }

    /** One change that reaches the disk as a whole. */
    method Become(r: Root)
      modifies this
      ensures root == r && history == old(history) + [r]
    {
      root := r;
      history := history + [r];
    }

    /** The subdirectories, in an order the code does not rely on. */
    method ListDirectories() returns (names: seq<string>)
      requires root.Present?
      ensures Lists(names, root.dirs.Keys)
    {
      names := Listing(root.dirs.Keys);
    }
  }

  /** The files of a directory, in an order the code does not rely on. */
  method ListFiles(d: Directory) returns (files: seq<File>)
    ensures multiset(files) == multiset(d)
  {
    files := d;
  }

  // ---- reading --------------------------------------------------------------------------------------

  /** What reading directory `d` may report. */
  ghost predicate Outcome(d: Directory, status: Status, data: ByteArray) {
    || (status == Success && Reads(d, data))
    || (status == Irretrievable && data == [] && ReadsNothing(d))
  }

  method ReadDirectory(d: Directory) returns (status: Status, data: ByteArray)
    ensures Outcome(d, status, data)
  {
    var files := ListFiles(d);
    ReadingIgnoresOrder(d, files);
    var i := 0;
    while i < |files| && !files[i].Readable?
      invariant 0 <= i <= |files|
      invariant forall j :: 0 <= j < i ==> !files[j].Readable?
    {
      i := i + 1;
    }
    if i == |files| {
      return Irretrievable, []; // no file, or none that opens
    }
    var copies := new ByteArray[|files|](j requires 0 <= j < |files| => ReadAll(files[j]));
    assert copies[..] == Contents(files);
    MoveEmptyBack(copies);
    var verdict := Vote(copies[..]);
    DecidesPermuted(copies[..], Contents(files), verdict);
    match verdict {
      case Winner(v) => return Success, v;
      case NoMajority => return Irretrievable, [];
    }
  }

  lemma DecidesPermuted(a: seq<ByteArray>, b: seq<ByteArray>, verdict: Verdict)
    requires multiset(a) == multiset(b) && Decides(a, verdict)
    ensures Decides(b, verdict)
  {
    assert |a| == |multiset(a)| == |b|;
    assert forall v :: Majority(a, v) <==> Majority(b, v);
  }

  lemma ButFirst(names: seq<string>)
    requires Distinct(names) && names != []
    ensures forall n :: n in names[1..|names|] <==> n in names && n != names[0]
  {
    assert names == [names[0]] + names[1..];
    assert names[1..|names|] == names[1..];
  }

  ghost predicate NoDirectories(r: Root) {
    r.Absent? || r.dirs == map[]
  }

  /** QDir::rmdir removes only what is empty, so a reader drops at most empty directories. */
  ghost predicate Pruned(before: Root, after: Root, kept: string) {
    || after == before
    || (&& before.Present? && after.Present?
        && after.dirs.Keys <= before.dirs.Keys
        && forall n :: n in before.dirs ==>
             if n in after.dirs then after.dirs[n] == before.dirs[n] else before.dirs[n] == [] && n != kept)
  }

  class DataProtector {
    const folder: Folder
    var cache: ByteArray

    constructor (folder: Folder)
      ensures this.folder == folder && cache == []
    {
      this.folder := folder;
      cache := [];
    }

    /** The loop of getData over all entries but the first. */
    method DropEmpty(names: seq<string>, stuck: set<string>)
      requires folder.root.Present? && Lists(names, folder.root.dirs.Keys) && names != []
      modifies folder
      ensures Pruned(old(folder.root), folder.root, names[0]) && names[0] in old(folder.root).dirs
      ensures folder.root.Present? && forall n :: n in folder.root.dirs <==>
                n in old(folder.root).dirs && (n == names[0] || old(folder.root).dirs[n] != [] || n in stuck)
    {
      ghost var dirs := folder.root.dirs;
      assert names[0] in dirs;
      for i := 1 to |names|
        invariant folder.root.Present? && Pruned(old(folder.root), folder.root, names[0])
        invariant forall n :: n in folder.root.dirs <==> n in dirs && (n !in names[1..i] || dirs[n] != [] || n in stuck)
      {
        assert names[i] in dirs && names[1..i + 1] == names[1..i] + [names[i]];
        if names[i] !in stuck && folder.root.dirs[names[i]] == [] {
          folder.Become(Present(folder.root.dirs - {names[i]}));
        }
      }
      ButFirst(names);
    }

    /**
     The cached data, or the majority of one directory, whichever the listing puts first. The empty ones among the others
     go, but for those that cannot be removed (`stuck`).
     */
    method GetData(stuck: set<string>) returns (status: Status, data: ByteArray, ghost chosen: string)
      modifies this, folder
      ensures old(cache) != [] ==> status == Success && data == old(cache) && folder.root == old(folder.root)
      ensures old(cache) == [] && NoDirectories(old(folder.root)) ==>
                status == Success && data == [] && folder.root == old(folder.root)
      ensures old(cache) == [] && !NoDirectories(old(folder.root)) ==>
                && chosen in old(folder.root).dirs && Outcome(old(folder.root).dirs[chosen], status, data)
                && folder.root.Present? && forall n :: n in folder.root.dirs <==>
                     n in old(folder.root).dirs && (n == chosen || old(folder.root).dirs[n] != [] || n in stuck)
      ensures Pruned(old(folder.root), folder.root, chosen)
      ensures cache == if status == Success then data else old(cache)
    {
      chosen := "";
      if cache != [] {
        return Success, cache, chosen;
      }
      if folder.root.Absent? {
        return Success, [], chosen;
      }
      var names := folder.ListDirectories();
      if |names| == 0 {
        assert folder.root.dirs.Keys == {};
        return Success, [], chosen;
      }
      chosen := names[0];
      assert names[0] in folder.root.dirs;
      DropEmpty(names, stuck);
      status, data := ReadDirectory(folder.root.dirs[names[0]]);
      if status == Success {
        cache := data;
      }
    }

    // -- writing --

    /** The step that leaves `d` in the new directory. */
    method SetTarget(target: string, d: Directory, bytes: ByteArray, ghost values: set<ByteArray>, ghost clean: bool)
      requires folder.root.Present? && target in folder.root.dirs
      requires OnlyReads(d, {bytes, []})
      requires clean ==> Storing(folder.root, target, bytes, values)
      modifies folder
      ensures folder.root == Present(old(folder.root).dirs[target := d])
      ensures folder.history == old(folder.history) + [folder.root]
      ensures clean ==> Storing(folder.root, target, bytes, values)
    {
      folder.Become(Present(folder.root.dirs[target := d]));
    }

    /** The QSaveFile objects still open are destroyed, front to back, and their temporary files with them. */
    method DiscardFrom(target: string, j: nat, bytes: ByteArray, ghost values: set<ByteArray>, ghost clean: bool)
      requires folder.root.Present? && target in folder.root.dirs
      requires j <= |folder.root.dirs[target]| <= 3
      requires forall i :: 0 <= i < j ==> folder.root.dirs[target][i] == Readable(bytes)
      requires AlmostWritten(folder.root.dirs[target], bytes, j)
      requires clean ==> Storing(folder.root, target, bytes, values)
      modifies folder
      ensures folder.root == Present(old(folder.root).dirs[target := old(folder.root).dirs[target][..j]])
      ensures old(folder.history) <= folder.history
      ensures clean ==> Logged(folder.history, |old(folder.history)|, target, bytes, values)
      ensures clean ==> Storing(folder.root, target, bytes, values)
    {
      var d := folder.root.dirs[target];
      ghost var dirs := folder.root.dirs;
      while j < |d|
        invariant j <= |d| <= 3 && folder.root == Present(dirs[target := d])
        invariant d[..j] == dirs[target][..j]
        invariant forall i :: j < i < |d| ==> d[i] == Readable(bytes) || d[i] == Readable([])
        invariant old(folder.history) <= folder.history
        invariant clean ==> Logged(folder.history, |old(folder.history)|, target, bytes, values)
        invariant clean ==> Storing(folder.root, target, bytes, values)
        decreases |d|
      {
        d := d[..j] + d[j + 1..];
        AlmostWrittenReads(d, bytes, |d|);
        SetTarget(target, d, bytes, values, clean);
      }
      assert d == d[..j];
    }

    /** Opens the three temporary files; when one cannot be opened, the earlier ones are removed again. */
    method OpenCopies(target: string, fault: Fault, bytes: ByteArray, ghost values: set<ByteArray>, ghost clean: bool)
      returns (ok: bool)
      requires folder.root.Present? && target in folder.root.dirs && folder.root.dirs[target] == []
      requires clean ==> Storing(folder.root, target, bytes, values)
      modifies folder
      ensures ok <==> !(fault.OpenFile? && fault.copy < 3)
      ensures folder.root == Present(old(folder.root).dirs[target := if ok then Copies(3, []) else []])
      ensures ok ==> Seen(folder.history, |old(folder.history)|, folder.root)
      ensures old(folder.history) <= folder.history
      ensures clean ==> Logged(folder.history, |old(folder.history)|, target, bytes, values)
      ensures clean ==> Storing(folder.root, target, bytes, values)
    {
      ghost var dirs := folder.root.dirs;
      for j := 0 to 3
        invariant folder.root.Present? && folder.root.dirs == dirs[target := Copies(j, [])]
        invariant fault.OpenFile? ==> j <= fault.copy
        invariant j > 0 ==> |old(folder.history)| < |folder.history| && folder.history[|folder.history| - 1] == folder.root
        invariant old(folder.history) <= folder.history
        invariant clean ==> Logged(folder.history, |old(folder.history)|, target, bytes, values)
        invariant clean ==> Storing(folder.root, target, bytes, values)
      {
        ok := fault != OpenFile(j);
        if !ok {
          DiscardFrom(target, 0, bytes, values, clean);
          return;
        }
        AlmostWrittenReads(Copies(j + 1, []), bytes, j + 1);
        SetTarget(target, Copies(j + 1, []), bytes, values, clean);
      }
      ok := true;
    }

    /** Writes and commits copy `j`; on failure all that is uncommitted goes. */
    method WriteCopy(target: string, j: nat, fault: Fault, bytes: ByteArray, ghost values: set<ByteArray>, ghost clean: bool)
      returns (ok: bool)
      requires j < 3 && folder.root.Present? && target in folder.root.dirs
      requires folder.root.dirs[target] == Copies(j, bytes) + Copies(3 - j, [])
      requires clean ==> Storing(folder.root, target, bytes, values)
      modifies folder
      ensures ok <==> fault != WriteFile(j) && fault != CommitFile(j)
      ensures folder.root == Present(old(folder.root).dirs[target :=
                if ok then Copies(j + 1, bytes) + Copies(2 - j, []) else Copies(j, bytes)])
      ensures ok ==> Seen(folder.history, |old(folder.history)|, folder.root)
      ensures old(folder.history) <= folder.history
      ensures clean ==> Logged(folder.history, |old(folder.history)|, target, bytes, values)
      ensures clean ==> Storing(folder.root, target, bytes, values)
    {
      var d := folder.root.dirs[target];
      var reached: ByteArray := *; // what of it is on disk at some moment of the write
      AlmostWrittenReads(d[j := Readable(reached)], bytes, j);
      SetTarget(target, d[j := Readable(reached)], bytes, values, clean);
      var written := fault != WriteFile(j);
      if written {
        AlmostWrittenReads(d[j := Readable(bytes)], bytes, j);
        SetTarget(target, d[j := Readable(bytes)], bytes, values, clean);
      }
      ok := written && fault != CommitFile(j);
      if !ok {
        DiscardFrom(target, j, bytes, values, clean);
        assert folder.root.dirs[target] == Copies(j, bytes);
      } else {
        assert d[j := Readable(bytes)] == Copies(j + 1, bytes) + Copies(2 - j, []);
        assert folder.history[|folder.history| - 1] == folder.root;
      }
    }

    /** Writes and commits the copies one after the other. */
    method WriteCopies(target: string, fault: Fault, bytes: ByteArray, ghost values: set<ByteArray>, ghost clean: bool)
      returns (ok: bool)
      requires folder.root.Present? && target in folder.root.dirs && folder.root.dirs[target] == Copies(3, [])
      requires clean ==> Storing(folder.root, target, bytes, values)
      modifies folder
      ensures ok <==> !((fault.WriteFile? || fault.CommitFile?) && fault.copy < 3)
      ensures folder.root == Present(old(folder.root).dirs[target := Copies(if ok then 3 else fault.copy, bytes)])
      ensures old(folder.history) <= folder.history
      ensures ok ==> forall k :: 1 <= k <= 3 ==>
                Seen(folder.history, |old(folder.history)|, Partly(old(folder.root).dirs, target, k, bytes))
      ensures clean ==> Logged(folder.history, |old(folder.history)|, target, bytes, values)
      ensures clean ==> Storing(folder.root, target, bytes, values)
    {
      ghost var dirs := folder.root.dirs;
      assert Copies(0, bytes) + Copies(3, []) == Copies(3, []);
      for j := 0 to 3
        invariant folder.root.Present? && target in folder.root.dirs
        invariant folder.root.dirs[target] == Copies(j, bytes) + Copies(3 - j, [])
        invariant fault.WriteFile? || fault.CommitFile? ==> j <= fault.copy
        invariant folder.root.dirs == dirs[target := folder.root.dirs[target]]
        invariant old(folder.history) <= folder.history
        invariant forall k :: 1 <= k <= j ==> Seen(folder.history, |old(folder.history)|, Partly(dirs, target, k, bytes))
        invariant clean ==> Logged(folder.history, |old(folder.history)|, target, bytes, values)
        invariant clean ==> Storing(folder.root, target, bytes, values)
      {
        ghost var before := folder.history;
        ok := WriteCopy(target, j, fault, bytes, values, clean);
        if !ok {
          return;
        }
        forall k | 1 <= k <= j + 1 ensures Seen(folder.history, |old(folder.history)|, Partly(dirs, target, k, bytes)) {
          if k <= j { SeenStays(before, folder.history, |old(folder.history)|, Partly(dirs, target, k, bytes)); }
        }
      }
      assert Copies(3, bytes) + Copies(0, []) == Copies(3, bytes);
      ok := true;
    }

    /** Removes the file at `i` of an old directory that holds `d`. */
    method RemoveFile(name: string, d: Directory, i: nat, target: string, bytes: ByteArray, ghost values: set<ByteArray>,
                      ghost clean: bool)
      requires folder.root.Present? && name in folder.root.dirs && folder.root.dirs[name] == d && name != target
      requires i < |d| && (clean ==> Storing(folder.root, target, bytes, values))
      modifies folder
      ensures folder.root == Present(old(folder.root).dirs[name := d[..i] + d[i + 1..]])
      ensures folder.history == old(folder.history) + [folder.root]
      ensures clean ==> Storing(folder.root, target, bytes, values)
    {
      if clean { FewerHoldOnly(d, i, values); }
      folder.Become(Present(folder.root.dirs[name := d[..i] + d[i + 1..]]));
    }

    /** The file loop of QDir::removeRecursively: all but the files at `kept` go. */
    method RemoveFiles(name: string, kept: set<nat>, target: string, bytes: ByteArray, ghost values: set<ByteArray>,
                       ghost clean: bool)
      requires folder.root.Present? && name in folder.root.dirs && name != target
      requires clean ==> Storing(folder.root, target, bytes, values)
      modifies folder
      ensures folder.root == Present(old(folder.root).dirs[name := Left(old(folder.root).dirs[name], kept)])
      ensures old(folder.history) <= folder.history
      ensures clean ==> Logged(folder.history, |old(folder.history)|, target, bytes, values)
      ensures clean ==> Storing(folder.root, target, bytes, values)
    {
      hide Storing, Left;
      var all := folder.root.dirs[name];
      var d, i := all, 0;
      ghost var dirs := folder.root.dirs;
      LeftEmpty(all, kept);
      for n := 0 to |all|
        invariant folder.root == Present(dirs[name := d])
        invariant i == |Left(all[..n], kept)| && d == Left(all[..n], kept) + all[n..]
        invariant old(folder.history) <= folder.history
        invariant clean ==> Logged(folder.history, |old(folder.history)|, target, bytes, values)
        invariant clean ==> Storing(folder.root, target, bytes, values)
      {
        LeftNext(all, n, kept);
        if n in kept {
          i := i + 1;
        } else {
          RemoveFile(name, d, i, target, bytes, values, clean);
          d := d[..i] + d[i + 1..];
        }
      }
      assert all[..|all|] == all && d == Left(all, kept);
    }

    /** QDir::removeRecursively: tries every file, then the directory if all of them went. */
    method RemoveDirectory(name: string, fault: Fault, target: string, bytes: ByteArray, ghost values: set<ByteArray>,
                           ghost clean: bool)
      returns (ok: bool)
      requires folder.root.Present? && name in folder.root.dirs && name != target
      requires clean ==> Storing(folder.root, target, bytes, values)
      modifies folder
      ensures ok <==> !(fault.RemoveOld? && fault.name == name)
      ensures folder.root == Present(if ok then old(folder.root).dirs - {name}
                                     else old(folder.root).dirs[name := Left(old(folder.root).dirs[name], fault.kept)])
      ensures old(folder.history) <= folder.history
      ensures clean ==> Logged(folder.history, |old(folder.history)|, target, bytes, values)
      ensures clean ==> Storing(folder.root, target, bytes, values)
    {
      hide Left;
      ok := !(fault.RemoveOld? && fault.name == name);
      RemoveFiles(name, if ok then {} else fault.kept, target, bytes, values, clean);
      if ok {
        folder.Become(Present(folder.root.dirs - {name}));
      }
    }

    /** Removes the directories that were there before, in an arbitrary order, stopping at the first failure. */
    method RemoveOldDirectories(names: seq<string>, fault: Fault, target: string, bytes: ByteArray,
                                ghost values: set<ByteArray>, ghost clean: bool)
      returns (ok: bool)
      requires folder.root.Present? && target in folder.root.dirs && Lists(names, folder.root.dirs.Keys - {target})
      requires clean ==> Storing(folder.root, target, bytes, values)
      modifies folder
      ensures ok <==> !(fault.RemoveOld? && fault.name in names)
      ensures folder.root.Present? && target in folder.root.dirs
      ensures folder.root.dirs[target] == old(folder.root).dirs[target]
      ensures ok ==> folder.root.dirs.Keys == {target}
      ensures !ok ==> PartlyRemoved(old(folder.root).dirs, folder.root.dirs, fault.name, fault.kept)
      ensures old(folder.history) <= folder.history
      ensures clean ==> Logged(folder.history, |old(folder.history)|, target, bytes, values)
    {
      ghost var dirs := folder.root.dirs;
      assert forall j :: 0 <= j < |names| ==> names[j] in names;
      for i := 0 to |names|
        invariant folder.root.Present? && target in folder.root.dirs
        invariant fault.RemoveOld? ==> fault.name !in names[..i]
        invariant forall j :: i <= j < |names| ==> names[j] in folder.root.dirs
        invariant forall n :: n in folder.root.dirs ==>
                    n in dirs && folder.root.dirs[n] == dirs[n] && (n == target || n in names[i..])
        invariant old(folder.history) <= folder.history
        invariant clean ==> Logged(folder.history, |old(folder.history)|, target, bytes, values)
        invariant clean ==> Storing(folder.root, target, bytes, values)
      {
        ok := RemoveDirectory(names[i], fault, target, bytes, values, clean);
        if !ok {
          return;
        }
      }
      ok := true;
    }

    /** From the empty new directory to three committed copies, or to the failure. */
    method Fill(uuid: string, fault: Fault, bytes: ByteArray, ghost values: set<ByteArray>, ghost clean: bool,
                ghost dirs: map<string, Directory>)
      returns (status: Status)
      requires folder.root == Present(dirs[uuid := []])
      requires clean ==> Storing(folder.root, uuid, bytes, values)
      modifies folder
      ensures status == if fault.OpenFile? && fault.copy < 3 then CannotOpenFile
                        else if (fault.WriteFile? || fault.CommitFile?) && fault.copy < 3 then CannotWriteFile
                        else Success
      ensures folder.root == Present(dirs[uuid := if status == CannotOpenFile then []
                                                  else Copies(if status == Success then 3 else fault.copy, bytes)])
      ensures old(folder.history) <= folder.history
      ensures clean ==> Logged(folder.history, |old(folder.history)|, uuid, bytes, values)
      ensures clean ==> Storing(folder.root, uuid, bytes, values)
      ensures status == Success ==> CopyByCopy(folder.history, |old(folder.history)|, dirs, uuid, bytes)
    {
      hide Storing, Logged, Seen, CopyByCopy;
      var ok := OpenCopies(uuid, fault, bytes, values, clean);
      if !ok {
        return CannotOpenFile;
      }
      ghost var opened_ := folder.history;
      ghost var opening := folder.root.dirs;
      OpenedIsPartly(dirs, opening, uuid, bytes);
      ok := WriteCopies(uuid, fault, bytes, values, clean);
      LoggedOn(opened_, folder.history, |old(folder.history)|, uuid, bytes, values);
      if ok { AllSeen(opened_, folder.history, |old(folder.history)|, dirs, uuid, bytes); }
      return if ok then Success else CannotWriteFile;
    }

    /** From the empty new directory to its success or its failure. */
    method FillAndSwap(uuid: string, oldNames: seq<string>, fault: Fault, bytes: ByteArray, ghost values: set<ByteArray>,
                       ghost clean: bool, ghost dirs: map<string, Directory>)
      returns (status: Status)
      requires uuid !in dirs && folder.root == Present(dirs[uuid := []]) && Lists(oldNames, dirs.Keys)
      requires clean ==> Storing(folder.root, uuid, bytes, values)
      modifies folder
      ensures status == FillStatus(dirs, fault) && FillLeaves(dirs, folder.root, bytes, uuid, fault)
      ensures old(folder.history) <= folder.history
      ensures status == Success ==> CopyByCopy(folder.history, |old(folder.history)|, dirs, uuid, bytes)
      ensures clean ==> Logged(folder.history, |old(folder.history)|, uuid, bytes, values)
    {
      hide Storing, Logged, PartlyRemoved, CopyByCopy;
      status := Fill(uuid, fault, bytes, values, clean, dirs);
      if status != Success {
        return;
      }
      ghost var written := folder.history;
      assert dirs[uuid := Copies(3, bytes)].Keys - {uuid} == dirs.Keys;
      var ok := RemoveOldDirectories(oldNames, fault, uuid, bytes, values, clean);
      LoggedOn(written, folder.history, |old(folder.history)|, uuid, bytes, values);
      CopyByCopyOn(written, folder.history, |old(folder.history)|, dirs, uuid, bytes);
      if ok {
        assert folder.root.dirs == map[uuid := Copies(3, bytes)];
      } else {
        status := CannotDeleteDirectory;
      }
    }

    /**
     Stores `bytes` in a new directory named `uuid`, then removes the old ones.  What is left behind follows from
     what was there and from the operation that fails, if any; and if each old file held one of `values`, a crash
     at any step leaves only directories that read as one of these, as the new bytes, or as empty.
     */
    method PutData(bytes: ByteArray, uuid: string, fault: Fault, ghost values: set<ByteArray>) returns (status: Status)
      modifies this, folder
      // a store in which nothing fails succeeds, and how one ends is decided by what is there and by what fails
      ensures fault == NoFault && uuid !in Dirs(old(folder.root)) ==>
                status == Success && folder.root == Present(map[uuid := Copies(3, bytes)])
      ensures status == Success <==> uuid !in Dirs(old(folder.root)) && !Strikes(fault, old(folder.root))
      ensures status == StoreStatus(old(folder.root), uuid, fault)
      ensures StoreLeaves(old(folder.root), folder.root, bytes, uuid, fault)
      // three copies are committed one after the other
      ensures status == Success ==>
                CopyByCopy(folder.history, |old(folder.history)|, Dirs(old(folder.root)), uuid, bytes)
      ensures cache == if status == Success then [] else old(cache)
      ensures old(folder.history) <= folder.history
      ensures StartsClean(old(folder.root), values) ==>
                SafeFrom(folder.history, |old(folder.history)|, values + {bytes, []})
    {
      hide FillStatus, FillLeaves, OnlyReads, HoldsOnly, CopyByCopy;
      ghost var clean := StartsClean(folder.root, values);
      if folder.root.Absent? {
        if fault == CreateRoot {
          return CannotCreateDirectory;
        }
        folder.Become(Present(map[]));
      }
      var oldNames := folder.ListDirectories();
      if fault == CreateDirectory || uuid in folder.root.dirs {
        return CannotCreateDirectory;
      }
      ghost var dirs := folder.root.dirs;
      EmptyReadsNothing(bytes);
      folder.Become(Present(folder.root.dirs[uuid := []]));
      assert dirs == Dirs(old(folder.root)) && uuid !in dirs;
      ghost var made := folder.history;
      status := FillAndSwap(uuid, oldNames, fault, bytes, values, clean, dirs);
      FillIsNotCreate(old(folder.root), folder.root, uuid, bytes, fault);
      if status == Success {
        CopyByCopyFrom(folder.history, |made|, |old(folder.history)|, dirs, uuid, bytes);
      }
      if clean {
        LoggedIsSafe(folder.history, |old(folder.history)|, uuid, bytes, values);
      }
      if status == Success {
        cache := [];
      }
    }
  }

  // ---- what a store leaves behind -------------------------------------------------------------------

  /** The files that stay when only those at `kept` cannot be removed. */
  function Left(d: Directory, kept: set<nat>): Directory
    decreases |d|
  {
    if d == [] then []
    else
      var n := |d| - 1;
      Left(d[..n], kept) + if n in kept then [d[n]] else []
  }

  lemma LeftEmpty(d: Directory, kept: set<nat>)
    ensures Left(d[..0], kept) == [] && d[..0] == []
  {
  }

  lemma LeftNext(d: Directory, n: nat, kept: set<nat>)
    requires n < |d|
    ensures Left(d[..n + 1], kept) == Left(d[..n], kept) + if n in kept then [d[n]] else []
  {
    assert d[..n + 1][..n] == d[..n];
  }

  /** Some of the old directories are gone, the one at `name` is cut down, the others are as they were. */
  ghost predicate PartlyRemoved(before: map<string, Directory>, after: map<string, Directory>, name: string, kept: set<nat>) {
    && name in before && name in after && after[name] == Left(before[name], kept)
    && forall n :: n in after && n != name ==> n in before && after[n] == before[n]
  }

  /** The directories there are, none if the root is absent. */
  function Dirs(r: Root): map<string, Directory> {
    if r.Present? then r.dirs else map[]
  }

  /** How a store ends: decided before the call by the fault and by what is there. */
  function StoreStatus(before: Root, uuid: string, fault: Fault): Status {
    if (before.Absent? && fault == CreateRoot) || fault == CreateDirectory || uuid in Dirs(before) then CannotCreateDirectory
    else FillStatus(Dirs(before), fault)
  }

  function FillStatus(dirs: map<string, Directory>, fault: Fault): Status {
    match fault
    case OpenFile(copy) => if copy < 3 then CannotOpenFile else Success
    case WriteFile(copy) => if copy < 3 then CannotWriteFile else Success
    case CommitFile(copy) => if copy < 3 then CannotWriteFile else Success
    case RemoveOld(name, _) => if name in dirs then CannotDeleteDirectory else Success
    case _ => Success
  }

  lemma FillIsNotCreate(before: Root, after: Root, uuid: string, bytes: ByteArray, fault: Fault)
    requires uuid !in Dirs(before) && fault != CreateDirectory && !(before.Absent? && fault == CreateRoot)
    requires FillLeaves(Dirs(before), after, bytes, uuid, fault)
    ensures FillStatus(Dirs(before), fault) != CannotCreateDirectory
    ensures FillStatus(Dirs(before), fault) == Success <==> !Strikes(fault, before)
    ensures fault == NoFault ==> after == Present(map[uuid := Copies(3, bytes)])
  {
  }

  /** What a store that got its new directory leaves of `dirs`. */
  ghost predicate FillLeaves(dirs: map<string, Directory>, after: Root, bytes: ByteArray, uuid: string, fault: Fault) {
    match FillStatus(dirs, fault)
    case CannotOpenFile => after == Present(dirs[uuid := []])
    case CannotWriteFile => after == Present(dirs[uuid := Copies(fault.copy, bytes)])
    case CannotDeleteDirectory =>
      && after.Present? && uuid in after.dirs
      && PartlyRemoved(dirs[uuid := Copies(3, bytes)], after.dirs, fault.name, fault.kept)
    case _ => after == Present(map[uuid := Copies(3, bytes)])
  }

  /** What a store leaves behind, exactly but for the order in which old directories are removed. */
  ghost predicate StoreLeaves(before: Root, after: Root, bytes: ByteArray, uuid: string, fault: Fault) {
    if StoreStatus(before, uuid, fault) == CannotCreateDirectory then
      after == if before.Absent? && fault != CreateRoot then Present(map[]) else before
    else FillLeaves(Dirs(before), after, bytes, uuid, fault)
  }

  /** What putData starts from: every old file that opens holds one of `values`. */
  ghost predicate StartsClean(r: Root, values: set<ByteArray>) {
    r.Present? ==> forall n :: n in r.dirs ==> HoldsOnly(r.dirs[n], values)
  }

  /** Whatever state from `from` on is the one found after a crash, it is safe to read. */
  ghost predicate SafeFrom(history: seq<Root>, from: nat, allowed: set<ByteArray>) {
    forall k :: from <= k < |history| ==> CrashSafe(history[k], allowed)
  }

  lemma LoggedOn(earlier: seq<Root>, history: seq<Root>, from: nat, target: string, bytes: ByteArray, values: set<ByteArray>)
    requires from <= |earlier| && earlier <= history
    ensures Logged(earlier, from, target, bytes, values) && Logged(history, |earlier|, target, bytes, values) ==>
              Logged(history, from, target, bytes, values)
  {
    hide Storing;
  }

  lemma LoggedIsSafe(history: seq<Root>, from: nat, target: string, bytes: ByteArray, values: set<ByteArray>)
    requires Logged(history, from, target, bytes, values)
    ensures SafeFrom(history, from, values + {bytes, []})
  {
    forall k | from <= k < |history| ensures CrashSafe(history[k], values + {bytes, []}) {
      StoringIsCrashSafe(history[k], target, bytes, values);
    }
  }

  /** `n` files holding the same bytes. */
  function Copies(n: nat, bytes: ByteArray): (d: Directory)
    ensures |d| == n && forall i :: 0 <= i < n ==> d[i] == Readable(bytes)
  {
    seq(n, _ => Readable(bytes))
  }

  /** The root while `k` copies are committed and the others are still empty. */
  ghost function Partly(dirs: map<string, Directory>, target: string, k: nat, bytes: ByteArray): Root
    requires k <= 3
  {
    Present(dirs[target := Copies(k, bytes) + Copies(3 - k, [])])
  }

  lemma OpenedIsPartly(dirs: map<string, Directory>, opening: map<string, Directory>, target: string, bytes: ByteArray)
    requires opening == dirs[target := Copies(3, [])]
    ensures Present(opening) == Partly(dirs, target, 0, bytes)
    ensures forall k :: 0 <= k <= 3 ==> Partly(opening, target, k, bytes) == Partly(dirs, target, k, bytes)
  {
    assert Copies(0, bytes) + Copies(3, []) == Copies(3, []);
  }

  ghost predicate Seen(history: seq<Root>, from: nat, r: Root) {
    exists j :: from <= j < |history| && history[j] == r
  }

  lemma SeenStays(earlier: seq<Root>, history: seq<Root>, from: nat, r: Root)
    requires Seen(earlier, from, r) && earlier <= history
    ensures Seen(history, from, r)
  {
    var j :| from <= j < |earlier| && earlier[j] == r;
    assert history[j] == r;
  }

  lemma SeenFrom(history: seq<Root>, later: nat, from: nat, r: Root)
    requires Seen(history, later, r) && from <= later
    ensures Seen(history, from, r)
  {
  }

  /** From `from` on, the disk went through every number of committed copies. */
  ghost predicate CopyByCopy(history: seq<Root>, from: nat, dirs: map<string, Directory>, target: string, bytes: ByteArray) {
    forall k :: 0 <= k <= 3 ==> Seen(history, from, Partly(dirs, target, k, bytes))
  }

  lemma AllSeen(earlier: seq<Root>, history: seq<Root>, from: nat, dirs: map<string, Directory>, target: string,
                bytes: ByteArray)
    requires earlier <= history && from <= |earlier| && Seen(earlier, from, Partly(dirs, target, 0, bytes))
    requires forall k :: 1 <= k <= 3 ==> Seen(history, |earlier|, Partly(dirs, target, k, bytes))
    ensures CopyByCopy(history, from, dirs, target, bytes)
  {
    hide Seen;
    SeenStays(earlier, history, from, Partly(dirs, target, 0, bytes));
    forall k | 1 <= k <= 3 ensures Seen(history, from, Partly(dirs, target, k, bytes)) {
      SeenFrom(history, |earlier|, from, Partly(dirs, target, k, bytes));
    }
  }

  lemma CopyByCopyOn(earlier: seq<Root>, history: seq<Root>, from: nat, dirs: map<string, Directory>, target: string,
                     bytes: ByteArray)
    requires earlier <= history && CopyByCopy(earlier, from, dirs, target, bytes)
    ensures CopyByCopy(history, from, dirs, target, bytes)
  {
    hide Seen;
    forall k | 0 <= k <= 3 ensures Seen(history, from, Partly(dirs, target, k, bytes)) {
      SeenStays(earlier, history, from, Partly(dirs, target, k, bytes));
    }
  }

  lemma CopyByCopyFrom(history: seq<Root>, later: nat, from: nat, dirs: map<string, Directory>, target: string,
                       bytes: ByteArray)
    requires from <= later && CopyByCopy(history, later, dirs, target, bytes)
    ensures CopyByCopy(history, from, dirs, target, bytes)
  {
    hide Seen;
    forall k | 0 <= k <= 3 ensures Seen(history, from, Partly(dirs, target, k, bytes)) {
      SeenFrom(history, later, from, Partly(dirs, target, k, bytes));
    }
  }

  /** Every state recorded from `from` on is that of a store in progress. */
  ghost predicate Logged(history: seq<Root>, from: nat, target: string, bytes: ByteArray, values: set<ByteArray>) {
    forall k :: from <= k < |history| ==> Storing(history[k], target, bytes, values)
  }

  // ---- theorems -------------------------------------------------------------------------------------

  lemma CopiesRead(n: nat, bytes: ByteArray)
    requires n > 0
    ensures Reads(Copies(n, bytes), bytes)
  {
    AllSame(Contents(Copies(n, bytes)), bytes);
    assert Copies(n, bytes)[0].Readable?;
  }

  lemma {:induction false} AllSame(q: seq<ByteArray>, v: ByteArray)
    requires forall i :: 0 <= i < |q| ==> q[i] == v
    ensures multiset(q)[v] == |q|
    decreases |q|
  {
    if q != [] {
      assert q == [q[0]] + q[1..];
      AllSame(q[1..], v);
    }
  }

  lemma AllButOneSame(q: seq<ByteArray>, v: ByteArray, i: nat)
    requires i < |q| && forall j :: 0 <= j < |q| && j != i ==> q[j] == v
    ensures multiset(q)[v] >= |q| - 1
  {
    AllSame(Without(q, i), v);
  }

  /** A directory from which `bytes` can be read gives nothing else, whatever the order of its files. */
  lemma ReadsAlone(d: Directory, bytes: ByteArray, status: Status, data: ByteArray)
    requires Reads(d, bytes) && Outcome(d, status, data)
    ensures status == Success && data == bytes
  {
    VerdictIsUnique(Contents(d), Contents(d), Winner(bytes), if status == Success then Winner(data) else NoMajority);
  }

  datatype Damage = Altered(data: ByteArray) | Blocked | Removed

  function Damaged(d: Directory, i: nat, damage: Damage): Directory
    requires i < |d|
  {
    match damage
    case Altered(data) => d[i := Readable(data)]
    case Blocked => d[i := Unreadable]
    case Removed => d[..i] + d[i + 1..]
  }

  /** Any one of the three files may be altered, emptied, made unreadable or removed. */
  lemma OneFaultIsTolerated(bytes: ByteArray, i: nat, damage: Damage)
    requires i < 3
    ensures Reads(Damaged(Copies(3, bytes), i, damage), bytes)
  {
    var d := Damaged(Copies(3, bytes), i, damage);
    var q := Contents(d);
    assert forall j :: 0 <= j < |d| && (damage.Removed? || j != i) ==> d[j] == Readable(bytes);
    if damage.Removed? {
      AllSame(q, bytes);
      assert d[0].Readable?;
    } else {
      AllButOneSame(q, bytes, i);
      assert d[if i == 0 then 1 else 0].Readable?;
    }
  }

  /** A stored value is read back by any reader, also after one file was damaged. */
  method StoreDamageLoad(folder: Folder, bytes: ByteArray, uuid: string, fault: Fault, i: nat, damage: Damage)
    returns (stored: Status, loaded: Status, data: ByteArray, loadedDamaged: Status, dataDamaged: ByteArray)
    requires i < 3
    modifies folder
    ensures uuid !in Dirs(old(folder.root)) && !Strikes(fault, old(folder.root)) ==> stored == Success
    ensures stored == Success ==> loaded == Success && data == bytes
    ensures stored == Success ==> loadedDamaged == Success && dataDamaged == bytes
  {
    var writer := new DataProtector(folder);
    stored := writer.PutData(bytes, uuid, fault, {});
    if stored != Success {
      return stored, stored, [], stored, [];
    }
    CopiesRead(3, bytes);
    ghost var d0 := folder.root.dirs[uuid];
    ghost var chosen: string;
    loaded, data, chosen := writer.GetData({});
    ReadsAlone(d0, bytes, loaded, data);
    OneFaultIsTolerated(bytes, i, damage);
    folder.Become(Present(map[uuid := Damaged(Copies(3, bytes), i, damage)]));
    var reader := new DataProtector(folder);
    loadedDamaged, dataDamaged, chosen := reader.GetData({});
    ReadsAlone(Damaged(Copies(3, bytes), i, damage), bytes, loadedDamaged, dataDamaged);
  }

  /** After a crash at any step of a store, a fresh reader gets the old bytes, the new ones, none, or an error. */
  method StoreCrashLoad(folder: Folder, bytes: ByteArray, uuid: string, fault: Fault, previous: ByteArray,
                        ghost name: string, k: nat)
    returns (crashed: bool, status: Status, data: ByteArray)
    requires folder.root == Present(map[name := Copies(3, previous)])
    modifies folder
    ensures crashed <==> |old(folder.history)| + k < |folder.history|
    ensures crashed ==> status in {Success, Irretrievable}
    ensures crashed && status == Success ==> data in {previous, bytes, []}
    // and it is what that state can be read as: the one value it holds, if it holds one
    ensures crashed && status == Success ==> MayRead(folder.history[|old(folder.history)| + k], data)
    ensures crashed && Holds(folder.history[|old(folder.history)| + k], previous) ==> status == Success && data == previous
    ensures crashed && Holds(folder.history[|old(folder.history)| + k], bytes) ==> status == Success && data == bytes
  {
    var writer := new DataProtector(folder);
    var before := |folder.history|;
    status := writer.PutData(bytes, uuid, fault, {previous});
    if before + k >= |folder.history| {
      return false, status, []; // the store was over before step k
    }
    var found := new Folder(folder.history[before + k]);
    var reader := new DataProtector(found);
    assert {previous} + {bytes, []} == {previous, bytes, []};
    ghost var root, chosen := found.root, "";
    status, data, chosen := reader.GetData({});
    crashed := true;
    if Holds(root, previous) { HoldsIsRead(root, found.root, chosen, previous, status, data); }
    if Holds(root, bytes) { HoldsIsRead(root, found.root, chosen, bytes, status, data); }
    hide Holds, Reads, OnlyReads;
  }

  /**
   And each of these does happen, in every store over another value in which nothing fails: some state on the way lets a
   reader get the old bytes, one the new bytes, and one nothing although both are there.
   */
  method StoreCrashWindows(folder: Folder, bytes: ByteArray, uuid: string, previous: ByteArray, ghost name: string)
    returns (ghost from: nat)
    requires folder.root == Present(map[name := Copies(3, previous)]) && uuid != name
    modifies folder
    ensures from == |old(folder.history)|
    ensures exists k :: from <= k < |folder.history| && MayRead(folder.history[k], previous)
    ensures exists k :: from <= k < |folder.history| && MayRead(folder.history[k], bytes)
    ensures exists k :: from <= k < |folder.history| && MayRead(folder.history[k], [])
  {
    from := |folder.history|;
    ghost var dirs := folder.root.dirs;
    var writer := new DataProtector(folder);
    var _ := writer.PutData(bytes, uuid, NoFault, {previous});
    PartlyReads(dirs, uuid, bytes, previous, name);
    hide MayRead, Partly;
    ghost var none: nat :| from <= none < |folder.history| && folder.history[none] == Partly(dirs, uuid, 0, bytes);
    ghost var all: nat :| from <= all < |folder.history| && folder.history[all] == Partly(dirs, uuid, 3, bytes);
  }

  lemma MayReadFrom(r: Root, n: string, copies: nat, v: ByteArray)
    requires r.Present? && n in r.dirs && r.dirs[n] == Copies(copies, v) && copies > 0
    ensures MayRead(r, v)
  {
    CopiesRead(copies, v);
    hide Reads;
  }

  lemma PartlyReads(dirs: map<string, Directory>, uuid: string, bytes: ByteArray, previous: ByteArray, name: string)
    requires dirs == map[name := Copies(3, previous)] && uuid != name
    ensures MayRead(Partly(dirs, uuid, 0, bytes), previous) && MayRead(Partly(dirs, uuid, 0, bytes), [])
    ensures MayRead(Partly(dirs, uuid, 3, bytes), bytes)
  {
    hide MayRead;
    var none, all := Partly(dirs, uuid, 0, bytes), Partly(dirs, uuid, 3, bytes);
    assert none.dirs[uuid] == Copies(3, []) && none.dirs[name] == Copies(3, previous);
    assert all.dirs[uuid] == Copies(3, bytes);
    MayReadFrom(none, name, 3, previous);
    MayReadFrom(none, uuid, 3, []);
    MayReadFrom(all, uuid, 3, bytes);
  }

  /**
   The premise of crash safety is exact: while a directory is being removed, only allowed values can be read
   from what is left if and only if every file that opens holds an allowed value.
   */
  lemma RemovalSafetyIsExact(d: Directory, allowed: set<ByteArray>)
    requires [] in allowed
    ensures (forall e: Directory :: multiset(e) <= multiset(d) ==> OnlyReads(e, allowed)) <==> HoldsOnly(d, allowed)
  {
    if HoldsOnly(d, allowed) {
      forall e: Directory | multiset(e) <= multiset(d) ensures OnlyReads(e, allowed) {
        forall i | 0 <= i < |e| && e[i].Readable? ensures e[i].data in allowed {
          assert e[i] in multiset(e);
          assert e[i] in d;
        }
        HoldsOnlyReads(e, allowed);
        assert allowed + {[]} == allowed;
      }
    } else {
      var i :| 0 <= i < |d| && d[i].Readable? && d[i].data !in allowed;
      var e := [d[i]];
      CopiesRead(1, d[i].data);
      assert e == Copies(1, d[i].data);
      assert multiset(e) <= multiset(d);
    }
  }

  // ---- when a stored value survives a store that fails ----------------------------------------------

  /** Whatever directory is picked, `record` is read from it; an empty record means that there is none. */
  ghost predicate Holds(r: Root, record: ByteArray) {
    if record == [] then NoDirectories(r)
    else r.Present? && r.dirs != map[] && forall n :: n in r.dirs ==> Reads(r.dirs[n], record)
  }

  /** A fresh reader may get `data`. */
  ghost predicate MayRead(r: Root, data: ByteArray) {
    if NoDirectories(r) then data == [] else exists n :: n in r.dirs && Reads(r.dirs[n], data)
  }

  lemma OneReading(d: Directory, a: ByteArray, b: ByteArray)
    requires Reads(d, a) && Reads(d, b)
    ensures a == b
  {
    VerdictIsUnique(Contents(d), Contents(d), Winner(a), Winner(b));
  }

  lemma HoldsAlone(r: Root, record: ByteArray, data: ByteArray)
    requires Holds(r, record) && MayRead(r, data)
    ensures data == record
  {
    if record != [] {
      var n :| n in r.dirs && Reads(r.dirs[n], data);
      OneReading(r.dirs[n], record, data);
    }
  }

  lemma HoldsOne(r: Root, a: ByteArray, b: ByteArray)
    requires Holds(r, a) && Holds(r, b)
    ensures a == b
  {
    if a != [] && b != [] {
      var n :| n in r.dirs;
      OneReading(r.dirs[n], a, b);
    }
  }

  lemma HeldEmpty(r: Root)
    ensures Holds(r, []) ==> Dirs(r) == map[]
  {
  }

  /** What is readable after a reader has dropped empty directories was readable before. */
  lemma PrunedReads(before: Root, after: Root, kept: string, v: ByteArray)
    requires Pruned(before, after, kept) && MayRead(after, v)
    requires !NoDirectories(before) ==> kept in before.dirs
    ensures MayRead(before, v)
  {
    hide Reads;
    if !NoDirectories(before) && after != before {
      assert kept in after.dirs;
    }
  }

  /** Reading a folder that holds a record gives it and changes nothing. */
  lemma HoldsIsRead(before: Root, after: Root, chosen: string, record: ByteArray, status: Status, data: ByteArray)
    requires Holds(before, record)
    requires NoDirectories(before) ==> status == Success && data == [] && after == before
    requires !NoDirectories(before) ==> chosen in before.dirs && Outcome(before.dirs[chosen], status, data)
    requires Pruned(before, after, chosen)
    ensures status == Success && data == record && after == before
  {
    if record != [] {
      ReadsAlone(before.dirs[chosen], record, status, data);
      hide Outcome, Majority;
      assert forall n :: n in before.dirs ==> before.dirs[n] != [];
      assert before.dirs == after.dirs;
    }
  }

  lemma StoredHolds(uuid: string, record: ByteArray)
    requires record != []
    ensures Holds(Present(map[uuid := Copies(3, record)]), record)
  {
    CopiesRead(3, record);
    assert uuid in Present(map[uuid := Copies(3, record)]).dirs;
  }

  /** Decided before the store: does the value that is held outlive it? */
  ghost predicate Survives(before: Root, uuid: string, fault: Fault, record: ByteArray, bytes: ByteArray) {
    match StoreStatus(before, uuid, fault)
    case CannotCreateDirectory => true
    case CannotOpenFile => false
    case CannotWriteFile => record == bytes && fault.copy > 0
    case CannotDeleteDirectory => record == bytes && Reads(Left(Dirs(before)[fault.name], fault.kept), bytes)
    case _ => record == bytes
  }

  /**
   A value held before a store is held after it if and only if `Survives`: when other bytes are stored, exactly when
   the new directory could not even be made.
   */
  lemma SurvivalIsExact(before: Root, after: Root, uuid: string, fault: Fault, record: ByteArray, bytes: ByteArray)
    requires Holds(before, record) && bytes != [] && StoreLeaves(before, after, bytes, uuid, fault)
    ensures Holds(after, record) <==> Survives(before, uuid, fault, record, bytes)
    ensures record != bytes ==> (Holds(after, record) <==> StoreStatus(before, uuid, fault) == CannotCreateDirectory)
  {
    if StoreStatus(before, uuid, fault) != CannotCreateDirectory {
      NewDirectoryReads(before, after, uuid, fault, bytes);
      hide Reads, Left;
      OnlyNewBytes(after, uuid, record, bytes);
      if record == bytes {
        SameBytesSurvive(before, after, uuid, fault, bytes);
      }
    }
  }

  /** What the new directory reads as, for each way a store can end after making it. */
  lemma NewDirectoryReads(before: Root, after: Root, uuid: string, fault: Fault, bytes: ByteArray)
    requires StoreLeaves(before, after, bytes, uuid, fault) && StoreStatus(before, uuid, fault) != CannotCreateDirectory
    ensures after.Present? && uuid in after.dirs
    ensures forall v :: Reads(after.dirs[uuid], v) <==> v == bytes && CopyCommitted(before, uuid, fault)
  {
    hide PartlyRemoved, Left;
    NewDirectoryHolds(before, after, uuid, fault, bytes);
    var n := |after.dirs[uuid]|;
    forall v ensures Reads(after.dirs[uuid], v) <==> v == bytes && n > 0 {
      if n > 0 {
        CopiesRead(n, bytes);
        if Reads(after.dirs[uuid], v) { OneReading(after.dirs[uuid], v, bytes); }
      }
    }
  }

  /** At least one copy of the new bytes stays on disk. */
  predicate CopyCommitted(before: Root, uuid: string, fault: Fault) {
    match StoreStatus(before, uuid, fault)
    case CannotCreateDirectory => false
    case CannotOpenFile => false
    case CannotWriteFile => fault.copy > 0
    case _ => true
  }

  lemma NewDirectoryHolds(before: Root, after: Root, uuid: string, fault: Fault, bytes: ByteArray)
    requires StoreLeaves(before, after, bytes, uuid, fault) && StoreStatus(before, uuid, fault) != CannotCreateDirectory
    ensures after.Present? && uuid in after.dirs && after.dirs[uuid] == Copies(|after.dirs[uuid]|, bytes)
    ensures |after.dirs[uuid]| > 0 <==> CopyCommitted(before, uuid, fault)
  {
    hide Left;
  }

  lemma OnlyNewBytes(after: Root, uuid: string, record: ByteArray, bytes: ByteArray)
    requires after.Present? && uuid in after.dirs && bytes != []
    requires forall v :: Reads(after.dirs[uuid], v) ==> v == bytes
    ensures Holds(after, record) ==> record == bytes && Reads(after.dirs[uuid], bytes)
  {
    hide Reads;
  }

  lemma SameBytesSurvive(before: Root, after: Root, uuid: string, fault: Fault, bytes: ByteArray)
    requires Holds(before, bytes) && bytes != [] && StoreLeaves(before, after, bytes, uuid, fault)
    requires StoreStatus(before, uuid, fault) != CannotCreateDirectory
    requires after.Present? && uuid in after.dirs
    requires Reads(after.dirs[uuid], bytes) <==> CopyCommitted(before, uuid, fault)
    ensures Holds(after, bytes) <==> Survives(before, uuid, fault, bytes, bytes)
  {
    hide Reads, Left;
    assert after.dirs != map[];
  }

  /** As long as no copy is committed a failed store adds nothing that can be read. */
  lemma FailedStoreReads(before: Root, after: Root, uuid: string, fault: Fault, bytes: ByteArray, v: ByteArray)
    requires StoreLeaves(before, after, bytes, uuid, fault) && !CopyCommitted(before, uuid, fault)
    requires MayRead(after, v)
    ensures MayRead(before, v)
  {
    if !NoDirectories(after) && StoreStatus(before, uuid, fault) != CannotCreateDirectory {
      var n :| n in after.dirs && Reads(after.dirs[n], v);
      assert n != uuid;
      assert before.Present? && n in before.dirs;
    }
  }

  /** Once one is, a reader may get the new bytes although the store failed. */
  lemma CommittedMayBeRead(before: Root, after: Root, uuid: string, fault: Fault, bytes: ByteArray)
    requires StoreLeaves(before, after, bytes, uuid, fault) && CopyCommitted(before, uuid, fault)
    ensures MayRead(after, bytes)
  {
    NewDirectoryReads(before, after, uuid, fault, bytes);
    assert uuid in after.dirs;
  }

  /** While the copies are being committed, the new directory looks empty until the second one is in place. */
  lemma HalfWrittenReads(k: nat, bytes: ByteArray)
    requires k <= 3 && bytes != []
    ensures Reads(Copies(k, bytes) + Copies(3 - k, []), []) <==> k <= 1
    ensures Reads(Copies(k, bytes) + Copies(3 - k, []), bytes) <==> k >= 2
  {
    var d := Copies(k, bytes) + Copies(3 - k, []);
    var q := Contents(d);
    assert q == Contents(Copies(k, bytes)) + Contents(Copies(3 - k, []));
    AllSame(Contents(Copies(k, bytes)), bytes);
    AllSame(Contents(Copies(3 - k, [])), []);
    AllOthers(Contents(Copies(k, bytes)), bytes, []);
    AllOthers(Contents(Copies(3 - k, [])), [], bytes);
    assert d[0].Readable?;
  }

  lemma {:induction false} AllOthers(q: seq<ByteArray>, v: ByteArray, w: ByteArray)
    requires (forall i :: 0 <= i < |q| ==> q[i] == v) && v != w
    ensures multiset(q)[w] == 0
    decreases |q|
  {
    if q != [] {
      assert q == [q[0]] + q[1..];
      AllOthers(q[1..], v, w);
    }
  }
}
