/** The snapshot folders of one service on one machine, and the operations of
  * diff_patch.py and migrate_controller.py, which rewrite them in place. */
module Disk {
  import opened Basics
  import opened DiffPatch

  datatype Folder = Pre1 | Pre2 | Pre3 | Snapshot | Delta12 | Delta23 | Delta

  type Folders = map<Folder, Dir>

  function Files(fs: Folders, f: Folder): Dir {
    if f in fs then fs[f] else map[]
  }

  /** `compute_diff`. */
  function Diffs(x: Xdelta, fs: Folders, base: Folder, next: Folder, patch: Folder): Folders
    requires patch != base && patch != next
  {
    if base !in fs || next !in fs then fs[patch := map[]] else fs[patch := DiffDir(x, fs[base], fs[next])]
  }

  /** `restore_diff`. */
  function Restored(x: Xdelta, fs: Folders, base: Folder, next: Folder, patch: Folder): Folders
    requires next != base && next != patch
  {
    var fs1 := fs[next := Files(fs, next)];
    if base !in fs || patch !in fs then fs1 else fs1[next := fs1[next] + PatchDir(x, fs[base], fs[patch])]
  }

  /** rsync never deletes at the destination; a source that does not exist sends
    * nothing. */
  function Synced(src: Folders, dst: Folders, f: Folder, filter: bool): Folders {
    if f !in src then dst else dst[f := Files(dst, f) + if filter then Filtered(src[f]) else src[f]]
  }

  function Only(d: Dir, names: set<string>): Dir {
    map n | n in d && n in names :: d[n]
  }

  lemma OnlyMore(d: Dir, done: set<string>, n: string)
    requires n in d
    ensures Only(d, done + {n}) == Only(d, done)[n := d[n]]
  {
  }

  lemma PlusUpdate(start: Dir, m: Dir, n: string, v: Bytes)
    ensures start + m[n := v] == (start + m)[n := v]
  {
  }

  /** One more patch file. */
  lemma WriteDelta(x: Xdelta, base: Dir, next: Dir, done: set<string>, n: string, start: Dir)
    requires n in next
    ensures start + DiffDir(x, base, Only(next, done + {n})) ==
              if Diffed(n) then (start + DiffDir(x, base, Only(next, done)))[n := DeltaFile(x, Get(base, n), next[n])]
              else start + DiffDir(x, base, Only(next, done))
  {
    OnlyMore(next, done, n);
    DeltaOfMore(x, base, Only(next, done), n, next[n]);
    PlusUpdate(start, DiffDir(x, base, Only(next, done)), n, DeltaFile(x, Get(base, n), next[n]));
  }

  lemma DeltaOfMore(x: Xdelta, base: Dir, m: Dir, n: string, v: Bytes)
    requires n in m ==> m[n] == v
    ensures DiffDir(x, base, m[n := v]) ==
            if Diffed(n) then DiffDir(x, base, m)[n := DeltaFile(x, Get(base, n), v)] else DiffDir(x, base, m)
  {
  }

  /** One more patched file. */
  lemma WriteFile(x: Xdelta, base: Dir, patch: Dir, done: set<string>, n: string, start: Dir)
    requires n in patch
    ensures start + PatchDir(x, base, Only(patch, done + {n})) ==
              (start + PatchDir(x, base, Only(patch, done)))[n := PatchFile(x, patch[n], Get(base, n))]
  {
    OnlyMore(patch, done, n);
    PatchOfMore(x, base, Only(patch, done), n, patch[n]);
    PlusUpdate(start, PatchDir(x, base, Only(patch, done)), n, PatchFile(x, patch[n], Get(base, n)));
  }

  lemma PatchOfMore(x: Xdelta, base: Dir, m: Dir, n: string, v: Bytes)
    ensures PatchDir(x, base, m[n := v]) == PatchDir(x, base, m)[n := PatchFile(x, v, Get(base, n))]
  {
  }

  /** An emptied patch folder is filled with exactly the deltas. */
  lemma DiffsFromEmpty(x: Xdelta, fs: Folders, base: Folder, next: Folder, patch: Folder)
    requires patch != base && patch != next
    ensures var fs1 := fs[patch := map[]];
            Diffs(x, fs, base, next, patch) ==
              if base in fs1 && next in fs1 then fs1[patch := fs1[patch] + DiffDir(x, fs1[base], fs1[next])] else fs1
  {
    if base in fs && next in fs {
      NothingWritten(x, map[], DiffDir(x, fs[base], fs[next]));
    }
  }

  lemma OnlyAll(d: Dir, names: set<string>)
    requires d.Keys <= names
    ensures Only(d, names) == d && Only(d, {}) == map[]
  {
  }

  lemma NothingWritten(x: Xdelta, base: Dir, start: Dir)
    ensures start + DiffDir(x, base, map[]) == start == start + PatchDir(x, base, map[])
    ensures map[] + start == start
  {
  }

  class Machine {
    var folders: Folders

    constructor ()
      ensures folders == map[]
    {
      folders := map[];
    }

    /** `create_xdelta_diff`: one patch file for each file of `new` but the
      * compressed ones. */
    method CreateXdeltaDiff(x: Xdelta, base: Folder, next: Folder, patch: Folder)
      requires base in folders && next in folders && patch in folders && patch != base && patch != next
      modifies this
      ensures folders == old(folders)[patch := old(folders)[patch] + DiffDir(x, old(folders)[base], old(folders)[next])]
    {
      var from, to, written := folders[base], folders[next], folders[patch];
      var names := to.Keys;
      ghost var done: set<string> := {};
      ghost var start := written;
      OnlyAll(to, to.Keys);
      NothingWritten(x, from, written);
      while names != {}
        invariant folders == old(folders) && names + done == to.Keys && names !! done
        invariant written == start + DiffDir(x, from, Only(to, done))
      {
        var n :| n in names;
        WriteDelta(x, from, to, done, n, start);
        if Diffed(n) {
          written := written[n := DeltaFile(x, Get(from, n), to[n])];
        }
        names, done := names - {n}, done + {n};
      }
      assert done == to.Keys;
      folders := folders[patch := written];
    }

    /** `create_xdelta_patch`: one new file for each patch file. */
    method CreateXdeltaPatch(x: Xdelta, base: Folder, next: Folder, patch: Folder)
      requires base in folders && next in folders && patch in folders && next != base && next != patch
      modifies this
      ensures folders == old(folders)[next := old(folders)[next] + PatchDir(x, old(folders)[base], old(folders)[patch])]
    {
      var from, patches, written := folders[base], folders[patch], folders[next];
      var names := patches.Keys;
      ghost var done: set<string> := {};
      ghost var start := written;
      OnlyAll(patches, patches.Keys);
      NothingWritten(x, from, written);
      while names != {}
        invariant folders == old(folders) && names + done == patches.Keys && names !! done
        invariant written == start + PatchDir(x, from, Only(patches, done))
      {
        var n :| n in names;
        WriteFile(x, from, patches, done, n, start);
        written := written[n := PatchFile(x, patches[n], Get(from, n))];
        names, done := names - {n}, done + {n};
      }
      assert done == patches.Keys;
      folders := folders[next := written];
    }

    /** `compute_diff`; the result is its return code. */
    method ComputeDiff(x: Xdelta, base: Folder, next: Folder, patch: Folder) returns (code: int)
      requires patch != base && patch != next
      modifies this
      ensures folders == Diffs(x, old(folders), base, next, patch)
      ensures code == 0 <==> base in old(folders) && next in old(folders)
    {
      DiffsFromEmpty(x, folders, base, next, patch);
      folders := folders[patch := map[]];
      if base !in folders {
        return 1;
      } else if next !in folders {
        return 1;
      }
      CreateXdeltaDiff(x, base, next, patch);
      return 0;
    }

    /** `restore_diff`. */
    method RestoreDiff(x: Xdelta, base: Folder, next: Folder, patch: Folder)
      requires next != base && next != patch
      modifies this
      ensures folders == Restored(x, old(folders), base, next, patch)
    {
      if next !in folders {
        folders := folders[next := map[]];
      }
      if base !in folders || patch !in folders {
        return;
      }
      CreateXdeltaPatch(x, base, next, patch);
    }

    /** `docker_checkpoint`, which first removes the old folder. */
    method Checkpoint(f: Folder, image: Dir)
      modifies this
      ensures folders == old(folders)[f := image]
    {
      folders := folders - {f};
      folders := folders[f := image];
    }

    /** A `docker_checkpoint` that fails leaves no folder. */
    method Remove(f: Folder)
      modifies this
      ensures folders == old(folders) - {f}
    {
      folders := folders - {f};
    }

    /** `rsync` from this machine. */
    method Rsync(dest: Machine, f: Folder, filter: bool)
      requires dest != this
      modifies dest
      ensures dest.folders == Synced(folders, old(dest.folders), f, filter)
    {
      if f in folders {
        var sent := if filter then Filtered(folders[f]) else folders[f];
        dest.folders := dest.folders[f := (if f in dest.folders then dest.folders[f] else map[]) + sent];
      }
    }

    /** `rmtree` of the whole checkpoint folder. */
    method RemoveAll()
      modifies this
      ensures folders == map[]
    {
      folders := map[];
    }
  }
}
