/** Directories and their differences (diff_patch.py, and the rsync filter, the
  * `compute_diff` and the `restore_diff` of migrate_controller.py).
  *
  * A directory is a map from the names of its regular files to their contents.
  */
module DiffPatch {
  import opened Basics

  type Bytes = seq<bv8>
  type Dir = map<string, Bytes>

  /** The xdelta program.  `delta` and `patch` give the file they write, or None
    * when they end with exit code 2; a file that does not exist is None.  `isDelta`
    * tells from a file's format whether `patch` may accept it as a delta. */
  datatype Xdelta = Xdelta(
    delta: (Option<Bytes>, Bytes) -> Option<Bytes>,
    patch: (Bytes, Option<Bytes>) -> Option<Bytes>,
    isDelta: Bytes -> bool)

  /** What is assumed of xdelta: patching the old file undoes a delta against it,
    * there is no delta against a file that does not exist, and what does not have
    * the format of a delta is not accepted as one. */
  ghost predicate Sound(x: Xdelta) {
    && (forall base, next :: x.delta(base, next).Some? ==> x.patch(x.delta(base, next).value, base) == Some(next))
    && (forall next :: x.delta(None, next).None?)
    && (forall p, base :: !x.isDelta(p) ==> x.patch(p, base).None?)
  }

  /** A program that meets the assumption and needs the right old file: a delta is a
    * magic byte and what follows the old file in the new one. */
  function Appending(): Xdelta {
    Xdelta(
      (base: Option<Bytes>, next: Bytes) =>
        if base.Some? && base.value <= next then Some([0xD6] + next[|base.value|..]) else None,
      (p: Bytes, base: Option<Bytes>) =>
        if p != [] && p[0] == 0xD6 && base.Some? then Some(base.value + p[1..]) else None,
      (p: Bytes) => p != [] && p[0] == 0xD6)
  }

  lemma AppendingIsSound()
    ensures Sound(Appending())
    ensures Appending().delta(Some([1]), [1, 2]) == Some([0xD6, 2])
    ensures Appending().patch([0xD6, 2], Some([3])) == Some([3, 2])
  {
    var x := Appending();
    forall base, next | x.delta(base, next).Some?
      ensures x.patch(x.delta(base, next).value, base) == Some(next)
    {
      assert base.value + next[|base.value|..] == next;
    }
    var base: Bytes, next: Bytes, d: Bytes := [1], [1, 2], [0xD6, 2];
    assert base <= next && [0xD6] + next[1..] == d;
    assert [3] + d[1..] == [3, 2];
  }

  // ---------------------------------------------------------------- names

  predicate EndsWith(name: string, suffix: string) {
    |suffix| <= |name| && name[|name| - |suffix|..] == suffix
  }

  predicate OccursAt(name: string, part: string, i: int) {
    0 <= i <= |name| - |part| && name[i..i + |part|] == part
  }

  predicate Contains(name: string, part: string) {
    exists i | 0 <= i < |name| :: OccursAt(name, part, i)
  }

  /** Files for which a delta is made. */
  predicate Diffed(name: string) {
    !Contains(name, "tar.gz.img")
  }

  /** Files the filtered rsync sends: `--include=*.tar.gz.img --exclude=*.img`. */
  predicate Rsynced(name: string) {
    EndsWith(name, ".tar.gz.img") || !EndsWith(name, ".img")
  }

  predicate Covered(name: string) {
    Diffed(name) || Rsynced(name)
  }

  /** The two filters are not complementary: a name that contains "tar.gz.img" and
    * ends in ".img", but not in ".tar.gz.img", is neither sent nor diffed.  Every
    * name in which "tar.gz.img" occurs, if at all, only as the end of the suffix
    * ".tar.gz.img" is covered. */
  lemma Coverage(name: string)
    ensures (forall i | OccursAt(name, "tar.gz.img", i) :: i == |name| - 10 && i > 0 && name[i - 1] == '.') ==>
              Covered(name)
    ensures !Covered("xtar.gz.img")
  {
    if Contains(name, "tar.gz.img") {
      var i :| 0 <= i < |name| && OccursAt(name, "tar.gz.img", i);
      if i == |name| - 10 && i > 0 && name[i - 1] == '.' {
        EndsInImage(name);
      }
    }
    NotCovered();
  }

  lemma EndsInImage(name: string)
    requires |name| > 10 && OccursAt(name, "tar.gz.img", |name| - 10) && name[|name| - 11] == '.'
    ensures Covered(name)
  {
    var i := |name| - 10;
    assert name[i - 1..] == [name[i - 1]] + name[i..i + 10];
    assert ['.'] + "tar.gz.img" == ".tar.gz.img";
  }

  lemma NotCovered()
    ensures !Covered("xtar.gz.img")
  {
    var bad := "xtar.gz.img";
    assert bad[1..11] == "tar.gz.img" && bad[7..] == ".img";
    assert OccursAt(bad, "tar.gz.img", 1);
    assert EndsWith(bad, ".img");
    assert bad[0..][0] == 'x' && ".tar.gz.img"[0] == '.';
  }

  // ----------------------------------------------------- files and directories

  /** `xdelta_delta`: the patch file. */
  function DeltaFile(x: Xdelta, base: Option<Bytes>, next: Bytes): Bytes {
    if x.delta(base, next).Some? then x.delta(base, next).value else next
  }

  /** `xdelta_patch`: the new file. */
  function PatchFile(x: Xdelta, patch: Bytes, base: Option<Bytes>): Bytes {
    if x.patch(patch, base).Some? then x.patch(patch, base).value else patch
  }

  /** What `create_xdelta_diff` writes into the patch directory. */
  function DiffDir(x: Xdelta, base: Dir, next: Dir): Dir {
    map n | n in next && Diffed(n) :: DeltaFile(x, Get(base, n), next[n])
  }

  /** What `create_xdelta_patch` writes into the new directory. */
  function PatchDir(x: Xdelta, base: Dir, patch: Dir): Dir {
    map n | n in patch :: PatchFile(x, patch[n], Get(base, n))
  }

  /** What the filtered rsync sends. */
  function Filtered(d: Dir): Dir {
    map n | n in d && Rsynced(n) :: d[n]
  }

  /** The files of a directory that are only ever sent, never diffed. */
  function Undiffed(d: Dir): Dir {
    map n | n in d && Rsynced(n) && !Diffed(n) :: d[n]
  }

  /** `a` has every file of `b`, with the same contents, and perhaps others. */
  predicate Holds(a: Dir, b: Dir) {
    forall n | n in b :: n in a && a[n] == b[n]
  }

  /** `a` has every file of `b` that the filters cover. */
  predicate Recovers(a: Dir, b: Dir) {
    forall n | n in b && Covered(n) :: n in a && a[n] == b[n]
  }

  predicate OnlyDiffed(d: Dir) {
    forall n | n in d :: Diffed(n)
  }

  /** A plain file that xdelta takes for a delta, and makes another file of. */
  predicate Mistaken(x: Xdelta, p: Bytes, base: Option<Bytes>) {
    x.patch(p, base).Some? && x.patch(p, base).value != p
  }

  /** One file comes back exactly when a delta was made of it, or the file itself, sent
    * whole, is not mistaken for a delta.  The other side's old file is the same; only
    * where there was none it may be a stale one. */
  lemma FileRoundTrip(x: Xdelta, base: Option<Bytes>, base': Option<Bytes>, next: Bytes)
    requires Sound(x) && (base.Some? ==> base' == base)
    ensures PatchFile(x, DeltaFile(x, base, next), base') == next <==>
              x.delta(base, next).Some? || !Mistaken(x, next, base')
  {
    assert base.None? ==> x.delta(None, next).None?;
  }

  /** A file that is lost: it has the format of a delta, and none could be made of it. */
  lemma LooksLikeDelta()
    ensures var x, base, next: Bytes := Appending(), Some([3]), [0xD6, 2];
            && x.delta(base, next).None? && Mistaken(x, next, base)
            && PatchFile(x, DeltaFile(x, base, next), base) == [3, 2]
  {
    var base: Bytes, next: Bytes := [3], [0xD6, 2];
    assert base[0] != next[0] && !(base <= next);
    var mixed: Bytes := [3, 2];
    assert [3] + next[1..] == mixed && mixed[0] != next[0];
  }

  /** The guard of the sending side: a file sent whole does not look like a delta. */
  predicate Plain(x: Xdelta, base: Dir, next: Dir) {
    forall n | n in next && Diffed(n) :: x.delta(Get(base, n), next[n]).Some? || !x.isDelta(next[n])
  }

  /** The exact condition, for a given old directory of the destination. */
  predicate Unmistaken(x: Xdelta, base: Dir, next: Dir, base': Dir) {
    forall n | n in next && Diffed(n) :: x.delta(Get(base, n), next[n]).Some? || !Mistaken(x, next[n], Get(base', n))
  }

  lemma PlainIsUnmistaken(x: Xdelta, base: Dir, next: Dir, base': Dir)
    requires Sound(x) && Plain(x, base, next)
    ensures Unmistaken(x, base, next, base')
  {
  }

  /** The directory round trip.  The destination's old directory agrees with `base` on
    * its files and may hold stale ones besides, its patch directory stale patches, and
    * its new directory anything besides the files the filtered rsync alone sends.  Then
    * all covered files come back exactly when none of them is mistaken. */
  lemma DirRoundTrip(x: Xdelta, base: Dir, next: Dir, base': Dir, patch': Dir, dest: Dir)
    requires Sound(x)
    requires Recovers(base', base)
    requires Holds(patch', DiffDir(x, base, next)) && OnlyDiffed(patch')
    requires Holds(dest, Undiffed(next))
    ensures Recovers(dest + PatchDir(x, base', patch'), next) <==> Unmistaken(x, base, next, base')
  {
    var r := dest + PatchDir(x, base', patch');
    forall n | n in next && Covered(n)
      ensures n in r
      ensures r[n] == next[n] <==>
              (Diffed(n) ==> x.delta(Get(base, n), next[n]).Some? || !Mistaken(x, next[n], Get(base', n)))
    {
      if Diffed(n) {
        assert n in DiffDir(x, base, next) && patch'[n] == DeltaFile(x, Get(base, n), next[n]);
        FileRoundTrip(x, Get(base, n), Get(base', n), next[n]);
      } else {
        assert n in Undiffed(next);
      }
    }
    if Recovers(r, next) {
      forall n | n in next && Diffed(n)
        ensures x.delta(Get(base, n), next[n]).Some? || !Mistaken(x, next[n], Get(base', n))
      {
        assert Covered(n);
      }
    }
  }

  /** Nothing else is recovered: with a destination that starts empty, every file comes
    * back exactly when every name is covered and no file is mistaken. */
  lemma RecoveredExactly(x: Xdelta, base: Dir, next: Dir)
    requires Sound(x)
    ensures Holds(Filtered(next) + PatchDir(x, base, DiffDir(x, base, next)), next) <==>
              (forall n | n in next :: Covered(n)) && Unmistaken(x, base, next, base)
  {
    var r := Filtered(next) + PatchDir(x, base, DiffDir(x, base, next));
    DirRoundTrip(x, base, next, base, DiffDir(x, base, next), Filtered(next));
    if n :| n in next && !Covered(n) {
      assert n !in r;
    }
  }

  /** The filters by what they mean: a delta is made of a file unless "tar.gz.img" stands
    * anywhere in its name, and a file is sent unless its name ends in ".img" and not in
    * ".tar.gz.img". */
  lemma FiltersExactly(name: string)
    ensures Diffed(name) <==> forall before: string, after: string :: name != before + "tar.gz.img" + after
    ensures Rsynced(name) <==>
              (exists before: string :: name == before + ".tar.gz.img") ||
              (forall before: string :: name != before + ".img")
  {
    forall before: string, after: string | name == before + "tar.gz.img" + after
      ensures !Diffed(name)
    {
      var i := |before|;
      assert name[i..i + 10] == "tar.gz.img";
      assert OccursAt(name, "tar.gz.img", i);
    }
    if Contains(name, "tar.gz.img") {
      var i :| 0 <= i < |name| && OccursAt(name, "tar.gz.img", i);
      assert name == name[..i] + "tar.gz.img" + name[i + 10..];
    }
    SuffixExactly(name, ".tar.gz.img");
    SuffixExactly(name, ".img");
  }

  lemma SuffixExactly(name: string, suffix: string)
    ensures EndsWith(name, suffix) <==> exists before: string :: name == before + suffix
  {
    if EndsWith(name, suffix) {
      assert name == name[..|name| - |suffix|] + suffix;
    }
    if before: string :| name == before + suffix {
      assert name[|name| - |suffix|..] == suffix;
    }
  }
}
