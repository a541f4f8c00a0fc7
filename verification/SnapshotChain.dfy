/** The pre-copy chain of one service (migrate_source.py, migrate_dest.py): the
  * source takes the snapshots pre2, pre3 and the final one, and the destination
  * rebuilds pre3 and then the final snapshot from what it is sent.
  */
module SnapshotChain {
  import opened Basics
  import opened DiffPatch
  import opened Disk

  datatype Datagram = PrepareDgram | MigrateDgram

  // ------------------------------------------ what the commands do to folders

  function MeasureSource(x: Xdelta, src: Folders, image: Dir, running: bool): Folders {
    Diffs(x, if running then src[Pre2 := image] else src - {Pre2}, Pre1, Pre2, Delta12)
  }

  function PrepareSource(x: Xdelta, src: Folders, image: Dir): Folders {
    Diffs(x, src[Pre3 := image], Pre2, Pre3, Delta23)
  }

  function PrepareDest(x: Xdelta, src: Folders, dst: Folders, image: Dir): Folders {
    var src' := PrepareSource(x, src, image);
    Synced(src', Synced(src', Synced(src, dst, Pre2, false), Pre3, true), Delta23, false)
  }

  function MigrateSource(x: Xdelta, src: Folders, image: Dir): Folders {
    Diffs(x, src[Snapshot := image], Pre3, Snapshot, Delta)
  }

  function MigrateDest(x: Xdelta, src: Folders, dst: Folders, image: Dir): Folders {
    var src' := MigrateSource(x, src, image);
    Synced(src', Synced(src', dst, Snapshot, true), Delta, false)
  }

  /** The source's command handlers; `image` is the checkpoint docker takes. */
  class Source {
    const disk: Machine
    var alive: bool
    var record: bool
    var sent: seq<Datagram>

    constructor (disk: Machine)
      ensures this.disk == disk && alive && !record && sent == []
    {
      this.disk, alive, record, sent := disk, true, false, [];
    }

    /** Raises, and ends the thread, when the container is not running. */
    method HandlePreMeasure(image: Dir, running: bool)
      requires alive
      modifies this`alive, disk
      ensures alive == running
      ensures disk.folders == if running then old(disk.folders)[Pre1 := image] else old(disk.folders)
    {
      if !running {
        alive := false;
        return;
      }
      disk.Checkpoint(Pre1, image);
    }

    /** Raises for a service that is not listed, after the snapshot; and without a
      * running container, when there is no snapshot to measure. */
    method HandleMeasureDirty(x: Xdelta, image: Dir, running: bool, listed: bool)
      requires alive
      modifies this`alive, disk
      ensures alive == (running && listed)
      ensures disk.folders == MeasureSource(x, old(disk.folders), image, running)
    {
      if running {
        disk.Checkpoint(Pre2, image);
      } else {
        disk.Remove(Pre2);
      }
      var _ := disk.ComputeDiff(x, Pre1, Pre2, Delta12);
      if !running || !listed {
        alive := false;
      }
    }

    method HandlePrepare(x: Xdelta, dest: Machine, image: Dir)
      requires dest != disk && alive
      modifies this, disk, dest
      ensures record && alive == (Pre2 in old(disk.folders))
      ensures alive ==> disk.folders == PrepareSource(x, old(disk.folders), image)
      ensures alive ==> dest.folders == PrepareDest(x, old(disk.folders), old(dest.folders), image)
      ensures alive ==> sent == old(sent) + [PrepareDgram]
      ensures !alive ==> disk.folders == old(disk.folders) && dest.folders == old(dest.folders) && sent == old(sent)
    {
      record := true;
      disk.Rsync(dest, Pre2, false);
      if Pre2 !in disk.folders {
        // Measuring the size of the missing folder raises and ends the thread.
        alive := false;
        return;
      }
      disk.Checkpoint(Pre3, image);
      var _ := disk.ComputeDiff(x, Pre2, Pre3, Delta23);
      disk.Rsync(dest, Pre3, true);
      disk.Rsync(dest, Delta23, false);
      sent := sent + [PrepareDgram];
    }

    method HandleMigrate(x: Xdelta, dest: Machine, image: Dir)
      requires dest != disk && alive
      modifies this, disk, dest
      ensures alive == old(record) && record == old(record)
      ensures alive ==> disk.folders == map[]
      ensures alive ==> dest.folders == MigrateDest(x, old(disk.folders), old(dest.folders), image)
      ensures alive ==> sent == old(sent) + [MigrateDgram]
      ensures !alive ==> disk.folders == old(disk.folders) && dest.folders == old(dest.folders) && sent == old(sent)
    {
      if !record {
        alive := false;
        return;
      }
      disk.Checkpoint(Snapshot, image);
      var _ := disk.ComputeDiff(x, Pre3, Snapshot, Delta);
      disk.Rsync(dest, Snapshot, true);
      disk.Rsync(dest, Delta, false);
      sent := sent + [MigrateDgram];
      disk.RemoveAll();
    }
  }

  /** The destination's handlers. */
  class Destination {
    const disk: Machine

    constructor (disk: Machine)
      ensures this.disk == disk
    {
      this.disk := disk;
    }

    method HandlePrepare(x: Xdelta)
      modifies disk
      ensures disk.folders == Restored(x, old(disk.folders), Pre2, Pre3, Delta23)
    {
      disk.RestoreDiff(x, Pre2, Pre3, Delta23);
    }

    /** `restored` is the snapshot docker restores the container from; afterwards
      * the new host takes its own pre2. */
    method HandleMigrate(x: Xdelta, image: Dir) returns (restored: Dir)
      modifies disk
      ensures var fs := Restored(x, old(disk.folders), Pre3, Snapshot, Delta);
              restored == fs[Snapshot] && disk.folders == fs[Pre2 := image]
    {
      disk.RestoreDiff(x, Pre3, Snapshot, Delta);
      restored := disk.folders[Snapshot];
      disk.Checkpoint(Pre2, image);
    }
  }

  // ------------------------------------------------------------------ runs

  datatype Step =
    | PreMeasure(image: Dir, running: bool)
    | Measure(image: Dir, running: bool, listed: bool)
    | Prepare(image: Dir)
    | Migrate(image: Dir)
    | Receive(image: Dir)        // the destination handles its oldest datagram

  /** `base2`, `base3` and `final` remember the snapshots of the last prepare and
    * of the migration. */
  datatype Chain = Chain(
    src: Folders, dst: Folders, sent: seq<Datagram>, alive: bool, record: bool, gone: bool,
    base2: Dir, base3: Dir, final: Dir, restored: Option<Dir>)

  predicate Enabled(c: Chain, s: Step) {
    if s.Receive? then c.sent != [] else c.alive && !c.gone
  }

  function Apply(x: Xdelta, c: Chain, s: Step): Chain
    requires Enabled(c, s)
  {
    match s
    case PreMeasure(image, running) => if running then c.(src := c.src[Pre1 := image]) else c.(alive := false)
    case Measure(image, running, listed) =>
      c.(src := MeasureSource(x, c.src, image, running), alive := running && listed)
    case Prepare(image) =>
      if Pre2 !in c.src then c.(alive := false, record := true)
      else
        c.(src := PrepareSource(x, c.src, image), dst := PrepareDest(x, c.src, c.dst, image),
           sent := c.sent + [PrepareDgram], record := true, base2 := c.src[Pre2], base3 := image)
    case Migrate(image) =>
      if !c.record then c.(alive := false)
      else
        c.(src := map[], dst := MigrateDest(x, c.src, c.dst, image), sent := c.sent + [MigrateDgram],
           gone := true, final := image)
    case Receive(image) =>
      if c.sent[0].PrepareDgram? then
        c.(dst := Restored(x, c.dst, Pre2, Pre3, Delta23), sent := c.sent[1..])
      else
        var fs := Restored(x, c.dst, Pre3, Snapshot, Delta);
        c.(dst := fs[Pre2 := image], sent := c.sent[1..], restored := Some(fs[Snapshot]))
  }

  /** The folders of the source and of the destination may be anything earlier
    * migrations left, except that patch folders hold only patches. */
  predicate Initial(c: Chain) {
    && c.sent == [] && c.alive && !c.record && !c.gone && c.restored.None?
    && OnlyDiffed(Files(c.dst, Delta23)) && OnlyDiffed(Files(c.dst, Delta))
  }

  // ------------------------------------------------------------ invariant

  predicate Has(fs: Folders, f: Folder, d: Dir) {
    f in fs && Holds(fs[f], d)
  }

  predicate PreparesOnly(q: seq<Datagram>) {
    forall i | 0 <= i < |q| :: q[i].PrepareDgram?
  }

  /** The destination has what the last prepare sent, and once it has handled every
    * prepare, its pre3 is right exactly when no file of it was mistaken. */
  predicate PreparedAt(x: Xdelta, c: Chain) {
    && Has(c.dst, Pre2, c.base2)
    && Has(c.dst, Pre3, Undiffed(c.base3))
    && Has(c.dst, Delta23, DiffDir(x, c.base2, c.base3))
    && (PrepareDgram !in c.sent ==> (Recovers(c.dst[Pre3], c.base3) <==> Unmistaken(x, c.base2, c.base3, c.dst[Pre2])))
  }

  /** The destination has what the migration sent. */
  predicate MigratedAt(x: Xdelta, c: Chain) {
    && Has(c.dst, Snapshot, Undiffed(c.final))
    && Has(c.dst, Delta, DiffDir(x, c.base3, c.final))
    && c.sent != [] && PreparesOnly(c.sent[..|c.sent| - 1]) && c.sent[|c.sent| - 1].MigrateDgram?
  }

  /** What was restored is right exactly when no file of the migration was mistaken,
    * provided that pre3 was right; it was when the last prepare sent no file that looks
    * like a delta. */
  predicate RestoredAt(x: Xdelta, c: Chain) {
    && c.sent == [] && c.restored.Some? && Pre3 in c.dst
    && (Plain(x, c.base2, c.base3) ==> Recovers(c.dst[Pre3], c.base3))
    && (Recovers(c.dst[Pre3], c.base3) ==>
          (Recovers(c.restored.value, c.final) <==> Unmistaken(x, c.base3, c.final, c.dst[Pre3])))
  }

  predicate Inv(x: Xdelta, c: Chain) {
    && OnlyDiffed(Files(c.dst, Delta23)) && OnlyDiffed(Files(c.dst, Delta))
    && (c.gone ==> c.alive && c.record)
    && (!c.gone ==> c.restored.None?)
    && (if c.gone then (if c.restored.Some? then RestoredAt(x, c) else PreparedAt(x, c) && MigratedAt(x, c))
        else if !c.record || !c.alive then PreparesOnly(c.sent) && (!c.record ==> c.sent == []) &&
            (c.sent != [] ==> PreparedAt(x, c))
        else PreparedAt(x, c) && PreparesOnly(c.sent) && Pre3 in c.src && c.src[Pre3] == c.base3)
  }

  /** The folders a prepare writes at the destination. */
  lemma PrepareWrites(x: Xdelta, src: Folders, dst: Folders, image: Dir)
    requires Pre2 in src
    ensures PrepareDest(x, src, dst, image) ==
              dst[Pre2 := Files(dst, Pre2) + src[Pre2]]
                 [Pre3 := Files(dst, Pre3) + Filtered(image)]
                 [Delta23 := Files(dst, Delta23) + DiffDir(x, src[Pre2], image)]
  {
  }

  lemma PrepareKeeps(x: Xdelta, c: Chain, image: Dir)
    requires Inv(x, c) && Enabled(c, Prepare(image))
    ensures Inv(x, Apply(x, c, Prepare(image)))
  {
    if Pre2 in c.src {
      PrepareSent(x, c, image);
    }
  }

  lemma PrepareSent(x: Xdelta, c: Chain, image: Dir)
    requires Inv(x, c) && Enabled(c, Prepare(image)) && Pre2 in c.src
    ensures Inv(x, Apply(x, c, Prepare(image)))
  {
    var c' := Apply(x, c, Prepare(image));
    PrepareWrites(x, c.src, c.dst, image);
    assert c'.sent[|c'.sent| - 1] == PrepareDgram;
    PreparedFolders(c.src[Pre2], image, Files(c.dst, Pre2), Files(c.dst, Pre3));
    PreparesOnlyAppend(c.sent);
    assert PreparedAt(x, c');
  }

  lemma PreparedFolders(pre2: Dir, image: Dir, old2: Dir, old3: Dir)
    ensures Holds(old2 + pre2, pre2) && Holds(old3 + Filtered(image), Undiffed(image))
  {
  }

  lemma PreparesOnlyAppend(q: seq<Datagram>)
    requires PreparesOnly(q)
    ensures PreparesOnly(q + [PrepareDgram])
  {
  }

  /** The folders a migration writes at the destination. */
  lemma MigrateWrites(x: Xdelta, src: Folders, dst: Folders, image: Dir)
    requires Pre3 in src
    ensures MigrateDest(x, src, dst, image) ==
              dst[Snapshot := Files(dst, Snapshot) + Filtered(image)]
                 [Delta := Files(dst, Delta) + DiffDir(x, src[Pre3], image)]
  {
  }

  lemma MigrateKeeps(x: Xdelta, c: Chain, image: Dir)
    requires Inv(x, c) && Enabled(c, Migrate(image))
    ensures Inv(x, Apply(x, c, Migrate(image)))
  {
    if c.record {
      var c' := Apply(x, c, Migrate(image));
      MigrateWrites(x, c.src, c.dst, image);
      assert c'.sent[..|c'.sent| - 1] == c.sent;
      assert PreparedAt(x, c') by {
        assert PrepareDgram in c.sent ==> PrepareDgram in c'.sent;
      }
      assert MigratedAt(x, c');
    }
  }

  /** What a handled prepare makes of the destination's pre3. */
  lemma RebuildPre3(x: Xdelta, c: Chain, image: Dir)
    requires Sound(x) && PreparedAt(x, c) && OnlyDiffed(c.dst[Delta23])
    requires c.sent != [] && c.sent[0].PrepareDgram?
    ensures PreparedAt(x, Apply(x, c, Receive(image)))
  {
    var c' := Apply(x, c, Receive(image));
    DirRoundTrip(x, c.base2, c.base3, c.dst[Pre2], c.dst[Delta23], c.dst[Pre3]);
    assert c'.dst == c.dst[Pre3 := c.dst[Pre3] + PatchDir(x, c.dst[Pre2], c.dst[Delta23])];
    UndiffedStays(x, c.dst[Pre3], c.base3, c.dst[Pre2], c.dst[Delta23]);
  }

  /** Patches do not touch the files that are only sent. */
  lemma UndiffedStays(x: Xdelta, d: Dir, next: Dir, base: Dir, patch: Dir)
    requires Holds(d, Undiffed(next)) && OnlyDiffed(patch)
    ensures Holds(d + PatchDir(x, base, patch), Undiffed(next))
  {
  }

  /** The destination rebuilds pre3. */
  lemma ReceivePrepareKeeps(x: Xdelta, c: Chain, image: Dir)
    requires Sound(x) && Inv(x, c) && c.sent != [] && c.sent[0].PrepareDgram?
    ensures Inv(x, Apply(x, c, Receive(image)))
  {
    var c' := Apply(x, c, Receive(image));
    assert c.restored.None?;
    RebuildPre3(x, c, image);
    if c.gone {
      assert |c.sent| > 1 && c'.sent[..|c'.sent| - 1] == c.sent[..|c.sent| - 1][1..];
      assert c'.sent[|c'.sent| - 1] == c.sent[|c.sent| - 1];
      assert MigratedAt(x, c');
    }
  }

  /** The destination rebuilds and restores the final snapshot. */
  lemma ReceiveMigrateKeeps(x: Xdelta, c: Chain, image: Dir)
    requires Sound(x) && Inv(x, c) && c.sent != [] && c.sent[0].MigrateDgram?
    ensures Inv(x, Apply(x, c, Receive(image)))
  {
    assert c.gone && |c.sent| == 1;
    assert PrepareDgram !in c.sent;
    var c' := Apply(x, c, Receive(image));
    if Plain(x, c.base2, c.base3) {
      PlainIsUnmistaken(x, c.base2, c.base3, c.dst[Pre2]);
    }
    if Recovers(c.dst[Pre3], c.base3) {
      DirRoundTrip(x, c.base3, c.final, c.dst[Pre3], c.dst[Delta], c.dst[Snapshot]);
    }
    assert Files(c'.dst, Delta23) == Files(c.dst, Delta23);
    assert RestoredAt(x, c');
  }

  lemma StepKeeps(x: Xdelta, c: Chain, s: Step)
    requires Sound(x) && Inv(x, c) && Enabled(c, s)
    ensures Inv(x, Apply(x, c, s))
  {
    match s {
      case PreMeasure(_, _) =>
      case Measure(_, _, _) =>
      case Prepare(image) => PrepareKeeps(x, c, image);
      case Migrate(image) => MigrateKeeps(x, c, image);
      case Receive(image) =>
        if c.sent[0].PrepareDgram? {
          ReceivePrepareKeeps(x, c, image);
        } else {
          ReceiveMigrateKeeps(x, c, image);
        }
    }
  }

  function Run(x: Xdelta, c: Chain, ss: seq<Step>): Option<Chain>
    decreases |ss|
  {
    if ss == [] then Some(c) else if !Enabled(c, ss[0]) then None else Run(x, Apply(x, c, ss[0]), ss[1..])
  }

  lemma {:induction false} RunKeeps(x: Xdelta, c: Chain, ss: seq<Step>)
    requires Sound(x) && Inv(x, c)
    decreases |ss|
    ensures var r := Run(x, c, ss); r.Some? ==> Inv(x, r.value)
  {
    if ss == [] || !Enabled(c, ss[0]) {
    } else {
      StepKeeps(x, c, ss[0]);
      RunKeeps(x, Apply(x, c, ss[0]), ss[1..]);
    }
  }

  /** In every run, whatever commands the source interleaves and however late the
    * destination reads its datagrams: the snapshot the destination restores has every
    * covered file of the source's final checkpoint exactly when none of its files was
    * mistaken for a delta, if its pre3 was right, as it is after a prepare that sent no
    * file that looks like a delta.  And once it has read every datagram, its pre3 has the
    * files of the source's pre3, until the next prepare, exactly when none of those was
    * mistaken. */
  lemma Restores(x: Xdelta, c: Chain, ss: seq<Step>)
    requires Sound(x) && Initial(c)
    ensures var r := Run(x, c, ss);
            r.Some? && r.value.restored.Some? ==>
              Pre3 in r.value.dst &&
              (Plain(x, r.value.base2, r.value.base3) ==> Recovers(r.value.dst[Pre3], r.value.base3)) &&
              (Recovers(r.value.dst[Pre3], r.value.base3) ==>
                 (Recovers(r.value.restored.value, r.value.final) <==>
                  Unmistaken(x, r.value.base3, r.value.final, r.value.dst[Pre3])))
    ensures var r := Run(x, c, ss);
            (r.Some? && r.value.restored.Some? && Plain(x, r.value.base2, r.value.base3) &&
             Plain(x, r.value.base3, r.value.final)) ==> Recovers(r.value.restored.value, r.value.final)
    ensures var r := Run(x, c, ss);
            r.Some? && r.value.alive && r.value.record && !r.value.gone && r.value.sent == [] ==>
              Pre2 in r.value.dst && Pre3 in r.value.dst && Pre3 in r.value.src &&
              (Recovers(r.value.dst[Pre3], r.value.src[Pre3]) <==>
               Unmistaken(x, r.value.base2, r.value.src[Pre3], r.value.dst[Pre2]))
  {
    RunKeeps(x, c, ss);
    var r := Run(x, c, ss);
    if r.Some? && r.value.restored.Some? && Plain(x, r.value.base3, r.value.final) {
      PlainIsUnmistaken(x, r.value.base3, r.value.final, r.value.dst[Pre3]);
    }
  }
}
