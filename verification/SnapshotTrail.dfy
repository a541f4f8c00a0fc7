/** Which checkpoints the pre-copy chain of one service is made of: what each command of the
  * source leaves on its disk, and, in any run, which images the destination is given and
  * which it restores. */
module SnapshotTrail {
  import opened Basics
  import opened DiffPatch
  import opened Disk
  import opened SnapshotChain

  // ------------------------------------------------- what the commands leave behind

  /** A measurement of a running container leaves its second snapshot in pre2 and touches
    * nothing else but the folder of the differences. These differences make the image of
    * the first snapshot again, with the files the filtered rsync sends, exactly when no
    * file is mistaken; without a first snapshot there are none. */
  lemma MeasureLeaves(x: Xdelta, src: Folders, image: Dir, f: Folder)
    requires Sound(x)
    ensures var r := MeasureSource(x, src, image, true);
            && Pre2 in r && r[Pre2] == image && Delta12 in r
            && (f != Pre2 && f != Delta12 ==> Get(r, f) == Get(src, f))
            && (Pre1 !in src ==> r[Delta12] == map[])
            && (Pre1 in src ==>
                  (Recovers(Filtered(image) + PatchDir(x, src[Pre1], r[Delta12]), image) <==>
                   Unmistaken(x, src[Pre1], image, src[Pre1])))
  {
    if Pre1 in src {
      DirRoundTrip(x, src[Pre1], image, src[Pre1], DiffDir(x, src[Pre1], image), Filtered(image));
    }
  }

  /** A measurement of a container that does not run takes the second snapshot away. */
  lemma MeasureOfStopped(x: Xdelta, src: Folders, image: Dir, f: Folder)
    ensures var r := MeasureSource(x, src, image, false);
            && Pre2 !in r && Delta12 in r && r[Delta12] == map[]
            && (f != Pre2 && f != Delta12 ==> Get(r, f) == Get(src, f))
  {
  }

  /** A prepare that finds pre2 leaves its own snapshot in pre3 and keeps all others. */
  lemma PrepareLeaves(x: Xdelta, src: Folders, image: Dir, f: Folder)
    requires Sound(x) && Pre2 in src
    ensures var r := PrepareSource(x, src, image);
            && Pre3 in r && r[Pre3] == image && Delta23 in r
            && (f != Pre3 && f != Delta23 ==> Get(r, f) == Get(src, f))
            && (Recovers(Filtered(image) + PatchDir(x, src[Pre2], r[Delta23]), image) <==>
                Unmistaken(x, src[Pre2], image, src[Pre2]))
  {
    DirRoundTrip(x, src[Pre2], image, src[Pre2], DiffDir(x, src[Pre2], image), Filtered(image));
  }

  // ------------------------------------------------------------------------ runs

  /** The images of a run, as its commands name them: the one that was measured last, the
    * two of the last prepare, and the one of the migration. */
  datatype Trail = Trail(second: Option<Dir>, base2: Option<Dir>, base3: Option<Dir>, final: Option<Dir>)

  function Followed(t: Trail, s: Step): Trail {
    match s
    case PreMeasure(_, _) => t
    case Measure(image, running, _) => t.(second := if running then Some(image) else None)
    case Prepare(image) => if t.second.Some? then t.(base2 := t.second, base3 := Some(image)) else t
    case Migrate(image) => if t.base3.Some? then t.(final := Some(image)) else t
    case Receive(_) => t
  }

  function TrailOf(t: Trail, ss: seq<Step>): Trail
    decreases |ss|
  {
    if ss == [] then t else TrailOf(Followed(t, ss[0]), ss[1..])
  }

  /** Before a run, all that counts is whether an earlier host has left a pre2. */
  function Start(c: Chain): Trail {
    Trail(Get(c.src, Pre2), None, None, None)
  }

  /** The folders and the history of the chain follow the images of its commands. */
  predicate Follows(c: Chain, t: Trail) {
    && (c.gone ==> c.alive && c.record && t.final == Some(c.final))
    && (!c.gone ==> Get(c.src, Pre2) == t.second)
    && (c.alive && c.record ==> t.base2 == Some(c.base2) && t.base3 == Some(c.base3))
    && (!c.record ==> t.base3.None?)
    && (c.alive && c.record && !c.gone ==> Get(c.src, Pre3) == t.base3)
  }

  lemma MeasureFollows(x: Xdelta, c: Chain, t: Trail, image: Dir, running: bool, listed: bool)
    requires Sound(x) && Follows(c, t) && Enabled(c, Measure(image, running, listed))
    ensures Follows(Apply(x, c, Measure(image, running, listed)), Followed(t, Measure(image, running, listed)))
  {
    if running {
      MeasureLeaves(x, c.src, image, Pre3);
    } else {
      MeasureOfStopped(x, c.src, image, Pre3);
    }
  }

  lemma PrepareFollows(x: Xdelta, c: Chain, t: Trail, image: Dir)
    requires Sound(x) && Follows(c, t) && Enabled(c, Prepare(image))
    ensures Follows(Apply(x, c, Prepare(image)), Followed(t, Prepare(image)))
  {
    if Pre2 in c.src {
      PrepareLeaves(x, c.src, image, Pre2);
    }
  }

  lemma StepFollows(x: Xdelta, c: Chain, t: Trail, s: Step)
    requires Sound(x) && Follows(c, t) && Enabled(c, s)
    ensures Follows(Apply(x, c, s), Followed(t, s))
  {
    match s {
      case Measure(image, running, listed) => MeasureFollows(x, c, t, image, running, listed);
      case Prepare(image) => PrepareFollows(x, c, t, image);
      case _ =>
    }
  }

  lemma {:induction false} RunFollows(x: Xdelta, c: Chain, t: Trail, ss: seq<Step>)
    requires Sound(x) && Follows(c, t) && Run(x, c, ss).Some?
    ensures Follows(Run(x, c, ss).value, TrailOf(t, ss))
    decreases |ss|
  {
    if ss == [] {
    } else {
      StepFollows(x, c, t, ss[0]);
      RunFollows(x, Apply(x, c, ss[0]), Followed(t, ss[0]), ss[1..]);
    }
  }

  /** In every run a prepare is served exactly when a second snapshot is there, because
    * the service was measured while it ran or was migrated here; and then the snapshot it
    * sends first is the one measured last, and its own image is the one left in pre3. */
  lemma PrepareServedExactly(x: Xdelta, c: Chain, ss: seq<Step>, image: Dir)
    requires Sound(x) && Initial(c)
    requires Run(x, c, ss).Some? && Enabled(Run(x, c, ss).value, Prepare(image))
    ensures var t, r := TrailOf(Start(c), ss), Apply(x, Run(x, c, ss).value, Prepare(image));
            && (r.alive <==> t.second.Some?)
            && (r.alive ==> r.base2 == t.second.value && r.base3 == image && Get(r.src, Pre3) == Some(image) &&
                            Get(r.src, Pre2) == t.second)
  {
    RunFollows(x, c, Start(c), ss);
    StepFollows(x, Run(x, c, ss).value, TrailOf(Start(c), ss), Prepare(image));
  }

  /** In every run, what ends the source thread: a first snapshot of a container that does
    * not run, a measurement of one that does not run or is not listed, a prepare without a
    * second snapshot, and a migrate without a prepare, and nothing else. */
  lemma ThreadEndsExactly(x: Xdelta, c: Chain, ss: seq<Step>, s: Step)
    requires Sound(x) && Initial(c) && Run(x, c, ss).Some? && Enabled(Run(x, c, ss).value, s)
    ensures var t, r := TrailOf(Start(c), ss), Run(x, c, ss).value;
            Apply(x, r, s).alive <==>
              match s
              case PreMeasure(_, running) => running
              case Measure(_, running, listed) => running && listed
              case Prepare(_) => t.second.Some?
              case Migrate(_) => t.base3.Some?
              case Receive(_) => r.alive
  {
    RunFollows(x, c, Start(c), ss);
  }

  /** What was measured last is not forgotten before the service is migrated. */
  lemma {:induction false} LastMeasured(t: Trail, ss: seq<Step>, i: nat)
    requires i < |ss| && ss[i].Measure? && forall j | i < j < |ss| :: !ss[j].Measure?
    ensures TrailOf(t, ss).second == if ss[i].running then Some(ss[i].image) else None
    decreases |ss|
  {
    if i == 0 {
      NotMeasured(Followed(t, ss[0]), ss[1..]);
    } else {
      LastMeasured(Followed(t, ss[0]), ss[1..], i - 1);
    }
  }

  lemma {:induction false} NotMeasured(t: Trail, ss: seq<Step>)
    requires forall j | 0 <= j < |ss| :: !ss[j].Measure?
    ensures TrailOf(t, ss).second == t.second
    decreases |ss|
  {
    if ss == [] {
    } else {
      NotMeasured(Followed(t, ss[0]), ss[1..]);
    }
  }

  /** A prepare after a measurement of the running container, with no other measurement in
    * between, does not raise and builds on that measurement's image. */
  lemma MeasuredIsPrepared(x: Xdelta, c: Chain, ss: seq<Step>, i: nat, image: Dir)
    requires Sound(x) && Initial(c)
    requires Run(x, c, ss).Some? && Enabled(Run(x, c, ss).value, Prepare(image))
    requires i < |ss| && ss[i].Measure? && ss[i].running && forall j | i < j < |ss| :: !ss[j].Measure?
    ensures var r := Apply(x, Run(x, c, ss).value, Prepare(image));
            r.alive && r.base2 == ss[i].image && r.base3 == image && Get(r.src, Pre2) == Some(ss[i].image)
  {
    LastMeasured(Start(c), ss, i);
    PrepareServedExactly(x, c, ss, image);
  }

  /** What the destination restores is, in every covered file, the image the migration
    * command took, whenever the images of the last measurement, of the last prepare and of
    * the migration have no file, sent whole, that looks like a delta. */
  lemma RestoresTheMigrated(x: Xdelta, c: Chain, ss: seq<Step>)
    requires Sound(x) && Initial(c) && Run(x, c, ss).Some? && Run(x, c, ss).value.restored.Some?
    ensures var t := TrailOf(Start(c), ss);
            && t.base2.Some? && t.base3.Some? && t.final.Some?
            && (Plain(x, t.base2.value, t.base3.value) && Plain(x, t.base3.value, t.final.value) ==>
                  Recovers(Run(x, c, ss).value.restored.value, t.final.value))
  {
    RunFollows(x, c, Start(c), ss);
    RunKeeps(x, c, ss);
    Restores(x, c, ss);
  }

  // -------------------------------------------------------------- the next migration

  /** The host that has restored a container keeps its own checkpoint of it, so that the
    * next migration, from there, is prepared without a measurement and builds on it. */
  lemma NextHostIsPrepared(x: Xdelta, c: Chain, image: Dir, next: Chain, ss: seq<Step>, image2: Dir)
    requires Sound(x) && c.sent != [] && c.sent[0].MigrateDgram?
    requires Initial(next) && next.src == Apply(x, c, Receive(image)).dst
    requires Run(x, next, ss).Some? && Enabled(Run(x, next, ss).value, Prepare(image2))
    requires forall j | 0 <= j < |ss| :: !ss[j].Measure?
    ensures var r := Apply(x, Run(x, next, ss).value, Prepare(image2));
            r.alive && r.base2 == image && r.base3 == image2
  {
    NotMeasured(Start(next), ss);
    PrepareServedExactly(x, next, ss, image2);
  }
}
