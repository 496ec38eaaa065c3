/** Whole runs of a MapReduce job: any number of workers that may crash, be late and
    repeat each other's tasks. */
module MrTheorems {
  import opened Counts
  import opened MapReduce
  import opened MrWorker
  import opened MrCoordinator

  /** A worker with a task: a map task writes its buckets one after the other, a reduce
      task reads one file after the other and then writes its output. */
  datatype Work =
    | Waiting
    | Mapping(m: nat, written: nat)
    | Reducing(r: nat, read: nat, pairs: seq<KeyValue>)
    | Reduced(r: nat)
    | Gone                                   // told that there is nothing left to do

  datatype World = World(tasks: Tasks, files: Files, outs: map<nat, seq<Line>>, workers: map<nat, Work>)

  datatype Step =
    | Ask(w: nat, now: int)
    | WriteBucket(w: nat)
    | ReadFile(w: nat)
    | WriteOutput(w: nat, lines: seq<Line>)
    | ReportDone(w: nat)
    | Crash(w: nat)                          // also a report that is lost

  function At(world: World, w: nat): Work {
    if w in world.workers then world.workers[w] else Waiting
  }

  ghost predicate Enabled(job: Job, world: World, e: Step) {
    var x := At(world, e.w);
    match e
    case Ask(_, _) => x.Waiting?
    case WriteBucket(_) => x.Mapping? && x.m < |job.files| && x.written < job.nReduce
    case ReadFile(_) => x.Reducing? && x.read < |job.files|
    case WriteOutput(_, lines) => x.Reducing? && x.read == |job.files| && LinesFor(job.reducef, x.pairs, lines)
    case ReportDone(_) =>
      || (x.Mapping? && x.written == job.nReduce && x.m < |world.tasks.maps|)
      || (x.Reduced? && x.r < |world.tasks.reduces|)
    case Crash(_) => true
  }

  function Become(world: World, w: nat, x: Work): World {
    world.(workers := world.workers[w := x])
  }

  function Given(reply: Reply): Work {
    match reply
    case Assigned(MapTask, m) => Mapping(m, 0)
    case Assigned(ReduceTask, r) => Reducing(r, 0, [])
    case NoTask => Waiting
    case Exit => Gone
  }

  ghost function After(job: Job, world: World, e: Step): World
    requires job.nReduce > 0 && Enabled(job, world, e)
  {
    var x := At(world, e.w);
    match e
    case Ask(w, now) =>
      var (tasks, reply) := Request(world.tasks, now);
      Become(world.(tasks := tasks), w, Given(reply))
    case WriteBucket(w) =>
      Become(world.(files := world.files[(x.m, x.written) := Bucket(job, Emitted(job, x.m), x.written)]), w,
             x.(written := x.written + 1))
    case ReadFile(w) =>
      var more := if (x.read, x.r) in world.files then world.files[(x.read, x.r)] else [];
      Become(world, w, x.(read := x.read + 1, pairs := x.pairs + more))
    case WriteOutput(w, lines) => Become(world.(outs := world.outs[x.r := lines]), w, Reduced(x.r))
    case ReportDone(w) =>
      Become(world.(tasks := if x.Mapping? then Report(world.tasks, MapTask, x.m)
                             else Report(world.tasks, ReduceTask, x.r)), w, Waiting)
    case Crash(w) => Become(world, w, Waiting)
  }

  ghost predicate IsRun(job: Job, ws: seq<World>, es: seq<Step>)
    requires job.nReduce > 0
  {
    && |ws| == |es| + 1 && ws[0] == World(Fresh(|job.files|, job.nReduce), map[], map[], map[])
    && forall i :: 0 <= i < |es| ==> Enabled(job, ws[i], es[i]) && ws[i + 1] == After(job, ws[i], es[i])
  }

  // ----- what always holds -----

  function States(ts: seq<TaskInfo>): seq<TaskState> {
    seq(|ts|, i requires 0 <= i < |ts| => ts[i].state)
  }

  /** Each file is what its map task emits for its reduce task. */
  ghost predicate FilesOk(job: Job, fs: Files)
    requires job.nReduce > 0
  {
    forall m, r :: (m, r) in fs ==> m < |job.files| && fs[(m, r)] == Bucket(job, Emitted(job, m), r)
  }

  ghost predicate MapsOk(job: Job, world: World) {
    && |world.tasks.maps| == |job.files| && world.tasks.mapDone == Count(States(world.tasks.maps), Done)
    && forall m, r :: 0 <= m < |job.files| && 0 <= r < job.nReduce && world.tasks.maps[m].state == Done ==>
         (m, r) in world.files
  }

  ghost predicate AllMapped(world: World) {
    forall m :: 0 <= m < |world.tasks.maps| ==> world.tasks.maps[m].state == Done
  }

  ghost predicate WorkOk(job: Job, world: World, x: Work)
    requires job.nReduce > 0
  {
    match x
    case Waiting => true
    case Gone => true
    case Mapping(m, written) =>
      m < |job.files| && written <= job.nReduce && forall r :: 0 <= r < written ==> (m, r) in world.files
    case Reducing(r, read, pairs) =>
      r < job.nReduce && read <= |job.files| && AllMapped(world) && pairs == Gathered(job, r, read)
    case Reduced(r) => r < job.nReduce && r in world.outs
  }

  ghost predicate ReducesOk(job: Job, world: World)
    requires job.nReduce > 0
  {
    && |world.tasks.reduces| == job.nReduce && world.tasks.reduceDone == Count(States(world.tasks.reduces), Done)
    && (forall r :: 0 <= r < job.nReduce && world.tasks.reduces[r].state == Done ==> r in world.outs)
    && (forall r :: r in world.outs ==> LinesFor(job.reducef, Gathered(job, r, |job.files|), world.outs[r]))
  }

  ghost predicate Inv(job: Job, world: World)
    requires job.nReduce > 0
  {
    && FilesOk(job, world.files) && MapsOk(job, world) && ReducesOk(job, world)
    && forall w :: w in world.workers ==> WorkOk(job, world, world.workers[w])
  }

  // ----- one step -----

  /** The states of tasks after one of them changes. */
  lemma Retask(ts: seq<TaskInfo>, i: nat, t: TaskInfo)
    requires i < |ts|
    ensures Count(States(ts[i := t]), Done) ==
              Count(States(ts), Done) - (if ts[i].state == Done then 1 else 0) + (if t.state == Done then 1 else 0)
  {
    assert States(ts[i := t]) == States(ts)[i := t.state];
    CountUpdate(States(ts), i, t.state, Done);
  }

  /** What other workers rely on never goes away. */
  ghost predicate Grows(a: World, b: World) {
    a.files.Keys <= b.files.Keys && a.outs.Keys <= b.outs.Keys && (AllMapped(a) ==> AllMapped(b))
  }

  lemma OthersOk(job: Job, a: World, b: World, w: nat, x: Work)
    requires job.nReduce > 0 && Grows(a, b) && b.workers == a.workers[w := x] && WorkOk(job, b, x)
    requires forall v :: v in a.workers ==> WorkOk(job, a, a.workers[v])
    ensures forall v :: v in b.workers ==> WorkOk(job, b, b.workers[v])
  {
  }

  lemma AllMappedIf(job: Job, world: World)
    requires MapsOk(job, world) && world.tasks.mapDone >= |world.tasks.maps|
    ensures AllMapped(world)
  {
    CountAll(States(world.tasks.maps), Done);
    assert forall m :: 0 <= m < |world.tasks.maps| ==> States(world.tasks.maps)[m] == world.tasks.maps[m].state;
  }

  lemma AskStep(job: Job, world: World, e: Step)
    requires job.nReduce > 0 && Inv(job, world) && e.Ask? && Enabled(job, world, e)
    ensures Inv(job, After(job, world, e))
  {
    hide Count, LinesFor;
    var c, next := world.tasks, After(job, world, e);
    if c.mapDone < |c.maps| {
      var i := FirstOpen(c.maps, e.now);
      if i < |c.maps| {
        Retask(c.maps, i, TaskInfo(InProgress, e.now));
      }
    } else {
      AllMappedIf(job, world);
      var i := FirstOpen(c.reduces, e.now);
      if i < |c.reduces| {
        Retask(c.reduces, i, TaskInfo(InProgress, e.now));
      }
    }
    OthersOk(job, world, next, e.w, next.workers[e.w]);
  }

  lemma ReportStep(job: Job, world: World, e: Step)
    requires job.nReduce > 0 && Inv(job, world) && e.ReportDone? && Enabled(job, world, e)
    ensures Inv(job, After(job, world, e))
  {
    hide Count, LinesFor;
    var c, next, x := world.tasks, After(job, world, e), At(world, e.w);
    if x.Mapping? {
      Retask(c.maps, x.m, c.maps[x.m].(state := Done));
    } else {
      Retask(c.reduces, x.r, c.reduces[x.r].(state := Done));
    }
    OthersOk(job, world, next, e.w, Waiting);
  }

  lemma WriteStep(job: Job, world: World, e: Step)
    requires job.nReduce > 0 && Inv(job, world) && e.WriteBucket? && Enabled(job, world, e)
    ensures Inv(job, After(job, world, e))
  {
    hide Count, LinesFor, Bucket;
    var next := After(job, world, e);
    OthersOk(job, world, next, e.w, next.workers[e.w]);
  }

  /** A reduce task finds every file it reads, complete. */
  lemma ReadStep(job: Job, world: World, e: Step)
    requires job.nReduce > 0 && Inv(job, world) && e.ReadFile? && Enabled(job, world, e)
    ensures Inv(job, After(job, world, e))
  {
    hide Count, LinesFor, Bucket;
    var next, x := After(job, world, e), At(world, e.w);
    assert WorkOk(job, world, x);
    assert world.tasks.maps[x.read].state == Done;
    assert (x.read, x.r) in world.files;
    assert next.workers[e.w].pairs == Gathered(job, x.r, x.read + 1);
    OthersOk(job, world, next, e.w, next.workers[e.w]);
  }

  lemma OutputStep(job: Job, world: World, e: Step)
    requires job.nReduce > 0 && Inv(job, world) && e.WriteOutput? && Enabled(job, world, e)
    ensures Inv(job, After(job, world, e))
  {
    hide Count, LinesFor;
    var next, x := After(job, world, e), At(world, e.w);
    assert WorkOk(job, world, x);
    OthersOk(job, world, next, e.w, next.workers[e.w]);
  }

  lemma CrashStep(job: Job, world: World, e: Step)
    requires job.nReduce > 0 && Inv(job, world) && e.Crash?
    ensures Inv(job, After(job, world, e))
  {
    hide Count, LinesFor;
    OthersOk(job, world, After(job, world, e), e.w, Waiting);
  }

  lemma StepInv(job: Job, world: World, e: Step)
    requires job.nReduce > 0 && Inv(job, world) && Enabled(job, world, e)
    ensures Inv(job, After(job, world, e))
  {
    hide Inv, After, Enabled;
    match e
    case Ask(_, _) => AskStep(job, world, e);
    case WriteBucket(_) => WriteStep(job, world, e);
    case ReadFile(_) => ReadStep(job, world, e);
    case WriteOutput(_, _) => OutputStep(job, world, e);
    case ReportDone(_) => ReportStep(job, world, e);
    case Crash(_) => CrashStep(job, world, e);
  }

  lemma InitInv(job: Job)
    requires job.nReduce > 0
    ensures Inv(job, World(Fresh(|job.files|, job.nReduce), map[], map[], map[]))
  {
    CountNone(States(Fresh(|job.files|, job.nReduce).maps), Done);
    CountNone(States(Fresh(|job.files|, job.nReduce).reduces), Done);
  }

  lemma {:induction false} RunInv(job: Job, ws: seq<World>, es: seq<Step>, k: nat)
    requires job.nReduce > 0 && IsRun(job, ws, es) && k < |ws|
    ensures Inv(job, ws[k])
    decreases k
  {
    hide Inv, After, Enabled;
    if k == 0 {
      InitInv(job);
    } else {
      RunInv(job, ws, es, k - 1);
      StepInv(job, ws[k - 1], es[k - 1]);
    }
  }

  // ----- what the coordinator must do -----

  predicate Finished(ts: seq<TaskInfo>) {
    forall i :: 0 <= i < |ts| ==> ts[i].state == Done
  }

  /** Handed out to nobody, or handed out more than ten seconds ago. */
  predicate Due(t: TaskInfo, now: int) {
    t.state != Done && (t.state == Idle || now - t.startTime > 10)
  }

  predicate FirstDue(ts: seq<TaskInfo>, now: int, i: nat) {
    i < |ts| && Due(ts[i], now) && forall j :: 0 <= j < i ==> !Due(ts[j], now)
  }

  /** Every unfinished task was handed out within the last ten seconds. */
  predicate AllHeld(ts: seq<TaskInfo>, now: int) {
    forall i :: 0 <= i < |ts| && ts[i].state != Done ==> ts[i].state == InProgress && now - ts[i].startTime <= 10
  }

  lemma FinishedIff(job: Job, world: World)
    requires job.nReduce > 0 && Inv(job, world)
    ensures world.tasks.mapDone < |world.tasks.maps| <==> !Finished(world.tasks.maps)
    ensures world.tasks.reduceDone < |world.tasks.reduces| <==> !Finished(world.tasks.reduces)
  {
    hide LinesFor;
    AllCounted(world.tasks.maps);
    AllCounted(world.tasks.reduces);
  }

  lemma AllCounted(ts: seq<TaskInfo>)
    ensures Count(States(ts), Done) <= |ts|
    ensures Count(States(ts), Done) == |ts| <==> Finished(ts)
  {
    var st := States(ts);
    CountAtMost(st, Done);
    assert forall i :: 0 <= i < |ts| ==> st[i] == ts[i].state;
    if Count(st, Done) == |ts| {
      CountAll(st, Done);
    }
    if Finished(ts) {
      CountFull(st, Done);
    }
  }

  lemma {:induction false} CountAtMost(s: seq<TaskState>, x: TaskState)
    ensures Count(s, x) <= |s|
  {
    if s != [] {
      CountAtMost(s[..|s| - 1], x);
    }
  }

  lemma {:induction false} CountFull(s: seq<TaskState>, x: TaskState)
    requires forall i :: 0 <= i < |s| ==> s[i] == x
    ensures Count(s, x) == |s|
  {
    if s != [] {
      CountFull(s[..|s| - 1], x);
    }
  }

  /** What a phase hands out: the lowest task that is due, or nothing. */
  lemma OpenIsDue(ts: seq<TaskInfo>, now: int)
    ensures var i := FirstOpen(ts, now);
            && (i < |ts| ==> FirstDue(ts, now, i))
            && (i == |ts| <==> AllHeld(ts, now))
            && (exists j: nat :: FirstDue(ts, now, j)) == (i < |ts|)
  {
    var i := FirstOpen(ts, now);
    assert i < |ts| ==> FirstDue(ts, now, i);
  }

  /** The answer to a request, in every run: the lowest map task that is due while a map task
      is unfinished, then the lowest reduce task that is due, nothing while all unfinished
      ones were handed out within ten seconds, and the end when all are finished. */
  lemma AskIff(job: Job, ws: seq<World>, es: seq<Step>, k: nat)
    requires job.nReduce > 0 && IsRun(job, ws, es) && k < |es| && es[k].Ask?
    ensures var c, c', x, now := ws[k].tasks, ws[k + 1].tasks, At(ws[k + 1], es[k].w), es[k].now;
            && (x.Mapping? <==> !Finished(c.maps) && exists i: nat :: FirstDue(c.maps, now, i))
            && (x.Mapping? ==>
                  && FirstDue(c.maps, now, x.m) && x.written == 0
                  && c' == c.(maps := c.maps[x.m := TaskInfo(InProgress, now)]))
            && (x.Reducing? <==>
                  Finished(c.maps) && !Finished(c.reduces) && exists i: nat :: FirstDue(c.reduces, now, i))
            && (x.Reducing? ==>
                  && FirstDue(c.reduces, now, x.r) && x.read == 0 && x.pairs == []
                  && c' == c.(reduces := c.reduces[x.r := TaskInfo(InProgress, now)]))
            && (x.Waiting? <==>
                  || (!Finished(c.maps) && AllHeld(c.maps, now))
                  || (Finished(c.maps) && !Finished(c.reduces) && AllHeld(c.reduces, now)))
            && (x.Gone? <==> Finished(c.maps) && Finished(c.reduces))
            && (x.Waiting? || x.Gone? ==> c' == c)
  {
    hide Inv, Finished, AllHeld, FirstDue, FirstOpen, LinesFor;
    RunInv(job, ws, es, k);
    FinishedIff(job, ws[k]);
    OpenIsDue(ws[k].tasks.maps, es[k].now);
    OpenIsDue(ws[k].tasks.reduces, es[k].now);
  }

  /** A report finishes its task and no other, and once all reduce tasks are finished, and not
      before, the job is done. */
  lemma ReportIff(job: Job, ws: seq<World>, es: seq<Step>, k: nat)
    requires job.nReduce > 0 && IsRun(job, ws, es) && k < |es| && es[k].ReportDone?
    ensures var c, c', x := ws[k].tasks, ws[k + 1].tasks, At(ws[k], es[k].w);
            && |c'.maps| == |c.maps| && |c'.reduces| == |c.reduces|
            && (forall i :: 0 <= i < |c.maps| ==>
                  if x.Mapping? && i == x.m then c'.maps[i].state == Done else c'.maps[i] == c.maps[i])
            && (forall i :: 0 <= i < |c.reduces| ==>
                  if x.Reduced? && i == x.r then c'.reduces[i].state == Done else c'.reduces[i] == c.reduces[i])
            && (JobDone(ws[k + 1]) <==> Finished(c'.reduces))
  {
    hide Inv, LinesFor;
    RunInv(job, ws, es, k + 1);
    FinishedIff(job, ws[k + 1]);
    CountedAtMost(job, ws[k + 1]);
  }

  lemma CountedAtMost(job: Job, world: World)
    requires job.nReduce > 0 && Inv(job, world)
    ensures world.tasks.reduceDone <= |world.tasks.reduces|
  {
    hide LinesFor;
    AllCounted(world.tasks.reduces);
  }

  // ----- when the job is done -----

  ghost predicate JobDone(world: World) {
    world.tasks.reduceDone == |world.tasks.reduces|
  }

  /** No reduce task is handed out before every map task is done. */
  lemma MapsFirst(job: Job, ws: seq<World>, es: seq<Step>, k: nat, w: nat)
    requires job.nReduce > 0 && IsRun(job, ws, es) && k < |ws| && At(ws[k], w).Reducing?
    ensures AllMapped(ws[k])
  {
    RunInv(job, ws, es, k);
    assert WorkOk(job, ws[k], At(ws[k], w));
  }

  function Outputs(world: World, n: nat): seq<seq<Line>>
    requires forall r :: 0 <= r < n ==> r in world.outs
  {
    seq(n, r requires 0 <= r < n => world.outs[r])
  }

  lemma DoneOutputs(job: Job, world: World)
    requires job.nReduce > 0 && Inv(job, world) && JobDone(world)
    ensures forall r :: 0 <= r < job.nReduce ==> r in world.outs
    ensures forall r :: 0 <= r < job.nReduce ==> LinesFor(job.reducef, Gathered(job, r, |job.files|), world.outs[r])
  {
    hide LinesFor;
    var st := States(world.tasks.reduces);
    CountAll(st, Done);
    assert forall r :: 0 <= r < job.nReduce ==> st[r] == world.tasks.reduces[r].state;
  }

  /** In every run, with any crashes and repeated tasks, once the job is done its outputs
      together are the lines of the sequential program. */
  lemma DoneIsSequential(job: Job, ws: seq<World>, es: seq<Step>, k: nat, lines: seq<Line>)
    requires job.nReduce > 0 && OrderFree(job.reducef) && IsRun(job, ws, es) && k < |ws| && JobDone(ws[k])
    requires LinesFor(job.reducef, Intermediate(job, |job.files|), lines)
    ensures forall r :: 0 <= r < job.nReduce ==> r in ws[k].outs
    ensures multiset(Concat(Outputs(ws[k], job.nReduce))) == multiset(lines)
  {
    hide LinesFor, OrderFree, IsRun;
    RunInv(job, ws, es, k);
    DoneOutputs(job, ws[k]);
    SameLines(job, Outputs(ws[k], job.nReduce), lines);
  }

  /** In every reachable state the next file a reduce task reads is there and complete. */
  lemma NextFileIsThere(job: Job, ws: seq<World>, es: seq<Step>, k: nat, w: nat)
    requires job.nReduce > 0 && IsRun(job, ws, es) && k < |ws|
    requires At(ws[k], w).Reducing? && At(ws[k], w).read < |job.files|
    ensures var x := At(ws[k], w);
            && (x.read, x.r) in ws[k].files
            && ws[k].files[(x.read, x.r)] == Bucket(job, Emitted(job, x.read), x.r)
  {
    hide IsRun, Bucket, LinesFor, Count;
    RunInv(job, ws, es, k);
    var x := At(ws[k], w);
    assert WorkOk(job, ws[k], x);
    assert ws[k].tasks.maps[x.read].state == Done;
  }

  // ----- no reduce tasks -----

  lemma {:induction false} NothingEmitted(job: Job, n: nat)
    requires n <= |job.files|
    ensures Intermediate(job, n) == [] <==> forall m :: 0 <= m < n ==> Emitted(job, m) == []
    decreases n
  {
    if n > 0 {
      NothingEmitted(job, n - 1);
    }
  }

  lemma NoLinesIff(reducef: (string, seq<string>) -> string, kva: seq<KeyValue>, lines: seq<Line>)
    requires LinesFor(reducef, kva, lines)
    ensures lines == [] <==> kva == []
  {
    if kva != [] {
      assert HasKey(kva, kva[0].key);
    }
    if lines != [] {
      assert HasKey(kva, lines[0].key);
    }
  }

  /** Without reduce tasks the coordinator is done at once, with no output.  That is what
      the sequential program prints exactly if no map task emits anything. */
  lemma NoReduceTasks(job: Job, lines: seq<Line>)
    requires job.nReduce == 0 && LinesFor(job.reducef, Intermediate(job, |job.files|), lines)
    ensures var world := World(Fresh(|job.files|, 0), map[], map[], map[]);
            && JobDone(world)
            && (multiset(Concat(Outputs(world, 0))) == multiset(lines) <==>
                  forall m :: 0 <= m < |job.files| ==> Emitted(job, m) == [])
  {
    hide LinesFor, Intermediate;
    NothingEmitted(job, |job.files|);
    NoLinesIff(job.reducef, Intermediate(job, |job.files|), lines);
    if lines != [] {
      assert lines[0] in multiset(lines);
    }
  }
}
