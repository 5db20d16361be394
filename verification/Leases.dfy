/**
  Job leases: executors that can be killed at any moment, a daemon that acts late, recoveries in any number, and
  containers of strangers. Locks are per owner directory and job name, and the kernel frees them on exit.
 */
module Leases {
  import opened Results

  /** Names and ids, interned; job names and container ids are random and never drawn twice. */
  type Name = nat

  datatype Job = Job(owner: nat, name: Name)

  datatype Holder = Executor | Recovery(r: nat)

  /** `claims` is what the labels say; `maker` is the job that had it created, if it is not a stranger's. */
  datatype Container = Container(name: Name, claims: Job, maker: Option<Job>)

  /** A recovery of one owner: ids to go, the job read off the current one, and whether it holds that lease. */
  datatype Pass = Pass(owner: nat, todo: seq<nat>, target: Option<Job>, holding: bool)

  /** `creates` and `removals` are commands the daemon has received and may carry out later. */
  datatype World = World(
    leases: map<Job, Holder>, containers: map<nat, Container>, creates: set<Job>, removals: set<nat>,
    names: set<Name>, ids: set<nat>, passes: map<nat, Pass>)

  const NOTHING := World(map[], map[], {}, {}, {}, {}, map[])

  datatype Step =
    | Launch(job: Job)
    | SendCreate(job: Job)
    | Create(job: Job, id: nat)
    | CleanUp(job: Job, id: nat)
    | Leave(job: Job)
    | Intrude(id: nat, container: Container)
    | Vanish(id: nat)
    | List(r: nat, owner: nat, todo: seq<nat>)
    | Inspect(r: nat)
    | Lock(r: nat)
    | SendRemove(r: nat)
    | Skip(r: nat)
    | Stop(r: nat)
    | Remove(id: nat)

  predicate Holds(w: World, job: Job, holder: Holder) {
    job in w.leases && w.leases[job] == holder
  }

  predicate Live(w: World, job: Job) {
    Holds(w, job, Executor)
  }

  predicate Busy(w: World, r: nat) {
    r in w.passes && w.passes[r].todo != []
  }

  ghost predicate Enabled(w: World, step: Step) {
    match step
    case Launch(job) => job.name !in w.names
    case SendCreate(job) => Live(w, job)
    case Create(job, id) => job in w.creates && id !in w.ids
    case CleanUp(job, id) => Live(w, job) && id in w.containers && w.containers[id].name == job.name
    case Leave(job) => Live(w, job)
    case Intrude(id, c) => id !in w.ids && c.maker.None?
    case Vanish(id) => id in w.containers && w.containers[id].maker.None?
    case List(r, owner, todo) =>
      r !in w.passes && forall id :: id in todo ==> id in w.containers && w.containers[id].claims.owner == owner
    case Inspect(r) => Busy(w, r) && w.passes[r].target.None? && w.passes[r].todo[0] in w.containers
    case Lock(r) => Busy(w, r) && w.passes[r].target.Some? && !w.passes[r].holding && w.passes[r].target.value !in w.leases
    case SendRemove(r) => Busy(w, r) && w.passes[r].holding
    case Skip(r) => Busy(w, r)
    case Stop(r) => r in w.passes
    case Remove(id) => id in w.removals
  }

  /** The owner-bound job an inspected container belongs to: its labels name this owner and the container's own name. */
  function Target(owner: nat, c: Container): Option<Job> {
    if c.claims == Job(owner, c.name) then Some(c.claims) else None
  }

  function Freed(w: World, p: Pass): map<Job, Holder> {
    if p.holding && p.target.Some? then w.leases - {p.target.value} else w.leases
  }

  /** The next id; whatever lease was held for the current one is released. */
  function Advanced(w: World, r: nat): World
    requires Busy(w, r)
  {
    var p := w.passes[r];
    w.(leases := Freed(w, p), passes := w.passes[r := Pass(p.owner, p.todo[1..], None, false)])
  }

  ghost function Apply(w: World, step: Step): World
    requires Enabled(w, step)
  {
    match step
    case Launch(job) => w.(leases := w.leases[job := Executor], names := w.names + {job.name})
    case SendCreate(job) => w.(creates := w.creates + {job})
    case Create(job, id) =>
      w.(creates := w.creates - {job}, ids := w.ids + {id},
         containers := w.containers[id := Container(job.name, job, Some(job))])
    case CleanUp(_, id) => w.(containers := w.containers - {id})
    case Leave(job) => w.(leases := w.leases - {job})
    case Intrude(id, c) =>
      w.(containers := w.containers[id := c], ids := w.ids + {id}, names := w.names + {c.name, c.claims.name})
    case Vanish(id) => w.(containers := w.containers - {id})
    case List(r, owner, todo) => w.(passes := w.passes[r := Pass(owner, todo, None, false)])
    case Inspect(r) =>
      var p := w.passes[r];
      var target := Target(p.owner, w.containers[p.todo[0]]);
      if target.None? then Advanced(w, r) else w.(passes := w.passes[r := p.(target := target)])
    case Lock(r) =>
      var p := w.passes[r];
      w.(leases := w.leases[p.target.value := Recovery(r)], passes := w.passes[r := p.(holding := true)])
    case SendRemove(r) => w.(removals := w.removals + {w.passes[r].todo[0]})
    case Skip(r) => Advanced(w, r)
    case Stop(r) => w.(leases := Freed(w, w.passes[r]), passes := w.passes - {r})
    case Remove(id) => w.(containers := w.containers - {id}, removals := w.removals - {id})
  }

  ghost predicate ValidRun(w: World, steps: seq<Step>)
    decreases |steps|
  {
    steps == [] || (Enabled(w, steps[0]) && ValidRun(Apply(w, steps[0]), steps[1..]))
  }

  ghost function Final(w: World, steps: seq<Step>): World
    requires ValidRun(w, steps)
    decreases |steps|
  {
    if steps == [] then w else Final(Apply(w, steps[0]), steps[1..])
  }

  // ----- what every step keeps -----

  /** A used name never comes up for another executor, whoever holds or held its lease. */
  ghost predicate NamesUsed(w: World) {
    && (forall job :: job in w.leases ==> job.name in w.names)
    && (forall job :: job in w.creates ==> job.name in w.names)
    && (forall id :: id in w.containers ==> w.containers[id].name in w.names && id in w.ids)
    && (forall r :: r in w.passes && w.passes[r].target.Some? ==> w.passes[r].target.value.name in w.names)
  }

  ghost predicate OneExecutorPerName(w: World) {
    forall a, b :: Live(w, a) && Live(w, b) && a.name == b.name ==> a == b
  }

  /** Daemon-made containers carry their job in name and labels. */
  ghost predicate Honest(w: World) {
    forall id :: id in w.containers && w.containers[id].maker.Some? ==>
      w.containers[id].claims == w.containers[id].maker.value && w.containers[id].name == w.containers[id].maker.value.name
  }

  /** A recovery works on listed ids, and its target is the job of the current id as long as that exists. */
  ghost predicate Targeted(w: World, r: nat)
    requires r in w.passes
  {
    var p := w.passes[r];
    && (forall id :: id in p.todo ==> id in w.ids)
    && (p.holding ==> p.target.Some? && Holds(w, p.target.value, Recovery(r)))
    && (p.target.Some? ==> p.todo != [] && BelongsTo(w, p.todo[0], p.target.value))
  }

  ghost predicate BelongsTo(w: World, id: nat, job: Job) {
    id in w.containers && w.containers[id].maker.Some? ==> w.containers[id].maker.value == job
  }

  /** The daemon removes for a recovery only containers whose executor is gone for good. */
  ghost predicate Orphaned(w: World, id: nat) {
    id in w.ids && (id in w.containers && w.containers[id].maker.Some? ==> !Live(w, w.containers[id].maker.value))
  }

  ghost predicate Inv(w: World) {
    && NamesUsed(w) && OneExecutorPerName(w) && Honest(w)
    && (forall r :: r in w.passes ==> Targeted(w, r))
    && (forall id :: id in w.removals ==> Orphaned(w, id))
  }

  lemma StepKeepsNames(w: World, step: Step)
    requires Inv(w) && Enabled(w, step)
    ensures NamesUsed(Apply(w, step))
  {
  }

  lemma StepKeepsHonest(w: World, step: Step)
    requires Honest(w) && Enabled(w, step)
    ensures Honest(Apply(w, step))
  {
  }

  lemma StepKeepsExecutors(w: World, step: Step)
    requires Inv(w) && Enabled(w, step)
    ensures OneExecutorPerName(Apply(w, step))
  {
    forall a, b | Live(Apply(w, step), a) && Live(Apply(w, step), b) && a.name == b.name ensures a == b {
      LiveBefore(w, step, a);
      LiveBefore(w, step, b);
    }
  }

  /** Executors come only from launches under new names. */
  lemma LiveBefore(w: World, step: Step, job: Job)
    requires Inv(w) && Enabled(w, step) && Live(Apply(w, step), job)
    ensures Live(w, job) || step == Launch(job)
    ensures step.Launch? && step.job != job ==> job.name != step.job.name
  {
  }

  lemma StepKeepsTargets(w: World, step: Step, r: nat)
    requires Inv(w) && Enabled(w, step) && r in Apply(w, step).passes
    ensures Targeted(Apply(w, step), r)
  {
    if r in w.passes {
      assert Targeted(w, r);
    }
  }

  lemma StepKeepsOrphans(w: World, step: Step, id: nat)
    requires Inv(w) && Enabled(w, step) && id in Apply(w, step).removals
    ensures Orphaned(Apply(w, step), id)
  {
    if id in w.removals {
      assert Orphaned(w, id);
    } else {
      assert Targeted(w, step.r);
    }
  }

  lemma {:induction false} RunPreserves(w: World, steps: seq<Step>)
    requires Inv(w) && ValidRun(w, steps)
    ensures Inv(Final(w, steps))
    decreases |steps|
  {
    if steps != [] {
      var next := Apply(w, steps[0]);
      StepKeepsNames(w, steps[0]);
      StepKeepsHonest(w, steps[0]);
      StepKeepsExecutors(w, steps[0]);
      forall r | r in next.passes ensures Targeted(next, r) {
        StepKeepsTargets(w, steps[0], r);
      }
      forall id | id in next.removals ensures Orphaned(next, id) {
        StepKeepsOrphans(w, steps[0], id);
      }
      RunPreserves(next, steps[1..]);
    }
  }

  /**
    Recovery never hits a live job: in any interleaving, when the daemon carries out a removal for a recovery,
    however late, no executor holds the lease of the job that made the container.
   */
  lemma RecoveryNeverHitsALiveJob(steps: seq<Step>, id: nat)
    requires ValidRun(NOTHING, steps) && id in Final(NOTHING, steps).removals && id in Final(NOTHING, steps).containers
    ensures var w := Final(NOTHING, steps);
            w.containers[id].maker.Some? ==> !Live(w, w.containers[id].maker.value)
  {
    RunPreserves(NOTHING, steps);
    assert Orphaned(Final(NOTHING, steps), id);
  }

  /** While a job is live, only its own executor takes its container away. */
  lemma LiveContainersStay(steps: seq<Step>, step: Step, id: nat)
    requires ValidRun(NOTHING, steps) && Enabled(Final(NOTHING, steps), step)
    requires id in Final(NOTHING, steps).containers && Final(NOTHING, steps).containers[id].maker.Some?
    requires Live(Final(NOTHING, steps), Final(NOTHING, steps).containers[id].maker.value)
    ensures id in Apply(Final(NOTHING, steps), step).containers
            || step == CleanUp(Final(NOTHING, steps).containers[id].maker.value, id)
  {
    RunPreserves(NOTHING, steps);
    if step.Remove? && step.id == id {
      RecoveryNeverHitsALiveJob(steps, id);
    }
  }

  /** A job that has lost its executor never has one again, so a lease taken by a recovery stays a dead job's. */
  lemma {:induction false} DeadJobsStayDead(w: World, steps: seq<Step>, job: Job)
    requires Inv(w) && ValidRun(w, steps) && job.name in w.names && !Live(w, job)
    ensures !Live(Final(w, steps), job)
    decreases |steps|
  {
    if steps != [] {
      RunPreserves(w, [steps[0]]);
      assert Final(Apply(w, steps[0]), []) == Apply(w, steps[0]);
      assert [steps[0]][1..] == [];
      DeadJobsStayDead(Apply(w, steps[0]), steps[1..], job);
    }
  }
}
