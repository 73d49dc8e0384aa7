// Container ownership: a simulation records its intent before its first daemon call, so that
// whatever a crash or a lost response leaves behind can be found and removed by name.
//
// The daemon, the intent files and every operation's process form one transition system. A
// process may stop between any two steps, a daemon call may take effect without its response
// arriving, and processes of different operations interleave freely. A create whose client is gone
// may still be in flight: the daemon carries it out later, or never.
module ContainerOwnership {
  import opened Outcomes

  type Op = nat
  type Id = nat
  type Digest = nat

  // The two names an operation reserves; `Other` is any name it does not.
  datatype Name = Main(op: Op) | Probe(op: Op) | Other(text: string)

  datatype Container = Container(name: Name, image: Digest, owner: Option<Op>)

  // What an operation runs with; a transport adds a probe container.
  datatype Config = Config(transport: bool, image: Digest, profile: Digest, input: Digest)

  // The intent file: absent, torn by a crash while it was written, or complete.
  datatype Intent = Torn | Complete(op: Op, transport: bool, profile: Digest, input: Digest)

  datatype Phase =
    | Prepared                        // run directory made, nothing recorded
    | Recorded                        // intent complete, no daemon call yet
    | Probing(id: Id)                 // the probe's id was received
    | Probed                          // probe removed
    | Running(id: Id)                 // the container's id was received
    | Finished                        // container removed, report returned
    | Stopped                         // died or raised
    // Clean-up; `quiet` says whether no create of the operation was in flight when it began.
    | Reconciling(next: nat, quiet: bool)        // names before `next` are dealt with
    | Removing(at: nat, found: Id, quiet: bool)  // identity of `found` was confirmed
    | Reconciled(quiet: bool)                    // abandon returned normally

  // A create the daemon may still carry out.
  datatype Request = Request(op: Op, name: Name)

  datatype World = World(
    configs: map<Op, Config>,         // operations started so far; a run directory exists for each
    intents: map<Op, Intent>,
    phases: map<Op, Phase>,
    containers: map<Id, Container>,
    used: set<Id>,                    // identifiers are never reused
    inflight: set<Request>)

  datatype Step =
    | Start(op: Op, config: Config)
    | WriteIntent(op: Op, torn: bool)
    | CreateProbe(op: Op, id: Id, heard: bool)
    | RemoveProbe(op: Op, effective: bool, heard: bool)
    | CreateMain(op: Op, id: Id, heard: bool)
    | RemoveMain(op: Op, effective: bool, heard: bool)
    | LoseCreate(op: Op, name: Name)
    | Land(op: Op, name: Name, id: Id)
    | Die(op: Op)
    | Abandon(op: Op, transport: bool, profile: Digest, input: Digest)
    | Query(op: Op, found: Option<Id>)
    | RemoveFound(op: Op, effective: bool, heard: bool)
    | Conclude(op: Op)
    | Foreign(id: Id, container: Container)
    | Vanish(id: Id)

  function Names(op: Op, transport: bool): seq<Name> {
    if transport then [Probe(op), Main(op)] else [Main(op)]
  }

  predicate NameTaken(w: World, name: Name) {
    exists id :: id in w.containers && w.containers[id].name == name
  }

  predicate At(w: World, op: Op, phase: Phase) {
    op in w.phases && w.phases[op] == phase
  }

  function To(w: World, op: Op, phase: Phase): World {
    w.(phases := w.phases[op := phase])
  }

  // A create that reaches the daemon, whether or not its answer comes back.
  function Create(w: World, op: Op, id: Id, name: Name, heard: bool, then_: Phase): World
    requires op in w.configs
  {
    var c := Container(name, w.configs[op].image, Some(op));
    To(w.(containers := w.containers[id := c], used := w.used + {id}), op, if heard then then_ else Stopped)
  }

  // A forced remove: without an effect it is never acknowledged.
  function Remove(w: World, op: Op, id: Id, effective: bool, heard: bool, then_: Phase): World {
    var left := if effective then w.containers - {id} else w.containers;
    To(w.(containers := left), op, if heard && effective then then_ else Stopped)
  }

  predicate MayProbe(w: World, op: Op)
    requires op in w.configs
  {
    At(w, op, Recorded) && w.configs[op].transport
  }

  predicate MayRun(w: World, op: Op)
    requires op in w.configs
  {
    At(w, op, if w.configs[op].transport then Probed else Recorded)
  }

  // No create of the operation is in flight.
  predicate NoFlight(w: World, op: Op) {
    forall r :: r in w.inflight ==> r.op != op
  }

  // ---- The steps, each nothing if it is not enabled ------------------------------------

  function Started(w: World, op: Op, config: Config): Option<World> {
    if op in w.configs then None   // the run directory already exists
    else Some(To(w.(configs := w.configs[op := config]), op, Prepared))
  }

  function IntentWritten(w: World, op: Op, torn: bool): Option<World> {
    if !At(w, op, Prepared) || op !in w.configs then None
    else if torn then Some(To(w.(intents := w.intents[op := Torn]), op, Stopped))
    else
      var c := w.configs[op];
      Some(To(w.(intents := w.intents[op := Complete(op, c.transport, c.profile, c.input)]), op, Recorded))
  }

  function ProbeCreated(w: World, op: Op, id: Id, heard: bool): Option<World> {
    if op !in w.configs || !MayProbe(w, op) || id in w.used then None
    else if NameTaken(w, Probe(op)) then Some(To(w, op, Stopped))
    else Some(Create(w, op, id, Probe(op), heard, Probing(id)))
  }

  function MainCreated(w: World, op: Op, id: Id, heard: bool): Option<World> {
    if op !in w.configs || !MayRun(w, op) || id in w.used then None
    else if NameTaken(w, Main(op)) then Some(To(w, op, Stopped))
    else Some(Create(w, op, id, Main(op), heard, Running(id)))
  }

  function ProbeRemoved(w: World, op: Op, effective: bool, heard: bool): Option<World> {
    if op !in w.phases || !w.phases[op].Probing? then None
    else Some(Remove(w, op, w.phases[op].id, effective, heard, Probed))
  }

  function MainRemoved(w: World, op: Op, effective: bool, heard: bool): Option<World> {
    if op !in w.phases || !w.phases[op].Running? then None
    else Some(Remove(w, op, w.phases[op].id, effective, heard, Finished))
  }

  // The client of a create is gone before the daemon got to it.
  function CreateLost(w: World, op: Op, name: Name): Option<World> {
    if op !in w.configs then None
    else if (name == Probe(op) && MayProbe(w, op)) || (name == Main(op) && MayRun(w, op))
      then Some(To(w.(inflight := w.inflight + {Request(op, name)}), op, Stopped))
    else None
  }

  // The daemon carries out a create whose client is gone; a taken name refuses it.
  function Landed(w: World, op: Op, name: Name, id: Id): Option<World> {
    var request := Request(op, name);
    if request !in w.inflight || id in w.used || op !in w.configs then None
    else if NameTaken(w, name) then Some(w.(inflight := w.inflight - {request}))
    else Some(w.(containers := w.containers[id := Container(name, w.configs[op].image, Some(op))],
                 used := w.used + {id}, inflight := w.inflight - {request}))
  }

  // Explicit cleanup of an operation whose process is gone; a missing, torn or different intent
  // refuses it before any daemon call.
  function AbandonBegun(w: World, op: Op, intent: Intent): Option<World> {
    if op !in w.phases || !(w.phases[op].Stopped? || w.phases[op].Finished? || w.phases[op].Reconciled?) then None
    else if op !in w.intents || w.intents[op] != intent then None
    else Some(To(w, op, Reconciling(0, NoFlight(w, op))))
  }

  function Queried(w: World, op: Op, found: Option<Id>): Option<World> {
    if op !in w.phases || !w.phases[op].Reconciling? || op !in w.configs then None
    else
      var next, quiet, names := w.phases[op].next, w.phases[op].quiet, Names(op, w.configs[op].transport);
      if next >= |names| then None
      else if found.None? then
        if NameTaken(w, names[next]) then None else Some(To(w, op, Reconciling(next + 1, quiet)))
      else if found.value !in w.containers || w.containers[found.value].name != names[next] then None
      else if w.containers[found.value] == Container(names[next], w.configs[op].image, Some(op))
        then Some(To(w, op, Removing(next, found.value, quiet)))
      else Some(To(w, op, Stopped))   // identity mismatch
  }

  function FoundRemoved(w: World, op: Op, effective: bool, heard: bool): Option<World> {
    if op !in w.phases || !w.phases[op].Removing? then None
    else Some(Remove(w, op, w.phases[op].found, effective, heard, Reconciling(w.phases[op].at + 1, w.phases[op].quiet)))
  }

  function Concluded(w: World, op: Op): Option<World> {
    if op !in w.configs || op !in w.phases || !w.phases[op].Reconciling? then None
    else if w.phases[op].next != |Names(op, w.configs[op].transport)| then None
    else Some(To(w, op, Reconciled(w.phases[op].quiet)))
  }

  // Anyone else may create containers, under any free name, but not with the label.
  function ForeignCreated(w: World, id: Id, container: Container): Option<World> {
    if id in w.used || container.owner.Some? || NameTaken(w, container.name) then None
    else Some(w.(containers := w.containers[id := container], used := w.used + {id}))
  }

  function Apply(w: World, s: Step): Option<World> {
    match s
    case Start(op, config) => Started(w, op, config)
    case WriteIntent(op, torn) => IntentWritten(w, op, torn)
    case CreateProbe(op, id, heard) => ProbeCreated(w, op, id, heard)
    case RemoveProbe(op, effective, heard) => ProbeRemoved(w, op, effective, heard)
    case CreateMain(op, id, heard) => MainCreated(w, op, id, heard)
    case RemoveMain(op, effective, heard) => MainRemoved(w, op, effective, heard)
    case LoseCreate(op, name) => CreateLost(w, op, name)
    case Land(op, name, id) => Landed(w, op, name, id)
    case Die(op) => if op in w.phases then Some(To(w, op, Stopped)) else None
    case Abandon(op, transport, profile, input) => AbandonBegun(w, op, Complete(op, transport, profile, input))
    case Query(op, found) => Queried(w, op, found)
    case RemoveFound(op, effective, heard) => FoundRemoved(w, op, effective, heard)
    case Conclude(op) => Concluded(w, op)
    case Foreign(id, container) => ForeignCreated(w, id, container)
    case Vanish(id) => if id in w.containers then Some(w.(containers := w.containers - {id})) else None
  }

  const EMPTY := World(map[], map[], map[], map[], {}, {})

  function Run(steps: seq<Step>): Option<World> {
    if steps == [] then Some(EMPTY) else
    var before := Run(steps[..|steps| - 1]);
    if before.None? then None else Apply(before.value, steps[|steps| - 1])
  }

  // ---- The invariant ------------------------------------------------------------------

  ghost predicate IntentComplete(w: World, op: Op)
    requires op in w.configs
  {
    var c := w.configs[op];
    op in w.intents && w.intents[op] == Complete(op, c.transport, c.profile, c.input)
  }

  // Every labelled container has a recorded intent and one of the operation's reserved names.
  ghost predicate Owned(w: World) {
    forall id :: id in w.containers && w.containers[id].owner.Some? ==>
      var op, c := w.containers[id].owner.value, w.containers[id];
      && op in w.configs && IntentComplete(w, op)
      && c.name in Names(op, w.configs[op].transport) && c.image == w.configs[op].image
  }

  ghost predicate NamesUnique(w: World) {
    forall i, j :: i in w.containers && j in w.containers && w.containers[i].name == w.containers[j].name ==> i == j
  }

  // No container of the operation carries one of its first n names.
  ghost predicate Cleared(w: World, op: Op, n: nat)
    requires op in w.configs
  {
    forall id, k :: id in w.containers && w.containers[id].owner == Some(op)
                    && 0 <= k < n && k < |Names(op, w.configs[op].transport)|
                    ==> w.containers[id].name != Names(op, w.configs[op].transport)[k]
  }

  ghost predicate NoneLeft(w: World, op: Op) {
    forall id :: id in w.containers ==> w.containers[id].owner != Some(op)
  }

  ghost predicate Mine(w: World, op: Op, id: Id) {
    id in w.used && (id in w.containers ==> w.containers[id].owner == Some(op))
  }

  ghost predicate PhaseSound(w: World, op: Op)
    requires op in w.phases && op in w.configs
  {
    var config := w.configs[op];
    var complete := IntentComplete(w, op);
    match w.phases[op]
    case Prepared => NoneLeft(w, op) && NoFlight(w, op) && op !in w.intents
    case Recorded => NoneLeft(w, op) && NoFlight(w, op) && complete
    case Probing(id) => complete && NoFlight(w, op) && Mine(w, op, id) && config.transport
                        && forall i :: i in w.containers && w.containers[i].owner == Some(op) ==> i == id
    case Probed => NoneLeft(w, op) && NoFlight(w, op) && complete
    case Running(id) => complete && NoFlight(w, op) && Mine(w, op, id)
                        && forall i :: i in w.containers && w.containers[i].owner == Some(op) ==> i == id
    case Finished => NoneLeft(w, op) && NoFlight(w, op)
    case Stopped => true
    case Reconciling(next, quiet) =>
      complete && next <= |Names(op, config.transport)| && (quiet ==> NoFlight(w, op) && Cleared(w, op, next))
    case Removing(at, found, quiet) =>
      && complete && at < |Names(op, config.transport)| && Mine(w, op, found)
      && (quiet ==>
            && NoFlight(w, op) && Cleared(w, op, at)
            && forall i :: (i in w.containers && w.containers[i].owner == Some(op)
                            && w.containers[i].name == Names(op, config.transport)[at]) ==> i == found)
    case Reconciled(quiet) => complete && (quiet ==> NoneLeft(w, op) && NoFlight(w, op))
  }

  // A create in flight belongs to an operation with a recorded intent and asks for one of its names.
  ghost predicate FlightSound(w: World) {
    forall r :: r in w.inflight ==>
      r.op in w.configs && IntentComplete(w, r.op) && r.name in Names(r.op, w.configs[r.op].transport)
  }

  ghost predicate Consistent(w: World) {
    && Owned(w) && NamesUnique(w) && FlightSound(w)
    && w.containers.Keys <= w.used
    && w.phases.Keys == w.configs.Keys && w.intents.Keys <= w.configs.Keys
    && forall op :: op in w.intents ==> w.intents[op] == Torn || IntentComplete(w, op)
  }

  ghost predicate Inv(w: World) {
    && Consistent(w)
    && forall op :: op in w.phases ==> PhaseSound(w, op)
  }

  // ---- Every step keeps it ------------------------------------------------------------

  // What a step must leave alone for an operation it does not belong to.
  ghost predicate Undisturbed(w: World, n: World, o: Op) {
    && o in w.configs && o in n.configs && n.configs[o] == w.configs[o]
    && o in w.phases && o in n.phases && n.phases[o] == w.phases[o]
    && (o in n.intents <==> o in w.intents) && (o in w.intents ==> n.intents[o] == w.intents[o])
    && w.used <= n.used && (NoFlight(w, o) ==> NoFlight(n, o))
    && forall id :: id in n.containers ==>
         || (id in w.containers && n.containers[id] == w.containers[id])
         || (id !in w.used && n.containers[id].owner != Some(o))
  }

  lemma UndisturbedStaysSound(w: World, n: World, o: Op)
    requires w.containers.Keys <= w.used && Undisturbed(w, n, o) && PhaseSound(w, o)
    ensures PhaseSound(n, o)
  {
  }

  // A consistent world in which one operation moved and the others were left alone.
  lemma OneMoved(w: World, n: World, op: Op)
    requires Inv(w) && Consistent(n) && op in n.phases && PhaseSound(n, op)
    requires n.phases.Keys == w.phases.Keys + {op}
    requires forall o :: o in w.phases && o != op ==> Undisturbed(w, n, o)
    ensures Inv(n)
  {
    forall o | o in n.phases && o != op
      ensures PhaseSound(n, o)
    {
      UndisturbedStaysSound(w, n, o);
    }
  }

  lemma MoveKeeps(w: World, op: Op, phase: Phase)
    requires Inv(w) && op in w.phases && PhaseSound(To(w, op, phase), op)
    ensures Inv(To(w, op, phase))
  {
    OneMoved(w, To(w, op, phase), op);
  }

  lemma CreateConsistent(w: World, op: Op, id: Id, name: Name, heard: bool, then_: Phase)
    requires Consistent(w) && op in w.phases && IntentComplete(w, op)
    requires id !in w.used && !NameTaken(w, name) && name in Names(op, w.configs[op].transport)
    ensures Consistent(Create(w, op, id, name, heard, then_))
  {
    var n := Create(w, op, id, name, heard, then_);
    forall i | i in n.containers && n.containers[i].owner.Some?
      ensures var o, c := n.containers[i].owner.value, n.containers[i];
              && o in n.configs && IntentComplete(n, o)
              && c.name in Names(o, n.configs[o].transport) && c.image == n.configs[o].image
    {
      if i != id {
        assert i in w.containers && w.containers[i].owner.Some?;
      }
    }
  }

  lemma CreateKeeps(w: World, op: Op, id: Id, name: Name, heard: bool, then_: Phase)
    requires Inv(w) && op in w.phases && IntentComplete(w, op) && NoneLeft(w, op) && NoFlight(w, op)
    requires id !in w.used && !NameTaken(w, name) && name in Names(op, w.configs[op].transport)
    requires then_ == Running(id) || (then_ == Probing(id) && w.configs[op].transport)
    ensures Inv(Create(w, op, id, name, heard, then_))
  {
    CreateConsistent(w, op, id, name, heard, then_);
    OneMoved(w, Create(w, op, id, name, heard, then_), op);
  }

  lemma RemoveConsistent(w: World, op: Op, id: Id, effective: bool, heard: bool, then_: Phase)
    requires Consistent(w) && op in w.phases
    ensures Consistent(Remove(w, op, id, effective, heard, then_))
  {
    var n := Remove(w, op, id, effective, heard, then_);
    assert forall i :: i in n.containers ==> i in w.containers && n.containers[i] == w.containers[i];
  }

  lemma RemoveKeeps(w: World, op: Op, id: Id, effective: bool, heard: bool, then_: Phase)
    requires Inv(w) && op in w.phases
    requires effective && heard ==> PhaseSound(Remove(w, op, id, true, true, then_), op)
    ensures Inv(Remove(w, op, id, effective, heard, then_))
  {
    var n := Remove(w, op, id, effective, heard, then_);
    RemoveConsistent(w, op, id, effective, heard, then_);
    forall o | o in w.phases && o != op
      ensures Undisturbed(w, n, o)
    {
    }
    OneMoved(w, n, op);
  }

  // An operation without containers may change its own records.
  lemma RecordConsistent(w: World, n: World, op: Op)
    requires Consistent(w) && NoneLeft(w, op)
    requires n.containers == w.containers && n.used == w.used && n.inflight == w.inflight && NoFlight(w, op)
    requires n.configs.Keys == w.configs.Keys + {op} == n.phases.Keys && n.intents.Keys <= n.configs.Keys
    requires forall o :: o in w.configs && o != op ==> n.configs[o] == w.configs[o]
    requires forall o :: o != op ==>
             (o in n.intents <==> o in w.intents) && (o in w.intents ==> n.intents[o] == w.intents[o])
    requires op in n.intents ==> n.intents[op] == Torn || IntentComplete(n, op)
    ensures Consistent(n)
  {
    forall i | i in n.containers && n.containers[i].owner.Some?
      ensures var o, c := n.containers[i].owner.value, n.containers[i];
              && o in n.configs && IntentComplete(n, o)
              && c.name in Names(o, n.configs[o].transport) && c.image == n.configs[o].image
    {
      assert IntentComplete(w, w.containers[i].owner.value);
    }
    forall o | o in n.intents && o != op
      ensures n.intents[o] == Torn || IntentComplete(n, o)
    {
      assert w.intents[o] == Torn || IntentComplete(w, o);
    }
  }

  // Such a record change is a step as soon as the operation itself is sound after it.
  lemma RecordMoved(w: World, n: World, op: Op)
    requires Inv(w) && Consistent(n) && op in n.phases && PhaseSound(n, op)
    requires n.containers == w.containers && n.used == w.used && n.inflight == w.inflight
    requires n.phases.Keys == w.phases.Keys + {op} == n.configs.Keys
    requires forall o :: o in w.configs && o != op ==> n.configs[o] == w.configs[o] && n.phases[o] == w.phases[o]
    requires forall o :: o != op ==>
             (o in n.intents <==> o in w.intents) && (o in w.intents ==> n.intents[o] == w.intents[o])
    ensures Inv(n)
  {
    forall o | o in w.phases && o != op
      ensures Undisturbed(w, n, o)
    {
    }
    OneMoved(w, n, op);
  }

  lemma RecordKeeps(w: World, op: Op, torn: bool)
    requires Inv(w) && IntentWritten(w, op, torn).Some?
    ensures Inv(IntentWritten(w, op, torn).value)
  {
    var n := IntentWritten(w, op, torn).value;
    RecordedIsSound(w, op, torn);
    RecordConsistent(w, n, op);
    RecordMoved(w, n, op);
  }

  lemma RecordedIsSound(w: World, op: Op, torn: bool)
    requires Inv(w) && IntentWritten(w, op, torn).Some?
    ensures NoneLeft(w, op) && NoFlight(w, op) && op !in w.intents
    ensures var n := IntentWritten(w, op, torn).value;
            PhaseSound(n, op) && (n.intents[op] == Torn || IntentComplete(n, op))
  {
    assert PhaseSound(w, op);
  }

  lemma StartKeeps(w: World, op: Op, config: Config)
    requires Inv(w) && Started(w, op, config).Some?
    ensures Inv(Started(w, op, config).value)
  {
    var n := Started(w, op, config).value;
    assert NoneLeft(w, op) && NoFlight(w, op);
    RecordConsistent(w, n, op);
    RecordMoved(w, n, op);
  }

  // The environment leaves every operation alone.
  lemma EnvironmentKeeps(w: World, n: World)
    requires Inv(w) && Consistent(n) && n.phases == w.phases && n.configs == w.configs
    requires forall o :: o in w.phases ==> Undisturbed(w, n, o)
    ensures Inv(n)
  {
    forall o | o in n.phases
      ensures PhaseSound(n, o)
    {
      UndisturbedStaysSound(w, n, o);
    }
  }

  lemma ForeignKeeps(w: World, id: Id, container: Container)
    requires Inv(w) && ForeignCreated(w, id, container).Some?
    ensures Inv(ForeignCreated(w, id, container).value)
  {
    EnvironmentKeeps(w, ForeignCreated(w, id, container).value);
  }

  lemma VanishKeeps(w: World, id: Id)
    requires Inv(w)
    ensures Inv(w.(containers := w.containers - {id}))
  {
    EnvironmentKeeps(w, w.(containers := w.containers - {id}));
  }

  // The daemon-facing steps of a simulation.
  lemma ProbeCreateKeeps(w: World, op: Op, id: Id, heard: bool)
    requires Inv(w) && ProbeCreated(w, op, id, heard).Some?
    ensures Inv(ProbeCreated(w, op, id, heard).value)
  {
    assert PhaseSound(w, op);
    if NameTaken(w, Probe(op)) {
      MoveKeeps(w, op, Stopped);
    } else {
      CreateKeeps(w, op, id, Probe(op), heard, Probing(id));
    }
  }

  lemma MainCreateKeeps(w: World, op: Op, id: Id, heard: bool)
    requires Inv(w) && MainCreated(w, op, id, heard).Some?
    ensures Inv(MainCreated(w, op, id, heard).value)
  {
    assert PhaseSound(w, op);
    if NameTaken(w, Main(op)) {
      MoveKeeps(w, op, Stopped);
    } else {
      CreateKeeps(w, op, id, Main(op), heard, Running(id));
    }
  }

  lemma ProbeRemoveKeeps(w: World, op: Op, effective: bool, heard: bool)
    requires Inv(w) && ProbeRemoved(w, op, effective, heard).Some?
    ensures Inv(ProbeRemoved(w, op, effective, heard).value)
  {
    assert PhaseSound(w, op);
    RemoveKeeps(w, op, w.phases[op].id, effective, heard, Probed);
  }

  lemma MainRemoveKeeps(w: World, op: Op, effective: bool, heard: bool)
    requires Inv(w) && MainRemoved(w, op, effective, heard).Some?
    ensures Inv(MainRemoved(w, op, effective, heard).value)
  {
    assert PhaseSound(w, op);
    RemoveKeeps(w, op, w.phases[op].id, effective, heard, Finished);
  }

  // A lost create: the operation is stopped, its request in flight.
  lemma LoseKeeps(w: World, op: Op, name: Name)
    requires Inv(w) && CreateLost(w, op, name).Some?
    ensures Inv(CreateLost(w, op, name).value)
  {
    assert PhaseSound(w, op);
    OneMoved(w, CreateLost(w, op, name).value, op);
  }

  // A request that lands belongs to an operation whose client is gone.
  lemma LandKeeps(w: World, op: Op, name: Name, id: Id)
    requires Inv(w) && Landed(w, op, name, id).Some?
    ensures Inv(Landed(w, op, name, id).value)
  {
    var n := Landed(w, op, name, id).value;
    LandConsistent(w, op, name, id);
    LandSound(w, op, name, id);
    OneMoved(w, n, op);
  }

  lemma LandSound(w: World, op: Op, name: Name, id: Id)
    requires Inv(w) && Landed(w, op, name, id).Some?
    ensures PhaseSound(Landed(w, op, name, id).value, op)
  {
    assert Request(op, name) in w.inflight && !NoFlight(w, op);
    assert PhaseSound(w, op);
  }

  lemma LandConsistent(w: World, op: Op, name: Name, id: Id)
    requires Consistent(w) && Landed(w, op, name, id).Some?
    ensures Consistent(Landed(w, op, name, id).value)
  {
    var n := Landed(w, op, name, id).value;
    assert Request(op, name) in w.inflight;
    forall i | i in n.containers && n.containers[i].owner.Some?
      ensures var o, c := n.containers[i].owner.value, n.containers[i];
              && o in n.configs && IntentComplete(n, o)
              && c.name in Names(o, n.configs[o].transport) && c.image == n.configs[o].image
    {
      if i != id {
        assert i in w.containers && w.containers[i].owner.Some?;
      }
    }
  }

  // The steps of an abandon.
  lemma AbandonKeeps(w: World, op: Op, intent: Intent)
    requires Inv(w) && AbandonBegun(w, op, intent).Some? && intent.Complete?
    ensures Inv(AbandonBegun(w, op, intent).value)
  {
    assert IntentComplete(w, op);
    MoveKeeps(w, op, Reconciling(0, NoFlight(w, op)));
  }

  lemma QuerySound(w: World, op: Op, found: Option<Id>)
    requires Inv(w) && Queried(w, op, found).Some?
    ensures var n := Queried(w, op, found).value;
            n == To(w, op, n.phases[op]) && PhaseSound(n, op)
  {
    assert PhaseSound(w, op);
    if found.None? {
      UnfoundSound(w, op);
    } else {
      FoundSound(w, op, found.value);
    }
  }

  lemma UnfoundSound(w: World, op: Op)
    requires Inv(w) && Queried(w, op, None).Some?
    ensures PhaseSound(Queried(w, op, None).value, op)
  {
    assert PhaseSound(w, op);
    var next, quiet := w.phases[op].next, w.phases[op].quiet;
    if quiet {
      assert Cleared(w, op, next + 1);
    }
  }

  lemma FoundSound(w: World, op: Op, id: Id)
    requires Inv(w) && Queried(w, op, Some(id)).Some?
    ensures PhaseSound(Queried(w, op, Some(id)).value, op)
  {
    assert PhaseSound(w, op);
  }

  lemma QueryKeeps(w: World, op: Op, found: Option<Id>)
    requires Inv(w) && Queried(w, op, found).Some?
    ensures Inv(Queried(w, op, found).value)
  {
    QuerySound(w, op, found);
    MoveKeeps(w, op, Queried(w, op, found).value.phases[op]);
  }

  lemma RemoveFoundSound(w: World, op: Op, at: nat, found: Id, quiet: bool)
    requires Inv(w) && op in w.phases && w.phases[op] == Removing(at, found, quiet)
    ensures PhaseSound(Remove(w, op, found, true, true, Reconciling(at + 1, quiet)), op)
  {
    assert PhaseSound(w, op);
  }

  lemma RemoveFoundKeeps(w: World, op: Op, effective: bool, heard: bool)
    requires Inv(w) && FoundRemoved(w, op, effective, heard).Some?
    ensures Inv(FoundRemoved(w, op, effective, heard).value)
  {
    var at, found, quiet := w.phases[op].at, w.phases[op].found, w.phases[op].quiet;
    assert FoundRemoved(w, op, effective, heard) ==
           Some(Remove(w, op, found, effective, heard, Reconciling(at + 1, quiet)));
    RemoveFoundSound(w, op, at, found, quiet);
    RemoveKeeps(w, op, found, effective, heard, Reconciling(at + 1, quiet));
  }

  lemma ConcludeKeeps(w: World, op: Op)
    requires Inv(w) && Concluded(w, op).Some?
    ensures Inv(Concluded(w, op).value)
  {
    assert PhaseSound(w, op);
    MoveKeeps(w, op, Reconciled(w.phases[op].quiet));
  }

  lemma StepKeepsInv(w: World, s: Step)
    requires Inv(w) && Apply(w, s).Some?
    ensures Inv(Apply(w, s).value)
  {
    match s
    case Start(op, config) => StartKeeps(w, op, config);
    case WriteIntent(op, torn) => RecordKeeps(w, op, torn);
    case CreateProbe(op, id, heard) => ProbeCreateKeeps(w, op, id, heard);
    case RemoveProbe(op, effective, heard) => ProbeRemoveKeeps(w, op, effective, heard);
    case CreateMain(op, id, heard) => MainCreateKeeps(w, op, id, heard);
    case RemoveMain(op, effective, heard) => MainRemoveKeeps(w, op, effective, heard);
    case LoseCreate(op, name) => LoseKeeps(w, op, name);
    case Land(op, name, id) => LandKeeps(w, op, name, id);
    case Die(op) => MoveKeeps(w, op, Stopped);
    case Abandon(op, transport, profile, input) => AbandonKeeps(w, op, Complete(op, transport, profile, input));
    case Query(op, found) => QueryKeeps(w, op, found);
    case RemoveFound(op, effective, heard) => RemoveFoundKeeps(w, op, effective, heard);
    case Conclude(op) => ConcludeKeeps(w, op);
    case Foreign(id, container) => ForeignKeeps(w, id, container);
    case Vanish(id) => VanishKeeps(w, id);
  }

  // ---- Over every run -----------------------------------------------------------------

  lemma {:induction false} RunKeepsInv(steps: seq<Step>)
    requires Run(steps).Some?
    ensures Inv(Run(steps).value)
  {
    if steps != [] {
      RunKeepsInv(steps[..|steps| - 1]);
      StepKeepsInv(Run(steps[..|steps| - 1]).value, steps[|steps| - 1]);
    }
  }

  // Whatever happened, a labelled container has a complete intent of its own operation and one
  // of that operation's reserved names; and once abandon has returned normally, or a simulation
  // has finished, none is left.
  lemma OwnershipIsRecorded(steps: seq<Step>, id: Id)
    requires Run(steps).Some? && id in Run(steps).value.containers
    ensures var w := Run(steps).value; var owner := w.containers[id].owner;
            owner.Some? ==>
              && owner.value in w.configs && owner.value in w.phases && IntentComplete(w, owner.value)
              && w.containers[id].name in Names(owner.value, w.configs[owner.value].transport)
              && w.phases[owner.value] !in {Prepared, Recorded, Probed, Finished, Reconciled(true)}
  {
    RunKeepsInv(steps);
    var w := Run(steps).value;
    if w.containers[id].owner.Some? {
      assert PhaseSound(w, w.containers[id].owner.value);
    }
  }

  // With no create in flight when it began, a clean-up that returned leaves none, and none to come.
  lemma AbandonLeavesNone(steps: seq<Step>, op: Op)
    requires Run(steps).Some? && op in Run(steps).value.phases
    requires Run(steps).value.phases[op] in {Reconciled(true), Finished}
    ensures NoneLeft(Run(steps).value, op) && NoFlight(Run(steps).value, op)
  {
    RunKeepsInv(steps);
    assert PhaseSound(Run(steps).value, op);
  }

  function Actor(s: Step): Option<Op> {
    if s.Foreign? || s.Vanish? then None else Some(s.op)
  }

  // No step of an operation ever removes or changes a container of anyone else.
  lemma OthersAreNeverTouched(w: World, s: Step, id: Id)
    requires Inv(w) && Apply(w, s).Some? && Actor(s).Some?
    requires id in w.containers && w.containers[id].owner != Actor(s)
    ensures var n := Apply(w, s).value; id in n.containers && n.containers[id] == w.containers[id]
  {
    if s.RemoveProbe? || s.RemoveMain? {
      var then_ := if s.RemoveProbe? then Probed else Finished;
      assert Apply(w, s) == Some(Remove(w, s.op, w.phases[s.op].id, s.effective, s.heard, then_));
      RemovalSpares(w, s.op, w.phases[s.op].id, s.effective, s.heard, then_, id);
    } else if s.RemoveFound? {
      FoundRemovalSpares(w, s.op, s.effective, s.heard, id);
    } else {
      OtherStepsOnlyAdd(w, s);
    }
  }

  lemma FoundRemovalSpares(w: World, op: Op, effective: bool, heard: bool, other: Id)
    requires Inv(w) && FoundRemoved(w, op, effective, heard).Some?
    requires other in w.containers && w.containers[other].owner != Some(op)
    ensures var n := FoundRemoved(w, op, effective, heard).value;
            other in n.containers && n.containers[other] == w.containers[other]
  {
    RemovalSpares(w, op, w.phases[op].found, effective, heard, Reconciling(w.phases[op].at + 1, w.phases[op].quiet),
                  other);
  }

  // The container a removal names is the operation's own, if it still exists.
  lemma OwnedIsNotOther(w: World, op: Op, own: Id, other: Id)
    requires Inv(w) && op in w.phases && other in w.containers && w.containers[other].owner != Some(op)
    requires w.phases[op] == Probing(own) || w.phases[op] == Running(own)
             || (w.phases[op].Removing? && w.phases[op].found == own)
    ensures own != other
  {
    assert PhaseSound(w, op);
    assert Mine(w, op, own);
  }

  lemma RemovalSpares(w: World, op: Op, own: Id, effective: bool, heard: bool, then_: Phase, other: Id)
    requires Inv(w) && op in w.phases && other in w.containers && w.containers[other].owner != Some(op)
    requires w.phases[op] == Probing(own) || w.phases[op] == Running(own)
             || (w.phases[op].Removing? && w.phases[op].found == own)
    ensures var n := Remove(w, op, own, effective, heard, then_);
            other in n.containers && n.containers[other] == w.containers[other]
  {
    OwnedIsNotOther(w, op, own, other);
  }

  lemma OtherStepsOnlyAdd(w: World, s: Step)
    requires w.containers.Keys <= w.used && Apply(w, s).Some? && !s.RemoveProbe? && !s.RemoveMain? && !s.RemoveFound?
             && !s.Vanish?
    ensures var n := Apply(w, s).value;
            forall id :: id in w.containers ==> id in n.containers && n.containers[id] == w.containers[id]
  {
  }

  // Cleaning up an operation that has nothing left changes no container, whatever happens on
  // the way, so repeating abandon is harmless.
  lemma RepeatIsHarmless(w: World, s: Step)
    requires Inv(w) && Apply(w, s).Some? && (s.Abandon? || s.Query? || s.RemoveFound? || s.Conclude?)
    requires NoneLeft(w, s.op)
    ensures Apply(w, s).value.containers == w.containers
  {
    if s.RemoveFound? {
      assert PhaseSound(w, s.op);
      assert w.phases[s.op].found !in w.containers;
      assert w.containers - {w.phases[s.op].found} == w.containers;
    }
  }

  ghost predicate Gone(w: World, op: Op) {
    && op in w.phases && NoneLeft(w, op) && NoFlight(w, op)
    && (w.phases[op].Reconciled? || w.phases[op].Stopped? || w.phases[op].Reconciling?)
  }

  lemma OnlyOwnStepsCreate(w: World, s: Step, op: Op)
    requires Apply(w, s).Some? && op in w.phases && Actor(s) != Some(op)
    ensures var n := Apply(w, s).value;
            && op in n.phases && n.phases[op] == w.phases[op] && (NoFlight(w, op) ==> NoFlight(n, op))
            && forall id :: id in n.containers && n.containers[id].owner == Some(op) ==>
                 id in w.containers && n.containers[id] == w.containers[id]
  {
  }

  lemma StaysGone(w: World, s: Step, op: Op)
    requires Inv(w) && Apply(w, s).Some? && Gone(w, op)
    ensures Gone(Apply(w, s).value, op)
  {
    if Actor(s) == Some(op) {
      OwnStepStaysGone(w, s);
    } else {
      OnlyOwnStepsCreate(w, s, op);
    }
  }

  lemma OwnStepStaysGone(w: World, s: Step)
    requires Inv(w) && Apply(w, s).Some? && Actor(s).Some? && Gone(w, s.op)
    ensures Gone(Apply(w, s).value, s.op)
  {
    GoneMoves(w, s);
    GoneKeepsRecords(w, s);
  }

  // The only steps an operation that is gone can take itself.
  lemma GoneMoves(w: World, s: Step)
    requires Inv(w) && Apply(w, s).Some? && Actor(s).Some? && Gone(w, s.op)
    ensures s.Die? || s.Abandon? || s.Query? || s.Conclude?
  {
    assert s.op in w.configs;
  }

  lemma GoneKeepsRecords(w: World, s: Step)
    requires Apply(w, s).Some? && (s.Die? || s.Abandon? || s.Query? || s.Conclude?) && Gone(w, s.op)
    ensures Gone(Apply(w, s).value, s.op)
  {
    if s.Query? && s.found.Some? {
      assert s.found.value in w.containers && w.containers[s.found.value].owner != Some(s.op);
    }
  }

  lemma After(prefix: seq<Step>, s: Step)
    ensures Run(prefix + [s]) == if Run(prefix).None? then None else Apply(Run(prefix).value, s)
  {
    assert (prefix + [s])[..|prefix|] == prefix;
  }

  // Once none is left and none is in flight, nothing brings a container of the operation back.
  lemma {:induction false} GoneForGood(steps: seq<Step>, more: seq<Step>, op: Op)
    requires Run(steps).Some? && Run(steps + more).Some? && Gone(Run(steps).value, op)
    ensures Gone(Run(steps + more).value, op)
    decreases |more|
  {
    if |more| == 0 {
      assert steps + more == steps;
    } else {
      var prefix, last := more[..|more| - 1], more[|more| - 1];
      assert steps + more == (steps + prefix) + [last];
      After(steps + prefix, last);
      GoneForGood(steps, prefix, op);
      RunKeepsInv(steps + prefix);
      StaysGone(Run(steps + prefix).value, last, op);
    }
  }

  lemma {:induction false} Bound(ids: set<Id>) returns (fresh_: Id)
    ensures forall id :: id in ids ==> id < fresh_
    decreases |ids|
  {
    fresh_ := 0;
    if ids != {} {
      var id :| id in ids;
      var others := Bound(ids - {id});
      fresh_ := if id < others then others else id + 1;
      assert ids == (ids - {id}) + {id};
    }
  }

  lemma LandsIn(w: World, request: Request, id: Id)
    requires request in w.inflight && request.op in w.configs && id !in w.used && !NameTaken(w, request.name)
    ensures var n := Apply(w, Land(request.op, request.name, id)); n.Some? && !NoneLeft(n.value, request.op)
  {
    var n := Apply(w, Land(request.op, request.name, id)).value;
    assert id in n.containers && n.containers[id].owner == Some(request.op);
  }

  // Whoever holds the name may go.
  lemma NameFreed(w: World, name: Name) returns (other: Id)
    requires NamesUnique(w) && NameTaken(w, name)
    ensures other in w.containers && !NameTaken(w.(containers := w.containers - {other}), name)
  {
    other :| other in w.containers && w.containers[other].name == name;
    forall i | i in w.containers && i != other
      ensures w.containers[i].name != name
    {
    }
  }

  // Someone removes whatever holds a name.
  lemma HolderGoes(steps: seq<Step>, name: Name) returns (more: seq<Step>, left: map<Id, Container>)
    requires Run(steps).Some?
    ensures Run(steps + more) == Some(Run(steps).value.(containers := left))
            && (forall k :: 0 <= k < |more| ==> more[k].Vanish?)
    ensures !NameTaken(Run(steps).value.(containers := left), name)
    ensures forall id :: id in left ==> id in Run(steps).value.containers && left[id] == Run(steps).value.containers[id]
  {
    RunKeepsInv(steps);
    var w := Run(steps).value;
    more, left := [], w.containers;
    assert steps + more == steps;
    if NameTaken(w, name) {
      var other := NameFreed(w, name);
      more, left := [Vanish(other)], w.containers - {other};
      After(steps, Vanish(other));
    }
  }

  // Under a free name the create lands at once.
  lemma LandsAfter(steps: seq<Step>, request: Request, id: Id)
    requires Run(steps).Some?
    requires var w := Run(steps).value;
             request in w.inflight && request.op in w.configs && id !in w.used && !NameTaken(w, request.name)
    ensures var n := Run(steps + [Land(request.op, request.name, id)]); n.Some? && !NoneLeft(n.value, request.op)
  {
    After(steps, Land(request.op, request.name, id));
    LandsIn(Run(steps).value, request, id);
  }

  // A create in flight can still land: a container of the operation appears.
  lemma LandingAppears(steps: seq<Step>, op: Op) returns (more: seq<Step>)
    requires Run(steps).Some? && !NoFlight(Run(steps).value, op) && NoneLeft(Run(steps).value, op)
    ensures Run(steps + more).Some? && !NoneLeft(Run(steps + more).value, op)
  {
    var w := Run(steps).value;
    var request :| request in w.inflight && request.op == op;
    var id := Bound(w.used);
    var land := Land(op, request.name, id);
    var gone, left := HolderGoes(steps, request.name);
    RunKeepsInv(steps);
    assert FlightSound(w);
    LandsAfter(steps + gone, request, id);
    more := gone + [land];
    assert steps + more == (steps + gone) + [land];
  }

  // ---- When clean-up is final ---------------------------------------------------------

  // Clean-up of the operation may begin: its process is gone and its intent is complete.
  ghost predicate MayAbandon(w: World, op: Op) {
    && op in w.configs && op in w.phases && IntentComplete(w, op)
    && (w.phases[op].Stopped? || w.phases[op].Finished? || w.phases[op].Reconciled?)
  }

  function AbandonOf(c: Config, op: Op): Step {
    Abandon(op, c.transport, c.profile, c.input)
  }

  predicate Begins(s: Step, op: Op) {
    s.Abandon? && s.op == op
  }

  predicate NoneBegins(steps: seq<Step>, op: Op) {
    forall k :: 0 <= k < |steps| ==> !Begins(steps[k], op)
  }

  // The clean-up begun after `steps` returns at the end of `during`, in which no other begins.
  ghost predicate Returns(steps: seq<Step>, during: seq<Step>, op: Op) {
    && NoneBegins(during, op) && Run(steps + during).Some?
    && op in Run(steps + during).value.phases && Run(steps + during).value.phases[op].Reconciled?
  }

  // From here on no container of the operation is ever seen.
  ghost predicate NeverSeen(steps: seq<Step>, op: Op) {
    forall more :: Run(steps + more).Some? ==> NoneLeft(Run(steps + more).value, op)
  }

  // The clean-up under way, if it still is, began with this answer.
  predicate BeganQuiet(phase: Phase, quiet: bool) {
    match phase
    case Reconciling(_, q) => q == quiet
    case Removing(_, _, q) => q == quiet
    case Reconciled(q) => q == quiet
    case Stopped => true
    case _ => false
  }

  lemma StepKeepsQuiet(w: World, s: Step, op: Op, quiet: bool)
    requires Apply(w, s).Some? && op in w.configs && op in w.phases && BeganQuiet(w.phases[op], quiet) && !Begins(s, op)
    ensures var n := Apply(w, s).value; op in n.configs && op in n.phases && BeganQuiet(n.phases[op], quiet)
  {
    if Actor(s) != Some(op) {
      OthersKeepPhase(w, s, op);
    }
  }

  lemma OthersKeepPhase(w: World, s: Step, op: Op)
    requires Apply(w, s).Some? && op in w.configs && op in w.phases && Actor(s) != Some(op)
    ensures var n := Apply(w, s).value; op in n.configs && op in n.phases && n.phases[op] == w.phases[op]
  {
  }

  lemma {:induction false} RunKeepsQuiet(steps: seq<Step>, during: seq<Step>, op: Op, quiet: bool)
    requires Run(steps).Some? && Run(steps + during).Some? && NoneBegins(during, op)
    requires var w := Run(steps).value; op in w.configs && op in w.phases && BeganQuiet(w.phases[op], quiet)
    ensures var n := Run(steps + during).value; op in n.configs && op in n.phases && BeganQuiet(n.phases[op], quiet)
    decreases |during|
  {
    if |during| == 0 {
      assert steps + during == steps;
    } else {
      var prefix, last := during[..|during| - 1], during[|during| - 1];
      assert steps + during == (steps + prefix) + [last];
      After(steps + prefix, last);
      RunKeepsQuiet(steps, prefix, op, quiet);
      StepKeepsQuiet(Run(steps + prefix).value, last, op, quiet);
    }
  }

  lemma QuietIsFinal(steps: seq<Step>, op: Op)
    requires Run(steps).Some? && At(Run(steps).value, op, Reconciled(true))
    ensures NeverSeen(steps, op)
  {
    AbandonLeavesNone(steps, op);
    forall more | Run(steps + more).Some?
      ensures NoneLeft(Run(steps + more).value, op)
    {
      GoneForGood(steps, more, op);
    }
  }

  // A clean-up that dealt with `next` names and has `left` to go.
  ghost predicate UnderWay(w: World, op: Op, next: nat, left: nat, quiet: bool) {
    && op in w.configs && |Names(op, w.configs[op].transport)| == next + left
    && At(w, op, Reconciling(next, quiet)) && Cleared(w, op, next)
  }

  ghost predicate ReturnedClear(w: World, op: Op, quiet: bool, inflight: set<Request>) {
    At(w, op, Reconciled(quiet)) && NoneLeft(w, op) && w.inflight == inflight
  }

  ghost predicate ReturnsFrom(steps: seq<Step>, during: seq<Step>, op: Op, quiet: bool) {
    && Run(steps).Some? && NoneBegins(during, op) && Run(steps + during).Some?
    && ReturnedClear(Run(steps + during).value, op, quiet, Run(steps).value.inflight)
  }

  // A clean-up under way can find every name free and return, whatever is still in flight.
  lemma {:induction false} CleanUpReturns(steps: seq<Step>, op: Op, next: nat, left: nat, quiet: bool)
    returns (during: seq<Step>)
    requires Run(steps).Some? && UnderWay(Run(steps).value, op, next, left, quiet)
    ensures ReturnsFrom(steps, during, op, quiet)
    decreases left
  {
    if left == 0 {
      Concludes(steps, op, next, quiet);
      during := [Conclude(op)];
    } else {
      var first := NameIsSkipped(steps, op, next, left, quiet);
      var rest := CleanUpReturns(steps + first, op, next + 1, left - 1, quiet);
      StillReturns(steps, first, rest, op, quiet);
      during := first + rest;
    }
  }

  lemma StillReturns(steps: seq<Step>, first: seq<Step>, rest: seq<Step>, op: Op, quiet: bool)
    requires Run(steps).Some? && NoneBegins(first, op) && ReturnsFrom(steps + first, rest, op, quiet)
    requires Run(steps + first).value.inflight == Run(steps).value.inflight
    ensures ReturnsFrom(steps, first + rest, op, quiet)
  {
    assert steps + (first + rest) == (steps + first) + rest;
  }

  lemma Concludes(steps: seq<Step>, op: Op, next: nat, quiet: bool)
    requires Run(steps).Some? && UnderWay(Run(steps).value, op, next, 0, quiet)
    ensures ReturnsFrom(steps, [Conclude(op)], op, quiet)
  {
    RunKeepsInv(steps);
    ClearedLeavesNone(Run(steps).value, op);
    After(steps, Conclude(op));
  }

  lemma ClearedLeavesNone(w: World, op: Op)
    requires Inv(w) && op in w.configs && Cleared(w, op, |Names(op, w.configs[op].transport)|)
    ensures NoneLeft(w, op)
  {
  }

  // One name: its holder goes, and the query finds nothing.
  lemma NameIsSkipped(steps: seq<Step>, op: Op, next: nat, left: nat, quiet: bool) returns (first: seq<Step>)
    requires Run(steps).Some? && left > 0 && UnderWay(Run(steps).value, op, next, left, quiet)
    ensures NoneBegins(first, op) && Run(steps + first).Some?
    ensures var w, n := Run(steps).value, Run(steps + first).value;
            n.inflight == w.inflight && UnderWay(n, op, next + 1, left - 1, quiet)
  {
    var w := Run(steps).value;
    var name := Names(op, w.configs[op].transport)[next];
    var gone, others := HolderGoes(steps, name);
    var freed := w.(containers := others);
    After(steps + gone, Query(op, None));
    first := gone + [Query(op, None)];
    assert steps + first == (steps + gone) + [Query(op, None)];
    assert Queried(freed, op, None) == Some(To(freed, op, Reconciling(next + 1, quiet)));
    FreedIsCleared(w, freed, op, next);
  }

  lemma FreedIsCleared(w: World, freed: World, op: Op, next: nat)
    requires op in w.configs && freed.configs == w.configs && next < |Names(op, w.configs[op].transport)|
             && Cleared(w, op, next)
    requires !NameTaken(freed, Names(op, w.configs[op].transport)[next])
    requires forall id :: id in freed.containers ==> id in w.containers && freed.containers[id] == w.containers[id]
    ensures Cleared(freed, op, next + 1)
  {
  }

  lemma FlightIsNotFinal(steps: seq<Step>, op: Op)
    requires Run(steps).Some? && !NoFlight(Run(steps).value, op) && NoneLeft(Run(steps).value, op)
    ensures !NeverSeen(steps, op)
  {
    var more := LandingAppears(steps, op);
  }

  // Decided before the call: a clean-up that begins now, whenever and however it returns, leaves no
  // container of the operation for good if and only if none of its creates is in flight now.
  lemma AbandonIsFinalIff(steps: seq<Step>, op: Op)
    requires Run(steps).Some? && MayAbandon(Run(steps).value, op)
    ensures var w := Run(steps).value;
            var begun := steps + [AbandonOf(w.configs[op], op)];
            && Run(begun).Some?
            && ((forall during :: Returns(begun, during, op) ==> NeverSeen(begun + during, op)) <==> NoFlight(w, op))
  {
    var w := Run(steps).value;
    var begin := AbandonOf(w.configs[op], op);
    var begun := steps + [begin];
    After(steps, begin);
    var quiet := NoFlight(w, op);
    assert Apply(w, begin) == Some(To(w, op, Reconciling(0, quiet)));
    if quiet {
      forall during | Returns(begun, during, op)
        ensures NeverSeen(begun + during, op)
      {
        RunKeepsQuiet(begun, during, op, true);
        QuietIsFinal(begun + during, op);
      }
    } else {
      var during := CleanUpReturns(begun, op, 0, |Names(op, w.configs[op].transport)|, false);
      assert Returns(begun, during, op);
      FlightIsNotFinal(begun + during, op);
    }
  }

  // A process dies with its one create in flight.
  lemma DiedCreating(op: Op, config: Config) returns (steps: seq<Step>)
    requires !config.transport
    ensures Run(steps).Some?
    ensures var w := Run(steps).value;
            && At(w, op, Stopped) && op in w.configs && w.configs[op] == config && w.containers == map[]
            && op in w.intents && w.intents[op] == Complete(op, false, config.profile, config.input)
            && w.inflight == {Request(op, Main(op))}
  {
    var a := [] + [Start(op, config)];
    After([], Start(op, config));
    var b := a + [WriteIntent(op, false)];
    After(a, WriteIntent(op, false));
    steps := b + [LoseCreate(op, Main(op))];
    After(b, LoseCreate(op, Main(op)));
  }

  // A run in which abandon returns normally over a create that is still in flight.
  lemma LateCreateOutlivesAbandon(op: Op, config: Config) returns (steps: seq<Step>, more: seq<Step>)
    requires !config.transport
    ensures Run(steps).Some? && At(Run(steps).value, op, Reconciled(false)) && NoneLeft(Run(steps).value, op)
    ensures Run(steps + more).Some? && !NoneLeft(Run(steps + more).value, op)
  {
    var c := DiedCreating(op, config);
    var w := Run(c).value;
    assert Request(op, Main(op)) in w.inflight && !NoFlight(w, op);
    var begin := Abandon(op, false, config.profile, config.input);
    After(c, begin);
    assert Apply(w, begin) == Some(To(w, op, Reconciling(0, false)));
    var d := c + [begin];
    After(d, Query(op, None));
    var e := d + [Query(op, None)];
    assert At(Run(e).value, op, Reconciling(1, false)) && Run(e).value.containers == map[]
           && Run(e).value.inflight == w.inflight;
    After(e, Conclude(op));
    steps := e + [Conclude(op)];
    assert At(Run(steps).value, op, Reconciled(false)) && Run(steps).value.containers == map[];
    assert Request(op, Main(op)) in Run(steps).value.inflight;
    more := LandingAppears(steps, op);
  }

  // ---- The two procedures, call by call -----------------------------------------------

  // What one operation may have left behind: labelled containers under its reserved names only,
  // at most one a name.
  ghost predicate Reserved(containers: map<Id, Container>, op: Op, transport: bool) {
    && (forall id :: id in containers && containers[id].owner == Some(op) ==>
          containers[id].name in Names(op, transport))
    && (forall i, j :: i in containers && j in containers && containers[i].name == containers[j].name ==> i == j)
  }

  // The invariant of the transition system gives it for every operation with an intent.
  lemma OwnedIsReserved(w: World, op: Op)
    requires Inv(w) && op in w.configs
    ensures Reserved(w.containers, op, w.configs[op].transport)
  {
  }

  function Without(containers: map<Id, Container>, op: Op): map<Id, Container> {
    map id | id in containers && containers[id].owner != Some(op) :: containers[id]
  }

  // Only containers of the operation disappeared, and nothing appeared.
  ghost predicate Shrunk(before: map<Id, Container>, after: map<Id, Container>, op: Op) {
    && (forall id :: id in after ==> id in before && after[id] == before[id])
    && (forall id :: id in before && before[id].owner != Some(op) ==> id in after)
  }

  ghost predicate NameFree(containers: map<Id, Container>, op: Op, name: Name) {
    forall id :: id in containers && containers[id].owner == Some(op) ==> containers[id].name != name
  }

  lemma AllNamesFree(containers: map<Id, Container>, op: Op, transport: bool)
    requires Reserved(containers, op, transport)
    requires forall j :: 0 <= j < |Names(op, transport)| ==> NameFree(containers, op, Names(op, transport)[j])
    ensures forall id :: id in containers ==> containers[id].owner != Some(op)
  {
  }

  lemma ShrunkToNothing(before: map<Id, Container>, after: map<Id, Container>, op: Op)
    requires Shrunk(before, after, op) && forall id :: id in after ==> after[id].owner != Some(op)
    ensures after == Without(before, op)
  {
  }

  // Every container under a reserved name is the operation's own, made from its image.
  ghost predicate Identified(containers: map<Id, Container>, op: Op, config: Config) {
    forall id :: id in containers && containers[id].name in Names(op, config.transport) ==>
      containers[id].owner == Some(op) && containers[id].image == config.image
  }

  ghost predicate Holds(containers: map<Id, Container>, name: Name) {
    exists id :: id in containers && containers[id].name == name
  }

  // Some container has the name without being the operation's own, made from its image.
  ghost predicate Occupied(containers: map<Id, Container>, op: Op, config: Config, name: Name) {
    exists id :: id in containers && containers[id].name == name &&
                 (containers[id].owner != Some(op) || containers[id].image != config.image)
  }

  const CLEAN := Call(true, true)

  // How one daemon call ends: did it take effect, and did the answer arrive.
  datatype Call = Call(effective: bool, answered: bool)

  class Daemon {
    var containers: map<Id, Container>

    // At most one container has a name; an unanswered query raises in the caller.
    method Query(name: Name) returns (found: Option<Id>)
      ensures found.None? <==> forall id :: id in containers ==> containers[id].name != name
      ensures found.Some? ==> found.value in containers && containers[found.value].name == name
    {
      if exists id :: id in containers && containers[id].name == name {
        var id :| id in containers && containers[id].name == name;
        return Some(id);
      }
      return None;
    }

    method Create(id: Id, c: Container, call: Call) returns (r: Option<Id>)
      requires id !in containers
      modifies this
      ensures var taken := exists i :: i in old(containers) && old(containers)[i].name == c.name;
              && containers == (if call.effective && !taken then old(containers)[id := c] else old(containers))
              && (r.Some? <==> call.effective && !taken && call.answered) && (r.Some? ==> r.value == id)
    {
      var taken := exists i :: i in containers && containers[i].name == c.name;
      if call.effective && !taken {
        containers := containers[id := c];
        return if call.answered then Some(id) else None;
      }
      return None;
    }

    method Remove(id: Id, call: Call) returns (ok: bool)
      modifies this
      ensures containers == if call.effective then old(containers) - {id} else old(containers)
      ensures ok <==> call.effective && call.answered
    {
      if call.effective {
        containers := containers - {id};
      }
      return call.effective && call.answered;
    }

    // One reserved name: whatever carries it is removed once its identity is confirmed.
    method ReleaseName(op: Op, config: Config, name: Name, queried: bool, removal: Call) returns (r: Result<()>)
      requires Reserved(containers, op, config.transport)
      modifies this
      ensures Shrunk(old(containers), containers, op) && Reserved(containers, op, config.transport)
      ensures r.Ok? ==> NameFree(containers, op, name)
      ensures queried && removal == CLEAN && name in Names(op, config.transport) &&
              Identified(old(containers), op, config) ==>
              r.Ok?
      // Unanswered, or over a container that is not the operation's own: refused, nothing removed.
      ensures !queried || Occupied(old(containers), op, config, name) ==> r.Err? && containers == old(containers)
      // Nobody has the name: done. Its own container: removed if the call takes effect.
      ensures queried && !Holds(old(containers), name) ==> r.Ok? && containers == old(containers)
      ensures forall id :: id in old(containers) && old(containers)[id] == Container(name, config.image, Some(op)) ==>
                queried ==>
                containers == (if removal.effective then old(containers) - {id} else old(containers)) &&
                (r.Ok? <==> removal == CLEAN)
    {
      if !queried {
        return Err("runtime_reconciliation_query_failed");
      }
      var found := Query(name);
      if found.Some? {
        // Never remove by name alone: the identity must be this operation's.
        if containers[found.value] != Container(name, config.image, Some(op)) {
          return Err("runtime_reconciliation_identity_mismatch");
        }
        var removed := Remove(found.value, removal);
        if !removed {
          return Err("owned_container_cleanup_requires_reconciliation");
        }
      }
      return Ok(());
    }

    // The loop over the reserved names. `queries` and `removals` say how each call ends.
    method AbandonOperation(op: Op, config: Config, intent: Option<Intent>, queries: seq<bool>, removals: seq<Call>)
      returns (r: Result<()>)
      requires Reserved(containers, op, config.transport) && |queries| == |removals| == 2
      modifies this
      ensures Shrunk(old(containers), containers, op)
      ensures r.Ok? ==> containers == Without(old(containers), op)
      ensures (exists name :: name in Names(op, config.transport) && Occupied(old(containers), op, config, name)) ==>
              r.Err?
      ensures (&& intent == Some(Complete(op, config.transport, config.profile, config.input))
               && (forall k :: 0 <= k < 2 ==> queries[k] && removals[k] == CLEAN)
               && Identified(old(containers), op, config)) ==> r.Ok?
      ensures intent != Some(Complete(op, config.transport, config.profile, config.input)) ==>
              r.Err? && containers == old(containers)
    {
      if intent != Some(Complete(op, config.transport, config.profile, config.input)) {
        return Err("runtime_intent_binding_invalid");
      }
      var names := Names(op, config.transport);
      for k := 0 to |names|
        invariant Shrunk(old(containers), containers, op) && Reserved(containers, op, config.transport)
        invariant forall j :: 0 <= j < k ==> NameFree(containers, op, names[j])
        invariant forall j :: 0 <= j < k ==> !Occupied(old(containers), op, config, names[j])
        invariant forall j :: k <= j < |names| && Occupied(old(containers), op, config, names[j]) ==>
                    Occupied(containers, op, config, names[j])
      {
        r := ReleaseName(op, config, names[k], queries[k], removals[k]);
        if r.Err? {
          return;
        }
      }
      AllNamesFree(containers, op, config.transport);
      ShrunkToNothing(old(containers), containers, op);
      return Ok(());
    }

    // Create, start, and in every case that receives the id, also a failed start, remove it again.
    // A process that dies in between skips the removal.
    method RunContainer(op: Op, name: Name, image: Digest, id: Id, create: Call, dies: bool, starts: bool, remove: Call)
      returns (r: Result<()>)
      requires id !in containers && Without(containers, op) == containers
      modifies this
      ensures Without(containers, op) == old(containers)
      ensures r.Ok? ==> containers == old(containers)
      ensures forall i :: i in containers && containers[i].owner == Some(op) ==> containers[i].name == name && i == id
      ensures r.Ok? ==> starts
      // Exactly what is left: the container, if it was created and its removal had no effect.
      ensures var created := create.effective && !Holds(old(containers), name);
              && containers == (if created && !(create.answered && !dies && remove.effective)
                                then old(containers)[id := Container(name, image, Some(op))] else old(containers))
              && (r.Ok? <==> created && create.answered && !dies && remove == CLEAN && starts)
      ensures (create.answered || !create.effective) && !dies && remove == CLEAN ==> containers == old(containers)
      ensures (&& create == CLEAN && !dies && starts && remove == CLEAN
               && (forall i :: i in old(containers) ==> old(containers)[i].name != name)) ==> r.Ok?
    {
      var received := Create(id, Container(name, image, Some(op)), create);
      assert Without(containers, op) == old(containers);
      if received.None? {
        return Err("container_creation_failed");
      }
      if dies {
        return Err("process died");
      }
      var removed := Remove(received.value, remove);
      assert removed ==> containers == old(containers);
      if !removed {
        return Err("owned_container_cleanup_requires_reconciliation");
      }
      return if starts then Ok(()) else Err("isolated_runner_failed");
    }
  }
}
