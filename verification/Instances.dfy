/** Worker passes and the hourly ticker, interleaved call by call around `instances` and its lock. */
module Instances {

  datatype Request = Request(namespace: string, name: string)

  /** Where a thread stands in Reconcile or in the ticker. */
  datatype Pc =
    | Idle
    | Snapshotting                 // the ticker, holding the lock
    | Found(req: Request)          // Get returned the resource
    | Registering(req: Request)    // holding the lock
    | Registered(req: Request)     // the lock is free again; nothing created yet
    | RoleMade(req: Request)
    | Missing(req: Request)        // Get returned NotFound
    | Unregistering(req: Request)  // holding the lock
    | DroppingBinding(req: Request)
    | DroppingRole(req: Request)

  /** queue is what is left of the ticker's snapshot. */
  datatype Thread = Thread(pc: Pc, queue: seq<Request>)

  type ThreadId = nat

  datatype State = State(
    live: set<Request>,            // the resources in the API server
    instances: set<Request>,
    holder: set<ThreadId>,         // who holds instancesLock
    roles: set<string>,
    bindings: set<string>,
    threads: map<ThreadId, Thread>)

  datatype Action =
    | CreateResource(req: Request)
    | DeleteResource(req: Request)
    | Reconcile(t: ThreadId, req: Request)
    | ReconcileNext(t: ThreadId)
    | LockForSnapshot(t: ThreadId)
    | Snapshot(t: ThreadId, keys: seq<Request>)
    | LockToRegister(t: ThreadId)
    | Register(t: ThreadId)
    | MakeRole(t: ThreadId, ok: bool)
    | MakeBinding(t: ThreadId, ok: bool)
    | LockToUnregister(t: ThreadId)
    | Unregister(t: ThreadId)
    | DropBinding(t: ThreadId)
    | DropRole(t: ThreadId)

  function RoleName(req: Request): string { req.name + "-cluster-agent" }

  const Start: State := State({}, {}, {}, {}, {}, map[])

  function At(s: State, t: ThreadId): Thread {
    if t in s.threads then s.threads[t] else Thread(Idle, [])
  }

  function Goto(s: State, t: ThreadId, pc: Pc): State {
    s.(threads := s.threads[t := At(s, t).(pc := pc)])
  }

  function Fetch(s: State, t: ThreadId, req: Request): State {
    Goto(s, t, if req in s.live then Found(req) else Missing(req))
  }

  predicate Lists(keys: seq<Request>, set_: set<Request>) {
    (forall r | r in keys :: r in set_) && (forall r | r in set_ :: r in keys)
  }

  /** One step of one thread, or of the outside world; an action that is not possible does nothing. */
  function Do(s: State, a: Action): State {
    match a
    case CreateResource(req) => s.(live := s.live + {req})
    case DeleteResource(req) => s.(live := s.live - {req})
    case Reconcile(t, req) =>
      if At(s, t) == Thread(Idle, []) then Fetch(s, t, req) else s
    case ReconcileNext(t) =>
      var thread := At(s, t);
      if thread.pc.Idle? && thread.queue != [] then
        Fetch(s.(threads := s.threads[t := Thread(Idle, thread.queue[1..])]), t, thread.queue[0])
      else s
    case LockForSnapshot(t) =>
      if At(s, t) == Thread(Idle, []) && s.holder == {} then Goto(s, t, Snapshotting).(holder := {t}) else s
    case Snapshot(t, keys) =>
      if At(s, t).pc.Snapshotting? && Lists(keys, s.instances) then
        s.(threads := s.threads[t := Thread(Idle, keys)], holder := {})
      else s
    case LockToRegister(t) =>
      if At(s, t).pc.Found? && s.holder == {} then Goto(s, t, Registering(At(s, t).pc.req)).(holder := {t}) else s
    case Register(t) =>
      if At(s, t).pc.Registering? then
        var req := At(s, t).pc.req;
        Goto(s, t, Registered(req)).(instances := s.instances + {req}, holder := {})
      else s
    case MakeRole(t, ok) =>
      if At(s, t).pc.Registered? then
        var req := At(s, t).pc.req;
        Goto(s, t, RoleMade(req)).(roles := s.roles + if ok then {RoleName(req)} else {})
      else s
    case MakeBinding(t, ok) =>
      if At(s, t).pc.RoleMade? then
        var req := At(s, t).pc.req;
        Goto(s, t, Idle).(bindings := s.bindings + if ok then {RoleName(req)} else {})
      else s
    case LockToUnregister(t) =>
      if At(s, t).pc.Missing? && s.holder == {} then Goto(s, t, Unregistering(At(s, t).pc.req)).(holder := {t}) else s
    case Unregister(t) =>
      if At(s, t).pc.Unregistering? then
        var req := At(s, t).pc.req;
        var left := s.instances - {req};
        if left == {} then Goto(s, t, DroppingBinding(req)).(instances := left)
        else Goto(s, t, Idle).(instances := left, holder := {})
      else s
    case DropBinding(t) =>
      if At(s, t).pc.DroppingBinding? then
        var req := At(s, t).pc.req;
        Goto(s, t, DroppingRole(req)).(bindings := s.bindings - {RoleName(req)})
      else s
    case DropRole(t) =>
      if At(s, t).pc.DroppingRole? then
        var req := At(s, t).pc.req;
        Goto(s, t, Idle).(roles := s.roles - {RoleName(req)}, holder := {})
      else s
  }

  /** The state after a schedule. */
  function Run(s: State, schedule: seq<Action>): State {
    if schedule == [] then s else Do(Run(s, schedule[..|schedule| - 1]), schedule[|schedule| - 1])
  }

  predicate HoldsLock(pc: Pc) {
    pc.Snapshotting? || pc.Registering? || pc.Unregistering? || pc.DroppingBinding? || pc.DroppingRole?
  }

  /** The lock is exclusive and held exactly in the locked sections, and whoever is deleting cluster
      roles found `instances` empty and still does. */
  ghost predicate Inv(s: State) {
    && (forall t: ThreadId :: HoldsLock(At(s, t).pc) <==> t in s.holder)
    && (forall t, u | t in s.holder && u in s.holder :: t == u)
    && (forall t: ThreadId :: At(s, t).pc.DroppingBinding? || At(s, t).pc.DroppingRole? ==> s.instances == {})
  }

  lemma StepKeepsInv(s: State, a: Action)
    requires Inv(s)
    ensures Inv(Do(s, a))
  {
    var s' := Do(s, a);
    forall t: ThreadId ensures HoldsLock(At(s', t).pc) <==> t in s'.holder {
      assert HoldsLock(At(s, t).pc) <==> t in s.holder;
    }
    forall t: ThreadId ensures At(s', t).pc.DroppingBinding? || At(s', t).pc.DroppingRole? ==> s'.instances == {} {
      assert HoldsLock(At(s, t).pc) <==> t in s.holder;
    }
  }

  lemma {:induction false} ReachableInv(schedule: seq<Action>)
    ensures Inv(Run(Start, schedule))
    decreases |schedule|
  {
    if schedule != [] {
      ReachableInv(schedule[..|schedule| - 1]);
      StepKeepsInv(Run(Start, schedule[..|schedule| - 1]), schedule[|schedule| - 1]);
    }
  }

  /** Cluster roles and bindings disappear only in states where no instance is registered. */
  lemma DeletedOnlyWhenEmpty(schedule: seq<Action>, a: Action)
    ensures var s := Run(Start, schedule);
            !(s.roles <= Do(s, a).roles && s.bindings <= Do(s, a).bindings) ==> s.instances == {}
  {
    ReachableInv(schedule);
    var s := Run(Start, schedule);
    if a.DropRole? || a.DropBinding? {
      assert At(s, a.t).pc.DroppingBinding? || At(s, a.t).pc.DroppingRole? ==> s.instances == {};
    }
  }

  // Who is registered.

  /** The step registers req: its thread has come to the statement that does. */
  predicate Registers(s: State, a: Action, req: Request) { a.Register? && At(s, a.t).pc == Registering(req) }

  predicate Unregisters(s: State, a: Action, req: Request) { a.Unregister? && At(s, a.t).pc == Unregistering(req) }

  /** Step i of a schedule registers req, and none from there on unregisters it. */
  predicate RegisteredAt(schedule: seq<Action>, i: nat, req: Request) {
    && i < |schedule| && Registers(Run(Start, schedule[..i]), schedule[i], req)
    && forall j | i <= j < |schedule| :: !Unregisters(Run(Start, schedule[..j]), schedule[j], req)
  }

  lemma LastStep(schedule: seq<Action>, i: nat)
    requires i < |schedule|
    ensures Run(Start, schedule[..i + 1]) == Do(Run(Start, schedule[..i]), schedule[i])
  {
    assert schedule[..i + 1][..i] == schedule[..i];
  }

  /** What any step does to one entry of `instances`. */
  lemma StepOnInstances(s: State, a: Action, req: Request)
    ensures req in Do(s, a).instances <==> Registers(s, a, req) || (req in s.instances && !Unregisters(s, a, req))
  {
  }

  /** In every schedule: a request is in `instances` if and only if it has been registered and not been
      unregistered since. */
  lemma {:induction false} RegisteredIff(schedule: seq<Action>, req: Request)
    ensures req in Run(Start, schedule).instances <==> exists i: nat :: RegisteredAt(schedule, i, req)
    decreases |schedule|
  {
    hide Do, Run, Registers, Unregisters;
    if schedule == [] {
      NobodyYet(req);
    } else {
      var n := |schedule| - 1;
      var prior, a := schedule[..n], schedule[n];
      RegisteredIff(prior, req);
      LastStep(schedule, n);
      assert schedule[..n + 1] == schedule;
      StepOnInstances(Run(Start, prior), a, req);
      if Registers(Run(Start, prior), a, req) {
        NotBoth(Run(Start, prior), a, req);
        assert RegisteredAt(schedule, n, req);
      } else if !Unregisters(Run(Start, prior), a, req) {
        OneMoreStep(schedule, req);
        assert forall i: nat :: RegisteredAt(prior, i, req) <==> RegisteredAt(schedule, i, req);
      } else {
        forall i: nat ensures !RegisteredAt(schedule, i, req) {
          assert Unregisters(Run(Start, schedule[..n]), schedule[n], req);
        }
      }
    }
  }

  lemma NobodyYet(req: Request)
    ensures req !in Run(Start, []).instances
  {
  }

  lemma NotBoth(s: State, a: Action, req: Request)
    ensures !(Registers(s, a, req) && Unregisters(s, a, req))
  {
  }

  lemma OneMoreStep(schedule: seq<Action>, req: Request)
    requires schedule != []
    requires var n := |schedule| - 1;
             var s := Run(Start, schedule[..n]);
             !Registers(s, schedule[n], req) && !Unregisters(s, schedule[n], req)
    ensures forall i: nat :: RegisteredAt(schedule[..|schedule| - 1], i, req) <==> RegisteredAt(schedule, i, req)
  {
    hide Registers, Unregisters, Run;
    var prior := schedule[..|schedule| - 1];
    forall i: nat ensures RegisteredAt(prior, i, req) <==> RegisteredAt(schedule, i, req) {
      assert forall j | 0 <= j < |prior| :: prior[j] == schedule[j] && prior[..j] == schedule[..j];
    }
  }

  lemma RegisteredSoFar(schedule: seq<Action>, i: nat, k: nat, req: Request)
    requires RegisteredAt(schedule, i, req) && i < k <= |schedule|
    ensures req in Run(Start, schedule[..k]).instances
  {
    hide Registers, Unregisters, Run;
    var prior := schedule[..k];
    assert forall j | 0 <= j < |prior| :: prior[j] == schedule[j] && prior[..j] == schedule[..j];
    assert RegisteredAt(prior, i, req);
    RegisteredIff(prior, req);
  }

  /** While anybody stays registered, no cluster role or binding is lost, in any schedule. */
  lemma {:induction false} RolesStay(schedule: seq<Action>, i: nat, k: nat, req: Request)
    requires RegisteredAt(schedule, i, req) && i < k <= |schedule|
    ensures Run(Start, schedule[..k]).roles <= Run(Start, schedule).roles
    ensures Run(Start, schedule[..k]).bindings <= Run(Start, schedule).bindings
    decreases |schedule| - k
  {
    hide Do, Run, RegisteredAt;
    if k == |schedule| {
      assert schedule[..k] == schedule;
    } else {
      RegisteredIsInRange(schedule, i, req);
      RegisteredSoFar(schedule, i, k, req);
      LastStep(schedule, k);
      DeletedOnlyWhenEmpty(schedule[..k], schedule[k]);
      RolesStay(schedule, i, k + 1, req);
    }
  }

  lemma RegisteredIsInRange(schedule: seq<Action>, i: nat, req: Request)
    requires RegisteredAt(schedule, i, req)
    ensures i < |schedule|
  {
  }

  /** Step j makes the cluster role of req, or its binding. */
  predicate MakesRole(s: State, a: Action, req: Request) { a.MakeRole? && a.ok && At(s, a.t).pc == Registered(req) }

  predicate MakesBinding(s: State, a: Action, req: Request) { a.MakeBinding? && a.ok && At(s, a.t).pc == RoleMade(req) }

  lemma StepMakes(s: State, a: Action, req: Request)
    ensures MakesRole(s, a, req) ==> RoleName(req) in Do(s, a).roles
    ensures MakesBinding(s, a, req) ==> RoleName(req) in Do(s, a).bindings
  {
  }

  /** Main result, for every schedule: an instance that is registered and not unregistered again keeps
      the role and the binding that any pass over it has made since, whatever workers, the ticker and
      deletions of other resources, same-named ones included, do meanwhile. */
  lemma RegisteredInstanceKeepsItsRole(schedule: seq<Action>, i: nat, j: nat, req: Request)
    requires RegisteredAt(schedule, i, req) && i < j < |schedule|
    ensures MakesRole(Run(Start, schedule[..j]), schedule[j], req) ==> RoleName(req) in Run(Start, schedule).roles
    ensures MakesBinding(Run(Start, schedule[..j]), schedule[j], req) ==> RoleName(req) in Run(Start, schedule).bindings
  {
    hide Do, Run, Registers, Unregisters;
    LastStep(schedule, j);
    StepMakes(Run(Start, schedule[..j]), schedule[j], req);
    RolesStay(schedule, i, j + 1, req);
  }

  // One thread alone.

  /** The steps of a whole pass of one thread over a resource that is there, and over one that is not;
      the first of them takes the request up. */
  function WholePass(first: Action, t: ThreadId): seq<Action> {
    [first, LockToRegister(t), Register(t), MakeRole(t, true), MakeBinding(t, true)]
  }

  function WholeRemoval(first: Action, t: ThreadId): seq<Action> {
    [first, LockToUnregister(t), Unregister(t), DropBinding(t), DropRole(t)]
  }

  /** A free thread takes up a request: a worker any, the ticker the next of its queue. */
  predicate TakesUp(s: State, first: Action, t: ThreadId, req: Request, rest: seq<Request>) {
    || (first == Reconcile(t, req) && At(s, t) == Thread(Idle, []) && rest == [])
    || (first == ReconcileNext(t) && At(s, t) == Thread(Idle, [req] + rest))
  }

  lemma {:induction false} RunCons(s: State, a: Action, rest: seq<Action>)
    ensures Run(s, [a] + rest) == Run(Do(s, a), rest)
    decreases |rest|
  {
    hide Do;
    if rest == [] {
      assert [a] + rest == [a] && [a][..0] == [];
    } else {
      RunCons(s, a, rest[..|rest| - 1]);
      assert ([a] + rest)[..|[a] + rest| - 1] == [a] + rest[..|rest| - 1];
    }
  }

  lemma RunFive(s: State, a: Action, b: Action, c: Action, d: Action, e: Action)
    ensures Run(s, [a, b, c, d, e]) == Do(Do(Do(Do(Do(s, a), b), c), d), e)
  {
    hide Do;
    RunCons(s, a, [b, c, d, e]);
    RunCons(Do(s, a), b, [c, d, e]);
    RunCons(Do(Do(s, a), b), c, [d, e]);
    RunCons(Do(Do(Do(s, a), b), c), d, [e]);
    RunCons(Do(Do(Do(Do(s, a), b), c), d), e, []);
    assert [a, b, c, d, e] == [a] + [b, c, d, e] && [b, c, d, e] == [b] + [c, d, e];
    assert [c, d, e] == [c] + [d, e] && [d, e] == [d] + [e] && [e] == [e] + [];
  }

  lemma Taken(s: State, first: Action, t: ThreadId, req: Request, rest: seq<Request>)
    requires TakesUp(s, first, t, req, rest)
    ensures var s' := Do(s, first);
            && s' == s.(threads := s'.threads)
            && At(s', t) == Thread(if req in s.live then Found(req) else Missing(req), rest)
            && forall u: ThreadId | u != t :: At(s', u) == At(s, u)
  {
    assert ([req] + rest)[1..] == rest;
  }

  /** Left alone, a pass registers its resource and makes its role and binding, and changes nothing else. */
  lemma WholePassEnds(s: State, first: Action, t: ThreadId, req: Request, rest: seq<Request>)
    requires s.holder == {} && TakesUp(s, first, t, req, rest) && req in s.live
    ensures var end := Run(s, WholePass(first, t));
            && end.live == s.live && end.holder == {} && At(end, t) == Thread(Idle, rest)
            && end.instances == s.instances + {req}
            && end.roles == s.roles + {RoleName(req)} && end.bindings == s.bindings + {RoleName(req)}
            && forall u: ThreadId | u != t :: At(end, u) == At(s, u)
  {
    RunFive(s, first, LockToRegister(t), Register(t), MakeRole(t, true), MakeBinding(t, true));
    Taken(s, first, t, req, rest);
    PassEnds(Do(s, first), t, req, rest);
  }

  lemma PassEnds(s: State, t: ThreadId, req: Request, rest: seq<Request>)
    requires s.holder == {} && At(s, t) == Thread(Found(req), rest)
    ensures var end := Do(Do(Do(Do(s, LockToRegister(t)), Register(t)), MakeRole(t, true)), MakeBinding(t, true));
            && end.live == s.live && end.holder == {} && At(end, t) == Thread(Idle, rest)
            && end.instances == s.instances + {req}
            && end.roles == s.roles + {RoleName(req)} && end.bindings == s.bindings + {RoleName(req)}
            && forall u: ThreadId | u != t :: At(end, u) == At(s, u)
  {
  }

  /** ... and one over a resource that is gone unregisters it, and takes role and binding along if nobody
      is left. */
  lemma WholeRemovalEnds(s: State, first: Action, t: ThreadId, req: Request, rest: seq<Request>)
    requires s.holder == {} && TakesUp(s, first, t, req, rest) && req !in s.live
    ensures var end := Run(s, WholeRemoval(first, t));
            && end.live == s.live && end.holder == {} && At(end, t) == Thread(Idle, rest)
            && end.instances == s.instances - {req}
            && end.roles == s.roles - (if end.instances == {} then {RoleName(req)} else {})
            && end.bindings == s.bindings - (if end.instances == {} then {RoleName(req)} else {})
            && forall u: ThreadId | u != t :: At(end, u) == At(s, u)
  {
    RunFive(s, first, LockToUnregister(t), Unregister(t), DropBinding(t), DropRole(t));
    Taken(s, first, t, req, rest);
    var locked := Do(Do(s, first), LockToUnregister(t));
    assert locked.(threads := s.threads, holder := s.holder) == s;
    assert At(locked, t) == Thread(Unregistering(req), rest) && forall u: ThreadId | u != t :: At(locked, u) == At(s, u);
    RemovalEnds(locked, t, req, rest);
  }

  lemma RemovalEnds(s: State, t: ThreadId, req: Request, rest: seq<Request>)
    requires At(s, t) == Thread(Unregistering(req), rest)
    ensures var end := Do(Do(Do(s, Unregister(t)), DropBinding(t)), DropRole(t));
            && end.live == s.live && end.holder == {} && At(end, t) == Thread(Idle, rest)
            && end.instances == s.instances - {req}
            && end.roles == s.roles - (if end.instances == {} then {RoleName(req)} else {})
            && end.bindings == s.bindings - (if end.instances == {} then {RoleName(req)} else {})
            && forall u: ThreadId | u != t :: At(end, u) == At(s, u)
  {
  }

  /** What the ticker does for the requests of its queue, by whether their resources are there. */
  function Round(live: set<Request>, t: ThreadId, keys: seq<Request>): seq<Action> {
    if keys == [] then []
    else (if keys[0] in live then WholePass(ReconcileNext(t), t) else WholeRemoval(ReconcileNext(t), t)) + Round(live, t, keys[1..])
  }

  lemma {:induction false} RunAppend(s: State, a: seq<Action>, b: seq<Action>)
    ensures Run(s, a + b) == Run(Run(s, a), b)
    decreases |b|
  {
    hide Do;
    if b == [] {
      assert a + b == a;
    } else {
      RunAppend(s, a, b[..|b| - 1]);
      assert (a + b)[..|a + b| - 1] == a + b[..|b| - 1];
    }
  }

  /** Left alone, a round of the ticker ends with those of its queue registered that are there, and not
      the others; everybody else stays what they were. */
  lemma {:induction false} RoundEnds(s: State, t: ThreadId, keys: seq<Request>)
    requires s.holder == {} && At(s, t) == Thread(Idle, keys)
    ensures var end := Run(s, Round(s.live, t, keys));
            && end.live == s.live && end.holder == {} && At(end, t) == Thread(Idle, [])
            && (forall r: Request :: r in end.instances <==> if r in keys then r in s.live else r in s.instances)
    decreases |keys|
  {
    hide Do, Run;
    if keys == [] {
      RunNothing(s);
    } else {
      var req, rest := keys[0], keys[1..];
      assert keys == [req] + rest;
      var steps := if req in s.live then WholePass(ReconcileNext(t), t) else WholeRemoval(ReconcileNext(t), t);
      RunAppend(s, steps, Round(s.live, t, rest));
      if req in s.live {
        WholePassEnds(s, ReconcileNext(t), t, req, rest);
      } else {
        WholeRemovalEnds(s, ReconcileNext(t), t, req, rest);
      }
      RoundEnds(Run(s, steps), t, rest);
    }
  }

  lemma RunNothing(s: State)
    ensures Run(s, []) == s
  {
  }

  /** An undisturbed tick leaves exactly those registered that were and whose resources are there. */
  lemma TickEnds(s: State, t: ThreadId, keys: seq<Request>)
    requires s.holder == {} && At(s, t) == Thread(Idle, []) && Lists(keys, s.instances)
    ensures var end := Run(s, [LockForSnapshot(t), Snapshot(t, keys)] + Round(s.live, t, keys));
            end.instances == s.instances * s.live && end.holder == {} && At(end, t) == Thread(Idle, [])
  {
    RunAppend(s, [LockForSnapshot(t), Snapshot(t, keys)], Round(s.live, t, keys));
    TickerTakesInstances(s, t, keys);
    hide Do, Run;
    RoundEnds(Run(s, [LockForSnapshot(t), Snapshot(t, keys)]), t, keys);
  }

  /** The ticker takes along whoever is registered, each exactly as the map yields it. */
  lemma TickerTakesInstances(s: State, t: ThreadId, keys: seq<Request>)
    requires s.holder == {} && At(s, t) == Thread(Idle, []) && Lists(keys, s.instances)
    ensures var end := Run(s, [LockForSnapshot(t), Snapshot(t, keys)]);
            && end.live == s.live && end.holder == {} && At(end, t) == Thread(Idle, keys)
            && end.instances == s.instances && end.roles == s.roles && end.bindings == s.bindings
  {
    RunCons(s, LockForSnapshot(t), [Snapshot(t, keys)]);
    RunCons(Do(s, LockForSnapshot(t)), Snapshot(t, keys), []);
    assert [LockForSnapshot(t), Snapshot(t, keys)] == [LockForSnapshot(t)] + [Snapshot(t, keys)];
    assert [Snapshot(t, keys)] == [Snapshot(t, keys)] + [];
  }
}
