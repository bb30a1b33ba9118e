/** The client as its goroutines share it: critical sections on the objects in any order,
    and callbacks fired outside them, possibly calling back in. Every schedule is a run of
    the registry and a run of the callback protocol at once. */
module Interleaving {
  import opened Bytes
  import opened Frames
  import opened BayModel
  import opened DeviceModel
  import opened Registry
  import opened Bays
  import opened Remotes
  import Protocol = CallbackQueue

  type goroutine = Protocol.goroutine

  /** What a goroutine does next: handle a datagram, tick the probe, store what a control
      call sent, look something up, or fire the next callback it has taken. */
  datatype Turn =
    | Receive(on: goroutine, arrival: Arrival)
    | Tick(on: goroutine, clock: map<uid, int>, now: int)
    | Store(on: goroutine, bay: BayId, op: Op)
    | Look(on: goroutine)
    | Fire(on: goroutine)

  /** A callback and the goroutine it is fired on. */
  datatype Call = Call(on: goroutine, what: Queued)

  /** The batches each goroutine has still to fire, innermost last. */
  type Batches = map<goroutine, seq<seq<Queued>>>

  function Waiting(w: Batches, g: goroutine): seq<seq<Queued>> { if g in w then w[g] else [] }

  // ---- batches and the protocol ----

  ghost predicate Known(texts: seq<Queued>, cs: seq<nat>) { forall c :: c in cs ==> c < |texts| }

  function Texts(texts: seq<Queued>, cs: seq<nat>): seq<Queued>
    requires Known(texts, cs)
  {
    seq(|cs|, j requires 0 <= j < |cs| => assert cs[j] in cs; texts[cs[j]])
  }

  /** The batch k of goroutine g is what its section took off the queue. */
  ghost predicate BatchIs(s: Protocol.State, texts: seq<Queued>, w: Batches, g: goroutine, k: nat)
    requires k < |Waiting(w, g)| && k < |Protocol.Stack(s, g)|
  {
    var i := Protocol.Stack(s, g)[k];
    i < |s.taken| && Known(texts, s.taken[i]) && Waiting(w, g)[k] == Texts(texts, s.taken[i])
  }

  ghost predicate BatchesOf(s: Protocol.State, texts: seq<Queued>, w: Batches, g: goroutine) {
    && |Waiting(w, g)| == |Protocol.Stack(s, g)|
    && forall k :: 0 <= k < |Waiting(w, g)| ==> BatchIs(s, texts, w, g, k)
  }

  /** The sections a goroutine is part way through were entered one after the other. */
  ghost predicate Ascending(s: Protocol.State, g: goroutine) {
    var st := Protocol.Stack(s, g);
    forall j, k :: 0 <= j < k < |st| ==> st[j] < st[k]
  }

  ghost predicate FiredAs(s: Protocol.State, texts: seq<Queued>, fired: seq<Call>) {
    && |fired| == |s.fired|
    && forall a :: 0 <= a < |fired| ==>
         s.fired[a].callback < |texts| && fired[a] == Call(s.fired[a].on, texts[s.fired[a].callback])
  }

  /** The batches and what has been fired are those of the protocol's state, in which
      callback c is texts[c]. */
  ghost predicate InStep(s: Protocol.State, texts: seq<Queued>, w: Batches, fired: seq<Call>) {
    && Protocol.Idle(s) && Protocol.Inv(s) && Protocol.Disciplined(s) && |texts| == |s.queued|
    && (forall g :: BatchesOf(s, texts, w, g) && Ascending(s, g)) && FiredAs(s, texts, fired)
  }

  lemma StackInRange(s: Protocol.State, g: goroutine, k: nat)
    requires Protocol.Inv(s) && k < |Protocol.Stack(s, g)|
    ensures Protocol.Stack(s, g)[k] < |s.sections| && s.sections[Protocol.Stack(s, g)[k]].owner == g
  {
    assert Protocol.OnStack(s, g, s.stacks[g][k]);
  }

  lemma TextsOfMore(texts: seq<Queued>, more: seq<Queued>, cs: seq<nat>)
    requires Known(texts, cs)
    ensures Known(texts + more, cs) && Texts(texts + more, cs) == Texts(texts, cs)
  {
    forall c | c in cs
      ensures c < |texts + more| && (texts + more)[c] == texts[c]
    {
    }
  }

  lemma TextsOfBatch(texts: seq<Queued>, batch: seq<Queued>)
    ensures var cs := Protocol.Consecutive(|texts|, |batch|);
            Known(texts + batch, cs) && Texts(texts + batch, cs) == batch
  {
  }

  lemma DrainingBatches(s: Protocol.State, texts: seq<Queued>, w: Batches, fired: seq<Call>,
                        h: goroutine, batch: seq<Queued>, g: goroutine)
    requires InStep(s, texts, w, fired)
    ensures var t := Protocol.AfterDraining(s, h, |batch|);
            BatchesOf(t, texts + batch, w[h := Waiting(w, h) + [batch]], g) && Ascending(t, g)
  {
    hide Protocol.Accounted;
    hide Protocol.Live;
    var t, x := Protocol.AfterDraining(s, h, |batch|), w[h := Waiting(w, h) + [batch]];
    assert BatchesOf(s, texts, w, g) && Ascending(s, g);
    forall k | 0 <= k < |Waiting(x, g)|
      ensures BatchIs(t, texts + batch, x, g, k)
      ensures k < |Protocol.Stack(s, g)| ==> Protocol.Stack(t, g)[k] < |s.sections|
    {
      if k < |Waiting(w, g)| {
        assert BatchIs(s, texts, w, g, k);
        StackInRange(s, g, k);
        TextsOfMore(texts, batch, s.taken[Protocol.Stack(s, g)[k]]);
      } else {
        TextsOfBatch(texts, batch);
      }
    }
  }

  lemma DrainingFired(s: Protocol.State, texts: seq<Queued>, fired: seq<Call>, h: goroutine, batch: seq<Queued>)
    requires FiredAs(s, texts, fired)
    ensures FiredAs(Protocol.AfterDraining(s, h, |batch|), texts + batch, fired)
  {
  }

  lemma DrainingDisciplined(s: Protocol.State, h: goroutine, n: nat)
    requires Protocol.Disciplined(s)
    ensures Protocol.Disciplined(Protocol.AfterDraining(s, h, n))
  {
  }

  /** A section on the objects is a draining section of the protocol. */
  lemma SectionKeeps(protocol: seq<Protocol.Step>, s: Protocol.State, texts: seq<Queued>, w: Batches, fired: seq<Call>,
                     h: goroutine, batch: seq<Queued>)
    requires Protocol.Run(protocol) == Some(s) && InStep(s, texts, w, fired)
    ensures var t := Protocol.AfterDraining(s, h, |batch|);
            && Protocol.Run(protocol + Protocol.Draining(h, |batch|)) == Some(t)
            && InStep(t, texts + batch, w[h := Waiting(w, h) + [batch]], fired)
  {
    hide Protocol.Run;
    hide Protocol.Inv;
    hide BatchesOf;
    hide Ascending;
    hide FiredAs;
    hide Protocol.Disciplined;
    var t := Protocol.AfterDraining(s, h, |batch|);
    var more, x := texts + batch, w[h := Waiting(w, h) + [batch]];
    Protocol.DrainingRuns(protocol, s, h, |batch|);
    DrainingDisciplined(s, h, |batch|);
    Protocol.ReachableInv(protocol + Protocol.Draining(h, |batch|));
    DrainingFired(s, texts, fired, h, batch);
    forall g: goroutine
      ensures BatchesOf(t, more, x, g) && Ascending(t, g)
    {
      DrainingBatches(s, texts, w, fired, h, batch, g);
    }
    assert InStep(t, more, x, fired);
  }

  lemma ShortBatches(s: Protocol.State, texts: seq<Queued>, w: Batches, fired: seq<Call>, h: goroutine, g: goroutine)
    requires InStep(s, texts, w, fired)
    ensures BatchesOf(Protocol.AfterShort(s, h), texts, w, g) && Ascending(Protocol.AfterShort(s, h), g)
    ensures FiredAs(Protocol.AfterShort(s, h), texts, fired) && Protocol.Disciplined(Protocol.AfterShort(s, h))
  {
    hide Protocol.Inv;
    var t := Protocol.AfterShort(s, h);
    assert BatchesOf(s, texts, w, g) && Ascending(s, g);
    forall k | 0 <= k < |Waiting(w, g)|
      ensures BatchIs(t, texts, w, g, k)
    {
      assert BatchIs(s, texts, w, g, k);
    }
  }

  lemma LookKeeps(protocol: seq<Protocol.Step>, s: Protocol.State, texts: seq<Queued>, w: Batches, fired: seq<Call>,
                  h: goroutine)
    requires Protocol.Run(protocol) == Some(s) && InStep(s, texts, w, fired)
    ensures var t := Protocol.AfterShort(s, h);
            Protocol.Run(protocol + Protocol.Short(h)) == Some(t) && InStep(t, texts, w, fired)
  {
    hide Protocol.Run;
    hide Protocol.Inv;
    hide BatchesOf;
    hide Ascending;
    hide FiredAs;
    hide Protocol.Disciplined;
    var t := Protocol.AfterShort(s, h);
    Protocol.ShortRuns(protocol, s, h);
    ShortBatches(s, texts, w, fired, h, h);
    Protocol.ReachableInv(protocol + Protocol.Short(h));
    forall g: goroutine
      ensures BatchesOf(t, texts, w, g) && Ascending(t, g)
    {
      ShortBatches(s, texts, w, fired, h, g);
    }
    assert InStep(t, texts, w, fired);
  }

  // ---- firing ----

  /** The batches of goroutine h with its innermost one replaced by rest. */
  function Innermost(w: Batches, h: goroutine, rest: seq<seq<Queued>>): Batches
    requires Waiting(w, h) != []
  {
    w[h := Waiting(w, h)[..|Waiting(w, h)| - 1] + rest]
  }

  lemma TopKnown(s: Protocol.State, texts: seq<Queued>, w: Batches, fired: seq<Call>, h: goroutine)
    requires InStep(s, texts, w, fired) && Waiting(w, h) != []
    ensures var k := |Waiting(w, h)| - 1;
            && |Protocol.Stack(s, h)| == k + 1 && BatchIs(s, texts, w, h, k) && Protocol.Firing(s, h)
            && Protocol.Top(s, h) == Protocol.Stack(s, h)[k]
  {
    hide Protocol.Inv;
    assert BatchesOf(s, texts, w, h);
    assert BatchIs(s, texts, w, h, |Waiting(w, h)| - 1);
  }

  /** No other entry of any stack names the section at the top of h's. */
  lemma OnlyTop(s: Protocol.State, texts: seq<Queued>, w: Batches, fired: seq<Call>, h: goroutine, g: goroutine, k: nat)
    requires InStep(s, texts, w, fired) && Protocol.Stack(s, h) != [] && k < |Protocol.Stack(s, g)|
    requires g == h ==> k < |Protocol.Stack(s, h)| - 1
    ensures Protocol.Stack(s, g)[k] != Protocol.Stack(s, h)[|Protocol.Stack(s, h)| - 1]
  {
    hide Protocol.Inv;
    StackInRange(s, g, k);
    StackInRange(s, h, |Protocol.Stack(s, h)| - 1);
    assert Ascending(s, h);
  }

  lemma FireBatches(s: Protocol.State, texts: seq<Queued>, w: Batches, fired: seq<Call>, h: goroutine, g: goroutine)
    requires InStep(s, texts, w, fired) && Waiting(w, h) != [] && Waiting(w, h)[|Waiting(w, h)| - 1] != []
    ensures Protocol.Enabled(s, Protocol.FireNext(h))
    ensures var t, top := Protocol.Next(s, Protocol.FireNext(h)), Waiting(w, h)[|Waiting(w, h)| - 1];
            BatchesOf(t, texts, Innermost(w, h, [top[1..]]), g) && Ascending(t, g)
  {
    hide Protocol.Inv;
    TopKnown(s, texts, w, fired, h);
    var n, i := |Waiting(w, h)| - 1, Protocol.Top(s, h);
    var top := Waiting(w, h)[n];
    var t, x := Protocol.Next(s, Protocol.FireNext(h)), Innermost(w, h, [top[1..]]);
    assert BatchesOf(s, texts, w, g) && Ascending(s, g) && Protocol.Stack(t, g) == Protocol.Stack(s, g);
    forall k | 0 <= k < |Waiting(x, g)|
      ensures BatchIs(t, texts, x, g, k)
    {
      assert BatchIs(s, texts, w, g, k);
      if g == h && k == n {
        RestTexts(texts, s.taken[i]);
      } else {
        OnlyTop(s, texts, w, fired, h, g, k);
      }
    }
  }

  lemma RestTexts(texts: seq<Queued>, cs: seq<nat>)
    requires Known(texts, cs) && cs != []
    ensures Known(texts, cs[1..]) && Texts(texts, cs[1..]) == Texts(texts, cs)[1..]
    ensures cs[0] < |texts| && Texts(texts, cs)[0] == texts[cs[0]]
  {
    assert cs[0] in cs;
    assert forall c :: c in cs[1..] ==> c in cs;
  }

  lemma FireLogged(s: Protocol.State, texts: seq<Queued>, w: Batches, fired: seq<Call>, h: goroutine)
    requires InStep(s, texts, w, fired) && Waiting(w, h) != [] && Waiting(w, h)[|Waiting(w, h)| - 1] != []
    requires Protocol.Enabled(s, Protocol.FireNext(h))
    ensures var t, top := Protocol.Next(s, Protocol.FireNext(h)), Waiting(w, h)[|Waiting(w, h)| - 1];
            FiredAs(t, texts, fired + [Call(h, top[0])]) && Protocol.Idle(t) && Protocol.Disciplined(t)
  {
    hide Protocol.Inv;
    TopKnown(s, texts, w, fired, h);
    RestTexts(texts, s.taken[Protocol.Top(s, h)]);
  }

  /** Firing the next callback of the innermost batch is the protocol's step. */
  lemma FireKeeps(protocol: seq<Protocol.Step>, s: Protocol.State, texts: seq<Queued>, w: Batches, fired: seq<Call>,
                  h: goroutine)
    requires Protocol.Run(protocol) == Some(s) && InStep(s, texts, w, fired)
    requires Waiting(w, h) != [] && Waiting(w, h)[|Waiting(w, h)| - 1] != []
    ensures Protocol.Enabled(s, Protocol.FireNext(h))
    ensures var t, top := Protocol.Next(s, Protocol.FireNext(h)), Waiting(w, h)[|Waiting(w, h)| - 1];
            && Protocol.Run(protocol + [Protocol.FireNext(h)]) == Some(t)
            && InStep(t, texts, Innermost(w, h, [top[1..]]), fired + [Call(h, top[0])])
  {
    hide Protocol.Run;
    hide Protocol.Inv;
    hide BatchesOf;
    hide Ascending;
    hide FiredAs;
    hide Protocol.Disciplined;
    hide Protocol.Enabled;
    var top := Waiting(w, h)[|Waiting(w, h)| - 1];
    FireBatches(s, texts, w, fired, h, h);
    FireLogged(s, texts, w, fired, h);
    Protocol.RunNext(protocol, s, Protocol.FireNext(h));
    Protocol.ReachableInv(protocol + [Protocol.FireNext(h)]);
    var t, x := Protocol.Next(s, Protocol.FireNext(h)), Innermost(w, h, [top[1..]]);
    forall g: goroutine
      ensures BatchesOf(t, texts, x, g) && Ascending(t, g)
    {
      FireBatches(s, texts, w, fired, h, g);
    }
    assert InStep(t, texts, x, fired + [Call(h, top[0])]);
  }

  lemma ReturnBatches(s: Protocol.State, texts: seq<Queued>, w: Batches, fired: seq<Call>, h: goroutine, g: goroutine)
    requires InStep(s, texts, w, fired) && Waiting(w, h) != [] && Waiting(w, h)[|Waiting(w, h)| - 1] == []
    ensures Protocol.Enabled(s, Protocol.Return(h))
    ensures var t := Protocol.Next(s, Protocol.Return(h));
            && BatchesOf(t, texts, Innermost(w, h, []), g) && Ascending(t, g)
            && FiredAs(t, texts, fired) && Protocol.Idle(t) && Protocol.Disciplined(t)
  {
    hide Protocol.Inv;
    TopKnown(s, texts, w, fired, h);
    var t, x := Protocol.Next(s, Protocol.Return(h)), Innermost(w, h, []);
    assert BatchesOf(s, texts, w, g) && Ascending(s, g);
    forall k | 0 <= k < |Waiting(x, g)|
      ensures BatchIs(t, texts, x, g, k)
    {
      assert BatchIs(s, texts, w, g, k);
    }
  }

  /** So is leaving a batch that is done. */
  lemma ReturnKeeps(protocol: seq<Protocol.Step>, s: Protocol.State, texts: seq<Queued>, w: Batches, fired: seq<Call>,
                    h: goroutine)
    requires Protocol.Run(protocol) == Some(s) && InStep(s, texts, w, fired)
    requires Waiting(w, h) != [] && Waiting(w, h)[|Waiting(w, h)| - 1] == []
    ensures Protocol.Enabled(s, Protocol.Return(h))
    ensures var t := Protocol.Next(s, Protocol.Return(h));
            Protocol.Run(protocol + [Protocol.Return(h)]) == Some(t) && InStep(t, texts, Innermost(w, h, []), fired)
  {
    hide Protocol.Run;
    hide Protocol.Inv;
    hide BatchesOf;
    hide Ascending;
    hide FiredAs;
    hide Protocol.Disciplined;
    hide Protocol.Enabled;
    ReturnBatches(s, texts, w, fired, h, h);
    Protocol.RunNext(protocol, s, Protocol.Return(h));
    Protocol.ReachableInv(protocol + [Protocol.Return(h)]);
    var t, x := Protocol.Next(s, Protocol.Return(h)), Innermost(w, h, []);
    forall g: goroutine
      ensures BatchesOf(t, texts, x, g) && Ascending(t, g)
    {
      ReturnBatches(s, texts, w, fired, h, g);
    }
    assert InStep(t, texts, x, fired);
  }

  lemma InStepAtFirst()
    ensures Protocol.Run([]) == Some(Protocol.INIT) && InStep(Protocol.INIT, [], map[], [])
  {
    Protocol.ReachableInv([]);
  }

  // ---- what a schedule does ----

  /** The registry and the protocol side by side: where each is, the steps that led there,
      every notice queued so far, what each goroutine has still to fire, and what has been
      fired. */
  datatype World = World(reg: Reg, steps: seq<Step>, state: Protocol.State, protocol: seq<Protocol.Step>,
                         texts: seq<Queued>, waiting: Batches, fired: seq<Call>)

  function Start(me: uid): World { World(EmptyRegistry(me), [], Protocol.INIT, [], [], map[], []) }

  /** A reading of the clock for every device there is. */
  function ClockOver(us: set<uid>, clock: map<uid, int>, now: int): map<uid, int> {
    map u | u in us :: if u in clock then clock[u] else now
  }

  /** The registry takes a step, outside any section. */
  ghost function Stepped(x: World, step: Step): World
    requires Enabled(x.reg, step)
  {
    x.(reg := Next(x.reg, step), steps := x.steps + [step])
  }

  /** Goroutine g takes a batch off the queue as it leaves a draining section. */
  function Drained(x: World, g: goroutine, batch: seq<Queued>): World {
    x.(state := Protocol.AfterDraining(x.state, g, |batch|), protocol := x.protocol + Protocol.Draining(g, |batch|),
       texts := x.texts + batch, waiting := x.waiting[g := Waiting(x.waiting, g) + [batch]])
  }

  /** The registry takes a step in a draining section of g, which queues exactly what the
      devices notify in that step. */
  ghost predicate Sectioned(x: World, g: goroutine, step: Step, y: World) {
    Enabled(x.reg, step)
    && exists batch :: Announced(x.reg, Next(x.reg, step), [], batch) && y == Drained(Stepped(x, step), g, batch)
  }

  /** Goroutine g fires the next callback of its innermost batch, or leaves the batch when
      there is none left; nothing happens when it is part way through none. */
  ghost predicate FiresNext(x: World, g: goroutine, y: World) {
    var mine := Waiting(x.waiting, g);
    if mine == [] then y == x
    else
      var top := mine[|mine| - 1];
      var step := if top == [] then Protocol.Return(g) else Protocol.FireNext(g);
      && Protocol.Enabled(x.state, step)
      && y == x.(state := Protocol.Next(x.state, step), protocol := x.protocol + [step],
                 waiting := Innermost(x.waiting, g, if top == [] then [] else [top[1..]]),
                 fired := x.fired + if top == [] then [] else [Call(g, top[0])])
  }

  /** The datagram that arrived is the step; one that is not handled takes no lock. */
  ghost predicate Received(me: uid, x: World, g: goroutine, a: Arrival, step: Step, y: World) {
    && Takes(step, a) && Enabled(x.reg, step)
    && if Locks(me, a.data) then Sectioned(x, g, step, y) else y == Stepped(x, step)
  }

  /** What one turn makes of the world: its own step of the registry and, on its own
      goroutine, its own steps of the protocol. A call on a bay there is not, or that would
      route one, stores nothing. */
  ghost predicate Taken(me: uid, x: World, turn: Turn, y: World) {
    match turn
    case Receive(g, a) => exists step :: Received(me, x, g, a, step, y)
    case Tick(g, clock, now) => Sectioned(x, g, Ticked(ClockOver(x.reg.devices.Keys, clock, now)), y)
    case Store(g, id, op) => if x.reg.Knows(id) && !op.OpSelect? then Sectioned(x, g, Called(id, op), y) else y == x
    case Look(g) => y == x.(state := Protocol.AfterShort(x.state, g), protocol := x.protocol + Protocol.Short(g))
    case Fire(g) => FiresNext(x, g, y)
  }

  /** What a schedule can make of the world from the start, turn by turn. */
  ghost predicate Scheduled(me: uid, turns: seq<Turn>, y: World) {
    if turns == [] then y == Start(me)
    else
      var front, last := turns[..|turns| - 1], turns[|turns| - 1];
      exists x :: Scheduled(me, front, x) && Taken(me, x, last, y)
  }

  lemma ScheduledNext(me: uid, turns: seq<Turn>, turn: Turn, x: World, y: World)
    requires Scheduled(me, turns, x) && Taken(me, x, turn, y)
    ensures Scheduled(me, turns + [turn], y)
  {
    hide Taken;
    var all := turns + [turn];
    assert all[..|all| - 1] == turns && all[|all| - 1] == turn;
    assert Scheduled(me, all[..|all| - 1], x) && Taken(me, x, all[|all| - 1], y);
  }

  lemma ScheduledAtFirst(me: uid)
    ensures Scheduled(me, [], Start(me))
  {
  }

  // ---- what every schedule keeps ----

  /** The registry is where a run of its steps leads, its devices have notified exactly
      texts, and the lock and the queue are where a run of the callback protocol leads in
      which only draining sections queue anything, and which fires those same notices. */
  ghost predicate Coherent(me: uid, y: World) {
    && Run(me, y.steps) == Some(y.reg) && Announced(EmptyRegistry(me), y.reg, [], y.texts)
    && Protocol.Run(y.protocol) == Some(y.state) && InStep(y.state, y.texts, y.waiting, y.fired)
  }

  lemma StartCoherent(me: uid)
    ensures Coherent(me, Start(me))
  {
    hide InStep;
    hide Announced;
    InStepAtFirst();
    AnnouncedNothing(EmptyRegistry(me), []);
  }

  lemma SteppedCoherent(me: uid, x: World, step: Step)
    requires Coherent(me, x) && Enabled(x.reg, step) && Announced(x.reg, Next(x.reg, step), [], [])
    ensures Coherent(me, Stepped(x, step))
  {
    hide InStep;
    hide Announced;
    hide Run;
    hide Enabled;
    hide Next;
    Registry.RunNext(me, x.steps, x.reg, step);
    BatchesJoin(EmptyRegistry(me), x.reg, Next(x.reg, step), x.texts, []);
    assert x.texts + [] == x.texts;
  }

  lemma SectionedCoherent(me: uid, x: World, g: goroutine, step: Step, y: World)
    requires Coherent(me, x) && Sectioned(x, g, step, y)
    ensures Coherent(me, y)
  {
    hide InStep;
    hide Announced;
    hide Run;
    hide Enabled;
    hide Next;
    hide Protocol.Run;
    hide Protocol.AfterDraining;
    hide Protocol.Draining;
    var batch :| Announced(x.reg, Next(x.reg, step), [], batch) && y == Drained(Stepped(x, step), g, batch);
    Registry.RunNext(me, x.steps, x.reg, step);
    BatchesJoin(EmptyRegistry(me), x.reg, Next(x.reg, step), x.texts, batch);
    SectionKeeps(x.protocol, x.state, x.texts, x.waiting, x.fired, g, batch);
  }

  lemma FiresCoherent(me: uid, x: World, g: goroutine, y: World)
    requires Coherent(me, x) && FiresNext(x, g, y)
    ensures Coherent(me, y)
  {
    hide InStep;
    hide Announced;
    hide Run;
    hide Protocol.Run;
    hide Protocol.Enabled;
    hide Protocol.Next;
    var mine := Waiting(x.waiting, g);
    if mine != [] {
      if mine[|mine| - 1] == [] {
        ReturnKeeps(x.protocol, x.state, x.texts, x.waiting, x.fired, g);
        assert x.fired + [] == x.fired;
      } else {
        FireKeeps(x.protocol, x.state, x.texts, x.waiting, x.fired, g);
      }
    }
  }

  /** A datagram that is not handled changes nothing. */
  lemma DroppedAnnounces(r: Reg, step: Step)
    requires step.Datagram? && Enabled(r, step) && !Locks(r.me, step.data)
    ensures Next(r, step) == r && Announced(r, r, [], [])
  {
    AnnouncedNothing(r, []);
  }

  lemma RunMe(me: uid, steps: seq<Step>)
    requires Run(me, steps).Some?
    ensures Run(me, steps).value.me == me
  {
    RegistryStaysWellFormed(me, steps);
  }

  lemma TakenCoherent(me: uid, x: World, turn: Turn, y: World)
    requires Coherent(me, x) && Taken(me, x, turn, y)
    ensures Coherent(me, y)
  {
    hide InStep;
    hide Announced;
    hide Run;
    hide Enabled;
    hide Next;
    hide Protocol.Run;
    hide Sectioned;
    hide FiresNext;
    hide Locks;
    match turn
    case Receive(g, a) =>
      var step :| Received(me, x, g, a, step, y);
      if Locks(me, a.data) {
        SectionedCoherent(me, x, g, step, y);
      } else {
        RunMe(me, x.steps);
        DroppedAnnounces(x.reg, step);
        SteppedCoherent(me, x, step);
      }
    case Tick(g, clock, now) => SectionedCoherent(me, x, g, Ticked(ClockOver(x.reg.devices.Keys, clock, now)), y);
    case Store(g, id, op) =>
      if x.reg.Knows(id) && !op.OpSelect? {
        SectionedCoherent(me, x, g, Called(id, op), y);
      }
    case Look(g) => LookKeeps(x.protocol, x.state, x.texts, x.waiting, x.fired, g);
    case Fire(g) => FiresCoherent(me, x, g, y);
  }

  /** Whatever the schedule. */
  lemma {:induction false} ScheduledCoherent(me: uid, turns: seq<Turn>, y: World)
    requires Scheduled(me, turns, y)
    ensures Coherent(me, y) && WellFormed(y.reg)
  {
    hide Coherent;
    hide Taken;
    hide WellFormed;
    if turns == [] {
      StartCoherent(me);
    } else {
      var front, last := turns[..|turns| - 1], turns[|turns| - 1];
      var x :| Scheduled(me, front, x) && Taken(me, x, last, y);
      ScheduledCoherent(me, front, x);
      TakenCoherent(me, x, last, y);
    }
    CoherentWellFormed(me, y);
  }

  lemma CoherentWellFormed(me: uid, y: World)
    requires Coherent(me, y)
    ensures WellFormed(y.reg)
  {
    hide WellFormed;
    RegistryStaysWellFormed(me, y.steps);
  }

  /** The firing at a is of callback c. */
  ghost predicate FiringOf(s: Protocol.State, a: nat, c: nat) { a < |s.fired| && s.fired[a].callback == c }

  /** However the goroutines have been scheduled, once they are done with their batches
      every notice has been fired exactly once, on the goroutine whose section queued it,
      and two notices of one section in the order they were queued. */
  lemma EveryNoticeFiredOnce(me: uid, turns: seq<Turn>, y: World, c: nat) returns (a: nat)
    requires Scheduled(me, turns, y) && (forall g :: Waiting(y.waiting, g) == []) && c < |y.texts|
    ensures var s := y.state;
            && FiringOf(s, a, c) && (forall b: nat :: FiringOf(s, b, c) ==> b == a)
            && c < |s.queued| && a < |y.fired| && s.queued[c] < |s.sections|
            && y.fired[a] == Call(s.sections[s.queued[c]].owner, y.texts[c])
            && forall b :: a < b < |s.fired| && s.fired[b].section == s.fired[a].section ==> c < s.fired[b].callback
  {
    ScheduledCoherent(me, turns, y);
    a := FiredOnce(y.protocol, y.state, y.texts, y.waiting, y.fired, c);
  }

  lemma FiredOnce(protocol: seq<Protocol.Step>, s: Protocol.State, texts: seq<Queued>, w: Batches, fired: seq<Call>,
                  c: nat)
    returns (a: nat)
    requires Protocol.Run(protocol) == Some(s) && InStep(s, texts, w, fired)
    requires (forall g :: Waiting(w, g) == []) && c < |texts|
    ensures FiringOf(s, a, c) && forall b: nat :: FiringOf(s, b, c) ==> b == a
    ensures a < |fired| && s.queued[c] < |s.sections| && fired[a] == Call(s.sections[s.queued[c]].owner, texts[c])
    ensures forall b :: a < b < |s.fired| && s.fired[b].section == s.fired[a].section ==> c < s.fired[b].callback
  {
    hide Protocol.Run;
    hide Protocol.Inv;
    forall g: goroutine
      ensures Protocol.Stack(s, g) == []
    {
      assert BatchesOf(s, texts, w, g);
    }
    Protocol.QuiescentMeansAllFired(protocol, c);
    var k :| 0 <= k < |s.fired| && s.fired[k].callback == c;
    a := k;
    forall b: nat | FiringOf(s, b, c)
      ensures b == a
    {
      if b < a {
        Protocol.FiresOnceInOrder(protocol, b);
      } else if a < b {
        Protocol.FiresOnceInOrder(protocol, a);
      }
    }
    Protocol.FiresOnceInOrder(protocol, a);
  }

  // ---- the client ----

  method ClockFor(remote: Remote, clock: map<uid, int>, now: int) returns (full: map<uid, int>)
    requires remote.Valid()
    ensures full == ClockOver(remote.View().devices.Keys, clock, now) && full.Keys == remote.devices.Keys
  {
    remote.AllKeyed();
    full := map u | u in remote.devices.Keys :: if u in clock then clock[u] else now;
  }

  lemma TickedIsProbe(r: Reg, clock: map<uid, int>)
    requires r.devices.Keys <= clock.Keys
    ensures Enabled(r, Ticked(clock)) && Next(r, Ticked(clock)) == Probe(r, clock)
  {
  }

  lemma CalledIsOp(r: Reg, id: BayId, op: Op)
    requires r.Knows(id) && !op.OpSelect?
    ensures Enabled(r, Called(id, op)) && Next(r, Called(id, op)) == r.OnBay(id, [op])
  {
  }

  /** The critical section of a turn that has one, on the objects: the step it is of the
      registry, and what it queues. */
  method Section(remote: Remote, turn: Turn) returns (batch: seq<Queued>, ghost step: Step)
    requires remote.Valid() && remote.queue.pending == []
    requires turn.Receive? || turn.Tick? || (turn.Store? && remote.View().Knows(turn.bay) && !turn.op.OpSelect?)
    modifies remote, remote.objects, remote.queue
    ensures remote.Valid() && fresh(remote.objects - old(remote.objects)) && remote.queue.pending == []
    ensures Enabled(old(remote.View()), step) && remote.View() == Next(old(remote.View()), step)
    ensures Announced(old(remote.View()), remote.View(), [], batch)
    ensures turn.Receive? ==> Takes(step, turn.arrival) && (!Locks(remote.me, turn.arrival.data) ==> batch == [])
    ensures turn.Tick? ==> step == Ticked(ClockOver(old(remote.View()).devices.Keys, turn.clock, turn.now))
    ensures turn.Store? ==> step == Called(turn.bay, turn.op)
  {
    hide Remote.Valid;
    hide Remote.View;
    hide Announced;
    hide Next;
    hide Enabled;
    ghost var r := remote.View();
    match turn {
      case Receive(_, a) =>
        ghost var choice;
        batch, choice := remote.ProcessFrame(a.data, a.ts, a.now, a.text);
        step := Datagram(a.data, a.ts, a.now, choice);
        NextIsProcess(r, step);
      case Tick(_, clock, now) =>
        var full := ClockFor(remote, clock, now);
        batch := remote.ProbeTick(full);
        step := Ticked(full);
        TickedIsProbe(r, full);
      case Store(_, id, op) =>
        batch := remote.RunLocked(id, op);
        step := Called(id, op);
        CalledIsOp(r, id, op);
    }
  }

  /** Goroutine g fires one callback, or is done with a batch. */
  method FireOne(g: goroutine, w: Batches, fired: seq<Call>, ghost me: uid, ghost x: World)
    returns (v: Batches, more: seq<Call>, ghost y: World)
    requires Coherent(me, x) && x.waiting == w && x.fired == fired
    ensures FiresNext(x, g, y) && y.reg == x.reg && y.waiting == v && y.fired == more
  {
    hide InStep;
    hide Announced;
    hide Run;
    hide Protocol.Run;
    hide Protocol.Enabled;
    hide Protocol.Next;
    v, more, y := w, fired, x;
    var mine := Waiting(w, g);
    if mine != [] {
      var top := mine[|mine| - 1];
      if top == [] {
        ReturnKeeps(x.protocol, x.state, x.texts, x.waiting, x.fired, g);
        v := Innermost(w, g, []);
        assert fired + [] == fired;
        y := x.(state := Protocol.Next(x.state, Protocol.Return(g)), protocol := x.protocol + [Protocol.Return(g)],
                waiting := v);
      } else {
        FireKeeps(x.protocol, x.state, x.texts, x.waiting, x.fired, g);
        v, more := Innermost(w, g, [top[1..]]), fired + [Call(g, top[0])];
        y := x.(state := Protocol.Next(x.state, Protocol.FireNext(g)), protocol := x.protocol + [Protocol.FireNext(g)],
                waiting := v, fired := more);
      }
    }
  }

  lemma SectionTaken(me: uid, x: World, turn: Turn, step: Step, batch: seq<Queued>)
    requires turn.Receive? || turn.Tick? || (turn.Store? && x.reg.Knows(turn.bay) && !turn.op.OpSelect?)
    requires Enabled(x.reg, step) && Announced(x.reg, Next(x.reg, step), [], batch)
    requires turn.Receive? ==> Takes(step, turn.arrival)
    requires turn.Tick? ==> step == Ticked(ClockOver(x.reg.devices.Keys, turn.clock, turn.now))
    requires turn.Store? ==> step == Called(turn.bay, turn.op)
    ensures turn.Receive? && !Locks(me, turn.arrival.data) ==> Taken(me, x, turn, Stepped(x, step))
    ensures !turn.Receive? || Locks(me, turn.arrival.data) ==> Taken(me, x, turn, Drained(Stepped(x, step), turn.on, batch))
  {
    hide Next;
    hide Enabled;
    hide Announced;
    hide Drained;
    var y := Drained(Stepped(x, step), turn.on, batch);
    assert Sectioned(x, turn.on, step, y);
    if turn.Receive? {
      assert Received(me, x, turn.on, turn.arrival, step, if Locks(me, turn.arrival.data) then y else Stepped(x, step));
    }
  }

  /** One turn on the objects. */
  method TakeTurn(remote: Remote, turn: Turn, w: Batches, fired: seq<Call>, ghost x: World)
    returns (v: Batches, more: seq<Call>, ghost y: World)
    requires remote.Valid() && remote.queue.pending == []
    requires Coherent(remote.me, x) && x.reg == remote.View() && x.waiting == w && x.fired == fired
    modifies remote, remote.objects, remote.queue
    ensures remote.Valid() && fresh(remote.objects - old(remote.objects)) && remote.queue.pending == []
    ensures Taken(remote.me, x, turn, y) && y.reg == remote.View() && y.waiting == v && y.fired == more
  {
    hide Remote.Valid;
    hide Remote.View;
    hide Announced;
    hide Next;
    hide Enabled;
    hide Coherent;
    hide Locks;
    hide FiresNext;
    hide Sectioned;
    v, more, y := w, fired, x;
    match turn {
      case Fire(g) => v, more, y := FireOne(g, w, fired, remote.me, x);
      case Look(g) => y := x.(state := Protocol.AfterShort(x.state, g), protocol := x.protocol + Protocol.Short(g));
      case Receive(g, a) =>
        ghost var step;
        var batch;
        batch, step := Section(remote, turn);
        SectionTaken(remote.me, x, turn, step, batch);
        y := Stepped(x, step);
        if Locks(remote.me, a.data) {
          v, y := w[g := Waiting(w, g) + [batch]], Drained(y, g, batch);
        }
      case Tick(g, _, _) =>
        ghost var step;
        var batch;
        batch, step := Section(remote, turn);
        SectionTaken(remote.me, x, turn, step, batch);
        v, y := w[g := Waiting(w, g) + [batch]], Drained(Stepped(x, step), g, batch);
      case Store(g, id, op) =>
        remote.BayKnown(id);
        if !op.OpSelect? && remote.HasBay(id) {
          ghost var step;
          var batch;
          batch, step := Section(remote, turn);
          SectionTaken(remote.me, x, turn, step, batch);
          v, y := w[g := Waiting(w, g) + [batch]], Drained(Stepped(x, step), g, batch);
        }
    }
  }

  /** The client under any schedule of its goroutines, callbacks calling back in included:
      the objects and the batches end up where the schedule can lead. */
  method Serve(remote: Remote, turns: seq<Turn>) returns (w: Batches, fired: seq<Call>, ghost y: World)
    requires remote.Valid() && remote.queue.pending == [] && remote.View() == EmptyRegistry(remote.me)
    modifies remote, remote.objects, remote.queue
    ensures remote.Valid() && remote.queue.pending == []
    ensures Scheduled(remote.me, turns, y) && y.reg == remote.View() && y.waiting == w && y.fired == fired
  {
    hide Remote.Valid;
    hide Remote.View;
    hide Coherent;
    hide Taken;
    hide Scheduled;
    hide WellFormed;
    w, fired, y := map[], [], Start(remote.me);
    ScheduledAtFirst(remote.me);
    assert turns[..0] == [];
    for i := 0 to |turns|
      invariant remote.Valid() && fresh(remote.objects - old(remote.objects)) && remote.queue.pending == []
      invariant Scheduled(remote.me, turns[..i], y) && y.reg == remote.View() && y.waiting == w && y.fired == fired
    {
      ghost var x := y;
      ScheduledCoherent(remote.me, turns[..i], x);
      w, fired, y := TakeTurn(remote, turns[i], w, fired, x);
      ScheduledNext(remote.me, turns[..i], turns[i], x, y);
      assert turns[..i + 1] == turns[..i] + [turns[i]];
    }
    assert turns[..|turns|] == turns;
  }
}
