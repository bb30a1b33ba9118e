/** The lock and the callback queue as a protocol between goroutines: the receive
    loop, the probe and every caller of the API, including callbacks that call back
    into it. Handlers queue callbacks while the lock is held; the goroutine that
    releases the lock takes the whole queue with it and fires it outside the lock. */
module CallbackQueue {
  import opened Bytes

  type goroutine = nat

  /** One critical section. A draining one is runLocked or a probe tick; accessors,
      transmit and the other short sections drain nothing, and queue nothing either as
      long as the program keeps to that. */
  datatype Section = Section(owner: goroutine, drains: bool)

  datatype Fire = Fire(on: goroutine, section: nat, callback: nat)

  /** Sections are named by their position in sections, callbacks by their position
      in queued, which records the section that queued them. taken[i] is what section
      i took off the queue and its goroutine has still to fire; a goroutine's stack
      names the sections it is part way through firing, innermost last. */
  datatype State = State(
    sections: seq<Section>,
    holder: Option<nat>,
    pending: seq<nat>,
    queued: seq<nat>,
    taken: seq<seq<nat>>,
    stacks: map<goroutine, seq<nat>>,
    fired: seq<Fire>)

  const INIT: State := State([], None, [], [], [], map[], [])

  datatype Step =
    | Enter(on: goroutine, drains: bool)
    | Emit
    | Leave
    | FireNext(on: goroutine)
    | Return(on: goroutine)

  function Stack(s: State, g: goroutine): seq<nat> { if g in s.stacks then s.stacks[g] else [] }

  predicate Holding(s: State, g: goroutine) {
    s.holder.Some? && s.holder.value < |s.sections| && s.sections[s.holder.value].owner == g
  }

  /** g is outside the lock with a batch to fire. */
  predicate Firing(s: State, g: goroutine) {
    !Holding(s, g) && Stack(s, g) != [] && Stack(s, g)[|Stack(s, g)| - 1] < |s.taken|
  }

  function Top(s: State, g: goroutine): nat
    requires Firing(s, g)
  {
    Stack(s, g)[|Stack(s, g)| - 1]
  }

  predicate Enabled(s: State, step: Step) {
    match step
    case Enter(_, _) => s.holder.None?
    case Emit => s.holder.Some? && s.holder.value < |s.sections|
    case Leave => s.holder.Some? && s.holder.value < |s.sections| == |s.taken|
    case FireNext(g) => Firing(s, g) && s.taken[Top(s, g)] != []
    case Return(g) => Firing(s, g) && s.taken[Top(s, g)] == []
  }

  function Next(s: State, step: Step): State
    requires Enabled(s, step)
  {
    match step
    case Enter(g, drains) =>
      s.(sections := s.sections + [Section(g, drains)], taken := s.taken + [[]], holder := Some(|s.sections|))
    case Emit =>
      s.(queued := s.queued + [s.holder.value], pending := s.pending + [|s.queued|])
    case Leave =>
      var i := s.holder.value;
      var g := s.sections[i].owner;
      if s.sections[i].drains
      then s.(holder := None, pending := [], taken := s.taken[i := s.pending], stacks := s.stacks[g := Stack(s, g) + [i]])
      else s.(holder := None)
    case FireNext(g) =>
      var i := Top(s, g);
      s.(taken := s.taken[i := s.taken[i][1..]], fired := s.fired + [Fire(g, i, s.taken[i][0])])
    case Return(g) =>
      s.(stacks := s.stacks[g := Stack(s, g)[..|Stack(s, g)| - 1]])
  }

  /** The state after a run of steps, none when one of them is not enabled. */
  function Run(steps: seq<Step>): Option<State> {
    if steps == [] then Some(INIT)
    else
      var s := Run(steps[..|steps| - 1]);
      if s.None? || !Enabled(s.value, steps[|steps| - 1]) then None else Some(Next(s.value, steps[|steps| - 1]))
  }

  // ---- what one section queued, and what has fired of it ----

  function QueuedBy(queued: seq<nat>, i: nat): seq<nat> {
    if queued == [] then []
    else QueuedBy(queued[..|queued| - 1], i) + if queued[|queued| - 1] == i then [|queued| - 1] else []
  }

  function FiredOf(fired: seq<Fire>, i: nat): seq<nat> {
    if fired == [] then []
    else FiredOf(fired[..|fired| - 1], i)
         + if fired[|fired| - 1].section == i then [fired[|fired| - 1].callback] else []
  }

  function PendingOf(s: State, i: nat): seq<nat> { if s.holder == Some(i) then s.pending else [] }

  function TakenOf(s: State, i: nat): seq<nat> { if i < |s.taken| then s.taken[i] else [] }

  ghost predicate Accounted(s: State, i: nat) {
    FiredOf(s.fired, i) + TakenOf(s, i) + PendingOf(s, i) == QueuedBy(s.queued, i)
  }

  /** Names in range, and a batch is fired by the goroutine that took it. */
  ghost predicate Shape(s: State) {
    && |s.taken| == |s.sections|
    && (s.holder.Some? ==> s.holder.value == |s.sections| - 1 && s.taken[s.holder.value] == [])
    && (s.pending != [] ==> s.holder.Some? && s.sections[s.holder.value].drains)
    && (forall g, k :: g in s.stacks && 0 <= k < |s.stacks[g]| ==> OnStack(s, g, s.stacks[g][k]))
    && (forall a :: 0 <= a < |s.fired| ==>
          s.fired[a].section < |s.sections| && s.fired[a].on == s.sections[s.fired[a].section].owner)
  }

  ghost predicate OnStack(s: State, g: goroutine, i: nat) {
    i < |s.sections| && s.sections[i].owner == g && s.holder != Some(i)
  }

  /** Whatever is still to fire belongs to a batch some goroutine is part way through. */
  ghost predicate Live(s: State) {
    forall i :: 0 <= i < |s.taken| && i < |s.sections| && s.taken[i] != [] ==> i in Stack(s, s.sections[i].owner)
  }

  ghost predicate Inv(s: State) {
    Shape(s) && Live(s) && forall i: nat :: Accounted(s, i)
  }

  /** Every callback was queued in a section that drains. */
  ghost predicate Disciplined(s: State) {
    forall c :: 0 <= c < |s.queued| ==> s.queued[c] < |s.sections| && s.sections[s.queued[c]].drains
  }

  lemma DisciplinedBefore(s: State, step: Step)
    requires Enabled(s, step) && Disciplined(Next(s, step)) && |s.taken| == |s.sections|
    requires forall c :: 0 <= c < |s.queued| ==> s.queued[c] < |s.sections|
    ensures Disciplined(s) && (step.Emit? ==> s.sections[s.holder.value].drains)
  {
    var t := Next(s, step);
    forall c | 0 <= c < |s.queued|
      ensures s.sections[s.queued[c]].drains
    {
      assert t.queued[c] == s.queued[c];
    }
    if step.Emit? {
      assert t.queued[|s.queued|] == s.holder.value;
    }
  }

  lemma ShapeStep(s: State, step: Step)
    requires Shape(s) && Enabled(s, step) && (step.Emit? ==> s.sections[s.holder.value].drains)
    ensures Shape(Next(s, step))
  {
    var t := Next(s, step);
    forall g, k | g in t.stacks && 0 <= k < |t.stacks[g]|
      ensures OnStack(t, g, t.stacks[g][k])
    {
      if g in s.stacks && k < |s.stacks[g]| {
        assert OnStack(s, g, s.stacks[g][k]);
      }
    }
  }

  /** A stack loses at most its top, and that only once there is nothing left to fire. */
  lemma StackKeeps(s: State, step: Step, g: goroutine, k: nat)
    requires Shape(s) && Enabled(s, step) && k < |Stack(s, g)|
    requires step == Return(g) ==> s.taken[Stack(s, g)[k]] != []
    ensures k < |Stack(Next(s, step), g)| && Stack(Next(s, step), g)[k] == Stack(s, g)[k]
  {
  }

  lemma LiveStep(s: State, step: Step)
    requires Shape(s) && Live(s) && Enabled(s, step)
    ensures Live(Next(s, step))
  {
    var t := Next(s, step);
    forall i | 0 <= i < |t.taken| && i < |t.sections| && t.taken[i] != []
      ensures i in Stack(t, t.sections[i].owner)
    {
      var g := t.sections[i].owner;
      if step.Leave? && i == s.holder.value {
        assert Stack(t, g)[|Stack(s, g)|] == i;
      } else {
        assert s.taken[i] != [] && i in Stack(s, g);
        var k :| 0 <= k < |Stack(s, g)| && Stack(s, g)[k] == i;
        StackKeeps(s, step, g, k);
      }
    }
  }

  lemma FiredNext(fired: seq<Fire>, f: Fire, i: nat)
    ensures FiredOf(fired + [f], i) == FiredOf(fired, i) + if f.section == i then [f.callback] else []
  {
    assert (fired + [f])[..|fired|] == fired;
  }

  lemma AfterFire(s: State, g: goroutine, i: nat)
    requires Shape(s) && Enabled(s, FireNext(g))
    ensures var t, top := Next(s, FireNext(g)), Top(s, g);
            && t.queued == s.queued && PendingOf(t, i) == PendingOf(s, i)
            && t.fired == s.fired + [Fire(g, top, s.taken[top][0])]
            && TakenOf(s, i) == (if i == top then [s.taken[top][0]] else []) + TakenOf(t, i)
  {
    var t, top := Next(s, FireNext(g)), Top(s, g);
    if i == top {
      assert s.taken[i] == [s.taken[i][0]] + s.taken[i][1..];
    } else {
      assert [] + TakenOf(t, i) == TakenOf(s, i);
    }
  }

  lemma AccountedFire(s: State, g: goroutine, i: nat)
    requires Shape(s) && Enabled(s, FireNext(g)) && Accounted(s, i)
    ensures Accounted(Next(s, FireNext(g)), i)
  {
    hide FiredOf;
    hide QueuedBy;
    hide Shape;
    hide Next;
    hide PendingOf;
    hide TakenOf;
    var t, top := Next(s, FireNext(g)), Top(s, g);
    var f, c := FiredOf(s.fired, i), if i == top then [s.taken[top][0]] else [];
    AfterFire(s, g, i);
    FiredNext(s.fired, Fire(g, top, s.taken[top][0]), i);
    assert f + (c + TakenOf(t, i)) + PendingOf(t, i) == (f + c) + TakenOf(t, i) + PendingOf(t, i);
  }

  lemma AccountedEmit(s: State, i: nat)
    requires Shape(s) && Enabled(s, Emit) && Accounted(s, i)
    ensures Accounted(Next(s, Emit), i)
  {
    var t := Next(s, Emit);
    assert QueuedBy(t.queued, i) == QueuedBy(s.queued, i) + (if i == s.holder.value then [|s.queued|] else []) by {
      assert t.queued[..|t.queued| - 1] == s.queued;
    }
  }

  lemma AccountedStep(s: State, step: Step, i: nat)
    requires Shape(s) && Enabled(s, step) && Accounted(s, i)
    ensures Accounted(Next(s, step), i)
  {
    match step
    case Emit => AccountedEmit(s, i);
    case FireNext(g) => AccountedFire(s, g, i);
    case Enter(_, _) =>
    case Leave =>
    case Return(_) =>
  }

  /** Names in range, whatever the sections do. */
  ghost predicate Named(s: State) {
    && |s.taken| == |s.sections|
    && (s.holder.Some? ==> s.holder.value == |s.sections| - 1)
    && (forall c :: 0 <= c < |s.queued| ==> s.queued[c] < |s.sections|)
  }

  lemma {:induction false} AlwaysNamed(steps: seq<Step>)
    requires Run(steps).Some?
    ensures Named(Run(steps).value)
  {
    if steps != [] {
      AlwaysNamed(steps[..|steps| - 1]);
    }
  }

  lemma {:induction false} ReachableInv(steps: seq<Step>)
    requires Run(steps).Some? && Disciplined(Run(steps).value)
    ensures Inv(Run(steps).value)
  {
    if steps == [] {
      assert forall i: nat :: Accounted(INIT, i);
    } else {
      var s, step := Run(steps[..|steps| - 1]).value, steps[|steps| - 1];
      AlwaysNamed(steps[..|steps| - 1]);
      DisciplinedBefore(s, step);
      ReachableInv(steps[..|steps| - 1]);
      ShapeStep(s, step);
      LiveStep(s, step);
      forall i: nat
        ensures Accounted(Next(s, step), i)
      {
        AccountedStep(s, step, i);
      }
    }
  }

  // ---- what every interleaving guarantees ----

  lemma {:induction false} QueuedByIncreases(queued: seq<nat>, i: nat)
    ensures forall a, b :: 0 <= a < b < |QueuedBy(queued, i)| ==> QueuedBy(queued, i)[a] < QueuedBy(queued, i)[b]
    ensures forall a :: 0 <= a < |QueuedBy(queued, i)| ==>
              QueuedBy(queued, i)[a] < |queued| && queued[QueuedBy(queued, i)[a]] == i
  {
    if queued != [] {
      QueuedByIncreases(queued[..|queued| - 1], i);
    }
  }

  lemma {:induction false} QueuedByAll(queued: seq<nat>, c: nat)
    requires c < |queued|
    ensures c in QueuedBy(queued, queued[c])
  {
    if c < |queued| - 1 {
      QueuedByAll(queued[..|queued| - 1], c);
    }
  }

  // The position a callback's firing takes among those of its section.
  function Position(fired: seq<Fire>, a: nat): (k: nat)
    requires a < |fired|
    ensures k < |FiredOf(fired, fired[a].section)| && FiredOf(fired, fired[a].section)[k] == fired[a].callback
  {
    if a == |fired| - 1 then |FiredOf(fired[..a], fired[a].section)| else Position(fired[..|fired| - 1], a)
  }

  lemma {:induction false} PositionOrder(fired: seq<Fire>, a: nat, b: nat)
    requires a < b < |fired| && fired[a].section == fired[b].section
    ensures Position(fired, a) < Position(fired, b)
  {
    if b == |fired| - 1 {
      assert fired[..b][a] == fired[a];
    } else {
      PositionOrder(fired[..|fired| - 1], a, b);
    }
  }

  /** A short section, over and done with, that has queued a callback all the same. */
  ghost predicate Leaked(s: State, i: nat) {
    i < |s.sections| && !s.sections[i].drains && s.holder != Some(i) && i in s.queued
  }

  /** What is on the queue was put there by the section that holds the lock or by short
      ones, and all the section that holds the lock has queued is still there. */
  ghost predicate OnQueue(s: State) {
    && (forall c :: c in s.pending ==> c < |s.queued| && s.queued[c] < |s.sections|
                                       && (s.holder == Some(s.queued[c]) || !s.sections[s.queued[c]].drains))
    && (s.holder.Some? ==> forall c :: 0 <= c < |s.queued| && s.queued[c] == s.holder.value ==> c in s.pending)
  }

  lemma OnQueueStep(s: State, step: Step)
    requires Named(s) && OnQueue(s) && Enabled(s, step)
    ensures OnQueue(Next(s, step))
  {
  }

  lemma {:induction false} AlwaysOnQueue(steps: seq<Step>)
    requires Run(steps).Some?
    ensures OnQueue(Run(steps).value)
  {
    if steps != [] {
      AlwaysNamed(steps[..|steps| - 1]);
      AlwaysOnQueue(steps[..|steps| - 1]);
      OnQueueStep(Run(steps[..|steps| - 1]).value, steps[|steps| - 1]);
    }
  }

  /** The lock is free with callbacks left on the queue. */
  ghost predicate LeftOver(steps: seq<Step>, n: nat)
    requires n <= |steps|
  {
    Run(steps[..n]).Some? && Run(steps[..n]).value.holder.None? && Run(steps[..n]).value.pending != []
  }

  lemma LeakedStays(s: State, step: Step, i: nat)
    requires Named(s) && Enabled(s, step) && Leaked(s, i)
    ensures Leaked(Next(s, step), i)
  {
  }

  lemma LeakedHere(s: State, step: Step, i: nat)
    requires Named(s) && OnQueue(s) && Enabled(s, step) && Leaked(Next(s, step), i) && !Leaked(s, i)
    ensures Next(s, step).holder.None? && Next(s, step).pending != []
  {
    if i < |s.sections| && s.holder == Some(i) && i in s.queued {
      var c :| 0 <= c < |s.queued| && s.queued[c] == i;
      assert c in s.pending;
    }
  }

  lemma LeakedLeavesOver(steps: seq<Step>, i: nat) returns (n: nat)
    requires Run(steps).Some? && Leaked(Run(steps).value, i)
    ensures n <= |steps| && LeftOver(steps, n)
  {
    if steps == [] {
      assert false;
    } else {
      var front := steps[..|steps| - 1];
      var s := Run(front).value;
      if Leaked(s, i) {
        n := LeakedLeavesOver(front, i);
        assert front[..n] == steps[..n];
      } else {
        AlwaysNamed(front);
        AlwaysOnQueue(front);
        LeakedHere(s, steps[|steps| - 1], i);
        n := |steps|;
        assert steps[..n] == steps;
      }
    }
  }

  lemma {:induction false} LeftOverLeaks(steps: seq<Step>, n: nat) returns (i: nat)
    requires Run(steps).Some? && n <= |steps| && LeftOver(steps, n)
    ensures Leaked(Run(steps).value, i)
  {
    if n == |steps| {
      assert steps[..n] == steps;
      var s := Run(steps).value;
      AlwaysOnQueue(steps);
      var c := s.pending[0];
      assert c in s.pending;
      i := s.queued[c];
    } else {
      var front := steps[..|steps| - 1];
      assert front[..n] == steps[..n];
      i := LeftOverLeaks(front, n);
      AlwaysNamed(front);
      LeakedStays(Run(front).value, steps[|steps| - 1], i);
    }
  }

  /** In every interleaving: whenever the lock is free the queue is empty, at every point
      of the run, exactly when no short section that is over has queued anything. */
  lemma FreeMeansDrained(steps: seq<Step>)
    requires Run(steps).Some?
    ensures (forall n :: 0 <= n <= |steps| ==> !LeftOver(steps, n)) <==> forall i: nat :: !Leaked(Run(steps).value, i)
  {
    if n :| 0 <= n <= |steps| && LeftOver(steps, n) {
      var i := LeftOverLeaks(steps, n);
    }
    if i: nat :| Leaked(Run(steps).value, i) {
      var n := LeakedLeavesOver(steps, i);
    }
  }

  /** What has fired of a section's callbacks is always a prefix of what it queued,
      in queue order; once its goroutine is done with the batch it is all of it. */
  lemma BatchOrder(steps: seq<Step>, i: nat)
    requires Run(steps).Some? && Disciplined(Run(steps).value)
    ensures var s := Run(steps).value;
            && FiredOf(s.fired, i) <= QueuedBy(s.queued, i)
            && (i < |s.sections| && s.holder != Some(i) && i !in Stack(s, s.sections[i].owner)
                ==> FiredOf(s.fired, i) == QueuedBy(s.queued, i))
  {
    ReachableInv(steps);
    assert Accounted(Run(steps).value, i);
  }

  /** Every firing is of a callback that was queued, on the goroutine whose critical
      section queued it, and no callback fires twice; two callbacks of one section
      fire in the order they were queued. */
  lemma FiresOnceInOrder(steps: seq<Step>, a: nat)
    requires Run(steps).Some? && Disciplined(Run(steps).value) && a < |Run(steps).value.fired|
    ensures var s := Run(steps).value;
            var f := s.fired[a];
            && f.callback < |s.queued| && s.queued[f.callback] == f.section < |s.sections|
            && f.on == s.sections[f.section].owner
            && forall b :: a < b < |s.fired| ==>
                 s.fired[b].callback != f.callback
                 && (s.fired[b].section == f.section ==> f.callback < s.fired[b].callback)
  {
    var s := Run(steps).value;
    ReachableInv(steps);
    forall x | a <= x < |s.fired|
      ensures s.fired[x].callback < |s.queued| && s.queued[s.fired[x].callback] == s.fired[x].section
    {
      var i, k := s.fired[x].section, Position(s.fired, x);
      BatchOrder(steps, i);
      QueuedByIncreases(s.queued, i);
      assert QueuedBy(s.queued, i)[k] == s.fired[x].callback;
    }
    forall b | a < b < |s.fired| && s.fired[b].section == s.fired[a].section
      ensures s.fired[a].callback < s.fired[b].callback
    {
      var i := s.fired[a].section;
      PositionOrder(s.fired, a, b);
      BatchOrder(steps, i);
      QueuedByIncreases(s.queued, i);
      assert QueuedBy(s.queued, i)[Position(s.fired, a)] < QueuedBy(s.queued, i)[Position(s.fired, b)];
    }
  }

  /** When the lock is free and no goroutine is part way through a batch, every
      callback ever queued has fired. */
  lemma QuiescentMeansAllFired(steps: seq<Step>, c: nat)
    requires Run(steps).Some? && Disciplined(Run(steps).value)
    requires var s := Run(steps).value; s.holder.None? && (forall g :: Stack(s, g) == []) && c < |s.queued|
    ensures exists a :: 0 <= a < |Run(steps).value.fired| && Run(steps).value.fired[a].callback == c
  {
    var s := Run(steps).value;
    ReachableInv(steps);
    var i := s.queued[c];
    QueuedByAll(s.queued, c);
    assert Accounted(s, i);
    assert Stack(s, s.sections[i].owner) == [] && s.taken[i] == [];
    FiredOfMember(s.fired, i, c);
  }

  lemma {:induction false} FiredOfMember(fired: seq<Fire>, i: nat, c: nat)
    requires c in FiredOf(fired, i)
    ensures exists a :: 0 <= a < |fired| && fired[a].callback == c
  {
    var n := |fired| - 1;
    if fired[n].section == i && fired[n].callback == c {
    } else {
      FiredOfMember(fired[..n], i, c);
      var a :| 0 <= a < n && fired[..n][a].callback == c;
      assert fired[a].callback == c;
    }
  }

  // ---- whole sections ----

  function Emits(n: nat): seq<Step> { seq(n, _ => Emit) }

  /** A draining section from the lock being taken to its release, and a short one. */
  function Draining(g: goroutine, n: nat): seq<Step> { [Enter(g, true)] + Emits(n) + [Leave] }

  function Short(g: goroutine): seq<Step> { [Enter(g, false), Leave] }

  function Consecutive(from: nat, n: nat): seq<nat> { seq(n, j requires 0 <= j < n => from + j) }

  function Repeated(i: nat, n: nat): seq<nat> { seq(n, _ => i) }

  /** The state after a draining section that queues n callbacks. */
  function AfterDraining(s: State, g: goroutine, n: nat): State {
    s.(sections := s.sections + [Section(g, true)], queued := s.queued + Repeated(|s.sections|, n),
       taken := s.taken + [Consecutive(|s.queued|, n)], stacks := s.stacks[g := Stack(s, g) + [|s.sections|]])
  }

  function AfterShort(s: State, g: goroutine): State {
    s.(sections := s.sections + [Section(g, false)], taken := s.taken + [[]])
  }

  /** Outside all sections with an empty queue. */
  ghost predicate Idle(s: State) { s.holder.None? && s.pending == [] && |s.taken| == |s.sections| }

  lemma RunNext(steps: seq<Step>, s: State, step: Step)
    requires Run(steps) == Some(s) && Enabled(s, step)
    ensures Run(steps + [step]) == Some(Next(s, step))
  {
    assert (steps + [step])[..|steps|] == steps;
  }

  function AfterEmits(s: State, n: nat): State
    requires s.holder.Some?
  {
    s.(queued := s.queued + Repeated(s.holder.value, n), pending := s.pending + Consecutive(|s.queued|, n))
  }

  lemma EmitMore(s: State, n: nat)
    requires Enabled(s, Emit)
    ensures AfterEmits(s, 0) == s
    ensures n > 0 ==> Enabled(AfterEmits(s, n - 1), Emit) && Next(AfterEmits(s, n - 1), Emit) == AfterEmits(s, n)
  {
    assert s.queued + [] == s.queued && s.pending + [] == s.pending;
    if n > 0 {
      var t, i := AfterEmits(s, n - 1), s.holder.value;
      assert Repeated(i, n) == Repeated(i, n - 1) + [i];
      assert Consecutive(|s.queued|, n) == Consecutive(|s.queued|, n - 1) + [|s.queued| + n - 1];
      assert t.queued + [i] == s.queued + Repeated(i, n);
      assert t.pending + [|t.queued|] == s.pending + Consecutive(|s.queued|, n);
    }
  }

  lemma {:induction false} EmitsRun(steps: seq<Step>, s: State, n: nat)
    requires Run(steps) == Some(s) && Enabled(s, Emit) && s.holder.Some?
    ensures Run(steps + Emits(n)) == Some(AfterEmits(s, n))
  {
    hide Run;
    hide Enabled;
    hide Next;
    hide AfterEmits;
    EmitMore(s, n);
    if n == 0 {
      assert steps + Emits(0) == steps;
    } else {
      EmitsRun(steps, s, n - 1);
      RunNext(steps + Emits(n - 1), AfterEmits(s, n - 1), Emit);
      assert steps + Emits(n - 1) + [Emit] == steps + Emits(n);
    }
  }

  lemma DrainingRuns(steps: seq<Step>, s: State, g: goroutine, n: nat)
    requires Run(steps) == Some(s) && Idle(s)
    ensures Run(steps + Draining(g, n)) == Some(AfterDraining(s, g, n)) && Idle(AfterDraining(s, g, n))
  {
    hide Run;
    var in0 := Next(s, Enter(g, true));
    var i := |s.sections|;
    RunNext(steps, s, Enter(g, true));
    EmitsRun(steps + [Enter(g, true)], in0, n);
    var in1 := in0.(queued := s.queued + Repeated(i, n), pending := Consecutive(|s.queued|, n));
    assert [] + Consecutive(|s.queued|, n) == Consecutive(|s.queued|, n);
    RunNext(steps + [Enter(g, true)] + Emits(n), in1, Leave);
    assert steps + [Enter(g, true)] + Emits(n) + [Leave] == steps + Draining(g, n);
    assert in1.taken[i := in1.pending] == s.taken + [in1.pending];
  }

  lemma ShortRuns(steps: seq<Step>, s: State, g: goroutine)
    requires Run(steps) == Some(s) && Idle(s)
    ensures Run(steps + Short(g)) == Some(AfterShort(s, g)) && Idle(AfterShort(s, g))
  {
    hide Run;
    RunNext(steps, s, Enter(g, false));
    RunNext(steps + [Enter(g, false)], Next(s, Enter(g, false)), Leave);
    assert steps + [Enter(g, false)] + [Leave] == steps + Short(g);
  }
}
