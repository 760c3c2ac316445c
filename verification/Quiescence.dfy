/** Teardown quiescence: a mutex, a condition variable, an `active` flag and an
    in-flight count shared by any number of threads.

    Every lock, unlock, wait, wake-up and notification is a step of its own, so a
    run is an arbitrary interleaving of callers, dialog completions and teardown
    threads.  Time and mutex poisoning are nondeterministic. */
module Quiescence {
  import opened Options

  /** Where a thread is. */
  datatype Pc =
    // a caller: `enter`, the closure, and the guard's drop
    | Idle
    | WantEnter                   // about to lock in `enter`
    | Entering                    // locked, before the test
    | Entered                     // locked, counted
    | Refused                     // locked, turned away
    | InCall                      // unlocked, guard alive, closure running
    | WantDrop                    // closure over, about to lock in `drop`
    | Dropping                    // locked, before the decrement
    | Dropped(wake: bool)         // locked, after the decrement
    | Notifying                   // unlocked, about to notify
    // a file dialog that has its outcome, before it becomes a caller
    | DialogCheck | DialogDiscard | DialogWrite | DialogClose | DialogRecheck
    // a teardown thread inside `quiesce`
    | WantQuiesce
    | Closing                     // locked, before `active := false`
    | Phase1                      // locked, at the grace-period test
    | TimedWait(notified: bool)   // unlocked, waiting with a deadline
    | Relock1                     // woken, about to lock again
    | GivingUp                    // locked, deadline passed with calls in flight
    | Gap                         // unlocked between the two waits
    | Phase2                      // locked, at the unbounded test
    | FinalWait(notified: bool)   // unlocked, waiting without a deadline
    | CleanExit | StalledExit     // locked, nothing in flight
    | Done(stalled: bool)

  /** The fields all threads share; `owner` is the holder of the state mutex. */
  datatype Shared = Shared(
    usesFence: bool,              // the host-call coordinator tests the fence, the host-log one does not
    active: bool,
    inFlight: nat,
    fence: bool,
    poisoned: bool,
    owner: Option<nat>,
    pendingWrites: nat,           // dialog outcomes written to the pending slot
    dialogActive: bool)

  datatype State = State(sh: Shared, pcs: seq<Pc>)

  datatype Kind =
    | StartCall | StartDialog | StartQuiesce
    | Acquire                     // lock the mutex
    | Work                        // one step of the code
    | Expire                      // the grace period has run out
    | Release                     // unlock the mutex
    | Wake                        // notified, timed out, or spurious

  datatype Action =
    | Step(t: nat, kind: Kind)
    | Spawn | LowerFence | SetPoison(b: bool)

  predicate Wants(pc: Pc) {
    pc.WantEnter? || pc.WantDrop? || pc.WantQuiesce? || pc.Relock1? || pc.Gap?
  }

  predicate Holds(pc: Pc) {
    pc.Entering? || pc.Dropping? || pc.Closing? || pc.Phase1? || pc.Phase2? || Unlocks(pc)
  }

  predicate Unlocks(pc: Pc) {
    pc.Entered? || pc.Refused? || pc.Dropped? || pc.GivingUp? || pc.CleanExit? || pc.StalledExit?
  }

  predicate Waits(pc: Pc) { pc.TimedWait? || pc.FinalWait? }

  predicate Works(pc: Pc) {
    pc.Entering? || pc.InCall? || pc.Dropping? || pc.Notifying? || pc.Closing? || pc.Phase1? || pc.Phase2?
    || pc.DialogCheck? || pc.DialogDiscard? || pc.DialogWrite? || pc.DialogClose? || pc.DialogRecheck?
  }

  predicate Can(sh: Shared, pc: Pc, kind: Kind) {
    match kind
    case StartCall => pc.Idle?
    case StartDialog => pc.Idle?
    case StartQuiesce => pc.Idle?
    case Acquire => sh.owner.None? && Wants(pc)
    case Work => Works(pc)
    case Expire => pc.Phase1? && sh.inFlight > 0
    case Release => Unlocks(pc)
    case Wake => Waits(pc)
  }

  function Locked(pc: Pc): Pc {
    match pc
    case WantEnter => Entering
    case WantDrop => Dropping
    case WantQuiesce => Closing
    case Relock1 => Phase1
    case _ => Phase2
  }

  function Unlocked(pc: Pc): Pc {
    match pc
    case Entered => InCall
    case Dropped(wake) => if wake then Notifying else Idle
    case GivingUp => Gap
    case CleanExit => Done(false)
    case StalledExit => Done(true)
    case _ => Idle
  }

  /** One step of the code of a thread at `pc`. */
  function WorkOf(sh: Shared, pc: Pc): (Shared, Pc)
    requires Works(pc)
  {
    match pc
    case Entering =>
      if !sh.poisoned && sh.active && (sh.usesFence ==> sh.fence)
      then (sh.(inFlight := sh.inFlight + 1), Entered)
      else (sh, Refused)
    case InCall => (sh, WantDrop)
    case Dropping =>
      var left := if sh.inFlight > 0 then sh.inFlight - 1 else 0;     // saturating_sub
      (sh.(inFlight := left), Dropped(left == 0))
    case Notifying => (sh, Idle)
    case DialogCheck => (sh, if sh.fence then DialogWrite else DialogDiscard)
    case DialogDiscard => (sh.(dialogActive := false), Idle)
    case DialogWrite => (sh.(pendingWrites := sh.pendingWrites + 1), DialogClose)
    case DialogClose => (sh.(dialogActive := false), DialogRecheck)
    case DialogRecheck => (sh, if sh.fence then WantEnter else Idle)
    case Closing => (sh.(active := false), Phase1)
    case Phase1 =>                                  // waiting releases the mutex
      if sh.inFlight == 0 then (sh, CleanExit) else (sh.(owner := None), TimedWait(false))
    case _ =>
      if sh.inFlight == 0 then (sh, StalledExit) else (sh.(owner := None), FinalWait(false))
  }

  function Local(sh: Shared, pc: Pc, t: nat, kind: Kind): (Shared, Pc)
    requires Can(sh, pc, kind)
  {
    match kind
    case StartCall => (sh, WantEnter)
    case StartDialog => (sh.(dialogActive := true), DialogCheck)
    case StartQuiesce => (sh, WantQuiesce)
    case Acquire => (sh.(owner := Some(t)), Locked(pc))
    case Work => WorkOf(sh, pc)
    case Expire => (sh, GivingUp)
    case Release => (sh.(owner := None), Unlocked(pc))
    case Wake => (sh, if pc.TimedWait? then Relock1 else Gap)
  }

  function Notified(pc: Pc): Pc {
    match pc
    case TimedWait(_) => TimedWait(true)
    case FinalWait(_) => FinalWait(true)
    case _ => pc
  }

  function NotifyAll(pcs: seq<Pc>): (r: seq<Pc>)
    ensures |r| == |pcs| && forall i :: 0 <= i < |pcs| ==> r[i] == Notified(pcs[i])
  {
    seq(|pcs|, i requires 0 <= i < |pcs| => Notified(pcs[i]))
  }

  predicate Enabled(s: State, a: Action) {
    a.Step? ==> a.t < |s.pcs| && Can(s.sh, s.pcs[a.t], a.kind)
  }

  function Apply(s: State, a: Action): State
    requires Enabled(s, a)
  {
    match a
    case Step(t, kind) =>
      var (sh, pc) := Local(s.sh, s.pcs[t], t, kind);
      State(sh, (if s.pcs[t].Notifying? then NotifyAll(s.pcs) else s.pcs)[t := pc])
    case Spawn => s.(pcs := s.pcs + [Idle])
    case LowerFence => s.(sh := s.sh.(fence := false))
    case SetPoison(b) => s.(sh := s.sh.(poisoned := b))
  }

  predicate Initial(s: State) {
    s.sh.active && s.sh.inFlight == 0 && s.sh.owner.None?
    && forall t :: 0 <= t < |s.pcs| ==> s.pcs[t].Idle?
  }

  /** A run: every action is enabled when it is taken. */
  predicate Runs(s: State, acts: seq<Action>)
    decreases |acts|
  {
    acts == [] || (Enabled(s, acts[0]) && Runs(Apply(s, acts[0]), acts[1..]))
  }

  function After(s: State, acts: seq<Action>): State
    requires Runs(s, acts)
    decreases |acts|
  {
    if acts == [] then s else After(Apply(s, acts[0]), acts[1..])
  }

  // ---------- counting ----------

  predicate Counted(pc: Pc) {
    pc.Entered? || pc.InCall? || pc.WantDrop? || pc.Dropping?
  }

  function Guards(pcs: seq<Pc>): nat {
    if pcs == [] then 0
    else Guards(pcs[..|pcs| - 1]) + (if Counted(pcs[|pcs| - 1]) then 1 else 0)
  }

  /** Steps a thread still owes before it has given back its guard and notified. */
  function Owed(pc: Pc): nat {
    match pc
    case Entered => 6
    case InCall => 5
    case WantDrop => 4
    case Dropping => 3
    case Dropped(_) => 2
    case Notifying => 1
    case _ => 0
  }

  function TotalOwed(pcs: seq<Pc>): nat {
    if pcs == [] then 0 else TotalOwed(pcs[..|pcs| - 1]) + Owed(pcs[|pcs| - 1])
  }

  predicate SameExcept(a: seq<Pc>, b: seq<Pc>, t: nat) {
    |a| == |b| && t < |a|
    && forall i :: 0 <= i < |a| && i != t ==> Counted(a[i]) == Counted(b[i]) && Owed(a[i]) == Owed(b[i])
  }

  lemma {:induction false} CountsDiffer(a: seq<Pc>, b: seq<Pc>, t: nat)
    requires |a| == |b| && (t < |a| ==> SameExcept(a, b, t))
    requires t >= |a| ==> forall i :: 0 <= i < |a| ==> Counted(a[i]) == Counted(b[i]) && Owed(a[i]) == Owed(b[i])
    ensures Guards(b) == Guards(a)
      + (if t < |a| && Counted(b[t]) then 1 else 0) - (if t < |a| && Counted(a[t]) then 1 else 0)
    ensures TotalOwed(b) == TotalOwed(a)
      + (if t < |a| then Owed(b[t]) else 0) - (if t < |a| then Owed(a[t]) else 0)
  {
    if a != [] {
      var n := |a| - 1;
      CountsDiffer(a[..n], b[..n], t);
    }
  }

  lemma {:induction false} GuardAlive(pcs: seq<Pc>, t: nat)
    requires t < |pcs|
    ensures Counted(pcs[t]) ==> Guards(pcs) > 0
    ensures TotalOwed(pcs) >= Owed(pcs[t])
  {
    if t < |pcs| - 1 { GuardAlive(pcs[..|pcs| - 1], t); }
  }

  lemma {:induction false} SomeoneOwes(pcs: seq<Pc>) returns (t: nat)
    requires TotalOwed(pcs) > 0
    ensures t < |pcs| && Owed(pcs[t]) > 0
  {
    var n := |pcs| - 1;
    if Owed(pcs[n]) > 0 { t := n; } else { t := SomeoneOwes(pcs[..n]); }
  }

  lemma {:induction false} NothingOwedNothingCounted(pcs: seq<Pc>)
    requires TotalOwed(pcs) == 0
    ensures Guards(pcs) == 0
  {
    if pcs != [] { NothingOwedNothingCounted(pcs[..|pcs| - 1]); }
  }

  // ---------- the invariant ----------

  /** `active` has been cleared by this thread. */
  predicate Closed(pc: Pc) {
    pc.Phase1? || pc.TimedWait? || pc.Relock1? || pc.GivingUp? || pc.Gap? || pc.Phase2?
    || pc.FinalWait? || Finished(pc)
  }

  predicate Finished(pc: Pc) { pc.CleanExit? || pc.StalledExit? || pc.Done? }

  predicate Asleep(pc: Pc) { pc == TimedWait(false) || pc == FinalWait(false) }

  predicate WillNotify(pc: Pc) { pc == Dropped(true) || pc.Notifying? }

  /** The mutex is held by exactly the threads whose code runs under it. */
  ghost predicate MutexInv(s: State) {
    (forall t :: 0 <= t < |s.pcs| ==> (Holds(s.pcs[t]) <==> s.sh.owner == Some(t)))
    && (s.sh.owner.Some? ==> s.sh.owner.value < |s.pcs|)
  }

  /** Once some thread has closed the coordinator it is inactive, and a thread that
      saw nothing in flight is right for ever. */
  ghost predicate ClosedInv(s: State) {
    forall t :: 0 <= t < |s.pcs| ==>
      (Closed(s.pcs[t]) ==> !s.sh.active) && (Finished(s.pcs[t]) ==> s.sh.inFlight == 0)
  }

  /** No lost wake-up: who sleeps un-notified has a call to wait for or a notification coming. */
  ghost predicate WakeInv(s: State) {
    s.sh.inFlight > 0
    || (forall t :: 0 <= t < |s.pcs| ==> !Asleep(s.pcs[t]))
    || exists u :: 0 <= u < |s.pcs| && WillNotify(s.pcs[u])
  }

  ghost predicate Inv(s: State) {
    MutexInv(s) && s.sh.inFlight == Guards(s.pcs) && ClosedInv(s) && WakeInv(s)
  }

  lemma {:induction false} InitialInv(s: State)
    requires Initial(s)
    ensures Inv(s)
  {
    AllIdle(s.pcs);
  }

  lemma {:induction false} AllIdle(pcs: seq<Pc>)
    requires forall t :: 0 <= t < |pcs| ==> pcs[t].Idle?
    ensures Guards(pcs) == 0 && TotalOwed(pcs) == 0
  {
    if pcs != [] { AllIdle(pcs[..|pcs| - 1]); }
  }

  /** What a step does to the shared fields, read off the two positions of its thread. */
  ghost predicate Effect(sh: Shared, p: Pc, sh': Shared, q: Pc, t: nat) {
    && (!sh.active ==> !sh'.active && !q.Entered?)
    && (Closed(q) ==> !sh'.active)
    && (Finished(q) ==> sh'.inFlight == 0)
    && (sh'.active == sh.active || p.Closing?)
    && (if q.Entered? then p.Entering? && sh'.inFlight == sh.inFlight + 1
        else if q.Dropped? then p.Dropping? && (sh.inFlight > 0 ==> sh'.inFlight == sh.inFlight - 1)
                                && q.wake == (sh'.inFlight == 0)
        else sh'.inFlight == sh.inFlight && Counted(q) == Counted(p))
    && (sh'.owner == if Holds(q) then Some(t) else if Holds(p) then None else sh.owner)
    && (Holds(q) && !Holds(p) ==> sh.owner.None?)
    && (Asleep(q) ==> sh'.inFlight > 0)
    && (WillNotify(p) ==> WillNotify(q) || p.Notifying?)
    && (!sh.active ==> if Owed(p) > 0 then Owed(q) < Owed(p) else Owed(q) == 0)
  }

  lemma LocalEffect(sh: Shared, p: Pc, t: nat, kind: Kind)
    requires Can(sh, p, kind) && (Holds(p) <==> sh.owner == Some(t))
    requires (Closed(p) ==> !sh.active) && (Finished(p) ==> sh.inFlight == 0)
    ensures Effect(sh, p, Local(sh, p, t, kind).0, Local(sh, p, t, kind).1, t)
  {
    hide Effect;
    match kind {
      case Work => WorkEffect(sh, p, t);
      case Acquire => AcquireEffect(sh, p, t);
      case Release => ReleaseEffect(sh, p, t);
      case Wake => WakeEffect(sh, p, t);
      case Expire => ExpireEffect(sh, t);
      case _ => StartEffect(sh, p, t, kind);
    }
  }

  lemma StartEffect(sh: Shared, p: Pc, t: nat, kind: Kind)
    requires p.Idle? && (kind.StartCall? || kind.StartDialog? || kind.StartQuiesce?)
    ensures Effect(sh, p, Local(sh, p, t, kind).0, Local(sh, p, t, kind).1, t)
  {}

  lemma ExpireEffect(sh: Shared, t: nat)
    requires Can(sh, Phase1, Expire) && sh.owner == Some(t) && !sh.active
    ensures Effect(sh, Phase1, Local(sh, Phase1, t, Expire).0, Local(sh, Phase1, t, Expire).1, t)
  {}

  lemma WakeEffect(sh: Shared, p: Pc, t: nat)
    requires Waits(p) && !sh.active
    ensures Effect(sh, p, Local(sh, p, t, Wake).0, Local(sh, p, t, Wake).1, t)
  {}

  lemma AcquireEffect(sh: Shared, p: Pc, t: nat)
    requires Wants(p) && sh.owner.None? && (Closed(p) ==> !sh.active)
    ensures Effect(sh, p, sh.(owner := Some(t)), Locked(p), t)
  {}

  lemma ReleaseEffect(sh: Shared, p: Pc, t: nat)
    requires Unlocks(p) && sh.owner == Some(t)
    requires (Closed(p) ==> !sh.active) && (Finished(p) ==> sh.inFlight == 0)
    ensures Effect(sh, p, sh.(owner := None), Unlocked(p), t)
  {
    match p {
      case Entered => case Refused => case Dropped(_) => case GivingUp => case CleanExit => case StalledExit =>
    }
  }

  lemma WorkEffect(sh: Shared, p: Pc, t: nat)
    requires Works(p) && (Holds(p) <==> sh.owner == Some(t)) && (Closed(p) ==> !sh.active)
    ensures Effect(sh, p, WorkOf(sh, p).0, WorkOf(sh, p).1, t)
  {
    match p {
      case Entering => EnterEffect(sh, t);
      case Dropping => DropEffect(sh, t);
      case Closing => CloseEffect(sh, t);
      case Phase1 => WaitEffect(sh, p, t);
      case Phase2 => WaitEffect(sh, p, t);
      case _ => PlainEffect(sh, p, t);
    }
  }

  lemma EnterEffect(sh: Shared, t: nat)
    requires sh.owner == Some(t)
    ensures Effect(sh, Entering, WorkOf(sh, Entering).0, WorkOf(sh, Entering).1, t)
  {}

  lemma DropEffect(sh: Shared, t: nat)
    requires sh.owner == Some(t)
    ensures Effect(sh, Dropping, WorkOf(sh, Dropping).0, WorkOf(sh, Dropping).1, t)
  {}

  lemma CloseEffect(sh: Shared, t: nat)
    requires sh.owner == Some(t)
    ensures Effect(sh, Closing, WorkOf(sh, Closing).0, WorkOf(sh, Closing).1, t)
  {}

  lemma WaitEffect(sh: Shared, p: Pc, t: nat)
    requires sh.owner == Some(t) && (p.Phase1? || p.Phase2?) && !sh.active
    ensures Effect(sh, p, WorkOf(sh, p).0, WorkOf(sh, p).1, t)
  {}

  lemma PlainEffect(sh: Shared, p: Pc, t: nat)
    requires Works(p) && !Holds(p) && sh.owner != Some(t)
    ensures Effect(sh, p, WorkOf(sh, p).0, WorkOf(sh, p).1, t)
  {
    if p.InCall? || p.Notifying? { CallEffect(sh, p, t); } else { DialogEffect(sh, p, t); }
  }

  lemma CallEffect(sh: Shared, p: Pc, t: nat)
    requires (p.InCall? || p.Notifying?) && sh.owner != Some(t)
    ensures Effect(sh, p, WorkOf(sh, p).0, WorkOf(sh, p).1, t)
  {}

  predicate InDialog(p: Pc) {
    p.DialogCheck? || p.DialogDiscard? || p.DialogWrite? || p.DialogClose? || p.DialogRecheck?
  }

  lemma DialogEffect(sh: Shared, p: Pc, t: nat)
    requires InDialog(p)
    ensures Effect(sh, p, WorkOf(sh, p).0, WorkOf(sh, p).1, t)
  {
    var (r, q) := WorkOf(sh, p);
    assert (r.active, r.inFlight, r.owner) == (sh.active, sh.inFlight, sh.owner);
    assert InDialog(q) || q.Idle? || q.WantEnter?;
    hide WorkOf;
  }

  /** A step of thread `t` moves `t`, and otherwise at most marks sleepers as notified. */
  ghost predicate Moves(s: State, s': State, t: nat) {
    |s'.pcs| == |s.pcs| && t < |s.pcs|
    && Effect(s.sh, s.pcs[t], s'.sh, s'.pcs[t], t)
    && forall i :: 0 <= i < |s.pcs| && i != t ==>
         s'.pcs[i] == if s.pcs[t].Notifying? then Notified(s.pcs[i]) else s.pcs[i]
  }

  lemma StepMoves(s: State, t: nat, kind: Kind)
    requires Inv(s) && Enabled(s, Step(t, kind))
    ensures Moves(s, Apply(s, Step(t, kind)), t)
  {
    assert Holds(s.pcs[t]) <==> s.sh.owner == Some(t);
    LocalEffect(s.sh, s.pcs[t], t, kind);
  }

  lemma MoveCounts(s: State, s': State, t: nat)
    requires Moves(s, s', t) && s.sh.inFlight == Guards(s.pcs)
    ensures s'.sh.inFlight == Guards(s'.pcs)
    ensures !s.sh.active ==> TotalOwed(s'.pcs) <= TotalOwed(s.pcs)
    ensures !s.sh.active && Owed(s.pcs[t]) > 0 ==> TotalOwed(s'.pcs) < TotalOwed(s.pcs)
  {
    CountsDiffer(s.pcs, s'.pcs, t);
    GuardAlive(s.pcs, t);
  }

  lemma MoveMutex(s: State, s': State, t: nat)
    requires Moves(s, s', t) && MutexInv(s)
    ensures MutexInv(s')
  {
    forall i | 0 <= i < |s'.pcs|
      ensures Holds(s'.pcs[i]) <==> s'.sh.owner == Some(i)
    {
      assert Holds(s.pcs[i]) <==> s.sh.owner == Some(i);
      assert Holds(s.pcs[t]) <==> s.sh.owner == Some(t);
    }
  }

  lemma MoveClosed(s: State, s': State, t: nat)
    requires Moves(s, s', t) && ClosedInv(s) && s.sh.inFlight == Guards(s.pcs)
    ensures ClosedInv(s')
  {
    GuardAlive(s.pcs, t);
    forall i | 0 <= i < |s'.pcs|
      ensures (Closed(s'.pcs[i]) ==> !s'.sh.active) && (Finished(s'.pcs[i]) ==> s'.sh.inFlight == 0)
    {
      assert (Closed(s.pcs[i]) ==> !s.sh.active) && (Finished(s.pcs[i]) ==> s.sh.inFlight == 0);
    }
  }

  /** What a step does to who sleeps and who notifies. */
  lemma EffectWakes(sh: Shared, p: Pc, sh': Shared, q: Pc, t: nat)
    requires Effect(sh, p, sh', q, t) && (Counted(p) ==> sh.inFlight > 0)
    ensures (Asleep(q) ==> sh'.inFlight > 0) && (WillNotify(p) ==> WillNotify(q) || p.Notifying?)
    ensures sh'.inFlight == 0 ==> sh.inFlight == 0 || WillNotify(q)
  {}

  lemma MoveWake(s: State, s': State, t: nat)
    requires Moves(s, s', t) && WakeInv(s) && s.sh.inFlight == Guards(s.pcs)
    ensures WakeInv(s')
  {
    GuardAlive(s.pcs, t);
    EffectWakes(s.sh, s.pcs[t], s'.sh, s'.pcs[t], t);
    hide Effect;
    if s'.sh.inFlight == 0 && !WillNotify(s'.pcs[t]) {
      if s.pcs[t].Notifying? {
        forall i | 0 <= i < |s'.pcs| ensures !Asleep(s'.pcs[i]) { assert !Asleep(Notified(s.pcs[i])); }
      } else if u :| 0 <= u < |s.pcs| && WillNotify(s.pcs[u]) {
        assert WillNotify(s'.pcs[u]);
      } else {
        forall i | 0 <= i < |s'.pcs| ensures !Asleep(s'.pcs[i]) {
          assert !Asleep(s.pcs[i]);
        }
      }
    }
  }

  /** Every action keeps the invariant; after deactivation none adds to what is owed. */
  lemma StepInv(s: State, a: Action)
    requires Inv(s) && Enabled(s, a)
    ensures Inv(Apply(s, a))
    ensures !s.sh.active ==> !Apply(s, a).sh.active && TotalOwed(Apply(s, a).pcs) <= TotalOwed(s.pcs)
    ensures !s.sh.active && a.Step? && Owed(s.pcs[a.t]) > 0
            ==> TotalOwed(Apply(s, a).pcs) < TotalOwed(s.pcs)
  {
    var s' := Apply(s, a);
    if a.Step? {
      StepMoves(s, a.t, a.kind);
      MoveCounts(s, s', a.t);
      MoveMutex(s, s', a.t);
      MoveClosed(s, s', a.t);
      MoveWake(s, s', a.t);
    } else if a.Spawn? {
      SpawnInv(s);
    }
  }

  lemma SpawnInv(s: State)
    requires Inv(s)
    ensures Inv(Apply(s, Spawn)) && TotalOwed(Apply(s, Spawn).pcs) == TotalOwed(s.pcs)
  {
    var s' := Apply(s, Spawn);
    assert s'.pcs[..|s'.pcs| - 1] == s.pcs;
    assert forall i :: 0 <= i < |s.pcs| ==> s'.pcs[i] == s.pcs[i];
    if u :| 0 <= u < |s.pcs| && WillNotify(s.pcs[u]) {
      assert WillNotify(s'.pcs[u]);
    }
  }

  lemma {:induction false} RunInv(s: State, acts: seq<Action>)
    requires Inv(s) && Runs(s, acts)
    ensures Inv(After(s, acts))
    decreases |acts|
  {
    if acts != [] {
      StepInv(s, acts[0]);
      RunInv(Apply(s, acts[0]), acts[1..]);
    }
  }

  // ---------- safety ----------

  /** A thread that runs the host's code, or is about to. */
  predicate InsideHost(pc: Pc) { Counted(pc) }

  /** `quiesce` has returned on some thread. */
  ghost predicate HasReturned(s: State) {
    exists q :: 0 <= q < |s.pcs| && s.pcs[q].Done?
  }

  lemma ReturnedStays(s: State, a: Action)
    requires Enabled(s, a) && HasReturned(s)
    ensures HasReturned(Apply(s, a))
  {
    var q :| 0 <= q < |s.pcs| && s.pcs[q].Done?;
    assert Apply(s, a).pcs[q].Done?;
  }

  lemma ReturnedIsQuiet(s: State)
    requires Inv(s) && HasReturned(s)
    ensures !s.sh.active && s.sh.inFlight == 0
    ensures forall t :: 0 <= t < |s.pcs| ==> !InsideHost(s.pcs[t])
  {
    var q :| 0 <= q < |s.pcs| && s.pcs[q].Done?;
    assert Closed(s.pcs[q]) && Finished(s.pcs[q]);
    forall t | 0 <= t < |s.pcs| ensures !InsideHost(s.pcs[t]) {
      GuardAlive(s.pcs, t);
    }
  }

  /** Main result: in every interleaving, from the moment a `quiesce` has returned and for
      ever after, the coordinator is inactive, nothing is in flight, and no thread is inside
      a host call. */
  lemma {:induction false} NoHostCallAfterQuiesce(s0: State, before: seq<Action>, after: seq<Action>)
    requires Initial(s0) && Runs(s0, before) && HasReturned(After(s0, before))
    requires Runs(After(s0, before), after)
    ensures var s := After(After(s0, before), after);
            !s.sh.active && s.sh.inFlight == 0
            && forall t :: 0 <= t < |s.pcs| ==> !InsideHost(s.pcs[t])
    decreases |after|
  {
    InitialInv(s0);
    RunInv(s0, before);
    ReturnedForEver(After(s0, before), after);
  }

  lemma {:induction false} ReturnedForEver(s: State, acts: seq<Action>)
    requires Inv(s) && HasReturned(s) && Runs(s, acts)
    ensures Inv(After(s, acts)) && HasReturned(After(s, acts))
    ensures var r := After(s, acts);
            !r.sh.active && r.sh.inFlight == 0 && forall t :: 0 <= t < |r.pcs| ==> !InsideHost(r.pcs[t])
    decreases |acts|
  {
    if acts == [] {
      ReturnedIsQuiet(s);
    } else {
      StepInv(s, acts[0]);
      ReturnedStays(s, acts[0]);
      ReturnedForEver(Apply(s, acts[0]), acts[1..]);
    }
  }

  /** Every reachable state: the count is exact, so the saturating decrement never saturates,
      and a thread asleep with nothing in flight has a notification on its way. */
  lemma ReachableAccounting(s0: State, acts: seq<Action>)
    requires Initial(s0) && Runs(s0, acts)
    ensures var s := After(s0, acts);
            s.sh.inFlight == Guards(s.pcs)
            && (forall t :: 0 <= t < |s.pcs| && s.pcs[t].Dropping? ==> s.sh.inFlight > 0)
            && (s.sh.inFlight == 0 && (exists q :: 0 <= q < |s.pcs| && Asleep(s.pcs[q]))
                ==> exists u :: 0 <= u < |s.pcs| && WillNotify(s.pcs[u]))
  {
    InitialInv(s0);
    RunInv(s0, acts);
    var s := After(s0, acts);
    forall t | 0 <= t < |s.pcs| && s.pcs[t].Dropping? ensures s.sh.inFlight > 0 {
      GuardAlive(s.pcs, t);
    }
  }

  /** Past the grace period with calls still in flight. */
  predicate GaveUp(pc: Pc) {
    pc.GivingUp? || pc.Gap? || pc.Phase2? || pc.FinalWait? || pc.StalledExit? || pc == Done(true)
  }

  lemma GaveUpLocal(sh: Shared, p: Pc, t: nat, kind: Kind)
    requires Can(sh, p, kind)
    ensures GaveUp(Local(sh, p, t, kind).1) <==> GaveUp(p) || kind.Expire?
  {
    match kind {
      case Work => GaveUpWork(sh, p);
      case Acquire => GaveUpMoves(p);
      case Release => GaveUpMoves(p);
      case _ =>
    }
    hide WorkOf, Locked, Unlocked;
  }

  lemma GaveUpMoves(p: Pc)
    ensures Wants(p) ==> (GaveUp(Locked(p)) <==> GaveUp(p))
    ensures Unlocks(p) ==> (GaveUp(Unlocked(p)) <==> GaveUp(p))
  {}

  lemma GaveUpWork(sh: Shared, p: Pc)
    requires Works(p)
    ensures GaveUp(WorkOf(sh, p).1) <==> GaveUp(p)
  {
    match p { case Phase1 => case Phase2 => case _ => }
  }

  lemma GaveUpStep(s: State, a: Action, t: nat)
    requires Enabled(s, a) && t < |s.pcs|
    ensures t < |Apply(s, a).pcs|
    ensures GaveUp(Apply(s, a).pcs[t]) <==> GaveUp(s.pcs[t]) || a == Step(t, Expire)
  {
    hide Local, Can;
    if a.Step? { GaveUpLocal(s.sh, s.pcs[a.t], a.t, a.kind); }
  }

  /** A teardown thread is past its grace period exactly when that period ran out on it during
      the run with calls in flight, whichever wake-ups it got. */
  lemma {:induction false} GaveUpRun(s: State, acts: seq<Action>, t: nat)
    requires Runs(s, acts) && t < |s.pcs|
    ensures t < |After(s, acts).pcs|
    ensures GaveUp(After(s, acts).pcs[t]) <==> GaveUp(s.pcs[t]) || Step(t, Expire) in acts
    decreases |acts|
  {
    hide Apply, Enabled, GaveUp;
    if acts != [] {
      GaveUpStep(s, acts[0], t);
      GaveUpRun(Apply(s, acts[0]), acts[1..], t);
      assert acts == [acts[0]] + acts[1..];
    }
  }

  /** What `quiesce` answers: a stalled wait exactly when its grace period ran out before the
      calls did. */
  lemma StalledExactlyAfterExpiry(s0: State, acts: seq<Action>, t: nat)
    requires Initial(s0) && Runs(s0, acts) && t < |s0.pcs| && t < |After(s0, acts).pcs| && After(s0, acts).pcs[t].Done?
    ensures After(s0, acts).pcs[t].stalled <==> Step(t, Expire) in acts
  {
    GaveUpRun(s0, acts, t);
  }

  // ---------- dialogs and the fence ----------

  /** Dialogs past their check and not past their write. */
  function Writers(pcs: seq<Pc>): nat {
    if pcs == [] then 0 else Writers(pcs[..|pcs| - 1]) + (if pcs[|pcs| - 1].DialogWrite? then 1 else 0)
  }

  lemma {:induction false} WritersDiffer(a: seq<Pc>, b: seq<Pc>, t: nat)
    requires |a| == |b| && forall i :: 0 <= i < |a| && i != t ==> (a[i].DialogWrite? <==> b[i].DialogWrite?)
    ensures Writers(b) + (if t < |a| && a[t].DialogWrite? then 1 else 0)
            == Writers(a) + (if t < |a| && b[t].DialogWrite? then 1 else 0)
  {
    if a != [] {
      var n := |a| - 1;
      WritersDiffer(a[..n], b[..n], t);
    }
  }

  /** This step is a dialog's check that finds the fence up. */
  predicate PassesCheck(s: State, a: Action) {
    a.Step? && a.kind.Work? && a.t < |s.pcs| && s.pcs[a.t].DialogCheck? && s.sh.fence
  }

  function PassedChecks(s: State, acts: seq<Action>): nat
    requires Runs(s, acts)
    decreases |acts|
  {
    if acts == [] then 0
    else (if PassesCheck(s, acts[0]) then 1 else 0) + PassedChecks(Apply(s, acts[0]), acts[1..])
  }

  ghost predicate OutcomeKept(sh: Shared, p: Pc, checked: bool, sh': Shared, q: Pc) {
    sh'.pendingWrites + (if q.DialogWrite? then 1 else 0)
    == sh.pendingWrites + (if p.DialogWrite? then 1 else 0) + (if checked then 1 else 0)
    && sh'.pendingWrites >= sh.pendingWrites && sh'.fence == sh.fence
  }

  lemma OutcomeLocal(sh: Shared, p: Pc, t: nat, kind: Kind)
    requires Can(sh, p, kind)
    ensures OutcomeKept(sh, p, kind.Work? && p.DialogCheck? && sh.fence,
                        Local(sh, p, t, kind).0, Local(sh, p, t, kind).1)
  {
    hide WorkOf;
    match kind {
      case Work => OutcomeOfWork(sh, p);
      case _ =>
    }
  }

  lemma OutcomeOfWork(sh: Shared, p: Pc)
    requires Works(p)
    ensures OutcomeKept(sh, p, p.DialogCheck? && sh.fence, WorkOf(sh, p).0, WorkOf(sh, p).1)
  {
    match p { case DialogCheck => case DialogWrite => case _ => }
  }

  lemma OutcomeStep(s: State, a: Action)
    requires Enabled(s, a)
    ensures var s' := Apply(s, a);
            s'.sh.pendingWrites + Writers(s'.pcs)
            == s.sh.pendingWrites + Writers(s.pcs) + (if PassesCheck(s, a) then 1 else 0)
            && s'.sh.pendingWrites >= s.sh.pendingWrites
            && (!s.sh.fence ==> !s'.sh.fence)
  {
    hide Local, Can;
    match a {
      case Step(t, kind) =>
        OutcomeLocal(s.sh, s.pcs[t], t, kind);
        WritersDiffer(s.pcs, Apply(s, a).pcs, t);
      case Spawn => assert (s.pcs + [Idle])[..|s.pcs|] == s.pcs;
      case _ =>
    }
  }

  /** Over every run each dialog that checked while the fence was up has written its outcome or is
      about to, whatever happened to the fence since, and no other has: outcomes written and
      dialogs past their check grow by exactly the checks passed. */
  lemma {:induction false} CheckedOutcomesAreWritten(s: State, acts: seq<Action>)
    requires Runs(s, acts)
    ensures var s' := After(s, acts);
            s'.sh.pendingWrites + Writers(s'.pcs) == s.sh.pendingWrites + Writers(s.pcs) + PassedChecks(s, acts)
            && s'.sh.pendingWrites >= s.sh.pendingWrites
    ensures !s.sh.fence ==> !After(s, acts).sh.fence && PassedChecks(s, acts) == 0
    decreases |acts|
  {
    hide Apply, Enabled, Writers;
    if acts != [] {
      OutcomeStep(s, acts[0]);
      CheckedOutcomesAreWritten(Apply(s, acts[0]), acts[1..]);
    }
  }

  /** Once the fence is down the outcomes written and the dialogs past their check add up to the
      same number for ever: no more outcomes are written than dialogs were past their check. */
  lemma LateOutcomesAreBounded(s: State, acts: seq<Action>)
    requires !s.sh.fence && Runs(s, acts)
    ensures var s' := After(s, acts);
            !s'.sh.fence && s'.sh.pendingWrites + Writers(s'.pcs) == s.sh.pendingWrites + Writers(s.pcs)
            && s.sh.pendingWrites <= s'.sh.pendingWrites <= s.sh.pendingWrites + Writers(s.pcs)
  {
    CheckedOutcomesAreWritten(s, acts);
  }

  /** In particular, with no dialog between its check and its write nothing is written again. */
  ghost predicate DialogsFenced(s: State) {
    !s.sh.fence && forall t :: 0 <= t < |s.pcs| ==> !s.pcs[t].DialogWrite?
  }

  lemma {:induction false} NoWriters(pcs: seq<Pc>)
    ensures Writers(pcs) == 0 <==> forall t :: 0 <= t < |pcs| ==> !pcs[t].DialogWrite?
  {
    if pcs != [] {
      var n := |pcs| - 1;
      NoWriters(pcs[..n]);
      assert forall t :: 0 <= t < n ==> pcs[..n][t] == pcs[t];
    }
  }

  lemma LateDialogsAreDiscarded(s: State, acts: seq<Action>)
    requires DialogsFenced(s) && Runs(s, acts)
    ensures DialogsFenced(After(s, acts))
    ensures After(s, acts).sh.pendingWrites == s.sh.pendingWrites
  {
    NoWriters(s.pcs);
    LateOutcomesAreBounded(s, acts);
    NoWriters(After(s, acts).pcs);
  }

  /** Once the fence is down no call is added to those in flight, however long teardown waits. */
  lemma {:induction false} FenceStopsEntries(s: State, acts: seq<Action>)
    requires s.sh.usesFence && !s.sh.fence && Runs(s, acts)
    ensures !After(s, acts).sh.fence && After(s, acts).sh.usesFence && After(s, acts).sh.inFlight <= s.sh.inFlight
    decreases |acts|
  {
    hide Apply, Enabled;
    if acts != [] {
      FencedStep(s, acts[0]);
      FenceStopsEntries(Apply(s, acts[0]), acts[1..]);
    }
  }

  lemma FencedStep(s: State, a: Action)
    requires s.sh.usesFence && !s.sh.fence && Enabled(s, a)
    ensures var r := Apply(s, a).sh; !r.fence && r.usesFence && r.inFlight <= s.sh.inFlight
  {
    if a.Step? { FencedLocal(s.sh, s.pcs[a.t], a.t, a.kind); }
  }

  lemma FencedLocal(sh: Shared, p: Pc, t: nat, kind: Kind)
    requires sh.usesFence && !sh.fence && Can(sh, p, kind)
    ensures var r := Local(sh, p, t, kind).0; !r.fence && r.usesFence && r.inFlight <= sh.inFlight
  {}

  // ---------- while nothing is torn down ----------

  /** Calls are let in: active, not poisoned, and the fence up if this coordinator tests it. */
  predicate Open(sh: Shared) { sh.active && !sh.poisoned && (sh.usesFence ==> sh.fence) }

  /** The test in `enter` is exact: an open coordinator counts the call, any other refuses it and
      changes nothing. */
  lemma EnterIsExact(sh: Shared)
    ensures var r := WorkOf(sh, Entering);
            if Open(sh) then r.1 == Entered && r.0 == sh.(inFlight := sh.inFlight + 1)
            else r.1 == Refused && r.0 == sh
  {}

  /** A step that neither begins a teardown, nor poisons, nor lowers a fence this coordinator tests. */
  predicate Calm(sh: Shared, a: Action) {
    match a
    case Step(_, kind) => !kind.StartQuiesce?
    case SetPoison(b) => !b
    case LowerFence => !sh.usesFence
    case Spawn => true
  }

  predicate CalmRun(s: State, acts: seq<Action>)
    requires Runs(s, acts)
    decreases |acts|
  {
    acts == [] || (Calm(s.sh, acts[0]) && CalmRun(Apply(s, acts[0]), acts[1..]))
  }

  /** In a caller or a dialog, and not turned away. */
  predicate Served(p: Pc) {
    p.Idle? || p.WantEnter? || p.Entering? || p.Entered? || p.InCall? || p.WantDrop? || p.Dropping? || p.Dropped?
    || p.Notifying? || InDialog(p)
  }

  predicate OpenInv(s: State) { Open(s.sh) && forall t :: 0 <= t < |s.pcs| ==> Served(s.pcs[t]) }

  lemma CalmLocal(sh: Shared, p: Pc, t: nat, kind: Kind)
    requires Can(sh, p, kind) && Open(sh) && Served(p) && !kind.StartQuiesce?
    ensures Served(Local(sh, p, t, kind).1) && Open(Local(sh, p, t, kind).0)
  {}

  lemma CalmStep(s: State, a: Action)
    requires OpenInv(s) && Enabled(s, a) && Calm(s.sh, a)
    ensures OpenInv(Apply(s, a))
  {
    hide Local, Can;
    if a.Step? {
      CalmLocal(s.sh, s.pcs[a.t], a.t, a.kind);
      ServedStay(s.pcs);
    }
  }

  lemma ServedStay(pcs: seq<Pc>)
    ensures forall t :: 0 <= t < |pcs| && Served(pcs[t]) ==> Served(Notified(pcs[t]))
  {}

  lemma {:induction false} CalmRunStays(s: State, acts: seq<Action>)
    requires OpenInv(s) && Runs(s, acts) && CalmRun(s, acts)
    ensures OpenInv(After(s, acts))
    decreases |acts|
  {
    hide OpenInv, Apply, Enabled, Calm;
    if acts != [] {
      CalmStep(s, acts[0]);
      CalmRunStays(Apply(s, acts[0]), acts[1..]);
    }
  }

  /** Until a teardown begins nobody is turned away: over every run from the start that neither begins
      one, nor poisons the mutex, nor lowers the fence where it is tested, no thread is ever
      refused, and the coordinator stays open. */
  lemma NobodyIsRefused(s0: State, acts: seq<Action>)
    requires Initial(s0) && Open(s0.sh) && Runs(s0, acts) && CalmRun(s0, acts)
    ensures var s := After(s0, acts); Open(s.sh) && forall t :: 0 <= t < |s.pcs| ==> !s.pcs[t].Refused?
  {
    CalmRunStays(s0, acts);
  }

  /** A list of states along a list of actions is a run. */
  lemma {:induction false} Chain(states: seq<State>, acts: seq<Action>)
    requires |states| == |acts| + 1
    requires forall i :: 0 <= i < |acts| ==> Enabled(states[i], acts[i]) && Apply(states[i], acts[i]) == states[i + 1]
    ensures Runs(states[0], acts) && After(states[0], acts) == states[|acts|]
    decreases |acts|
  {
    hide Enabled, Apply;
    if acts != [] { Chain(states[1..], acts[1..]); }
  }

  /** The threads `pcs` with `t` at `p`. */
  function At(pcs: seq<Pc>, t: nat, sh: Shared, p: Pc): State
    requires t < |pcs|
  {
    State(sh, pcs[t := p])
  }

  /** A step of a thread that has nobody to notify moves that thread alone. */
  lemma MovesAlone(pcs: seq<Pc>, t: nat, sh: Shared, p: Pc, kind: Kind, sh': Shared, q: Pc)
    requires t < |pcs| && !p.Notifying? && Can(sh, p, kind) && Local(sh, p, t, kind) == (sh', q)
    ensures Enabled(At(pcs, t, sh, p), Step(t, kind))
    ensures Apply(At(pcs, t, sh, p), Step(t, kind)) == At(pcs, t, sh', q)
  {
    hide Local, Can;
    assert pcs[t := p][t := q] == pcs[t := q];
  }

  function CallSteps(t: nat): seq<Action> {
    [Step(t, StartCall), Step(t, Acquire), Step(t, Work), Step(t, Release)]
  }

  /** Once the mutex is free a call gets into the host by its own steps: it is counted, and nothing
      else changes. */
  lemma CallGetsThrough(s: State, t: nat)
    requires Open(s.sh) && s.sh.owner.None? && t < |s.pcs| && s.pcs[t].Idle?
    ensures Runs(s, CallSteps(t))
    ensures var s' := After(s, CallSteps(t));
            s'.pcs == s.pcs[t := InCall] && s'.sh == s.sh.(inFlight := s.sh.inFlight + 1)
  {
    hide Apply, Enabled, Runs, After, At, Local, Can;
    var pcs, sh := s.pcs, s.sh;
    var mine, more := sh.(owner := Some(t)), sh.(inFlight := sh.inFlight + 1);
    CallLocals(sh, t);
    MovesAlone(pcs, t, sh, Idle, StartCall, sh, WantEnter);
    MovesAlone(pcs, t, sh, WantEnter, Acquire, mine, Entering);
    MovesAlone(pcs, t, mine, Entering, Work, more.(owner := Some(t)), Entered);
    MovesAlone(pcs, t, more.(owner := Some(t)), Entered, Release, more, InCall);
    Chain([At(pcs, t, sh, Idle), At(pcs, t, sh, WantEnter), At(pcs, t, mine, Entering),
           At(pcs, t, more.(owner := Some(t)), Entered), At(pcs, t, more, InCall)], CallSteps(t));
    Ends(s, t, more, InCall);
  }

  /** What `At` gives at both ends of a run. */
  lemma Ends(s: State, t: nat, sh: Shared, p: Pc)
    requires t < |s.pcs|
    ensures At(s.pcs, t, s.sh, s.pcs[t]) == s
    ensures At(s.pcs, t, sh, p) == State(sh, s.pcs[t := p])
  {
    assert s.pcs[t := s.pcs[t]] == s.pcs;
  }

  lemma CallLocals(sh: Shared, t: nat)
    requires Open(sh) && sh.owner.None?
    ensures Can(sh, Idle, StartCall) && Local(sh, Idle, t, StartCall) == (sh, WantEnter)
    ensures Can(sh, WantEnter, Acquire) && Local(sh, WantEnter, t, Acquire) == (sh.(owner := Some(t)), Entering)
    ensures var mine, both := sh.(owner := Some(t)), sh.(inFlight := sh.inFlight + 1, owner := Some(t));
            Can(mine, Entering, Work) && Local(mine, Entering, t, Work) == (both, Entered)
            && Can(both, Entered, Release) && Local(both, Entered, t, Release) == (both.(owner := None), InCall)
  {}

  function ReturnSteps(t: nat): seq<Action> {
    [Step(t, Work), Step(t, Acquire), Step(t, Work), Step(t, Release)]
  }

  /** A call that is over gives its count back by its own steps; the last one goes on to notify. */
  lemma CallGivesBack(s: State, t: nat)
    requires s.sh.owner.None? && t < |s.pcs| && s.pcs[t].InCall? && s.sh.inFlight > 0
    ensures Runs(s, ReturnSteps(t))
    ensures var s' := After(s, ReturnSteps(t));
            s'.sh == s.sh.(inFlight := s.sh.inFlight - 1)
            && s'.pcs == s.pcs[t := if s.sh.inFlight == 1 then Notifying else Idle]
  {
    hide Apply, Enabled, Runs, After, At, Local, Can;
    var pcs, sh := s.pcs, s.sh;
    var mine, less := sh.(owner := Some(t)), sh.(inFlight := sh.inFlight - 1);
    var last := sh.inFlight == 1;
    var out := if last then Notifying else Idle;
    ReturnLocals(sh, t);
    MovesAlone(pcs, t, sh, InCall, Work, sh, WantDrop);
    MovesAlone(pcs, t, sh, WantDrop, Acquire, mine, Dropping);
    MovesAlone(pcs, t, mine, Dropping, Work, less.(owner := Some(t)), Dropped(last));
    MovesAlone(pcs, t, less.(owner := Some(t)), Dropped(last), Release, less, out);
    Chain([At(pcs, t, sh, InCall), At(pcs, t, sh, WantDrop), At(pcs, t, mine, Dropping),
           At(pcs, t, less.(owner := Some(t)), Dropped(last)), At(pcs, t, less, out)], ReturnSteps(t));
    Ends(s, t, less, out);
  }

  lemma ReturnLocals(sh: Shared, t: nat)
    requires sh.owner.None? && sh.inFlight > 0
    ensures Can(sh, InCall, Work) && Local(sh, InCall, t, Work) == (sh, WantDrop)
    ensures Can(sh, WantDrop, Acquire) && Local(sh, WantDrop, t, Acquire) == (sh.(owner := Some(t)), Dropping)
    ensures var mine, both := sh.(owner := Some(t)), sh.(inFlight := sh.inFlight - 1, owner := Some(t));
            var last := sh.inFlight == 1;
            Can(mine, Dropping, Work) && Local(mine, Dropping, t, Work) == (both, Dropped(last))
            && Can(both, Dropped(last), Release)
            && Local(both, Dropped(last), t, Release) == (both.(owner := None), if last then Notifying else Idle)
  {}

  /** A notification reaches every sleeper. */
  lemma NotifierWakes(s: State, t: nat)
    requires t < |s.pcs| && s.pcs[t].Notifying?
    ensures Enabled(s, Step(t, Work))
    ensures var s' := Apply(s, Step(t, Work));
            s'.sh == s.sh && |s'.pcs| == |s.pcs| && s'.pcs[t].Idle?
            && forall i :: 0 <= i < |s.pcs| && i != t ==>
                 s'.pcs[i] == match s.pcs[i]
                              case TimedWait(_) => TimedWait(true)
                              case FinalWait(_) => FinalWait(true)
                              case p => p
  {}

  function DialogSteps(t: nat): seq<Action> {
    [Step(t, StartDialog), Step(t, Work), Step(t, Work), Step(t, Work), Step(t, Work)]
  }

  /** With the fence up a dialog writes its outcome and goes on to notify the host. */
  lemma DialogGetsThrough(s: State, t: nat)
    requires t < |s.pcs| && s.pcs[t].Idle? && s.sh.fence
    ensures Runs(s, DialogSteps(t))
    ensures var s' := After(s, DialogSteps(t));
            s'.pcs == s.pcs[t := WantEnter]
            && s'.sh == s.sh.(pendingWrites := s.sh.pendingWrites + 1, dialogActive := false)
  {
    hide Apply, Enabled, Runs, After, At, Local, Can;
    var pcs, sh := s.pcs, s.sh;
    var begun := sh.(dialogActive := true);
    var written := begun.(pendingWrites := sh.pendingWrites + 1);
    var over := written.(dialogActive := false);
    DialogLocals(sh, t);
    MovesAlone(pcs, t, sh, Idle, StartDialog, begun, DialogCheck);
    MovesAlone(pcs, t, begun, DialogCheck, Work, begun, DialogWrite);
    MovesAlone(pcs, t, begun, DialogWrite, Work, written, DialogClose);
    MovesAlone(pcs, t, written, DialogClose, Work, over, DialogRecheck);
    MovesAlone(pcs, t, over, DialogRecheck, Work, over, WantEnter);
    Chain([At(pcs, t, sh, Idle), At(pcs, t, begun, DialogCheck), At(pcs, t, begun, DialogWrite),
           At(pcs, t, written, DialogClose), At(pcs, t, over, DialogRecheck), At(pcs, t, over, WantEnter)],
          DialogSteps(t));
    Ends(s, t, over, WantEnter);
  }

  lemma DialogLocals(sh: Shared, t: nat)
    requires sh.fence
    ensures Can(sh, Idle, StartDialog) && Local(sh, Idle, t, StartDialog) == (sh.(dialogActive := true), DialogCheck)
    ensures var begun := sh.(dialogActive := true);
            var written := begun.(pendingWrites := sh.pendingWrites + 1);
            var over := written.(dialogActive := false);
            Can(begun, DialogCheck, Work) && Local(begun, DialogCheck, t, Work) == (begun, DialogWrite)
            && Can(begun, DialogWrite, Work) && Local(begun, DialogWrite, t, Work) == (written, DialogClose)
            && Can(written, DialogClose, Work) && Local(written, DialogClose, t, Work) == (over, DialogRecheck)
            && Can(over, DialogRecheck, Work) && Local(over, DialogRecheck, t, Work) == (over, WantEnter)
  {}

  /** A dialog whose check finds the fence down, or whose second look does, goes back without calling
      the host. */
  lemma LateDialogTurnsBack(sh: Shared)
    requires !sh.fence
    ensures WorkOf(sh, DialogCheck) == (sh, DialogDiscard)
    ensures WorkOf(sh, DialogDiscard) == (sh.(dialogActive := false), Idle)
    ensures WorkOf(sh, DialogRecheck) == (sh, Idle)
  {}

  /** When the grace period has run out with calls in flight, the thread gives up that wait and goes
      into the unbounded one, letting go of the mutex each time. */
  lemma StallCanHappen(s: State, t: nat)
    requires t < |s.pcs| && s.pcs[t].Phase1? && s.sh.owner == Some(t) && s.sh.inFlight > 0
    ensures var acts := [Step(t, Expire), Step(t, Release), Step(t, Acquire), Step(t, Work)];
            Runs(s, acts) && After(s, acts) == State(s.sh.(owner := None), s.pcs[t := FinalWait(false)])
  {
    hide Apply, Enabled, Runs, After, At, Local, Can;
    var pcs, sh := s.pcs, s.sh;
    var free := sh.(owner := None);
    StallLocals(sh, t);
    MovesAlone(pcs, t, sh, Phase1, Expire, sh, GivingUp);
    MovesAlone(pcs, t, sh, GivingUp, Release, free, Gap);
    MovesAlone(pcs, t, free, Gap, Acquire, sh, Phase2);
    MovesAlone(pcs, t, sh, Phase2, Work, free, FinalWait(false));
    Chain([At(pcs, t, sh, Phase1), At(pcs, t, sh, GivingUp), At(pcs, t, free, Gap), At(pcs, t, sh, Phase2),
           At(pcs, t, free, FinalWait(false))],
          [Step(t, Expire), Step(t, Release), Step(t, Acquire), Step(t, Work)]);
    Ends(s, t, free, FinalWait(false));
  }

  lemma StallLocals(sh: Shared, t: nat)
    requires sh.owner == Some(t) && sh.inFlight > 0
    ensures Can(sh, Phase1, Expire) && Local(sh, Phase1, t, Expire) == (sh, GivingUp)
    ensures var free := sh.(owner := None);
            Can(sh, GivingUp, Release) && Local(sh, GivingUp, t, Release) == (free, Gap)
            && Can(free, Gap, Acquire) && Local(free, Gap, t, Acquire) == (sh, Phase2)
            && Can(sh, Phase2, Work) && Local(sh, Phase2, t, Work) == (free, FinalWait(false))
  {}

  // ---------- liveness ----------

  /** Steps a closed teardown thread still needs when nothing is owed any more. */
  function Left(pc: Pc): nat {
    match pc
    case GivingUp => 6
    case TimedWait(_) => 5
    case FinalWait(_) => 5
    case Relock1 => 4
    case Gap => 4
    case Phase1 => 3
    case Phase2 => 3
    case CleanExit => 2
    case StalledExit => 2
    case _ => 0
  }

  /** Steps the holder of the mutex needs before it lets go. */
  function Held(s: State): nat
    requires s.sh.owner.Some? ==> s.sh.owner.value < |s.pcs|
  {
    HeldBy(s.sh.owner, if s.sh.owner.Some? then s.pcs[s.sh.owner.value] else Idle)
  }

  /** The step a thread can take when it has the mutex or needs none. */
  function Own(pc: Pc): Kind {
    if Unlocks(pc) then Release else if Wants(pc) then Acquire else if Waits(pc) then Wake else Work
  }

  lemma OwnerCanMove(s: State)
    requires Inv(s) && s.sh.owner.Some?
    ensures var u := s.sh.owner.value;
            u < |s.pcs| && Holds(s.pcs[u]) && Enabled(s, Step(u, Own(s.pcs[u])))
            && Inv(Apply(s, Step(u, Own(s.pcs[u])))) && Held(Apply(s, Step(u, Own(s.pcs[u])))) < Held(s)
  {
    var u := s.sh.owner.value;
    assert Holds(s.pcs[u]);
    HolderMayMove(s.sh, s.pcs[u], u);
    StepInv(s, Step(u, Own(s.pcs[u])));
  }

  function HeldBy(owner: Option<nat>, pc: Pc): nat {
    if owner.None? then 0 else if Unlocks(pc) then 1 else if pc.Closing? then 3 else 2
  }

  lemma HolderMayMove(sh: Shared, p: Pc, t: nat)
    requires Holds(p) && sh.owner == Some(t)
    ensures Can(sh, p, Own(p))
    ensures var r := Local(sh, p, t, Own(p));
            (r.0.owner.None? || r.0.owner == Some(t)) && HeldBy(r.0.owner, r.1) < HeldBy(sh.owner, p)
  {
    if Unlocks(p) { HolderUnlocks(sh, p, t); } else { HolderWorks(sh, p, t); }
  }

  lemma HolderUnlocks(sh: Shared, p: Pc, t: nat)
    requires Unlocks(p)
    ensures Own(p) == Release && Can(sh, p, Release)
    ensures Local(sh, p, t, Release).0.owner.None? && (sh.owner == Some(t) ==> HeldBy(sh.owner, p) == 1)
  {}

  lemma HolderWorks(sh: Shared, p: Pc, t: nat)
    requires Holds(p) && !Unlocks(p) && sh.owner == Some(t)
    ensures Own(p) == Work && Can(sh, p, Work)
    ensures var r := Local(sh, p, t, Work);
            (r.0.owner.None? || r.0.owner == Some(t)) && HeldBy(r.0.owner, r.1) < HeldBy(sh.owner, p)
  {}

  /** From every reachable state in which a teardown thread has closed the coordinator there
      is a way to let its `quiesce` return, using only threads that owe a release, the holder
      of the mutex, and the teardown thread itself. */
  lemma {:induction false} QuiesceCanReturn(s: State, q: nat) returns (acts: seq<Action>)
    requires Inv(s) && q < |s.pcs| && Closed(s.pcs[q])
    ensures Runs(s, acts) && q < |After(s, acts).pcs| && After(s, acts).pcs[q].Done?
    decreases TotalOwed(s.pcs), if TotalOwed(s.pcs) == 0 then Left(s.pcs[q]) else 0, Held(s)
  {
    acts := [];
    if s.pcs[q].Done? { return; }
    var a := HelpfulAction(s, q);
    StepInv(s, a);
    HelpfulActionHelps(s, q, a);
    var rest := QuiesceCanReturn(Apply(s, a), q);
    acts := [a] + rest;
    assert acts[1..] == rest;
  }

  /** The step that brings the return closer. */
  ghost predicate Helps(s: State, q: nat, a: Action)
    requires q < |s.pcs|
  {
    a.Step? && Enabled(s, a) && a.kind == Own(s.pcs[a.t])
    && if s.sh.owner.Some? && a.t == s.sh.owner.value then true
       else if TotalOwed(s.pcs) > 0 then Owed(s.pcs[a.t]) > 0
       else a.t == q
  }

  lemma HelpfulAction(s: State, q: nat) returns (a: Action)
    requires Inv(s) && q < |s.pcs| && Closed(s.pcs[q]) && !s.pcs[q].Done?
    ensures Helps(s, q, a)
  {
    if s.sh.owner.Some? {
      OwnerCanMove(s);
      a := Step(s.sh.owner.value, Own(s.pcs[s.sh.owner.value]));
    } else {
      var t := q;
      if TotalOwed(s.pcs) > 0 { t := SomeoneOwes(s.pcs); }
      assert Holds(s.pcs[t]) <==> s.sh.owner == Some(t);
      a := Step(t, Own(s.pcs[t]));
    }
  }

  lemma HelpfulActionHelps(s: State, q: nat, a: Action)
    requires Inv(s) && q < |s.pcs| && Closed(s.pcs[q]) && !s.pcs[q].Done? && Helps(s, q, a)
    ensures var s' := Apply(s, a);
            Inv(s') && q < |s'.pcs| && Closed(s'.pcs[q])
            && (TotalOwed(s'.pcs) < TotalOwed(s.pcs)
                || (TotalOwed(s'.pcs) == TotalOwed(s.pcs)
                    && (if TotalOwed(s.pcs) > 0 then Held(s') < Held(s)
                        else Left(s'.pcs[q]) < Left(s.pcs[q])
                             || (Left(s'.pcs[q]) == Left(s.pcs[q]) && Held(s') < Held(s)))))
  {
    StepInv(s, a);
    StepMoves(s, a.t, a.kind);
    if TotalOwed(s.pcs) == 0 { NothingOwedNothingCounted(s.pcs); }
    if s.sh.owner.Some? { OwnerCanMove(s); }
    if a.t == q {
      ClosedThreadAdvances(s.sh, s.pcs[q], q);
    } else {
      OthersLeaveItAlone(s, q, a);
    }
  }

  lemma ClosedThreadAdvances(sh: Shared, p: Pc, t: nat)
    requires Closed(p) && !p.Done? && Can(sh, p, Own(p))
    ensures var r := Local(sh, p, t, Own(p));
            Closed(r.1) && (sh.inFlight == 0 ==> Left(r.1) < Left(p))
  {
    if p.Phase1? || p.Phase2? { ClosedTests(sh, p, t); }
    else if Waits(p) || Wants(p) { ClosedWakes(sh, p, t); }
    else { ClosedUnlocks(sh, p, t); }
  }

  lemma ClosedTests(sh: Shared, p: Pc, t: nat)
    requires p.Phase1? || p.Phase2?
    ensures Own(p) == Work
    ensures var r := Local(sh, p, t, Work); Closed(r.1) && (sh.inFlight == 0 ==> Left(r.1) < Left(p))
  {}

  lemma ClosedWakes(sh: Shared, p: Pc, t: nat)
    requires Closed(p) && (Waits(p) || Wants(p)) && Can(sh, p, Own(p))
    ensures var r := Local(sh, p, t, Own(p)); Closed(r.1) && Left(r.1) < Left(p)
  {
    match p case TimedWait(_) => case FinalWait(_) => case Relock1 => case Gap =>
  }

  lemma ClosedUnlocks(sh: Shared, p: Pc, t: nat)
    requires p.GivingUp? || p.CleanExit? || p.StalledExit?
    ensures Own(p) == Release
    ensures var r := Local(sh, p, t, Release); Closed(r.1) && Left(r.1) < Left(p)
  {}

  lemma OthersLeaveItAlone(s: State, q: nat, a: Action)
    requires q < |s.pcs| && a.Step? && Enabled(s, a) && a.t != q && Closed(s.pcs[q])
    ensures var s' := Apply(s, a); Closed(s'.pcs[q]) && Left(s'.pcs[q]) == Left(s.pcs[q])
  {}
}
