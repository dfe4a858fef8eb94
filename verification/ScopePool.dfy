/**
 AsyncScope and SessionPool together: session references (shared_ptr copies), tasks submitted through
 a session's scope, and the recycling of pool slots when the last reference drops.

 A submitted closure owns a reference from Submit until after its EndTask; the submitting caller
 keeps its own reference for the whole call.
 */
module ScopePool {
  datatype Phase = Free | Acquiring | InUse | Releasing | WasReset

  /** A pool slot with its session's scope; `lost` counts closures destroyed without having run. */
  datatype Slot = Slot(phase: Phase, inFlight: int, cancelled: bool, generation: nat, lost: nat)

  /** What the owner of a reference is doing with the scope. */
  datatype Use =
    | Plain        // nothing
    | Submitting   // after BeginTask, before Submit looks whether the scope is cancelled
    | Approved     // it was not; before the outcome of Dispatch
    | QueuedTask   // the reference is owned by a closure in the dispatcher
    | RunningTask(body: bool)  // ... whose wrapper runs, with or without the task itself, before EndTask

  datatype Ref = Ref(slot: nat, generation: nat, use: Use)

  datatype State = State(
    slots: seq<Slot>,
    free: seq<nat>,        // mFreeList
    refs: map<nat, Ref>,   // every live reference
    aborted: bool)         // AsyncScope::Reset found tasks in flight

  datatype Action =
    | PopFree                       // Acquire takes the last free slot
    | Activate(k: nat, r: nat)      // ... and returns its first reference r
    | Copy(r: nat, r': nat)
    | BeginTask(r: nat)
    | SkipCancelled(r: nat)         // Submit sees the scope cancelled: EndTask
    | Approve(r: nat)               // Submit sees it open
    | DispatchRefused(r: nat)       // EndTask
    | DispatchAccepted(r: nat, c: nat)
    | StartTask(c: nat)
    | EndTask(c: nat)
    | LoseTask(c: nat)              // the dispatcher destroys the closure without running it
    | Cancel(r: nat)                // Close through some reference
    | Drop(r: nat)                  // a reference dies; the last one starts ReleaseInternal
    | CloseAndReset(k: nat)
    | PushFree(k: nat)

  ghost predicate Init(s: State)
  {
    && s.refs == map[] && !s.aborted
    && (forall k :: 0 <= k < |s.slots| ==> s.slots[k] == Slot(Free, 0, false, 0, 0))
    && s.free == seq(|s.slots|, k => k)
  }

  predicate HasUse(s: State, r: nat, u: Use)
  {
    r in s.refs && s.refs[r].use == u && s.refs[r].slot < |s.slots|
  }

  predicate Enabled(s: State, a: Action)
  {
    match a
    case PopFree => s.free != [] && s.free[|s.free| - 1] < |s.slots|
    case Activate(k, r) => k < |s.slots| && s.slots[k].phase.Acquiring? && r !in s.refs
    case Copy(r, r') => r in s.refs && r' !in s.refs
    case BeginTask(r) => HasUse(s, r, Plain)
    case SkipCancelled(r) => HasUse(s, r, Submitting) && s.slots[s.refs[r].slot].cancelled
    case Approve(r) => HasUse(s, r, Submitting) && !s.slots[s.refs[r].slot].cancelled
    case DispatchRefused(r) => HasUse(s, r, Approved)
    case DispatchAccepted(r, c) => HasUse(s, r, Approved) && c !in s.refs
    case StartTask(c) => HasUse(s, c, QueuedTask)
    case EndTask(c) => HasUse(s, c, RunningTask(true)) || HasUse(s, c, RunningTask(false))
    case LoseTask(c) => HasUse(s, c, QueuedTask)
    case Cancel(r) => r in s.refs && s.refs[r].slot < |s.slots|
    case Drop(r) => HasUse(s, r, Plain)
    case CloseAndReset(k) => k < |s.slots| && s.slots[k].phase.Releasing?
    case PushFree(k) => k < |s.slots| && s.slots[k].phase.WasReset?
  }

  /** References to slot k. */
  function RefsTo(refs: map<nat, Ref>, k: nat): set<nat> { set r | r in refs && refs[r].slot == k }

  function WithUse(s: State, r: nat, u: Use, delta: int): State
    requires r in s.refs && s.refs[r].slot < |s.slots|
  {
    var k := s.refs[r].slot;
    s.(refs := s.refs[r := s.refs[r].(use := u)],
       slots := s.slots[k := s.slots[k].(inFlight := s.slots[k].inFlight + delta)])
  }

  /** A reference dies; the last one to its slot starts ReleaseInternal. */
  function Gone(s: State, r: nat): State
    requires r in s.refs && s.refs[r].slot < |s.slots|
  {
    var k := s.refs[r].slot;
    var s1 := s.(refs := s.refs - {r});
    if RefsTo(s1.refs, k) == {} then s1.(slots := s.slots[k := s.slots[k].(phase := Releasing)]) else s1
  }

  function Next(s: State, a: Action): State
    requires Enabled(s, a)
  {
    match a
    case PopFree =>
      var k := s.free[|s.free| - 1];
      s.(free := s.free[..|s.free| - 1], slots := s.slots[k := s.slots[k].(phase := Acquiring)])
    case Activate(k, r) =>
      var g := s.slots[k].generation + 1;
      s.(slots := s.slots[k := s.slots[k].(phase := InUse, generation := g)], refs := s.refs[r := Ref(k, g, Plain)])
    case Copy(r, r') => s.(refs := s.refs[r' := s.refs[r].(use := Plain)])
    case BeginTask(r) => WithUse(s, r, Submitting, 1)
    case SkipCancelled(r) => WithUse(s, r, Plain, -1)
    case Approve(r) => WithUse(s, r, Approved, 0)
    case DispatchRefused(r) => WithUse(s, r, Plain, -1)
    case DispatchAccepted(r, c) =>
      s.(refs := s.refs[r := s.refs[r].(use := Plain)][c := s.refs[r].(use := QueuedTask)])
    case StartTask(c) => WithUse(s, c, RunningTask(!s.slots[s.refs[c].slot].cancelled), 0)
    case EndTask(c) => WithUse(s, c, Plain, -1)
    case Cancel(r) =>
      var k := s.refs[r].slot;
      s.(slots := s.slots[k := s.slots[k].(cancelled := true)])
    case LoseTask(c) =>
      var k := s.refs[c].slot;
      Gone(s.(slots := s.slots[k := s.slots[k].(lost := s.slots[k].lost + 1)]), c)
    case Drop(r) => Gone(s, r)
    case CloseAndReset(k) =>
      if s.slots[k].inFlight != 0 then s.(aborted := true)
      else s.(slots := s.slots[k := s.slots[k].(phase := WasReset, cancelled := false)])
    case PushFree(k) =>
      s.(slots := s.slots[k := s.slots[k].(phase := Free)], free := s.free + [k])
  }

  ghost predicate IsRun(run: seq<State>, acts: seq<Action>)
  {
    && |run| == |acts| + 1
    && Init(run[0])
    && forall i :: 0 <= i < |acts| ==> Enabled(run[i], acts[i]) && run[i + 1] == Next(run[i], acts[i])
  }

  // ---------------------------------------------------------------- counting

  /** References whose owner has begun a task and not ended it. */
  function Flying(refs: map<nat, Ref>, k: nat): set<nat>
  {
    set r | r in refs && refs[r].slot == k && !refs[r].use.Plain?
  }

  predicate Counts(x: Ref, k: nat) { x.slot == k && !x.use.Plain? }

  lemma FlyingUpdate(refs: map<nat, Ref>, r: nat, x: Ref, k: nat)
    ensures |Flying(refs[r := x], k)| ==
            |Flying(refs, k)| - (if r in refs && Counts(refs[r], k) then 1 else 0) + (if Counts(x, k) then 1 else 0)
  {
    var rest := Flying(refs, k) - {r};
    if r in refs && Counts(refs[r], k) {
      assert r in Flying(refs, k);
      assert |rest| == |Flying(refs, k)| - 1;
    } else {
      assert rest == Flying(refs, k);
    }
    FlyingSet(refs, r, x, k);
  }

  lemma FlyingSet(refs: map<nat, Ref>, r: nat, x: Ref, k: nat)
    ensures Flying(refs[r := x], k) == Flying(refs, k) - {r} + (if Counts(x, k) then {r} else {})
  {
  }

  lemma FlyingDrop(refs: map<nat, Ref>, r: nat, k: nat)
    requires r in refs
    ensures |Flying(refs - {r}, k)| == |Flying(refs, k)| - (if Counts(refs[r], k) then 1 else 0)
  {
    assert Flying(refs - {r}, k) == Flying(refs, k) - {r};
    if Counts(refs[r], k) {
      assert r in Flying(refs, k);
    } else {
      assert Flying(refs, k) - {r} == Flying(refs, k);
    }
  }

  // ---------------------------------------------------------------- what every step keeps

  /** A slot's in-flight count is the number of references that stand for a begun task, plus the lost ones. */
  ghost predicate CountInv(s: State)
  {
    forall k :: 0 <= k < |s.slots| ==> s.slots[k].inFlight == |Flying(s.refs, k)| + s.slots[k].lost
  }

  predicate RefOk(slots: seq<Slot>, x: Ref)
  {
    x.slot < |slots| && slots[x.slot].phase.InUse? && x.generation == slots[x.slot].generation
  }

  /** References point to slots in use, of the same acquisition; a slot in use has one. */
  ghost predicate RefInv(s: State)
  {
    && (forall r :: r in s.refs ==> RefOk(s.slots, s.refs[r]))
    && (forall k :: 0 <= k < |s.slots| && s.slots[k].phase.InUse? ==> RefsTo(s.refs, k) != {})
  }

  /** A slot is on the free list exactly once when it is free, and not at all otherwise. */
  ghost predicate FreeList(slots: seq<Slot>, free: seq<nat>)
  {
    && (forall i :: 0 <= i < |free| ==> free[i] < |slots| && slots[free[i]].phase.Free?)
    && (forall i, j :: 0 <= i < j < |free| ==> free[i] != free[j])
    && (forall k :: 0 <= k < |slots| && slots[k].phase.Free? ==> k in free)
  }

  ghost predicate FreeInv(s: State) { FreeList(s.slots, s.free) }

  lemma FreeListPop(slots: seq<Slot>, free: seq<nat>, x: Slot)
    requires FreeList(slots, free) && free != [] && !x.phase.Free?
    ensures FreeList(slots[free[|free| - 1] := x], free[..|free| - 1])
  {
    assert free == free[..|free| - 1] + [free[|free| - 1]];
  }

  lemma FreeListPush(slots: seq<Slot>, free: seq<nat>, k: nat, x: Slot)
    requires FreeList(slots, free) && k < |slots| && !slots[k].phase.Free? && x.phase.Free?
    ensures FreeList(slots[k := x], free + [k])
  {
    assert forall j :: j in free ==> j in free + [k];
    assert k in free + [k];
  }

  lemma FreeListOther(slots: seq<Slot>, free: seq<nat>, k: nat, x: Slot)
    requires FreeList(slots, free) && k < |slots| && !slots[k].phase.Free? && !x.phase.Free?
    ensures FreeList(slots[k := x], free)
  {
  }

  lemma CountStep(s: State, a: Action)
    requires CountInv(s) && Enabled(s, a)
    ensures CountInv(Next(s, a))
  {
    var s' := Next(s, a);
    forall k | 0 <= k < |s'.slots| ensures s'.slots[k].inFlight == |Flying(s'.refs, k)| + s'.slots[k].lost {
      match a {
        case Activate(_, r) => FlyingUpdate(s.refs, r, s'.refs[r], k);
        case Copy(r, r') => FlyingUpdate(s.refs, r', s'.refs[r'], k);
        case BeginTask(r) => FlyingUpdate(s.refs, r, s'.refs[r], k);
        case SkipCancelled(r) => FlyingUpdate(s.refs, r, s'.refs[r], k);
        case Approve(r) => FlyingUpdate(s.refs, r, s'.refs[r], k);
        case DispatchRefused(r) => FlyingUpdate(s.refs, r, s'.refs[r], k);
        case DispatchAccepted(r, c) =>
          var mid := s.refs[r := s.refs[r].(use := Plain)];
          FlyingUpdate(s.refs, r, s.refs[r].(use := Plain), k);
          FlyingUpdate(mid, c, s'.refs[c], k);
        case StartTask(c) => FlyingUpdate(s.refs, c, s'.refs[c], k);
        case EndTask(c) => FlyingUpdate(s.refs, c, s'.refs[c], k);
        case Drop(r) => FlyingDrop(s.refs, r, k);
        case LoseTask(c) => FlyingDrop(s.refs, c, k);
        case _ =>
      }
    }
  }

  /** Steps that leave every slot in its phase and its generation. */
  predicate KeepsPhases(s: State, a: Action)
    requires Enabled(s, a)
  {
    match a
    case PopFree => false
    case Activate(_, _) => false
    case CloseAndReset(_) => false
    case PushFree(_) => false
    case Drop(r) => RefsTo(s.refs - {r}, s.refs[r].slot) != {}
    case LoseTask(c) => RefsTo(s.refs - {c}, s.refs[c].slot) != {}
    case _ => true
  }

  /** The slots look alike to references and to the free list. */
  ghost predicate SamePhases(a: seq<Slot>, b: seq<Slot>)
  {
    |a| == |b| && forall k :: 0 <= k < |a| ==> a[k].phase == b[k].phase && a[k].generation == b[k].generation
  }

  lemma KeepsPhasesStep(s: State, a: Action)
    requires Enabled(s, a) && KeepsPhases(s, a)
    ensures SamePhases(s.slots, Next(s, a).slots) && Next(s, a).free == s.free
  {
  }

  /** One reference changes its use, or is a new one of the same acquisition, or is gone. */
  ghost predicate RefsMove(refs: map<nat, Ref>, refs': map<nat, Ref>)
  {
    forall r :: r in refs' ==>
      exists q :: q in refs && refs'[r].slot == refs[q].slot && refs'[r].generation == refs[q].generation
  }

  lemma WithUseMoves(s: State, r: nat, u: Use, delta: int)
    requires r in s.refs && s.refs[r].slot < |s.slots|
    ensures RefsMove(s.refs, WithUse(s, r, u, delta).refs)
  {
  }

  lemma GoneMoves(s: State, r: nat)
    requires r in s.refs && s.refs[r].slot < |s.slots|
    ensures RefsMove(s.refs, Gone(s, r).refs)
  {
  }

  lemma KeepsMoves(s: State, a: Action)
    requires Enabled(s, a) && KeepsPhases(s, a)
    ensures RefsMove(s.refs, Next(s, a).refs)
  {
    match a {
      case BeginTask(r) => WithUseMoves(s, r, Submitting, 1);
      case SkipCancelled(r) => WithUseMoves(s, r, Plain, -1);
      case Approve(r) => WithUseMoves(s, r, Approved, 0);
      case DispatchRefused(r) => WithUseMoves(s, r, Plain, -1);
      case StartTask(c) => WithUseMoves(s, c, RunningTask(!s.slots[s.refs[c].slot].cancelled), 0);
      case EndTask(c) => WithUseMoves(s, c, Plain, -1);
      case Drop(r) => GoneMoves(s, r);
      case LoseTask(c) =>
        var k := s.refs[c].slot;
        GoneMoves(s.(slots := s.slots[k := s.slots[k].(lost := s.slots[k].lost + 1)]), c);
      case _ =>
    }
  }

  lemma KeepsRefsOk(s: State, a: Action)
    requires RefInv(s) && Enabled(s, a) && KeepsPhases(s, a)
    ensures forall r :: r in Next(s, a).refs ==> RefOk(s.slots, Next(s, a).refs[r])
  {
    KeepsMoves(s, a);
  }

  lemma KeepsOthers(s: State, a: Action, r: nat)
    requires Enabled(s, a) && KeepsPhases(s, a) && r in s.refs && a != Drop(r) && a != LoseTask(r)
    ensures r in Next(s, a).refs && Next(s, a).refs[r].slot == s.refs[r].slot
  {
  }

  lemma KeepsInUse(s: State, a: Action, k: nat)
    requires RefInv(s) && Enabled(s, a) && KeepsPhases(s, a) && k < |s.slots| && s.slots[k].phase.InUse?
    ensures RefsTo(Next(s, a).refs, k) != {}
  {
    var r :| r in RefsTo(s.refs, k);
    if a != Drop(r) && a != LoseTask(r) {
      KeepsOthers(s, a, r);
      assert r in RefsTo(Next(s, a).refs, k);
    }
  }

  /** The last reference to a slot leaves with its slot. */
  lemma GoneRefs(s: State, r: nat)
    requires RefInv(s) && r in s.refs && RefsTo(s.refs - {r}, s.refs[r].slot) == {}
    ensures RefInv(Gone(s, r))
  {
    var s', k := Gone(s, r), s.refs[r].slot;
    assert forall q :: q in s'.refs ==> (s'.refs[q].slot == k ==> q in RefsTo(s'.refs, k));
    forall j | 0 <= j < |s.slots| && j != k && s.slots[j].phase.InUse? ensures RefsTo(s'.refs, j) != {} {
      var q :| q in RefsTo(s.refs, j);
      assert q in RefsTo(s'.refs, j);
    }
  }

  /** The first reference of an acquisition. */
  lemma ActivateRefs(s: State, k: nat, r: nat)
    requires RefInv(s) && Enabled(s, Activate(k, r))
    ensures RefInv(Next(s, Activate(k, r)))
  {
    var s' := Next(s, Activate(k, r));
    assert r in RefsTo(s'.refs, k);
    forall j | 0 <= j < |s.slots| && j != k && s.slots[j].phase.InUse? ensures RefsTo(s'.refs, j) != {} {
      var q :| q in RefsTo(s.refs, j);
      assert q in RefsTo(s'.refs, j);
    }
  }

  /** Between the last reference and the next acquisition, a slot that nobody refers to changes its phase. */
  lemma UnreferencedRefs(s: State, a: Action)
    requires RefInv(s) && FreeInv(s) && Enabled(s, a) && (a.PopFree? || a.CloseAndReset? || a.PushFree?)
    ensures RefInv(Next(s, a))
  {
  }

  /** References see neither counts nor losses. */
  lemma SamePhasesRefs(s: State, slots: seq<Slot>)
    requires RefInv(s) && SamePhases(s.slots, slots)
    ensures RefInv(s.(slots := slots))
  {
  }

  lemma LoseTaskRefs(s: State, c: nat)
    requires RefInv(s) && Enabled(s, LoseTask(c)) && !KeepsPhases(s, LoseTask(c))
    ensures RefInv(Next(s, LoseTask(c)))
  {
    var k := s.refs[c].slot;
    var slots := s.slots[k := s.slots[k].(lost := s.slots[k].lost + 1)];
    SamePhasesRefs(s, slots);
    GoneRefs(s.(slots := slots), c);
  }

  /** A step that moves slot k between phases changes the references of no other slot. */
  lemma PhaseStepRefs(s: State, a: Action)
    requires RefInv(s) && FreeInv(s) && Enabled(s, a) && !KeepsPhases(s, a)
    ensures RefInv(Next(s, a))
  {
    if a.Activate? {
      ActivateRefs(s, a.k, a.r);
    } else if a.Drop? {
      GoneRefs(s, a.r);
    } else if a.LoseTask? {
      LoseTaskRefs(s, a.c);
    } else {
      UnreferencedRefs(s, a);
    }
  }

  lemma KeepsRefInv(s: State, a: Action)
    requires RefInv(s) && Enabled(s, a) && KeepsPhases(s, a)
    ensures RefInv(Next(s, a))
  {
    var s' := Next(s, a);
    KeepsPhasesStep(s, a);
    assert forall r :: r in s'.refs ==> RefOk(s'.slots, s'.refs[r]) by { KeepsRefsOk(s, a); }
    forall k | 0 <= k < |s'.slots| && s'.slots[k].phase.InUse? ensures RefsTo(s'.refs, k) != {} {
      KeepsInUse(s, a, k);
    }
  }

  lemma RefStep(s: State, a: Action)
    requires RefInv(s) && FreeInv(s) && Enabled(s, a)
    ensures RefInv(Next(s, a))
  {
    if KeepsPhases(s, a) { KeepsRefInv(s, a); } else { PhaseStepRefs(s, a); }
  }

  lemma FreeStep(s: State, a: Action)
    requires RefInv(s) && FreeInv(s) && Enabled(s, a)
    ensures FreeInv(Next(s, a))
  {
    if KeepsPhases(s, a) {
      KeepsPhasesStep(s, a);
    } else {
      PhaseStepFree(s, a);
    }
  }

  /** The last reference to a slot leaves: the slot is not on the free list yet. */
  lemma GoneFree(s: State, r: nat, slots: seq<Slot>)
    requires RefInv(s) && FreeInv(s) && r in s.refs && RefsTo(s.refs - {r}, s.refs[r].slot) == {}
    requires |slots| == |s.slots| && slots == s.slots[s.refs[r].slot := slots[s.refs[r].slot]]
    ensures FreeInv(Gone(s.(slots := slots), r))
  {
    var k := s.refs[r].slot;
    FreeListOther(s.slots, s.free, k, slots[k].(phase := Releasing));
    assert slots[k := slots[k].(phase := Releasing)] == s.slots[k := slots[k].(phase := Releasing)];
  }

  lemma SlotStepFree(s: State, a: Action)
    requires FreeInv(s) && Enabled(s, a) && (a.PopFree? || a.PushFree? || a.Activate? || a.CloseAndReset?)
    ensures FreeInv(Next(s, a))
  {
    var slots := Next(s, a).slots;
    match a {
      case PopFree => FreeListPop(s.slots, s.free, slots[s.free[|s.free| - 1]]);
      case PushFree(k) => FreeListPush(s.slots, s.free, k, slots[k]);
      case Activate(k, _) => FreeListOther(s.slots, s.free, k, slots[k]);
      case CloseAndReset(k) => FreeListOther(s.slots, s.free, k, slots[k]);
    }
  }

  lemma PhaseStepFree(s: State, a: Action)
    requires RefInv(s) && FreeInv(s) && Enabled(s, a) && !KeepsPhases(s, a)
    ensures FreeInv(Next(s, a))
  {
    if a.Drop? {
      GoneFree(s, a.r, s.slots);
    } else if a.LoseTask? {
      var k := s.refs[a.c].slot;
      GoneFree(s, a.c, s.slots[k := s.slots[k].(lost := s.slots[k].lost + 1)]);
    } else {
      SlotStepFree(s, a);
    }
  }

  /** The abort has happened only if a closure was lost. */
  ghost predicate AbortInv(s: State) { s.aborted ==> exists k :: 0 <= k < |s.slots| && s.slots[k].lost > 0 }

  ghost predicate Inv(s: State) { CountInv(s) && RefInv(s) && FreeInv(s) && AbortInv(s) }

  lemma NoRefsOnlyLost(s: State, k: nat)
    requires CountInv(s) && RefInv(s) && k < |s.slots| && !s.slots[k].phase.InUse?
    ensures s.slots[k].inFlight == s.slots[k].lost
  {
    assert Flying(s.refs, k) == {};
  }

  lemma LostStays(s: State, a: Action, k: nat)
    requires Enabled(s, a) && k < |s.slots|
    ensures |Next(s, a).slots| == |s.slots| && Next(s, a).slots[k].lost >= s.slots[k].lost
  {
  }

  lemma InvStep(s: State, a: Action)
    requires Inv(s) && Enabled(s, a)
    ensures Inv(Next(s, a))
  {
    CountStep(s, a);
    RefStep(s, a);
    FreeStep(s, a);
    AbortStep(s, a);
  }

  lemma AbortStep(s: State, a: Action)
    requires Inv(s) && Enabled(s, a)
    ensures AbortInv(Next(s, a))
  {
    if s.aborted {
      var k :| 0 <= k < |s.slots| && s.slots[k].lost > 0;
      LostStays(s, a, k);
      assert Next(s, a).slots[k].lost > 0;
    } else if a.CloseAndReset? {
      NoRefsOnlyLost(s, a.k);
    }
  }

  lemma {:induction false} InvAlways(run: seq<State>, acts: seq<Action>, i: nat)
    requires IsRun(run, acts) && i < |run|
    ensures Inv(run[i])
  {
    if i == 0 {
      var s := run[0];
      forall k | 0 <= k < |s.slots| ensures Flying(s.refs, k) == {} && k in s.free {
        assert s.free[k] == k;
      }
    } else {
      InvAlways(run, acts, i - 1);
      InvStep(run[i - 1], acts[i - 1]);
    }
  }

  // ---------------------------------------------------------------- the promises

  /**
   While the dispatcher runs every accepted closure, the abort in AsyncScope::Reset is unreachable:
   whenever no reference is left, nothing is in flight.
   */
  lemma ResetNeverAborts(run: seq<State>, acts: seq<Action>, i: nat, k: nat)
    requires IsRun(run, acts) && i < |run| && k < |run[i].slots|
    requires forall j :: 0 <= j < |run[i].slots| ==> run[i].slots[j].lost == 0
    ensures !run[i].aborted
    ensures RefsTo(run[i].refs, k) == {} ==> run[i].slots[k].inFlight == 0
  {
    InvAlways(run, acts, i);
    if RefsTo(run[i].refs, k) == {} { NoRefsOnlyLost(run[i], k); }
  }

  /** Exactly when recycling a slot aborts: a closure of that slot was destroyed without having run. */
  lemma ResetAbortsIff(run: seq<State>, acts: seq<Action>, i: nat, k: nat)
    requires IsRun(run, acts) && i < |run| && Enabled(run[i], CloseAndReset(k)) && !run[i].aborted
    ensures Next(run[i], CloseAndReset(k)).aborted <==> run[i].slots[k].lost > 0
  {
    InvAlways(run, acts, i);
    NoRefsOnlyLost(run[i], k);
  }

  /** One slot: the states of the run below, after acquire, submit, drop, loss and reset. */
  function Example(i: nat): State
  {
    match i
    case 0 => State([Slot(Free, 0, false, 0, 0)], [0], map[], false)
    case 1 => State([Slot(Acquiring, 0, false, 0, 0)], [], map[], false)
    case 2 => State([Slot(InUse, 0, false, 1, 0)], [], map[7 := Ref(0, 1, Plain)], false)
    case 3 => State([Slot(InUse, 1, false, 1, 0)], [], map[7 := Ref(0, 1, Submitting)], false)
    case 4 => State([Slot(InUse, 1, false, 1, 0)], [], map[7 := Ref(0, 1, Approved)], false)
    case 5 => State([Slot(InUse, 1, false, 1, 0)], [], map[7 := Ref(0, 1, Plain), 8 := Ref(0, 1, QueuedTask)], false)
    case 6 => State([Slot(InUse, 1, false, 1, 0)], [], map[8 := Ref(0, 1, QueuedTask)], false)
    case 7 => State([Slot(Releasing, 1, false, 1, 1)], [], map[], false)
    case _ => State([Slot(Releasing, 1, false, 1, 1)], [], map[], true)
  }

  function ExampleAction(i: nat): Action
  {
    match i
    case 0 => PopFree
    case 1 => Activate(0, 7)
    case 2 => BeginTask(7)
    case 3 => Approve(7)
    case 4 => DispatchAccepted(7, 8)
    case 5 => Drop(7)
    case 6 => LoseTask(8)
    case _ => CloseAndReset(0)
  }

  lemma ExampleStarts()
    ensures Init(Example(0))
  {
    assert Example(0).free == seq(1, k => k);
  }

  lemma ExampleStep(i: nat)
    requires i < 8
    ensures Enabled(Example(i), ExampleAction(i)) && Next(Example(i), ExampleAction(i)) == Example(i + 1)
  {
    var refs := Example(i + 1).refs;
    if i == 5 {
      assert Example(i).refs - {7} == refs;
      assert 8 in RefsTo(refs, 0);
    } else if i == 6 {
      assert Example(i).refs - {8} == refs;
      assert RefsTo(refs, 0) == {};
    }
  }

  /** It can happen: acquire, submit, drop the caller's reference, and lose the queued closure. */
  lemma LostClosureAborts() returns (run: seq<State>, acts: seq<Action>)
    ensures IsRun(run, acts) && run[|acts|].aborted
  {
    run, acts := seq(9, (i: nat) => Example(i)), seq(8, (i: nat) => ExampleAction(i));
    ExampleStarts();
    forall i | 0 <= i < 8 ensures Enabled(run[i], acts[i]) && run[i + 1] == Next(run[i], acts[i]) {
      ExampleStep(i);
    }
  }

  /** Each slot is on the free list exactly once, or not free; references never share a slot with the list. */
  lemma FreeListIsExact(run: seq<State>, acts: seq<Action>, i: nat, k: nat, r: nat)
    requires IsRun(run, acts) && i < |run| && k < |run[i].slots|
    ensures run[i].slots[k].phase.Free? <==> k in run[i].free
    ensures forall x, y :: 0 <= x < y < |run[i].free| ==> run[i].free[x] != run[i].free[y]
    ensures r in run[i].refs ==> run[i].refs[r].slot !in run[i].free
  {
    InvAlways(run, acts, i);
  }

  /** A task only ever runs on the acquisition it was submitted for, never on a recycled session. */
  lemma TasksRunOnTheirSession(run: seq<State>, acts: seq<Action>, i: nat, c: nat)
    requires IsRun(run, acts) && i < |run| && c in run[i].refs && run[i].refs[c].use.RunningTask?
    ensures run[i].refs[c].slot < |run[i].slots| && run[i].slots[run[i].refs[c].slot].phase.InUse?
    ensures run[i].slots[run[i].refs[c].slot].generation == run[i].refs[c].generation
  {
    InvAlways(run, acts, i);
  }

  // ---------------------------------------------------------------- cancellation

  /** The scope of a slot that nobody holds is open again. */
  ghost predicate OpenInv(s: State)
  {
    forall k :: 0 <= k < |s.slots| && (s.slots[k].phase.Free? || s.slots[k].phase.Acquiring? || s.slots[k].phase.WasReset?) ==>
      !s.slots[k].cancelled
  }

  lemma OpenStep(s: State, a: Action)
    requires OpenInv(s) && RefInv(s) && FreeInv(s) && Enabled(s, a)
    ensures OpenInv(Next(s, a))
  {
  }

  lemma {:induction false} OpenAlways(run: seq<State>, acts: seq<Action>, i: nat)
    requires IsRun(run, acts) && i < |run|
    ensures OpenInv(run[i])
  {
    if i > 0 {
      OpenAlways(run, acts, i - 1);
      InvAlways(run, acts, i - 1);
      OpenStep(run[i - 1], acts[i - 1]);
    }
  }

  /** Step b cancels slot k, through a reference to this acquisition of it. */
  ghost predicate Cancels(s: State, a: Action, k: nat, generation: nat)
  {
    a.Cancel? && a.r in s.refs && s.refs[a.r].slot == k && s.refs[a.r].generation == generation
  }

  lemma CancelStep(s: State, a: Action, k: nat)
    requires RefInv(s) && OpenInv(s) && Enabled(s, a) && k < |s.slots| && k < |Next(s, a).slots| && Next(s, a).slots[k].cancelled
    ensures Cancels(s, a, k, s.slots[k].generation) || s.slots[k].cancelled
    ensures Next(s, a).slots[k].generation == s.slots[k].generation
  {
  }

  lemma {:induction false} SameSlots(run: seq<State>, acts: seq<Action>, i: nat)
    requires IsRun(run, acts) && i < |run|
    ensures |run[i].slots| == |run[0].slots|
  {
    if i > 0 {
      SameSlots(run, acts, i - 1);
      if |run[i - 1].slots| > 0 { LostStays(run[i - 1], acts[i - 1], 0); }
    }
  }

  /** Acquisition g of slot k is cancelled. */
  ghost predicate IsCancelled(s: State, k: nat, g: nat)
  {
    k < |s.slots| && s.slots[k].cancelled && s.slots[k].generation == g
  }

  lemma CancelAt(run: seq<State>, acts: seq<Action>, i: nat, k: nat, g: nat)
    requires IsRun(run, acts) && i < |acts| && IsCancelled(run[i + 1], k, g)
    ensures Cancels(run[i], acts[i], k, g) || IsCancelled(run[i], k, g)
  {
    SameSlots(run, acts, i);
    SameSlots(run, acts, i + 1);
    InvAlways(run, acts, i);
    OpenAlways(run, acts, i);
    CancelStep(run[i], acts[i], k);
  }

  /** A session is cancelled only if it was closed through a reference to the same acquisition: a new one never is. */
  lemma {:induction false} CancelledWasClosed(run: seq<State>, acts: seq<Action>, i: nat, k: nat, g: nat) returns (b: nat)
    requires IsRun(run, acts) && i < |run| && IsCancelled(run[i], k, g)
    ensures b < i && Cancels(run[b], acts[b], k, g)
  {
    if i > 0 {
      CancelAt(run, acts, i - 1, k, g);
      if Cancels(run[i - 1], acts[i - 1], k, g) { b := i - 1; } else { b := CancelledWasClosed(run, acts, i - 1, k, g); }
    }
  }

  /** A newly acquired session accepts tasks. */
  lemma AcquiredIsOpen(run: seq<State>, acts: seq<Action>, i: nat)
    requires IsRun(run, acts) && i < |acts| && acts[i].Activate?
    ensures acts[i].k < |run[i + 1].slots| && !run[i + 1].slots[acts[i].k].cancelled
  {
    OpenAlways(run, acts, i);
  }

  /** Acquisition g of slot k is cancelled, or over. */
  ghost predicate ClosedOrOver(x: Slot, g: nat)
  {
    x.generation > g || (x.generation == g && (x.cancelled || x.phase.WasReset? || x.phase.Free? || x.phase.Acquiring?))
  }

  /** Steps that leave every scope as it is, or cancel one. */
  lemma ClosedKeeps(s: State, a: Action, k: nat, g: nat)
    requires RefInv(s) && Enabled(s, a) && KeepsPhases(s, a) && k < |s.slots| && (ClosedOrOver(s.slots[k], g) || Cancels(s, a, k, g))
    ensures k < |Next(s, a).slots| && ClosedOrOver(Next(s, a).slots[k], g)
  {
  }

  lemma ClosedMoves(s: State, a: Action, k: nat, g: nat)
    requires RefInv(s) && FreeInv(s) && Enabled(s, a) && !KeepsPhases(s, a) && k < |s.slots| && ClosedOrOver(s.slots[k], g)
    ensures k < |Next(s, a).slots| && ClosedOrOver(Next(s, a).slots[k], g)
  {
  }

  lemma ClosedStep(s: State, a: Action, k: nat, g: nat)
    requires RefInv(s) && FreeInv(s) && Enabled(s, a) && k < |s.slots| && (ClosedOrOver(s.slots[k], g) || Cancels(s, a, k, g))
    ensures k < |Next(s, a).slots| && ClosedOrOver(Next(s, a).slots[k], g)
  {
    if KeepsPhases(s, a) { ClosedKeeps(s, a, k, g); } else { ClosedMoves(s, a, k, g); }
  }

  lemma {:induction false} ClosedStays(run: seq<State>, acts: seq<Action>, b: nat, i: nat, k: nat, g: nat)
    requires IsRun(run, acts) && b < i < |run| && k < |run[b].slots| && Cancels(run[b], acts[b], k, g)
    ensures k < |run[i].slots| && ClosedOrOver(run[i].slots[k], g)
  {
    if b < i - 1 { ClosedStays(run, acts, b, i - 1, k, g); }
    InvAlways(run, acts, i - 1);
    ClosedStep(run[i - 1], acts[i - 1], k, g);
  }

  /**
   After Cancel through any reference to a session, the session stays cancelled as long as anyone refers
   to it: no later Submit is approved, and no task that starts later runs its body.
   */
  lemma CancelStopsTasks(run: seq<State>, acts: seq<Action>, b: nat, i: nat, k: nat, g: nat, r: nat)
    requires IsRun(run, acts) && b < i < |run| && k < |run[b].slots| && Cancels(run[b], acts[b], k, g)
    requires r in run[i].refs && run[i].refs[r].slot == k && run[i].refs[r].generation == g
    ensures k < |run[i].slots| && run[i].slots[k].cancelled && !Enabled(run[i], Approve(r))
    ensures Enabled(run[i], StartTask(r)) ==>
              r in Next(run[i], StartTask(r)).refs && Next(run[i], StartTask(r)).refs[r].use == RunningTask(false)
  {
    ClosedStays(run, acts, b, i, k, g);
    InvAlways(run, acts, i);
  }
}
