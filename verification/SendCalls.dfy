/**
 The send path from the caller's side: which calls of Send put what into the queue, what a Close does
 to later calls, and what alone can break a session.
 */
module SendCalls {
  import opened SendPath

  /** Thread t takes no step from a on, before b. */
  ghost predicate Rests(acts: seq<Action>, t: nat, a: nat, b: nat)
  {
    forall k :: a <= k < b && k < |acts| ==> acts[k].t != t
  }

  /** q is the next step of thread t after step b. */
  ghost predicate NextStep(acts: seq<Action>, t: nat, b: nat, q: nat)
  {
    b < q < |acts| && acts[b].t == acts[q].t == t && Rests(acts, t, b + 1, q)
  }

  lemma NextStepIsUnique(acts: seq<Action>, t: nat, b: nat, q: nat, q': nat)
    requires NextStep(acts, t, b, q) && NextStep(acts, t, b, q')
    ensures q == q'
  {
  }

  lemma PreviousStepIsUnique(acts: seq<Action>, t: nat, b: nat, b': nat, q: nat)
    requires NextStep(acts, t, b, q) && NextStep(acts, t, b', q)
    ensures b == b'
  {
  }

  lemma OwnStepOnly(run: seq<State>, acts: seq<Action>, i: nat, t: nat)
    requires IsRun(run, acts) && i < |acts| && t < |run[i].pcs| && acts[i].t != t
    ensures t < |run[i + 1].pcs| && run[i + 1].pcs[t] == run[i].pcs[t]
  {
  }

  lemma {:induction false} RestingPc(run: seq<State>, acts: seq<Action>, t: nat, a: nat, b: nat)
    requires IsRun(run, acts) && a <= b < |run| && t < |run[a].pcs| && Rests(acts, t, a, b)
    ensures t < |run[b].pcs| && run[b].pcs[t] == run[a].pcs[t]
  {
    if a < b {
      RestingPc(run, acts, t, a, b - 1);
      OwnStepOnly(run, acts, b - 1, t);
    }
  }

  lemma {:induction false} SameThreads(run: seq<State>, acts: seq<Action>, i: nat)
    requires IsRun(run, acts) && i < |run|
    ensures |run[i].pcs| == |run[0].pcs|
  {
    if i > 0 { SameThreads(run, acts, i - 1); }
  }

  // ---------------------------------------------------------------- forward: what becomes of a call

  /** A call that Send does not turn away at once: connected, and between 1 and 4096 bytes. */
  ghost predicate Admitted(s: State, data: seq<int>) { s.sh.connected && 1 <= |data| <= 4096 }

  /** Step b calls Send(data), q loads the queue size and p is the step of that thread after it. */
  ghost predicate CallSteps(run: seq<State>, acts: seq<Action>, t: nat, data: seq<int>, b: nat, q: nat, p: nat)
  {
    && IsRun(run, acts) && p < |acts| && NextStep(acts, t, b, q) && NextStep(acts, t, q, p)
    && acts[b].e == Begin(data) && Admitted(run[b], data)
  }

  lemma AdmittedLoads(run: seq<State>, acts: seq<Action>, t: nat, data: seq<int>, b: nat, q: nat)
    requires IsRun(run, acts) && NextStep(acts, t, b, q) && acts[b].e == Begin(data) && Admitted(run[b], data)
    ensures t < |run[q].pcs| && run[q].pcs[t] == LoadSize(data)
  {
    RestingPc(run, acts, t, b + 1, q);
  }

  /** An admitted call that finds fewer than 64 packets queued pushes exactly its data, at its second step. */
  lemma AcceptedCallIsPushed(run: seq<State>, acts: seq<Action>, t: nat, data: seq<int>, b: nat, q: nat, p: nat)
    requires CallSteps(run, acts, t, data, b, q, p) && run[q].sh.size < 64
    ensures run[p + 1].sh.pushed == run[p].sh.pushed + [Packet(|run[p].sh.pushed|, data)]
    ensures run[p + 1].sh.queue == run[p].sh.queue + [Packet(|run[p].sh.pushed|, data)]
  {
    AdmittedLoads(run, acts, t, data, b, q);
    RestingPc(run, acts, t, q + 1, p);
  }

  /** An admitted call that finds 64 or more queued is over after its size check, and has pushed nothing. */
  lemma CrowdedCallIsRefused(run: seq<State>, acts: seq<Action>, t: nat, data: seq<int>, b: nat, q: nat)
    requires IsRun(run, acts) && NextStep(acts, t, b, q) && acts[b].e == Begin(data) && Admitted(run[b], data)
    requires run[q].sh.size >= 64
    ensures t < |run[q + 1].pcs| && run[q + 1].pcs[t] == Idle && run[q + 1].sh == run[q].sh
  {
    AdmittedLoads(run, acts, t, data, b, q);
  }

  /** A call that is not admitted ends at once and changes nothing. */
  lemma UnadmittedCallEnds(run: seq<State>, acts: seq<Action>, b: nat, data: seq<int>)
    requires IsRun(run, acts) && b < |acts| && acts[b].e == Begin(data) && !Admitted(run[b], data)
    ensures run[b + 1] == run[b]
  {
  }

  // ---------------------------------------------------------------- backward: where a packet comes from

  lemma {:induction false} LoadSizeOrigin(run: seq<State>, acts: seq<Action>, i: nat, t: nat) returns (b: nat)
    requires IsRun(run, acts) && i < |run| && t < |run[i].pcs| && run[i].pcs[t].LoadSize?
    ensures b < i && acts[b].t == t && Rests(acts, t, b + 1, i)
    ensures acts[b].e == Begin(run[i].pcs[t].data) && Admitted(run[b], run[i].pcs[t].data)
  {
    SameThreads(run, acts, i);
    assert i > 0;
    SameThreads(run, acts, i - 1);
    if acts[i - 1].t == t {
      b := i - 1;
    } else {
      OwnStepOnly(run, acts, i - 1, t);
      b := LoadSizeOrigin(run, acts, i - 1, t);
    }
  }

  lemma {:induction false} PushOrigin(run: seq<State>, acts: seq<Action>, i: nat, t: nat) returns (b: nat, q: nat)
    requires IsRun(run, acts) && i < |run| && t < |run[i].pcs| && run[i].pcs[t].Push?
    ensures b < q < i && NextStep(acts, t, b, q) && Rests(acts, t, q + 1, i)
    ensures acts[b].e == Begin(run[i].pcs[t].data) && Admitted(run[b], run[i].pcs[t].data) && run[q].sh.size < 64
  {
    SameThreads(run, acts, i);
    assert i > 0;
    SameThreads(run, acts, i - 1);
    if acts[i - 1].t == t {
      q := i - 1;
      b := LoadSizeOrigin(run, acts, q, t);
    } else {
      OwnStepOnly(run, acts, i - 1, t);
      b, q := PushOrigin(run, acts, i - 1, t);
    }
  }

  /** The pushed packets only grow, one by one, and by a thread that is pushing its data. */
  lemma PushedGrows(run: seq<State>, acts: seq<Action>, i: nat)
    requires IsRun(run, acts) && i < |acts|
    ensures var s, s' := run[i].sh, run[i + 1].sh;
            var pc := run[i].pcs[acts[i].t];
            s'.pushed == if pc.Push? then s.pushed + [Packet(|s.pushed|, pc.data)] else s.pushed
  {
  }

  /** A pushing step is the last step of its call. */
  lemma PushStepEndsACall(run: seq<State>, acts: seq<Action>, p: nat) returns (b: nat, q: nat)
    requires IsRun(run, acts) && p < |acts| && run[p].pcs[acts[p].t].Push?
    ensures CallSteps(run, acts, acts[p].t, run[p].pcs[acts[p].t].data, b, q, p) && run[q].sh.size < 64
  {
    b, q := PushOrigin(run, acts, p, acts[p].t);
    assert NextStep(acts, acts[p].t, q, p);
  }

  lemma PushedPrefix(run: seq<State>, acts: seq<Action>, i: nat, k: nat)
    requires IsRun(run, acts) && 0 < i < |run| && k < |run[i].sh.pushed|
    ensures if k < |run[i - 1].sh.pushed| then run[i].sh.pushed[k] == run[i - 1].sh.pushed[k]
            else k == |run[i - 1].sh.pushed| && run[i - 1].pcs[acts[i - 1].t].Push? &&
                 run[i].sh.pushed[k].data == run[i - 1].pcs[acts[i - 1].t].data
  {
    PushedGrows(run, acts, i - 1);
  }

  lemma {:induction false} PushStepOf(run: seq<State>, acts: seq<Action>, i: nat, k: nat) returns (p: nat)
    requires IsRun(run, acts) && i < |run| && k < |run[i].sh.pushed|
    ensures p < i && |run[p].sh.pushed| == k && run[p].pcs[acts[p].t].Push?
    ensures run[p].pcs[acts[p].t].data == run[i].sh.pushed[k].data
  {
    assert i > 0;
    PushedPrefix(run, acts, i, k);
    if k < |run[i - 1].sh.pushed| { p := PushStepOf(run, acts, i - 1, k); } else { p := i - 1; }
  }

  /**
   Every packet ever pushed comes from a call of Send with exactly these bytes, admitted and past the
   size check; b, q and p are the steps of that call.
   */
  lemma PushComesFromACall(run: seq<State>, acts: seq<Action>, i: nat, k: nat)
    returns (t: nat, b: nat, q: nat, p: nat)
    requires IsRun(run, acts) && i < |run| && k < |run[i].sh.pushed|
    ensures p < i && CallSteps(run, acts, t, run[i].sh.pushed[k].data, b, q, p)
    ensures |run[p].sh.pushed| == k && run[q].sh.size < 64
  {
    p := PushStepOf(run, acts, i, k);
    t := acts[p].t;
    b, q := PushStepEndsACall(run, acts, p);
  }

  /** A call pushes at most once: two packets come from two calls. */
  lemma OneCallOnePacket(run: seq<State>, acts: seq<Action>, t: nat, t': nat, data: seq<int>, data': seq<int>,
                         b: nat, q: nat, p: nat, q': nat, p': nat)
    requires CallSteps(run, acts, t, data, b, q, p) && CallSteps(run, acts, t', data', b, q', p')
    ensures p == p' && |run[p].sh.pushed| == |run[p'].sh.pushed|
  {
    NextStepIsUnique(acts, t, b, q, q');
    NextStepIsUnique(acts, t, q, p, p');
  }

  /** What reaches the provider is what some call of Send was given, byte for byte. */
  lemma HandedWasGiven(run: seq<State>, acts: seq<Action>, i: nat, k: nat) returns (t: nat, b: nat)
    requires IsRun(run, acts) && i < |run| && k < |run[i].sh.handed|
    ensures b < i && acts[b] == Action(t, Begin(run[i].sh.handed[k].data)) && Admitted(run[b], run[i].sh.handed[k].data)
  {
    HandedInPushOrder(run, acts, i);
    var q, p;
    t, b, q, p := PushComesFromACall(run, acts, i, run[i].sh.handed[k].ticket);
  }

  // ---------------------------------------------------------------- Close

  lemma {:induction false} ClosedStaysClosed(run: seq<State>, acts: seq<Action>, c: nat, i: nat)
    requires IsRun(run, acts) && c <= i < |run| && !run[c].sh.connected
    ensures !run[i].sh.connected
  {
    if c < i { ClosedStaysClosed(run, acts, c, i - 1); }
  }

  /** After a Close has exchanged the state, no later call of Send is admitted, so none of them pushes. */
  lemma CloseEndsSending(run: seq<State>, acts: seq<Action>, c: nat, i: nat, data: seq<int>)
    requires IsRun(run, acts) && c < i < |run| && run[c].pcs[acts[c].t].CloseStart?
    ensures !Admitted(run[i], data)
  {
    ClosedStaysClosed(run, acts, c + 1, i);
  }

  /** Only the first Close drains, and it leaves an empty queue and no provider. */
  lemma CloseDrains(run: seq<State>, acts: seq<Action>, c: nat, p: nat)
    requires IsRun(run, acts) && c < |acts| && run[c].pcs[acts[c].t].CloseStart? && NextStep(acts, acts[c].t, c, p)
    ensures run[c].sh.connected ==> run[p + 1].sh.queue == [] && run[p + 1].sh.size == 0 && !run[p + 1].sh.provider
    ensures !run[c].sh.connected ==> run[c + 1].sh == run[c].sh && run[c + 1].pcs[acts[c].t] == Idle
  {
    if run[c].sh.connected { RestingPc(run, acts, acts[c].t, c + 1, p); }
  }

  // ---------------------------------------------------------------- what breaks a session

  /** Step c is a call of Close, or the provider's refusal of a send. */
  ghost predicate Breaks(s: State, a: Action)
  {
    a.t < |s.pcs| && (a.e == Close || (s.pcs[a.t].HandOver? && a.e == Advance(false)))
  }

  predicate Closing(pc: Pc) { pc.CloseStart? || pc.CloseDrain? || pc.SendFailed? || pc.NoProvider? }

  /** A session that is broken, without provider, or being closed had a call of Close or a refused send before. */
  lemma {:induction false} BreakHasACause(run: seq<State>, acts: seq<Action>, i: nat) returns (c: nat)
    requires IsRun(run, acts) && i < |run|
    requires run[i].sh.broken || !run[i].sh.provider || exists t :: 0 <= t < |run[i].pcs| && Closing(run[i].pcs[t])
    ensures c < i && Breaks(run[c], acts[c])
  {
    assert i > 0;
    if Breaks(run[i - 1], acts[i - 1]) {
      c := i - 1;
    } else {
      QuietStepKeepsWhole(run[i - 1], acts[i - 1]);
      c := BreakHasACause(run, acts, i - 1);
    }
  }

  ghost predicate Whole(s: State)
  {
    !s.sh.broken && s.sh.provider && forall t :: 0 <= t < |s.pcs| ==> !Closing(s.pcs[t])
  }

  lemma QuietStepKeepsWhole(s: State, a: Action)
    requires Enabled(s, a) && !Breaks(s, a)
    ensures Whole(s) ==> Whole(Next(s, a))
  {
  }

  /** A send that the provider refuses gives the flag back and closes the session, at its thread's next two steps. */
  lemma RefusedSendCloses(run: seq<State>, acts: seq<Action>, m: nat, q: nat, c: nat)
    requires IsRun(run, acts) && m < |acts| && run[m].pcs[acts[m].t].HandOver? && acts[m].e == Advance(false)
    requires NextStep(acts, acts[m].t, m, q) && NextStep(acts, acts[m].t, q, c)
    ensures !run[q + 1].sh.sending && run[c].pcs[acts[m].t].CloseStart? && !run[c + 1].sh.connected
  {
    RestingPc(run, acts, acts[m].t, m + 1, q);
    RestingPc(run, acts, acts[m].t, q + 1, c);
  }

  /** A call of Close exchanges the state at its thread's next step, and no call of Send is admitted after that. */
  lemma CallOfCloseCloses(run: seq<State>, acts: seq<Action>, b: nat, q: nat, i: nat, data: seq<int>)
    requires IsRun(run, acts) && b < |acts| && acts[b].e == Close && NextStep(acts, acts[b].t, b, q) && q < i < |run|
    ensures !Admitted(run[i], data)
  {
    RestingPc(run, acts, acts[b].t, b + 1, q);
    CloseEndsSending(run, acts, q, i, data);
  }
}
