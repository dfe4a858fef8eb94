/**
 The queued send path of a session (Session.cpp, POSIX branch) as a step machine.

 Every thread owns a program counter; one step is one atomic access or one block under
 mSendMutex.  Atomics are sequentially consistent.  The provider is a black box that accepts
 a send (or refuses it) and completes an accepted one at some later time.
 */
module SendPath {
  const BACKPRESSURE_THRESHOLD: nat := 64
  const MAX_PACKET_TOTAL_SIZE: nat := 4096

  /** A queued buffer; `ticket` is its position in the order of pushes. */
  datatype Packet = Packet(ticket: nat, data: seq<int>)

  datatype Pc =
    | Idle                      // outside Send, PostSend and Close
    | LoadSize(data: seq<int>)  // back-pressure check of Send
    | Push(data: seq<int>)      // push under the lock
    | CasFlag                   // FlushSendQueue
    | CheckEmpty                // entry of PostSend
    | ReleaseFlag               // queue seen empty: clear mIsSending
    | Recheck                   // second look after clearing the flag
    | LockPop                   // pop under the lock
    | TakeProvider(pkt: Packet) // provider snapshot
    | HandOver(pkt: Packet)     // SendAsync
    | NoProvider                // snapshot was null: clear mIsSending
    | SendFailed                // SendAsync refused: clear mIsSending, then Close
    | CloseStart                // state exchange of Close
    | CloseDrain                // drain under the lock

  /** The fields every thread shares, and what has happened so far. */
  datatype Shared = Shared(
    connected: bool,
    provider: bool,
    queue: seq<Packet>,        // mSendQueue
    size: int,                 // mSendQueueSize
    sending: bool,             // mIsSending
    outstanding: seq<Packet>,  // accepted by the provider, not completed yet
    pushed: seq<Packet>,       // history: every packet pushed, in push order
    handed: seq<Packet>,       // history: every packet the provider accepted, in order
    broken: bool)              // history: a send was refused, or Close drained the queue

  datatype State = State(sh: Shared, pcs: seq<Pc>)

  datatype Event =
    | Begin(data: seq<int>)   // an idle thread calls Send
    | Close                   // an idle thread calls Close
    | Complete(k: nat)        // completion k arrives on an idle thread
    | Advance(ok: bool)       // next atomic step of a busy thread; ok answers SendAsync

  datatype Action = Action(t: nat, e: Event)

  ghost predicate Init(s: State)
  {
    && s.sh == Shared(true, true, [], 0, false, [], [], [], false)
    && forall t :: 0 <= t < |s.pcs| ==> s.pcs[t] == Idle
  }

  predicate CanFire(sh: Shared, pc: Pc, e: Event)
  {
    pc.Idle? == !e.Advance? && (e.Complete? ==> e.k < |sh.outstanding|)
  }

  predicate Enabled(s: State, a: Action) { a.t < |s.pcs| && CanFire(s.sh, s.pcs[a.t], a.e) }

  function Next(s: State, a: Action): State
    requires Enabled(s, a)
  {
    var (sh', pc') := Fire(s.sh, s.pcs[a.t], a.e);
    State(sh', s.pcs[a.t := pc'])
  }

  /** What one thread at `pc` does to the shared fields, and where it goes next. */
  function Fire(sh: Shared, pc: Pc, e: Event): (Shared, Pc)
    requires CanFire(sh, pc, e)
  {
    match pc
    case Idle =>
      (match e
       case Begin(data) =>
         (sh, if !sh.connected || |data| == 0 || |data| > MAX_PACKET_TOTAL_SIZE then Idle else LoadSize(data))
       case Close => (sh, CloseStart)
       case Complete(k) =>
         (sh.(outstanding := sh.outstanding[..k] + sh.outstanding[k + 1..]), CheckEmpty))
    case LoadSize(data) => (sh, if sh.size >= BACKPRESSURE_THRESHOLD then Idle else Push(data))
    case Push(data) =>
      var p := Packet(|sh.pushed|, data);
      (sh.(queue := sh.queue + [p], size := sh.size + 1, pushed := sh.pushed + [p]), CasFlag)
    case CasFlag => if sh.sending then (sh, Idle) else (sh.(sending := true), CheckEmpty)
    case CheckEmpty => (sh, if sh.size == 0 then ReleaseFlag else LockPop)
    case ReleaseFlag => (sh.(sending := false), Recheck)
    case Recheck => (sh, if sh.size > 0 then CasFlag else Idle)
    case LockPop =>
      if sh.queue == [] then (sh.(sending := false), Idle)
      else (sh.(queue := sh.queue[1..], size := sh.size - 1), TakeProvider(sh.queue[0]))
    case TakeProvider(pkt) => if sh.provider then (sh, HandOver(pkt)) else (sh.(broken := true), NoProvider)
    case HandOver(pkt) =>
      if e.ok then (sh.(outstanding := sh.outstanding + [pkt], handed := sh.handed + [pkt]), Idle)
      else (sh.(broken := true), SendFailed)
    case NoProvider => (sh.(sending := false), Idle)
    case SendFailed => (sh.(sending := false), CloseStart)
    case CloseStart => (sh.(connected := false), if sh.connected then CloseDrain else Idle)
    case CloseDrain => (sh.(provider := false, queue := [], size := 0, broken := true), Idle)
  }

  ghost predicate IsRun(run: seq<State>, acts: seq<Action>)
  {
    && |run| == |acts| + 1
    && Init(run[0])
    && forall i :: 0 <= i < |acts| ==> Enabled(run[i], acts[i]) && run[i + 1] == Next(run[i], acts[i])
  }

  // ---------------------------------------------------------------- the send token

  /** Who may pop and send: nobody, one thread, or the one outstanding asynchronous send. */
  datatype Owner = Nobody | Thread(t: nat) | Provider

  predicate Holds(pc: Pc)
  {
    pc.CheckEmpty? || pc.ReleaseFlag? || pc.LockPop? || pc.TakeProvider? || pc.HandOver? ||
    pc.NoProvider? || pc.SendFailed?
  }

  ghost predicate TokenInv(s: State, o: Owner)
  {
    && (s.sh.sending <==> !o.Nobody?)
    && (o.Thread? ==> o.t < |s.pcs|)
    && (forall t :: 0 <= t < |s.pcs| ==> (Holds(s.pcs[t]) <==> o == Thread(t)))
    && |s.sh.outstanding| == if o.Provider? then 1 else 0
  }

  ghost function NextOwner(o: Owner, t: nat, pc: Pc, pc': Pc): Owner
  {
    if Holds(pc') then Thread(t)
    else if pc.HandOver? then Provider
    else if o == Thread(t) then Nobody
    else o
  }

  /** The token moves with the flag or with the provider, never otherwise. */
  ghost predicate TokenMove(sh: Shared, pc: Pc, sh': Shared, pc': Pc)
  {
    var out, out' := |sh.outstanding|, |sh'.outstanding|;
    if Holds(pc) == Holds(pc') then sh'.sending == sh.sending && out' == out
    else if Holds(pc') then (pc.Idle? && sh'.sending == sh.sending && out == out' + 1) ||
                            (!sh.sending && sh'.sending && out' == out)
    else if pc.HandOver? then sh'.sending == sh.sending && out' == out + 1
    else !sh'.sending && out' == out
  }

  lemma FireToken(sh: Shared, pc: Pc, e: Event)
    requires CanFire(sh, pc, e)
    ensures TokenMove(sh, pc, Fire(sh, pc, e).0, Fire(sh, pc, e).1)
  {
  }

  lemma TokenStep(s: State, o: Owner, t: nat, sh': Shared, pc': Pc)
    requires TokenInv(s, o) && t < |s.pcs| && TokenMove(s.sh, s.pcs[t], sh', pc')
    ensures TokenInv(State(sh', s.pcs[t := pc']), NextOwner(o, t, s.pcs[t], pc'))
  {
  }

  // ---------------------------------------------------------------- no lost wakeup

  predicate LooksAgain(pc: Pc) { pc.CasFlag? || pc.Recheck? }

  /** Unless the session broke, a waiting packet has someone who will look at the queue again. */
  ghost predicate WakeInv(s: State, o: Owner, w: nat)
  {
    && s.sh.size == |s.sh.queue|
    && (s.sh.provider || s.sh.broken)
    && (!s.sh.broken && s.sh.queue != [] && o.Nobody? ==> w < |s.pcs| && LooksAgain(s.pcs[w]))
  }

  ghost predicate WakeMove(sh: Shared, pc: Pc, sh': Shared, pc': Pc)
  {
    && sh'.size == |sh'.queue|
    && (sh'.provider || sh'.broken)
    && (sh.broken ==> sh'.broken)
    && (!Holds(pc') && !LooksAgain(pc') ==>
          || sh'.sending || sh'.queue == [] || sh'.broken
          || (!Holds(pc) && !LooksAgain(pc) && sh'.queue == sh.queue))
  }

  lemma FireWake(sh: Shared, pc: Pc, e: Event)
    requires CanFire(sh, pc, e) && sh.size == |sh.queue| && (sh.provider || sh.broken)
    requires (pc.HandOver? ==> sh.sending) && (pc.NoProvider? || pc.SendFailed? ==> sh.broken)
    ensures WakeMove(sh, pc, Fire(sh, pc, e).0, Fire(sh, pc, e).1)
    ensures var (sh', pc') := Fire(sh, pc, e); pc'.NoProvider? || pc'.SendFailed? ==> sh'.broken
  {
  }

  /** A thread on a failure path has already broken the session. */
  ghost predicate FailInv(s: State)
  {
    forall t :: 0 <= t < |s.pcs| && (s.pcs[t].NoProvider? || s.pcs[t].SendFailed?) ==> s.sh.broken
  }

  lemma WakeStep(s: State, o: Owner, w: nat, t: nat, sh': Shared, pc': Pc) returns (w': nat)
    requires TokenInv(s, o) && WakeInv(s, o, w) && t < |s.pcs|
    requires TokenMove(s.sh, s.pcs[t], sh', pc') && WakeMove(s.sh, s.pcs[t], sh', pc')
    ensures WakeInv(State(sh', s.pcs[t := pc']), NextOwner(o, t, s.pcs[t], pc'), w')
  {
    TokenStep(s, o, t, sh', pc');
    w' := if LooksAgain(pc') then t else w;
  }

  // ---------------------------------------------------------------- order

  predicate Carries(pc: Pc) { pc.TakeProvider? || pc.HandOver? }

  function Carried(pc: Pc): seq<Packet> { if Carries(pc) then [pc.pkt] else [] }

  /** The packet between its pop and its hand-over, if there is one. */
  ghost function Hand(s: State, o: Owner): seq<Packet>
  {
    if o.Thread? && o.t < |s.pcs| then Carried(s.pcs[o.t]) else []
  }

  /** Everything handed over, in hand or queued, oldest first. */
  ghost function Line(sh: Shared, hand: seq<Packet>): seq<Packet> { sh.handed + hand + sh.queue }

  /** The line consists of pushed packets in push order, and of all of them while nothing broke. */
  ghost predicate Ordered(line: seq<Packet>, pushed: seq<Packet>, broken: bool)
  {
    && (forall i :: 0 <= i < |pushed| ==> pushed[i].ticket == i)
    && (forall i :: 0 <= i < |line| ==> line[i] in pushed)
    && (forall i, j :: 0 <= i < j < |line| ==> line[i].ticket < line[j].ticket)
    && (!broken ==> line == pushed)
  }

  ghost predicate OrderInv(sh: Shared, hand: seq<Packet>) { Ordered(Line(sh, hand), sh.pushed, sh.broken) }

  /** A step pushes at the end, moves one packet along, or loses packets and breaks the session. */
  ghost predicate OrderMove(sh: Shared, pc: Pc, sh': Shared, pc': Pc)
  {
    && (Holds(pc) || Holds(pc') || (sh'.handed == sh.handed && Carried(pc) == Carried(pc') == []))
    && (sh.broken ==> sh'.broken)
    && (if pc.Push? then
          && sh'.pushed == sh.pushed + [Packet(|sh.pushed|, pc.data)]
          && sh'.queue == sh.queue + [Packet(|sh.pushed|, pc.data)]
          && !Holds(pc')
        else
          && sh'.pushed == sh.pushed
          && (|| (sh'.queue == sh.queue && sh'.handed == sh.handed && Carried(pc') == Carried(pc))
              || (sh'.queue == sh.queue && sh'.handed == sh.handed + Carried(pc) && Carried(pc') == [])
              || (sh'.handed == sh.handed && Carried(pc) == [] && Carried(pc') + sh'.queue == sh.queue)
              || (sh'.broken && sh'.handed == sh.handed && Carried(pc') == [] && Carried(pc) != [] && sh'.queue == sh.queue)
              || (sh'.broken && sh'.handed == sh.handed && sh'.queue == [] && !Holds(pc) && !Holds(pc'))))
  }

  lemma FireOrder(sh: Shared, pc: Pc, e: Event)
    requires CanFire(sh, pc, e)
    ensures OrderMove(sh, pc, Fire(sh, pc, e).0, Fire(sh, pc, e).1)
  {
    if pc.LockPop? && sh.queue != [] {
      assert sh.queue == [sh.queue[0]] + sh.queue[1..];
    }
  }

  /** Leaving a stretch out of an ordered line keeps it ordered. */
  lemma OrderedWithout(x: seq<Packet>, y: seq<Packet>, z: seq<Packet>, pushed: seq<Packet>, broken: bool)
    requires Ordered(x + y + z, pushed, broken)
    ensures Ordered(x + z, pushed, true)
  {
    var all, all' := x + y + z, x + z;
    assert forall i :: 0 <= i < |all'| ==> all'[i] == all[if i < |x| then i else i + |y|];
  }

  lemma OrderedPush(line: seq<Packet>, pushed: seq<Packet>, broken: bool, p: Packet)
    requires Ordered(line, pushed, broken) && p.ticket == |pushed|
    ensures Ordered(line + [p], pushed + [p], broken)
  {
    forall i | 0 <= i < |line| ensures line[i] in pushed + [p] && line[i].ticket < |pushed| {
      assert line[i] in pushed;
    }
  }

  /** How the line changes: it grows at the end, stays, or loses the packet in hand or the queue. */
  lemma LineMove(sh: Shared, pc: Pc, hand: seq<Packet>, sh': Shared, pc': Pc, hand': seq<Packet>)
    requires OrderMove(sh, pc, sh', pc')
    requires (hand == Carried(pc) && hand' == Carried(pc')) || (hand' == hand && Carried(pc) == Carried(pc') == [])
    ensures var l, l' := Line(sh, hand), Line(sh', hand');
            if pc.Push? then l' == l + [Packet(|sh.pushed|, pc.data)]
            else || l' == l
                 || (sh'.broken && l' == sh.handed + sh.queue)
                 || (sh'.broken && l' == (sh.handed + hand) + [] && l == (sh.handed + hand) + sh.queue + [])
  {
    if pc.Push? {
      assert sh'.handed == sh.handed && hand' == hand;
    } else if sh'.handed == sh.handed && Carried(pc) == [] && Carried(pc') + sh'.queue == sh.queue {
      assert Line(sh', hand') == Line(sh, hand);
    }
  }

  lemma OrderStep(s: State, o: Owner, t: nat, sh': Shared, pc': Pc)
    requires TokenInv(s, o) && OrderInv(s.sh, Hand(s, o)) && t < |s.pcs|
    requires TokenMove(s.sh, s.pcs[t], sh', pc') && OrderMove(s.sh, s.pcs[t], sh', pc')
    ensures OrderInv(sh', Hand(State(sh', s.pcs[t := pc']), NextOwner(o, t, s.pcs[t], pc')))
  {
    var sh, pc, hand := s.sh, s.pcs[t], Hand(s, o);
    var hand' := Hand(State(sh', s.pcs[t := pc']), NextOwner(o, t, pc, pc'));
    LineMove(sh, pc, hand, sh', pc', hand');
    if pc.Push? {
      OrderedPush(Line(sh, hand), sh.pushed, sh.broken, Packet(|sh.pushed|, pc.data));
    } else if Line(sh', hand') == sh.handed + sh.queue {
      OrderedWithout(sh.handed, hand, sh.queue, sh.pushed, sh.broken);
    } else if Line(sh', hand') != Line(sh, hand) {
      OrderedWithout(sh.handed + hand, sh.queue, [], sh.pushed, sh.broken);
    }
  }

  // ---------------------------------------------------------------- length of the queue

  function Pushers(pcs: seq<Pc>): nat
  {
    if pcs == [] then 0 else (if pcs[0].Push? then 1 else 0) + Pushers(pcs[1..])
  }

  lemma {:induction false} PushersUpdate(pcs: seq<Pc>, t: nat, pc': Pc)
    requires t < |pcs|
    ensures Pushers(pcs[t := pc']) == Pushers(pcs) - (if pcs[t].Push? then 1 else 0) + (if pc'.Push? then 1 else 0)
    ensures Pushers(pcs) <= |pcs|
  {
    if t > 0 {
      PushersUpdate(pcs[1..], t - 1, pc');
      assert pcs[t := pc'][1..] == pcs[1..][t - 1 := pc'];
    } else {
      assert pcs[t := pc'][1..] == pcs[1..];
      if |pcs| > 1 { PushersUpdate(pcs[1..], 0, pc'); }
    }
  }

  ghost predicate BoundInv(s: State)
  {
    |s.sh.queue| + Pushers(s.pcs) <= BACKPRESSURE_THRESHOLD - 1 + |s.pcs|
  }

  /** A thread pushes only after it found the queue below the threshold, and a push is one packet. */
  ghost predicate BoundMove(sh: Shared, pc: Pc, sh': Shared, pc': Pc)
  {
    if pc.Push? then |sh'.queue| == |sh.queue| + 1 && !pc'.Push?
    else |sh'.queue| <= |sh.queue| && (pc'.Push? ==> |sh.queue| < BACKPRESSURE_THRESHOLD)
  }

  lemma FireBound(sh: Shared, pc: Pc, e: Event)
    requires CanFire(sh, pc, e) && sh.size == |sh.queue|
    ensures BoundMove(sh, pc, Fire(sh, pc, e).0, Fire(sh, pc, e).1)
  {
  }

  lemma BoundStep(s: State, t: nat, sh': Shared, pc': Pc)
    requires t < |s.pcs| && BoundInv(s) && BoundMove(s.sh, s.pcs[t], sh', pc')
    ensures BoundInv(State(sh', s.pcs[t := pc']))
  {
    PushersUpdate(s.pcs, t, pc');
    PushersUpdate(s.pcs[t := pc'], t, pc');
  }

  // ---------------------------------------------------------------- every run

  ghost predicate Inv(s: State, o: Owner, w: nat)
  {
    && TokenInv(s, o) && WakeInv(s, o, w) && FailInv(s) && OrderInv(s.sh, Hand(s, o)) && BoundInv(s)
  }

  lemma InvStep(s: State, o: Owner, w: nat, a: Action) returns (o': Owner, w': nat)
    requires Inv(s, o, w) && Enabled(s, a)
    ensures Inv(Next(s, a), o', w')
  {
    var sh, pc := s.sh, s.pcs[a.t];
    FireToken(sh, pc, a.e);
    FireWake(sh, pc, a.e);
    FireOrder(sh, pc, a.e);
    FireBound(sh, pc, a.e);
    BoundStep(s, a.t, Fire(sh, pc, a.e).0, Fire(sh, pc, a.e).1);
    o', w' := CombineSteps(s, o, w, a.t, Fire(sh, pc, a.e).0, Fire(sh, pc, a.e).1);
  }

  lemma CombineSteps(s: State, o: Owner, w: nat, t: nat, sh': Shared, pc': Pc) returns (o': Owner, w': nat)
    requires Inv(s, o, w) && t < |s.pcs| && BoundInv(State(sh', s.pcs[t := pc']))
    requires TokenMove(s.sh, s.pcs[t], sh', pc') && WakeMove(s.sh, s.pcs[t], sh', pc') && OrderMove(s.sh, s.pcs[t], sh', pc')
    requires pc'.NoProvider? || pc'.SendFailed? ==> sh'.broken
    ensures Inv(State(sh', s.pcs[t := pc']), o', w')
  {
    o' := NextOwner(o, t, s.pcs[t], pc');
    TokenStep(s, o, t, sh', pc');
    w' := WakeStep(s, o, w, t, sh', pc');
    OrderStep(s, o, t, sh', pc');
  }

  lemma {:induction false} NobodyPushes(pcs: seq<Pc>)
    requires forall t :: 0 <= t < |pcs| ==> pcs[t] == Idle
    ensures Pushers(pcs) == 0
  {
    if pcs != [] { NobodyPushes(pcs[1..]); }
  }

  lemma {:induction false} InvAlways(run: seq<State>, acts: seq<Action>, i: nat) returns (o: Owner, w: nat)
    requires IsRun(run, acts) && i < |run|
    ensures Inv(run[i], o, w)
  {
    if i == 0 {
      o, w := Nobody, 0;
      NobodyPushes(run[0].pcs);
    } else {
      o, w := InvAlways(run, acts, i - 1);
      o, w := InvStep(run[i - 1], o, w, acts[i - 1]);
    }
  }

  /** No thread is inside Send or PostSend. */
  ghost predicate Quiet(s: State)
  {
    forall t :: 0 <= t < |s.pcs| ==> s.pcs[t].Idle? || s.pcs[t].CloseStart? || s.pcs[t].CloseDrain?
  }

  /** No lost wakeup: a quiet, unbroken session has an empty queue or exactly one outstanding send. */
  lemma NoLostWakeup(run: seq<State>, acts: seq<Action>, i: nat)
    requires IsRun(run, acts) && i < |run| && Quiet(run[i]) && !run[i].sh.broken
    ensures run[i].sh.queue == [] || |run[i].sh.outstanding| == 1
  {
    var o, w := InvAlways(run, acts, i);
  }

  /** One sender at a time, in every run: one outstanding send and nobody popping, or at most one thread popping. */
  lemma SingleSender(run: seq<State>, acts: seq<Action>, i: nat, t: nat, u: nat)
    requires IsRun(run, acts) && i < |run| && t < |run[i].pcs| && u < |run[i].pcs|
    ensures |run[i].sh.outstanding| <= 1
    ensures Holds(run[i].pcs[t]) ==> run[i].sh.sending && run[i].sh.outstanding == []
    ensures Holds(run[i].pcs[t]) && Holds(run[i].pcs[u]) ==> t == u
    ensures run[i].sh.outstanding != [] ==> run[i].sh.sending
  {
    var o, w := InvAlways(run, acts, i);
  }

  /** Packets reach the provider in push order and unaltered; while nothing broke, none is skipped. */
  lemma HandedInPushOrder(run: seq<State>, acts: seq<Action>, i: nat)
    requires IsRun(run, acts) && i < |run|
    ensures var sh := run[i].sh;
            && (forall k :: 0 <= k < |sh.handed| ==> sh.handed[k].ticket < |sh.pushed| &&
                                                     sh.handed[k] == sh.pushed[sh.handed[k].ticket])
            && (forall j, k :: 0 <= j < k < |sh.handed| ==> sh.handed[j].ticket < sh.handed[k].ticket)
            && (!sh.broken ==> sh.handed <= sh.pushed)
  {
    var o, w := InvAlways(run, acts, i);
    var sh, all := run[i].sh, run[i].sh.handed + Hand(run[i], o) + run[i].sh.queue;
    assert forall k :: 0 <= k < |sh.handed| ==> all[k] == sh.handed[k];
  }

  /** With T threads the queue never holds more than 63 + T packets. */
  lemma QueueBounded(run: seq<State>, acts: seq<Action>, i: nat)
    requires IsRun(run, acts) && i < |run|
    ensures |run[i].sh.queue| <= 63 + |run[i].pcs|
  {
    var o, w := InvAlways(run, acts, i);
  }

  // ---------------------------------------------------------------- progress

  /** Steps a thread at `pc` may still take before it goes idle, given whether the queue has packets. */
  function Weight(pc: Pc, busy: bool, k: nat): nat
  {
    match pc
    case Idle => 0
    case LoadSize(_) => 2 * k + 1
    case Push(_) => 2 * k
    case CasFlag => if busy then 4 else 8
    case CheckEmpty => if busy then 3 else 7
    case ReleaseFlag => 6
    case Recheck => 5
    case LockPop => 2
    case TakeProvider(_) => 10
    case HandOver(_) => 9
    case NoProvider => 1
    case SendFailed => 4
    case CloseStart => 3
    case CloseDrain => 2
  }

  function Weights(pcs: seq<Pc>, busy: bool, k: nat): nat
  {
    if pcs == [] then 0 else Weight(pcs[0], busy, k) + Weights(pcs[1..], busy, k)
  }

  lemma {:induction false} WeightsUpdate(pcs: seq<Pc>, t: nat, pc': Pc, busy: bool, k: nat)
    requires t < |pcs|
    ensures Weights(pcs[t := pc'], busy, k) == Weights(pcs, busy, k) - Weight(pcs[t], busy, k) + Weight(pc', busy, k)
  {
    if t > 0 {
      WeightsUpdate(pcs[1..], t - 1, pc', busy, k);
      assert pcs[t := pc'][1..] == pcs[1..][t - 1 := pc'];
    } else {
      assert pcs[t := pc'][1..] == pcs[1..];
    }
  }

  lemma {:induction false} WeightsFlip(pcs: seq<Pc>, k: nat)
    ensures Weights(pcs, true, k) <= Weights(pcs, false, k) <= Weights(pcs, true, k) + 4 * |pcs|
  {
    if pcs != [] { WeightsFlip(pcs[1..], k); }
  }

  /** The price of one queued packet: it pays for the pop and for every thread that looks again. */
  function Price(s: State): nat { 4 * |s.pcs| + 20 }

  /** Bounds the number of steps left when nobody calls Send or Close any more. */
  function Fuel(s: State): nat
  {
    Price(s) * |s.sh.queue| + 8 * |s.sh.outstanding| + Weights(s.pcs, s.sh.queue != [], Price(s))
  }

  /** What one step does to the queue, and to the weight of the provider and of the stepping thread. */
  ghost predicate FuelMove(sh: Shared, pc: Pc, sh': Shared, pc': Pc, k: nat)
  {
    var d := |sh'.queue| - |sh.queue|;
    var own := 8 * |sh'.outstanding| + Weight(pc', sh'.queue != [], k)
             - 8 * |sh.outstanding| - Weight(pc, sh'.queue != [], k);
    if d == 0 then own < 0 else if d == 1 then own + 2 * k <= 8 else d < 0 && own <= 8
  }

  predicate Internal(a: Action) { a.e.Advance? || a.e.Complete? }

  predicate MovesPackets(pc: Pc)
  {
    pc.Idle? || pc.Push? || pc.LockPop? || pc.HandOver? || pc.CloseDrain?
  }

  lemma FireFuelQuiet(sh: Shared, pc: Pc, e: Event, k: nat)
    requires CanFire(sh, pc, e) && !MovesPackets(pc) && sh.size == |sh.queue| && k >= 20
    ensures FuelMove(sh, pc, Fire(sh, pc, e).0, Fire(sh, pc, e).1, k)
  {
  }

  lemma FireFuelPackets(sh: Shared, pc: Pc, e: Event, k: nat)
    requires CanFire(sh, pc, e) && MovesPackets(pc) && (e.Advance? || e.Complete?) && sh.size == |sh.queue| && k >= 20
    ensures FuelMove(sh, pc, Fire(sh, pc, e).0, Fire(sh, pc, e).1, k)
  {
  }

  lemma FuelDrops(s: State, a: Action)
    requires Enabled(s, a) && Internal(a) && s.sh.size == |s.sh.queue|
    ensures Fuel(Next(s, a)) < Fuel(s)
  {
    var k, s' := Price(s), Next(s, a);
    if MovesPackets(s.pcs[a.t]) {
      FireFuelPackets(s.sh, s.pcs[a.t], a.e, k);
    } else {
      FireFuelQuiet(s.sh, s.pcs[a.t], a.e, k);
    }
    FuelArithmetic(s, a.t, s'.sh, s'.pcs[a.t], k);
  }

  lemma FuelArithmetic(s: State, t: nat, sh': Shared, pc': Pc, k: nat)
    requires t < |s.pcs| && k == Price(s) && FuelMove(s.sh, s.pcs[t], sh', pc', k)
    ensures Fuel(State(sh', s.pcs[t := pc'])) < Fuel(s)
  {
    var busy := sh'.queue != [];
    WeightsUpdate(s.pcs, t, pc', busy, k);
    WeightsFlip(s.pcs, k);
    PriceDrops(k, |s.pcs|, |s.sh.queue|, |sh'.queue|);
  }

  lemma {:induction false} PriceDrops(k: nat, n: nat, q: nat, q': nat)
    requires k >= 4 * n + 20
    ensures q' == q ==> k * q' == k * q
    ensures q' == q + 1 ==> k * q' == k * q + k
    ensures q' < q ==> k * q' + 4 * n + 20 <= k * q
    decreases q
  {
    if q' < q {
      assert k * q == k * (q - 1) + k;
      if q' < q - 1 { PriceDrops(k, n, q - 1, q'); }
    }
  }

  /** Without new calls every run is finite: at most Fuel steps follow. */
  lemma {:induction false} InternalRunsEnd(run: seq<State>, acts: seq<Action>, i: nat, j: nat)
    requires IsRun(run, acts) && i <= j < |run|
    requires forall n :: i <= n < j ==> Internal(acts[n])
    ensures j - i <= Fuel(run[i]) - Fuel(run[j])
  {
    if i < j {
      InternalRunsEnd(run, acts, i, j - 1);
      var o, w := InvAlways(run, acts, j - 1);
      FuelDrops(run[j - 1], acts[j - 1]);
    }
  }

  /** When no thread can step and no completion is due, an unbroken session has sent every packet pushed. */
  lemma EverythingIsSent(run: seq<State>, acts: seq<Action>, i: nat)
    requires IsRun(run, acts) && i < |run| && run[i].pcs != [] && !run[i].sh.broken
    requires forall a :: Internal(a) ==> !Enabled(run[i], a)
    ensures run[i].sh.queue == [] && run[i].sh.outstanding == [] && run[i].sh.handed == run[i].sh.pushed
  {
    var o, w := InvAlways(run, acts, i);
    forall t | 0 <= t < |run[i].pcs| ensures run[i].pcs[t].Idle? {
      assert !Enabled(run[i], Action(t, Advance(true)));
    }
    assert !Enabled(run[i], Action(0, Complete(0)));
  }
}
