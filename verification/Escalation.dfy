/** The awaiting escalation handler (governance/kernel/escalation.go).

    Any number of Escalate, dispatch and Close calls interleave.  A step is one
    critical section of the handler's mutex, one channel operation, one
    transition of the sync.Once, or one call into the transport.  The transport
    may deliver any message at any time. */
module Escalation {
  import opened Verdicts

  datatype Msg = Msg(requestId: string, status: string, reviewer: string, note: string)

  predicate StatusKnown(m: Msg) {
    m.status == "approved" || m.status == "denied" || m.status == "expired"
  }

  /** How an Escalate call ended. */
  datatype Outcome =
    | Resolved(msg: Msg)
    | TimedOut
    | Canceled
    | PublishFailed
    | SubscribeFailed
    | AlreadyClosed
    | DuplicateRequest
    | Panicked

  /** What Escalate hands back to the pipeline. */
  datatype Reply =
    | Fault
    | Unwound
    | Verdict(action: Action, reason: string, mode: DecisionMode)

  function ResolvedReason(verb: string, m: Msg): string {
    "escalation " + verb
    + (if m.reviewer != "" then " by " + m.reviewer else "")
    + (if m.note != "" then ": " + m.note else "")
  }

  function ReplyOf(o: Outcome): Reply {
    match o
    case Resolved(m) =>
      if m.status == "approved" then Verdict(Allow, ResolvedReason("approved", m), HumanApproved)
      else if m.status == "denied" then Verdict(Deny, ResolvedReason("denied", m), HumanApproved)
      else Verdict(Deny, ResolvedReason("expired", m), Deterministic)
    case TimedOut => Verdict(Deny, "escalation timed out awaiting resolution", Deterministic)
    case Canceled => Verdict(Deny, "escalation fault (fail-closed): context ended", Deterministic)
    case Panicked => Unwound
    case _ => Fault
  }

  type Id = nat

  /** Program counter of one Escalate call for request `id`; `ch` is the waiter
      channel it made.  The Once* positions run inside the sync.Once. */
  datatype Call =
    | Entering(id: string)
    | OnceReadClosed(id: string)
    | OnceSubscribe(id: string)
    | OnceInstall(id: string)
    | OnceRelease(id: string)
    | OnceSetErr(id: string, why: Outcome)
    | OnceEnd(id: string)
    | ReadSubErr(id: string)
    | Registering(id: string)
    | Publishing(id: string, ch: Id)
    | Awaiting(id: string, ch: Id)
    | Deregistering(id: string, ch: Id, out: Outcome)
    | Returned(id: string, out: Outcome, made: Option<Id>)

  datatype Dispatch =
    | LookingUp(msg: Msg)
    | Sending(msg: Msg, ch: Id)
    | DispatchDone

  datatype Closer = Releasing | CloseDone

  datatype Once = Fresh | Running(runner: Id) | Finished

  /** The handler's fields, and history: how often Subscribe was called and
      whether it succeeded, how often unsubscribe ran, and every message ever
      placed into each channel. */
  datatype Handler = Handler(
    once: Once,
    subErr: Option<Outcome>,
    unsubscribe: bool,
    closed: bool,
    waiters: map<string, Id>,
    slots: seq<Option<Msg>>,
    subscribeCalls: nat,
    subscribed: bool,
    unsubRuns: nat,
    placed: seq<seq<Msg>>)

  datatype State = State(
    h: Handler,
    calls: map<Id, Call>,
    dispatches: map<Id, Dispatch>,
    closers: map<Id, Closer>)

  /** A call's next move: the next statement of Escalate, where `ok` says how a
      transport call went; one of the three ways its select can end; or a panic of
      the transport call it makes. */
  datatype Act = Advance(ok: bool) | Receive | Timeout | Cancel | Panics

  datatype Step =
    | Begin(c: Id, req: string)
    | Move(c: Id, act: Act)
    | Deliver(d: Id, m: Msg)
    | Lookup(d: Id)
    | Send(d: Id)
    | CloseLock(k: Id)
    | CloseRelease(k: Id)

  const Init := State(Handler(Fresh, None, false, false, map[], [], 0, false, 0, []), map[], map[], map[])

  predicate CanMove(h: Handler, p: Call, act: Act) {
    match act
    case Advance(_) => !p.Awaiting? && !p.Returned? && (p.Entering? ==> !h.once.Running?)
    case Receive => p.Awaiting? && p.ch < |h.slots| && h.slots[p.ch].Some?
    case Timeout => p.Awaiting?
    case Cancel => p.Awaiting?
    case Panics => p.OnceSubscribe? || p.OnceRelease? || p.Publishing?
  }

  /** One move of call c at position p. */
  function NextMove(h: Handler, c: Id, p: Call, act: Act): (Handler, Call)
    requires CanMove(h, p, act)
  {
    match p
    case Entering(id) =>
      if h.once.Fresh? then (h.(once := Running(c)), OnceReadClosed(id)) else (h, ReadSubErr(id))
    case OnceReadClosed(id) =>
      (h, if h.closed then OnceSetErr(id, AlreadyClosed) else OnceSubscribe(id))
    case OnceSubscribe(id) =>
      // A panic inside the sync.Once counts as its one run.
      if act.Panics? then (h.(subscribeCalls := h.subscribeCalls + 1, once := Finished), Returned(id, Panicked, None))
      else if act.ok then (h.(subscribeCalls := h.subscribeCalls + 1, subscribed := true), OnceInstall(id))
      else (h.(subscribeCalls := h.subscribeCalls + 1), OnceSetErr(id, SubscribeFailed))
    case OnceInstall(id) =>
      if h.closed then (h, OnceRelease(id)) else (h.(unsubscribe := true), OnceEnd(id))
    case OnceRelease(id) =>
      if act.Panics? then (h.(unsubRuns := h.unsubRuns + 1, once := Finished), Returned(id, Panicked, None))
      else (h.(unsubRuns := h.unsubRuns + 1), OnceSetErr(id, AlreadyClosed))
    case OnceSetErr(id, why) => (h.(subErr := Some(why)), OnceEnd(id))
    case OnceEnd(id) => (h.(once := Finished), ReadSubErr(id))
    case ReadSubErr(id) =>
      (h, if h.subErr.Some? then Returned(id, h.subErr.value, None) else Registering(id))
    case Registering(id) => RegisterMove(h, id)
    case Publishing(id, ch) =>
      (h, if act.Panics? then Deregistering(id, ch, Panicked)
          else if act.ok then Awaiting(id, ch) else Deregistering(id, ch, PublishFailed))
    case Awaiting(id, ch) =>
      if act.Receive? then (h.(slots := h.slots[ch := None]), Deregistering(id, ch, Resolved(h.slots[ch].value)))
      else (h, Deregistering(id, ch, if act.Timeout? then TimedOut else Canceled))
    case Deregistering(id, ch, out) =>
      (h.(waiters := h.waiters - {id}), Returned(id, out, Some(ch)))
  }

  function RegisterMove(h: Handler, id: string): (Handler, Call) {
    if h.closed then (h, Returned(id, AlreadyClosed, None))
    else if id in h.waiters then (h, Returned(id, DuplicateRequest, None))
    else
      var ch := |h.slots|;
      (h.(waiters := h.waiters[id := ch], slots := h.slots + [None], placed := h.placed + [[]]), Publishing(id, ch))
  }

  /** The non-blocking send of dispatch: a full slot drops the message. */
  function Offer(h: Handler, m: Msg, ch: Id): Handler {
    if ch < |h.slots| && ch < |h.placed| && h.slots[ch].None?
    then h.(slots := h.slots[ch := Some(m)], placed := h.placed[ch := h.placed[ch] + [m]])
    else h
  }

  predicate Enabled(s: State, e: Step) {
    match e
    case Begin(c, _) => c !in s.calls
    case Move(c, act) => c in s.calls && CanMove(s.h, s.calls[c], act)
    case Deliver(d, _) => d !in s.dispatches
    case Lookup(d) => d in s.dispatches && s.dispatches[d].LookingUp?
    case Send(d) => d in s.dispatches && s.dispatches[d].Sending?
    case CloseLock(k) => k !in s.closers
    case CloseRelease(k) => k in s.closers && s.closers[k].Releasing?
  }

  function Apply(s: State, e: Step): State
    requires Enabled(s, e)
  {
    match e
    case Begin(c, req) => s.(calls := s.calls[c := Entering(req)])
    case Move(c, act) =>
      var (h', p') := NextMove(s.h, c, s.calls[c], act);
      s.(h := h', calls := s.calls[c := p'])
    case Deliver(d, m) =>
      s.(dispatches := s.dispatches[d := if m.requestId != "" && StatusKnown(m) then LookingUp(m) else DispatchDone])
    case Lookup(d) =>
      var m := s.dispatches[d].msg;
      s.(dispatches := s.dispatches[d := if m.requestId in s.h.waiters then Sending(m, s.h.waiters[m.requestId]) else DispatchDone])
    case Send(d) =>
      s.(h := Offer(s.h, s.dispatches[d].msg, s.dispatches[d].ch), dispatches := s.dispatches[d := DispatchDone])
    case CloseLock(k) =>
      s.(h := s.h.(closed := true, unsubscribe := false),
         closers := s.closers[k := if s.h.unsubscribe then Releasing else CloseDone])
    case CloseRelease(k) =>
      s.(h := s.h.(unsubRuns := s.h.unsubRuns + 1), closers := s.closers[k := CloseDone])
  }

  ghost predicate IsRun(states: seq<State>, steps: seq<Step>) {
    && |states| == |steps| + 1
    && states[0] == Init
    && forall i :: 0 <= i < |steps| ==>
         Enabled(states[i], steps[i]) && states[i + 1] == Apply(states[i], steps[i])
  }

  // --- Waiters: one entry, one in-flight call, one channel ------------------

  /** A call at p registered channel ch for request id and has not
      deregistered. */
  ghost predicate Holds(p: Call, id: string, ch: Id) {
    (p.Publishing? || p.Awaiting? || p.Deregistering?) && p.id == id && p.ch == ch
  }

  /** Channel ch was made by the call at p, which may have returned since. */
  ghost predicate MadeBy(p: Call, id: string, ch: Id) {
    Holds(p, id, ch) || (p.Returned? && p.id == id && p.made == Some(ch))
  }

  ghost predicate InFlight(s: State, c: Id, id: string, ch: Id) {
    c in s.calls && Holds(s.calls[c], id, ch)
  }

  ghost predicate Made(s: State, c: Id, id: string, ch: Id) {
    c in s.calls && MadeBy(s.calls[c], id, ch)
  }

  ghost predicate Owned(s: State, id: string, ch: Id) {
    exists c :: InFlight(s, c, id, ch)
  }

  ghost predicate WaitersOwned(s: State) {
    && |s.h.slots| == |s.h.placed|
    && (forall id :: id in s.h.waiters ==> Owned(s, id, s.h.waiters[id]))
    && (forall c, id, ch: Id :: InFlight(s, c, id, ch) ==> id in s.h.waiters && s.h.waiters[id] == ch)
    && (forall c, id, ch: Id :: Made(s, c, id, ch) ==> ch < |s.h.slots|)
    && (forall c, d, id, jd, ch: Id :: Made(s, c, id, ch) && Made(s, d, jd, ch) ==> c == d)
  }

  /** A move other than registering or deregistering leaves the waiter map and
      the call's channel alone. */
  lemma MoveKeepsChannel(h: Handler, c: Id, p: Call, act: Act)
    requires CanMove(h, p, act) && !p.Registering?
    ensures var (h', p') := NextMove(h, c, p, act);
            && |h'.slots| == |h.slots| && h'.placed == h.placed
            && (!p.Deregistering? ==> h'.waiters == h.waiters)
            && (forall id, ch: Id :: MadeBy(p', id, ch) == MadeBy(p, id, ch))
            && (!p.Deregistering? ==> forall id, ch: Id :: Holds(p', id, ch) == Holds(p, id, ch))
  {
  }

  lemma RegisterKeepsWaiters(s: State, c: Id, act: Act)
    requires WaitersOwned(s) && Enabled(s, Move(c, act)) && s.calls[c].Registering?
    ensures WaitersOwned(Apply(s, Move(c, act)))
  {
    var s' := Apply(s, Move(c, act));
    var id0 := s.calls[c].id;
    assert forall d, id, ch: Id :: d != c ==> Made(s', d, id, ch) == Made(s, d, id, ch) && InFlight(s', d, id, ch) == InFlight(s, d, id, ch);
    assert forall id, ch: Id :: !Made(s, c, id, ch);
    assert forall id, ch: Id :: Made(s', c, id, ch) ==> id == id0 && ch == |s.h.slots| && s'.calls[c] == Publishing(id0, ch) && id0 !in s.h.waiters;
    forall id | id in s'.h.waiters
      ensures Owned(s', id, s'.h.waiters[id])
    {
      if id in s.h.waiters {
        assert Owned(s, id, s.h.waiters[id]);
        var d :| InFlight(s, d, id, s.h.waiters[id]);
        assert InFlight(s', d, id, s.h.waiters[id]);
      } else {
        assert InFlight(s', c, id, |s.h.slots|);
      }
    }
  }

  lemma DeregisterKeepsWaiters(s: State, c: Id, act: Act)
    requires WaitersOwned(s) && Enabled(s, Move(c, act)) && s.calls[c].Deregistering?
    ensures WaitersOwned(Apply(s, Move(c, act)))
  {
    var s' := Apply(s, Move(c, act));
    var p := s.calls[c];
    assert InFlight(s, c, p.id, p.ch);
    assert forall d, id, ch: Id :: Made(s', d, id, ch) == Made(s, d, id, ch);
    assert forall d, id, ch: Id :: InFlight(s', d, id, ch) == (d != c && InFlight(s, d, id, ch));
    forall id | id in s'.h.waiters
      ensures Owned(s', id, s'.h.waiters[id])
    {
      assert Owned(s, id, s.h.waiters[id]);
      var d :| InFlight(s, d, id, s.h.waiters[id]);
      assert InFlight(s', d, id, s.h.waiters[id]);
    }
    forall d, id, ch: Id | InFlight(s', d, id, ch)
      ensures id in s'.h.waiters && s'.h.waiters[id] == ch
    {
      assert Made(s, c, p.id, p.ch) && Made(s, d, id, ch);
    }
  }

  lemma SameChannelsKeepWaiters(s: State, s': State)
    requires WaitersOwned(s)
    requires s'.h.waiters == s.h.waiters && |s'.h.slots| == |s.h.slots| == |s'.h.placed|
    requires forall c, id, ch: Id :: Made(s', c, id, ch) == Made(s, c, id, ch) && InFlight(s', c, id, ch) == InFlight(s, c, id, ch)
    ensures WaitersOwned(s')
  {
    forall id | id in s'.h.waiters
      ensures Owned(s', id, s'.h.waiters[id])
    {
      assert Owned(s, id, s.h.waiters[id]);
      var d :| InFlight(s, d, id, s.h.waiters[id]);
      assert InFlight(s', d, id, s.h.waiters[id]);
    }
  }

  lemma StepKeepsWaiters(s: State, e: Step)
    requires WaitersOwned(s) && Enabled(s, e)
    ensures WaitersOwned(Apply(s, e))
  {
    if e.Move? && s.calls[e.c].Registering? {
      RegisterKeepsWaiters(s, e.c, e.act);
    } else if e.Move? && s.calls[e.c].Deregistering? {
      DeregisterKeepsWaiters(s, e.c, e.act);
    } else {
      if e.Move? {
        MoveKeepsChannel(s.h, e.c, s.calls[e.c], e.act);
      }
      SameChannelsKeepWaiters(s, Apply(s, e));
    }
  }

  lemma {:induction false} RunWaiters(states: seq<State>, steps: seq<Step>, k: nat)
    requires IsRun(states, steps) && k < |states|
    ensures WaitersOwned(states[k])
  {
    if k > 0 {
      RunWaiters(states, steps, k - 1);
      StepKeepsWaiters(states[k - 1], steps[k - 1]);
    }
  }

  /** Every waiter entry belongs to exactly one in-flight call. */
  lemma WaiterHasOneOwner(states: seq<State>, steps: seq<Step>, k: nat, id: string)
    requires IsRun(states, steps) && k < |states|
    requires id in states[k].h.waiters
    ensures exists c :: InFlight(states[k], c, id, states[k].h.waiters[id])
                     && forall d, ch: Id :: InFlight(states[k], d, id, ch) ==> d == c
  {
    var s := states[k];
    RunWaiters(states, steps, k);
    assert Owned(s, id, s.h.waiters[id]);
    var c :| InFlight(s, c, id, s.h.waiters[id]);
    forall d, ch: Id | InFlight(s, d, id, ch)
      ensures d == c
    {
      assert Made(s, d, id, ch) && Made(s, c, id, s.h.waiters[id]);
    }
  }

  lemma StepKeepsMade(s: State, e: Step, c: Id, id: string, ch: Id)
    requires Enabled(s, e) && Made(s, c, id, ch)
    ensures Made(Apply(s, e), c, id, ch)
  {
    if e.Move? && e.c == c {
      MoveKeepsChannel(s.h, c, s.calls[c], e.act);
    }
  }

  lemma {:induction false} MadePersists(states: seq<State>, steps: seq<Step>, i: nat, j: nat, c: Id, id: string, ch: Id)
    requires IsRun(states, steps) && i <= j < |states|
    requires Made(states[i], c, id, ch)
    ensures Made(states[j], c, id, ch)
    decreases j - i
  {
    if i < j {
      StepKeepsMade(states[i], steps[i], c, id, ch);
      MadePersists(states, steps, i + 1, j, c, id, ch);
    }
  }

  // --- Messages: only what was looked up for this registration --------------

  ghost predicate LookupAt(states: seq<State>, steps: seq<Step>, i: int, m: Msg, ch: Id)
    requires IsRun(states, steps)
  {
    && 0 <= i < |steps|
    && steps[i].Lookup?
    && states[i].dispatches[steps[i].d] == LookingUp(m)
    && m.requestId in states[i].h.waiters
    && states[i].h.waiters[m.requestId] == ch
  }

  ghost predicate LookedUp(states: seq<State>, steps: seq<Step>, k: int, m: Msg, ch: Id)
    requires IsRun(states, steps)
  {
    exists i :: i < k && LookupAt(states, steps, i, m, ch)
  }

  ghost predicate SendsLookedUp(states: seq<State>, steps: seq<Step>, k: nat)
    requires IsRun(states, steps) && k < |states|
  {
    && (forall d :: d in states[k].dispatches && states[k].dispatches[d].Sending? ==>
          LookedUp(states, steps, k, states[k].dispatches[d].msg, states[k].dispatches[d].ch))
    && (forall ch: Id, n :: ch < |states[k].h.placed| && 0 <= n < |states[k].h.placed[ch]| ==>
          LookedUp(states, steps, k, states[k].h.placed[ch][n], ch))
  }

  lemma LookedUpGrows(states: seq<State>, steps: seq<Step>, k: int, m: Msg, ch: Id)
    requires IsRun(states, steps)
    requires LookedUp(states, steps, k, m, ch)
    ensures LookedUp(states, steps, k + 1, m, ch)
  {
    var i :| i < k && LookupAt(states, steps, i, m, ch);
  }

  lemma PlacedGrowth(s: State, e: Step, ch: Id, n: nat)
    requires Enabled(s, e) && |s.h.slots| == |s.h.placed|
    requires ch < |Apply(s, e).h.placed| && n < |Apply(s, e).h.placed[ch]|
    ensures (ch < |s.h.placed| && n < |s.h.placed[ch]| && Apply(s, e).h.placed[ch][n] == s.h.placed[ch][n])
         || (e.Send? && s.dispatches[e.d] == Sending(Apply(s, e).h.placed[ch][n], ch))
  {
    if e.Move? && !s.calls[e.c].Registering? {
      MoveKeepsChannel(s.h, e.c, s.calls[e.c], e.act);
    }
  }

  lemma {:induction false} RunSends(states: seq<State>, steps: seq<Step>, k: nat)
    requires IsRun(states, steps) && k < |states|
    ensures SendsLookedUp(states, steps, k)
  {
    if k > 0 {
      RunSends(states, steps, k - 1);
      RunWaiters(states, steps, k - 1);
      var s, e, s' := states[k - 1], steps[k - 1], states[k];
      assert s' == Apply(s, e);
      forall d | d in s'.dispatches && s'.dispatches[d].Sending?
        ensures LookedUp(states, steps, k, s'.dispatches[d].msg, s'.dispatches[d].ch)
      {
        if e == Lookup(d) {
          assert LookupAt(states, steps, k - 1, s'.dispatches[d].msg, s'.dispatches[d].ch);
        } else {
          LookedUpGrows(states, steps, k - 1, s.dispatches[d].msg, s.dispatches[d].ch);
        }
      }
      forall ch: Id, n | ch < |s'.h.placed| && 0 <= n < |s'.h.placed[ch]|
        ensures LookedUp(states, steps, k, s'.h.placed[ch][n], ch)
      {
        PlacedGrowth(s, e, ch, n);
        LookedUpGrows(states, steps, k - 1, s'.h.placed[ch][n], ch);
      }
    }
  }

  // --- First placed wins ----------------------------------------------------

  /** While its call waits, a channel has seen at most one message and still
      holds it; a resolved call carries the first message of its channel. */
  ghost predicate ChannelFifo(h: Handler, p: Call)
    requires |h.slots| == |h.placed|
  {
    match p
    case Publishing(_, ch) => Pristine(h, ch)
    case Awaiting(_, ch) => Pristine(h, ch)
    case Deregistering(_, ch, out) => TookFirst(h, ch, out)
    case Returned(_, out, Some(ch)) => TookFirst(h, ch, out)
    case Returned(_, out, None) => !out.Resolved?
    case OnceSetErr(_, why) => !why.Resolved?
    case _ => true
  }

  ghost predicate Pristine(h: Handler, ch: Id)
    requires |h.slots| == |h.placed|
  {
    && ch < |h.slots|
    && h.placed[ch] == (if h.slots[ch].Some? then [h.slots[ch].value] else [])
  }

  ghost predicate TookFirst(h: Handler, ch: Id, out: Outcome)
    requires |h.slots| == |h.placed|
  {
    && ch < |h.slots|
    && (out.Resolved? ==> h.placed[ch] != [] && h.placed[ch][0] == out.msg)
  }

  ghost predicate FifoInv(s: State) {
    && |s.h.slots| == |s.h.placed|
    && (s.h.subErr.Some? ==> !s.h.subErr.value.Resolved?)
    && (forall c :: c in s.calls ==> ChannelFifo(s.h, s.calls[c]))
  }

  lemma OfferKeepsFifo(h: Handler, m: Msg, ch: Id, p: Call)
    requires |h.slots| == |h.placed| && ChannelFifo(h, p)
    ensures |Offer(h, m, ch).slots| == |Offer(h, m, ch).placed|
    ensures ChannelFifo(Offer(h, m, ch), p)
  {
  }

  /** The mover's own position after its move. */
  lemma MoverKeepsFifo(h: Handler, c: Id, p: Call, act: Act)
    requires |h.slots| == |h.placed| && CanMove(h, p, act) && ChannelFifo(h, p)
    requires h.subErr.Some? ==> !h.subErr.value.Resolved?
    ensures var (h', p') := NextMove(h, c, p, act);
            && |h'.slots| == |h'.placed|
            && (h'.subErr.Some? ==> !h'.subErr.value.Resolved?)
            && ChannelFifo(h', p')
  {
  }

  /** Another call's position: only a receive on its own channel could hurt. */
  lemma OthersKeepFifo(h: Handler, c: Id, p: Call, act: Act, q: Call)
    requires |h.slots| == |h.placed| && CanMove(h, p, act) && ChannelFifo(h, q)
    requires p.Awaiting? && (q.Publishing? || q.Awaiting?) ==> p.ch != q.ch
    ensures var h' := NextMove(h, c, p, act).0;
            && |h'.slots| == |h'.placed|
            && ChannelFifo(h', q)
  {
  }

  lemma StepKeepsFifo(s: State, e: Step)
    requires WaitersOwned(s) && FifoInv(s) && Enabled(s, e)
    ensures FifoInv(Apply(s, e))
  {
    var s' := Apply(s, e);
    if e.Send? {
      var h' := Offer(s.h, s.dispatches[e.d].msg, s.dispatches[e.d].ch);
      forall q | q in s'.calls
        ensures ChannelFifo(h', s'.calls[q])
      {
        OfferKeepsFifo(s.h, s.dispatches[e.d].msg, s.dispatches[e.d].ch, s.calls[q]);
      }
    } else if e.Move? {
      var p := s.calls[e.c];
      MoverKeepsFifo(s.h, e.c, p, e.act);
      forall q | q in s'.calls && q != e.c
        ensures ChannelFifo(s'.h, s'.calls[q])
      {
        var r := s.calls[q];
        if p.Awaiting? && (r.Publishing? || r.Awaiting?) {
          assert Made(s, q, r.id, r.ch) && Made(s, e.c, p.id, p.ch);
        }
        OthersKeepFifo(s.h, e.c, p, e.act, r);
      }
    } else {
      assert s'.h.slots == s.h.slots && s'.h.placed == s.h.placed && s'.h.subErr == s.h.subErr;
      forall q | q in s'.calls
        ensures ChannelFifo(s'.h, s'.calls[q])
      {
        assert q in s.calls ==> ChannelFifo(s.h, s.calls[q]);
      }
    }
  }

  lemma {:induction false} RunFifo(states: seq<State>, steps: seq<Step>, k: nat)
    requires IsRun(states, steps) && k < |states|
    ensures FifoInv(states[k])
  {
    if k > 0 {
      RunFifo(states, steps, k - 1);
      RunWaiters(states, steps, k - 1);
      StepKeepsFifo(states[k - 1], steps[k - 1]);
    }
  }

  // --- Main results: what a returned call may claim --------------------------

  /** Message m was looked up, before state k, by a dispatch that ran while call
      c's own registration of channel ch for request id was in force. */
  ghost predicate LookedUpWhileRegistered(states: seq<State>, steps: seq<Step>, k: int, c: Id, id: string, m: Msg, ch: Id)
    requires IsRun(states, steps)
  {
    exists i :: i < k && LookupAt(states, steps, i, m, ch) && InFlight(states[i], c, id, ch)
  }

  /** A call that returned a message took the first message ever placed into its
      own channel, and that message names its request and was looked up by a
      dispatch while this very registration was in force.  So a late send for
      an earlier registration never resolves a reused request id. */
  lemma ResolutionIsOwn(states: seq<State>, steps: seq<Step>, k: nat, c: Id)
    requires IsRun(states, steps) && k < |states|
    requires c in states[k].calls && states[k].calls[c].Returned? && states[k].calls[c].out.Resolved?
    ensures var p := states[k].calls[c];
            && p.made.Some? && p.made.value < |states[k].h.placed|
            && states[k].h.placed[p.made.value] != []
            && states[k].h.placed[p.made.value][0] == p.out.msg
            && p.out.msg.requestId == p.id
            && LookedUpWhileRegistered(states, steps, k, c, p.id, p.out.msg, p.made.value)
  {
    RunFifo(states, steps, k);
    RunSends(states, steps, k);
    RunWaiters(states, steps, k);
    var p := states[k].calls[c];
    assert ChannelFifo(states[k].h, p);
    var ch := p.made.value;
    assert LookedUp(states, steps, k, states[k].h.placed[ch][0], ch);
    var i :| i < k && LookupAt(states, steps, i, p.out.msg, ch);
    RunWaiters(states, steps, i);
    var rid := p.out.msg.requestId;
    assert Owned(states[i], rid, ch);
    var d :| InFlight(states[i], d, rid, ch);
    MadePersists(states, steps, i, k, d, rid, ch);
    assert Made(states[k], c, p.id, ch) && Made(states[k], d, rid, ch);
  }

  /** Escalate answers allow only on an "approved" message for its own request,
      looked up while its own channel was registered; every other ending denies
      or faults, and human_approved marks only approved or denied messages. */
  lemma AllowNeedsApproval(states: seq<State>, steps: seq<Step>, k: nat, c: Id)
    requires IsRun(states, steps) && k < |states|
    requires c in states[k].calls && states[k].calls[c].Returned?
    ensures var p := states[k].calls[c]; var r := ReplyOf(p.out);
            && (r.Verdict? ==> r.action == Allow || r.action == Deny)
            && (r.Verdict? && r.action == Allow ==>
                  && p.out.Resolved? && p.out.msg.status == "approved" && p.out.msg.requestId == p.id
                  && p.made.Some?
                  && LookedUpWhileRegistered(states, steps, k, c, p.id, p.out.msg, p.made.value))
            && (r.Verdict? && r.mode == HumanApproved ==>
                  p.out.Resolved? && (p.out.msg.status == "approved" || p.out.msg.status == "denied"))
            && (r.Verdict? ==> r.mode == HumanApproved || r.mode == Deterministic)
  {
    if states[k].calls[c].out.Resolved? {
      ResolutionIsOwn(states, steps, k, c);
    }
  }

  // --- What the handler does deliver ------------------------------------------------

  /** How each ending is answered. */
  lemma ReplyExact(o: Outcome)
    ensures o.Resolved? && o.msg.status == "approved" ==> ReplyOf(o).Verdict? && ReplyOf(o).action == Allow && ReplyOf(o).mode == HumanApproved
    ensures o.Resolved? && o.msg.status == "denied" ==> ReplyOf(o).Verdict? && ReplyOf(o).action == Deny && ReplyOf(o).mode == HumanApproved
    ensures o.Resolved? && o.msg.status !in {"approved", "denied"} ==>
              ReplyOf(o).Verdict? && ReplyOf(o).action == Deny && ReplyOf(o).mode == Deterministic
    ensures o in {TimedOut, Canceled} ==> ReplyOf(o).Verdict? && ReplyOf(o).action == Deny && ReplyOf(o).mode == Deterministic
    ensures o.Resolved? && o.msg.status in {"approved", "denied", "expired"} ==>
              ReplyOf(o).reason == "escalation " + o.msg.status
                                   + (if o.msg.reviewer == "" then "" else " by " + o.msg.reviewer)
                                   + (if o.msg.note == "" then "" else ": " + o.msg.note)
    ensures o == Panicked ==> ReplyOf(o) == Unwound
    ensures o in {PublishFailed, SubscribeFailed, AlreadyClosed, DuplicateRequest} ==> ReplyOf(o) == Fault
  {
  }

  /** n moves of call c in which every transport call succeeds. */
  function Driven(h: Handler, c: Id, p: Call, n: nat): (Handler, Call)
    decreases n
  {
    if n == 0 || !CanMove(h, p, Advance(true)) then (h, p)
    else
      var (h', p') := NextMove(h, c, p, Advance(true));
      Driven(h', c, p', n - 1)
  }

  lemma DrivenStep(h: Handler, c: Id, p: Call, n: nat, h': Handler, p': Call)
    requires n > 0 && CanMove(h, p, Advance(true)) && NextMove(h, c, p, Advance(true)) == (h', p')
    ensures Driven(h, c, p, n) == Driven(h', c, p', n - 1)
  {
  }

  /** The handler with a waiter of channel |slots| registered for id. */
  function Registered(h: Handler, id: string): Handler {
    h.(waiters := h.waiters[id := |h.slots|], slots := h.slots + [None], placed := h.placed + [[]])
  }

  /** The handler after its one subscription. */
  function Subscribed(h: Handler): Handler {
    h.(once := Finished, subscribeCalls := h.subscribeCalls + 1, subscribed := true, unsubscribe := true)
  }

  lemma AwaitsOnceRead(h: Handler, c: Id, id: string)
    requires h.subErr.None? && !h.closed && id !in h.waiters
    ensures Driven(h, c, ReadSubErr(id), 3) == (Registered(h, id), Awaiting(id, |h.slots|))
  {
    var r, ch := Registered(h, id), |h.slots|;
    DrivenStep(h, c, ReadSubErr(id), 3, h, Registering(id));
    DrivenStep(h, c, Registering(id), 2, r, Publishing(id, ch));
    DrivenStep(r, c, Publishing(id, ch), 1, r, Awaiting(id, ch));
  }

  lemma FirstCallSubscribes(h: Handler, c: Id, id: string)
    requires !h.closed && h.subErr.None? && h.once.Fresh?
    ensures Driven(h, c, Entering(id), 8) == Driven(Subscribed(h), c, ReadSubErr(id), 3)
  {
    var h1 := h.(once := Running(c));
    var h2 := h1.(subscribeCalls := h.subscribeCalls + 1, subscribed := true);
    var h3 := h2.(unsubscribe := true);
    DrivenStep(h, c, Entering(id), 8, h1, OnceReadClosed(id));
    DrivenStep(h1, c, OnceReadClosed(id), 7, h1, OnceSubscribe(id));
    DrivenStep(h1, c, OnceSubscribe(id), 6, h2, OnceInstall(id));
    DrivenStep(h2, c, OnceInstall(id), 5, h3, OnceEnd(id));
    DrivenStep(h3, c, OnceEnd(id), 4, Subscribed(h), ReadSubErr(id));
  }

  /** An open handler takes every call with a free request id to its await, the first
      one subscribing on the way. */
  lemma EscalateAwaits(h: Handler, c: Id, id: string)
    requires !h.closed && h.subErr.None? && id !in h.waiters
    ensures h.once.Finished? ==> Driven(h, c, Entering(id), 4) == (Registered(h, id), Awaiting(id, |h.slots|))
    ensures h.once.Fresh? ==>
              Driven(h, c, Entering(id), 8) == (Registered(Subscribed(h), id), Awaiting(id, |h.slots|))
  {
    if h.once.Finished? {
      DrivenStep(h, c, Entering(id), 4, h, ReadSubErr(id));
      AwaitsOnceRead(h, c, id);
    }
    if h.once.Fresh? {
      FirstCallSubscribes(h, c, id);
      AwaitsOnceRead(Subscribed(h), c, id);
    }
  }

  /** A failure of the one subscription is the answer of its call, and stands. */
  lemma SubscribeFailureStands(h: Handler, c: Id, id: string)
    ensures NextMove(h, c, OnceSubscribe(id), Advance(false)) == (h.(subscribeCalls := h.subscribeCalls + 1), OnceSetErr(id, SubscribeFailed))
    ensures Driven(h, c, OnceSetErr(id, SubscribeFailed), 3)
         == (h.(subErr := Some(SubscribeFailed), once := Finished), Returned(id, SubscribeFailed, None))
  {
    var h1 := h.(subErr := Some(SubscribeFailed));
    var h2 := h1.(once := Finished);
    DrivenStep(h, c, OnceSetErr(id, SubscribeFailed), 3, h1, OnceEnd(id));
    DrivenStep(h1, c, OnceEnd(id), 2, h2, ReadSubErr(id));
    DrivenStep(h2, c, ReadSubErr(id), 1, h2, Returned(id, SubscribeFailed, None));
  }

  /** A failed or panicking publish is the answer of its call, which leaves no waiter. */
  lemma PublishFailureReturns(h: Handler, c: Id, id: string, ch: Id, act: Act)
    requires act == Advance(false) || act == Panics
    ensures var out := if act == Panics then Panicked else PublishFailed;
            && NextMove(h, c, Publishing(id, ch), act) == (h, Deregistering(id, ch, out))
            && Driven(h, c, Deregistering(id, ch, out), 1) == (h.(waiters := h.waiters - {id}), Returned(id, out, Some(ch)))
  {
    var out := if act == Panics then Panicked else PublishFailed;
    DrivenStep(h, c, Deregistering(id, ch, out), 1, h.(waiters := h.waiters - {id}), Returned(id, out, Some(ch)));
  }

  /** Where a call is refused. */
  lemma Refusals(h: Handler, c: Id, id: string)
    ensures h.closed ==> NextMove(h, c, Registering(id), Advance(true)) == (h, Returned(id, AlreadyClosed, None))
    ensures !h.closed && id in h.waiters ==> NextMove(h, c, Registering(id), Advance(true)) == (h, Returned(id, DuplicateRequest, None))
    ensures h.subErr.Some? ==> NextMove(h, c, ReadSubErr(id), Advance(true)) == (h, Returned(id, h.subErr.value, None))
  {
  }

  /** A message that names no request, or whose status is no resolution, is ignored. */
  lemma UnknownIgnored(s: State, d: Id, m: Msg)
    requires d !in s.dispatches && (m.requestId == "" || m.status !in {"approved", "denied", "expired"})
    ensures Apply(s, Deliver(d, m)) == s.(dispatches := s.dispatches[d := DispatchDone])
  {
  }

  /** A resolution for an awaiting call gets through: delivered, looked up, sent and
      received, it is what the call returns, and the waiter is gone. */
  lemma ResolutionGetsThrough(s: State, c: Id, d: Id, m: Msg, ch: Id)
    requires c in s.calls && s.calls[c] == Awaiting(m.requestId, ch) && d !in s.dispatches
    requires m.requestId != "" && m.status in {"approved", "denied", "expired"}
    requires m.requestId in s.h.waiters && s.h.waiters[m.requestId] == ch
    requires ch < |s.h.slots| == |s.h.placed| && s.h.slots[ch].None?
    ensures Enabled(s, Deliver(d, m))
    ensures var s1 := Apply(s, Deliver(d, m));
            && Enabled(s1, Lookup(d))
            && var s2 := Apply(s1, Lookup(d));
               && Enabled(s2, Send(d))
               && var s3 := Apply(s2, Send(d));
                  && s3.h.slots[ch] == Some(m) && s3.h.placed[ch] == s.h.placed[ch] + [m]
                  && Enabled(s3, Move(c, Receive))
                  && var s4 := Apply(s3, Move(c, Receive));
                     && Enabled(s4, Move(c, Advance(true)))
                     && var s5 := Apply(s4, Move(c, Advance(true)));
                        s5.calls[c] == Returned(m.requestId, Resolved(m), Some(ch)) && m.requestId !in s5.h.waiters
  {
  }

  /** A second resolution for a slot that is taken is dropped. */
  lemma SecondDropped(s: State, d: Id, m: Msg, ch: Id)
    requires d in s.dispatches && s.dispatches[d] == Sending(m, ch) && ch < |s.h.slots| && s.h.slots[ch].Some?
    ensures Apply(s, Send(d)).h == s.h
  {
  }

  /** A timeout or a cancelled context ends the await as such. */
  lemma AwaitEnds(h: Handler, c: Id, id: string, ch: Id)
    ensures CanMove(h, Awaiting(id, ch), Timeout) && NextMove(h, c, Awaiting(id, ch), Timeout) == (h, Deregistering(id, ch, TimedOut))
    ensures CanMove(h, Awaiting(id, ch), Cancel) && NextMove(h, c, Awaiting(id, ch), Cancel) == (h, Deregistering(id, ch, Canceled))
  {
  }

  // --- Close -----------------------------------------------------------------

  /** Every entry of the second map is an entry of the first. */
  ghost predicate Shrinks(before: map<string, Id>, after: map<string, Id>) {
    forall id :: id in after ==> id in before && after[id] == before[id]
  }

  lemma ClosedMoveAddsNoWaiter(h: Handler, c: Id, p: Call, act: Act)
    requires h.closed && CanMove(h, p, act)
    ensures var h' := NextMove(h, c, p, act).0;
            h'.closed && Shrinks(h.waiters, h'.waiters)
  {
  }

  lemma ClosedStepAddsNoWaiter(s: State, e: Step)
    requires s.h.closed && Enabled(s, e)
    ensures Apply(s, e).h.closed && Shrinks(s.h.waiters, Apply(s, e).h.waiters)
  {
    if e.Move? {
      ClosedMoveAddsNoWaiter(s.h, e.c, s.calls[e.c], e.act);
    }
  }

  lemma ShrinksOn(a: map<string, Id>, b: map<string, Id>, c: map<string, Id>)
    requires Shrinks(a, b) && Shrinks(b, c)
    ensures Shrinks(a, c)
  {
  }

  /** After Close no waiter is ever registered: the map only shrinks. */
  lemma {:induction false} NoWaiterAfterClose(states: seq<State>, steps: seq<Step>, i: nat, j: nat)
    requires IsRun(states, steps) && i <= j < |states|
    requires states[i].h.closed
    ensures states[j].h.closed && Shrinks(states[i].h.waiters, states[j].h.waiters)
    decreases j - i
  {
    if i < j {
      NoWaiterAfterClose(states, steps, i, j - 1);
      ClosedStepAddsNoWaiter(states[j - 1], steps[j - 1]);
      ShrinksOn(states[i].h.waiters, states[j - 1].h.waiters, states[j].h.waiters);
    }
  }

  // --- Subscription lifecycle --------------------------------------------------

  ghost predicate InsideOnce(p: Call) {
    p.OnceReadClosed? || p.OnceSubscribe? || p.OnceInstall? || p.OnceRelease? || p.OnceSetErr? || p.OnceEnd?
  }

  ghost predicate BeforeSubscribe(p: Call) {
    p.OnceReadClosed? || p.OnceSubscribe?
  }

  ghost predicate CarriesHandle(p: Call) {
    p.OnceInstall? || p.OnceRelease?
  }

  /** 1 when the subscription handle is with the call inside the Once. */
  ghost function HeldInOnce(s: State): nat {
    B(s.h.once.Running? && s.h.once.runner in s.calls && CarriesHandle(s.calls[s.h.once.runner]))
  }

  ghost function Releasers(m: map<Id, Closer>): set<Id> {
    set k | k in m && m[k].Releasing?
  }

  lemma ReleaserAdded(m: map<Id, Closer>, k: Id, v: Closer)
    requires k !in m
    ensures |Releasers(m[k := v])| == |Releasers(m)| + B(v.Releasing?)
  {
    if v.Releasing? {
      assert Releasers(m[k := v]) == Releasers(m) + {k};
    } else {
      assert Releasers(m[k := v]) == Releasers(m);
    }
  }

  lemma ReleaserDone(m: map<Id, Closer>, k: Id)
    requires k in m && m[k].Releasing?
    ensures |Releasers(m[k := CloseDone])| + 1 == |Releasers(m)|
  {
    assert Releasers(m[k := CloseDone]) == Releasers(m) - {k};
  }

  ghost function B(b: bool): nat { if b then 1 else 0 }

  /** Only the call running the Once is inside it. */
  ghost predicate OnceExclusive(s: State) {
    && (forall c :: c in s.calls && InsideOnce(s.calls[c]) ==> s.h.once == Running(c))
    && (s.h.once.Running? ==> s.h.once.runner in s.calls && InsideOnce(s.calls[s.h.once.runner]))
  }

  ghost predicate SubscribedOnce(s: State) {
    && (s.h.once.Fresh? ==> s.h.subscribeCalls == 0 && !s.h.subscribed)
    && (s.h.once.Running? && s.h.once.runner in s.calls && BeforeSubscribe(s.calls[s.h.once.runner]) ==>
          s.h.subscribeCalls == 0 && !s.h.subscribed)
    && s.h.subscribeCalls <= 1
  }

  ghost predicate Lifecycle(s: State) {
    && OnceExclusive(s)
    && SubscribedOnce(s)
    && (s.h.closed ==> !s.h.unsubscribe)
    && (s.closers != map[] ==> s.h.closed)
    // The one handle Subscribe returned is in exactly one place.
    && HeldInOnce(s) + B(s.h.unsubscribe) + |Releasers(s.closers)| + s.h.unsubRuns == B(s.h.subscribed)
  }

  /** What one move does to the Once and to the handle. */
  lemma MoveHandle(h: Handler, c: Id, p: Call, act: Act)
    requires CanMove(h, p, act)
    requires InsideOnce(p) ==> h.once == Running(c)
    requires BeforeSubscribe(p) ==> h.subscribeCalls == 0 && !h.subscribed
    requires CarriesHandle(p) ==> !h.unsubscribe
    requires h.closed ==> !h.unsubscribe
    requires h.subscribeCalls <= 1
    requires h.once.Fresh? ==> h.subscribeCalls == 0 && !h.subscribed
    ensures var (h', p') := NextMove(h, c, p, act);
            && (InsideOnce(p') ==> h'.once == Running(c))
            && (h'.once != h.once ==> (h.once.Fresh? && h'.once == Running(c) && InsideOnce(p')) || (InsideOnce(p) && !InsideOnce(p') && h'.once.Finished?))
            && (h'.once == Running(c) && h.once == Running(c) ==> InsideOnce(p') || !InsideOnce(p))
            && (BeforeSubscribe(p') ==> h'.subscribeCalls == 0 && !h'.subscribed)
            && (h'.once.Fresh? ==> h.once.Fresh? && h'.subscribeCalls == 0 && !h'.subscribed)
            && h'.subscribeCalls <= 1
            && h'.closed == h.closed && (h.closed ==> !h'.unsubscribe)
            && B(CarriesHandle(p')) + B(h'.unsubscribe) + h'.unsubRuns + B(h.subscribed)
               == B(CarriesHandle(p)) + B(h.unsubscribe) + h.unsubRuns + B(h'.subscribed)
            && (!InsideOnce(p) && !InsideOnce(p') ==> h'.subscribeCalls == h.subscribeCalls && h'.subscribed == h.subscribed)
  {
  }

  lemma MoveKeepsLifecycle(s: State, c: Id, act: Act)
    requires Lifecycle(s) && Enabled(s, Move(c, act))
    ensures Lifecycle(Apply(s, Move(c, act)))
  {
    var s' := Apply(s, Move(c, act));
    assert s'.closers == s.closers;
    MoveHandle(s.h, c, s.calls[c], act);
    assert forall d :: d in s'.calls && d != c ==> d in s.calls && s'.calls[d] == s.calls[d];
  }

  lemma SameCallsKeepOnce(s: State, s': State)
    requires Lifecycle(s)
    requires s'.calls == s.calls && s'.h.once == s.h.once
    requires s'.h.subscribeCalls == s.h.subscribeCalls && s'.h.subscribed == s.h.subscribed
    ensures OnceExclusive(s') && SubscribedOnce(s') && HeldInOnce(s') == HeldInOnce(s)
  {
  }

  lemma CloseLockKeepsLifecycle(s: State, k: Id)
    requires Lifecycle(s) && k !in s.closers
    ensures Lifecycle(Apply(s, CloseLock(k)))
  {
    var s' := Apply(s, CloseLock(k));
    SameCallsKeepOnce(s, s');
    ReleaserAdded(s.closers, k, if s.h.unsubscribe then Releasing else CloseDone);
  }

  lemma CloseReleaseKeepsLifecycle(s: State, k: Id)
    requires Lifecycle(s) && k in s.closers && s.closers[k].Releasing?
    ensures Lifecycle(Apply(s, CloseRelease(k)))
  {
    var s' := Apply(s, CloseRelease(k));
    SameCallsKeepOnce(s, s');
    ReleaserDone(s.closers, k);
  }

  lemma OtherStepKeepsLifecycle(s: State, e: Step)
    requires Lifecycle(s) && Enabled(s, e) && (e.Begin? || e.Deliver? || e.Lookup? || e.Send?)
    ensures Lifecycle(Apply(s, e))
  {
    var s' := Apply(s, e);
    assert s'.closers == s.closers;
    assert forall d :: d in s'.calls ==> s'.calls[d].Entering? || (d in s.calls && s'.calls[d] == s.calls[d]);
    assert HeldInOnce(s') == HeldInOnce(s);
  }

  lemma CloseOrOther(s: State, e: Step)
    requires Lifecycle(s) && Enabled(s, e) && !e.Move?
    ensures Lifecycle(Apply(s, e))
  {
    if e.CloseLock? {
      CloseLockKeepsLifecycle(s, e.k);
    } else if e.CloseRelease? {
      CloseReleaseKeepsLifecycle(s, e.k);
    } else {
      OtherStepKeepsLifecycle(s, e);
    }
  }

  lemma {:induction false} RunLifecycle(states: seq<State>, steps: seq<Step>, k: nat)
    requires IsRun(states, steps) && k < |states|
    ensures Lifecycle(states[k])
  {
    if k == 0 {
      assert Releasers(Init.closers) == {};
    } else {
      RunLifecycle(states, steps, k - 1);
      if steps[k - 1].Move? {
        MoveKeepsLifecycle(states[k - 1], steps[k - 1].c, steps[k - 1].act);
      } else {
        CloseOrOther(states[k - 1], steps[k - 1]);
      }
    }
  }

  ghost predicate SomeCloseReturned(s: State) {
    exists q :: q in s.closers && s.closers[q].CloseDone?
  }

  ghost predicate EveryCloseReturned(s: State) {
    forall q :: q in s.closers ==> s.closers[q].CloseDone?
  }

  /** Subscribe is attempted at most once and unsubscribe runs at most once,
      never without a successful Subscribe.  Once the lazy subscribe and a Close
      have finished, the subscription has been released exactly as often as it
      was made if and only if no other Close still holds the handle it took. */
  lemma ReleasedExactlyOnce(states: seq<State>, steps: seq<Step>, k: nat)
    requires IsRun(states, steps) && k < |states|
    ensures states[k].h.subscribeCalls <= 1
    ensures states[k].h.unsubRuns <= 1
    ensures !states[k].h.subscribed ==> states[k].h.unsubRuns == 0
    ensures states[k].h.once.Finished? && SomeCloseReturned(states[k]) ==>
              (states[k].h.unsubRuns == B(states[k].h.subscribed) <==> EveryCloseReturned(states[k]))
  {
    RunLifecycle(states, steps, k);
    var s := states[k];
    if !EveryCloseReturned(s) {
      var q :| q in s.closers && !s.closers[q].CloseDone?;
      assert q in Releasers(s.closers);
    } else {
      assert Releasers(s.closers) == {};
    }
  }

  function Replay(s: State, steps: seq<Step>): Option<State>
    decreases |steps|
  {
    if steps == [] then Some(s)
    else if Enabled(s, steps[0]) then Replay(Apply(s, steps[0]), steps[1..])
    else None
  }

  lemma ReplayCons(s: State, e: Step, rest: seq<Step>)
    requires Enabled(s, e)
    ensures Replay(s, [e] + rest) == Replay(Apply(s, e), rest)
  {
    assert ([e] + rest)[1..] == rest;
  }

  /** The states a replay passes through. */
  function Trace(s: State, steps: seq<Step>): (states: seq<State>)
    requires Replay(s, steps).Some?
    ensures |states| == |steps| + 1
    decreases |steps|
  {
    if steps == [] then [s] else [s] + Trace(Apply(s, steps[0]), steps[1..])
  }

  lemma {:induction false} TraceSteps(s: State, steps: seq<Step>)
    requires Replay(s, steps).Some?
    ensures Trace(s, steps)[0] == s && Trace(s, steps)[|steps|] == Replay(s, steps).value
    ensures forall i :: 0 <= i < |steps| ==>
              Enabled(Trace(s, steps)[i], steps[i]) && Trace(s, steps)[i + 1] == Apply(Trace(s, steps)[i], steps[i])
    decreases |steps|
  {
    if steps != [] {
      TraceSteps(Apply(s, steps[0]), steps[1..]);
    }
  }

  /** A replay from the initial state is a run. */
  lemma ReplayIsRun(steps: seq<Step>)
    requires Replay(Init, steps).Some?
    ensures IsRun(Trace(Init, steps), steps) && Trace(Init, steps)[|steps|] == Replay(Init, steps).value
  {
    TraceSteps(Init, steps);
  }

  const Go := Move(0, Advance(true))

  const ClosingTwice: seq<Step> := [Begin(0, "r")] + FirstEscalation

  const FirstEscalation: seq<Step> := [Go] + ([Go] + ([Go] + ([Go] + ([Go] + TwoCloses))))

  const TwoCloses: seq<Step> := [CloseLock(0)] + ([CloseLock(1)] + [])

  lemma FirstEscalationSubscribes(s: State)
    requires s == Init.(calls := map[0 := Entering("r")])
    ensures exists t :: Replay(s, FirstEscalation) == Replay(t, TwoCloses) && t.h == Init.h.(once := Finished, unsubscribe := true, subscribed := true, subscribeCalls := 1) && t.closers == map[]
  {
    var s1 := s.(h := s.h.(once := Running(0)), calls := s.calls[0 := OnceReadClosed("r")]);
    var s2 := s1.(calls := s1.calls[0 := OnceSubscribe("r")]);
    var s3 := s2.(h := s2.h.(subscribeCalls := 1, subscribed := true), calls := s2.calls[0 := OnceInstall("r")]);
    var s4 := s3.(h := s3.h.(unsubscribe := true), calls := s3.calls[0 := OnceEnd("r")]);
    var s5 := s4.(h := s4.h.(once := Finished), calls := s4.calls[0 := ReadSubErr("r")]);
    ReplayCons(s, Go, [Go] + ([Go] + ([Go] + ([Go] + TwoCloses))));
    ReplayCons(s1, Go, [Go] + ([Go] + ([Go] + TwoCloses)));
    ReplayCons(s2, Go, [Go] + ([Go] + TwoCloses));
    ReplayCons(s3, Go, [Go] + TwoCloses);
    ReplayCons(s4, Go, TwoCloses);
  }

  /** A finished Close alone does not mean the subscription was released: a run in
      which the second of two concurrent Close calls has returned while the first
      still holds the handle. */
  lemma CloseMayReturnBeforeRelease()
    ensures Replay(Init, ClosingTwice).Some?
    ensures var states := Trace(Init, ClosingTwice);
            var s := states[|ClosingTwice|];
            && IsRun(states, ClosingTwice)
            && s.h.once.Finished? && SomeCloseReturned(s) && s.h.subscribed && s.h.unsubRuns == 0
  {
    ReplayCons(Init, Begin(0, "r"), FirstEscalation);
    var s := Apply(Init, Begin(0, "r"));
    FirstEscalationSubscribes(s);
    var t :| Replay(s, FirstEscalation) == Replay(t, TwoCloses) && t.h == Init.h.(once := Finished, unsubscribe := true, subscribed := true, subscribeCalls := 1) && t.closers == map[];
    var u := Apply(t, CloseLock(0));
    ReplayCons(t, CloseLock(0), [CloseLock(1)] + []);
    ReplayCons(u, CloseLock(1), []);
    assert Apply(u, CloseLock(1)).closers[1].CloseDone?;
    ReplayIsRun(ClosingTwice);
  }
}
