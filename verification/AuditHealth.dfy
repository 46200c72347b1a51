/** Audit-delivery accounting of the pipeline (governance/pipeline.go).

    Any number of `publishAudit` calls and `Degraded` readers interleave.  Every
    shared access (the ticket draw, the failure count, each load, each
    compare-and-swap) is one atomic step, as Go's atomics are sequentially
    consistent.  A run is a sequence of such steps from the empty state. */
module AuditHealth {

  /** Where one `publishAudit` call stands.  `tries` is history: the number of
      compare-and-swaps of this call that have failed so far. */
  datatype Publish =
    | Delivering(ticket: nat)
    | Counting(ticket: nat)
    | Loading(ticket: nat, ok: bool, tries: nat)
    | Swapping(ticket: nat, ok: bool, seen: nat, tries: nat)
    | Settled(ticket: nat, ok: bool)

  /** Where one `Degraded` call stands: it loads the failure mark, then the
      success mark. */
  datatype Reader =
    | LoadedFail(fail: nat)
    | Answered(degraded: bool)

  type CallId = nat

  datatype State = State(
    drawn: nat,
    failMark: nat,
    okMark: nat,
    failures: nat,
    publishes: map<CallId, Publish>,
    readers: map<CallId, Reader>)

  datatype Step =
    | Draw(c: CallId)
    | Deliver(c: CallId, ok: bool)
    | CountFailure(c: CallId)
    | Load(c: CallId)
    | Swap(c: CallId)
    | ReadFail(r: CallId)
    | ReadOk(r: CallId)

  const Init := State(0, 0, 0, 0, map[], map[])

  function Mark(s: State, ok: bool): nat {
    if ok then s.okMark else s.failMark
  }

  function SetMark(s: State, ok: bool, n: nat): State {
    if ok then s.(okMark := n) else s.(failMark := n)
  }

  function At(s: State, c: CallId, p: Publish): State {
    s.(publishes := s.publishes[c := p])
  }

  predicate Enabled(s: State, e: Step) {
    match e
    case Draw(c) => c !in s.publishes
    case Deliver(c, _) => c in s.publishes && s.publishes[c].Delivering?
    case CountFailure(c) => c in s.publishes && s.publishes[c].Counting?
    case Load(c) => c in s.publishes && s.publishes[c].Loading?
    case Swap(c) => c in s.publishes && s.publishes[c].Swapping?
    case ReadFail(r) => r !in s.readers || s.readers[r].Answered?
    case ReadOk(r) => r in s.readers && s.readers[r].LoadedFail?
  }

  function Apply(s: State, e: Step): State
    requires Enabled(s, e)
  {
    match e
    case Draw(c) =>
      At(s.(drawn := s.drawn + 1), c, Delivering(s.drawn + 1))
    case Deliver(c, ok) =>
      var t := s.publishes[c].ticket;
      At(s, c, if ok then Loading(t, true, 0) else Counting(t))
    case CountFailure(c) =>
      At(s.(failures := s.failures + 1), c, Loading(s.publishes[c].ticket, false, 0))
    case Load(c) =>
      var p := s.publishes[c];
      var cur := Mark(s, p.ok);
      At(s, c, if p.ticket <= cur then Settled(p.ticket, p.ok) else Swapping(p.ticket, p.ok, cur, p.tries))
    case Swap(c) =>
      var p := s.publishes[c];
      if Mark(s, p.ok) == p.seen
      then At(SetMark(s, p.ok, p.ticket), c, Settled(p.ticket, p.ok))
      else At(s, c, Loading(p.ticket, p.ok, p.tries + 1))
    case ReadFail(r) =>
      s.(readers := s.readers[r := LoadedFail(s.failMark)])
    case ReadOk(r) =>
      s.(readers := s.readers[r := Answered(s.readers[r].fail > s.okMark)])
  }

  ghost predicate IsRun(states: seq<State>, steps: seq<Step>) {
    && |states| == |steps| + 1
    && states[0] == Init
    && forall i :: 0 <= i < |steps| ==>
         Enabled(states[i], steps[i]) && states[i + 1] == Apply(states[i], steps[i])
  }

  // --- What every step keeps ---------------------------------------------

  ghost predicate SettledAs(s: State, c: CallId, ticket: int, ok: bool) {
    c in s.publishes && s.publishes[c].Settled? && s.publishes[c].ticket == ticket && s.publishes[c].ok == ok
  }

  /** The mark is the greatest ticket whose store completed (0 if none has). */
  ghost predicate MarkIsGreatest(s: State, ok: bool) {
    && (forall c, t :: SettledAs(s, c, t, ok) ==> t <= Mark(s, ok))
    && (Mark(s, ok) > 0 ==> exists c :: SettledAs(s, c, Mark(s, ok), ok))
  }

  ghost predicate HoldsTicket(s: State, c: CallId, t: int) {
    c in s.publishes && s.publishes[c].ticket == t
  }

  ghost predicate SomeoneHolds(s: State, t: int) {
    exists c :: HoldsTicket(s, c, t)
  }

  ghost predicate TicketsUnique(s: State) {
    && (forall c :: c in s.publishes ==> 1 <= s.publishes[c].ticket <= s.drawn)
    && (forall c, d, t :: HoldsTicket(s, c, t) && HoldsTicket(s, d, t) ==> c == d)
    && (forall t :: 1 <= t <= s.drawn ==> SomeoneHolds(s, t))
  }

  /** A call that lost `tries` swaps has watched the mark rise that often. */
  ghost predicate RetriesPaid(s: State) {
    forall c :: c in s.publishes ==>
      match s.publishes[c]
      case Loading(_, ok, tries) => tries <= Mark(s, ok)
      case Swapping(t, ok, seen, tries) => tries <= seen <= Mark(s, ok) && seen < t
      case _ => true
  }

  ghost function CountedFailures(s: State): set<CallId> {
    set c | c in s.publishes && !s.publishes[c].Delivering? && !s.publishes[c].Counting? && !s.publishes[c].ok
  }

  ghost predicate Inv(s: State) {
    && MarkIsGreatest(s, true)
    && MarkIsGreatest(s, false)
    && TicketsUnique(s)
    && RetriesPaid(s)
    && |CountedFailures(s)| == s.failures
  }

  lemma StepKeepsMark(s: State, e: Step, ok: bool)
    requires MarkIsGreatest(s, ok) && RetriesPaid(s) && Enabled(s, e)
    ensures MarkIsGreatest(Apply(s, e), ok)
    ensures Mark(s, ok) <= Mark(Apply(s, e), ok)
  {
    var s' := Apply(s, e);
    if e.Draw? || e.Deliver? || e.CountFailure? || e.Load? || e.Swap? {
      forall d, t | d != e.c
        ensures SettledAs(s', d, t, ok) == SettledAs(s, d, t, ok)
      {
      }
      if Mark(s, ok) > 0 {
        var d :| SettledAs(s, d, Mark(s, ok), ok);
        assert d != e.c;
        assert SettledAs(s', d, Mark(s, ok), ok);
      }
      if Mark(s', ok) != Mark(s, ok) {
        assert SettledAs(s', e.c, Mark(s', ok), ok);
      }
    } else {
      assert forall d, t :: SettledAs(s', d, t, ok) == SettledAs(s, d, t, ok);
    }
  }

  lemma StepKeepsTickets(s: State, e: Step)
    requires TicketsUnique(s) && Enabled(s, e)
    ensures TicketsUnique(Apply(s, e))
  {
    var s' := Apply(s, e);
    if e.Draw? {
      forall t | 1 <= t <= s'.drawn
        ensures SomeoneHolds(s', t)
      {
        if t == s'.drawn {
          assert HoldsTicket(s', e.c, t);
        } else {
          assert SomeoneHolds(s, t);
          var c :| HoldsTicket(s, c, t);
          assert HoldsTicket(s', c, t);
        }
      }
      assert forall c, t :: HoldsTicket(s', c, t) ==> (c == e.c && t == s'.drawn) || HoldsTicket(s, c, t);
    } else {
      assert forall c, t :: HoldsTicket(s', c, t) == HoldsTicket(s, c, t);
      forall t | 1 <= t <= s'.drawn
        ensures SomeoneHolds(s', t)
      {
        assert SomeoneHolds(s, t);
        var c :| HoldsTicket(s, c, t);
        assert HoldsTicket(s', c, t);
      }
    }
  }

  lemma StepKeepsCount(s: State, e: Step)
    requires |CountedFailures(s)| == s.failures && Enabled(s, e)
    ensures |CountedFailures(Apply(s, e))| == Apply(s, e).failures
  {
    var s' := Apply(s, e);
    if e.CountFailure? {
      assert e.c !in CountedFailures(s);
      assert CountedFailures(s') == CountedFailures(s) + {e.c};
    } else {
      assert CountedFailures(s') == CountedFailures(s);
    }
  }

  lemma StepKeepsRetries(s: State, e: Step)
    requires RetriesPaid(s) && Enabled(s, e)
    ensures RetriesPaid(Apply(s, e))
  {
    var s' := Apply(s, e);
    assert s.failMark <= s'.failMark && s.okMark <= s'.okMark;
    if e.ReadFail? || e.ReadOk? {
      assert s'.publishes == s.publishes;
    } else {
      assert forall d :: d in s'.publishes && d != e.c ==> d in s.publishes && s'.publishes[d] == s.publishes[d];
    }
  }

  lemma StepKeepsInv(s: State, e: Step)
    requires Inv(s) && Enabled(s, e)
    ensures Inv(Apply(s, e))
  {
    StepKeepsMark(s, e, true);
    StepKeepsMark(s, e, false);
    StepKeepsTickets(s, e);
    StepKeepsCount(s, e);
    StepKeepsRetries(s, e);
  }

  /** Every state of every run satisfies the invariant. */
  lemma {:induction false} RunInv(states: seq<State>, steps: seq<Step>, k: nat)
    requires IsRun(states, steps) && k < |states|
    ensures Inv(states[k])
  {
    if k == 0 {
      assert CountedFailures(Init) == {};
    } else {
      RunInv(states, steps, k - 1);
      StepKeepsInv(states[k - 1], steps[k - 1]);
    }
  }

  // --- Each delivery is accounted for as it went ------------------------------------------

  /** Call c's publisher answered ok before state k. */
  ghost predicate Delivered(steps: seq<Step>, k: int, c: CallId, ok: bool) {
    exists i :: 0 <= i < k && i < |steps| && steps[i] == Deliver(c, ok)
  }

  /** The outcome a call carries is the one its delivery had. */
  ghost predicate OutcomesTrue(states: seq<State>, steps: seq<Step>, k: nat)
    requires k < |states|
  {
    forall c :: c in states[k].publishes ==> OutcomeTrue(states[k].publishes[c], steps, k, c)
  }

  ghost predicate OutcomeTrue(p: Publish, steps: seq<Step>, k: nat, c: CallId) {
    && (p.Counting? ==> Delivered(steps, k, c, false))
    && (p.Loading? || p.Swapping? || p.Settled? ==> Delivered(steps, k, c, p.ok))
  }

  lemma DeliveredGrows(steps: seq<Step>, k: int)
    ensures forall c, ok :: Delivered(steps, k, c, ok) ==> Delivered(steps, k + 1, c, ok)
  {
    forall c, ok | Delivered(steps, k, c, ok)
      ensures Delivered(steps, k + 1, c, ok)
    {
      var i :| 0 <= i < k && i < |steps| && steps[i] == Deliver(c, ok);
    }
  }

  /** In every run a call settles as a failure exactly if its delivery failed. */
  lemma {:induction false} SettledAsDelivered(states: seq<State>, steps: seq<Step>, k: nat)
    requires IsRun(states, steps) && k < |states|
    ensures OutcomesTrue(states, steps, k)
  {
    if k > 0 {
      SettledAsDelivered(states, steps, k - 1);
      DeliveredGrows(steps, k - 1);
      var s, e := states[k - 1], steps[k - 1];
      assert Enabled(s, e) && states[k] == Apply(s, e);
      if e.Deliver? {
        assert steps[k - 1] == Deliver(e.c, e.ok);
        assert Delivered(steps, k, e.c, e.ok);
      }
    }
  }

  /** Left to itself a call settles: from its load, one load and at most one swap. */
  lemma SettlesAlone(s: State, c: CallId)
    requires c in s.publishes && s.publishes[c].Loading?
    ensures var p, t := s.publishes[c], Apply(s, Load(c));
            if p.ticket <= Mark(s, p.ok) then t.publishes[c] == Settled(p.ticket, p.ok) && Mark(t, p.ok) == Mark(s, p.ok)
            else
              && Enabled(t, Swap(c))
              && var u := Apply(t, Swap(c));
                 u.publishes[c] == Settled(p.ticket, p.ok) && Mark(u, p.ok) == p.ticket && Mark(u, !p.ok) == Mark(s, !p.ok)
  {
  }

  // --- The store loop ------------------------------------------------------

  /** `storeMaxInt64` terminates in every interleaving: a call holding ticket t
      never has more than t failed swaps behind it, and each failed swap
      strictly lowers ticket minus mark as that call next sees it. */
  lemma StoreLoopBounded(states: seq<State>, steps: seq<Step>, k: nat, c: CallId)
    requires IsRun(states, steps) && k < |steps|
    requires steps[k] == Swap(c)
    ensures states[k].publishes[c].tries <= states[k].publishes[c].seen < states[k].publishes[c].ticket
    ensures !states[k + 1].publishes[c].Settled? ==>
              var p := states[k].publishes[c];
              p.ticket - Mark(states[k + 1], p.ok) < p.ticket - p.seen
  {
    RunInv(states, steps, k);
    assert Enabled(states[k], steps[k]);
  }

  // --- Degraded ------------------------------------------------------------

  /** The greatest ticket whose store completed belongs to a failed delivery. */
  ghost predicate GreatestSettledFailed(s: State) {
    exists c, t :: SettledAs(s, c, t, false)
      && forall d, u, ok :: SettledAs(s, d, u, ok) ==> u <= t
  }

  lemma MarksDecideGreatest(s: State)
    requires Inv(s)
    ensures GreatestSettledFailed(s) <==> s.failMark > s.okMark
  {
    if s.failMark > s.okMark {
      assert Mark(s, false) == s.failMark && Mark(s, true) == s.okMark;
      var c :| SettledAs(s, c, s.failMark, false);
      assert forall d, u, ok :: SettledAs(s, d, u, ok) ==> u <= Mark(s, ok) <= s.failMark;
    }
    if GreatestSettledFailed(s) {
      var c, t :| SettledAs(s, c, t, false)
        && forall d, u, ok :: SettledAs(s, d, u, ok) ==> u <= t;
      assert 1 <= t <= Mark(s, false);
      if s.okMark >= s.failMark {
        var d :| SettledAs(s, d, Mark(s, true), true);
        assert HoldsTicket(s, c, t) && HoldsTicket(s, d, t);
      }
    }
  }

  lemma {:induction false} MarksMonotone(states: seq<State>, steps: seq<Step>, i: nat, j: nat)
    requires IsRun(states, steps) && i <= j < |states|
    ensures states[i].failMark <= states[j].failMark
    ensures states[i].okMark <= states[j].okMark
    decreases j - i
  {
    if i < j {
      MarksMonotone(states, steps, i, j - 1);
      RunInv(states, steps, j - 1);
      StepKeepsMark(states[j - 1], steps[j - 1], true);
      StepKeepsMark(states[j - 1], steps[j - 1], false);
    }
  }

  lemma {:induction false} ReaderKeeps(states: seq<State>, steps: seq<Step>, i: nat, j: nat, r: CallId)
    requires IsRun(states, steps) && i < j < |states|
    requires steps[i] == ReadFail(r)
    requires forall k :: i < k < j ==> steps[k] != ReadFail(r) && steps[k] != ReadOk(r)
    ensures r in states[j].readers && states[j].readers[r] == LoadedFail(states[i].failMark)
    decreases j - i
  {
    assert states[i + 1] == Apply(states[i], steps[i]);
    if i + 1 < j {
      ReaderKeeps(states, steps, i, j - 1, r);
      assert states[j] == Apply(states[j - 1], steps[j - 1]);
      assert steps[j - 1] != ReadFail(r) && steps[j - 1] != ReadOk(r);
    }
  }

  /** A `Degraded` call loads the failure mark at step i and the success mark at
      step j.  If it answers true, then at every instant from the first load to
      the second the greatest settled ticket belonged to a failed delivery. */
  lemma DegradedIsSound(states: seq<State>, steps: seq<Step>, i: nat, j: nat, r: CallId, m: nat)
    requires IsRun(states, steps) && i < j < |steps|
    requires steps[i] == ReadFail(r) && steps[j] == ReadOk(r)
    requires forall k :: i < k < j ==> steps[k] != ReadFail(r) && steps[k] != ReadOk(r)
    requires i <= m <= j + 1
    ensures r in states[j + 1].readers && states[j + 1].readers[r].Answered?
    ensures states[j + 1].readers[r].degraded ==> GreatestSettledFailed(states[m])
  {
    ReaderKeeps(states, steps, i, j, r);
    assert states[j + 1] == Apply(states[j], steps[j]);
    if states[j + 1].readers[r].degraded {
      MarksMonotone(states, steps, i, m);
      MarksMonotone(states, steps, m, j + 1);
      RunInv(states, steps, m);
      MarksDecideGreatest(states[m]);
    }
  }

  ghost predicate Quiescent(s: State) {
    forall c :: c in s.publishes ==> s.publishes[c].Settled?
  }

  ghost predicate LastDrawnFailed(s: State) {
    exists c :: SettledAs(s, c, s.drawn, false)
  }

  /** With no delivery in flight the answer is exact both ways: Degraded reads
      true iff some audit was emitted and the last one drawn failed. */
  lemma QuiescentExact(states: seq<State>, steps: seq<Step>, k: nat)
    requires IsRun(states, steps) && k < |states|
    requires Quiescent(states[k])
    ensures (states[k].failMark > states[k].okMark) <==> LastDrawnFailed(states[k])
  {
    var s := states[k];
    RunInv(states, steps, k);
    MarksDecideGreatest(s);
    if s.failMark > s.okMark {
      var c, t :| SettledAs(s, c, t, false)
        && forall d, u, ok :: SettledAs(s, d, u, ok) ==> u <= t;
      assert HoldsTicket(s, c, t);
      assert SomeoneHolds(s, s.drawn);
      var d :| HoldsTicket(s, d, s.drawn);
      assert SettledAs(s, d, s.drawn, s.publishes[d].ok);
      assert t == s.drawn;
      assert SettledAs(s, c, s.drawn, false);
    }
    if c :| SettledAs(s, c, s.drawn, false) {
      forall d, u, ok | SettledAs(s, d, u, ok)
        ensures u <= s.drawn
      {
        assert HoldsTicket(s, d, u);
      }
    }
  }

  ghost predicate QuiescentThroughout(states: seq<State>, i: nat, j: nat) {
    forall m :: i <= m <= j && m < |states| ==> Quiescent(states[m])
  }

  lemma {:induction false} QuietMarks(states: seq<State>, steps: seq<Step>, i: nat, j: nat)
    requires IsRun(states, steps) && i <= j < |states| && QuiescentThroughout(states, i, j)
    ensures states[j].failMark == states[i].failMark
    decreases j - i
  {
    if i < j {
      QuietMarks(states, steps, i, j - 1);
      var s, e := states[j - 1], steps[j - 1];
      assert Enabled(s, e) && states[j] == Apply(s, e);
      assert Quiescent(s) && Quiescent(states[j]);
      if e.Draw? {
        assert e.c in states[j].publishes;
      }
    }
  }

  /** A `Degraded` call during which no delivery is in flight answers exactly:
      true iff the last audit drawn failed to be delivered. */
  lemma DegradedExactAtQuiescence(states: seq<State>, steps: seq<Step>, i: nat, j: nat, r: CallId)
    requires IsRun(states, steps) && i < j < |steps|
    requires steps[i] == ReadFail(r) && steps[j] == ReadOk(r)
    requires forall k :: i < k < j ==> steps[k] != ReadFail(r) && steps[k] != ReadOk(r)
    requires QuiescentThroughout(states, i, j)
    ensures r in states[j + 1].readers && states[j + 1].readers[r].Answered?
    ensures states[j + 1].readers[r].degraded <==> LastDrawnFailed(states[j])
  {
    ReaderKeeps(states, steps, i, j, r);
    QuietMarks(states, steps, i, j);
    QuiescentExact(states, steps, j);
    assert states[j + 1] == Apply(states[j], steps[j]);
  }

  /** `AuditFailures` counts each failed delivery exactly once. */
  lemma FailureCountExact(states: seq<State>, steps: seq<Step>, k: nat)
    requires IsRun(states, steps) && k < |states|
    ensures states[k].failures == |CountedFailures(states[k])|
    ensures Quiescent(states[k]) ==>
              CountedFailures(states[k]) == set c | c in states[k].publishes && states[k].publishes[c] == Settled(states[k].publishes[c].ticket, false)
  {
    RunInv(states, steps, k);
  }
}
