/** The pipeline with the awaiting handler as its escalation seam. */
module PipelineEscalation {
  import opened Verdicts
  import opened Policy
  import opened Pipeline
  import opened PipelineLaws
  import Escalation

  /** What the pipeline receives when an Escalate call returns. */
  function Relayed(r: Escalation.Reply): Call<Option<Resolution>> {
    match r
    case Unwound => Panic
    case Fault => Error(Unavailable, "escalation unavailable")
    case Verdict(action, reason, mode) => Value(Some(Resolution(action, reason, mode)))
  }

  /** The handler's answer for this request is that of Escalate call c, made for
      the same request id, which has returned in state k of the run. */
  ghost predicate AnsweredBy(p: Setup, req: Request, states: seq<Escalation.State>, k: nat, c: Escalation.Id) {
    && k < |states| && c in states[k].calls && states[k].calls[c].Returned?
    && states[k].calls[c].id == req.requestId
    && p.escalate.Some?
    && forall reason :: p.escalate.value(req, reason) == Relayed(Escalation.ReplyOf(states[k].calls[c].out))
  }

  /** A human in the loop, end to end and in every interleaving: on an enforcing
      transport with dry-run off, a call the evaluator escalated is permitted only
      if an approved message for that very request was looked up while that very
      Escalate call was registered. */
  lemma {:induction false} EscalatedNeedsApproval(p: Setup, req: Request, states: seq<Escalation.State>, steps: seq<Escalation.Step>, k: nat, c: Escalation.Id)
    requires !p.dryRun && req.transport !in p.nonEnforcing
    requires Escalation.IsRun(states, steps) && AnsweredBy(p, req, states, k, c)
    ensures Answer(p, req).Some? && Allowed(Answer(p, req).value) ==>
            var ev := p.evaluate(req, ToldScore(p, req), ToldPosture(p, req));
               && ev.Value? && ev.value.Some?
               && (ev.value.value.action == EvalEscalate ==>
                     var call := states[k].calls[c];
                     && call.out.Resolved? && call.out.msg.status == "approved" && call.out.msg.requestId == req.requestId
                     && call.made.Some?
                     && Escalation.LookedUpWhileRegistered(states, steps, k, c, req.requestId, call.out.msg, call.made.value))
  {
    if Answer(p, req).None? || !Allowed(Answer(p, req).value) {
      return;
    }
    FailClosed(p, req);
    Escalation.AllowNeedsApproval(states, steps, k, c);
    var ev := p.evaluate(req, ToldScore(p, req), ToldPosture(p, req)).value.value;
    if ev.action == EvalEscalate {
      var reply := Escalation.ReplyOf(states[k].calls[c].out);
      assert p.escalate.value(req, ev.escalationReason) == Relayed(reply);
      assert reply.Verdict? && Permits(reply.action);
    }
  }
}
