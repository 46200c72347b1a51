/** The decision vocabulary shared by the pipeline, its collaborators and the
    escalation seam (governance/request.go, governance/decision_mode.go). */
module Verdicts {

  datatype Option<+T> = None | Some(value: T)

  /** Decision and rule actions.  `Other` carries every text outside the
      vocabulary, the empty string included. */
  datatype Action =
    | Allow
    | Warn
    | Audit
    | Escalate
    | RequireApproval
    | Deny
    | CheckIndeterminate
    | Other(text: string)

  datatype DecisionMode =
    | Deterministic
    | Classified
    | Proved
    | HumanApproved
    | Unlabelled(text: string)

  datatype TrustState = Trusted | Evaluating | Isolated | Terminated | Unknown

  function TrustStateName(s: TrustState): string {
    match s
    case Trusted => "TRUSTED"
    case Evaluating => "EVALUATING"
    case Isolated => "ISOLATED"
    case Terminated => "TERMINATED"
    case Unknown => "UNKNOWN"
  }

  predicate Blocked(s: TrustState) {
    s == Isolated || s == Terminated
  }

  predicate Permits(a: Action) {
    a == Allow || a == Warn
  }

  /** Pipeline verdicts by restrictiveness; a verdict outside the table ranks as
      allow. */
  function VerdictRank(a: Action): nat {
    match a
    case Warn => 1
    case Escalate => 2
    case RequireApproval => 3
    case Deny => 4
    case _ => 0
  }

  /** The actions an escalation handler or an interceptor may resolve to. */
  predicate IsVerdict(a: Action) {
    a == Allow || a == Deny || a == Warn || a == Escalate || a == RequireApproval
  }

  /** The modes the pipeline may take over from a rule or a handler. */
  predicate AdoptableMode(m: DecisionMode) {
    m == Deterministic || m == Classified || m == HumanApproved
  }

  function Stricter(a: Action, b: Action): Action {
    if VerdictRank(b) > VerdictRank(a) then b else a
  }

  // --- The tables above, as the source lists them ----------------------------------------------

  lemma VerdictOrder()
    ensures VerdictRank(Allow) < VerdictRank(Warn) < VerdictRank(Escalate) < VerdictRank(RequireApproval) < VerdictRank(Deny)
    ensures forall a :: a !in {Warn, Escalate, RequireApproval, Deny} ==> VerdictRank(a) == VerdictRank(Allow)
  {
  }

  /** The stricter of two verdicts is one of them, and neither outranks it. */
  lemma StricterIsMaximum(a: Action, b: Action)
    ensures Stricter(a, b) in {a, b}
    ensures VerdictRank(a) <= VerdictRank(Stricter(a, b)) && VerdictRank(b) <= VerdictRank(Stricter(a, b))
    ensures VerdictRank(a) == VerdictRank(b) ==> Stricter(a, b) == a
  {
  }

  lemma Vocabulary(a: Action, m: DecisionMode, s: TrustState)
    ensures Permits(a) <==> a in {Allow, Warn}
    ensures IsVerdict(a) <==> a in {Allow, Warn, Escalate, RequireApproval, Deny}
    ensures AdoptableMode(m) <==> m in {Deterministic, Classified, HumanApproved}
    ensures Blocked(s) <==> s in {Isolated, Terminated}
  {
  }
}
