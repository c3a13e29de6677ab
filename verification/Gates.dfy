/** Gate primitives: verdicts, decisions, results, and the context a gate may write to. */
module Gates {

  datatype Verdict = ALLOW | REJECT | SUPPRESS | ROUTE

  datatype Decision = Decision(verdict: Verdict, reason: string, routeKind: string, detail: string)

  datatype Status = BINDING | SHADOW | PASSED | SKIPPED | ADVISORY

  datatype GateResult = GateResult(name: string, status: Status, verdict: Verdict, reason: string, detail: string)

  /** A gate answers, raises, or returns something that is not a decision. */
  datatype Answer = Decided(decision: Decision) | Raised(error: string) | Junk

  /** Its three declared properties, and its effect on the derived values. */
  datatype Gate<!D> = Gate(name: string, runsWhenRouted: bool, expensive: bool, advisory: bool,
                           evaluate: D -> (D, Answer))

  class GateContext<D> {
    var derived: D

    constructor (derived: D)
      ensures this.derived == derived
    {
      this.derived := derived;
    }
  }

  class DecisionTrace {
    var results: seq<GateResult>
    var action: Verdict
    var reason: string
    var routeKind: string

    constructor ()
      ensures results == [] && action == ALLOW && reason == "" && routeKind == ""
    {
      results, action, reason, routeKind := [], ALLOW, "", "";
    }
  }
}
