/**
 * JUnit's `Statement` as far as the quirk rule needs it: a test body that is
 * invoked, or the rule's `IgnoreStatement` wrapped around another statement.
 * Evaluation reports how the statement completed and which test bodies it ran.
 */
module Statements {
  import opened Wrappers
  import opened Quirks

  /** What a statement may throw: a failed assumption (JUnit skips the test) or anything else. */
  datatype Throwable = AssumptionViolated(message: string) | OtherThrowable(message: string)

  datatype Completion = Normal | Thrown(error: Throwable)

  /**
   * A test method's body, abstracted to the HTTP wire traffic it produces and
   * how it completes (an assertion failure or an SDK error is a `Thrown`).
   */
  datatype TestBody = TestBody(wireTraffic: string, completion: Completion)

  datatype Statement =
    | Invoke(body: TestBody)
    | IgnoreStatement(next: Statement, quirk: Option<Quirk>)  // the field is a nullable reference

  datatype Evaluation = Evaluation(completion: Completion, evaluated: seq<TestBody>)

  /** How string concatenation renders a possibly null quirk reference. */
  function QuirkText(quirk: Option<Quirk>): string
  {
    match quirk
    case Some(q) => Name(q)
    case None => "null"
  }

  /** The message the rule's assumption carries. */
  function SkipReason(quirk: Option<Quirk>): string
  {
    "Ignored due to quirk " + QuirkText(quirk)
  }

  /** JUnit's `assumeFalse(message, condition)`: fails the assumption when the condition holds. */
  function AssumeFalse(message: string, condition: bool): (c: Completion)
    ensures c.Normal? <==> !condition
    ensures condition ==> c == Thrown(AssumptionViolated(message))
  {
    if condition then Thrown(AssumptionViolated(message)) else Normal
  }

  /**
   * Evaluates a statement. An `IgnoreStatement` first assumes that its quirk
   * is null and only then evaluates the wrapped statement; with a quirk
   * present the assumption fails and the wrapped statement never runs.
   */
  function Evaluate(s: Statement): (r: Evaluation)
    ensures s.Invoke? ==> r == Evaluation(s.body.completion, [s.body])
    ensures s.IgnoreStatement? && s.quirk.Some? ==>
      r.evaluated == [] && r.completion == Thrown(AssumptionViolated("Ignored due to quirk " + Name(s.quirk.value)))
    ensures s.IgnoreStatement? && s.quirk.None? ==> r == Evaluate(s.next)
  {
    match s
    case Invoke(body) => Evaluation(body.completion, [body])
    case IgnoreStatement(next, quirk) =>
      var guard := AssumeFalse(SkipReason(quirk), quirk.Some?);
      if guard.Normal? then Evaluate(next) else Evaluation(guard, [])
  }
}
