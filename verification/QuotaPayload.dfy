// Quota expressions evaluated against a JSON payload.
module QuotaPayload {
  import opened Text
  import opened Json
  import opened QuotaGrammar
  import opened QuotaExpr
  import opened QuotaPrint
  import opened QuotaInline
  import opened QuotaPath

  /** The numeric value at a path; `number` reads a number from a JSON value. */
  function ValueAt(payload: Json, number: Json -> Option<real>, path: string): Option<real> {
    var v := Extract(payload, path);
    if v.None? then None else number(v.value)
  }

  function Look(payload: Json, number: Json -> Option<real>): string -> Option<real> {
    (path: string) => ValueAt(payload, number, path)
  }

  /** Evaluation against a payload, as the quota parser calls it. */
  method EvaluateAgainst(expression: string, payload: Json, number: Json -> Option<real>) returns (r: Option<real>)
    ensures r == Meaning(expression, Look(payload, number))
  {
    r := EvaluateExpression(expression, Look(payload, number));
  }

  function StepsPath(steps: seq<PathStep>): Ast { Path("$" + PrintSteps(steps)) }

  /** A reference written as an explicit call reads exactly the value its steps lead to. */
  lemma ReferenceReadsItsSteps(payload: Json, number: Json -> Option<real>, steps: seq<PathStep>)
    requires PrintableAll(steps)
    ensures var v := Follow(payload, steps);
            Meaning(Print(StepsPath(steps), false), Look(payload, number)) ==
            if v.None? then None else number(v.value)
  {
    hide Print;
    hide Meaning;
    hide Extract;
    PrintedPathExtracts(payload, steps);
    PrintedMeansTree(StepsPath(steps), false, Look(payload, number));
  }
}
