/** The error taxonomy of the client (`src/core/errors.rs`): a single kind, `Response`,
    distinguished by which of its optional fields are populated. */
module Errors {
  import opened Wrappers
  import opened Core

  /** `canonical_reason` is always present; the wire status (as text) and the raw parsed
      response payload are optional. Equality is structural over the three fields. */
  datatype Error = Response(canonicalReason: string, status: Option<string>, body: Option<Json>)

  /** The `Display` rendering: the canonical reason between two backticks. */
  function Display(e: Error): (s: string)
    ensures |s| == |e.canonicalReason| + 2
    ensures s[0] == '`' && s[|s| - 1] == '`'
    ensures s[1..|s| - 1] == e.canonicalReason
  {
    "`" + e.canonicalReason + "`"
  }

  /** The rendering shows the reason and nothing else: two errors render alike exactly when
      their reasons agree, whatever their status and body. */
  lemma DisplayDeterminedByReason(e1: Error, e2: Error)
    ensures Display(e1) == Display(e2) <==> e1.canonicalReason == e2.canonicalReason
  {
    if Display(e1) == Display(e2) {
      var s := Display(e1);
      assert e1.canonicalReason == s[1..|s| - 1] == e2.canonicalReason;
    }
  }

  /** Derived equality compares all three fields. */
  lemma StructuralEquality(e1: Error, e2: Error)
    ensures e1 == e2 <==>
      e1.canonicalReason == e2.canonicalReason && e1.status == e2.status && e1.body == e2.body
  {
  }
}
