/**
 * The shape shared by the forms' submit guards: an ordered list of checks,
 * each with the message it writes; the first check that fails decides the
 * message and stops the handler.
 */
module Validation {
  import opened Text

  datatype Check = Check(fails: bool, message: string)

  /** The position of the first failing check, or -1 when every check passes. */
  function FirstFailing(checks: seq<Check>): (k: int)
    ensures -1 <= k < |checks|
    ensures k == -1 <==> forall i :: 0 <= i < |checks| ==> !checks[i].fails
    ensures k >= 0 ==> checks[k].fails && forall j :: 0 <= j < k ==> !checks[j].fails
  {
    if checks == [] then -1
    else if checks[0].fails then 0
    else
      var k := FirstFailing(checks[1..]);
      if k == -1 then -1 else k + 1
  }

  /** The message of the first failing check, or None when every check passes. */
  function FirstFailure(checks: seq<Check>): Option<string>
  {
    var k := FirstFailing(checks);
    if k == -1 then None else Some(checks[k].message)
  }

  /** The first check decides when it fails; otherwise the rest of the list does. */
  lemma FirstFailureCons(c: Check, rest: seq<Check>)
    ensures FirstFailure([c] + rest) == if c.fails then Some(c.message) else FirstFailure(rest)
  {
    assert ([c] + rest)[1..] == rest;
  }

  /** An empty list of checks passes. */
  lemma FirstFailureEmpty()
    ensures FirstFailure([]) == None
  {
  }
}
