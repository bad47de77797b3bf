/** How the controller reads a tool's output: there is no status field, a run
    failed exactly when its output text contains the failure marker. */
module ToolOutput {

  /** The marker searched for in every tool output ("error was reported"). */
  const FailureMarker: string := "报错"

  /** The prefix every execution tool puts in front of the exception text when the
      executed code raises ("an error was reported while executing the code"). */
  const ExecutionErrorPrefix: string := "代码执行时报错"

  /** `m` occurs in `s` starting at index `i`. */
  predicate OccursAt(s: string, m: string, i: int) {
    0 <= i && i + |m| <= |s| && s[i..i + |m|] == m
  }

  /** Python's substring test `m in s`, scanning `s` from the left. */
  function Contains(s: string, m: string): bool
    decreases |s|
  {
    if |m| <= |s| && s[..|m|] == m then true
    else if |s| == 0 then false
    else Contains(s[1..], m)
  }

  /** The scan agrees with the reference definition: it finds `m` exactly when `m`
      occurs somewhere in `s`. */
  lemma {:induction false} ContainsIffOccurs(s: string, m: string)
    ensures Contains(s, m) <==> exists i :: OccursAt(s, m, i)
    decreases |s|
  {
    if |m| <= |s| && s[..|m|] == m {
      assert OccursAt(s, m, 0);
    } else if |s| == 0 {
      assert |m| > 0;
    } else {
      ContainsIffOccurs(s[1..], m);
      if exists i :: OccursAt(s, m, i) {
        var i :| OccursAt(s, m, i);
        assert i != 0;
        assert s[1..][i - 1..i - 1 + |m|] == s[i..i + |m|];
        assert OccursAt(s[1..], m, i - 1);
      }
      if exists j :: OccursAt(s[1..], m, j) {
        var j :| OccursAt(s[1..], m, j);
        assert s[1..][j..j + |m|] == s[j + 1..j + 1 + |m|];
        assert OccursAt(s, m, j + 1);
      }
    }
  }

  /** A tool output is treated as a failed run exactly when it contains the marker. */
  predicate IsFailure(output: string) {
    Contains(output, FailureMarker)
  }

  /** Every execution-error string the tools produce is routed to the repair path. */
  lemma ExecutionErrorIsFailure(detail: string)
    ensures IsFailure(ExecutionErrorPrefix + detail)
  {
    var s := ExecutionErrorPrefix + detail;
    assert s[5..7] == FailureMarker;
    assert OccursAt(s, FailureMarker, 5);
    ContainsIffOccurs(s, FailureMarker);
  }
}
