/**
 * The two-attempt execution pattern: run the fast path (usually a stream
 * copy), and only if it fails run the safe path (a re-encode); if both
 * fail, report both diagnostics, the primary one first.
 */
module Fallback {

  /** What one engine invocation returned. */
  datatype Attempt = Succeeded | Failed(diagnostic: string)

  datatype AttemptKind = PrimaryAttempt | FallbackAttempt

  /** Which path produced the output, or both diagnostics when neither did. */
  datatype Outcome =
    | PrimaryOk
    | FallbackOk
    | BothFailed(primaryDiagnostic: string, fallbackDiagnostic: string)

  /** The attempts made, in order, and how the operation ended. */
  datatype Run = Run(attempts: seq<AttemptKind>, outcome: Outcome)

  /**
   * The state machine: `primary` and `fallback` are what the engine would
   * answer to each invocation; the fallback is only invoked after the
   * primary failed.
   */
  function RunWithFallback(primary: Attempt, fallback: Attempt): (r: Run)
    ensures 1 <= |r.attempts| <= 2 && r.attempts[0] == PrimaryAttempt
    ensures FallbackAttempt in r.attempts <==> primary.Failed?
    ensures primary.Succeeded? ==> r.outcome == PrimaryOk
    ensures primary.Failed? && fallback.Succeeded? ==> r.outcome == FallbackOk
    ensures r.outcome.BothFailed? <==> primary.Failed? && fallback.Failed?
    ensures r.outcome.BothFailed? ==>
              r.outcome.primaryDiagnostic == primary.diagnostic
              && r.outcome.fallbackDiagnostic == fallback.diagnostic
  {
    match primary
    case Succeeded => Run([PrimaryAttempt], PrimaryOk)
    case Failed(p) =>
      match fallback
      case Succeeded => Run([PrimaryAttempt, FallbackAttempt], FallbackOk)
      case Failed(f) => Run([PrimaryAttempt, FallbackAttempt], BothFailed(p, f))
  }

  /** The wording one call site uses for its three possible endings. */
  datatype Wording = Wording(
    primaryOk: string,
    fallbackOk: string,
    errorHead: string,
    errorMiddle: string,
    errorTail: string)

  /** The status string a call site returns for an outcome. */
  function Report(o: Outcome, w: Wording): string
  {
    match o
    case PrimaryOk => w.primaryOk
    case FallbackOk => w.fallbackOk
    case BothFailed(p, f) => w.errorHead + p + w.errorMiddle + f + w.errorTail
  }

  /**
   * On double failure the report carries the primary diagnostic, then the
   * fallback diagnostic, each recoverable from its position.
   */
  lemma DiagnosticsInOrder(p: string, f: string, w: Wording)
    ensures var msg := Report(BothFailed(p, f), w);
            var i := |w.errorHead|;
            var j := i + |p| + |w.errorMiddle|;
            && |msg| == j + |f| + |w.errorTail|
            && msg[i..i + |p|] == p
            && msg[j..j + |f|] == f
            && i + |p| <= j
  {
    var msg := Report(BothFailed(p, f), w);
    assert msg == w.errorHead + p + w.errorMiddle + f + w.errorTail;
  }

  /** Wording of the shared helper used by the codec, resolution, bitrate and frame-rate tools. */
  function HelperWording(outputPath: string): Wording
  {
    Wording(
      "Operation successful (primary method) and saved to " + outputPath,
      "Operation successful (fallback method) and saved to " + outputPath,
      "Error. Primary method failed: ",
      ". Fallback method also failed: ",
      "")
  }

  /** Wording of the trim tool: codec copy first, re-encode second. */
  function TrimWording(outputPath: string): Wording
  {
    Wording(
      "Video trimmed successfully (codec copy) to " + outputPath,
      "Video trimmed successfully (re-encoded) to " + outputPath,
      "Error trimming video. Copy attempt: ",
      ". Re-encode attempt: ",
      "")
  }

  /** The status string of the shared helper, given what the engine answers to each attempt. */
  function RunHelper(primary: Attempt, fallback: Attempt, outputPath: string): (msg: string)
    ensures primary.Succeeded? ==> msg == "Operation successful (primary method) and saved to " + outputPath
    ensures primary.Failed? && fallback.Succeeded? ==>
              msg == "Operation successful (fallback method) and saved to " + outputPath
    ensures primary.Failed? && fallback.Failed? ==>
              msg == "Error. Primary method failed: " + primary.diagnostic
                     + ". Fallback method also failed: " + fallback.diagnostic
  {
    Report(RunWithFallback(primary, fallback).outcome, HelperWording(outputPath))
  }

  /** The status string of the trim tool. */
  function RunTrim(copy: Attempt, reencode: Attempt, outputPath: string): (msg: string)
    ensures copy.Succeeded? ==> msg == "Video trimmed successfully (codec copy) to " + outputPath
    ensures copy.Failed? && reencode.Succeeded? ==>
              msg == "Video trimmed successfully (re-encoded) to " + outputPath
    ensures copy.Failed? && reencode.Failed? ==>
              msg == "Error trimming video. Copy attempt: " + copy.diagnostic
                     + ". Re-encode attempt: " + reencode.diagnostic
  {
    Report(RunWithFallback(copy, reencode).outcome, TrimWording(outputPath))
  }
}
