/** The adapter around the decryption library: how one attempt's outcome is
    classified, and how the reports of one cleanup pass are aggregated. */
module Engine {
  import opened Model

  /** What the library returned next to its error, if anything. */
  datatype LibraryResult = LibraryResult(verificationOk: bool, scanned: nat, missing: nat)

  /** The error classes the adapter distinguishes, as they are found along the error chain. */
  datatype LibraryError = LibraryError(
    cleanupUnconfirmed: bool,
    deviceLocked: bool,
    lockProbeFailed: bool,
    verificationFailed: bool,
    network: bool)

  /** One call into the library; `touched` says that it reported a phase other
      than connecting or cleaning. */
  datatype Call = Call(result: Option<LibraryResult>, err: Option<LibraryError>, touched: bool)

  /** The error `Decrypt` hands to the worker. `OtherError` is any error that is
      not an engine failure. */
  datatype Error = NoError | Failure(code: Code, retryable: bool, review: bool) | OtherError

  datatype Reply = Reply(review: bool, err: Error)

  predicate Verified(r: Option<LibraryResult>) {
    r.Some? && r.value.verificationOk && r.value.scanned > 0 && r.value.missing == 0
  }

  /** Classification of a call that was preceded by a recorded operation. */
  function Classify(call: Call, ended: bool): Reply {
    if Verified(call.result) && call.err.Some? && call.err.value.cleanupUnconfirmed && !ended then
      Reply(true, NoError)
    else match call.err
      case Some(e) =>
        var (code, retry) :=
          if e.deviceLocked then (DeviceLocked, e.lockProbeFailed)
          else if e.verificationFailed then (VerificationFailed, false)
          else if ended then (Interrupted, false)
          else if !call.touched && e.network then (DeviceUnavailable, true)
          else (DecryptionFailed, false);
        Reply(true, Failure(code, retry, true))
      case None =>
        if !Verified(call.result) then Reply(true, Failure(VerificationFailed, false, true))
        else Reply(true, NoError)
  }

  /** An attempt that ends before an operation is recorded never reaches the device. */
  function EarlyFailure(code: Code): Reply {
    Reply(false, Failure(code, false, false))
  }

  /** The review flag the worker computes from a reply. */
  predicate NeedsReview(r: Reply) {
    r.review || (r.err.Failure? && r.err.review) || r.err.OtherError?
  }

  /** No outcome of a recorded operation lets the worker skip device cleanup,
      success is reported only for a verified output, a failure is retried
      only when it is a failed lock probe or a network failure before the device
      was touched in a live context, and each failure has the code of its cause. */
  lemma ClassifiedCalls(call: Call, ended: bool)
    ensures var r := Classify(call, ended);
      && NeedsReview(r)
      && (r.err.NoError? <==>
            Verified(call.result)
            && (call.err.None? || (call.err.value.cleanupUnconfirmed && !ended)))
      && (r.err.Failure? && r.err.retryable <==>
            call.err.Some? && !r.err.NoError?
            && (if call.err.value.deviceLocked then call.err.value.lockProbeFailed
                else call.err.value.network && !call.err.value.verificationFailed
                     && !ended && !call.touched))
      && (r.err.NoError? || r.err.Failure?)
      && (r.err.Failure? ==>
            r.err.code == if call.err.None? then VerificationFailed
                          else if call.err.value.deviceLocked then DeviceLocked
                          else if call.err.value.verificationFailed then VerificationFailed
                          else if ended then Interrupted
                          else if call.err.value.network && !call.touched then DeviceUnavailable
                          else DecryptionFailed)
  {
  }

  // ---- Cleanup ----

  /** One report: `confirmed` and `failed` are the library's verdict and whether it
      returned an error; `live` says whether the context was live before the call. */
  datatype Report = Report(live: bool, confirmed: bool, uninstalled: bool, failed: bool)

  datatype Aggregate = Aggregate(confirmed: bool, uninstalled: bool, failed: bool)

  predicate Clean(r: Report) {
    r.live && r.confirmed && !r.failed
  }

  /** Nothing is left open: there were calls, and each report was clean. */
  ghost predicate AllClean(ops: seq<OpId>, reports: seq<Report>) {
    ops != [] && |reports| == |ops| && forall k :: 0 <= k < |reports| ==> Clean(reports[k])
  }

  /** `Adapter.Cleanup` over the recorded operations of a job; `reports[k]` is what
      the call for `ops[k]` would answer. `calls` counts the library calls made. */
  method Cleanup(ops: seq<OpId>, reports: seq<Report>) returns (r: Aggregate, calls: nat)
    requires |reports| == |ops|
    ensures r.confirmed && !r.failed <==> AllClean(ops, reports)
    ensures calls <= |ops| && forall k :: 0 <= k < calls ==> reports[k].live
    ensures calls < |ops| ==> !reports[calls].live && r == Aggregate(false, false, true)
    ensures calls == |ops| && ops != [] ==>
            && (r.confirmed <==> forall k :: 0 <= k < |ops| ==> Clean(reports[k]))
            && (r.uninstalled <==> exists k :: 0 <= k < |ops| && reports[k].uninstalled)
            && (r.failed <==> exists k :: 0 <= k < |ops| && reports[k].failed)
  {
    if ops == [] {
      return Aggregate(false, false, true), 0;
    }
    r := Aggregate(true, false, false);
    calls := 0;
    while calls < |ops|
      invariant calls <= |ops|
      invariant forall k :: 0 <= k < calls ==> reports[k].live
      invariant r.confirmed <==> forall k :: 0 <= k < calls ==> Clean(reports[k])
      invariant r.uninstalled <==> exists k :: 0 <= k < calls && reports[k].uninstalled
      invariant r.failed <==> exists k :: 0 <= k < calls && reports[k].failed
    {
      var report := reports[calls];
      if !report.live {
        return Aggregate(false, false, true), calls;
      }
      r := Aggregate(r.confirmed && report.confirmed && !report.failed,
                     r.uninstalled || report.uninstalled,
                     r.failed || report.failed);
      calls := calls + 1;
    }
  }
}
