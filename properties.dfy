/** Properties of the verification client that relate several outcomes,
    thresholds or calls. */
module RecaptchaProperties {
  import opened Recaptcha

  /** The decision is true exactly when the round-trip failed or the response
      check returned is a success scoring at least the threshold. */
  lemma DecisionCharacterized(threshold: real, postError: bool, o: Outcome)
    ensures var c := CheckSpec(postError, o);
            ConfirmSpec(threshold, postError, o).result <==>
              o.TransportError? || (c.resp.success && c.resp.score >= threshold)
  {
  }

  /** Because check clears postError on entry, the value the flag held before a
      call never changes that call's verdict. */
  lemma FlagOnEntryIgnored(threshold: real, o: Outcome)
    ensures ConfirmSpec(threshold, true, o) == ConfirmSpec(threshold, false, o)
  {
  }

  /** A score equal to the threshold is accepted: the comparison is `>=`. */
  lemma ScoreAtThresholdAccepted(threshold: real, postError: bool, status: int)
    ensures ConfirmSpec(threshold, postError, Reply(status, Json(Response(true, threshold)))).result
  {
  }

  /** Nothing but fail-open accepts a response that check left at its zero value. */
  lemma ZeroResponseRejected(threshold: real, postError: bool, status: int)
    ensures !ConfirmSpec(threshold, postError, Reply(status, Unreadable)).result
    ensures !ConfirmSpec(threshold, postError, Reply(status, Malformed(ZeroResponse))).result
    ensures !ConfirmSpec(threshold, postError, Reply(status, Json(ZeroResponse))).result
  {
  }

  /** The HTTP status of the reply is never consulted: a 500 with a parsable body
      is decided like a 200 with the same body. */
  lemma StatusIgnored(threshold: real, postError: bool, s1: int, s2: int, body: Body)
    ensures ConfirmSpec(threshold, postError, Reply(s1, body)) == ConfirmSpec(threshold, postError, Reply(s2, body))
  {
  }

  /** Lowering the threshold never turns an acceptance into a refusal. */
  lemma ThresholdMonotone(lower: real, higher: real, postError: bool, o: Outcome)
    requires lower <= higher
    ensures ConfirmSpec(higher, postError, o).result ==> ConfirmSpec(lower, postError, o).result
  {
  }

  /** A call whose round-trip failed is logged as a valid token, with score 0. */
  lemma FailOpenLoggedValid(threshold: real, postError: bool)
    ensures var v := ConfirmSpec(threshold, postError, TransportError);
            v.resp.score == 0.0 && Classify(v.result, v.resp.score) == ValidToken
  {
  }

  /** A refused call is logged as a low score exactly when the score check left
      is positive, whatever the reply said about success. */
  lemma LowScoreFollowsScore(threshold: real, postError: bool, o: Outcome)
    ensures var v := ConfirmSpec(threshold, postError, o);
            !v.result ==> (Classify(v.result, v.resp.score) == LowScore <==> v.resp.score > 0.0)
  {
  }

  /** Two replies where the success flag and the log line disagree:
      `{"success": false, "score": 0.2}` is logged as a low score and
      `{"success": true, "score": 0}` under threshold 0.5 as an invalid token. */
  lemma LowScoreIgnoresSuccess(postError: bool, status: int)
    ensures Classify(ConfirmSpec(0.5, postError, Reply(status, Json(Response(false, 0.2)))).result, 0.2) == LowScore
    ensures Classify(ConfirmSpec(0.5, postError, Reply(status, Json(Response(true, 0.0)))).result, 0.0) == InvalidToken
  {
  }

  /** A failed round-trip does not force acceptance of any later call: the last
      of a run of calls is decided as if the flag had been clear on entry. */
  lemma EarlierFailureForgotten(threshold: real, postError: bool, earlier: seq<Outcome>, o: Outcome)
    ensures var run := Replay(threshold, postError, earlier + [o]);
            run.results[|earlier|] == ConfirmSpec(threshold, false, o).result &&
            run.postError == o.TransportError?
  {
  }

  /** A timeout past MaxTimeoutSeconds wraps around to a negative Duration. */
  lemma TimeoutWraps()
    ensures ClientTimeout((MaxTimeoutSeconds + 1) as int64) < 0
  {
  }
}
