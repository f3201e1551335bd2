/** The scenarios of recaptcha_test.go, stated against the Verifier with the
    HTTP mock replaced by a transport function. */
module RecaptchaTest {
  import opened Recaptcha

  /** One row of TestConfirm's table: threshold, what the mock replies, expected decision. */
  datatype TestCase = TestCase(score: real, reply: Outcome, expectedResult: bool)

  const ConfirmCases: seq<TestCase> := [
    TestCase(0.5, Reply(200, Json(Response(true, 0.9))), true),
    TestCase(0.5, Reply(200, Json(Response(false, 0.2))), false),
    TestCase(0.5, Reply(200, Json(Response(false, 0.0))), false),
    TestCase(0.5, Reply(500, Json(Response(false, 0.0))), false)
  ]

  /** A mock that answers after `delay` seconds: a client whose non-zero timeout
      is shorter gives up with a transport error. */
  function SlowResponder(delay: nat, reply: Outcome): Request -> Outcome
  {
    (req: Request) => if 0 < req.timeout as int < delay * NanosPerSecond then TransportError else reply
  }

  method TestConfirm() returns (results: seq<bool>)
    ensures |results| == |ConfirmCases|
    ensures forall k :: 0 <= k < |ConfirmCases| ==> results[k] == ConfirmCases[k].expectedResult
  {
    var verifier := new Verifier();
    results := [];
    for i := 0 to |ConfirmCases|
      invariant |results| == i
      invariant forall k :: 0 <= k < i ==> results[k] == ConfirmCases[k].expectedResult
    {
      var test := ConfirmCases[i];
      var reply := test.reply;
      verifier.Init("SOME_KEY", test.score, 2);
      var result, err := verifier.Confirm(_ => reply, "test", "");
      results := results + [result];
    }
  }

  method TestConfirmSlowResponse() returns (result: bool, err: Option<Error>)
    ensures result && err == Some(PostFailed)
  {
    var verifier := new Verifier();
    verifier.Init("SOME_KEY", 0.5, 2);
    result, err := verifier.Confirm(SlowResponder(90, Reply(200, Json(Response(true, 0.9)))), "test", "");
  }

  /** Two calls on one Verifier: a transport failure, then a decoded refusal.
      The second call is refused and clears the flag the first one set. */
  method TestFailureNotCarriedOver() returns (first: bool, second: bool, flag: bool)
    ensures first && !second && !flag
  {
    var verifier := new Verifier();
    verifier.Init("SOME_KEY", 0.5, 2);
    var err;
    first, err := verifier.Confirm(_ => TransportError, "test", "");
    assert verifier.postError;
    second, err := verifier.Confirm(_ => Reply(200, Json(Response(false, 0.0))), "test", "");
    flag := verifier.postError;
  }
}
