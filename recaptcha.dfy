/** A model of the reCAPTCHA v3 verification client: the package globals set by
    Init, the single verification round-trip done by check, the score decision with
    its fail-open override in ConfirmWithContext, and the three-way log
    classification. The network and JSON decoding are an abstract Outcome that the
    caller supplies as a function of the outgoing request. */
module Recaptcha {

  /** Go's `int64`, and Go's `int` on a 64-bit platform. */
  newtype int64 = x: int | -0x8000_0000_0000_0000 <= x < 0x8000_0000_0000_0000

  datatype Option<T> = None | Some(value: T)

  /** The decoded verification reply; only the fields the decision reads. */
  datatype Response = Response(success: bool, score: real)

  /** Go's zero value of Response: what check returns when nothing was decoded. */
  const ZeroResponse := Response(false, 0.0)

  const ServerName := "https://www.google.com/recaptcha/api/siteverify"
  const FormContentType := "application/x-www-form-urlencoded"

  /** One nanosecond-based time.Second. */
  const NanosPerSecond := 1_000_000_000

  /** The largest number of seconds whose Duration does not overflow int64. */
  const MaxTimeoutSeconds := 9_223_372_036

  /** The POST request built by performRecaptchaRequest: form values as url.Values
      (a key maps to a list of values) and the client timeout in nanoseconds. */
  datatype Request = Request(
    verb: string,
    url: string,
    contentType: string,
    form: map<string, seq<string>>,
    timeout: int64)

  /** What reading the reply body and unmarshalling it produced. A JSON error may
      leave fields already decoded (encoding/json keeps going after a type
      mismatch), so it carries the partially filled Response. */
  datatype Body = Unreadable | Malformed(partial: Response) | Json(resp: Response)

  /** The result of the round-trip: either the client returned an error (network
      failure, timeout) or a reply with an HTTP status and a body. */
  datatype Outcome = TransportError | Reply(status: int, body: Body)

  /** The error value check and Confirm hand back. */
  datatype Error = PostFailed | ReadFailed | InvalidJson

  /** The three log lines of logCaptchaResult. */
  datatype LogKind = ValidToken | LowScore | InvalidToken

  datatype LogRecord = LogRecord(ip: string, kind: LogKind, score: real)

  /** What check leaves behind: its named results and the postError global. */
  datatype CheckResult = CheckResult(resp: Response, err: Option<Error>, postError: bool)

  /** What one Confirm call leaves behind. */
  datatype Verdict = Verdict(result: bool, err: Option<Error>, resp: Response, postError: bool)

  /** Sign-extending truncation to 64 bits, as Go's int64 arithmetic wraps. */
  function WrapInt64(x: int): int64
  {
    ((x + 0x8000_0000_0000_0000) % 0x1_0000_0000_0000_0000 - 0x8000_0000_0000_0000) as int64
  }

  /** time.Duration(timeResponse) * time.Second, with int64 wrap-around. */
  function ClientTimeout(seconds: int64): (d: int64)
    ensures -MaxTimeoutSeconds <= seconds as int <= MaxTimeoutSeconds ==>
              d as int == seconds as int * NanosPerSecond
  {
    WrapInt64(seconds as int * NanosPerSecond)
  }

  /** The acceptance test of ConfirmWithContext, before the fail-open override. */
  predicate Accepts(resp: Response, threshold: real)
  {
    resp.success && resp.score >= threshold
  }

  /** What check does with the outcome of the round-trip, given the value the
      postError global holds on entry. */
  function CheckSpec(postError: bool, o: Outcome): (c: CheckResult)
    ensures c.postError <==> o.TransportError?
    ensures c.err.None? <==> o.Reply? && o.body.Json?
    ensures c.postError ==> c.err == Some(PostFailed)
    ensures o.TransportError? || o.body.Unreadable? ==> c.resp == ZeroResponse
    ensures o.Reply? && o.body.Malformed? ==> c.resp == o.body.partial && c.err == Some(InvalidJson)
    ensures o.Reply? && o.body.Json? ==> c.resp == o.body.resp
  {
    // check clears the global before making the request
    var cleared := false;
    match o
    case TransportError => CheckResult(ZeroResponse, Some(PostFailed), true)
    case Reply(_, Unreadable) => CheckResult(ZeroResponse, Some(ReadFailed), cleared)
    case Reply(_, Malformed(partial)) => CheckResult(partial, Some(InvalidJson), cleared)
    case Reply(_, Json(resp)) => CheckResult(resp, None, cleared)
  }

  /** What ConfirmWithContext returns, given the configured threshold, the value
      of the postError global on entry and the outcome of the round-trip: check,
      then the score test, then the override by the flag check left behind. */
  function ConfirmSpec(threshold: real, postError: bool, o: Outcome): (v: Verdict)
    // fail-open: a failed round-trip is accepted and reports its error
    ensures o.TransportError? ==> v.result && v.err == Some(PostFailed) && v.postError
    // an unreadable body is rejected whatever the threshold
    ensures o.Reply? && o.body.Unreadable? ==> !v.result && v.err == Some(ReadFailed) && !v.postError
    // a JSON error decides on the fields decoded so far and never fails open
    ensures o.Reply? && o.body.Malformed? ==>
              (v.result <==> Accepts(o.body.partial, threshold)) && v.err == Some(InvalidJson) && !v.postError
    // a decoded reply is accepted exactly when it succeeds with a high enough score
    ensures o.Reply? && o.body.Json? ==>
              (v.result <==> Accepts(o.body.resp, threshold)) && v.err.None? && !v.postError
    ensures v.resp == CheckSpec(postError, o).resp
  {
    var c := CheckSpec(postError, o);
    var result := if c.postError then true else Accepts(c.resp, threshold);
    Verdict(result, c.err, c.resp, c.postError)
  }

  /** logCaptchaResult: which of its three lines a call writes. */
  function Classify(success: bool, score: real): (k: LogKind)
    ensures k == ValidToken <==> success
    ensures k == LowScore <==> !success && score > 0.0
    ensures k == InvalidToken <==> !success && score <= 0.0
  {
    if success then ValidToken
    else if score > 0.0 then LowScore
    else InvalidToken
  }

  /** The decisions of successive Confirm calls sharing the postError global,
      starting from a given value of the flag, and the flag they leave behind. */
  datatype Run = Run(results: seq<bool>, postError: bool)

  function Replay(threshold: real, postError: bool, outcomes: seq<Outcome>): (run: Run)
    decreases |outcomes|
    // every call is decided as it would be with the flag clear on entry
    ensures |run.results| == |outcomes|
    ensures forall i :: 0 <= i < |outcomes| ==>
              run.results[i] == ConfirmSpec(threshold, false, outcomes[i]).result
    // the flag left behind records only whether the last round-trip failed
    ensures run.postError == if outcomes == [] then postError else outcomes[|outcomes| - 1].TransportError?
  {
    if outcomes == [] then Run([], postError)
    else
      var v := ConfirmSpec(threshold, postError, outcomes[0]);
      var rest := Replay(threshold, v.postError, outcomes[1..]);
      Run([v.result] + rest.results, rest.postError)
  }

  /** Concrete form-value lookup on url.Values: the first value of a key. */
  function FormValue(form: map<string, seq<string>>, key: string): Option<string>
  {
    if key in form && form[key] != [] then Some(form[key][0]) else None
  }

  /** The package state of recaptcha.go. */
  class Verifier {
    var privateKey: string
    var scoreThreshold: real
    var timeResponse: int64
    var postError: bool
    /** The lines written by logCaptchaResult, oldest first. */
    var log: seq<LogRecord>

    /** The globals before Init: Go's zero values. */
    constructor ()
      ensures privateKey == "" && scoreThreshold == 0.0 && timeResponse == 0
      ensures !postError && log == []
    {
      privateKey := "";
      scoreThreshold := 0.0;
      timeResponse := 0;
      postError := false;
      log := [];
    }

    method Init(key: string, score: real, time: int64)
      modifies this`privateKey, this`scoreThreshold, this`timeResponse
      ensures privateKey == key && scoreThreshold == score && timeResponse == time
      ensures postError == old(postError) && log == old(log)
    {
      privateKey := key;
      scoreThreshold := score;
      timeResponse := time;
    }

    /** The request performRecaptchaRequest sends for a token. */
    function PerformRecaptchaRequest(response: string): (req: Request)
      reads this
      ensures req.verb == "POST" && req.url == ServerName && req.contentType == FormContentType
      ensures req.form.Keys == {"secret", "response"}
      ensures FormValue(req.form, "secret") == Some(privateKey)
      ensures FormValue(req.form, "response") == Some(response)
      ensures |req.form["secret"]| == 1 && |req.form["response"]| == 1
      ensures 0 <= timeResponse as int <= MaxTimeoutSeconds ==>
                req.timeout as int == timeResponse as int * NanosPerSecond
    {
      var payload := map["secret" := [privateKey], "response" := [response]];
      Request("POST", ServerName, FormContentType, payload, ClientTimeout(timeResponse))
    }

    method Check(transport: Request -> Outcome, response: string) returns (r: Response, err: Option<Error>)
      modifies this`postError
      ensures CheckResult(r, err, postError) == CheckSpec(old(postError), transport(old(PerformRecaptchaRequest(response))))
    {
      postError := false;
      r := ZeroResponse;
      err := None;
      var outcome := transport(PerformRecaptchaRequest(response));
      if outcome.TransportError? {
        postError := true;
        err := Some(PostFailed);
        return;
      }
      match outcome.body
      case Unreadable =>
        err := Some(ReadFailed);
      case Malformed(partial) =>
        r := partial;
        err := Some(InvalidJson);
      case Json(resp) =>
        r := resp;
    }

    method ConfirmWithContext(transport: Request -> Outcome, response: string, ip: string)
      returns (result: bool, err: Option<Error>)
      modifies this`postError, this`log
      ensures var v := ConfirmSpec(scoreThreshold, old(postError), transport(old(PerformRecaptchaRequest(response))));
              result == v.result && err == v.err && postError == v.postError &&
              log == old(log) + [LogRecord(ip, Classify(result, v.resp.score), v.resp.score)]
    {
      result := false;
      var resp;
      resp, err := Check(transport, response);
      if Accepts(resp, scoreThreshold) {
        result := true;
      }
      if postError {
        result := true;
      }
      log := log + [LogRecord(ip, Classify(result, resp.score), resp.score)];
    }

    method Confirm(transport: Request -> Outcome, response: string, ip: string)
      returns (result: bool, err: Option<Error>)
      modifies this`postError, this`log
      ensures var v := ConfirmSpec(scoreThreshold, old(postError), transport(old(PerformRecaptchaRequest(response))));
              result == v.result && err == v.err && postError == v.postError &&
              log == old(log) + [LogRecord(ip, Classify(result, v.resp.score), v.resp.score)]
    {
      result, err := ConfirmWithContext(transport, response, ip);
    }
  }
}
