/**
 * The card reader as the scripts see it: a source of answers and a
 * recorder of the calls made to it, plus `poll_for_tag`, the two-phase
 * request/anticollision check.
 */
module Reader {
  import opened Types
  import Retry

  /**
   * A call issued to the reader. Authentication is always AUTHENT1A
   * (key A) in this code, so the key type is not recorded.
   */
  datatype Call =
    | Request
    | Anticoll
    | SelectTag(uid: seq<byte>)
    | AuthKeyA(block: nat, key: seq<byte>, uid: seq<byte>)
    | WriteBlock(block: nat, data: seq<byte>)
    | StopCrypto

  /** The exceptions the core raises or sees raised. */
  datatype Fault =
    | RequestError      // `poll_for_tag`: `request()` reported an error
    | AnticollError     // `poll_for_tag`: `anticoll()` reported an error
    | DriverError       // an exception from inside the driver (auth, write, ...)

  /** The factory key, six 0xFF bytes. */
  const DefaultKey: seq<byte> := [0xFF, 0xFF, 0xFF, 0xFF, 0xFF, 0xFF]

  /** What the reader answers to one poll: request's error flag, then anticoll's error flag and uid. */
  datatype PollAnswer = PollAnswer(requestError: bool, anticollError: bool, rawUid: seq<byte>)

  /** One call of `poll_for_tag`: its outcome and the reader calls it issued. */
  datatype Polled = Polled(outcome: Attempt<seq<byte>, Fault>, calls: seq<Call>)

  function PollForTag(a: PollAnswer): (r: Polled)
    ensures r.outcome.Returned? <==> !a.requestError && !a.anticollError
    ensures r.outcome.Returned? ==> r.outcome.value == a.rawUid
    ensures a.requestError ==> r.outcome == Raised(RequestError) && Anticoll !in r.calls
    ensures !a.requestError && a.anticollError ==> r.outcome == Raised(AnticollError)
    ensures r.calls == [Request] || r.calls == [Request, Anticoll]
  {
    if a.requestError then Polled(Raised(RequestError), [Request])
    else if a.anticollError then Polled(Raised(AnticollError), [Request, Anticoll])
    else Polled(Returned(a.rawUid), [Request, Anticoll])
  }

  /** `poll_for_tag` as the operation the retry loop calls, attempt by attempt. */
  function PollAttempts(answers: nat -> PollAnswer): nat -> Attempt<seq<byte>, Fault> {
    k => PollForTag(answers(k)).outcome
  }

  /** The reader calls made by the first n polls. */
  function PollTrace(answers: nat -> PollAnswer, n: nat): (r: seq<Call>)
    ensures forall i :: 0 <= i < |r| ==> r[i] == Request || r[i] == Anticoll
    ensures n > 0 ==> r != [] && r[0] == Request
  {
    if n == 0 then [] else PollTrace(answers, n - 1) + PollForTag(answers(n - 1)).calls
  }

  /** The calls made by `n` attempts of an operation that issues `c` once per attempt. */
  function Repeated(c: Call, n: nat): (r: seq<Call>)
    ensures |r| == n && forall i :: 0 <= i < n ==> r[i] == c
  {
    Copies(c, n)
  }

  /** A retried poll returns a uid only when, on that call, neither phase reported an error. */
  lemma RetriedPollReturns(answers: nat -> PollAnswer)
    ensures var r := Retry.Retried(PollAttempts(answers), Retry.MaxRetries);
      r.result.Returned? ==>
        var a := answers(r.calls - 1);
        !a.requestError && !a.anticollError && r.result.value == a.rawUid
  {
  }
}
