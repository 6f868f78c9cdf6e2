/** Pieces every component shares: the snackbar it reports outcomes in, and how it
    reads the message of a rejected request. */
module Ui {
  import opened Js

  datatype Severity = Info | Success | Error

  /** `{ open, message, severity }` as the components keep it. */
  datatype Snackbar = Snackbar(open: bool, message: string, severity: Severity)

  /** The initial, closed snackbar. */
  const Closed := Snackbar(false, "", Info)

  function Show(message: string, severity: Severity): Snackbar {
    Snackbar(true, message, severity)
  }

  /** A rejected request as the handlers read it: `err.response?.data?.message` and
      `err.message`. */
  datatype Failure = Failure(responseMessage: Text, message: Text)

  /** `err.response?.data?.message || err.message || fallback`. */
  function FailureMessage(err: Failure, fallback: string): (r: string)
    ensures fallback != "" ==> r != ""
    ensures Truthy(err.responseMessage) ==> r == err.responseMessage.value
    ensures !Truthy(err.responseMessage) && Truthy(err.message) ==> r == err.message.value
    ensures !Truthy(err.responseMessage) && !Truthy(err.message) ==> r == fallback
  {
    var candidates := [err.responseMessage, err.message];
    assert !Truthy(candidates[0]) ==> NoneTruthyBefore(candidates, 1);
    assert !Truthy(candidates[0]) && !Truthy(candidates[1]) ==> NoneTruthyBefore(candidates, 2);
    FirstTruthy(candidates, fallback)
  }
}
