/** The coming-soon page's newsletter subscription form. */
module ComingSoon {
  import opened Wrappers
  import opened JsString
  import opened Patterns

  const InvalidEmailMessage := "Voer een geldig e-mailadres in."
  const DefaultThanks := "Bedankt! We houden je op de hoogte."
  const DefaultFailure := "Er is iets misgegaan."

  /**
   * What `await fetch(...)` followed by `await response.json()` produced:
   * a status and the `message` field of the JSON body, or an exception with
   * its message (network failure, or a body that is not JSON).
   */
  datatype Reply =
    | Answered(ok: bool, serverMessage: Option<string>)
    | Thrown(message: string)

  datatype Colour = Green | Red

  /** How the message is drawn: not at all when empty, else green when it mentions "Bedankt" and red otherwise. */
  function MessageColour(message: string): Option<Colour> {
    if message == "" then None else if Includes(message, "Bedankt") then Some(Green) else Some(Red)
  }

  /** The message a finished request leaves on screen. */
  function ReplyMessage(reply: Reply): string {
    match reply
    case Answered(ok, m) => if ok then Or(m, DefaultThanks) else Or(m, DefaultFailure)
    case Thrown(text) => text
  }

  /** Any message with "Bedankt" anywhere in it is drawn green, whatever surrounds it. */
  lemma ThanksAnywhereIsGreen(before: string, after: string)
    ensures MessageColour(before + "Bedankt" + after) == Some(Green)
  {
    IncludesInfix(before, "Bedankt", after);
  }

  /** A success without a server message is thanked in green. */
  lemma DefaultThanksIsGreen()
    ensures MessageColour(ReplyMessage(Answered(true, None))) == Some(Green)
  {
    assert ReplyMessage(Answered(true, None)) == DefaultThanks;
    assert DefaultThanks[0..7] == "Bedankt";
    assert OccursAt(DefaultThanks, "Bedankt", 0);
  }

  /** A failure without a server message is reported in red. */
  lemma DefaultFailureIsRed()
    ensures MessageColour(ReplyMessage(Answered(false, None))) == Some(Red)
  {
    assert ReplyMessage(Answered(false, None)) == DefaultFailure;
    forall i | 0 <= i <= |DefaultFailure| - 7 ensures !OccursAt(DefaultFailure, "Bedankt", i) {
      assert DefaultFailure[i] != 'B';
    }
  }

  /** The colour follows the text, not the outcome: a failure whose server message thanks is green, a success whose server message does not is red. */
  lemma ColourIgnoresOutcome()
    ensures MessageColour(ReplyMessage(Answered(false, Some("Bedankt, al ingeschreven")))) == Some(Green)
    ensures MessageColour(ReplyMessage(Answered(true, Some("OK")))) == Some(Red)
  {
    assert "Bedankt, al ingeschreven" == "" + "Bedankt" + ", al ingeschreven";
    ThanksAnywhereIsGreen("", ", al ingeschreven");
    assert !OccursAt("OK", "Bedankt", 0);
  }

  class ComingSoonPage {
    var email: string
    var message: string
    var isSubmitting: bool

    constructor ()
      ensures email == "" && message == "" && !isSubmitting
    {
      email := "";
      message := "";
      isSubmitting := false;
    }

    method EmailChange(value: string)
      modifies this
      ensures email == value && message == old(message) && isSubmitting == old(isSubmitting)
    {
      email := value;
    }

    /**
     * `handleSubmit` up to the request: an empty or malformed email is
     * refused with the fixed message and nothing is sent; otherwise the form
     * goes busy and the old message is cleared.
     */
    method BeginSubmit() returns (requested: bool)
      modifies this
      ensures requested <==> EmailValid(email)
      ensures !requested ==> message == InvalidEmailMessage && isSubmitting == old(isSubmitting)
      ensures requested ==> message == "" && isSubmitting
      ensures email == old(email)
    {
      if email == "" || !EmailValid(email) {
        message := InvalidEmailMessage;
        return false;
      }
      isSubmitting := true;
      message := "";
      return true;
    }

    /**
     * `handleSubmit` after the request: success clears the email and shows
     * the server's message or the default thanks; a failure keeps the email
     * and shows the server's or the thrown message; either way the form is
     * no longer busy.
     */
    method CompleteSubmit(reply: Reply)
      requires isSubmitting
      modifies this
      ensures !isSubmitting
      ensures message == ReplyMessage(reply)
      ensures email == if reply.Answered? && reply.ok then "" else old(email)
    {
      match reply {
        case Answered(ok, serverMessage) =>
          if !ok {
            message := Or(serverMessage, DefaultFailure);
          } else {
            email := "";
            message := Or(serverMessage, DefaultThanks);
          }
        case Thrown(text) =>
          message := text;
      }
      isSubmitting := false;
    }
  }
}
