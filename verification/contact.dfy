/**
 * The contact form: a submission with an empty field is turned away with a
 * warning; a complete one is composed into exactly one email and handed to
 * the mail sender, whose success is decided outside the script.
 */
module Contact {
  import opened Text

  const Recipient: string := "farhunhazard@gmail.com"

  datatype Email = Email(subject: string, sender: string, recipient: string, body: string)

  /** What the visitor sees: the fill-in warning, the thank-you note, or the failure message. */
  datatype Outcome = MissingFields | Sent | SendFailed

  /** One call of the mail sender, with the three form fields it is given. */
  datatype SendRequest = SendRequest(name: string, senderEmail: string, message: string)

  /** The outcome and every call of the mail sender, in order. */
  datatype Submission = Submission(outcome: Outcome, attempts: seq<SendRequest>)

  const SubjectHead: string := "\U{1F4E9} New Message from "
  const SubjectTail: string := " \U{2014} FarhunVerse Portfolio"
  const BodyHead: string :=
    "\nHey Farhun \U{1F44B},\n\nYou just got a new message from your FarhunVerse portfolio site!\n\n\U{1F9D1} Name: "
  const BodyAfterName: string := "\n\U{1F4E7} Email: "
  const BodyAfterEmail: string := "\n\n\U{1F4AC} Message:\n"
  const BodyTail: string :=
    "\n\n----------------------------\nThis email was automatically sent from your Streamlit portfolio.\n                "

  /** A template with three holes, filled in order. */
  function Fill(head: string, afterFirst: string, afterSecond: string, tail: string,
                first: string, second: string, third: string): string
  {
    head + first + afterFirst + second + afterSecond + third + tail
  }

  /**
   * The message `send_email` builds; `account` is the configured sending
   * account. It goes to the site owner, and carries the name in its subject
   * and the three fields verbatim in its body.
   */
  function Compose(request: SendRequest, account: string): (email: Email)
    ensures email.recipient == Recipient && email.sender == account
    ensures Contains(email.subject, request.name)
    ensures Contains(email.body, request.name)
    ensures Contains(email.body, request.senderEmail)
    ensures Contains(email.body, request.message)
  {
    FillKeepsHoles(BodyHead, BodyAfterName, BodyAfterEmail, BodyTail, request.name, request.senderEmail, request.message);
    ContainsInfix(SubjectHead, request.name, SubjectTail);
    Email(SubjectHead + request.name + SubjectTail,
          account,
          Recipient,
          Fill(BodyHead, BodyAfterName, BodyAfterEmail, BodyTail, request.name, request.senderEmail, request.message))
  }

  /**
   * Handling a submitted form; `delivered` is whether the mail sender reported
   * success. The sender is called at most once, only with the form's fields,
   * and the visitor is thanked only after a successful send.
   */
  function SubmitContact(name: string, senderEmail: string, message: string, delivered: bool): (r: Submission)
    ensures |r.attempts| <= 1
    ensures forall a :: a in r.attempts ==> a == SendRequest(name, senderEmail, message)
    ensures r.outcome == Sent ==> delivered && |r.attempts| == 1
  {
    if name == "" || senderEmail == "" || message == "" then Submission(MissingFields, [])
    else Submission(if delivered then Sent else SendFailed, [SendRequest(name, senderEmail, message)])
  }

  /**
   * The mail sender is not called when any field is empty, and is called
   * exactly once, with the three fields, otherwise; the visitor is thanked
   * only when all fields are filled and the sender reported success.
   */
  lemma EmptyFieldBlocksSending(name: string, senderEmail: string, message: string, delivered: bool)
    ensures var r := SubmitContact(name, senderEmail, message, delivered);
            && (|r.attempts| == 0 <==> name == "" || senderEmail == "" || message == "")
            && (|r.attempts| != 0 ==> r.attempts == [SendRequest(name, senderEmail, message)])
            && (r.outcome == MissingFields <==> |r.attempts| == 0)
            && (r.outcome == Sent <==> |r.attempts| == 1 && delivered)
  {
  }

  /** Each hole of a filled template occurs in the result, whatever the fixed pieces are. */
  lemma FillKeepsHoles(head: string, afterFirst: string, afterSecond: string, tail: string,
                       first: string, second: string, third: string)
    ensures var text := Fill(head, afterFirst, afterSecond, tail, first, second, third);
            Contains(text, first) && Contains(text, second) && Contains(text, third)
  {
    var text := Fill(head, afterFirst, afterSecond, tail, first, second, third);
    assert text == head + first + (afterFirst + second + afterSecond + third + tail);
    ContainsInfix(head, first, afterFirst + second + afterSecond + third + tail);
    assert text == (head + first + afterFirst) + second + (afterSecond + third + tail);
    ContainsInfix(head + first + afterFirst, second, afterSecond + third + tail);
    assert text == (head + first + afterFirst + second + afterSecond) + third + tail;
    ContainsInfix(head + first + afterFirst + second + afterSecond, third, tail);
  }

}
