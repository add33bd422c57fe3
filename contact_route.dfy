/**
 * The contact API's POST handler (app/api/contact/route.ts): the request checks, the insert
 * into the contact_messages table, the notification e-mail, and the response their outcomes
 * select. The table is a field of `ContactInbox`; the database's and the mailer's outcomes
 * are parameters.
 */
module ContactApi {
  import opened Wrappers
  import opened Json
  import opened EmailRules

  /** The fields the handler reads from the JSON body; each may be absent. */
  datatype ContactBody = ContactBody(
    name: Option<string>,
    email: Option<string>,
    phone: Option<string>,
    message: Option<string>,
    subject: Option<string>)

  /** A stored contact message. */
  datatype ContactRow = ContactRow(
    id: string,
    name: string,
    email: string,
    phone: Option<string>,
    subject: Option<string>,
    message: string,
    status: string)

  /** How the notification e-mail went: sent, reported failure, or threw. */
  datatype MailOutcome = MailSent | MailFailed | MailThrew

  datatype ContactResponse =
    | Failure(status: int, error: string)
    | Submitted(status: int, id: string)

  const MissingFields := "Missing required fields: name, email, message"
  const InvalidEmail := "Invalid email format"
  const MailFailedMessage := "Failed to send notification email"
  const MailThrewMessage := "Failed to process contact form"
  const InternalError := "Internal server error"
  const EmailOnlyId := "email-only"

  /** The request passes both checks: the three required fields are truthy and the address is well formed. */
  predicate Acceptable(b: ContactBody) {
    Truthy(b.name) && Truthy(b.email) && Truthy(b.message) && ServerEmailOk(b.email.value)
  }

  /**
   * The early returns before any database or mail call: an unreadable body is 500, a falsy
   * name, email or message is 400, and an address the anchored pattern refuses is 400.
   * None means the request goes on.
   */
  function RequestCheck(body: Option<ContactBody>): (r: Option<ContactResponse>)
    ensures r.None? <==> body.Some? && Acceptable(body.value)
    ensures body.None? ==> r == Some(Failure(500, InternalError))
    ensures body.Some? && !(Truthy(body.value.name) && Truthy(body.value.email) && Truthy(body.value.message)) ==>
      r == Some(Failure(400, MissingFields))
    ensures body.Some? && Truthy(body.value.name) && Truthy(body.value.email) && Truthy(body.value.message) ==>
      !ServerEmailOk(body.value.email.value) ==> r == Some(Failure(400, InvalidEmail))
  {
    if body.None? then Some(Failure(500, InternalError))
    else
      var b := body.value;
      if !Truthy(b.name) || !Truthy(b.email) || !Truthy(b.message) then Some(Failure(400, MissingFields))
      else if !ServerEmailOk(b.email.value) then Some(Failure(400, InvalidEmail))
      else None
  }

  /** Every request the API accepts also passes the contact page's own e-mail check. */
  lemma AcceptedPassesPageCheck(b: ContactBody)
    requires Acceptable(b)
    ensures ClientEmailOk(b.email.value)
  {
    ServerImpliesClient(b.email.value);
  }

  /** The row the handler inserts for an acceptable request. */
  function RowOf(id: string, b: ContactBody): ContactRow
    requires Acceptable(b)
  {
    ContactRow(id, b.name.value, b.email.value, b.phone, b.subject, b.message.value, "new")
  }

  /**
   * The id in a successful response, `contactMessage?.id || 'email-only'`: the stored row's
   * id when the insert succeeded with a non-empty id, and 'email-only' otherwise.
   */
  function ResponseId(insertFailed: bool, newId: string): (id: string)
    ensures insertFailed ==> id == EmailOnlyId
    ensures newId == "" ==> id == EmailOnlyId
    ensures !insertFailed && newId != "" ==> id == newId
  {
    if insertFailed || newId == "" then EmailOnlyId else newId
  }

  class ContactInbox {
    /** The contact_messages table. */
    var rows: seq<ContactRow>

    constructor (rows0: seq<ContactRow>)
      ensures rows == rows0
    {
      rows := rows0;
    }

    /**
     * POST. A refused request touches nothing. An accepted one inserts its row unless the
     * insert fails (which is only logged), then the mail outcome decides: sent is 200 with
     * the row's id or 'email-only'; a reported failure or an exception is 500, with the row
     * kept if it was saved.
     */
    method Post(body: Option<ContactBody>, insertFails: bool, newId: string, mail: MailOutcome)
      returns (response: ContactResponse)
      modifies this
      ensures RequestCheck(body).Some? ==> response == RequestCheck(body).value && rows == old(rows)
      ensures RequestCheck(body).None? ==>
        rows == old(rows) + (if insertFails then [] else [RowOf(newId, body.value)])
      ensures RequestCheck(body).None? && mail == MailSent ==>
        response == Submitted(200, ResponseId(insertFails, newId))
      ensures RequestCheck(body).None? && mail == MailFailed ==> response == Failure(500, MailFailedMessage)
      ensures RequestCheck(body).None? && mail == MailThrew ==> response == Failure(500, MailThrewMessage)
    {
      var check := RequestCheck(body);
      if check.Some? {
        return check.value;
      }
      var b := body.value;
      if !insertFails {
        rows := rows + [RowOf(newId, b)];
      }
      match mail {
        case MailFailed => return Failure(500, MailFailedMessage);
        case MailThrew => return Failure(500, MailThrewMessage);
        case MailSent =>
      }
      response := Submitted(200, ResponseId(insertFails, newId));
    }
  }

  /** The address "a@b@c.d" gets past the page but is refused here. */
  lemma DoubleAtRefused(b: ContactBody)
    requires Truthy(b.name) && Truthy(b.message) && b.email == Some("a@b@c.d")
    ensures RequestCheck(Some(b)) == Some(Failure(400, InvalidEmail))
  {
    ClientDoesNotImplyServer();
  }
}
