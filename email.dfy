/**
 * `sendContactEmail` of src/lib/email.ts: the contact form's validation
 * guards, the two sends (to the support address, then a confirmation to the
 * sender) and the mapping of every outcome to a result record. The sends
 * themselves are abstract: their outcomes are parameters, and the method
 * reports which mails it handed over, in order.
 */
module Email {
  import opened Wrappers
  import opened JsString

  const RequiredFieldsMessage: string := "Todos los campos son requeridos"
  const InvalidEmailMessage: string := "Email inválido"
  const AdminSendMessage: string := "Error al enviar el mensaje al administrador"
  /** Used by the `catch` when the caught error has an empty message. */
  const FallbackMessage: string := "Error al enviar el mensaje"

  const SupportAddress: string := "soporte@jefree.es"
  const ConfirmationSubject: string := "¡Hemos recibido tu mensaje!"

  /** `EmailResponse`. */
  datatype EmailResponse = EmailResponse(success: bool, messageId: Option<string>, error: Option<string>)

  /**
   * What one `resend.emails.send` call does: it delivers (with the id of the
   * created mail, when the reply has one), it answers with an `error`, or the
   * call itself throws.
   */
  datatype SendOutcome = Delivered(id: Option<string>) | Refused | Threw(message: string)

  /** A mail handed to the sending service (the HTML body is not modelled). */
  datatype Mail = Mail(to: string, replyTo: Option<string>, subject: string)

  // ---------------------------------------------------------------------------
  // The address check: /^[^\s@]+@[^\s@]+\.[^\s@]+$/
  // ---------------------------------------------------------------------------

  /** A character of the class `[^\s@]`. */
  predicate PartChar(c: char) {
    !IsWhiteSpace(c) && c != '@'
  }

  /** A match of `[^\s@]+`. */
  predicate Part(s: string) {
    |s| > 0 && forall k :: 0 <= k < |s| ==> PartChar(s[k])
  }

  /**
   * `emailRegex.test(s)`: `s` splits at an '@' (index `i`) and a later '.'
   * (index `j`) into three runs of `[^\s@]+`.
   */
  predicate MatchesEmailPattern(s: string) {
    exists i, j :: 0 <= i < |s| && i < j < |s| && s[i] == '@' && s[j] == '.'
                   && Part(s[..i]) && Part(s[i + 1..j]) && Part(s[j + 1..])
  }

  /**
   * The same set of strings described by their shape: no white space at all,
   * exactly one '@' and not at the start, and some '.' after the '@' that is
   * neither right after it nor the last character.
   */
  predicate EmailShape(s: string) {
    && (forall k :: 0 <= k < |s| ==> !IsWhiteSpace(s[k]))
    && exists a :: 0 < a < |s| && s[a] == '@'
                   && (forall k :: 0 <= k < |s| && s[k] == '@' ==> k == a)
                   && (exists j :: a + 1 < j < |s| - 1 && s[j] == '.')
  }

  /** The regular expression accepts exactly the strings of that shape. */
  lemma EmailPatternIffShape(s: string)
    ensures MatchesEmailPattern(s) <==> EmailShape(s)
  {
    if MatchesEmailPattern(s) {
      PatternHasShape(s);
    }
    if EmailShape(s) {
      ShapeMatchesPattern(s);
    }
  }

  lemma PatternHasShape(s: string)
    requires MatchesEmailPattern(s)
    ensures EmailShape(s)
  {
    var i, j :| 0 <= i < |s| && i < j < |s| && s[i] == '@' && s[j] == '.'
                && Part(s[..i]) && Part(s[i + 1..j]) && Part(s[j + 1..]);
    forall k | 0 <= k < |s| && k != i && k != j
      ensures PartChar(s[k])
    {
      if k < i {
        assert s[k] == s[..i][k];
      } else if k < j {
        assert s[k] == s[i + 1..j][k - i - 1];
      } else {
        assert s[k] == s[j + 1..][k - j - 1];
      }
    }
    assert |s[..i]| > 0 && |s[i + 1..j]| > 0 && |s[j + 1..]| > 0;
    assert i + 1 < j < |s| - 1;
  }

  lemma ShapeMatchesPattern(s: string)
    requires EmailShape(s)
    ensures MatchesEmailPattern(s)
  {
    var a :| 0 < a < |s| && s[a] == '@'
             && (forall k :: 0 <= k < |s| && s[k] == '@' ==> k == a)
             && (exists j :: a + 1 < j < |s| - 1 && s[j] == '.');
    var j :| a + 1 < j < |s| - 1 && s[j] == '.';
    var local, domain, top := s[..a], s[a + 1..j], s[j + 1..];
    assert Part(local) by {
      forall k | 0 <= k < |local| ensures PartChar(local[k]) {
        assert local[k] == s[k];
      }
    }
    assert Part(domain) by {
      forall k | 0 <= k < |domain| ensures PartChar(domain[k]) {
        assert domain[k] == s[a + 1 + k];
      }
    }
    assert Part(top) by {
      forall k | 0 <= k < |top| ensures PartChar(top[k]) {
        assert top[k] == s[j + 1 + k];
      }
    }
  }

  /** An address that starts or ends with white space never matches. */
  lemma SurroundingWhiteSpaceRejected(s: string)
    requires |s| > 0 && (IsWhiteSpace(s[0]) || IsWhiteSpace(s[|s| - 1]))
    ensures !MatchesEmailPattern(s)
  {
    EmailPatternIffShape(s);
  }

  /**
   * The format check sees the untrimmed address: one valid address with a
   * leading space passes the emptiness check and fails the format check.
   */
  lemma PaddedAddressFailsFormatOnly(e: string)
    requires MatchesEmailPattern(e)
    ensures !Blank(" " + e) && !MatchesEmailPattern(" " + e)
  {
    var p := " " + e;
    SurroundingWhiteSpaceRejected(p);
    EmailPatternIffShape(e);
    var a :| 0 < a < |e| && e[a] == '@';
    assert p[a + 1] == e[a];
  }

  // ---------------------------------------------------------------------------
  // sendContactEmail
  // ---------------------------------------------------------------------------

  /** The mail to the support address, with the sender as reply-to. */
  function AdminMail(name: string, email: string): Mail {
    Mail(SupportAddress, Some(email), "Nuevo mensaje de contacto de " + name)
  }

  /** The confirmation mail to the sender. */
  function ConfirmationMail(email: string): Mail {
    Mail(email, None, ConfirmationSubject)
  }

  /** The result record the `catch` builds from an error's message. */
  function Failure(message: string): (r: EmailResponse)
    ensures !r.success && r.messageId == None && r.error.Some? && r.error.value != ""
    ensures message != "" ==> r.error == Some(message)
    ensures message == "" ==> r.error == Some(FallbackMessage)
  {
    EmailResponse(false, None, Some(if message == "" then FallbackMessage else message))
  }

  /** The three form fields pass the emptiness check. */
  predicate FieldsPresent(name: string, email: string, message: string) {
    !Blank(name) && !Blank(email) && !Blank(message)
  }

  /** The `trim()` check of the three fields is `FieldsPresent`. */
  lemma TrimmedFieldsPresent(name: string, email: string, message: string)
    ensures (Trim(name) == "" || Trim(email) == "" || Trim(message) == "") <==> !FieldsPresent(name, email, message)
  {
    TrimEmptyIffBlank(name);
    TrimEmptyIffBlank(email);
    TrimEmptyIffBlank(message);
  }

  /**
   * `sendContactEmail(name, email, message)`, with `adminSend` and `userSend`
   * the outcomes of the two sends. Nothing is sent unless both checks pass;
   * the result is a success exactly when the admin mail was delivered and the
   * confirmation send did not throw (a confirmation answered with an error
   * does not matter); every failure carries a non-empty message.
   */
  method SendContactEmail(name: string, email: string, message: string,
                          adminSend: SendOutcome, userSend: SendOutcome)
    returns (response: EmailResponse, sent: seq<Mail>)
    ensures !FieldsPresent(name, email, message) ==>
              response == Failure(RequiredFieldsMessage) && sent == []
    ensures FieldsPresent(name, email, message) && !MatchesEmailPattern(email) ==>
              response == Failure(InvalidEmailMessage) && sent == []
    ensures sent != [] ==> FieldsPresent(name, email, message) && MatchesEmailPattern(email)
    ensures |sent| <= 2
    ensures sent != [] ==> sent[0] == AdminMail(name, email)
    ensures |sent| == 2 <==> FieldsPresent(name, email, message) && MatchesEmailPattern(email) && adminSend.Delivered?
    ensures |sent| == 2 ==> sent[1] == ConfirmationMail(email)
    ensures sent != [] && adminSend.Refused? ==> response == Failure(AdminSendMessage)
    ensures sent != [] && adminSend.Threw? ==> response == Failure(adminSend.message)
    ensures |sent| == 2 && userSend.Threw? ==> response == Failure(userSend.message)
    ensures response.success <==>
              FieldsPresent(name, email, message) && MatchesEmailPattern(email)
              && adminSend.Delivered? && !userSend.Threw?
    ensures response.success ==> response == EmailResponse(true, adminSend.id, None)
    ensures !response.success ==> response.error.Some? && response.error.value != ""
  {
    TrimmedFieldsPresent(name, email, message);
    if Trim(name) == "" || Trim(email) == "" || Trim(message) == "" {
      return Failure(RequiredFieldsMessage), [];
    }
    if !MatchesEmailPattern(email) {
      return Failure(InvalidEmailMessage), [];
    }
    sent := [AdminMail(name, email)];
    match adminSend
    case Threw(m) =>
      return Failure(m), sent;
    case Refused =>
      return Failure(AdminSendMessage), sent;
    case Delivered(id) =>
      sent := sent + [ConfirmationMail(email)];
      if userSend.Threw? {
        return Failure(userSend.message), sent;
      }
      response := EmailResponse(true, id, None);
  }
}
