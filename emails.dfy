// The mail helpers of modules/emails/utils.py: which sender `send_email`
// hands a message to, how `send_email_with_smtp` turns its recipient
// arguments into the SMTP envelope and the header block (the destination
// fields of section 3.6.3 of RFC 5322), which files it attaches and removes,
// and the links the account e-mails carry. Templates, MIME bodies, the SMTP
// conversation and SendGrid are outside the model; whether the server
// accepted the message is a parameter.
module Emails {
  import opened Wrappers
  import opened Text
  import opened Responses

  /** The four senders `send_email` can pick. */
  datatype Sender = SendgridQueued | SendgridNow | SmtpQueued | SmtpNow

  /** `send_email`: SendGrid only for the provider "sendgrid", everything else goes over SMTP; the task queue when the setting is on. */
  function Route(provider: string, useTaskQueue: bool): (s: Sender)
    ensures (s.SendgridQueued? || s.SendgridNow?) <==> provider == "sendgrid"
    ensures (s.SendgridQueued? || s.SmtpQueued?) <==> useTaskQueue
  {
    if provider == "sendgrid" then (if useTaskQueue then SendgridQueued else SendgridNow)
    else if useTaskQueue then SmtpQueued else SmtpNow
  }

  /** Two settings pick the same sender exactly when they agree on "sendgrid or not" and on the queue. */
  lemma RouteSeparatesSettings(p1: string, q1: bool, p2: string, q2: bool)
    ensures Route(p1, q1) == Route(p2, q2) <==> ((p1 == "sendgrid") == (p2 == "sendgrid") && q1 == q2)
  {
  }

  /** A recipient argument: one address as a string, a list of them, or `None`. */
  datatype Recipients = Address(address: string) | Addresses(list: seq<string>) | NoAddress

  /** The normalisation of lines 228-233: a string becomes a one-element list, `None` the empty list. */
  function AsList(r: Recipients): seq<string>
  {
    match r
    case Address(a) => [a]
    case Addresses(l) => l
    case NoAddress => []
  }

  datatype Header = Header(name: string, value: string)

  /** `email.utils.COMMASPACE`. */
  const COMMASPACE: string := ", "

  /** The envelope recipients (`all_emails`) and the header block of the message. */
  datatype Message = Message(envelope: seq<string>, headers: seq<Header>)

  /** The headers the code sets, in order; `withBcc` says whether a Bcc header is written. */
  function Headers(fromEmail: string, date: string, subject: string, to: seq<string>, cc: seq<string>, bcc: seq<string>, withBcc: bool): seq<Header>
  {
    [Header("From", fromEmail), Header("Date", date), Header("Subject", subject)] +
    (if |cc| > 0 then [Header("Cc", Join(cc, COMMASPACE))] else []) +
    (if withBcc && |bcc| > 0 then [Header("Bcc", Join(bcc, COMMASPACE))] else []) +
    [Header("To", Join(to + cc, COMMASPACE))]
  }

  /**
   * The message as the code builds it. A `None` recipient list makes
   * `to_emails + cc_emails` raise. The Bcc header is part of the text that
   * `sendmail` delivers to every envelope recipient.
   */
  function SmtpMessageAsWritten(fromEmail: string, date: string, subject: string, to: Recipients, cc: Recipients, bcc: Recipients): (r: Result<Message, Raised>)
    ensures r.Err? <==> to.NoAddress?
  {
    if to.NoAddress? then Err(TypeError)
    else
      var toL, ccL, bccL := AsList(to), AsList(cc), AsList(bcc);
      Ok(Message(toL + ccL + bccL, Headers(fromEmail, date, subject, toL, ccL, bccL, true)))
  }

  /** The message with blind copies kept out of the header block, as section 3.6.3 of RFC 5322 intends. */
  function SmtpMessage(fromEmail: string, date: string, subject: string, to: Recipients, cc: Recipients, bcc: Recipients): (r: Result<Message, Raised>)
    ensures r.Err? <==> to.NoAddress?
  {
    if to.NoAddress? then Err(TypeError)
    else
      var toL, ccL, bccL := AsList(to), AsList(cc), AsList(bcc);
      Ok(Message(toL + ccL + bccL, Headers(fromEmail, date, subject, toL, ccL, bccL, false)))
  }

  /** Whether a header with this name is present. */
  predicate HasHeader(headers: seq<Header>, name: string)
  {
    exists h :: h in headers && h.name == name
  }

  /**
   * Every recipient is in the envelope exactly as listed (to, then cc, then
   * bcc, the cc addresses once although they are appended to the To list);
   * the To header lists to then cc; a Cc header is present exactly when there
   * are cc addresses; the Bcc header is gone.
   */
  lemma SmtpMessageShape(fromEmail: string, date: string, subject: string, to: Recipients, cc: Recipients, bcc: Recipients)
    requires !to.NoAddress?
    ensures var m := SmtpMessage(fromEmail, date, subject, to, cc, bcc).value;
      m.envelope == AsList(to) + AsList(cc) + AsList(bcc) &&
      |m.envelope| == |AsList(to)| + |AsList(cc)| + |AsList(bcc)| &&
      m.headers[|m.headers| - 1] == Header("To", Join(AsList(to) + AsList(cc), COMMASPACE)) &&
      (HasHeader(m.headers, "Cc") <==> |AsList(cc)| > 0) &&
      !HasHeader(m.headers, "Bcc")
    ensures to.Address? ==> SmtpMessage(fromEmail, date, subject, to, cc, bcc).value.envelope[0] == to.address
  {
    var toL, ccL, bccL := AsList(to), AsList(cc), AsList(bcc);
    var hs := Headers(fromEmail, date, subject, toL, ccL, bccL, false);
    var base := [Header("From", fromEmail), Header("Date", date), Header("Subject", subject)];
    var ccPart: seq<Header> := if |ccL| > 0 then [Header("Cc", Join(ccL, COMMASPACE))] else [];
    var toPart := [Header("To", Join(toL + ccL, COMMASPACE))];
    assert hs == base + ccPart + [] + toPart;
    assert forall h :: h in hs <==> h in base || h in ccPart || h in toPart;
    if |ccL| > 0 {
      assert ccPart[0] in hs;
    }
  }

  /**
   * As written, a non-empty Bcc list is written into the header block, and
   * that one text goes to every envelope recipient: the To and Cc recipients
   * see who was sent a blind copy.
   */
  lemma BccLeaksAsWritten(fromEmail: string, date: string, subject: string, to: Recipients, cc: Recipients, bcc: Recipients)
    requires !to.NoAddress? && |AsList(bcc)| > 0
    ensures var m := SmtpMessageAsWritten(fromEmail, date, subject, to, cc, bcc).value;
      Header("Bcc", Join(AsList(bcc), COMMASPACE)) in m.headers &&
      forall a :: a in AsList(to) ==> a in m.envelope
  {
    var toL, ccL, bccL := AsList(to), AsList(cc), AsList(bcc);
    var hs := Headers(fromEmail, date, subject, toL, ccL, bccL, true);
    var base := [Header("From", fromEmail), Header("Date", date), Header("Subject", subject)];
    var ccPart: seq<Header> := if |ccL| > 0 then [Header("Cc", Join(ccL, COMMASPACE))] else [];
    var bccPart := [Header("Bcc", Join(bccL, COMMASPACE))];
    var toPart := [Header("To", Join(toL + ccL, COMMASPACE))];
    assert hs == base + ccPart + bccPart + toPart;
    assert hs[3 + |ccPart|] == bccPart[0];
  }

  /** One address in To and one in Bcc: the To recipient's copy names the blind one. */
  lemma BccLeakExample()
    ensures var m := SmtpMessageAsWritten("noreply@example.com", "date", "Hi", Address("a@example.com"), NoAddress, Address("b@example.com")).value;
      m.envelope == ["a@example.com", "b@example.com"] && Header("Bcc", "b@example.com") in m.headers
  {
    BccLeaksAsWritten("noreply@example.com", "date", "Hi", Address("a@example.com"), NoAddress, Address("b@example.com"));
  }

  /** `attachment.split('/')[-1]`: the attachment's name without its directories. */
  function AttachmentFileName(attachment: string): (r: string)
    ensures '/' !in r
  {
    AfterLast(attachment, '/')
  }

  /** The file name is what follows the last '/', or the whole path when there is none. */
  lemma {:induction false} AttachmentFileNameIsTail(attachment: string)
    ensures var r := AttachmentFileName(attachment);
      EndsWith(attachment, r) && (r == attachment || attachment[|attachment| - |r| - 1] == '/')
    decreases |attachment|
  {
    var idx := IndexOf(attachment, '/');
    if idx.Some? {
      var i := idx.value;
      var rest := attachment[i + 1..];
      AttachmentFileNameIsTail(rest);
      var r := AttachmentFileName(rest);
      assert AttachmentFileName(attachment) == r;
      var n := |attachment|;
      assert |rest| == n - i - 1;
      assert |r| <= |rest| && rest[|rest| - |r|..] == r;
      assert attachment[n - |r|..] == rest[|rest| - |r|..];
      if r == rest {
        assert n - |r| - 1 == i;
      } else {
        assert attachment[n - |r| - 1] == rest[|rest| - |r| - 1];
      }
    }
  }

  /**
   * Where one attachment is read from: the static-files finder's answer when
   * it has a (non-empty) one, else the path itself when it exists; otherwise
   * the send raises. `found` is what `finders.find` returns (a
   * `SuspiciousFileOperation` counts as not found); `existing` is what
   * `os.path.exists` accepts.
   */
  function ResolveAttachment(attachment: string, found: map<string, string>, existing: set<string>): (r: Result<string, Raised>)
    ensures r.Err? <==> (attachment !in found || found[attachment] == "") && attachment !in existing
    ensures r.Err? ==> r.error == FileNotFound("Attachment " + attachment + " not found.")
  {
    if attachment in found && found[attachment] != "" then Ok(found[attachment])
    else if attachment in existing then Ok(attachment)
    else Err(FileNotFound("Attachment " + attachment + " not found."))
  }

  /** `attachment_paths` after the attachment loop, or the first attachment that raises. */
  function AttachmentPaths(attachments: seq<string>, found: map<string, string>, existing: set<string>): Result<seq<string>, Raised>
  {
    if |attachments| == 0 then Ok([])
    else
      match AttachmentPaths(attachments[..|attachments| - 1], found, existing)
      case Err(e) => Err(e)
      case Ok(paths) =>
        match ResolveAttachment(attachments[|attachments| - 1], found, existing)
        case Err(e) => Err(e)
        case Ok(p) => Ok(paths + [p])
  }

  /** The paths are the attachments resolved one by one, or the error of the first one that cannot be. */
  lemma {:induction false} AttachmentPathsResolveEach(attachments: seq<string>, found: map<string, string>, existing: set<string>)
    ensures var r := AttachmentPaths(attachments, found, existing);
      r.Ok? ==> (|r.value| == |attachments| &&
        forall i :: 0 <= i < |attachments| ==> ResolveAttachment(attachments[i], found, existing) == Ok(r.value[i]))
    ensures var r := AttachmentPaths(attachments, found, existing);
      r.Err? <==> exists i :: 0 <= i < |attachments| && ResolveAttachment(attachments[i], found, existing).Err?
  {
    if |attachments| > 0 {
      var n := |attachments| - 1;
      var init := attachments[..n];
      AttachmentPathsResolveEach(init, found, existing);
      assert forall i :: 0 <= i < n ==> init[i] == attachments[i];
      if AttachmentPaths(init, found, existing).Err? {
        var i :| 0 <= i < n && ResolveAttachment(init[i], found, existing).Err?;
        assert ResolveAttachment(attachments[i], found, existing).Err?;
      }
    }
  }

  lemma AttachmentPathsSnoc(attachments: seq<string>, a: string, found: map<string, string>, existing: set<string>)
    ensures AttachmentPaths(attachments + [a], found, existing) ==
      match AttachmentPaths(attachments, found, existing)
      case Err(e) => Err(e)
      case Ok(paths) =>
        match ResolveAttachment(a, found, existing)
        case Err(e) => Err(e)
        case Ok(p) => Ok(paths + [p])
  {
    assert (attachments + [a])[..|attachments|] == attachments;
  }

  /** The file names of the attachments, in order. */
  function FileNames(attachments: seq<string>): (r: seq<string>)
    ensures |r| == |attachments| && forall i :: 0 <= i < |attachments| ==> r[i] == AttachmentFileName(attachments[i])
  {
    seq(|attachments|, i requires 0 <= i < |attachments| => AttachmentFileName(attachments[i]))
  }

  /** What a call of `send_email_with_smtp` comes to. */
  datatype SmtpOutcome = SmtpOutcome(sent: bool, message: Message, fileNames: seq<string>, removed: seq<string>)

  /**
   * The first position whose path already came earlier in the list: the
   * `os.remove` that finds its file gone.
   */
  function FirstRepeat(paths: seq<string>): (r: Option<nat>)
    ensures r.Some? ==> r.value < |paths| && paths[r.value] in paths[..r.value]
    ensures r.Some? ==> forall i, j :: 0 <= i < j < r.value ==> paths[i] != paths[j]
    ensures r.None? <==> forall i, j :: 0 <= i < j < |paths| ==> paths[i] != paths[j]
  {
    if |paths| == 0 then None
    else
      var init := paths[..|paths| - 1];
      match FirstRepeat(init)
      case Some(k) =>
        assert init[..k] == paths[..k];
        Some(k)
      case None =>
        if paths[|paths| - 1] in init then
          assert paths[..|paths| - 1] == init;
          Some(|paths| - 1)
        else None
  }

  /** The `FileNotFoundError` of `os.remove` for a path already removed. */
  function RemovalError(path: string): Raised
  {
    FileNotFound("[Errno 2] No such file or directory: '" + path + "'")
  }

  /**
   * `send_email_with_smtp` (with the header block corrected): a missing To
   * list raises first, then a missing attachment. With
   * `remove_attachments_after_send`, every attachment read is removed on
   * either path; when two attachments resolve to the same path, its second
   * removal raises, and so does the `except` branch's removal loop, which
   * starts again from the first path: after a delivery that one is already
   * gone, otherwise the repeated one is. Else the answer is whether the
   * server took the message (`delivered`).
   */
  function SendWithSmtp(fromEmail: string, date: string, subject: string, to: Recipients, cc: Recipients, bcc: Recipients,
                        attachments: seq<string>, found: map<string, string>, existing: set<string>,
                        removeAfterSend: bool, delivered: bool): (r: Result<SmtpOutcome, Raised>)
    ensures to.NoAddress? ==> r == Err(TypeError)
    ensures !to.NoAddress? && AttachmentPaths(attachments, found, existing).Err? ==> r == Err(AttachmentPaths(attachments, found, existing).error)
    ensures !to.NoAddress? && AttachmentPaths(attachments, found, existing).Ok? ==>
      var paths := AttachmentPaths(attachments, found, existing).value;
      (r.Err? <==> removeAfterSend && attachments != [] && FirstRepeat(paths).Some?) &&
      (r.Err? ==> r == Err(RemovalError(if delivered then paths[0] else paths[FirstRepeat(paths).value])))
    ensures r.Ok? ==> r.value.sent == delivered && r.value.message == SmtpMessage(fromEmail, date, subject, to, cc, bcc).value
    ensures r.Ok? ==> (|r.value.fileNames| == |attachments| &&
      forall i :: 0 <= i < |attachments| ==> r.value.fileNames[i] == AttachmentFileName(attachments[i]))
    ensures r.Ok? ==> (r.value.removed == [] <==> !removeAfterSend || attachments == [])
    ensures r.Ok? && removeAfterSend && attachments != [] ==> r.value.removed == AttachmentPaths(attachments, found, existing).value
    ensures r.Ok? ==> forall i, j :: 0 <= i < j < |r.value.removed| ==> r.value.removed[i] != r.value.removed[j]
  {
    match SmtpMessage(fromEmail, date, subject, to, cc, bcc)
    case Err(e) => Err(e)
    case Ok(m) =>
      match AttachmentPaths(attachments, found, existing)
      case Err(e) => Err(e)
      case Ok(paths) =>
        AttachmentPathsResolveEach(attachments, found, existing);
        if removeAfterSend && |attachments| > 0 && FirstRepeat(paths).Some? then
          Err(RemovalError(if delivered then paths[0] else paths[FirstRepeat(paths).value]))
        else
          Ok(SmtpOutcome(delivered, m, FileNames(attachments), if removeAfterSend && |attachments| > 0 then paths else []))
  }

  /** Two attachments found at the same path: after a delivery, the removal raises on that path. */
  lemma SamePathTwiceRaises(fromEmail: string, date: string, subject: string, to: Recipients)
    requires !to.NoAddress?
    ensures SendWithSmtp(fromEmail, date, subject, to, NoAddress, NoAddress, ["a.pdf", "b.pdf"], map["a.pdf" := "/tmp/x", "b.pdf" := "/tmp/x"], {}, true, true)
      == Err(RemovalError("/tmp/x"))
  {
    var found := map["a.pdf" := "/tmp/x", "b.pdf" := "/tmp/x"];
    AttachmentPathsResolveEach(["a.pdf", "b.pdf"], found, {});
    assert ResolveAttachment("a.pdf", found, {}) == Ok("/tmp/x");
    assert ResolveAttachment("b.pdf", found, {}) == Ok("/tmp/x");
    var paths := AttachmentPaths(["a.pdf", "b.pdf"], found, {}).value;
    assert paths[1] in paths[..1];
  }

  /** Whether the server took the message changes only the answer, never which files are removed. */
  lemma RemovalIgnoresDelivery(fromEmail: string, date: string, subject: string, to: Recipients, cc: Recipients, bcc: Recipients,
                               attachments: seq<string>, found: map<string, string>, existing: set<string>, removeAfterSend: bool)
    ensures var ok := SendWithSmtp(fromEmail, date, subject, to, cc, bcc, attachments, found, existing, removeAfterSend, true);
      var failed := SendWithSmtp(fromEmail, date, subject, to, cc, bcc, attachments, found, existing, removeAfterSend, false);
      ok.Ok? == failed.Ok? && (ok.Ok? ==> ok.value.removed == failed.value.removed && ok.value.sent && !failed.value.sent)
  {
  }

  /** The attachment loop of `send_email_with_smtp`: the paths read (or the first error) and the attachments' file names. */
  method ResolveAttachments(attachments: seq<string>, found: map<string, string>, existing: set<string>) returns (r: Result<seq<string>, Raised>, fileNames: seq<string>)
    ensures r == AttachmentPaths(attachments, found, existing)
    ensures r.Ok? ==> fileNames == FileNames(attachments)
  {
    var attachmentPaths := [];
    fileNames := [];
    var i := 0;
    while i < |attachments|
      invariant 0 <= i <= |attachments|
      invariant AttachmentPaths(attachments[..i], found, existing) == Ok(attachmentPaths)
      invariant |fileNames| == i && forall j :: 0 <= j < i ==> fileNames[j] == AttachmentFileName(attachments[j])
    {
      var attachment := attachments[i];
      AttachmentPathsSnoc(attachments[..i], attachment, found, existing);
      assert attachments[..i + 1] == attachments[..i] + [attachment];
      var attachmentPath: Option<string> := if attachment in found && found[attachment] != "" then Some(found[attachment]) else None;
      if attachmentPath.None? {
        if attachment !in existing {
          ErrorStays(attachments, i + 1, found, existing);
          return Err(FileNotFound("Attachment " + attachment + " not found.")), fileNames;
        }
        attachmentPath := Some(attachment);
      }
      fileNames := fileNames + [AttachmentFileName(attachment)];
      attachmentPaths := attachmentPaths + [attachmentPath.value];
      i := i + 1;
    }
    assert attachments[..i] == attachments;
    r := Ok(attachmentPaths);
  }

  /** `send_email_with_smtp`, step by step, with the header block corrected. */
  method SendEmailWithSmtp(fromEmail: string, date: string, subject: string, toEmails: Recipients, ccEmails: Recipients, bccEmails: Recipients,
                           attachments: seq<string>, found: map<string, string>, existing: set<string>,
                           removeAfterSend: bool, delivered: bool) returns (r: Result<SmtpOutcome, Raised>)
    ensures r == SendWithSmtp(fromEmail, date, subject, toEmails, ccEmails, bccEmails, attachments, found, existing, removeAfterSend, delivered)
  {
    if toEmails.NoAddress? {
      return Err(TypeError);
    }
    var to := AsList(toEmails);
    var cc := AsList(ccEmails);
    var bcc := AsList(bccEmails);
    var allEmails := to + cc + bcc;
    var base := [Header("From", fromEmail), Header("Date", date), Header("Subject", subject)];
    var headers := base;
    ghost var ccPart: seq<Header> := [];
    if |cc| > 0 {
      headers := headers + [Header("Cc", Join(cc, COMMASPACE))];
      ccPart := [Header("Cc", Join(cc, COMMASPACE))];
      to := to + cc;
    } else {
      assert to + cc == to;
    }
    headers := headers + [Header("To", Join(to, COMMASPACE))];
    assert to == AsList(toEmails) + cc;
    assert headers == base + ccPart + [] + [Header("To", Join(to, COMMASPACE))];
    assert headers == Headers(fromEmail, date, subject, AsList(toEmails), cc, bcc, false);
    assert Message(allEmails, headers) == SmtpMessage(fromEmail, date, subject, toEmails, ccEmails, bccEmails).value;
    var paths, fileNames := ResolveAttachments(attachments, found, existing);
    match paths {
      case Err(e) =>
        r := Err(e);
      case Ok(attachmentPaths) =>
        AttachmentPathsResolveEach(attachments, found, existing);
        var repeat := FirstRepeat(attachmentPaths);
        if removeAfterSend && |attachments| > 0 && repeat.Some? {
          r := Err(RemovalError(if delivered then attachmentPaths[0] else attachmentPaths[repeat.value]));
        } else {
          var removed := if removeAfterSend && |attachments| > 0 then attachmentPaths else [];
          r := Ok(SmtpOutcome(delivered, Message(allEmails, headers), fileNames, removed));
        }
    }
  }

  /** Once a prefix of the attachments raises, the whole list raises the same. */
  lemma {:induction false} ErrorStays(attachments: seq<string>, n: nat, found: map<string, string>, existing: set<string>)
    requires n <= |attachments| && AttachmentPaths(attachments[..n], found, existing).Err?
    ensures AttachmentPaths(attachments, found, existing) == AttachmentPaths(attachments[..n], found, existing)
    decreases |attachments| - n
  {
    if n < |attachments| {
      AttachmentPathsSnoc(attachments[..n], attachments[n], found, existing);
      assert attachments[..n + 1] == attachments[..n] + [attachments[n]];
      ErrorStays(attachments, n + 1, found, existing);
    } else {
      assert attachments[..n] == attachments;
    }
  }

  /** Python truthiness of an optional string. */
  predicate Truthy(s: Option<string>)
  {
    s.Some? && s.value != ""
  }

  /** The link of `send_user_forgot_password_email` and `send_user_activation_email`: the domain (else `PLATFORM_URL`) and the reversed path. */
  function AccountLink(currentDomain: Option<string>, platformUrl: string, relativeUrl: string): (r: string)
    ensures Truthy(currentDomain) ==> r == currentDomain.value + relativeUrl
    ensures !Truthy(currentDomain) ==> r == platformUrl + relativeUrl
  {
    (if Truthy(currentDomain) then currentDomain.value else platformUrl) + relativeUrl
  }

  /** A link always ends with the reversed path, after a non-empty domain when one was given. */
  lemma AccountLinkEndsWithPath(currentDomain: Option<string>, platformUrl: string, relativeUrl: string)
    ensures EndsWith(AccountLink(currentDomain, platformUrl, relativeUrl), relativeUrl)
    ensures Truthy(currentDomain) ==> |AccountLink(currentDomain, platformUrl, relativeUrl)| > |relativeUrl|
  {
    var r := AccountLink(currentDomain, platformUrl, relativeUrl);
    assert r[|r| - |relativeUrl|..] == relativeUrl;
  }
}
