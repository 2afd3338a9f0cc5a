/**
 * The SES notifier: it checks its configuration when built, and sends a
 * report notification as one SES e-mail whose body is HTML or text by the
 * notification's format. Address parsing and the SES client are given by
 * their outcomes.
 */
module Ses {
  import opened Wrappers
  import opened Errors
  import opened Strings
  import opened Model

  const UTF8: string := "UTF-8"

  datatype SESConfig = SESConfig(region: string, from: string, cc: seq<string>)

  /** `mail.ParseAddress`, by whether it accepts an address. */
  type AddressParser = string -> bool

  /** `aws.String`: a pointer to a string. */
  datatype StrPtr = StrPtr(value: string)

  datatype Content<T> = Content(charset: string, data: T)

  /** An e-mail body: the HTML part, the text part, or neither. */
  datatype Body = Body(html: Option<Content<Bytes>>, text: Option<Content<Bytes>>)

  datatype SendEmailInput = SendEmailInput(
    ccAddresses: seq<StrPtr>,
    toAddresses: seq<StrPtr>,
    body: Body,
    subject: Content<string>,
    source: StrPtr)

  /** The client's `SendEmail`, by its error. */
  type SendEmail = SendEmailInput -> Option<Error>

  datatype SesNotifier = SesNotifier(cfg: SESConfig, sendEmail: SendEmail)

  /** A configuration is valid when the sender is set and parses, the region is set, and every CC address parses. */
  predicate ValidConfig(cfg: SESConfig, parses: AddressParser)
  {
    && parses(cfg.from) && cfg.from != "" && cfg.region != ""
    && forall i :: 0 <= i < |cfg.cc| ==> parses(cfg.cc[i])
  }

  /** `isValidConfig`. */
  method IsValidConfig(cfg: SESConfig, parses: AddressParser) returns (ok: bool)
    ensures ok == ValidConfig(cfg, parses)
  {
    if !parses(cfg.from) || cfg.from == "" || cfg.region == "" {
      return false;
    }
    for i := 0 to |cfg.cc|
      invariant forall j :: 0 <= j < i ==> parses(cfg.cc[j])
    {
      if !parses(cfg.cc[i]) {
        return false;
      }
    }
    return true;
  }

  /** Pointers to the strings, one each, in order. */
  function Pointers(strs: seq<string>): (r: seq<StrPtr>)
    ensures |r| == |strs|
    ensures forall i :: 0 <= i < |strs| ==> r[i].value == strs[i]
  {
    if strs == [] then [] else Pointers(strs[..|strs| - 1]) + [StrPtr(strs[|strs| - 1])]
  }

  /** The strings the pointers point to. */
  function Values(ptrs: seq<StrPtr>): (r: seq<string>)
    ensures |r| == |ptrs|
  {
    if ptrs == [] then [] else Values(ptrs[..|ptrs| - 1]) + [ptrs[|ptrs| - 1].value]
  }

  /** Reading the pointers back gives the strings, in order. */
  lemma {:induction false} ValuesPointers(strs: seq<string>)
    ensures Values(Pointers(strs)) == strs
  {
    if strs != [] {
      ValuesPointers(strs[..|strs| - 1]);
      assert Pointers(strs)[..|strs| - 1] == Pointers(strs[..|strs| - 1]);
      assert strs == strs[..|strs| - 1] + [strs[|strs| - 1]];
    }
  }

  /** `stringSliceToAWSString`. */
  method StringSliceToAWSString(strs: seq<string>) returns (awsStr: seq<StrPtr>)
    ensures awsStr == Pointers(strs)
  {
    awsStr := [];
    for i := 0 to |strs|
      invariant awsStr == Pointers(strs[..i])
    {
      assert strs[..i + 1][..i] == strs[..i];
      awsStr := awsStr + [StrPtr(strs[i])];
    }
    assert strs[..|strs|] == strs;
  }

  /**
   * `buildInput`: the report's recipients as To, the configured CC, the
   * configured sender as Source, the subject and the message in UTF-8, the
   * message as the HTML body for HTML and as the text body for text;
   * `ErrUnsupportedFmt` for any other format.
   */
  function BuildInput(cfg: SESConfig, subject: string, mssg: Bytes, fmt: NotifFmt, recipients: seq<string>)
    : (r: Result<SendEmailInput, Error>)
    ensures r.Failure? <==> fmt != NotifFmtHTML && fmt != NotifFmtText
    ensures r.Failure? ==> r.error == UnsupportedFmt
    ensures r.Success? ==>
      && Values(r.value.toAddresses) == recipients && Values(r.value.ccAddresses) == cfg.cc
      && r.value.source.value == cfg.from
      && r.value.subject == Content(UTF8, subject)
      && (fmt == NotifFmtHTML ==> r.value.body == Body(Some(Content(UTF8, mssg)), None))
      && (fmt == NotifFmtText ==> r.value.body == Body(None, Some(Content(UTF8, mssg))))
  {
    ValuesPointers(recipients);
    ValuesPointers(cfg.cc);
    var content := Content(UTF8, mssg);
    var body :=
      if fmt == NotifFmtHTML then Success(Body(Some(content), None))
      else if fmt == NotifFmtText then Success(Body(None, Some(content)))
      else Failure(UnsupportedFmt);
    match body
    case Failure(e) => Failure(e)
    case Success(b) =>
      Success(SendEmailInput(Pointers(cfg.cc), Pointers(recipients), b, Content(UTF8, subject), StrPtr(cfg.from)))
  }

  /** `Notify`: build the input, then send it. */
  function Notify(n: SesNotifier, subject: string, mssg: Bytes, fmt: NotifFmt, recipients: seq<string>): Option<Error>
  {
    match BuildInput(n.cfg, subject, mssg, fmt, recipients)
    case Failure(e) => Some(e)
    case Success(input) => n.sendEmail(input)
  }

  /**
   * An unsupported format is refused with `ErrUnsupportedFmt` before
   * anything is sent: the outcome does not depend on the client.
   */
  lemma NotifyUnsupportedFmt(n: SesNotifier, send: SendEmail, subject: string, mssg: Bytes, fmt: NotifFmt,
                             recipients: seq<string>)
    requires fmt != NotifFmtHTML && fmt != NotifFmtText
    ensures Notify(n, subject, mssg, fmt, recipients) == Some(UnsupportedFmt)
    ensures Notify(n.(sendEmail := send), subject, mssg, fmt, recipients) == Some(UnsupportedFmt)
  {
  }

  /**
   * For HTML or text, `Notify` returns what sending returns, on an input
   * addressed to the recipients and carrying the subject and message.
   */
  lemma NotifySends(n: SesNotifier, subject: string, mssg: Bytes, fmt: NotifFmt, recipients: seq<string>)
    requires fmt == NotifFmtHTML || fmt == NotifFmtText
    ensures var input := BuildInput(n.cfg, subject, mssg, fmt, recipients);
      && input.Success?
      && Notify(n, subject, mssg, fmt, recipients) == n.sendEmail(input.value)
      && Values(input.value.toAddresses) == recipients
      && input.value.subject.data == subject
      && (input.value.body.html.Some? <==> fmt == NotifFmtHTML)
      && (input.value.body.text.Some? <==> fmt == NotifFmtText)
  {
  }

  /** `NewSESNotifier`: a notifier over the configuration and client, or `ErrInvalidConfig`. */
  method NewSESNotifier(cfg: SESConfig, parses: AddressParser, sendEmail: SendEmail) returns (r: Result<SesNotifier, Error>)
    ensures r.Success? <==> ValidConfig(cfg, parses)
    ensures r.Failure? ==> r.error == InvalidConfig
    ensures r.Success? ==> r.value == SesNotifier(cfg, sendEmail)
  {
    var ok := IsValidConfig(cfg, parses);
    if !ok {
      return Failure(InvalidConfig);
    }
    return Success(SesNotifier(cfg, sendEmail));
  }

  /** A configuration is refused when the sender, the region or any CC address is. */
  lemma InvalidConfigCases(cfg: SESConfig, parses: AddressParser, i: int)
    ensures cfg.from == "" || cfg.region == "" || !parses(cfg.from) ==> !ValidConfig(cfg, parses)
    ensures 0 <= i < |cfg.cc| && !parses(cfg.cc[i]) ==> !ValidConfig(cfg, parses)
  {
  }
}
