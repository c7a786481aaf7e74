/**
 * The SMTP mail service (pkg/services/email_service.go): the configuration
 * check, the assembly of a message from five headers and a body, and the
 * bulk send that tries every recipient. Reading the environment, template
 * files and the SMTP exchange itself are outside the model: the template
 * renderer and the delivery are functions the service is given, and the
 * order in which Go walks the header map is a parameter.
 */
module Email {

  import opened Wrappers
  import opened Strings
  import opened RssArticle

  /** The six settings, read from `SMTP_HOST` … `SMTP_FROM_NAME`. */
  datatype EmailConfig = EmailConfig(smtpHost: string, smtpPort: string, smtpUsername: string,
                                     smtpPassword: string, fromEmail: string, fromName: string)

  /** A template value: Go passes `interface{}`; the values the services put there are text, numbers and article lists. */
  datatype TemplateValue = Text(text: string) | Number(number: int) | ArticleList(articles: seq<Article>)

  /** One mail. */
  datatype EmailData = EmailData(toEmail: string, toName: string, subject: string, templateName: string,
                                 templateData: map<string, TemplateValue>, plainTextBody: string)

  /** A setting's environment variable and its value. */
  datatype Setting = Setting(env: string, value: string)

  /** The settings in the order `validateConfig` checks them. */
  function Settings(c: EmailConfig): (r: seq<Setting>)
    ensures |r| == 6
  {
    [Setting("SMTP_HOST", c.smtpHost), Setting("SMTP_PORT", c.smtpPort),
     Setting("SMTP_USERNAME", c.smtpUsername), Setting("SMTP_PASSWORD", c.smtpPassword),
     Setting("SMTP_FROM_EMAIL", c.fromEmail), Setting("SMTP_FROM_NAME", c.fromName)]
  }

  /** The error text for a missing setting. */
  function NotSet(env: string): string {
    env + " is not set"
  }

  /**
   * `validateConfig`: the error for the first setting left empty, if any,
   * which is `FirstMissing` over the settings in the order they are checked.
   */
  function ValidateConfig(c: EmailConfig): (r: Option<string>)
    ensures r == FirstMissing(Settings(c))
  {
    var s := Settings(c);
    var s1 := s[1..];
    var s2 := s1[1..];
    var s3 := s2[1..];
    var s4 := s3[1..];
    var s5 := s4[1..];
    assert s5[1..] == [];
    assert s[0] == Setting("SMTP_HOST", c.smtpHost) && s1[0] == Setting("SMTP_PORT", c.smtpPort);
    assert s2[0] == Setting("SMTP_USERNAME", c.smtpUsername) && s3[0] == Setting("SMTP_PASSWORD", c.smtpPassword);
    assert s4[0] == Setting("SMTP_FROM_EMAIL", c.fromEmail) && s5[0] == Setting("SMTP_FROM_NAME", c.fromName);
    assert FirstMissing(s5) == if c.fromName == "" then Some(NotSet("SMTP_FROM_NAME")) else None;
    assert FirstMissing(s4) == if c.fromEmail == "" then Some(NotSet("SMTP_FROM_EMAIL")) else FirstMissing(s5);
    assert FirstMissing(s3) == if c.smtpPassword == "" then Some(NotSet("SMTP_PASSWORD")) else FirstMissing(s4);
    assert FirstMissing(s2) == if c.smtpUsername == "" then Some(NotSet("SMTP_USERNAME")) else FirstMissing(s3);
    assert FirstMissing(s1) == if c.smtpPort == "" then Some(NotSet("SMTP_PORT")) else FirstMissing(s2);
    if c.smtpHost == "" then Some(NotSet("SMTP_HOST"))
    else if c.smtpPort == "" then Some(NotSet("SMTP_PORT"))
    else if c.smtpUsername == "" then Some(NotSet("SMTP_USERNAME"))
    else if c.smtpPassword == "" then Some(NotSet("SMTP_PASSWORD"))
    else if c.fromEmail == "" then Some(NotSet("SMTP_FROM_EMAIL"))
    else if c.fromName == "" then Some(NotSet("SMTP_FROM_NAME"))
    else None
  }

  /** The first setting left empty, as an error; a reference for the chain of checks. */
  function FirstMissing(settings: seq<Setting>): Option<string>
    decreases |settings|
  {
    if settings == [] then None
    else if settings[0].value == "" then Some(NotSet(settings[0].env))
    else FirstMissing(settings[1..])
  }


  /** Nothing is reported exactly when every setting is set; otherwise the first empty one is named. */
  lemma {:induction false} FirstMissingIff(settings: seq<Setting>)
    ensures FirstMissing(settings).None? <==> forall i :: 0 <= i < |settings| ==> settings[i].value != ""
    ensures FirstMissing(settings).Some? ==>
              exists i :: 0 <= i < |settings| && settings[i].value == ""
                          && (forall j :: 0 <= j < i ==> settings[j].value != "")
                          && FirstMissing(settings).value == NotSet(settings[i].env)
    decreases |settings|
  {
    if settings != [] && settings[0].value != "" {
      var rest := settings[1..];
      FirstMissingIff(rest);
      if FirstMissing(rest).Some? {
        var i :| 0 <= i < |rest| && rest[i].value == "" && (forall j :: 0 <= j < i ==> rest[j].value != "")
                 && FirstMissing(rest).value == NotSet(rest[i].env);
        assert settings[i + 1] == rest[i];
        forall j | 0 <= j < i + 1 ensures settings[j].value != "" {
          if j > 0 {
            assert settings[j] == rest[j - 1];
          }
        }
      } else {
        forall i | 0 <= i < |settings| ensures settings[i].value != "" {
          if i > 0 {
            assert settings[i] == rest[i - 1];
          }
        }
      }
    }
  }

  /** The body: the rendered template when one is named, else the plain text. */
  function BodyOf(data: EmailData, render: (string, map<string, TemplateValue>) -> Result<string, string>): (r: Result<string, string>)
    ensures data.templateName == "" ==> r == Ok(data.plainTextBody)
    ensures data.templateName != "" ==> r == render(data.templateName, data.templateData)
  {
    if data.templateName != "" then render(data.templateName, data.templateData) else Ok(data.plainTextBody)
  }

  /** The five headers. */
  function Headers(c: EmailConfig, data: EmailData): map<string, string> {
    map["From" := c.fromName + " <" + c.fromEmail + ">", "To" := data.toEmail, "Subject" := data.subject,
        "MIME-Version" := "1.0", "Content-Type" := "text/html; charset=UTF-8"]
  }

  const HeaderNames: set<string> := {"From", "To", "Subject", "MIME-Version", "Content-Type"}

  lemma HeaderKeys(c: EmailConfig, data: EmailData)
    ensures Headers(c, data).Keys == HeaderNames
  {
  }

  /** `order` lists every header name exactly once: one order Go's walk of the header map may take. */
  predicate IsHeaderOrder(order: seq<string>) {
    && (forall i, j :: 0 <= i < j < |order| ==> order[i] != order[j])
    && (forall k :: k in order ==> k in HeaderNames)
    && (forall k :: k in HeaderNames ==> k in order)
  }

  function HeaderLine(key: string, value: string): string {
    key + ": " + value + "\r\n"
  }

  /** The header lines for the keys, in the given order. */
  function HeaderBlock(m: map<string, string>, keys: seq<string>): string
    requires forall k :: k in keys ==> k in m
    decreases |keys|
  {
    if keys == [] then ""
    else
      var k := keys[|keys| - 1];
      HeaderBlock(m, keys[..|keys| - 1]) + HeaderLine(k, m[k])
  }

  /** The message: the headers, a blank line, the body. */
  function MessageOf(c: EmailConfig, data: EmailData, order: seq<string>, body: string): string
    requires IsHeaderOrder(order)
  {
    HeaderBlock(Headers(c, data), order) + "\r\n" + body
  }

  /** The header loop of `buildEmailMessage`: one `Key: Value` line per key, in the walk's order. */
  method WriteHeaders(headers: map<string, string>, order: seq<string>) returns (message: string)
    requires forall k :: k in order ==> k in headers
    ensures message == HeaderBlock(headers, order)
  {
    message := "";
    var i := 0;
    while i < |order|
      invariant 0 <= i <= |order|
      invariant message == HeaderBlock(headers, order[..i])
    {
      var key := order[i];
      message := message + key + ": " + headers[key] + "\r\n";
      assert order[..i + 1][..i] == order[..i];
      i := i + 1;
    }
    assert order[..i] == order;
  }

  /** `buildEmailMessage`: the body first (a template failure is returned as it is), then one line per header in the walk's order. */
  method BuildEmailMessage(c: EmailConfig, data: EmailData, render: (string, map<string, TemplateValue>) -> Result<string, string>,
                           order: seq<string>) returns (r: Result<string, string>)
    requires IsHeaderOrder(order)
    ensures BodyOf(data, render).Err? ==> r == Err(BodyOf(data, render).error)
    ensures BodyOf(data, render).Ok? ==> r == Ok(MessageOf(c, data, order, BodyOf(data, render).value))
  {
    var body: string;
    if data.templateName != "" {
      var rendered := render(data.templateName, data.templateData);
      if rendered.Err? {
        return Err(rendered.error);
      }
      body := rendered.value;
    } else {
      body := data.plainTextBody;
    }
    HeaderKeys(c, data);
    var message := WriteHeaders(Headers(c, data), order);
    message := message + "\r\n";
    message := message + body;
    return Ok(message);
  }

  /** A sequence without repetitions has as many elements as its set. */
  lemma {:induction false} DistinctCard(keys: seq<string>)
    requires forall i, j :: 0 <= i < j < |keys| ==> keys[i] != keys[j]
    ensures |set k | k in keys| == |keys|
    decreases |keys|
  {
    if keys != [] {
      var rest := keys[1..];
      DistinctCard(rest);
      assert (set k | k in keys) == (set k | k in rest) + {keys[0]};
      assert keys[0] !in rest;
    }
  }

  /** Each header's line occurs in the header block. */
  lemma {:induction false} HeaderLinePresent(m: map<string, string>, keys: seq<string>, k: string) returns (i: int)
    requires forall x :: x in keys ==> x in m
    requires k in keys
    ensures OccursAt(HeaderBlock(m, keys), HeaderLine(k, m[k]), i)
    decreases |keys|
  {
    var front := keys[..|keys| - 1];
    var last := keys[|keys| - 1];
    var line := HeaderLine(k, m[k]);
    if last == k {
      i := |HeaderBlock(m, front)|;
      assert (HeaderBlock(m, front) + line)[i..i + |line|] == line;
    } else {
      assert k in front by {
        var j :| 0 <= j < |keys| && keys[j] == k;
        assert front[j] == k;
      }
      i := HeaderLinePresent(m, front, k);
      var b := HeaderBlock(m, front);
      assert (b + HeaderLine(last, m[last]))[i..i + |line|] == b[i..i + |line|];
    }
  }

  /** Whatever order the map walk takes, there are exactly five header lines. */
  lemma FiveHeaders(order: seq<string>)
    requires IsHeaderOrder(order)
    ensures |order| == 5
  {
    DistinctCard(order);
    assert (set k | k in order) == HeaderNames;
  }

  /** The message carries the sender line `From: name <address>` and the recipient line. */
  lemma SenderAndRecipientLines(c: EmailConfig, data: EmailData, order: seq<string>, body: string)
    requires IsHeaderOrder(order)
    ensures Contains(MessageOf(c, data, order, body), HeaderLine("From", c.fromName + " <" + c.fromEmail + ">"))
    ensures Contains(MessageOf(c, data, order, body), HeaderLine("To", data.toEmail))
  {
    var m := Headers(c, data);
    var msg := MessageOf(c, data, order, body);
    var block := HeaderBlock(m, order);
    assert msg == block + ("\r\n" + body);
    var from := HeaderLine("From", m["From"]);
    var i := HeaderLinePresent(m, order, "From");
    assert msg[i..i + |from|] == block[i..i + |from|];
    OccursContains(msg, from, i);
    var to := HeaderLine("To", m["To"]);
    var j := HeaderLinePresent(m, order, "To");
    assert msg[j..j + |to|] == block[j..j + |to|];
    OccursContains(msg, to, j);
  }

  /** The body follows the blank line that ends the headers. */
  lemma BodyLast(c: EmailConfig, data: EmailData, order: seq<string>, body: string)
    requires IsHeaderOrder(order)
    ensures HasSuffix(MessageOf(c, data, order, body), "\r\n" + body)
  {
    var msg := MessageOf(c, data, order, body);
    assert msg == HeaderBlock(Headers(c, data), order) + ("\r\n" + body);
  }

  /** `SendEmail`'s wrapping of a configuration error. */
  function ConfigError(e: string): string {
    "invalid SMTP configuration: " + e
  }

  /** `SendBulkEmail`'s wrapping of one recipient's error. */
  function SendFailure(to: string, e: string): string {
    "failed to send to " + to + ": " + e
  }

  /** What one send reports: nothing on success, else the wrapped error. */
  function SendResult(c: EmailConfig, data: EmailData, render: (string, map<string, TemplateValue>) -> Result<string, string>,
                      deliver: (string, string) -> Option<string>, order: seq<string>): Option<string>
    requires IsHeaderOrder(order)
  {
    if ValidateConfig(c).Some? then Some(ConfigError(ValidateConfig(c).value))
    else if BodyOf(data, render).Err? then Some("failed to build email message: " + BodyOf(data, render).error)
    else deliver(data.toEmail, MessageOf(c, data, order, BodyOf(data, render).value))
  }

  /**
   * `SendEmail`: check the settings, build the message, hand it to the
   * delivery (which stands for the TLS dial, the plain-SMTP fallback and the
   * SMTP exchange, and returns their error, if any).
   */
  method SendEmail(c: EmailConfig, data: EmailData, render: (string, map<string, TemplateValue>) -> Result<string, string>,
                   deliver: (string, string) -> Option<string>, order: seq<string>) returns (err: Option<string>)
    requires IsHeaderOrder(order)
    ensures err == SendResult(c, data, render, deliver, order)
  {
    var invalid := ValidateConfig(c);
    if invalid.Some? {
      return Some(ConfigError(invalid.value));
    }
    var message := BuildEmailMessage(c, data, render, order);
    if message.Err? {
      return Some("failed to build email message: " + message.error);
    }
    err := deliver(data.toEmail, message.value);
  }

  /** A bad configuration fails every send before the delivery is reached, whatever it would have done. */
  lemma InvalidConfigNeverDelivers(c: EmailConfig, data: EmailData, render: (string, map<string, TemplateValue>) -> Result<string, string>,
                                   deliver: (string, string) -> Option<string>, deliver': (string, string) -> Option<string>,
                                   order: seq<string>)
    requires IsHeaderOrder(order)
    requires exists i :: 0 <= i < 6 && Settings(c)[i].value == ""
    ensures SendResult(c, data, render, deliver, order).Some?
    ensures SendResult(c, data, render, deliver, order) == SendResult(c, data, render, deliver', order)
    ensures SendResult(c, data, render, deliver, order) == Some(ConfigError(ValidateConfig(c).value))
  {
    FirstMissingIff(Settings(c));
  }

  /** Each recipient comes with the header order its own map walk takes. */
  predicate OrdersFit(recipients: seq<EmailData>, orders: seq<seq<string>>) {
    |orders| == |recipients| && forall i :: 0 <= i < |recipients| ==> IsHeaderOrder(orders[i])
  }

  /** The errors of a bulk send: one per failed recipient, in recipient order. */
  function BulkErrors(c: EmailConfig, recipients: seq<EmailData>, render: (string, map<string, TemplateValue>) -> Result<string, string>,
                      deliver: (string, string) -> Option<string>, orders: seq<seq<string>>): (r: seq<string>)
    requires OrdersFit(recipients, orders)
    ensures |r| <= |recipients|
    decreases |recipients|
  {
    if recipients == [] then []
    else
      var n := |recipients| - 1;
      var front := BulkErrors(c, recipients[..n], render, deliver, orders[..n]);
      match SendResult(c, recipients[n], render, deliver, orders[n])
      case None => front
      case Some(e) => front + [SendFailure(recipients[n].toEmail, e)]
  }

  /** How many recipients a bulk send reaches. */
  function Delivered(c: EmailConfig, recipients: seq<EmailData>, render: (string, map<string, TemplateValue>) -> Result<string, string>,
                     deliver: (string, string) -> Option<string>, orders: seq<seq<string>>): nat
    requires OrdersFit(recipients, orders)
    decreases |recipients|
  {
    if recipients == [] then 0
    else
      var n := |recipients| - 1;
      Delivered(c, recipients[..n], render, deliver, orders[..n])
        + (if SendResult(c, recipients[n], render, deliver, orders[n]).None? then 1 else 0)
  }

  /**
   * `SendBulkEmail`: every recipient is tried, in order; the errors are
   * returned, and `successCount` is the count the closing log line reports.
   */
  method SendBulkEmail(c: EmailConfig, recipients: seq<EmailData>, render: (string, map<string, TemplateValue>) -> Result<string, string>,
                       deliver: (string, string) -> Option<string>, orders: seq<seq<string>>)
    returns (errors: seq<string>, successCount: nat)
    requires OrdersFit(recipients, orders)
    ensures errors == BulkErrors(c, recipients, render, deliver, orders)
    ensures successCount == Delivered(c, recipients, render, deliver, orders)
    ensures successCount + |errors| == |recipients|
  {
    errors := [];
    successCount := 0;
    var i := 0;
    while i < |recipients|
      invariant 0 <= i <= |recipients|
      invariant errors == BulkErrors(c, recipients[..i], render, deliver, orders[..i])
      invariant successCount == Delivered(c, recipients[..i], render, deliver, orders[..i])
      invariant successCount + |errors| == i
    {
      assert recipients[..i + 1][..i] == recipients[..i] && orders[..i + 1][..i] == orders[..i];
      var err := SendEmail(c, recipients[i], render, deliver, orders[i]);
      if err.Some? {
        errors := errors + [SendFailure(recipients[i].toEmail, err.value)];
      } else {
        successCount := successCount + 1;
      }
      i := i + 1;
    }
    assert recipients[..i] == recipients && orders[..i] == orders;
  }

  lemma ConfigErrorFirst(c: EmailConfig, data: EmailData, render: (string, map<string, TemplateValue>) -> Result<string, string>,
                         deliver: (string, string) -> Option<string>, order: seq<string>)
    requires IsHeaderOrder(order) && ValidateConfig(c).Some?
    ensures SendResult(c, data, render, deliver, order) == Some(ConfigError(ValidateConfig(c).value))
  {
  }

  /** A bad configuration fails every recipient, each with the configuration error. */
  lemma {:induction false} InvalidConfigFailsAll(c: EmailConfig, recipients: seq<EmailData>,
                                                 render: (string, map<string, TemplateValue>) -> Result<string, string>,
                                                 deliver: (string, string) -> Option<string>, orders: seq<seq<string>>)
    requires OrdersFit(recipients, orders)
    requires ValidateConfig(c).Some?
    ensures var errors := BulkErrors(c, recipients, render, deliver, orders);
            && |errors| == |recipients|
            && forall i :: 0 <= i < |recipients| ==>
                 errors[i] == SendFailure(recipients[i].toEmail, ConfigError(ValidateConfig(c).value))
    decreases |recipients|
  {
    if recipients != [] {
      var n := |recipients| - 1;
      var front := recipients[..n];
      assert OrdersFit(front, orders[..n]);
      InvalidConfigFailsAll(c, front, render, deliver, orders[..n]);
      var e := SendFailure(recipients[n].toEmail, ConfigError(ValidateConfig(c).value));
      ConfigErrorFirst(c, recipients[n], render, deliver, orders[n]);
      var errors := BulkErrors(c, recipients, render, deliver, orders);
      assert errors == BulkErrors(c, front, render, deliver, orders[..n]) + [e];
      forall i | 0 <= i < |recipients|
        ensures errors[i] == SendFailure(recipients[i].toEmail, ConfigError(ValidateConfig(c).value))
      {
        if i < n {
          assert recipients[i] == front[i];
        }
      }
    }
  }
}
