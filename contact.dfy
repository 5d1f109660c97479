/** The contact-form mail helper: the message text composed from the form, the sender
    address, and the request to the mail endpoint. The mail service is a parameter mapping
    the request to its reply. The form fields are kept as their list of entries in key
    order. */
module Contact {
  import opened Wrappers
  import opened Text
  import opened Seqs
  import opened Api
  import Urls

  type Fields = seq<(string, string)>

  datatype ContactData = ContactData(formData: Option<Fields>, message: Option<string>, email: Option<string>)

  const DefaultMessage := "A new contact form submission has been received."

  const DefaultSender := "noreply@example.com"

  const LineSeparator := "\n\n"

  /** Present and not only white space: `s && s.trim()`. */
  predicate Filled(s: Option<string>) {
    s.Some? && !IsBlank(s.value)
  }

  /** One character of a spaced key: an upper-case letter gets a space before it. */
  function SpaceBefore(c: char): string {
    if IsUpper(c) then [' ', c] else [c]
  }

  /** The rest of a key with a space put before each upper-case letter. */
  function Spaced(s: string): (r: string)
    ensures forall i {:trigger IsUpper(r[i])} :: 0 <= i < |r| && IsUpper(r[i]) ==> i > 0 && r[i - 1] == ' '
    ensures Unspaced(r) == Unspaced(s)
  {
    if s == [] then []
    else
      var rest := Spaced(s[1..]);
      assert s == [s[0]] + s[1..];
      UnspacedConcat([s[0]], s[1..]);
      UnspacedConcat(SpaceBefore(s[0]), rest);
      assert Unspaced(SpaceBefore(s[0])) == Unspaced([s[0]]);
      SpaceBefore(s[0]) + rest
  }

  /** Spacing a text that starts with `c` spaces `c`, then the rest. */
  lemma SpacedCons(c: char, t: string)
    ensures Spaced([c] + t) == SpaceBefore(c) + Spaced(t)
  {
    assert ([c] + t)[0] == c && ([c] + t)[1..] == t;
  }

  /** Spacing works character by character: spacing two joined texts is spacing each, and
      with `SpacedCons` this fixes `Spaced` on every text. */
  lemma {:induction false} SpacedConcat(a: string, b: string)
    ensures Spaced(a + b) == Spaced(a) + Spaced(b)
  {
    if a == [] {
      assert a + b == b;
    } else {
      var c, t := a[0], a[1..];
      calc {
        Spaced(a + b);
        { assert a + b == [c] + (t + b); SpacedCons(c, t + b); }
        SpaceBefore(c) + Spaced(t + b);
        { SpacedConcat(t, b); }
        SpaceBefore(c) + (Spaced(t) + Spaced(b));
        (SpaceBefore(c) + Spaced(t)) + Spaced(b);
        { assert a == [c] + t; SpacedCons(c, t); }
        Spaced(a) + Spaced(b);
      }
    }
  }

  /** The field label of the key "firstName". */
  lemma FirstNameLabel()
    ensures Label("firstName") == "First Name"
  {
    CamelLabel('f', "irst", 'N', "ame");
    assert "firstName" == ['f'] + "irst" + ['N'] + "ame";
    assert [ToUpperChar('f')] + "irst" + [' ', 'N'] + "ame" == "First Name";
  }

  /** A key of two words, the second capitalised, gets one space between them. */
  lemma CamelLabel(f: char, a: string, n: char, b: string)
    requires forall i :: 0 <= i < |a| ==> !IsUpper(a[i])
    requires IsUpper(n) && forall i :: 0 <= i < |b| ==> !IsUpper(b[i])
    ensures Label([f] + a + [n] + b) == [ToUpperChar(f)] + a + [' ', n] + b
  {
    var key := [f] + a + [n] + b;
    assert key[0] == f && key[1..] == a + ([n] + b);
    SpacedConcat(a, [n] + b);
    NoUpper(a);
    SpacedCons(n, b);
    NoUpper(b);
  }

  /** A text without upper-case letters is left as it is. */
  lemma {:induction false} NoUpper(s: string)
    requires forall i :: 0 <= i < |s| ==> !IsUpper(s[i])
    ensures Spaced(s) == s
  {
    if s != [] {
      NoUpper(s[1..]);
      SpacedCons(s[0], s[1..]);
      assert s == [s[0]] + s[1..];
    }
  }

  /** The text with its spaces taken out. */
  function Unspaced(s: string): string {
    if s == [] then [] else (if s[0] == ' ' then [] else [s[0]]) + Unspaced(s[1..])
  }

  lemma {:induction false} UnspacedConcat(a: string, b: string)
    ensures Unspaced(a + b) == Unspaced(a) + Unspaced(b)
  {
    if a != [] {
      assert (a + b)[1..] == a[1..] + b;
      UnspacedConcat(a[1..], b);
    } else {
      assert a + b == b;
    }
  }

  /** The label of a field: its key with the first character upper-cased and a space before
      every later upper-case letter ("firstName" becomes "First Name"). */
  function Label(key: string): (heading: string)
    ensures key == "" ==> heading == ""
    ensures key != "" ==> |heading| >= 1 && heading[0] == ToUpperChar(key[0])
    ensures forall i {:trigger IsUpper(heading[i])} :: 1 <= i < |heading| && IsUpper(heading[i]) ==> heading[i - 1] == ' '
  {
    if key == "" then "" else [ToUpperChar(key[0])] + Spaced(key[1..])
  }

  /** Taking the inserted spaces out again gives the key with its first character
      upper-cased. */
  lemma LabelUnspaced(key: string)
    requires key != "" && ' ' !in key
    ensures Unspaced(Label(key)) == [ToUpperChar(key[0])] + key[1..]
  {
    UnspacedConcat([ToUpperChar(key[0])], Spaced(key[1..]));
    assert key[0] != ' ';
    NoSpaces(key[1..]);
  }

  lemma {:induction false} NoSpaces(s: string)
    requires ' ' !in s
    ensures Unspaced(s) == s
  {
    if s != [] {
      assert ' ' !in s[1..] by {
        forall k | 0 <= k < |s[1..]| ensures s[1..][k] != ' ' {
          assert s[1..][k] == s[k + 1];
        }
      }
      NoSpaces(s[1..]);
      assert s == [s[0]] + s[1..];
    }
  }

  function FieldFilled(): ((string, string)) -> bool {
    (field: (string, string)) => !IsBlank(field.1)
  }

  /** "Label: value" with the value trimmed. */
  function FieldLine(field: (string, string)): string {
    Label(field.0) + ": " + Trim(field.1)
  }

  function LineOf(): ((string, string)) -> string {
    (field: (string, string)) => FieldLine(field)
  }

  /** One line per field that is not blank, in key order. */
  function FieldLines(fields: Fields): seq<string> {
    Map(Filter(fields, FieldFilled()), LineOf())
  }

  /** The `forEach` that pushes the field lines. */
  method PushLines(fields: Fields) returns (lines: seq<string>)
    ensures lines == FieldLines(fields)
  {
    lines := [];
    for i := 0 to |fields|
      invariant lines == FieldLines(fields[..i])
    {
      FilterMapStep(fields, i, FieldFilled(), LineOf());
      lines := PushLine(lines, fields[i]);
    }
    assert fields[..|fields|] == fields;
  }

  /** The form's own `message` field, when it is not blank. */
  predicate HasOwnMessage(data: ContactData) {
    data.formData.Some? && Filled(Urls.Get(data.formData.value, "message"))
  }

  function FormLines(data: ContactData): seq<string> {
    if data.formData.Some? then FieldLines(data.formData.value) else []
  }

  /** One step of the `forEach`: a field that is not blank adds its line. */
  method PushLine(lines: seq<string>, field: (string, string)) returns (r: seq<string>)
    ensures r == lines + (if FieldFilled()(field) then [LineOf()(field)] else [])
  {
    r := lines;
    if !IsBlank(field.1) {
      r := r + [FieldLine(field)];
    }
  }

  /** `createMessage` with the fixed sentence as `fallback`: the trimmed message, else the
      form's own trimmed message, else the field lines joined by a blank line, else the
      fallback. */
  function ComposedMessage(data: ContactData, fallback: string): (m: string)
    ensures Filled(data.message) ==> m == Trim(data.message.value)
    ensures !Filled(data.message) && HasOwnMessage(data) ==>
      m == Trim(Urls.Get(data.formData.value, "message").value)
    ensures !Filled(data.message) && !HasOwnMessage(data) && |FormLines(data)| > 0 ==>
      m == Join(FormLines(data), LineSeparator)
    ensures !Filled(data.message) && !HasOwnMessage(data) && |FormLines(data)| == 0 ==>
      m == fallback
  {
    if Filled(data.message) then Trim(data.message.value)
    else if data.formData.Some? && |data.formData.value| > 0 then
      var fields := data.formData.value;
      var own := Urls.Get(fields, "message");
      if Filled(own) then Trim(own.value)
      else
        var lines := FieldLines(fields);
        if |lines| > 0 then Join(lines, LineSeparator) else fallback
    else fallback
  }

  function MessageOf(data: ContactData): string {
    ComposedMessage(data, DefaultMessage)
  }

  /** `createMessage`, with its loop. */
  method CreateMessage(data: ContactData) returns (m: string)
    ensures m == MessageOf(data)
  {
    if Filled(data.message) {
      return Trim(data.message.value);
    }
    if data.formData.Some? && |data.formData.value| > 0 {
      var own := Urls.Get(data.formData.value, "message");
      if Filled(own) {
        return Trim(own.value);
      }
      var lines := PushLines(data.formData.value);
      if |lines| > 0 {
        return Join(lines, LineSeparator);
      }
    }
    m := DefaultMessage;
  }

  /** Not empty, and not ending in white space. */
  predicate EndsSolid(m: string) {
    m != "" && !IsSpace(m[|m| - 1])
  }

  /** The message is never empty and never ends with white space. */
  lemma MessageNotBlank(data: ContactData)
    ensures EndsSolid(MessageOf(data))
  {
    DefaultNotBlank();
    ComposedNotBlank(data, DefaultMessage);
  }

  lemma DefaultNotBlank()
    ensures EndsSolid(DefaultMessage)
  {
  }

  lemma ComposedNotBlank(data: ContactData, fallback: string)
    requires EndsSolid(fallback)
    ensures EndsSolid(ComposedMessage(data, fallback))
  {
    var m := ComposedMessage(data, fallback);
    if Filled(data.message) {
      assert m == Trim(data.message.value);
      TrimmedEnds(data.message.value);
    } else if HasOwnMessage(data) {
      assert m == Trim(Urls.Get(data.formData.value, "message").value);
      TrimmedEnds(Urls.Get(data.formData.value, "message").value);
    } else if |FormLines(data)| > 0 {
      assert m == Join(FieldLines(data.formData.value), LineSeparator);
      LinesNotBlank(data.formData.value);
    } else {
      assert m == fallback;
    }
  }

  lemma TrimmedEnds(s: string)
    requires !IsBlank(s)
    ensures EndsSolid(Trim(s))
  {
  }

  lemma LinesNotBlank(fields: Fields)
    requires |FieldLines(fields)| > 0
    ensures EndsSolid(Join(FieldLines(fields), LineSeparator))
  {
    var lines := FieldLines(fields);
    var kept := Filter(fields, FieldFilled());
    forall i | 0 <= i < |lines| ensures lines[i] != "" && !IsSpace(lines[i][|lines[i]| - 1]) {
      LineEnd(kept[i]);
    }
    JoinEnds(lines, LineSeparator);
  }

  /** A line of a field that is not blank ends with the last character of its trimmed value. */
  lemma LineEnd(field: (string, string))
    requires FieldFilled()(field)
    ensures FieldLine(field) != "" && !IsSpace(FieldLine(field)[|FieldLine(field)| - 1])
  {
    EndsLikeLast(Label(field.0) + ": ", Trim(field.1));
  }

  lemma EndsLikeLast(h: string, t: string)
    requires t != [] && !IsSpace(t[|t| - 1])
    ensures h + t != [] && !IsSpace((h + t)[|h + t| - 1])
  {
    assert (h + t)[|h + t| - 1] == t[|t| - 1];
  }

  lemma {:induction false} JoinEnds(parts: seq<string>, sep: string)
    requires |parts| > 0 && forall i :: 0 <= i < |parts| ==> parts[i] != ""
    ensures Join(parts, sep) != ""
    ensures Join(parts, sep)[|Join(parts, sep)| - 1] == parts[|parts| - 1][|parts[|parts| - 1]| - 1]
  {
    if |parts| > 1 {
      JoinEnds(parts[1..], sep);
    }
  }

  /** `formData.email || email || "noreply@example.com"`. */
  function FromEmail(data: ContactData): (sender: string)
    ensures sender != ""
    ensures data.formData.Some? && Truthy(Urls.Get(data.formData.value, "email")) ==>
      sender == Urls.Get(data.formData.value, "email").value
    ensures !(data.formData.Some? && Truthy(Urls.Get(data.formData.value, "email"))) && Truthy(data.email) ==>
      sender == data.email.value
    ensures !(data.formData.Some? && Truthy(Urls.Get(data.formData.value, "email"))) && !Truthy(data.email) ==>
      sender == DefaultSender
  {
    var own := if data.formData.Some? then Urls.Get(data.formData.value, "email") else None;
    Or(own, Or(data.email, DefaultSender))
  }

  // ---------------------------------------------------------------------------------------
  // Sending

  const NotConfigured := "NEXT_PUBLIC_API_URL and NEXT_PUBLIC_PROJECT_ID must be set"

  const SendFailed := "Failed to send email"

  /** The JSON body posted, with the URL it goes to. */
  datatype MailRequest = MailRequest(endpoint: string, message: string, fromEmail: string, formData: Option<Fields>)

  /** The mail service's answer: the request threw, the response was not OK (with the
      `error` of its JSON body, if any), or it was accepted. */
  datatype MailReply = Unreachable | Refused(error: Option<string>) | Accepted

  /** `sendContactEmail` throws (with its message, when it is the helper's own error) or
      resolves to the response. */
  datatype MailOutcome = Raised(message: Option<string>) | Sent

  function MailEndpoint(config: Config): (url: string)
    ensures url == config.apiUrl + "/emails/projects/" + config.projectId + "/sendMail"
    ensures StartsWith(url, config.apiUrl + "/emails/projects/") && EndsWith(url, "/sendMail")
    ensures url[|config.apiUrl| + 17..|url| - 9] == config.projectId
  {
    var head := config.apiUrl + "/emails/projects/";
    var url := head + config.projectId + "/sendMail";
    assert url[..|head|] == head;
    assert url[|url| - |"/sendMail"|..] == "/sendMail";
    assert url[|head|..|url| - 9] == config.projectId;
    url
  }

  /** `sendContactEmail(data)`: what it comes to, and the request it posts, if any. */
  function SendContactEmail(config: Config, data: ContactData, service: MailRequest -> MailReply)
    : (r: (MailOutcome, Option<MailRequest>))
    ensures !config.Present() ==> r == (Raised(Some(NotConfigured)), None)
    ensures config.Present() ==>
      r.1 == Some(MailRequest(MailEndpoint(config), MessageOf(data), FromEmail(data), data.formData))
    ensures config.Present() ==> (r.0 == Sent <==> service(r.1.value).Accepted?)
    ensures config.Present() && service(r.1.value).Refused? ==>
      r.0 == Raised(Some(Or(service(r.1.value).error, SendFailed))) && r.0.message.value != ""
    ensures config.Present() && service(r.1.value).Unreachable? ==> r.0 == Raised(None)
  {
    if !config.Present() then (Raised(Some(NotConfigured)), None)
    else
      var request := MailRequest(MailEndpoint(config), MessageOf(data), FromEmail(data), data.formData);
      match service(request)
      case Unreachable => (Raised(None), Some(request))
      case Refused(error) => (Raised(Some(Or(error, SendFailed))), Some(request))
      case Accepted => (Sent, Some(request))
  }
}
