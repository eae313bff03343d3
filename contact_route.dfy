/** The contact-message endpoint `POST /api/contact`: it validates a
    `{name, email, message}` submission, builds a notification for the site
    owner and an acknowledgement for the sender, hands both to the mail
    transport, and answers with exactly one of four responses. The transport
    is outside the model: each of the two sends is an input outcome. */
module ContactRoute {
  import opened JsValues

  /** What `await request.json()` and the destructuring of its result give:
      either a failure (the body is not JSON, or is JSON `null`, and the
      handler's `catch` takes over), or the three fields, each absent or a
      string. */
  datatype RequestBody =
    | Unparsable
    | Fields(name: Option<string>, email: Option<string>, message: Option<string>)

  /** The deployment environment the handler reads (`EMAIL_USER`,
      `RECIPIENT_EMAIL`). */
  datatype Env = Env(emailUser: Option<string>, recipientEmail: Option<string>)

  /** A validated submission: the three fields, all present. */
  datatype Submission = Submission(name: string, email: string, message: string)

  /** One outbound mail; `html` is the visible text of the body with the
      fields interpolated (the markup and its inline styling are left out). */
  datatype Mail = Mail(from: Option<string>, to: string, subject: string, html: string)

  /** What the transport reports for one `sendMail`. */
  datatype Delivery = Accepted | Rejected

  datatype ResponseBody =
    | ErrorBody(error: string)
    | SuccessBody(success: bool, message: string)

  datatype Response = Response(status: int, body: ResponseBody)

  /** The four ways a request ends. */
  datatype Outcome = MissingFields | InvalidEmail | Sent | Failed

  /** One run of the handler: how it ended and the mails it handed to the
      transport, owner notification first. */
  datatype Handled = Handled(outcome: Outcome, dispatched: seq<Mail>)

  const DefaultRecipient := "m.shoaibisrar129@gmail.com"
  const OwnerSubjectPrefix := "Message from portfolio: "
  const AutoReplySubject := "Thank you for contacting Muhammad Shoaib Israr"

  const RequiredError := "All fields are required"
  const InvalidEmailError := "Invalid email address"
  const SentMessage := "Email sent successfully! You will receive a confirmation email shortly."
  const FailedError := "Failed to send email. Please try again or contact directly via phone/email."

  /** The HTTP response `NextResponse.json` sends for each outcome: the two
      validation failures are 400 with their own error text, success is 200
      with `success: true`, and every failure after validation is the one
      generic 500. */
  function ResponseOf(o: Outcome): (r: Response)
    ensures r.status == 200 <==> o == Sent
    ensures r.status == 400 <==> o in {MissingFields, InvalidEmail}
    ensures r.status == 500 <==> o == Failed
    ensures r.status == 200 <==> r.body.SuccessBody?
    ensures r.body.SuccessBody? ==> r.body.success && r.body.message == SentMessage
    ensures o == MissingFields ==> r.body == ErrorBody(RequiredError)
    ensures o == InvalidEmail ==> r.body == ErrorBody(InvalidEmailError)
    ensures o == Failed ==> r.body == ErrorBody(FailedError)
  {
    match o
    case MissingFields => Response(400, ErrorBody(RequiredError))
    case InvalidEmail => Response(400, ErrorBody(InvalidEmailError))
    case Sent => Response(200, SuccessBody(true, SentMessage))
    case Failed => Response(500, ErrorBody(FailedError))
  }

  // ---------------------------------------------------------------------
  // The email pattern /^[^\s@]+@[^\s@]+\.[^\s@]+$/
  // ---------------------------------------------------------------------

  /** The character class `[^\s@]`. */
  predicate IsPatternChar(c: char)
  {
    !IsJsSpace(c) && c != '@'
  }

  predicate AllPatternChars(s: string)
  {
    forall i | 0 <= i < |s| :: IsPatternChar(s[i])
  }

  /** `s` splits, at the '@' at index `at` and the '.' at index `dot`, into
      three non-empty runs of `[^\s@]`. */
  predicate SplitsAt(s: string, at: int, dot: int)
  {
    && 0 < at && at + 1 < dot && dot + 1 < |s|
    && s[at] == '@' && s[dot] == '.'
    && AllPatternChars(s[..at])
    && AllPatternChars(s[at + 1..dot])
    && AllPatternChars(s[dot + 1..])
  }

  /** `emailRegex.test(s)`: the anchored pattern matches the whole of `s`
      for some choice of the '@' and of the '.'. */
  predicate MatchesEmailPattern(s: string): (m: bool)
    ensures m ==> 5 <= |s| && IsPatternChar(s[0]) && IsPatternChar(s[|s| - 1])
  {
    exists at, dot | 0 <= at < dot < |s| :: SplitsAt(s, at, dot)
  }

  function CountChar(s: string, c: char): nat
  {
    if s == [] then 0 else (if s[0] == c then 1 else 0) + CountChar(s[1..], c)
  }

  predicate NoJsSpace(s: string)
  {
    forall i | 0 <= i < |s| :: !IsJsSpace(s[i])
  }

  /** `d` has a '.' that is neither its first nor its last character. */
  predicate HasInnerDot(d: string)
  {
    exists k | 0 < k < |d| - 1 :: d[k] == '.'
  }

  /** The shape the pattern accepts, as four plain conditions: no
      whitespace, exactly one '@', something before it, and an inner '.'
      after it. */
  predicate EmailShape(s: string)
  {
    && NoJsSpace(s)
    && CountChar(s, '@') == 1
    && exists at | 0 <= at < |s| :: s[at] == '@' && 0 < at && HasInnerDot(s[at + 1..])
  }

  lemma {:induction false} CountCharAppend(a: string, b: string, c: char)
    ensures CountChar(a + b, c) == CountChar(a, c) + CountChar(b, c)
  {
    if a != [] {
      assert (a + b)[0] == a[0];
      assert (a + b)[1..] == a[1..] + b;
      CountCharAppend(a[1..], b, c);
    } else {
      assert a + b == b;
    }
  }

  lemma {:induction false} CountCharZero(s: string, c: char)
    ensures CountChar(s, c) == 0 <==> forall i | 0 <= i < |s| :: s[i] != c
  {
    if s != [] {
      CountCharZero(s[1..], c);
      assert forall i | 1 <= i < |s| :: s[i] == s[1..][i - 1];
    }
  }

  /** A slice of `s` whose every character is in `[^\s@]`. */
  lemma PatternCharsSlice(s: string, lo: int, hi: int)
    requires 0 <= lo <= hi <= |s|
    requires forall i | lo <= i < hi :: IsPatternChar(s[i])
    ensures AllPatternChars(s[lo..hi])
  {
  }

  /** The three runs and the two separators hold no whitespace. */
  lemma SplitHasNoSpace(s: string, at: int, dot: int)
    requires 0 <= at < dot < |s| && SplitsAt(s, at, dot)
    ensures NoJsSpace(s)
  {
  }

  /** The runs hold no '@', so the separator is the only one. */
  lemma SplitHasOneAt(s: string, at: int, dot: int)
    requires 0 <= at < dot < |s| && SplitsAt(s, at, dot)
    ensures CountChar(s, '@') == 1
  {
    var local, host, tld := s[..at], s[at + 1..dot], s[dot + 1..];
    assert s == local + ['@'] + host + ['.'] + tld;
    CountCharZero(local, '@');
    CountCharZero(host, '@');
    CountCharZero(tld, '@');
    CountCharAppend(local, ['@'], '@');
    CountCharAppend(local + ['@'], host, '@');
    CountCharAppend(local + ['@'] + host, ['.'], '@');
    CountCharAppend(local + ['@'] + host + ['.'], tld, '@');
  }

  lemma PatternImpliesShape(s: string)
    requires MatchesEmailPattern(s)
    ensures EmailShape(s)
  {
    var at, dot :| 0 <= at < dot < |s| && SplitsAt(s, at, dot);
    SplitHasNoSpace(s, at, dot);
    SplitHasOneAt(s, at, dot);
    var domain := s[at + 1..];
    assert domain[dot - at - 1] == '.';
    assert HasInnerDot(domain);
  }

  /** With exactly one '@' and no whitespace, every other character is in
      `[^\s@]`. */
  lemma OtherCharsArePatternChars(s: string, at: int)
    requires 0 <= at < |s| && s[at] == '@'
    requires NoJsSpace(s) && CountChar(s, '@') == 1
    ensures forall i | 0 <= i < |s| && i != at :: IsPatternChar(s[i])
  {
    var local, domain := s[..at], s[at + 1..];
    assert s == local + [s[at]] + domain;
    CountCharAppend(local + [s[at]], domain, '@');
    CountCharAppend(local, [s[at]], '@');
    CountCharZero(local, '@');
    CountCharZero(domain, '@');
    forall i | 0 <= i < |s| && i != at ensures s[i] != '@' {
      if i < at { assert s[i] == local[i]; }
      else { assert s[i] == domain[i - at - 1]; }
    }
  }

  lemma ShapeImpliesPattern(s: string)
    requires EmailShape(s)
    ensures MatchesEmailPattern(s)
  {
    var at :| 0 <= at < |s| && s[at] == '@' && 0 < at && HasInnerDot(s[at + 1..]);
    var domain := s[at + 1..];
    var k :| 0 < k < |domain| - 1 && domain[k] == '.';
    var dot := at + 1 + k;
    OtherCharsArePatternChars(s, at);
    PatternCharsSlice(s, 0, at);
    PatternCharsSlice(s, at + 1, dot);
    PatternCharsSlice(s, dot + 1, |s|);
    assert s[..at] == s[0..at];
    assert s[dot + 1..] == s[dot + 1..|s|];
    assert s[dot] == domain[k];
    assert SplitsAt(s, at, dot);
  }

  /** The pattern accepts exactly the strings of `EmailShape`. */
  lemma EmailPatternIsShape(s: string)
    ensures MatchesEmailPattern(s) <==> EmailShape(s)
  {
    if MatchesEmailPattern(s) { PatternImpliesShape(s); }
    if EmailShape(s) { ShapeImpliesPattern(s); }
  }

  // ---------------------------------------------------------------------
  // The two outbound mails
  // ---------------------------------------------------------------------

  /** The visible text of the two mail bodies around the interpolated
      fields, one line per block; the markup and its styling are left out. */
  const OwnerHead := "New Portfolio Contact Message\nFrom Muhammad Shoaib Israr's Portfolio\nContact Details\nNAME\n"
  const OwnerFooter := "\nThis message was sent from your portfolio contact form\nMuhammad Shoaib Israr - Executive Accounts\n"
  const ReplyHead := "Thank You for Your Message!\nMuhammad Shoaib Israr - Executive Accounts\nHello "
  const ReplyMiddle :=
    ",\nThank you for reaching out through my portfolio website. "
    + "I have received your message and appreciate your interest.\nYour Message:\n"
  const ReplyFooter :=
    "\nI will review your message and get back to you as soon as possible. "
    + "In the meantime, feel free to connect with me on LinkedIn or reach out via phone for any urgent matters.\n"
    + "Contact Information:\n"
    + "\U{1F4E7} m.shoaibisrar129@gmail.com\n"
    + "\U{1F4F1} 0307-4974578\n"
    + "\U{1F4CD} Lahore, Pakistan\n"
    + "Best regards,\nMuhammad Shoaib Israr\nExecutive Accounts Professional\n"

  /** Each of the three interpolated values occurs in a text built around them. */
  lemma ContainsAllThree(p0: string, x: string, p1: string, y: string, p2: string, z: string, p3: string)
    ensures var s := p0 + x + p1 + y + p2 + z + p3;
            Contains(s, x) && Contains(s, y) && Contains(s, z)
  {
    var s := p0 + x + p1 + y + p2 + z + p3;
    var i := |p0|;
    var j := i + |x| + |p1|;
    var k := j + |y| + |p2|;
    assert s[i..i + |x|] == x;
    assert s[j..j + |y|] == y;
    assert s[k..k + |z|] == z;
    assert OccursAt(s, x, i) && OccursAt(s, y, j) && OccursAt(s, z, k);
  }

  /** A text that interpolates a name and then a quoted message includes
      the name, the quoted message and the message itself. */
  lemma ContainsNameAndQuote(p0: string, x: string, p1: string, y: string, p2: string)
    ensures var s := p0 + x + p1 + "\"" + y + "\"" + p2;
            Contains(s, x) && Contains(s, "\"" + y + "\"") && Contains(s, y)
  {
    var s := p0 + x + p1 + "\"" + y + "\"" + p2;
    var q := "\"" + y + "\"";
    assert s == p0 + x + (p1 + q + p2);
    ContainsInside(p0, x, p1 + q + p2);
    assert s == (p0 + x + p1) + q + p2;
    ContainsInside(p0 + x + p1, q, p2);
    assert s == (p0 + x + p1 + "\"") + y + ("\"" + p2);
    ContainsInside(p0 + x + p1 + "\"", y, "\"" + p2);
  }

  /** The notification to the site owner: to `RECIPIENT_EMAIL` or, when that
      is unset or empty, the fixed address; the subject names the sender;
      the body carries all three fields. */
  function OwnerMail(env: Env, sub: Submission): (m: Mail)
    ensures m.from == env.emailUser
    ensures Truthy(env.recipientEmail) ==> m.to == env.recipientEmail.value
    ensures !Truthy(env.recipientEmail) ==> m.to == DefaultRecipient
    ensures m.subject == OwnerSubjectPrefix + sub.name
    ensures Contains(m.html, sub.name)
    ensures Contains(m.html, sub.email)
    ensures Contains(m.html, sub.message)
  {
    var html := OwnerHead + sub.name + "\nEMAIL\n" + sub.email + "\nMESSAGE\n" + sub.message + OwnerFooter;
    ContainsAllThree(OwnerHead, sub.name, "\nEMAIL\n", sub.email, "\nMESSAGE\n", sub.message, OwnerFooter);
    Mail(env.emailUser, OrElse(env.recipientEmail, DefaultRecipient), OwnerSubjectPrefix + sub.name, html)
  }

  /** The acknowledgement to the sender: to exactly the submitted address,
      under the fixed thank-you subject, greeting the sender by name and
      echoing the message in quotes. */
  function AutoReply(env: Env, sub: Submission): (m: Mail)
    ensures m.from == env.emailUser
    ensures m.to == sub.email
    ensures m.subject == AutoReplySubject
    ensures Contains(m.html, sub.name)
    ensures Contains(m.html, "\"" + sub.message + "\"")
    ensures Contains(m.html, sub.message)
  {
    var html := ReplyHead + sub.name + ReplyMiddle + "\"" + sub.message + "\"" + ReplyFooter;
    ContainsNameAndQuote(ReplyHead, sub.name, ReplyMiddle, sub.message, ReplyFooter);
    Mail(env.emailUser, sub.email, AutoReplySubject, html)
  }

  // ---------------------------------------------------------------------
  // The handler
  // ---------------------------------------------------------------------

  /** All three fields are truthy. */
  predicate AllPresent(body: RequestBody)
    requires body.Fields?
  {
    Truthy(body.name) && Truthy(body.email) && Truthy(body.message)
  }

  /** The body passes both checks, so the mails are built and sent. */
  predicate Accepts(body: RequestBody)
  {
    body.Fields? && AllPresent(body) && MatchesEmailPattern(body.email.value)
  }

  function SubmissionOf(body: RequestBody): Submission
    requires Accepts(body)
  {
    Submission(body.name.value, body.email.value, body.message.value)
  }

  /** `POST`: the missing-field check, then the pattern check, then both
      sends; a body that does not parse and a send that fails both end in
      the catch-all 500. */
  function Post(body: RequestBody, env: Env, owner: Delivery, reply: Delivery): (h: Handled)
    ensures h.outcome == MissingFields <==> body.Fields? && !AllPresent(body)
    ensures h.outcome == InvalidEmail <==>
              body.Fields? && AllPresent(body) && !MatchesEmailPattern(body.email.value)
    ensures h.outcome == Sent <==> Accepts(body) && owner == Accepted && reply == Accepted
    ensures h.outcome == Failed <==>
              body.Unparsable? || (Accepts(body) && !(owner == Accepted && reply == Accepted))
    ensures h.dispatched != [] <==> Accepts(body)
    ensures Accepts(body) ==>
              h.dispatched == [OwnerMail(env, SubmissionOf(body)), AutoReply(env, SubmissionOf(body))]
  {
    match body
    case Unparsable => Handled(Failed, [])
    case Fields(name, email, message) =>
      if !Truthy(name) || !Truthy(email) || !Truthy(message) then
        Handled(MissingFields, [])
      else if !MatchesEmailPattern(email.value) then
        Handled(InvalidEmail, [])
      else
        var sub := Submission(name.value, email.value, message.value);
        var mails := [OwnerMail(env, sub), AutoReply(env, sub)];
        if owner == Accepted && reply == Accepted then Handled(Sent, mails)
        else Handled(Failed, mails)
  }

  /** An empty email is reported as a missing field, never as a malformed
      address: the presence check runs first. */
  lemma EmptyEmailIsMissing(name: Option<string>, message: Option<string>, env: Env, owner: Delivery, reply: Delivery)
    ensures Post(Fields(name, Some(""), message), env, owner, reply).outcome == MissingFields
  {
  }

  /** An address with whitespace, without exactly one '@', or with no inner
      '.' after its '@' does not match the pattern. */
  lemma MalformedEmailFailsPattern(email: string)
    requires !NoJsSpace(email) || CountChar(email, '@') != 1
             || (forall at | 0 <= at < |email| && email[at] == '@' :: !HasInnerDot(email[at + 1..]))
    ensures !MatchesEmailPattern(email)
  {
    EmailPatternIsShape(email);
  }

  /** The well-formed example submission is accepted when both sends
      succeed, and the acknowledgement goes back to the sender. */
  lemma WellFormedExample(env: Env)
    ensures var h := Post(Fields(Some("Jane Doe"), Some("jane@example.com"), Some("Hello")), env, Accepted, Accepted);
            h.outcome == Sent && |h.dispatched| == 2 && h.dispatched[1].to == "jane@example.com"
  {
    var body := Fields(Some("Jane Doe"), Some("jane@example.com"), Some("Hello"));
    ExampleAddressMatches();
    assert Accepts(body);
    assert SubmissionOf(body).email == "jane@example.com";
  }

  /** Three non-empty runs of `[^\s@]` joined by an '@' and a '.' match
      the pattern. */
  lemma JoinedRunsMatch(local: string, host: string, tld: string)
    requires local != [] && host != [] && tld != []
    requires AllPatternChars(local) && AllPatternChars(host) && AllPatternChars(tld)
    ensures MatchesEmailPattern(local + "@" + host + "." + tld)
  {
    var s := local + "@" + host + "." + tld;
    var at, dot := |local|, |local| + 1 + |host|;
    assert s[..at] == local;
    assert s[at + 1..dot] == host;
    assert s[dot + 1..] == tld;
    assert SplitsAt(s, at, dot);
  }

  /** "jane@example.com" is such a join. */
  lemma ExampleAddressMatches()
    ensures MatchesEmailPattern("jane@example.com")
  {
    assert AllPatternChars("jane") && AllPatternChars("example") && AllPatternChars("com");
    JoinedRunsMatch("jane", "example", "com");
    assert "jane" + "@" + "example" + "." + "com" == "jane@example.com";
  }
}
