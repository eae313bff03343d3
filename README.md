# Portfolio site: contact relay, form, theme, navigation and certificates

A verified Dafny model of the behaviour in a personal portfolio website
(Next.js / React). Almost all of the site is presentation; what is modelled
is the logic that has a contract:

- **Contact endpoint** (`POST /api/contact`, module `ContactRoute`): a pure
  function from the parsed request body (or a parse failure), the deployment
  environment and the two send outcomes of the mail transport to the
  outcome (400 missing field, 400 bad address, 200 sent, 500 failed) and the
  list of mails handed to the transport. The address check is the
  hand-written pattern `/^[^\s@]+@[^\s@]+\.[^\s@]+$/`, written as "the
  address splits into three non-empty runs of `[^\s@]` around an '@' and a
  '.'", and proved equal to four plain conditions.
- **Contact form** (module `ContactForm`): pure transitions over the form
  state (fields, submitting flag, status banner) and a class `ContactForm`
  whose handlers update the state in place and are proved against them. A
  lemma composes the form's transitions with the endpoint model.
- **Theme switch** (module `ThemeToggle`): class `Theme` with the React state,
  the document's 'dark' class and the stored choice as fields; resolution
  from storage and system preference, toggling, and the round trip through
  storage.
- **Floating header** (module `FloatingHeader`): class `Header`; the
  descending scan with `break` that picks the highlighted section, proved
  against a recursive specification, plus menu and scroll-to-section.
- **Certificates** (module `Certificates`): the "In Progress" test, the badge,
  the two filters and the statistics, with the shipped data as a test value.

Module `JsValues` holds the JavaScript notions these share: an optional
string, truthiness, `a || fallback`, `String.prototype.includes` and the
ECMAScript `\s` class.

The pattern's last class is `[^\s@]`, so an '@' is refused after the '.'
too, which is why the model can state "exactly one '@'".

## Model

| member | source | states |
|---|---|---|
| JsValues.OrElse | components/Contact.tsx:37-45 | `v \|\| fallback` is the value when it is a non-empty string and the fallback otherwise; a non-empty fallback makes the result non-empty |
| ContactRoute.Post | app/api/contact/route.ts:10-144 | the outcome is "missing field" exactly when the body parsed and a field is absent or empty; "invalid email" exactly when all are present and the address fails the pattern; "sent" exactly when both checks pass and both sends succeed; "failed" exactly when the body did not parse or a send failed; mails are dispatched exactly when both checks pass, and then they are the owner notification followed by the acknowledgement for that submission |
| ContactRoute.ResponseOf | app/api/contact/route.ts:15-143 | status 200 exactly for "sent", with `success: true` and the fixed success text; 400 exactly for the two validation outcomes, with "All fields are required" for a missing field and "Invalid email address" for a bad address; 500 exactly for "failed", with the generic failure text |
| ContactRoute.MatchesEmailPattern | app/api/contact/route.ts:23-24 | `emailRegex.test(email)`: the address splits into three non-empty runs of `[^\s@]` around an '@' and a later '.'; a matching address has at least five characters and starts and ends with a `[^\s@]` character |
| ContactRoute.EmailPatternIsShape | app/api/contact/route.ts:23-24 | the pattern accepts an address exactly when it has no `\s` character, exactly one '@', a non-empty part before it, and a '.' after it that is neither the first nor the last character of the part after the '@' |
| ContactRoute.JoinedRunsMatch | app/api/contact/route.ts:23-24 | any three non-empty runs without whitespace or '@', joined by an '@' and a '.', are accepted by the pattern |
| ContactRoute.MalformedEmailFailsPattern | app/api/contact/route.ts:23-29 | an address with whitespace, without exactly one '@', or without an inner '.' after its '@' fails the pattern (and so gets the format error) |
| ContactRoute.EmptyEmailIsMissing | app/api/contact/route.ts:15-20 | an empty address gets "All fields are required", never the format error, whatever the other fields and sends |
| ContactRoute.OwnerMail | app/api/contact/route.ts:41-75 | the owner mail goes to `RECIPIENT_EMAIL` when set and non-empty, else the fixed default; subject is "Message from portfolio: " plus the name; the body contains the name, the address and the message |
| ContactRoute.AutoReply | app/api/contact/route.ts:78-120 | the acknowledgement goes to exactly the submitted address, under the fixed thank-you subject; the body contains the name and the message in quotes |
| ContactRoute.WellFormedExample | app/api/contact/route.ts:123-134 | `{Jane Doe, jane@example.com, Hello}` with both sends accepted gives "sent", two mails, the second addressed to jane@example.com |
| ContactForm.Put | components/Contact.tsx:58-65 | the named field takes the new value and the other two keep theirs |
| ContactForm.Started | components/Contact.tsx:18-21 | starting a submit sets submitting and clears the banner to `{null, ""}`, fields unchanged |
| ContactForm.Settled | components/Contact.tsx:32-55 | after any result submitting is false and a banner is shown; success exactly for an ok reply, then the fields are emptied and the message is `data.message` or the fallback; a non-ok reply shows `data.error` or the fallback; an exception shows the network-error text; on both errors the fields are unchanged |
| ContactForm.Edited | components/Contact.tsx:58-65 | a change event sets exactly the named field; submitting flag and banner unchanged |
| ContactForm.Render | components/Contact.tsx:195-249 | the banner is shown exactly when the status type is non-null, and shows that status; the button is enabled exactly when not submitting; it reads "Sending..." while submitting and "Send Message" otherwise |
| ContactForm.RequestOf | components/Contact.tsx:29 | `JSON.stringify(formData)` as the endpoint parses it (app/api/contact/route.ts:12): all three members present as strings, so the presence check passes exactly when no field is empty, and the endpoint accepts exactly when moreover the address matches the pattern |
| ContactForm.FetchResultOf | components/Contact.tsx:32-45 | `response.ok` is a 2xx status; `data.message` and `data.error` are the members of the endpoint's JSON body |
| ContactForm.SubmitThroughRoute | components/Contact.tsx:24-55 | submitting through the endpoint shows success exactly when the endpoint accepted the fields and both mails were sent, then with the endpoint's text and emptied fields; otherwise one of the endpoint's three error texts with the fields kept; never left submitting |
| ContactForm.EmptyFieldReported | components/Contact.tsx:24-47 | a submit with an empty field sends no mail and ends with the "All fields are required" error, fields kept |
| ContactForm.EditsCommute | components/Contact.tsx:61-64 | a second edit of a field overrides the first; edits of two different fields commute |
| ContactForm.ContactForm.constructor | components/Contact.tsx:7-16 | initially all fields empty, not submitting, status `{null, ""}` |
| ContactForm.ContactForm.BeginSubmit | components/Contact.tsx:18-30 | the new state is `Started` of the old one and the payload is the current fields |
| ContactForm.ContactForm.FinishSubmit | components/Contact.tsx:32-55 | the new state is `Settled` of the old one and the result |
| ContactForm.ContactForm.HandleSubmit | components/Contact.tsx:18-56 | the whole handler: payload is the old fields, new state is `Settled(Started(old))` |
| ContactForm.ContactForm.HandleChange | components/Contact.tsx:58-65 | the new state is `Edited` of the old one |
| ThemeToggle.Resolve | components/ThemeToggle.tsx:10-12 | a truthy stored value decides, dark exactly when it is "dark"; otherwise the system preference decides |
| ThemeToggle.Persisted | components/ThemeToggle.tsx:22 | "dark" is stored exactly for dark, "light" exactly for light |
| ThemeToggle.PersistedRoundTrip | components/ThemeToggle.tsx:10-22 | resolving what toggling stored gives back the toggled theme, whatever the system preference |
| ThemeToggle.Theme.constructor | components/ThemeToggle.tsx:6-7 | initially not dark and not mounted |
| ThemeToggle.Theme.Mount | components/ThemeToggle.tsx:9-16 | after mounting the theme is the resolved one, the document class matches it, mounted is true, storage untouched |
| ThemeToggle.Theme.Toggle | components/ThemeToggle.tsx:18-23 | toggling negates the theme, sets the document class to match and stores its persisted value |
| ThemeToggle.Theme.Render | components/ThemeToggle.tsx:25-41 | only the placeholder until mounted; then a switch whose label offers the opposite mode |
| ThemeToggle.ToggleTwice | components/ThemeToggle.tsx:18-23 | toggling twice restores the theme |
| ThemeToggle.Reload | components/ThemeToggle.tsx:9-16 | a fresh component mounting against a stored "dark"/"light" shows that theme whatever the preference |
| ThemeToggle.ToggleThenReload | components/ThemeToggle.tsx:18-22 | after a toggle, a reload shows the toggled theme |
| FloatingHeader.Sections | app/components/ui/FloatingHeader.tsx:12-25 | the scanned ids are the navigation items' ids in order |
| FloatingHeader.ElementById | app/components/ui/FloatingHeader.tsx:29 | an element is found exactly when the key is non-empty and present, with its offset |
| FloatingHeader.LookupKey | app/components/ui/FloatingHeader.tsx:29 | the id passed to `getElementById`: empty for 'hero' (and for an empty id), the section's own id otherwise |
| FloatingHeader.Scan | app/components/ui/FloatingHeader.tsx:28-37 | a found index is below the bound, its section exists and its top is at most scroll position + 100; it is never 'hero' |
| FloatingHeader.ScanFindsHighest | app/components/ui/FloatingHeader.tsx:28-37 | no section above the found one qualifies; nothing is found exactly when no section qualifies |
| FloatingHeader.ActiveAfter | app/components/ui/FloatingHeader.tsx:24-38 | when no section is reached the active section is unchanged; otherwise it is the id of the highest reached section; it becomes 'hero' only if it was 'hero' |
| FloatingHeader.ScrollExample | app/components/ui/FloatingHeader.tsx:26-36 | sections 800 pixels apart: at 850 'about' is active; at 0 nothing qualifies and the active section is unchanged |
| FloatingHeader.Header.constructor | app/components/ui/FloatingHeader.tsx:9-10 | initially the menu is closed and no section is active |
| FloatingHeader.Header.HandleScroll | app/components/ui/FloatingHeader.tsx:24-38 | the loop leaves `activeSection` equal to `ActiveAfter` of its old value: the id of the highest reached section, or unchanged when none is reached; the menu is untouched |
| FloatingHeader.Header.ScrollToSection | app/components/ui/FloatingHeader.tsx:46-56 | '#' scrolls to the top, another href to its element when present; the menu is closed in every case |
| FloatingHeader.Header.ToggleMenu | app/components/ui/FloatingHeader.tsx:154 | the menu button negates `isMenuOpen` |
| FloatingHeader.MobileBarItems | app/components/ui/FloatingHeader.tsx:136 | the mobile bar shows exactly the first five items, so not Certificates or Contact |
| Certificates.IsInProgress | app/components/sections/Certificates.tsx:119 | `cert.name.includes('In Progress')`; a name that passes is at least as long as the marker, and the marker itself passes |
| Certificates.BadgeLabel | app/components/sections/Certificates.tsx:118-125 | the badge reads 'In Progress' exactly when the name contains "In Progress", 'Certified' exactly otherwise |
| Certificates.Completed | app/components/sections/Certificates.tsx:172 | the completed list holds exactly the certificates whose name lacks "In Progress" |
| Certificates.Pending | app/components/sections/Certificates.tsx:180 | the in-progress list holds exactly the certificates whose name contains "In Progress" |
| Certificates.StatsOf | app/components/sections/Certificates.tsx:164-180 | the panel's total is the number of certificates, completed and in progress are the lengths of the two filtered lists, and the two add up to the total |
| Certificates.CountsPartitionTotal | app/components/sections/Certificates.tsx:164-180 | the lengths of the completed and in-progress lists add up to the number of certificates; the two lists together are a permutation of the certificates |
| Certificates.ShippedInProgress | app/constants/content.ts:135-171 | of the shipped certificates only the first (the CPA) is in progress |
| Certificates.ShippedStats | app/constants/content.ts:135-171 | with the shipped data the panel reads 5 total, 4 completed, 1 in progress |

## Left out

- Mail delivery: the nodemailer transport, its Gmail credentials and the concurrency of `Promise.all` are not modelled; each `sendMail` is an input outcome, accepted or rejected, and both sends are always attempted once validation passes.
- The operator-side `console.error` log of a failed request is a side channel and is not modelled.
- Non-string JSON values in the request (numbers, booleans, objects in a field) are not modelled: a field is absent or a string. A body that parses to JSON `null` is folded into "does not parse", as both end in the 500.
- ContactRoute.OwnerMail: the mail body keeps the visible text around the interpolated fields but not the inline styling markup; only "the body contains the field" is stated, and the fields are interpolated unescaped.
- ContactRoute.AutoReply: as for the owner mail, the body keeps all the visible text (greeting, message, contact information, signature) but not the markup and its styling; only the name and the quoted message are stated.
- The `\s` class is written out from the ECMAScript definition (WhiteSpace and LineTerminator, with the Unicode space separators of current Unicode).
- The form's inputs do no `required` check in the browser: `Input` and `Textarea` (components/common/Input.tsx) take the `required` prop only to draw an asterisk and do not pass it to the element. The browser's `type="email"` check on the address input is the only client-side validation, and it is not modelled; the model lets any field values reach the endpoint, which checks them itself.
- React's asynchronous rendering is reduced to the two halves of `handleSubmit` (before and after the request); a second submit while one is in flight is not modelled beyond the disabled button in `ContactForm.Render`.
- `localStorage`, `matchMedia`, `document.documentElement.classList`, the window scroll listener, `scrollTo` and `scrollIntoView` are fields, inputs or returned actions rather than browser APIs.
- FloatingHeader.Header.ScrollToSection: only the navigation items' hrefs are passed to it, so `document.querySelector` is modelled as an id lookup of the part after '#'.
- `scrollY` and `offsetTop` are integers here; the browser's fractional scroll offsets are not modelled.
- The 3D scenes, animation variants, other sections (about, education, experience, skills, hero), the scroll-to-top button, the random and date helpers and the static content files are presentation or data with no behaviour to state; the certificate data is used as a test value.
