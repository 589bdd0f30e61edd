# QR code content generator — a Dafny model

The application is a single-page QR code generator. The user picks one of
fourteen content types (link, text, e-mail, phone call, SMS, WhatsApp, Wi-Fi,
vCard, calendar event, and five link-like types for PDF, app, image, video and
social-network links), fills in a form, and the application turns the type
and the form's details into the string the barcode encodes. A preview panel
draws that string with an optional frame (none, a fixed "SCAN ME" label, or
a custom label) in chosen colours and offers it as a download.

This project models and proves:

- the payload formatter `generateQRString` (module `QrHelpers`). Every
  branch is modelled: the URL echo, the `mailto:` link with
  percent-encoded subject and body, `tel:`, `SMSTO:`, the `wa.me` link with
  the digit filter, the `WIFI:` string with its WPA default, the vCard 3.0
  block and the VEVENT block with `-` and `:` stripped from the dates.
  JavaScript's `x || ''` becomes `Types.Or`, which treats an absent field
  and an empty field alike;
- `encodeURIComponent` on Unicode scalar values, with the UTF-8 escaping
  that section 15.1.3.4 of ECMA-262 5.1 prescribes
  (module `UriEncoding`). Its inverse, `decodeURIComponent`, is written out
  so that round trips can be stated;
- a reader per payload format (modules `Payloads` and `PayloadLayout`).
  Each reader inverts one formatter branch: its lemma proves that reading
  a generated payload gives back the fields it was built from (for `wa.me`,
  the phone's digits rather than the phone as typed). For the vCard and the
  event, the lemmas give back the payload's lines, with the event dates
  already stripped, rather than the fields themselves;
- the entry form (module `InputForm`): the single-field update every input
  sends, the table of fields each type shows, and the values the inputs
  display. It is proved that the formatter reads exactly the fields the
  form shows;
- the preview's logic (module `QrPreview`): the frame-style buttons, the
  colour pickers, the custom-text input, the label colour, the background,
  the placeholder handed to the canvas, and the rule enabling the download
  button;
- the application component (module `Application`) as a class `AppState`
  holding the selected type, the details, the payload and the frame. Its
  invariant `Valid()` says that the payload always equals the formatter
  applied to the current type and details, and that the frame is
  consistent. Every event handler keeps the invariant. The menu lists each
  declared type exactly once.

The files:

| file | module |
|---|---|
| wrappers.dfy | `Wrappers` |
| types.dfy | `Types` |
| strings.dfy | `Strings` |
| uri_encoding.dfy | `UriEncoding` |
| qr_helpers.dfy | `QrHelpers` |
| payloads.dfy | `Payloads` |
| payload_layout.dfy | `PayloadLayout` |
| qr_examples.dfy | `QrExamples` |
| input_form.dfy | `InputForm` |
| qr_preview.dfy | `QrPreview` |
| application.dfy | `Application` |

Modelling choices:

- The details record has sixteen optional string fields. An absent field is
  `None`.
- The content type has a fifteenth constructor, `Unknown(tag)`. Its tag is
  a `ForeignTag`, a string that is none of the fourteen enum values, so it
  stands for a value outside the enumeration. It reaches the formatter's
  `default:` branch and the form's `default:` branch.
- `String.prototype.replace(/\D/g, '')` keeps exactly `'0'`..`'9'`. JavaScript's
  `\D` is ASCII-only, so other Unicode digits are dropped
  (`OnlyDigitsDropsArabicIndicDigits`).

## Model

| member | source | states |
|---|---|---|
| Types.Or | utils/qrHelpers.ts:11 | `x \|\| d` for an optional string (no contract of its own): the default `d` when the value is absent or empty, the value otherwise. What follows from it across the formatter is `QrHelpers.UnsetIsEmpty`. |
| Types.Details.With | components/InputForm.tsx:13 | Setting one field of the details record sets that field to the new value and leaves the other fifteen unchanged. |
| Types.Empty | App.tsx:15 | The empty details record `{}`: all sixteen fields unset. The application starts from it and `handleTypeChange` resets to it (App.tsx:35); `Application.InitialPayloadIsGenerated` and `Application.AppState.HandleTypeChange` state what it gives. |
| Types.DetailsExtensional | types.ts:23-40 | Two details records that agree on all sixteen fields are the same record. |
| Types.TagIdentifiesType | types.ts:1-17 | A type is one of the fourteen declared members exactly when its string value is one of the enum's, and two types with the same string value are the same type. |
| QrHelpers.GenerateQRString | utils/qrHelpers.ts:3-55 | The formatter itself (it has no contract of its own): the six link-like types give `url \|\| ''`, text gives `text \|\| ''`, the other declared types go to their branch function, and any other tag gives `''`. The lemmas below state what it promises. |
| QrHelpers.EmailPayload | utils/qrHelpers.ts:16-17 | The `mailto:` branch: the address as typed, then the encoded subject and body as query parameters. Its contract is `Payloads.EmailShape` and `Payloads.EmailRoundTrip`. |
| QrHelpers.SmsPayload | utils/qrHelpers.ts:22-23 | The `SMSTO:` branch: phone and message around a `:`. Its contract is `Payloads.SmsRoundTrip`. |
| QrHelpers.WhatsAppPayload | utils/qrHelpers.ts:25-28 | The `wa.me` branch: the phone's digits in the path and the encoded message as `text`. Its contract is `Payloads.WhatsAppRoundTrip`. |
| QrHelpers.WifiPayload | utils/qrHelpers.ts:30-31 | The `WIFI:` branch: encryption (WPA by default), SSID and password, each ended by `;`, and a final `;`. Its contract is `Payloads.WifiRoundTrip` and `Payloads.WifiFraming`. |
| QrHelpers.VCardPayload | utils/qrHelpers.ts:33-41 | The vCard branch: the five fields, each `\|\| ''`, put into `VCardText`. Its contract is `PayloadLayout.VCardIsJoinedLines`, `VCardLineCount` and `VCardReadsBack`. |
| QrHelpers.VCardText | utils/qrHelpers.ts:34-41 | The vCard template with the line feeds of its eight lines. Its contract is `PayloadLayout.VCardTextIsJoined` and `VCardTextLineFeeds`. |
| QrHelpers.EventPayload | utils/qrHelpers.ts:43-50 | The event branch: the four fields, each `\|\| ''`, with the two dates stripped, put into `EventText`. Its contract is `PayloadLayout.EventIsJoinedLines`, `EventLineCount` and `EventReadsBack`. |
| QrHelpers.EventText | utils/qrHelpers.ts:45-50 | The VEVENT template with the line feeds of its six lines. Its contract is `PayloadLayout.EventTextIsJoined` and `EventTextLineFeeds`. |
| QrHelpers.OnlyDigits | utils/qrHelpers.ts:27 | `replace(/\D/g, '')` as a filter that keeps `'0'`..`'9'`. Its contract is `QrHelpers.OnlyDigitsSpec`. |
| QrHelpers.StripDateSeparators | utils/qrHelpers.ts:48-49 | `replace(/[-:]/g, '')` as a filter that drops `-` and `:`. Its contract is `QrHelpers.StripDateSeparatorsSpec`. |
| UriEncoding.EncodeURIComponent | utils/qrHelpers.ts:17 | `encodeURIComponent`, character by character: an unreserved character stays, any other becomes the `%XX` escapes of its UTF-8 bytes. Its contract is the `UriEncoding` lemmas below, above all `DecodeEncode`. |
| QrHelpers.UrlLikeTypesEchoUrl | utils/qrHelpers.ts:5-11 | For the six link-like types the payload is the URL verbatim, and it is empty when no URL is set. |
| QrHelpers.UnknownTypeIsEmpty | utils/qrHelpers.ts:52-53 | A type outside the enumeration gives the empty payload. |
| QrHelpers.UnsetIsEmpty | utils/qrHelpers.ts:3-55 | On every branch, a field that is absent and a field that is empty give the same payload. |
| QrHelpers.OnlyDigitsSpec | utils/qrHelpers.ts:27 | The phone filter leaves only ASCII digits, keeps each digit as often as it occurs, keeps the original order, and is idempotent. |
| QrHelpers.OnlyDigitsOfDigits | utils/qrHelpers.ts:27 | A phone number made only of digits passes the filter unchanged. |
| QrHelpers.OnlyDigitsDropsArabicIndicDigits | utils/qrHelpers.ts:27 | Digits outside ASCII do not count as digits for `\D`, so they are removed. |
| QrHelpers.StripDateSeparatorsSpec | utils/qrHelpers.ts:48-49 | Stripping the dates leaves no `-` and no `:`, keeps every other character as often as it occurs and in order, and is idempotent. |
| UriEncoding.EncodeIsEscapedText | utils/qrHelpers.ts:17 | The encoding of any text is a sequence of unreserved characters and `%XX` escapes, and is at least as long as the text. |
| UriEncoding.EncodeConcat | utils/qrHelpers.ts:17 | Encoding distributes over concatenation, character by character. |
| UriEncoding.EncodeAlphabet | utils/qrHelpers.ts:17 | An encoded value contains only unreserved characters, `%` and uppercase hex digits, so no space, `&`, `=`, `?`, `#` or `+`. It cannot break the `mailto:` or `wa.me` query. |
| UriEncoding.EncodeIdentityIff | utils/qrHelpers.ts:28 | Encoding leaves a text unchanged if and only if every character of it is unreserved; otherwise the result is strictly longer. |
| UriEncoding.HexValueOfHexChar | utils/qrHelpers.ts:17 | Reading back the hex digit written for a nibble gives the nibble. |
| UriEncoding.Utf8RoundTrip | utils/qrHelpers.ts:17 | Decoding the UTF-8 bytes of one scalar value gives that value back, and the lead byte announces the right length. |
| UriEncoding.ReadEscaped | utils/qrHelpers.ts:17 | Reading `k` escapes from an escaped byte sequence gives its first `k` bytes. |
| UriEncoding.DecodeEncodedChar | utils/qrHelpers.ts:17 | Decoding the encoding of one character followed by any text gives the character in front of the decoded rest. |
| UriEncoding.DecodeEncode | utils/qrHelpers.ts:17 | `decodeURIComponent(encodeURIComponent(s)) == s` for every text. |
| Payloads.EmailShape | utils/qrHelpers.ts:17 | The e-mail payload is `mailto:`, the address, `?subject=`, the encoded subject, `&body=` and the encoded body. |
| Payloads.EmailRoundTrip | utils/qrHelpers.ts:16-17 | Reading the `mailto:` payload gives back the address, the subject and the body, provided the address has no `?`. |
| Payloads.PhoneRoundTrip | utils/qrHelpers.ts:19-20 | Reading the `tel:` payload gives back the phone number as typed. |
| Payloads.SmsRoundTrip | utils/qrHelpers.ts:22-23 | Reading the `SMSTO:` payload gives back the phone and the message, provided the phone has no `:`. The message may contain anything. |
| Payloads.WhatsAppRoundTrip | utils/qrHelpers.ts:25-28 | Reading the `wa.me` link gives back the digits of the phone and the message, with no side condition. |
| Payloads.WifiRoundTrip | utils/qrHelpers.ts:30-31 | Reading the `WIFI:` payload gives back the encryption (WPA when unset), the SSID and the password, provided none of them holds `;`. |
| Payloads.WifiFraming | utils/qrHelpers.ts:31 | Every Wi-Fi payload starts with `WIFI:T:` and ends with `;;`. |
| PayloadLayout.VCardTextIsJoined | utils/qrHelpers.ts:34-41 | The vCard text is its eight lines joined by line feeds. |
| PayloadLayout.VCardTextLineFeeds | utils/qrHelpers.ts:34-41 | The vCard text has seven line feeds of its own, plus those of its fields. The names count twice because N and FN both carry them. |
| PayloadLayout.VCardIsJoinedLines | utils/qrHelpers.ts:33-41 | The vCard payload is the eight lines BEGIN, VERSION:3.0, N, FN, ORG, TEL, EMAIL and END, joined by line feeds. |
| PayloadLayout.VCardLineCount | utils/qrHelpers.ts:33-41 | The vCard payload splits into 8 lines plus the fields' line feeds, so it has exactly eight lines if and only if no field holds a line feed. |
| PayloadLayout.VCardReadsBack | utils/qrHelpers.ts:33-41 | When no field holds a line feed, splitting the vCard payload at line feeds gives back its eight lines. |
| PayloadLayout.EventTextIsJoined | utils/qrHelpers.ts:45-50 | The VEVENT text is its six lines joined by line feeds. |
| PayloadLayout.EventTextLineFeeds | utils/qrHelpers.ts:45-50 | The VEVENT text has five line feeds of its own, plus those of its four fields. |
| PayloadLayout.StripKeepsLineFeeds | utils/qrHelpers.ts:48-49 | Stripping `-` and `:` from a date keeps every line feed it holds. |
| PayloadLayout.EventIsJoinedLines | utils/qrHelpers.ts:43-50 | The event payload is BEGIN, SUMMARY, LOCATION, DTSTART and DTEND (with the dates stripped) and END, joined by line feeds. |
| PayloadLayout.EventLineCount | utils/qrHelpers.ts:43-50 | The event payload splits into 6 lines plus the fields' line feeds, so it has exactly six lines if and only if no field holds a line feed. |
| PayloadLayout.EventReadsBack | utils/qrHelpers.ts:43-50 | When no field holds a line feed, splitting the event payload gives back its six lines. |
| QrExamples.StripDateHalf | utils/qrHelpers.ts:48 | `2023-12-31` becomes `20231231`. |
| QrExamples.StripTimeHalf | utils/qrHelpers.ts:48 | `T19:00:00` becomes `T190000`. |
| QrExamples.StripDateExample | utils/qrHelpers.ts:48 | The start `2023-12-31T19:00:00` becomes `20231231T190000`. |
| QrExamples.EventStartExample | utils/qrHelpers.ts:43-50 | An event with only that start has six lines, and the fourth is `DTSTART:20231231T190000`. |
| QrExamples.PhonePrefixDigits | utils/qrHelpers.ts:27 | `+55 (11) ` keeps only `5511`. |
| QrExamples.PhoneNumberDigits | utils/qrHelpers.ts:27 | `99999-9999` keeps only `999999999`. |
| QrExamples.PhoneDigitsExample | utils/qrHelpers.ts:27 | `+55 (11) 99999-9999` becomes `5511999999999`. |
| QrExamples.WhatsAppExample | utils/qrHelpers.ts:25-28 | That phone with the message `Oi` gives `https://wa.me/5511999999999?text=Oi`. |
| QrExamples.EncodeSubjectExample | utils/qrHelpers.ts:17 | The subject `Hi there` is encoded as `Hi%20there`. |
| QrExamples.EncodeAmpersandExample | utils/qrHelpers.ts:17 | ` & ` is encoded as `%20%26%20`, so an ampersand cannot end the subject or the body early. |
| QrExamples.EncodeBodyExample | utils/qrHelpers.ts:17 | The body `Hello & welcome` is encoded as `Hello%20%26%20welcome`. |
| QrExamples.EmailExample | utils/qrHelpers.ts:16-17 | The address `a@b.com` with that subject and body gives `mailto:a@b.com?subject=Hi%20there&body=Hello%20%26%20welcome`. |
| QrExamples.WifiExample | utils/qrHelpers.ts:30-31 | The SSID `Home` and password `secret` with no encryption set give `WIFI:T:WPA;S:Home;P:secret;;`. |
| InputForm.HandleChange | components/InputForm.tsx:11-14 | The input's field takes the typed value, and every other field keeps its value. |
| InputForm.ChangeToSameValueIsNoOp | components/InputForm.tsx:11-14 | Typing the value a field already holds gives back the same record. |
| InputForm.LastChangeWins | components/InputForm.tsx:11-14 | Two changes of one field give the record of the second change alone. |
| InputForm.ChangesCommute | components/InputForm.tsx:11-14 | Changes of two different fields give the same record in either order. |
| InputForm.EditableFields | components/InputForm.tsx:20-195 | The fields the form renders an input for, per type: the URL for the six link-like types, the text, the address, subject and body, the phone, the phone and message for SMS and WhatsApp, SSID, password and encryption, the five vCard fields, the four event fields, and none for another tag. The lemmas below tie it to the formatter in both directions. |
| InputForm.EditableFieldsShape | components/InputForm.tsx:20-48 | The six link-like types, and only they, show just the URL input. A type outside the enumeration, and only it, shows no input. |
| InputForm.OnlyEditableFieldsMatter | components/InputForm.tsx:20-195 | Two details records that agree on the fields the form shows for a type give the same payload for it, so the formatter reads no hidden field. |
| InputForm.HiddenFieldsIgnored | components/InputForm.tsx:20-195 | Changing a field the form does not show for the type leaves the payload unchanged. |
| InputForm.EditableFieldsMatter | components/InputForm.tsx:20-195 | Every field the form shows for a type reaches the payload: typing `1` into it, when it is empty, changes the payload whatever the other fields hold. |
| InputForm.EmailFieldsMatter | components/InputForm.tsx:66-82 | Typing `1` into an empty e-mail input makes the payload one character longer. |
| InputForm.SmsFieldsMatter | components/InputForm.tsx:92-104 | Typing `1` into an empty SMS input makes the payload one character longer. |
| InputForm.WhatsAppFieldsMatter | components/InputForm.tsx:106-118 | Typing `1` into an empty WhatsApp input makes the payload one character longer. |
| InputForm.WifiFieldsMatter | components/InputForm.tsx:120-140 | Typing `1` into the empty SSID or password makes the payload one character longer. Typing `1` as the encryption replaces the `WPA` default, so the payload becomes two characters shorter. |
| InputForm.VCardFieldsMatter | components/InputForm.tsx:142-168 | Typing `1` into an empty name adds two characters, because both N and FN carry it; any other vCard input adds one. |
| InputForm.EventFieldsMatter | components/InputForm.tsx:170-192 | Typing `1` into an empty event input makes the payload one character longer. |
| InputForm.ShownValue | components/InputForm.tsx:36-188 | What each input shows: `data.f \|\| ''`, and `data.encryption \|\| 'WPA'` for the select. Its contract is `InputForm.ShownAfterChange` and `EncryptionSelectMatchesPayload`. |
| InputForm.EncryptionOptions | components/InputForm.tsx:133-137 | The three options of the select, `WPA`, `WEP` and `nopass`, in their order on screen. |
| InputForm.ShownAfterChange | components/InputForm.tsx:11-14 | The inputs are controlled. After typing a non-empty value, that input shows it and every other input shows what it showed. A cleared input shows `''`, or WPA for the encryption select. |
| InputForm.EncryptionSelectMatchesPayload | components/InputForm.tsx:133-137 | The select shows WPA when the encryption is unset, which is what the payload carries. It always shows one of its three options when the field is unset, empty or one of them. |
| InputForm.PickEncryption | components/InputForm.tsx:133-137 | Picking an option stores it; the select then shows it and the payload then carries it. |
| QrPreview.HandleFrameSelect | components/QRPreview.tsx:42-49 | Picking a style: the frame is drawn if and only if the style is not Simple. Scan Me sets `SCAN ME`. The other styles keep the current text, or set `ESCANEAR` when it is empty. Both colours are unchanged. |
| QrPreview.HandleColorChange | components/QRPreview.tsx:38-40 | The named colour takes the picked value; the other colour, the text, the style and the enabled flag are unchanged. |
| QrPreview.HandleTextChange | components/QRPreview.tsx:118 | The custom text input sets the frame text verbatim and changes nothing else. |
| QrPreview.FrameBackground | components/QRPreview.tsx:59 | The background of the downloadable area: the background colour when the frame is enabled, white otherwise. Its contract is `QrPreview.FrameBackgroundFollowsStyle`. |
| QrPreview.FrameBackgroundFollowsStyle | components/QRPreview.tsx:42-59 | On a frame the style buttons produced, the downloadable area is white for the Simple style and has the chosen background colour for the other two. |
| QrPreview.CanvasValue | components/QRPreview.tsx:66 | The canvas never receives an empty value: it gets the payload when there is one, and `https://example.com` otherwise. |
| QrPreview.DownloadEnabled | components/QRPreview.tsx:159 | The download button's rule `!(!value \|\| downloading)` (no contract of its own). Its contract is `QrPreview.DownloadOnlyRealPayload`. |
| QrPreview.LabelColor | components/QRPreview.tsx:78 | The label colour as the preview's style expression writes it. Its contract is `QrPreview.LabelColorOnWhiteOnly`. |
| QrPreview.LabelColorOnWhiteOnly | components/QRPreview.tsx:78 | The label under the code takes the code colour exactly when the background is `#ffffff`, and is white otherwise. The black-on-black case needs no branch of its own. |
| QrPreview.DownloadOnlyRealPayload | components/QRPreview.tsx:66-159 | Whenever the download is enabled, the canvas shows the real payload, never the placeholder. |
| QrPreview.FrameSelectIdempotent | components/QRPreview.tsx:42-49 | Picking the same style twice is the same as picking it once. |
| QrPreview.FrameSelectConsistent | components/QRPreview.tsx:42-49 | After any style is picked, the frame text is non-empty and the frame is consistent: enabled exactly when not Simple, and `SCAN ME` under Scan Me. |
| QrPreview.ColorChangeConsistent | components/QRPreview.tsx:126-155 | The colour pickers keep a consistent frame consistent. |
| QrPreview.TextChangeConsistent | components/QRPreview.tsx:112-123 | The custom-text input, which is shown only for the Custom style, keeps a consistent frame consistent. |
| QrPreview.ScanMeThenCustom | components/QRPreview.tsx:47 | Switching from Scan Me to Custom keeps the text `SCAN ME`, not the `ESCANEAR` default. |
| Application.NavItems | App.tsx:38-53 | The fourteen menu items with their captions, in their order on screen. Its contract is `Application.NavItemsListEachTypeOnce`. |
| Application.InitialFrame | App.tsx:18-24 | The initial frame: enabled, `SCAN ME`, the Scan Me style, black code on black. |
| Application.AppState.Valid | App.tsx:26-30 | The invariant every handler keeps: the payload is the formatter's output for the current type and details, as the effect keeps it, and the frame is consistent. |
| Application.MenuIndex | App.tsx:38-53 | Every declared type has a position in the menu, and the item at that position is that type. |
| Application.NavItemsListEachTypeOnce | App.tsx:38-53 | The menu has fourteen items. Each is a declared type, every declared type appears, and no type appears twice. |
| Application.InitialPayloadIsGenerated | App.tsx:14-24 | The initial empty payload is already the formatter's output for a link with empty details, and the initial frame is consistent. |
| Application.AppState.constructor | App.tsx:14-24 | The initial state: a link, empty details, an empty payload and the Scan Me frame in black on black. It satisfies the invariant. |
| Application.AppState.Recompute | App.tsx:27-30 | The effect sets the payload to the formatter's output for the current type and details, and changes nothing else. |
| Application.AppState.HandleTypeChange | App.tsx:33-36 | Choosing a type selects it, clears the details, recomputes the payload and keeps the frame. The invariant is preserved. |
| Application.AppState.SelectNavItem | App.tsx:76-79 | Clicking a menu button selects that button's type with empty details. The invariant is preserved. |
| Application.AppState.SetDetails | App.tsx:103-107 | The form's `onChange` replaces the details and recomputes the payload for the same type. The invariant is preserved. |
| Application.AppState.HandleFieldChange | components/InputForm.tsx:11-14 | Typing into an input updates that one field and recomputes the payload. A field the current type does not show leaves the payload as it was. The invariant is preserved. |
| Application.AppState.SelectFrameStyle | App.tsx:117-121 | A style button replaces the frame by `handleFrameSelect`'s result and leaves the type, the details and the payload alone. The invariant is preserved. |
| Application.AppState.ChangeColor | App.tsx:117-121 | A colour picker replaces the frame by `handleColorChange`'s result and leaves everything else alone. The invariant is preserved. |
| Application.AppState.EditFrameText | App.tsx:117-121 | The custom-text input replaces the frame text and leaves everything else alone. The invariant is preserved. |

## Left out

- Rendering the barcode, the frame decoration and the icons, the page
  layout, captions and the footer: these are presentation only.
- Exporting the preview as a PNG and the asynchronous download with its
  error alert: these are browser I/O. Only the `downloading` flag's effect
  on the button is modelled, as a parameter of `QrPreview.DownloadEnabled`.
- React's state scheduling: each setter takes effect at once, and the
  effect runs right after the type or the details change
  (`Application.AppState.Recompute` is called inside each handler).
- The `maxLength` of the custom frame text: it is an input attribute
  enforced by the browser, not by the program.
- `encodeURIComponent`'s URIError on a lone surrogate: Dafny's `char` is a
  Unicode scalar value, so a lone surrogate cannot occur in the model.
- The TypeScript type restricts `encryption` to `WPA`, `WEP` or `nopass`,
  but nothing in the program enforces it. The model allows any string there; the
  select keeps to the three options (`InputForm.EncryptionSelectMatchesPayload`).
- `decodeURIComponent` and the payload readers are not part of the
  application: they are the inverses of the encoder and of the formatter's
  branches, written out so that round trips can be stated.
- Payloads.EmailRoundTrip: holds only for an address without `?`, because
  the formatter does not escape the address and a `?` in it ends it early.
- Payloads.SmsRoundTrip: holds only for a phone number without `:`, because
  the formatter does not escape the phone and a `:` in it ends it early.
- Payloads.WifiRoundTrip: holds only when the encryption, SSID and password
  hold no `;`, because the formatter does not escape `;`, `:`, `,` or `\`
  as the Wi-Fi QR convention asks.
- PayloadLayout.VCardReadsBack: holds only when no field holds a line feed,
  because the formatter does not fold or escape line feeds.
  `PayloadLayout.VCardLineCount` states what happens otherwise.
- PayloadLayout.EventReadsBack: the same side condition, for the same
  reason. `PayloadLayout.EventLineCount` covers the other case.
- InputForm.HandleChange: the input's `name` is one of the sixteen field
  names (`Types.Field`), not an arbitrary string, because every input of
  the form carries one of them.
- Application.AppState.EditFrameText: requires the Custom style, because
  the custom-text input is rendered only for it.
- QrExamples.EmailExample, QrExamples.EncodeSubjectExample,
  QrExamples.EncodeBodyExample, QrExamples.StripDateExample,
  QrExamples.PhoneDigitsExample, QrExamples.WhatsAppExample and
  QrExamples.EventStartExample write their
  long sample strings as concatenations of two or three literal pieces
  (`"Hi" + " " + "there"`) rather than as one literal: the strings are the
  same, but one long literal makes the prover unfold the whole string at
  once.
