# Eco-BTP Deal: the chat widget, the serverless handlers, the listing form and the CSR dashboard, in Dafny

Eco-BTP Deal is a marketplace for reusing construction materials. This project
models six parts of its web front end and serverless API, and proves
properties of each model:

- **The support chat widget** (`SurplusChat`, with `SurplusQuantity` and `SurplusCo2`).
  It greets the user and offers three quick replies. One of them starts a guided
  four-step "declare a surplus" dialogue: material type, then quantity, then
  state, then location. The quantity is parsed out of free text. Tonnes are
  converted to kilograms.
  The CO2 the surplus avoids is estimated from a coefficient table that is
  searched by substring. The search uses the lower-cased, accent-stripped
  material name. The running impact totals grow with each declaration.
  Outside the dialogue, the widget echoes each message and posts the
  conversation to the chat relay. The relay's answer, or an apology, is shown.
  The widget is a class, `ChatSession`, whose methods update its fields in
  place. Each method is proved equal to a step function on a `Session` value.
  The lemmas are about those step functions.
- **The chat relay** (`api/chat.ts`, module `ChatRelay`).
  It checks the method, the messages and the API key, in that order. It builds
  the system prompt, with the visitor's name and e-mail when a lead is known.
  It forwards the history to the completion service and re-emits every text
  delta as one server-sent event. It ends with `data: [DONE]`. When the stream
  fails, it ends with an error event or a 500 JSON reply. The response object
  is a class, `ServerResponse`. The handler is a method with a loop, proved
  against `Respond`.
- **The lead notification** (`api/lead.ts`, module `LeadNotice`).
  It checks the method and the name/e-mail pair. It renders the transcript. It
  builds the notification's subject and body, and hands the mail to the e-mail
  relay when a relay key is configured.
- **The transcription endpoint** (`api/transcribe.ts`, module `Transcribe`).
  It checks the method, the key and the audio, in that order. It extracts the
  base64 payload of a data URI with `split(",")[1]`. It picks the file
  extension from the MIME type the URI names. It returns the transcript or the
  error.
- **The listing form** (`components/PostListing.tsx`, module `ListingForm`).
  The `PostListingForm` class covers uploading photos and removing them, and
  the address search with its selection. The publish checks and the published
  record are functions, and `parseFloat` is modelled on the price.
- **The CSR impact dashboard** (`components/RSEImpactDashboard.tsx`, module `ImpactDashboard`).
  Three folds over the listed materials give the kilograms reused, the CO2
  avoided and the savings against buying new. Each total sits on a historical
  figure. A material type outside the coefficient table turns a total into NaN.
  The dashboard also shows a tree-count equivalence, and names the report file
  from a slug of the company name.

Shared modules:
- `Strings` holds JavaScript's `\s`, `\d`, `toLowerCase`, `includes`, `trim`,
  `join`, `.length` and decimal rendering.
- `Json` holds `JSON.stringify` of a string and reading it back.
- `Http` holds the reply shapes and the `catch` message rule.
- `Wrappers` holds `Option`.

Environment variables, the clock, the completion and transcription services,
the e-mail relay and the geocoding service are parameters of the handlers.
Their possible answers are datatypes (`Upstream`, `WhisperResult`, `Delivery`,
`Option<seq<GeocodedAddress>>`). Every outcome the source handles is modelled.

## Model

| member | source | states |
|---|---|---|
| SurplusQuantity.ParseQuantity | components/SupportChatbot.tsx:219-223 | the quantity parse fails exactly when the answer holds no ASCII digit; a quantity read is never negative |
| SurplusQuantity.WholeQuantity | components/SupportChatbot.tsx:219-223 | for text, digits, blanks and a word: the digits' value, times 1000 exactly when the word starts with `t` or `T` |
| SurplusQuantity.BareSeparatorQuantity | components/SupportChatbot.tsx:219-223 | a separator with no digit after it ("5.kg", "5,t") ends the number: the whole part is read, in kilograms |
| SurplusQuantity.DecimalQuantity | components/SupportChatbot.tsx:219-223 | a number with a `.` or `,` fraction reads as its decimal value, an exact real rather than a double, times 1000 for a word starting with `t` |
| SurplusQuantity.ReadQuantityCommas | components/SupportChatbot.tsx:221 | the number read from an answer is the same once every comma is written as a point |
| SurplusQuantity.CommaIsDecimalPoint | components/SupportChatbot.tsx:221 | `a,b` and `a.b` give the same quantity |
| SurplusQuantity.KilogramsExample | components/SupportChatbot.tsx:214 | "500 kg" reads as 500 kg |
| SurplusQuantity.TonnesExample | components/SupportChatbot.tsx:214 | "2 tonnes" reads as 2000 kg |
| SurplusQuantity.DecimalTonnesExample | components/SupportChatbot.tsx:219-223 | "1.5 t" and "1,5 t" both read as 1500 kg |
| SurplusQuantity.TuilesExample | components/SupportChatbot.tsx:219-223 | "5 tuiles" reads as 5000 kg: the unit group matches the `t` of any word |
| SurplusQuantity.LeadingTextExample | components/SupportChatbot.tsx:219 | text before the first number is skipped: "environ 12kg" reads as 12 |
| SurplusQuantity.NoNumberExample | components/SupportChatbot.tsx:220 | "beaucoup" does not match |
| SurplusCo2.Round | components/SupportChatbot.tsx:198 | `Math.round`: the nearest integer, a half rounded up |
| SurplusCo2.StripAccents | components/SupportChatbot.tsx:195 | after NFD and the removal of combining marks, no accented letter and no combining mark is left, and the name is no longer |
| SurplusCo2.StripAccentsFixes | components/SupportChatbot.tsx:195 | a name without accents or combining marks is unchanged |
| SurplusCo2.AccentedKeyNeverOccurs | components/SupportChatbot.tsx:195-197 | a key holding an accented letter never occurs in a normalised name |
| SurplusCo2.FirstMatchFrom | components/SupportChatbot.tsx:196-197 | the index found is a key that occurs in the name, and no earlier key occurs |
| SurplusCo2.Coefficient | components/SupportChatbot.tsx:194-202 | the coefficient applied is always positive |
| SurplusCo2.CalculateCO2 | components/SupportChatbot.tsx:194-202 | the loop returns `Co2Saved`: the rounded product with the first matching key's coefficient, else with 0.5 |
| SurplusCo2.CoefficientIsFirstMatch | components/SupportChatbot.tsx:196-199 | if key k occurs and no earlier key does, the coefficient is key k's |
| SurplusCo2.CoefficientDefault | components/SupportChatbot.tsx:201 | with no key occurring, the coefficient is 0.5 |
| SurplusCo2.AccentedKeysNeverMatch | components/SupportChatbot.tsx:17-30 | the `béton` and `plâtre` entries can never be the match |
| SurplusCo2.Co2SavedNonNegative | components/SupportChatbot.tsx:194-202 | a non-negative quantity never gives a negative estimate |
| SurplusCo2.SteelExample | components/SupportChatbot.tsx:18 | 500 kg of "acier" avoid 900 kg of CO2 |
| SurplusCo2.BetonNormalized | components/SupportChatbot.tsx:195 | "béton" normalises to "beton" |
| SurplusCo2.ConcreteExample | components/SupportChatbot.tsx:19-20 | "béton" is matched by the `beton` entry, coefficient 0.2 |
| SurplusCo2.PlatreNormalized | components/SupportChatbot.tsx:195 | "plâtre" normalises to "platre" |
| SurplusCo2.PlasterExample | components/SupportChatbot.tsx:28 | "plâtre" gets the default 0.5, not the table's 0.15 |
| SurplusCo2.PlasticExample | components/SupportChatbot.tsx:201 | 100 kg of "plastique" avoid 50 kg of CO2 |
| SurplusChat.ApiHistory | components/SupportChatbot.tsx:167-172 | the history is never longer than the conversation, and every role is `user` or `assistant` |
| SurplusChat.ApiHistoryMapsEach | components/SupportChatbot.tsx:167-172 | without the greeting, the history maps message for message, in order |
| SurplusChat.RequestFollowsConversation | components/SupportChatbot.tsx:165-174 | the posted messages are every message after the greeting, in order, with role `user` exactly for the user's, then the new trimmed text |
| SurplusChat.RelayAnswerShown | components/SupportChatbot.tsx:186-191 | the relay's text is shown verbatim; the apology is shown exactly when the call failed |
| SurplusChat.NumberTextOfNat | components/SupportChatbot.tsx:270 | a whole number is shown as its decimal digits |
| SurplusChat.QuantityAnswer | components/SupportChatbot.tsx:218-240 | at the quantity step, the answer is stored only when it parses; otherwise only the two messages are added |
| SurplusChat.ChatSession.constructor | components/SupportChatbot.tsx:125-138 | the widget starts with the greeting alone, no flow, quick replies shown and zero totals; the invariant holds |
| SurplusChat.ChatSession.AddMessage | components/SupportChatbot.tsx:154-163 | appends one message with a fresh id; nothing else changes |
| SurplusChat.ChatSession.HandleSurplusFlow | components/SupportChatbot.tsx:204-282 | the new state is `SurplusStep` of the old one |
| SurplusChat.ChatSession.AnswerType | components/SupportChatbot.tsx:208-216 | the new state is `SurplusStep` of the old one |
| SurplusChat.ChatSession.AnswerQuantity | components/SupportChatbot.tsx:218-240 | the new state is `SurplusStep` of the old one |
| SurplusChat.ChatSession.AcceptQuantity | components/SupportChatbot.tsx:220-231 | stores the quantity in kg, moves to the state step, adds the answer and the question |
| SurplusChat.ChatSession.RejectQuantity | components/SupportChatbot.tsx:232-239 | adds the answer and the "not understood" line; nothing else changes |
| SurplusChat.ChatSession.AnswerState | components/SupportChatbot.tsx:242-250 | the new state is `SurplusStep` of the old one |
| SurplusChat.ChatSession.AnswerLocation | components/SupportChatbot.tsx:252-280 | the new state is `SurplusStep` of the old one |
| SurplusChat.ChatSession.HandleQuickReply | components/SupportChatbot.tsx:284-340 | the new state is `QuickReplyStep` of the old one |
| SurplusChat.ChatSession.HandleSend | components/SupportChatbot.tsx:342-364 | the new state is `SendStep`; the request posted is `SendRequest`; the invariant is kept |
| SurplusChat.InitialSessionValid | components/SupportChatbot.tsx:125-138 | the initial widget satisfies the invariant: greeting first and the only message with id '1', record consistent with its step, totals non-negative |
| SurplusChat.SurplusStepPreservesValid | components/SupportChatbot.tsx:204-282 | every dialogue answer keeps the invariant |
| SurplusChat.QuickReplyPreservesValid | components/SupportChatbot.tsx:284-340 | every quick reply keeps the invariant |
| SurplusChat.SendPreservesValid | components/SupportChatbot.tsx:342-364 | every send keeps the invariant |
| SurplusChat.DialogueIsLinear | components/SupportChatbot.tsx:204-282 | each answer keeps the old messages, then adds the echo and one bot message; the step advances by one, stays only on an unreadable quantity, or restarts after the location |
| SurplusChat.NextDataAdvances | components/SupportChatbot.tsx:204-282 | the record advances one step, restarts after the location, and is unchanged exactly on an unreadable quantity |
| SurplusChat.TextAnswersStored | components/SupportChatbot.tsx:208-250 | the type and state answers are stored verbatim in their one field, and nothing else changes |
| SurplusChat.QuantityStored | components/SupportChatbot.tsx:220-231 | a readable quantity is stored in kilograms with unit "kg", and nothing else changes |
| SurplusChat.MalformedQuantityKeepsState | components/SupportChatbot.tsx:232-239 | an answer without a digit only adds the two messages |
| SurplusChat.LocationCompletes | components/SupportChatbot.tsx:252-280 | the totals grow by the quantity and by its CO2 estimate; the record restarts; the flow ends; the quick replies return; the summary is sent |
| SurplusChat.TotalsNeverDecrease | components/SupportChatbot.tsx:258-263 | neither running total ever goes down; quick replies leave them unchanged |
| SurplusChat.BlankInputIgnored | components/SupportChatbot.tsx:343 | sending changes nothing exactly when the text is blank; a posted request always comes with a visible change |
| SurplusChat.SendRouting | components/SupportChatbot.tsx:342-364 | in the surplus flow the trimmed text answers the dialogue and nothing is posted; otherwise it is echoed, the reply follows, and the pre-echo history is posted |
| SurplusChat.MaterialSent | components/SupportChatbot.tsx:208-216 | sending the material stores it and waits for the quantity |
| SurplusChat.QuantitySent | components/SupportChatbot.tsx:218-231 | sending a readable quantity stores it and waits for the state |
| SurplusChat.StateSent | components/SupportChatbot.tsx:242-250 | sending the state waits for the location and keeps type and quantity |
| SurplusChat.LocationSent | components/SupportChatbot.tsx:252-280 | sending the location folds the declaration into the totals and returns the widget to rest |
| SurplusChat.SurplusButtonPressed | components/SupportChatbot.tsx:289-300 | the surplus button starts the dialogue at its first step |
| SurplusChat.WholeDeclaration | components/SupportChatbot.tsx:204-282 | a full declaration adds the quantity and its estimate to the totals, adds eight messages, and leaves the widget at rest |
| SurplusChat.SteelAnswer | components/SupportChatbot.tsx:18 | "acier" is its own trim and 500 kg of it avoid 900 kg of CO2 |
| SurplusChat.AmountAnswer | components/SupportChatbot.tsx:214 | "500 kg" reads as 500 kg after trimming |
| SurplusChat.PlainAnswers | components/SupportChatbot.tsx:343 | "neuf" and "Cergy" are not blank |
| SurplusChat.SteelDeclaration | components/SupportChatbot.tsx:204-282 | button, "acier", "500 kg", "neuf", "Cergy": +500 kg and +900 kg of CO2, ten messages |
| Strings.TrimEmptyIff | components/SupportChatbot.tsx:343 | `text.trim()` is empty exactly when the text is all blanks |
| Strings.TrimShape | components/SupportChatbot.tsx:345 | the trimmed text neither starts nor ends with a blank, and is a contiguous piece of the original |
| Strings.ToLower | components/SupportChatbot.tsx:195 | lowering keeps the length and maps each character on its own |
| Strings.ContainsWitness | components/SupportChatbot.tsx:197 | `includes` holds only through an occurrence at some position |
| Strings.JoinSnoc | api/lead.ts:23 | joining one more part appends the separator and that part |
| Strings.DecimalString | components/SupportChatbot.tsx:270 | the rendering is all digits and reads back as the number |
| Strings.Utf16Length | components/PostListing.tsx:42 | `.length` counts at least one and at most two code units per character |
| Json.UnescapeEscape | api/chat.ts:86 | reading back a `JSON.stringify`-ed string gives the string |
| Json.EscapeHasNoLineBreak | api/chat.ts:86 | a stringified string holds no raw line break |
| Json.EscapePlain | api/chat.ts:86 | a string without quote, backslash or control character is written unchanged |
| ChatRelay.Forwarded | api/chat.ts:71-74 | the forwarded history has the same roles and contents, in order |
| ChatRelay.DeltaTexts | api/chat.ts:81-88 | never more texts than events |
| ChatRelay.DeltaTextsAppend | api/chat.ts:81-88 | the texts of later events come after those of earlier ones: arrival order is kept |
| ChatRelay.DeltaTextsOfOne | api/chat.ts:82-87 | an event yields its text exactly when it is a text delta, and nothing otherwise |
| ChatRelay.ServerResponse.constructor | api/chat.ts:44 | a fresh response: status 200, nothing written, not ended |
| ChatRelay.ServerResponse.Write | api/chat.ts:86 | appends the chunk and marks the headers as sent |
| ChatRelay.ServerResponse.End | api/chat.ts:91 | ends the response; nothing else changes |
| ChatRelay.ServerResponse.StatusJson | api/chat.ts:45-47 | sets the status and JSON body, and ends the response |
| ChatRelay.Fail | api/chat.ts:92-99 | the catch block: a 500 JSON reply when nothing was sent yet, otherwise one error event and the end |
| ChatRelay.Handle | api/chat.ts:44-100 | the handler's effect is `Respond`, and the completion call it makes is `CompletionCall` |
| ChatRelay.LeadExtendsPrompt | api/chat.ts:63-65 | the prompt is the standing one exactly when there is no lead; a lead's section only extends it |
| ChatRelay.LeadSectionNamesUser | api/chat.ts:64 | the extended prompt contains the lead's name line and e-mail line |
| ChatRelay.ChecksInOrder | api/chat.ts:45-59 | method, then messages, then key; a refused request is never forwarded and its answer does not depend on the service |
| ChatRelay.AcceptedForwarded | api/chat.ts:67-75 | an accepted request forwards its history unchanged, with the fixed model, 1024 tokens and the lead's prompt |
| ChatRelay.FramesPerDelta | api/chat.ts:81-88 | the text frames are the deltas' texts, one frame each, in order |
| ChatRelay.TextFrameReadBack | api/chat.ts:86 | a text frame reads back as its text |
| ChatRelay.OtherFramesReadNothing | api/chat.ts:90-97 | the `[DONE]` and error frames never read as text |
| ChatRelay.ClientReadsDeltas | api/chat.ts:81-88 | a client reading the text frames in order gets the deltas back, in order |
| ChatRelay.DoneNotText | api/chat.ts:90 | `[DONE]` is never among the text frames |
| ChatRelay.StreamFinished | api/chat.ts:81-91 | on completion: every text frame, then exactly one `[DONE]`, then the end |
| ChatRelay.StreamFailed | api/chat.ts:92-99 | on failure: a 500 JSON error when nothing was written, otherwise the text frames and one error frame; never `[DONE]` |
| ChatRelay.CaughtAfterRelay | api/chat.ts:92-99 | the failure rule applied to what the loop wrote |
| ChatRelay.ErrorFrameIsNotDone | api/chat.ts:90-97 | an error frame is never the `[DONE]` frame |
| ChatRelay.StreamRefused | api/chat.ts:92-96 | a stream that cannot be opened is answered like a failure before any write |
| ChatRelay.FrameIsEvent | api/chat.ts:86 | a one-line payload framed with `data: ` and a blank line is one server-sent event |
| ChatRelay.TextFramesAreEvents | api/chat.ts:81-88 | every text frame is one server-sent event |
| ChatRelay.ClosingFramesAreEvents | api/chat.ts:90-97 | the `[DONE]` and error frames are one event each |
| ChatRelay.EveryFrameIsAnEvent | api/chat.ts:44-100 | every frame the handler writes is exactly one server-sent event |
| LeadNotice.TranscriptLines | api/lead.ts:19-22 | one line per message, each `Client: ` or `Assistant: ` followed by the content |
| LeadNotice.SpeakerShown | api/lead.ts:21 | a line starts with `Client: ` exactly for a `user` message, and with `Assistant: ` otherwise |
| LeadNotice.ConversationOfOne | api/lead.ts:18-24 | a one-message transcript is that message's line |
| LeadNotice.ConversationExtends | api/lead.ts:18-24 | a later message is rendered after the earlier ones, one blank line below |
| LeadNotice.EmptyConversation | api/lead.ts:18-24 | an empty array gives an empty transcript, not the fixed sentence |
| LeadNotice.SubjectNamesLead | api/lead.ts:28 | the subject can be read back to the lead's name |
| LeadNotice.BodyLines | api/lead.ts:29-38 | the body is made of eight lines |
| LeadNotice.BodyReadBack | api/lead.ts:29-38 | read line by line, the body gives the header, a blank line, the date, name and e-mail lines, and after the separator the whole transcript |
| LeadNotice.HandleLead | api/lead.ts:5-76 | a mail is handed over exactly for an identified POST with a relay key; 405 exactly for another method |
| LeadNotice.MissingIdentityRefused | api/lead.ts:13-15 | without a name or an e-mail: 400, and nothing is sent |
| LeadNotice.LeadAcknowledged | api/lead.ts:45-70 | unless the relay throws, an identified lead gets 200 `{success: true}` |
| LeadNotice.RelayStatusIgnored | api/lead.ts:47-59 | the relay's status never changes the outcome |
| LeadNotice.RelayFailureReported | api/lead.ts:71-75 | a relay that throws gives 500 with the error's message |
| LeadNotice.MailDescribesLead | api/lead.ts:45-59 | the mail goes to the site's inbox, names the lead in its subject, and ends with the transcript |
| Transcribe.Split | api/transcribe.ts:29 | at least one field; no field holds the separator; a string holding it gives at least two fields |
| Transcribe.SplitJoin | api/transcribe.ts:29 | joining the fields with the separator gives back the string |
| Transcribe.PayloadBetweenCommas | api/transcribe.ts:29 | the payload is the text between the first comma and the next one or the end; without a comma, the whole string |
| Transcribe.DataUriPayload | api/transcribe.ts:28-29 | a `header,data` URI with no other comma yields exactly its data |
| Transcribe.Extension | api/transcribe.ts:33-36 | the extension is one of mp4, ogg, wav, webm |
| Transcribe.ExtensionPriority | api/transcribe.ts:33-36 | each extension is chosen exactly when its MIME type is the first of mp4, ogg, wav to occur; webm when none does |
| Transcribe.FileTypeNamedByUri | api/transcribe.ts:33-41 | unless it fell back to webm, the file's type is a MIME type the URI names, and the file name has the same extension |
| Transcribe.HandleTranscribe | api/transcribe.ts:12-58 | the service is called exactly for a POST with a key and audio, and is sent the clip the URI describes |
| Transcribe.ChecksInOrder | api/transcribe.ts:13-26 | method, then key, then audio: 405 for another method; then 500 without a key; then 400 without audio |
| Transcribe.TranscriptionReply | api/transcribe.ts:45-57 | the call asks `whisper-1` for French plain text; then 200 with the transcript, or 500 with the error's message |
| Transcribe.DataUriOfType | api/transcribe.ts:28-36 | a data URI without other commas names its type and yields its data |
| Transcribe.OggClip | api/transcribe.ts:28-41 | an Ogg data URI is uploaded as `audio.ogg` of type `audio/ogg`, with just its base64 data |
| ListingForm.ImageUrlsAppend | components/PostListing.tsx:89-101 | a selection in two parts gives the first part's images, then the second's |
| ListingForm.NonImagesIgnored | components/PostListing.tsx:90 | a selection without an image adds no photo |
| ListingForm.ImagesAllKept | components/PostListing.tsx:89-101 | a selection of images adds each of them, in order |
| ListingForm.PhotosFromImages | components/PostListing.tsx:89-101 | every photo added comes from an image file of the selection |
| ListingForm.WithoutIndex | components/PostListing.tsx:108 | removes exactly the photo at a valid index, keeping the others in order; any other index changes nothing |
| ListingForm.RemoveUndoesAdd | components/PostListing.tsx:108 | removing the photo just added restores the list |
| ListingForm.ParseFloatOfInt | components/PostListing.tsx:134 | a rendered whole number parses back to itself |
| ListingForm.ParseFloatNoDigit | components/PostListing.tsx:134 | text with no digit parses as NaN |
| ListingForm.Publish | components/PostListing.tsx:111-152 | publishes exactly when there is a title, at least one photo and a selected address |
| ListingForm.PublishChecksInOrder | components/PostListing.tsx:112-120 | without a title or a photo, the photo/title alert comes first; otherwise, without an address, the location alert |
| ListingForm.PublishedListing | components/PostListing.tsx:127-149 | the cover is the first photo; the gallery is all photos; the quantity defaults to one lot; the deadline is urgent exactly for an urgent form; the address fields are copied |
| ListingForm.PriceRules | components/PostListing.tsx:134 | a gift costs 0; a sale with no price typed costs 0; a typed whole price is read back |
| ListingForm.PostListingForm.constructor | components/PostListing.tsx:22-37 | the empty form: no photos, empty query, no suggestions, nothing selected |
| ListingForm.PostListingForm.HandleFileChange | components/PostListing.tsx:85-105 | appends the data URLs of the image files, in order; no file list changes nothing |
| ListingForm.PostListingForm.RemovePhoto | components/PostListing.tsx:107-109 | the photos become `WithoutIndex` of the old ones; nothing else changes |
| ListingForm.PostListingForm.SelectLocation | components/PostListing.tsx:73-77 | selects the address, shows its label in the query field and clears the suggestions |
| ListingForm.PostListingForm.EditQuery | components/PostListing.tsx:315-318 | typing sets the query and drops the selection |
| ListingForm.PostListingForm.SearchLocation | components/PostListing.tsx:41-67 | under three code units the suggestions are cleared; otherwise the lookup's answer replaces them, and a failed lookup leaves them |
| ListingForm.HandlersKeepSelectionShown | components/PostListing.tsx:73-77 | every handler keeps the query field showing the selected address |
| ListingForm.FirstImageFirst | components/PostListing.tsx:89-101 | when the first file picked is an image, its data URL is the first photo |
| ListingForm.PublishAfterUpload | components/PostListing.tsx:111-152 | a titled form with an address and uploaded images publishes with the first image as its cover |
| ImpactDashboard.Co2Coefficient | components/RSEImpactDashboard.tsx:19-24 | a coefficient is a positive number exactly for the four table keys, and NaN otherwise |
| ImpactDashboard.NewPrice | components/RSEImpactDashboard.tsx:27-32 | a new price is a positive number exactly for the four table keys, and NaN otherwise |
| ImpactDashboard.EmptyDashboard | components/RSEImpactDashboard.tsx:55-66 | with no material, the figures are 1250 kg, 625 kg of CO2, 2840 € and 30 trees |
| ImpactDashboard.SumWeightsAppend | components/RSEImpactDashboard.tsx:55 | the weight fold over two lists is the sum of the two folds |
| ImpactDashboard.KilosGrowByWeight | components/RSEImpactDashboard.tsx:55 | one more material adds exactly its weight, or 0 without one |
| ImpactDashboard.Co2DefinedIff | components/RSEImpactDashboard.tsx:57-60 | the CO2 total is a number exactly when every type is a table key or missing |
| ImpactDashboard.SavingsDefinedIff | components/RSEImpactDashboard.tsx:62-66 | the savings total is a number exactly when every type is a table key or missing |
| ImpactDashboard.UnknownTypeIsNaN | components/RSEImpactDashboard.tsx:57-66 | one material typed outside the table makes the CO2 total, the trees and the savings NaN |
| ImpactDashboard.Co2AtLeastHistorical | components/RSEImpactDashboard.tsx:57-60 | with non-negative weights and known types, the CO2 total is at least 625 |
| ImpactDashboard.SteelLot | components/RSEImpactDashboard.tsx:57-60 | a 100 kg steel lot adds 180 kg to the CO2 total |
| ImpactDashboard.OverpricedLotLowersSavings | components/RSEImpactDashboard.tsx:62-66 | a lot bought for more than its new value lowers the savings |
| ImpactDashboard.DashBlanksLeavesNoBlank | components/RSEImpactDashboard.tsx:105 | no blank survives `replace(/\s+/g, '-')` |
| ImpactDashboard.DashBlanksFixes | components/RSEImpactDashboard.tsx:105 | a name without blanks is unchanged |
| ImpactDashboard.DashBlanksJoins | components/RSEImpactDashboard.tsx:105 | two words separated by a run of blanks are joined by one dash |
| ImpactDashboard.SlugIsFinal | components/RSEImpactDashboard.tsx:105 | a slug has no blank and no upper-case letter, and slugging it again changes nothing |
| ImpactDashboard.TwoWordReportName | components/RSEImpactDashboard.tsx:105 | a two-word name gives `rapport-rse-<first>-<second>-<day>.txt`, both words lower-cased |

## Left out

- Message ids and timestamps are not modelled. An id is either the greeting's `'1'` or a stamped id. `Date.now()` and `Math.random()` are not modelled.
- The typing indicator, the `setTimeout` delays, scrolling and focus are not modelled. Each handler's continuation is applied atomically: the input is disabled while the bot is typing.
- The transient `complete` step, which the location handler sets and then overwrites, is only visible inside `AnswerLocation`.
- `SurplusChat.NumberTextOfNat`: `toLocaleString()` is modelled as a rendering rounded to three decimals, without digit grouping. The locale is not fixed by the code.
- The impact display's tree and kilometre figures are not modelled. Neither is the relay call's `fetch` itself: `reply` is its outcome.
- The widget and the relay are modelled separately. The widget reads the relay's reply as JSON (`response.json()`), but the relay answers with an event stream. Deployed together, the widget would therefore take the apology path. The model lets `reply` be a string or a failed call. A `data.text` that is `undefined` or not a string is not modelled: the widget would store it and fail later when reading its text.
- The relay's headers (`Content-Type`, `Cache-Control`, `Connection`) are not modelled. Neither is the completion client's construction.
- The system prompt is identified by `SystemPromptChoice`. `SystemText` spells it out.
- Request bodies are taken as already parsed. A body that is missing, or one whose fields are not strings or arrays, makes destructuring throw. That throw is not modelled.
- `JSON.stringify` is modelled for string values: the escapes of `"`, `\` and the control characters. Lone surrogates cannot occur in a Dafny string.
- The lead handler's `console.log` lines when no relay key is set are not modelled. Neither is the `Authorization` header.
- The Paris-time timestamp is a parameter. The e-mail relay and the Whisper service are abstracted to their outcomes.
- `Buffer.from(base64Data, "base64")` decoding and the 10 MB body limit are not modelled. The uploaded file carries the base64 text.
- `SurplusQuantity.ParseQuantity`: JavaScript numbers (IEEE doubles) are exact reals here, so a quantity such as "1.001 t" is exactly 1001 kg. In doubles, `parseFloat("1.001") * 1000` is 1000.9999999999999. `Infinity` from an over-long digit run is not modelled.
- `SurplusCo2.CalculateCO2`: because the product is exact, the rounded estimate can differ by one from the source's when the product is near a half. For 1.001 t of "bois", the source computes `Math.round(500.49999999999994)`, which is 500. The model gives `Round(500.5)`, which is 501. Likewise 0.5025 t of "acier" gives 904 in the source and 905 in the model.
- `ImpactDashboard.TotalCo2`: the dashboard's three folds add and multiply exact reals, not doubles. Their totals can differ from the source's in the last binary digits.
- `ListingForm.ParseFloatOfInt`: `parseFloat` is modelled on decimal notation. It does not model exponents, `Infinity`, or binary floating-point rounding. Values are exact reals.
- `FileReader` completions are modelled in selection order. The browser may deliver them in another order. The input's reset (`e.target.value = ''`) is not modelled.
- The geocoding lookup is a parameter. Its 300 ms debounce, the cancellation of a pending search and `isSearchingLocation` are not modelled. Neither is a late answer arriving after the query changed.
- The `isPublishing` and `showSuccess` timers and `onPost` are not modelled. `Publish` returns the record handed to `onPost`.
- The form's field setters (title, quantity, price type, price, category, urgency, logistics) are not modelled. Each one replaces one field.
- The dashboard's report text, its `toFixed`/`toLocaleString` rendering, `user.siret`, the charts and the DOM download are not modelled. The report's file name is.
- Accent stripping covers the precomposed Latin-1 letters and the combining marks U+0300 to U+036F. Other canonical decompositions are not modelled.
- `toLowerCase` covers ASCII, Latin-1, Œ and Ÿ. Other scripts are not lowered.
