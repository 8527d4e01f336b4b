# PaymentApplication screen logic in Dafny

This project models the screen-level logic of a React Native payment app
with a voice login, and proves properties of that model. It covers:

- **Voice login** (`components/login.tsx`). `handleVoice` turns a transcript
  into an intent. It lower-cases the text, keeps `[a-z0-9\s]`, trims it, and
  rewrites the first occurrence of four mishearings of "sign up" to
  `signup`. Then it picks sign-up, a full phone number (the first ten
  digits), a partial number (store the digits, then retry) or nothing
  (retry). Around it sits the session: `activeRef`, `recordingRef`,
  `timeoutRef`, the phone field, the speech queue, the pending `await`s
  and the navigation log. Focus, blur, timers, speech completion,
  microphone permission, recorder results and backend replies are events.
- **Sign-up form** (`components/SignUp.tsx`). The form handlers, the digit
  filter on the phone box, the ordered validation chain and the bank
  selection.
- **Contact list and transaction history** (`components/ListOfContacts.tsx`,
  `components/TransactionHistoryPage.tsx`). The trimmed, lower-cased
  substring search with its blank-query shortcut, the avatar initials,
  the amount colour and type label, and the avatar's navigation.
- **Payment screen** (`components/PaymentPage.tsx`). Route defaults, the
  Send button's disabled test, and `handleSendAmount`. It validates the
  amount with `parseFloat`, then appends one transaction and clears the box.
- **Typed-number login** (`login.tsx`). The ten-character guard and the bank
  popup flag.

Modules follow the app. `Collections`, `Text` and `Numbers` model the
JavaScript built-ins the screens call: `filter`, `trim`, `toLowerCase`,
`includes`, `replace`, `split` and `parseFloat`. `Query` is the search-box
key both lists share. `Ledger` and `Navigation` are the records that cross
screens. `VoiceInterpreter`, `LoginSession`, `SignUpForm`, `Contacts`,
`TransactionHistory`, `Payment` and `LegacyLogin` are one per screen.
Screens whose handlers update state in place are classes:
`LoginSession.LoginScreen`, `SignUpForm.SignUpScreen`,
`Payment.PaymentScreen` and `LegacyLogin.LoginForm`. Each method's
postcondition gives the new state. For the voice login that state is a
pure step function on a `Session` value, and the lemmas are about those
functions.

Once the screen has lost focus and nothing is held or being acquired, no
event but a new focus starts listening again (`LoginSession.QuietStep`,
`LoginSession.QuietUntilFocus`). Only `retry` and `startListening` look at
`activeRef`, though. A backend success that arrives after the screen lost
focus still stores the phone and, once "Login successful" is spoken,
replaces the screen with HomePage (`LoginSession.LateSuccessStillNavigates`).
A recorder whose creation was still awaited at blur is stored when it
settles, and its 10 s capture timer starts, because nothing after the
`await`s in `startListening` checks the flag again
(`LoginSession.LateRecorderStillRecords`).

## Model

| member | source | states |
|---|---|---|
| Collections.Filter | components/ListOfContacts.tsx:30-32 | `filter` never lengthens its input and returns only input elements that pass the test |
| Collections.FilterMembership | components/ListOfContacts.tsx:30-32 | `filter` keeps an element exactly when it is in the input and satisfies the test |
| Collections.FilterAppend | components/login.tsx:120 | filtering a concatenation filters each part |
| Collections.FilterKeepsAll | components/ListOfContacts.tsx:29-30 | a test every element passes returns the list unchanged |
| Collections.FilterKeepsNone | components/login.tsx:136 | a test no element passes returns the empty list |
| Collections.FilterCongruent | components/ListOfContacts.tsx:30-32 | two tests that agree on every element filter alike |
| Collections.FilterThenFilter | components/ListOfContacts.tsx:30-32 | filtering by a weaker test first changes nothing |
| Collections.FilterIsSubsequence | components/ListOfContacts.tsx:30 | the result of `filter` is a subsequence of its input, in order |
| Text.Lower | components/login.tsx:119 | ASCII `toLowerCase` of one character: upper-case letters move by 32, others stay |
| Text.ToLower | components/login.tsx:119 | `toLowerCase` keeps the length |
| Text.ToLowerAt | components/login.tsx:119 | `toLowerCase` keeps the length and lower-cases each position |
| Text.ToLowerIdempotent | components/ListOfContacts.tsx:28 | lower-casing twice is lower-casing once |
| Text.TrimStart | components/login.tsx:121 | the leading-whitespace strip never lengthens the text |
| Text.TrimStartShape | components/login.tsx:121 | the strip removes an all-whitespace prefix and leaves text that starts with a non-space |
| Text.TrimEnd | components/login.tsx:121 | the trailing-whitespace strip never lengthens the text |
| Text.TrimEndShape | components/login.tsx:121 | the strip removes an all-whitespace suffix and leaves text that ends with a non-space |
| Text.Trim | components/login.tsx:121 | `trim` never lengthens the text |
| Text.TrimShape | components/login.tsx:121 | `trim` returns a contiguous piece of its input with whitespace only on either side |
| Text.TrimEnds | components/login.tsx:121 | `trim`'s result neither starts nor ends with whitespace |
| Text.TrimKeepsChars | components/login.tsx:121 | every character `trim` returns comes from its input |
| Text.TrimStartOfNonSpace | components/PaymentPage.tsx:43 | text that starts with a non-space is not stripped |
| Text.TrimEmptyIffAllSpace | components/ListOfContacts.tsx:28-29 | `trim` gives the empty string exactly for all-whitespace text |
| Text.TrimStartSkipsSpace | components/ListOfContacts.tsx:28 | whitespace in front is stripped whatever follows it |
| Text.TrimEndSkipsSpace | components/ListOfContacts.tsx:28 | whitespace behind is stripped whatever precedes it |
| Text.TrimIgnoresPadding | components/ListOfContacts.tsx:28 | whitespace around a query does not change its trimmed form |
| Text.LowerKeepsSpace | components/ListOfContacts.tsx:28 | case folding neither creates nor removes whitespace |
| Text.TrimStartCommutesWithLower | components/ListOfContacts.tsx:28 | stripping the front and lower-casing commute |
| Text.TrimEndCommutesWithLower | components/ListOfContacts.tsx:28 | stripping the end and lower-casing commute |
| Text.TrimCommutesWithLower | components/ListOfContacts.tsx:28 | `trim().toLowerCase()` equals `toLowerCase().trim()` |
| Text.IndexOf | components/login.tsx:129 | a found index is an occurrence of the pattern |
| Text.IndexOfFirst | components/login.tsx:129 | `indexOf` finds the first occurrence and reports none only when there is none |
| Text.ContainsIff | components/login.tsx:129 | `includes` holds exactly when an occurrence exists |
| Text.ReplaceFirst | components/login.tsx:124-127 | `replace` with a string pattern (its meaning is stated by `ReplaceFirstAt`) |
| Text.ReplaceFirstAt | components/login.tsx:124-127 | `replace` with a string pattern splices the replacement over the first occurrence only, and changes nothing without one |
| Text.ReplaceFirstInserts | components/login.tsx:124-127 | after a replacement the replacement text occurs in the result |
| Text.ReplaceFirstKeeps | components/login.tsx:124-127 | a pattern that cannot overlap the replaced one survives the replacement |
| Text.Digits | components/login.tsx:136 | `replace(/\D/g, '')` never lengthens the text and keeps only digits that occur in it |
| Text.KeepAtMost | components/SignUp.tsx:130 | a box with `maxLength={n}` keeps a prefix of the typed text, all of it when it fits and exactly `n` characters otherwise |
| Text.DigitsAreDigits | components/login.tsx:136 | `replace(/\D/g, '')` keeps exactly the digits, so its result is all digits |
| Text.DigitsAppend | components/login.tsx:136 | the digits of a concatenation are the concatenated digits |
| Text.DigitsOfDigits | components/SignUp.tsx:54 | an all-digit string is its own digit string |
| Text.DigitsOfSpace | components/login.tsx:136 | whitespace holds no digits |
| Text.DigitsOfLower | components/login.tsx:119 | lower-casing neither adds nor removes digits |
| Text.DigitsOfPadded | components/login.tsx:121 | whitespace around text adds no digits |
| Text.DigitsOfTrim | components/login.tsx:121 | trimming keeps every digit |
| Text.DigitsOfReplaceFirst | components/login.tsx:124-127 | replacing a digit-free pattern with digit-free text keeps the digits |
| Text.DigitsOfLetters | components/login.tsx:124-127 | a word without digits contributes none |
| Text.Split | components/ListOfContacts.tsx:42 | `split(' ')` gives at least one piece and no piece holds a space |
| Text.JoinSplit | components/ListOfContacts.tsx:42 | joining the pieces of `split` with the separator gives the input back |
| Text.SplitWord | components/ListOfContacts.tsx:42 | a space-free word before a space is the first piece |
| Text.SplitNoSeparator | components/ListOfContacts.tsx:42 | text without a space is one piece |
| Text.Initials | components/ListOfContacts.tsx:41-45 | initials are at most two characters and hold no space |
| Text.InitialsOfOneWord | components/ListOfContacts.tsx:41-45 | a one-word name gives its first character |
| Text.InitialsOfTwoWords | components/ListOfContacts.tsx:41-45 | the first characters of the first two words; an empty word from a double space adds nothing |
| Numbers.ParseDecimal | components/PaymentPage.tsx:43 | a decimal literal parses to a non-negative value |
| Numbers.ParseUnsigned | components/PaymentPage.tsx:43 | an unsigned number is never negative, and its infinity is positive |
| Numbers.DecimalString | components/PaymentPage.tsx:43 | the decimal rendering of a natural number is non-empty and all digits |
| Numbers.ParseDecimalOfDigits | components/PaymentPage.tsx:43 | a digit string parses to its decimal value |
| Numbers.ParseDecimalString | components/PaymentPage.tsx:43 | `parseFloat` of a natural number's decimal rendering gives that number |
| Numbers.ParseFloat | components/PaymentPage.tsx:43 | blank text is NaN, and a value below zero or minus infinity needs a leading minus sign |
| Numbers.ParseFloatSkipsSpace | components/PaymentPage.tsx:43 | `parseFloat` skips leading whitespace |
| Numbers.NotANumber | components/PaymentPage.tsx:43-44 | text whose first non-blank character cannot start a number is NaN |
| Numbers.MinusIsNeverPositive | components/PaymentPage.tsx:44 | a number written with a leading minus is never greater than zero |
| VoiceInterpreter.RewriteSignUpUsesMishearings | components/login.tsx:123-127 | the four `replace` calls apply the mishearing rules in their order |
| VoiceInterpreter.PhoneIntent | components/login.tsx:136-156 | ten or more digits give the first ten; one to nine give them all as partial; none gives no match; never sign-up |
| VoiceInterpreter.NormaliseChars | components/login.tsx:118-121 | the cleaned text holds only a-z, 0-9 and whitespace and has no whitespace at either end |
| VoiceInterpreter.NormaliseKeepsInnerText | components/login.tsx:118-121 | only whitespace at the two ends is removed; inner whitespace is kept |
| VoiceInterpreter.MishearingsSeparable | components/login.tsx:123-127 | `signup` and the four mishearings cannot overlap one another |
| VoiceInterpreter.RewriteReachesSignUp | components/login.tsx:123-129 | once `signup` or a pending mishearing is present, the rewritten text contains `signup` |
| VoiceInterpreter.SpokenSignUpWins | components/login.tsx:123-134 | any of the five spellings anywhere in the transcript opens sign-up, whatever digits are present |
| VoiceInterpreter.DigitsOfRewrite | components/login.tsx:123-127 | rewriting digit-free words keeps the digits |
| VoiceInterpreter.Normalise | components/login.tsx:118-121 | the cleaned text is never longer than the transcript and holds exactly its digits, in order |
| VoiceInterpreter.RewriteSignUp | components/login.tsx:123-127 | the four `replace` calls of the mishearings by `signup` (their meaning is stated by `RewriteSignUpUsesMishearings` and `RewriteReachesSignUp`) |
| VoiceInterpreter.DigitsOfRewriteSignUp | components/login.tsx:123-127 | the four rewrites keep the digits |
| VoiceInterpreter.DigitsSurviveCleaning | components/login.tsx:118-136 | the digits after cleaning are exactly the transcript's digits, in order |
| VoiceInterpreter.Classify | components/login.tsx:129-156 | sign-up iff the text contains `signup`; a full phone is the first ten of at least ten digits, a partial one its one to nine digits; nothing exactly when there is neither |
| VoiceInterpreter.Interpret | components/login.tsx:115-156 | sign-up iff the rewritten text contains `signup`; otherwise the first ten digits of the transcript, its one to nine digits, or nothing |
| VoiceInterpreter.FullPhoneIsFirstTenDigits | components/login.tsx:136-140 | a full phone is ten ASCII digits, the first ten of the transcript in order |
| LoginSession.Initial | components/login.tsx:14-19 | the first render: active, empty phone, no recording, nothing queued or pending |
| LoginSession.RemoveAt | components/login.tsx:82 | a settled await leaves the others in order |
| LoginSession.ClearTimer | components/login.tsx:80 | `clearTimeout` removes only the named timer and is a no-op for `null` |
| LoginSession.FocusStep | components/login.tsx:21-27 | focus sets the active flag and starts a fresh intro timer, changing nothing else |
| LoginSession.FinishStopAll | components/login.tsx:175-176 | the end of `stopAll` clears the capture timer and empties the speech queue |
| LoginSession.StopAllStep | components/login.tsx:167-177 | `stopAll` clears the flag at once; with a recording held the rest waits for the unload |
| LoginSession.BlurStep | components/login.tsx:29-32 | losing focus clears the intro timer and runs `stopAll` |
| LoginSession.TeardownStep | components/login.tsx:170-176 | after the unload `stopAll` empties the slot, clears the timer and stops speech; a rejection skips that |
| LoginSession.SpeakIntroStep | components/login.tsx:36-45 | the intro replaces whatever was queued, and listening follows it |
| LoginSession.StartListeningStep | components/login.tsx:47-51 | inactive: nothing at all; active: a permission request |
| LoginSession.RetryStep | components/login.tsx:159-165 | inactive: nothing at all; active: "Please repeat clearly." then listening |
| LoginSession.StopRecordingStep | components/login.tsx:77-82 | no recording: nothing; otherwise the capture timer is cleared and an unload awaited |
| LoginSession.SendStep | components/login.tsx:89-101 | the clip is posted and the reply awaited |
| LoginSession.StopStep | components/login.tsx:82-86 | after the unload the slot is emptied and the clip forwarded only when it has a uri |
| LoginSession.Say | components/login.tsx:130-132 | `Speech.speak` queues exactly one utterance behind those already queued and changes nothing else |
| LoginSession.HandleVoiceStep | components/login.tsx:115-157 | `handleVoice` never touches the flag, the recording, the timers, the awaits or the navigation log, and keeps the session invariant |
| LoginSession.ActStep | components/login.tsx:129-156 | an intent sets the phone to the full or partial digits, or leaves it; effects, awaits and the flag are untouched |
| LoginSession.ReplyStep | components/login.tsx:103-112 | a settled upload keeps the session invariant |
| LoginSession.PermissionStep | components/login.tsx:51-57 | granted: the audio mode is awaited next; denied: the "Microphone permission denied" alert and nothing else; a thrown error: only the await is gone |
| LoginSession.AudioModeStep | components/login.tsx:57-62 | the audio-mode answer keeps the session invariant |
| LoginSession.RecorderStep | components/login.tsx:62-70 | a new recorder fills the slot and starts a fresh capture timer |
| LoginSession.TimerStep | components/login.tsx:25-27 | a firing timer keeps the session invariant |
| LoginSession.SpeechDoneStep | components/login.tsx:36-146 | a finished utterance leaves the queue and its `onDone` runs: listen (`startListening`), navigate to SignUp, or replace the screen with HomePage carrying the phone; the session invariant is kept |
| LoginSession.TypePhoneStep | components/login.tsx:183-190 | the phone box keeps at most the first ten characters typed and nothing else changes |
| LoginSession.TapSignUpStep | components/login.tsx:194-196 | the Sign Up link navigates to SignUp |
| LoginSession.Apply | components/login.tsx:21-177 | every event keeps timer and recording identities fresh |
| LoginSession.QuietStep | components/login.tsx:158-168 | once stopped with nothing held or acquiring, no event but a new focus restarts listening |
| LoginSession.QuietUntilFocus | components/login.tsx:46-48 | from a quiet session (inactive, nothing held, no recorder being acquired), no run of events without a focus ever holds a recording or leaves the quiet state |
| LoginSession.LateRecorderStillRecords | components/login.tsx:51-68 | a recorder still being created at blur is stored once it settles: the screen ends inactive, holding a recording, with its capture timer armed |
| LoginSession.FocusReachesRecorder | components/login.tsx:21-62 | focus, the intro, its end, a granted microphone and a set audio mode leave the screen awaiting its recorder, so the late recorder is reachable |
| LoginSession.HandleVoiceOutcome | components/login.tsx:115-157 | each of the four outcomes of a transcript on the session: what is said, stored and retried |
| LoginSession.ReplyOutcome | components/login.tsx:105-111 | a `"success"` body runs `handleVoice` on its text; any other status or a thrown error retries |
| LoginSession.SpokenSignUpNavigates | components/login.tsx:129-134 | while listening, a reply whose cleaned text holds `signup` ends, once spoken, in one navigation to SignUp whatever digits it holds; the phone is kept |
| LoginSession.FullPhoneNavigatesHome | components/login.tsx:136-147 | while listening, a reply with ten or more digits and no sign-up word stores the first ten and ends, once spoken, in one replace with HomePage carrying them |
| LoginSession.LateSuccessStillNavigates | components/login.tsx:136-146 | a ten-digit reply after blur still stores the phone and replaces the screen with HomePage |
| LoginSession.LatePartialIsSilent | components/login.tsx:150-160 | a reply without ten digits after blur stores its digits but says and navigates nothing |
| LoginSession.LoginScreen.constructor | components/login.tsx:14-19 | the screen starts in the initial session |
| LoginSession.LoginScreen.Focus | components/login.tsx:21-27 | the fields become the focus step's session |
| LoginSession.LoginScreen.Blur | components/login.tsx:29-32 | the fields become the blur step's session |
| LoginSession.LoginScreen.StopAll | components/login.tsx:167-177 | the fields become the `stopAll` step's session |
| LoginSession.LoginScreen.TeardownDone | components/login.tsx:170-176 | the fields become the teardown step's session |
| LoginSession.LoginScreen.SpeakIntro | components/login.tsx:36-45 | the fields become the intro step's session |
| LoginSession.LoginScreen.StartListening | components/login.tsx:47-51 | the fields become the listening step's session |
| LoginSession.LoginScreen.PermissionDone | components/login.tsx:51-57 | the fields become the permission step's session |
| LoginSession.LoginScreen.AudioModeDone | components/login.tsx:57-62 | the fields become the audio-mode step's session |
| LoginSession.LoginScreen.RecorderDone | components/login.tsx:62-70 | the fields become the recorder step's session |
| LoginSession.LoginScreen.StopRecording | components/login.tsx:77-82 | the fields become the stop step's session |
| LoginSession.LoginScreen.StopDone | components/login.tsx:82-86 | the fields become the unload step's session |
| LoginSession.LoginScreen.SendToBackend | components/login.tsx:89-101 | the fields become the send step's session |
| LoginSession.LoginScreen.UploadDone | components/login.tsx:103-112 | the fields become the reply step's session |
| LoginSession.LoginScreen.HandleVoice | components/login.tsx:115-157 | the fields become the session `handleVoice` leaves |
| LoginSession.LoginScreen.Act | components/login.tsx:129-156 | the fields become the session the intent leaves |
| LoginSession.LoginScreen.Retry | components/login.tsx:159-165 | the fields become the retry step's session |
| LoginSession.LoginScreen.TimerFires | components/login.tsx:25-27 | the fields become the timer step's session |
| LoginSession.LoginScreen.SpeechDone | components/login.tsx:128-146 | the fields become the speech-done step's session |
| LoginSession.LoginScreen.TypePhone | components/login.tsx:183-190 | the fields become the typing step's session |
| LoginSession.LoginScreen.TapSignUp | components/login.tsx:194-196 | the fields become the link step's session |
| SignUpForm.PhoneInput | components/SignUp.tsx:53-58 | the phone after an edit is the old value or the typed digits; an all-digit field of at most ten stays so, whatever is typed |
| SignUpForm.PhoneInputIdempotent | components/SignUp.tsx:53-58 | re-entering the field's own value changes nothing, and repeating an edit repeats its result |
| SignUpForm.PhoneInputOfBox | components/SignUp.tsx:53-58 | through the ten-character box the field always takes the digits of what the box holds; a paste starting with ten digits stores exactly those ten |
| SignUpForm.SignUpScreen.constructor | components/SignUp.tsx:31-43 | empty fields, no bank, popup closed |
| SignUpForm.SignUpScreen.InputChange | components/SignUp.tsx:45-50 | only the named field changes |
| SignUpForm.SignUpScreen.PhoneChange | components/SignUp.tsx:53-58 | the box keeps the first ten characters, the phone becomes their digits; other fields unchanged; a well-formed phone stays well-formed |
| SignUpForm.SignUpScreen.SignUp | components/SignUp.tsx:60-89 | "Please fill all fields" iff a field is empty; the length error iff all filled and the phone is not ten long; "Please select a bank" iff those pass without a bank; OK leads to Login iff all pass |
| SignUpForm.SignUpScreen.BankSelect | components/SignUp.tsx:91-102 | the bank is selected, its account record has the bank's id and name and an empty number, the popup closes, the fields stay |
| SignUpForm.SignUpScreen.OpenBankPopup | components/SignUp.tsx:137-139 | the popup shows; form and bank unchanged |
| SignUpForm.SignUpScreen.CloseBankPopup | components/SignUp.tsx:156-161 | the popup hides; form and bank unchanged |
| Query.KeyBlank | components/ListOfContacts.tsx:28-29 | the search key is empty exactly for a blank query |
| Query.KeyIgnoresCaseAndPadding | components/ListOfContacts.tsx:28 | surrounding whitespace and letter case do not change the key |
| Query.HitsEmpty | components/ListOfContacts.tsx:29-31 | every field contains the empty key |
| Contacts.Search | components/ListOfContacts.tsx:27-33 | the search never lengthens the list and shows only listed contacts |
| Contacts.SearchBlank | components/ListOfContacts.tsx:28-29 | a blank query returns the whole list unchanged |
| Contacts.SearchMembership | components/ListOfContacts.tsx:28-32 | a contact is shown iff it is listed and the query is blank or its lower-cased name or number contains the key |
| Contacts.SearchIsFilter | components/ListOfContacts.tsx:29-32 | the blank-query shortcut returns what the filter would |
| Contacts.SearchKeepsOrder | components/ListOfContacts.tsx:30 | the result is a subsequence of the list |
| Contacts.SearchIdempotent | components/ListOfContacts.tsx:27-33 | searching the result again with the same query changes nothing |
| Contacts.SearchIgnoresCaseAndPadding | components/ListOfContacts.tsx:28 | surrounding whitespace and case in the query do not change the result |
| Contacts.AvatarTap | components/ListOfContacts.tsx:50 | the avatar navigates to PaymentPage with only `mobile`, equal to the contact's number |
| TransactionHistory.MatchesAsWritten | components/TransactionHistoryPage.tsx:19-21 | the test throws exactly when the username misses and `sendto` is absent; otherwise it is username-or-recipient |
| TransactionHistory.SelectAsWrittenIsFilter | components/TransactionHistoryPage.tsx:19-21 | the filter as written fails iff some item breaks the test, and otherwise equals the guarded filter |
| TransactionHistory.SearchAsWritten | components/TransactionHistoryPage.tsx:16-22 | the screen as written fails only on a non-blank query with an item that breaks the test, so never when every item has a recipient |
| TransactionHistory.Search | components/TransactionHistoryPage.tsx:16-22 | the guarded search never lengthens the list and shows only stored transactions |
| TransactionHistory.SearchAsWrittenAgrees | components/TransactionHistoryPage.tsx:16-22 | the screen as written shows what `Search` shows, or fails exactly on a non-blank query with an unmatched item lacking `sendto` |
| TransactionHistory.MissingRecipientBreaksSearch | components/TransactionHistoryPage.tsx:17-21 | a one-item history without a recipient makes the search "x" fail |
| TransactionHistory.SearchBlank | components/TransactionHistoryPage.tsx:17-18 | a blank query returns every transaction |
| TransactionHistory.SearchMembership | components/TransactionHistoryPage.tsx:17-21 | a transaction is shown iff the query is blank or its lower-cased username or recipient contains the key |
| TransactionHistory.SearchKeepsOrder | components/TransactionHistoryPage.tsx:19 | the result keeps the stored order |
| TransactionHistory.SearchIgnoresCaseAndPadding | components/TransactionHistoryPage.tsx:17 | surrounding whitespace and case in the query do not change the result |
| TransactionHistory.AmountColor | components/TransactionHistoryPage.tsx:26 | green `#2e7d32` exactly for `received`, red `#c62828` otherwise |
| TransactionHistory.TypeLabel | components/TransactionHistoryPage.tsx:46 | "Sent" exactly for `sent`, "Received" otherwise |
| TransactionHistory.KindShownConsistently | components/TransactionHistoryPage.tsx:26-46 | a record typed `sent` or `received` gets matching colour and label |
| TransactionHistory.OtherKindShownInconsistently | components/TransactionHistoryPage.tsx:26-46 | any other type is labelled "Received" but coloured red |
| TransactionHistory.RowInitials | components/TransactionHistoryPage.tsx:27-31 | row initials are at most two characters without a space |
| TransactionHistory.NoRecipientNoInitials | components/TransactionHistoryPage.tsx:27 | a missing recipient gives empty initials |
| Payment.ContactName | components/PaymentPage.tsx:40 | the header name is never empty: the given name, or 'Contact' when missing or empty |
| Payment.InitialTransactions | components/PaymentPage.tsx:37-39 | the list handed in, or empty when missing |
| Payment.Amount | components/PaymentPage.tsx:43-47 | an amount is accepted exactly when it parses to a number greater than zero |
| Payment.SendDisabled | components/PaymentPage.tsx:107-110 | a disabled button means the handler would refuse the amount |
| Payment.EnabledButRefused | components/PaymentPage.tsx:108-110 | the button is enabled but the amount refused exactly for non-empty text that is not a number |
| Payment.LettersEnabledButRefused | components/PaymentPage.tsx:108-110 | "abc" leaves the button enabled and is refused |
| Payment.WholeAmounts | components/PaymentPage.tsx:43-47 | a positive whole amount is accepted as itself; "0" is refused and disables the button |
| Payment.NewTransaction | components/PaymentPage.tsx:49-59 | the new record is numbered one past the list's length, from the current user "You" to the contact, with the parsed amount, `success` and `sent` |
| Payment.Appended | components/PaymentPage.tsx:49-61 | one transaction more, earlier ones untouched, the new one numbered length + 1, sent to the contact with the amount, status 'success', type 'sent' |
| Payment.AppendedKeepsNumbering | components/PaymentPage.tsx:50-61 | a list numbered 1..n stays so, and the new id is not already used |
| Payment.AppendedCanRepeatAnId | components/PaymentPage.tsx:50 | a list not numbered from 1 can get a repeated id |
| Payment.AvatarOpensBlankPayment | components/ListOfContacts.tsx:50 | the avatar's parameters give the payment screen the name 'Contact' and no transactions |
| Payment.PaymentScreen.constructor | components/PaymentPage.tsx:36-40 | empty amount, the handed-in transactions and the defaulted name |
| Payment.PaymentScreen.SetAmount | components/PaymentPage.tsx:102 | the amount becomes the typed text; transactions unchanged |
| Payment.PaymentScreen.SendAmount | components/PaymentPage.tsx:42-64 | a refused amount changes nothing and raises Invalid Amount; an accepted one appends and clears the box |
| LegacyLogin.LoginForm.constructor | login.tsx:13-14 | empty phone, popup hidden |
| LegacyLogin.LoginForm.TypePhone | login.tsx:26-33 | the phone is the first ten characters typed; the popup flag is unchanged |
| LegacyLogin.LoginForm.HandleLogin | login.tsx:16-20 | a ten-character phone shows the popup, any other length changes nothing; the phone is never changed |
| LegacyLogin.LoginForm.ClosePopup | login.tsx:40 | the popup hides and the phone stays |
| LegacyLogin.LoginAfterTyping | login.tsx:16-41 | from a fresh screen, Login shows the popup exactly when at least ten characters were typed |

## Left out

- Audio capture, speech synthesis and `fetch`: the libraries are not part of this model. Their results arrive as events (permission answer, audio-mode and recorder results, unload results, reply or thrown error, utterance finished).
- `fetch` and `res.json()`: merged into one await whose result is a JSON body or a thrown error.
- Speech: modelled as a first-in first-out queue whose head finishes first. `Speech.stop` empties it. This is how expo-speech is documented to behave, but its code is not part of this model.
- Timers: the 300 ms and 10 s durations are not modelled, only "this timer fired". Timers that were cleared never fire.
- `console.log` calls: omitted.
- Case folding: ASCII only. JavaScript's full Unicode `toLowerCase` (for example U+0130 or U+212A) is not modelled.
- Strings: sequences of characters. UTF-16 code units, which `s[0]` in the initials code returns, are not modelled.
- Numbers.ParseFloat: models `parseFloat` on exact reals. IEEE rounding, overflow to infinity and underflow are not modelled, and `-0` is zero.
- Payment.PaymentScreen.SendAmount: the success alert's text formats the amount with JavaScript's number-to-string conversion. The model returns the amount and contact name instead of the text.
- `Date`: `new Date().toISOString()` is passed in as `now`. `toLocaleString` and `toLocaleDateString` in the lists are not modelled.
- `toFixed(2)` on the payment screen: not modelled (display only).
- Route parameters: only a string `contactName` and a list `transactions` are read. A value of another type is treated as absent.
- The unused `id` field of the sign-up form, the bank icons and the `console.log` of the form data: omitted.
- `onPay` in the contact list only shows an alert; it is not modelled.
- The bank popup's list, `getBankIcon`, the home menu, the profile and balance screens, the navigator wiring, the unseen `data/*.json` catalogues and all styles: not part of this model.
- utils/stt.ts, utils/voiceSTT.ts, utils/tts.ts and components/VoiceEngine.tsx: not part of this model.

## Findings

| source | as written | input that shows it | evidently intended | confidence | as-written member | corrected member |
|---|---|---|---|---|---|---|
| components/TransactionHistoryPage.tsx:20 | the search calls `t.sendto.toLowerCase()` unguarded, while the initials code at line 27 allows a missing `sendto` | a transaction without `sendto` whose username does not contain the query, e.g. username "You" and query "x" | a missing recipient reads as empty text, as in the initials, and the item is simply not matched | medium (depends on the stored data), not executed | TransactionHistory.MissingRecipientBreaksSearch | TransactionHistory.SearchMembership |
