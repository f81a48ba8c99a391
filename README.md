# EternalpEASE — a verified model of the app's decision logic

EternalpEASE is a React Native funeral-planning app. Nearly everything it
does is screens and Supabase calls. What remains is a set of small,
self-contained decisions, and this project models them in Dafny:

- **Peacey, the built-in assistant** (`Chatbot`, `ChatbotFacts`,
  `ChatbotPrices`, `ChatbotReplies`, `Patterns`, `ChatWindow`).
  - `Chatbot` holds the ten-entry price catalog and the ordered table of 56
    question/answer rules. The `Patterns` module supplies the
    case-insensitive patterns the rules test.
  - `Chatbot.DemoAiResponse` picks the first rule that fires, then falls
    back to the forgot-password hint or the generic reply.
  - `ChatWindow` models the message list as a class: sending appends the
    user's trimmed message, and then the reply.
- **Form validation**:
  - `Booking`: the Philippine phone normaliser and validator, the age
    display, the per-field handlers, the date picker and the final
    `validateAll`/`handleNext` gate.
  - `Email`: the anchored and the unanchored e-mail checks.
  - `Register` and `Login`: the registration and login checks, each
    followed by its back-end outcome chain.
  - `Profile`: the profile initials and the save/cancel guards.
  - `ResetPassword`: the password-reset screen.
- **Small state machines and routing**:
  - `FuneralPackages`: the package catalog and its single-expanded
    accordion.
  - `App`: the deep-link dispatcher and the screen precedence.
  - `Tabs`: the custom tab bar.

Screens whose handlers change state in place are classes: `Chat`,
`BookingScreen`, `RegisterScreen`, `LoginScreen`, `ProfileScreen`,
`ResetScreen` and `PackagesScreen`. Their methods state the whole new state,
and each is tied to a pure function whose properties are proved as lemmas.
Pure code is modelled as functions and lemmas.

Modelling choices:

- Every back-end call is a parameter of the handler: the sign-in or
  sign-up result, whether the e-mail is already registered, the update's
  outcome, and whether the reset code was accepted.
- The current date is a `today` parameter.
- A JavaScript regular expression `a.*b|c` becomes a sequence of
  alternatives, each a sequence of literals. The literals must occur in
  order on one line of the input, because `.` does not match a line
  terminator. Letters are compared after ASCII lowercasing, which is what
  the `/i` flag amounts to on the literals the app uses.
- Strings are sequences of Unicode characters. A JavaScript `length` test
  counts UTF-16 code units, so the password and phone checks use
  `Text.Utf16Length`, which counts two for a character outside the Basic
  Multilingual Plane.
- The shared string helpers (ASCII lowercasing, JavaScript `trim`, `split`,
  `includes`, `length`, decimal numerals) live in `Text`. `Wrappers` holds
  `Option`.

Where the code and the app's written design disagree, the model follows the
code:
- a registration name of spaces passes the check;
- toggling an accordion entry twice restores the state only when nothing
  else was open;
- the cremation-process and price-of-package rules are shadowed by earlier
  rules.

## Model

| member | source | states |
|---|---|---|
| Chatbot.FirstMatch | src/components/PeaceyChatbot.tsx:304-313 | The rule chosen is one that fires, and no earlier rule fires; `None` means no rule at or after the start fires. |
| Chatbot.FirstTrue | src/components/PeaceyChatbot.tsx:305-313 | The first true flag at or after `k`, and every flag before it is false. |
| Chatbot.FindPackage | src/components/PeaceyChatbot.tsx:52-54 | `find` by case-insensitive name: the first catalog entry whose lowercased name equals the lowercased capture, or `None` when there is none. |
| Chatbot.Capture | src/components/PeaceyChatbot.tsx:50-53 | The `(package [a-j])` group exists exactly when the price pattern matches, and it is nine characters long. |
| Chatbot.PackageLines | src/components/PeaceyChatbot.tsx:33-35 | One `- name (price)` line per catalog entry, in catalog order. |
| Chatbot.ListingHeader | src/components/PeaceyChatbot.tsx:33 | The listing replies' opening sentence is a single line. |
| Chatbot.ListingFooter | src/components/PeaceyChatbot.tsx:35 | The listing replies' closing sentence is a single line. |
| Chatbot.PriceQuestionPlain | src/components/PeaceyChatbot.tsx:50 | The price pattern `(price\|cost) of (package [a-j])` unfolds into 20 single-literal alternatives, each ending in its nine-character capture. |
| Chatbot.FixedAnswers | src/components/PeaceyChatbot.tsx:29-302 | Every fixed answer in the table is non-empty and differs from both fallback replies. |
| Chatbot.OtherAnswers | src/components/PeaceyChatbot.tsx:31-60 | Only the two listing rules and the price rule compute their answer; every other answer is a fixed string. |
| ChatbotFacts.FirstMatchFacts | src/components/PeaceyChatbot.tsx:304-313 | When rule `k` is chosen, it matches and each earlier rule does not. |
| ChatbotFacts.Excluded | src/components/PeaceyChatbot.tsx:304-313 | Every rule before the chosen one does not match. |
| ChatbotFacts.Answered | src/components/PeaceyChatbot.tsx:306-307 | The chosen rule matches the message. |
| ChatbotFacts.Replies | src/components/PeaceyChatbot.tsx:307-311 | When a rule is chosen, the reply is that rule's answer. Later rules play no part. |
| ChatbotFacts.AnsweredByOrBefore | src/components/PeaceyChatbot.tsx:304-313 | A message containing a literal that is a whole alternative of rule `k` is answered by rule `k` or an earlier one. |
| ChatbotFacts.FuneralAlwaysAnswered | src/components/PeaceyChatbot.tsx:287-289 | Any message containing "funeral" is answered by the catch-all rule or an earlier one, so never by hello, help or thanks. |
| ChatbotFacts.HiShadowsThanks | src/components/PeaceyChatbot.tsx:291-301 | Any message containing "hi" (as in "this") is answered by the greeting rule or earlier, so the thanks rule never answers it. |
| ChatbotFacts.CustomerServiceGoesToSupport | src/components/PeaceyChatbot.tsx:223-233 | A message containing "customer service" is answered by the support rule or an earlier one. |
| ChatbotFacts.SupportRuleListsCustomerService | src/components/PeaceyChatbot.tsx:223 | The support rule has "customer service" as one of its alternatives. |
| ChatbotFacts.CremationImpliesCremat | src/components/PeaceyChatbot.tsx:115-120 | Whatever matches the cremation-process pattern also matches the earlier `cremat\|burial\|urn\|ashes` pattern. |
| ChatbotFacts.CremationProcessNeverAnswers | src/components/PeaceyChatbot.tsx:115-121 | The cremation-process rule is never the chosen rule, for any message. |
| ChatbotFacts.HotlineAlternatives | src/components/PeaceyChatbot.tsx:169-235 | A message matching the hotline pattern but not the earlier emergency pattern contains "hotline". |
| ChatbotFacts.HotlineRuleNeedsHotline | src/components/PeaceyChatbot.tsx:169-235 | The hotline rule only answers messages that contain "hotline"; its other alternatives are taken by the earlier emergency rule. |
| ChatbotFacts.BurialAlternatives | src/components/PeaceyChatbot.tsx:115-123 | A message matching the burial-process pattern but not the earlier cremation/burial pattern contains "cemetery" or "grave". |
| ChatbotFacts.BurialRuleNeedsCemeteryOrGrave | src/components/PeaceyChatbot.tsx:115-123 | The burial-process rule only answers messages that mention a cemetery or a grave. |
| ChatbotFacts.CustomerServiceAbsent | src/components/PeaceyChatbot.tsx:223 | A message the support rule does not match does not contain "customer service". |
| ChatbotFacts.TagalogRulesWithoutCustomerService | src/components/PeaceyChatbot.tsx:223-233 | The two Tagalog rules after the support rule never answer a message mentioning customer service. |
| ChatbotFacts.FacilitiesAbsent | src/components/PeaceyChatbot.tsx:259 | A message the facilities rule does not match does not contain "facilities". |
| ChatbotFacts.AccessibilityRuleWithoutFacilities | src/components/PeaceyChatbot.tsx:259-265 | The accessibility rule never answers a message containing "facilities". |
| ChatbotFacts.PackageNames | src/components/PeaceyChatbot.tsx:9-20 | The catalog has ten entries, named "Package A" to "Package J" in order. |
| ChatbotFacts.LowerPackageName | src/components/PeaceyChatbot.tsx:53 | Lowercasing "Package X" gives "package x". |
| ChatbotFacts.PackageNamesLowered | src/components/PeaceyChatbot.tsx:9-53 | Each catalog name, lowercased, is the key the price pattern captures for that letter. |
| ChatbotFacts.FindByKey | src/components/PeaceyChatbot.tsx:52-54 | A capture that lowercases to the key of entry `x` finds entry `x`. |
| ChatbotFacts.FindUnique | src/components/PeaceyChatbot.tsx:52-54 | When exactly one entry's name equals the capture up to case, `find` returns that entry. |
| ChatbotFacts.PriceAlternative | src/components/PeaceyChatbot.tsx:50 | Each of the 20 price alternatives ends in the key of one of the ten packages. |
| ChatbotFacts.CaptureIsKey | src/components/PeaceyChatbot.tsx:50-53 | Whenever the price pattern matches, the capture lowercases to a catalog key that occurs in the message. |
| ChatbotFacts.CaptureNamesPackage | src/components/PeaceyChatbot.tsx:50-57 | Whenever the price pattern matches, the capture names a catalog entry that the message mentions, and the reply quotes it. |
| ChatbotFacts.PriceSentenceFound | src/components/PeaceyChatbot.tsx:56-58 | A price sentence is never the "couldn't find that package" reply. |
| ChatbotFacts.PriceRuleAnswer | src/components/PeaceyChatbot.tsx:51-59 | The price rule's answer is the lookup of the captured package. |
| ChatbotFacts.PriceRuleReply | src/components/PeaceyChatbot.tsx:50-311 | When the price rule is chosen, its pattern matches and the reply is the lookup of the capture. |
| ChatbotFacts.PriceRuleQuotesNamedPackage | src/components/PeaceyChatbot.tsx:50-58 | When the price rule answers, it quotes a catalog entry the message names; the not-found branch is unreachable. |
| ChatbotFacts.PackageLinesSingle | src/components/PeaceyChatbot.tsx:9-35 | No catalog line contains a line break. |
| ChatbotFacts.EntrySingle | src/components/PeaceyChatbot.tsx:9-20 | No catalog name or price contains a line break. |
| ChatbotFacts.LineSingle | src/components/PeaceyChatbot.tsx:34 | A `- name (price)` line built from single-line parts is one line. |
| ChatbotFacts.ListingLines | src/components/PeaceyChatbot.tsx:33-35 | A listing reply splits on line breaks into the header, one line per catalog entry in order, and the footer. |
| ChatbotFacts.ListingRows | src/components/PeaceyChatbot.tsx:31-43 | The first two rules answer with the catalog listing between their own header and footer. |
| ChatbotFacts.ListingReply | src/components/PeaceyChatbot.tsx:31-43 | A listing rule's reply is its header, the catalog lines and its footer, whatever the message. |
| ChatbotFacts.PackageCountRulesList | src/components/PeaceyChatbot.tsx:31-43 | The listing rules' replies enumerate exactly the ten catalog entries, in order, between a fixed header and footer. |
| ChatbotPrices.CountRulesNeedPackages | src/components/PeaceyChatbot.tsx:31-38 | Neither listing rule matches a message without the word "packages". |
| ChatbotPrices.ListRulesNeedPackages | src/components/PeaceyChatbot.tsx:38 | The second listing rule does not match a message without "packages". |
| ChatbotPrices.RangeRuleSilent | src/components/PeaceyChatbot.tsx:45 | The price-range rule does not match a message without "how much", "price" and "funeral". |
| ChatbotPrices.PriceOfIsRange | src/components/PeaceyChatbot.tsx:45-50 | Any message containing "price of package" is answered by rule 2 or earlier, so never by the price lookup. |
| ChatbotPrices.PriceOfGetsRange | src/components/PeaceyChatbot.tsx:31-48 | Without "packages", such a message gets the price-range reply. |
| ChatbotPrices.PriceOfPackageC | src/components/PeaceyChatbot.tsx:45-48 | "price of package c" gets the price-range reply, not Package C's price. |
| ChatbotPrices.CostAlternative | src/components/PeaceyChatbot.tsx:50 | "cost of package x" is an alternative of the price pattern for every letter a–j. |
| ChatbotPrices.CostOfReachesLookup | src/components/PeaceyChatbot.tsx:31-50 | A message asking the cost of a package, and avoiding the words the earlier rules need, reaches the price rule. |
| ChatbotPrices.CostOfQuotesPackage | src/components/PeaceyChatbot.tsx:50-57 | Such a message, naming no other package, is answered with that package's price sentence. |
| ChatbotPrices.CostOfCAsks | src/components/PeaceyChatbot.tsx:50 | "cost of package c" asks about Package C and names no other package. |
| ChatbotPrices.CostOfCAvoids | src/components/PeaceyChatbot.tsx:31-48 | "cost of package c" contains none of the words the earlier rules need. |
| ChatbotPrices.CostOfPackageC | src/components/PeaceyChatbot.tsx:50-57 | "cost of package c" reaches the lookup and is answered "Package C costs ₱50,000. …". |
| ChatbotPrices.PriceOfCWords | src/components/PeaceyChatbot.tsx:45 | "price of package c" contains "price of package" and not "packages". |
| ChatbotPrices.CatalogAmount | src/components/PeaceyChatbot.tsx:9-20 | Each catalog price is the peso rendering of its amount. |
| ChatbotPrices.LowerAmount | src/components/PeaceyChatbot.tsx:10-14 | The prices of packages A–E are the peso renderings of their amounts. |
| ChatbotPrices.UpperAmount | src/components/PeaceyChatbot.tsx:15-19 | The prices of packages F–J are the peso renderings of their amounts. |
| ChatbotPrices.PricesIncrease | src/components/PeaceyChatbot.tsx:9-20 | Catalog prices strictly increase from A to J. |
| ChatbotPrices.CatalogExtremes | src/components/PeaceyChatbot.tsx:9-20 | Package A is the cheapest entry and Package J the most expensive. |
| ChatbotPrices.FirstQuoted | src/components/PeaceyChatbot.tsx:10 | The first catalog entry, quoted, is "Package A at ₱30,000". |
| ChatbotPrices.LastQuoted | src/components/PeaceyChatbot.tsx:19 | The last catalog entry, quoted, is "Package J at ₱250,000". |
| ChatbotPrices.CheapestIsFirst | src/components/PeaceyChatbot.tsx:9-64 | The cheapest-package reply names the first (cheapest) catalog entry with its catalog price. |
| ChatbotPrices.PremiumIsLast | src/components/PeaceyChatbot.tsx:9-68 | The premium-package reply names the last (most expensive) catalog entry with its catalog price. |
| ChatbotReplies.Fallbacks | src/components/PeaceyChatbot.tsx:315-320 | The forgot-password hint is returned exactly when no rule fires and `forgot.*password` matches. The generic reply is returned exactly when neither does. Every reply is non-empty. |
| ChatbotReplies.FallbackEndings | src/components/PeaceyChatbot.tsx:316-320 | The two fallback replies end in "t." and "w?". |
| ChatbotReplies.EndingText | src/components/PeaceyChatbot.tsx:316-320 | A reply ending in neither fallback's last two characters is neither fallback. |
| ChatbotReplies.ListingEnds | src/components/PeaceyChatbot.tsx:33-35 | A listing reply ends with its footer. |
| ChatbotReplies.FooterEnding | src/components/PeaceyChatbot.tsx:35-42 | The two listing footers end in "e." and "d.". |
| ChatbotReplies.ListingText | src/components/PeaceyChatbot.tsx:31-43 | A listing reply is non-empty and is neither fallback. |
| ChatbotReplies.PriceSentenceText | src/components/PeaceyChatbot.tsx:56 | A price sentence is non-empty and is neither fallback. |
| ChatbotReplies.PriceReplyText | src/components/PeaceyChatbot.tsx:51-59 | The lookup's reply, found or not, is non-empty and is neither fallback. |
| ChatbotReplies.NotFoundText | src/components/PeaceyChatbot.tsx:58 | The not-found reply is non-empty and is neither fallback. |
| ChatbotReplies.ListingRuleText | src/components/PeaceyChatbot.tsx:31-43 | A listing rule's reply is never a fallback. |
| ChatbotReplies.PriceRuleText | src/components/PeaceyChatbot.tsx:50-60 | The price rule's reply is never a fallback. |
| ChatbotReplies.RuleReplyText | src/components/PeaceyChatbot.tsx:29-302 | No rule's reply is empty or a fallback, so a reply tells a table answer apart from the fallbacks. |
| ChatbotReplies.FirstMatchIgnoresCase | src/components/PeaceyChatbot.tsx:29-313 | Two messages that differ only in ASCII case choose the same rule. |
| ChatbotReplies.FindPackageIgnoresCase | src/components/PeaceyChatbot.tsx:52-54 | The lookup finds the same entry for captures that agree up to case. |
| ChatbotReplies.CaptureIgnoresCase | src/components/PeaceyChatbot.tsx:50-53 | Messages that agree up to case both capture or both do not, and the captures agree up to case. |
| ChatbotReplies.RuleReplyIgnoresCase | src/components/PeaceyChatbot.tsx:29-302 | Each rule's reply is the same for messages that agree up to case. |
| ChatbotReplies.ReplyIgnoresCase | src/components/PeaceyChatbot.tsx:304-320 | The reply does not change when the message's ASCII case changes. |
| ChatbotReplies.ReplyOfLowered | src/components/PeaceyChatbot.tsx:304-320 | Lowercasing a message leaves its reply unchanged. |
| Patterns.AnyMatchesIgnoresCase | src/components/PeaceyChatbot.tsx:29-302 | A `/i` pattern matches a message exactly when it matches the message with its ASCII case changed. |
| Patterns.AltMatchesIgnoresCase | src/components/PeaceyChatbot.tsx:29-302 | An `a.*b` alternative matches regardless of ASCII case. |
| Patterns.SeqAtIgnoresCase | src/components/PeaceyChatbot.tsx:29-302 | Literals in order on one line are found at the same positions regardless of case. |
| Patterns.LaterOnLineIgnoresCase | src/components/PeaceyChatbot.tsx:29-302 | Whether the rest of an alternative follows on the same line does not depend on case. |
| Patterns.LineTerminatorIgnoresCase | src/components/PeaceyChatbot.tsx:29-302 | Characters equal up to case are both line terminators or both not, so `.` behaves the same on them. |
| Patterns.LitAtIgnoresCase | src/components/PeaceyChatbot.tsx:29-302 | A lowercase literal occurs at a position regardless of the message's case. |
| Patterns.LitAtIff | src/components/PeaceyChatbot.tsx:29-302 | A literal occurs at position `i` exactly when each of its characters equals the lowercased message character there. |
| Patterns.MatchAtChar | src/components/PeaceyChatbot.tsx:29-302 | A literal found at `i` agrees with the lowercased message at each of its positions. |
| Patterns.SubLiteral | src/components/PeaceyChatbot.tsx:29-302 | Where a literal occurs, every piece of it occurs too. |
| Patterns.ContainsSubLiteral | src/components/PeaceyChatbot.tsx:29-302 | A message containing a literal contains every piece of it. |
| Patterns.AbsentByPair | src/components/PeaceyChatbot.tsx:29-302 | A literal with an adjacent character pair the message lacks does not occur in it. |
| Patterns.SeqAtParts | src/components/PeaceyChatbot.tsx:29-302 | Literals matched in order each occur in the message. |
| Patterns.LaterOnLineParts | src/components/PeaceyChatbot.tsx:29-302 | The literals matched after a `.*` each occur in the message. |
| Patterns.AltNeedsEveryPart | src/components/PeaceyChatbot.tsx:29-302 | An alternative matches only messages containing each of its literals. |
| Patterns.AltFailsWithoutPart | src/components/PeaceyChatbot.tsx:29-302 | An alternative one of whose literals is missing does not match. |
| Patterns.AltNeedsLiteral | src/components/PeaceyChatbot.tsx:29-302 | An alternative whose literal has a word the message lacks does not match. |
| Patterns.PickAlternative | src/components/PeaceyChatbot.tsx:29-302 | A pattern that matches has a matching alternative. |
| Patterns.LiteralAbsent | src/components/PeaceyChatbot.tsx:29-302 | A message the pattern does not match lacks each of its single-literal alternatives. |
| Patterns.SingleLiteral | src/components/PeaceyChatbot.tsx:29-302 | A one-literal alternative matches exactly the messages that contain the literal. |
| Patterns.PairOnOneLine | src/components/PeaceyChatbot.tsx:29-302 | `a.*b` matches when `a` occurs and `b` starts after it with no line break between. |
| Patterns.GapOnOneLine | src/components/PeaceyChatbot.tsx:29-302 | `a.*b` matches text holding `a`, a gap with no line break, and `b`. |
| Patterns.LaterFrom | src/components/PeaceyChatbot.tsx:29-302 | The rest of an alternative found on the line at any later point counts as following. |
| Patterns.FirstAltAt | src/components/PeaceyChatbot.tsx:50-53 | At a position, the first alternative whose literal occurs there, as the regular expression tries them. |
| Patterns.LeftmostFrom | src/components/PeaceyChatbot.tsx:50-53 | The leftmost position where some alternative starts, with the first alternative that occurs there. |
| Patterns.NoLiteralBeyondEnd | src/components/PeaceyChatbot.tsx:50-53 | No non-empty literal occurs past the end of the message. |
| Patterns.MatchedText | src/components/PeaceyChatbot.tsx:50-53 | The text `match` returns exists exactly when the pattern matches, and it is an occurrence of one of the alternatives. |
| Patterns.LeftmostIgnoresCase | src/components/PeaceyChatbot.tsx:50-53 | The leftmost match position and alternative do not depend on case. |
| Patterns.FirstAltIgnoresCase | src/components/PeaceyChatbot.tsx:50-53 | The alternative tried first at a position does not depend on case. |
| Patterns.MatchedTextIgnoresCase | src/components/PeaceyChatbot.tsx:50-53 | The matched texts of messages equal up to case are equal up to case. |
| Patterns.MatchedTextAt | src/components/PeaceyChatbot.tsx:50-53 | The matched text is the message slice at the leftmost match. |
| Patterns.MatchedTextLowered | src/components/PeaceyChatbot.tsx:50-53 | The slice where a literal occurs lowercases to the literal. |
| Patterns.SuffixLiteral | src/components/PeaceyChatbot.tsx:50-53 | Where a literal occurs, its last `n` characters occur `|lit| - n` further on. |
| Patterns.MatchedSuffix | src/components/PeaceyChatbot.tsx:50-53 | The last `n` characters of the matched text lowercase to the end of one of the alternatives, which is what the second group captures. |
| ChatWindow.ExchangeKeepsTranscript | src/components/PeaceyChatbot.tsx:333-351 | One exchange keeps the message list a transcript: a blank message changes nothing, and any other adds two messages. |
| ChatWindow.SeedTranscript | src/components/PeaceyChatbot.tsx:325-327 | The list holding only the assistant's greeting is a transcript. |
| ChatWindow.TranscriptOdd | src/components/PeaceyChatbot.tsx:325-351 | A transcript always holds an odd number of messages. |
| ChatWindow.TranscriptInPlace | src/components/PeaceyChatbot.tsx:333-351 | In a transcript, every message sits at the position its id names: user messages after the greeting, each followed by the reply to its content. |
| ChatWindow.LastTurnInPlace | src/components/PeaceyChatbot.tsx:333-351 | The last question and answer appended sit at the positions their ids name. |
| ChatWindow.InPlaceKept | src/components/PeaceyChatbot.tsx:333-351 | Appending messages leaves earlier ones in place. |
| ChatWindow.TranscriptIdsDistinct | src/components/PeaceyChatbot.tsx:336-346 | Within a sequential conversation, no two messages share an id. |
| ChatWindow.Chat.constructor | src/context/EternalpEASEAiContext.tsx:12-19 | The conversation starts with the greeting alone and an empty input. |
| ChatWindow.Chat.ChangeInput | src/components/PeaceyChatbot.tsx:327 | Typing replaces the input and leaves the messages alone. |
| ChatWindow.Chat.SendMessage | src/components/PeaceyChatbot.tsx:333-342 | Blank input changes nothing. Otherwise the trimmed text is appended as a user message numbered by the list's length, the input is cleared, and a reply numbered one more is pending. |
| ChatWindow.Chat.ReplyArrives | src/components/PeaceyChatbot.tsx:343-350 | The pending reply is appended and nothing else changes. |
| ChatWindow.Chat.Converse | src/components/PeaceyChatbot.tsx:333-351 | Sending and then receiving the reply performs one exchange and keeps the list a transcript. |
| Booking.WholeYears | src/components/BookingScreen.tsx:12-20 | The age in whole years: the birthday that many years on is reached by today, and the next one is not. |
| Booking.NoAgeBeforeBirth | src/components/BookingScreen.tsx:17-19 | A birth date after today shows no age. |
| Booking.AnniversaryMonotone | src/components/BookingScreen.tsx:14-16 | An earlier birthday is reached whenever a later one is. |
| Booking.KeptDigits | src/components/BookingScreen.tsx:89-93 | The phone handler keeps at most ten ASCII digits; `NormalizeWithPrefix` and `NormalizeWithoutPrefix` say which. |
| Booking.NormalizePhone | src/components/BookingScreen.tsx:83-94 | The stored phone is always "+63" followed by at most ten digits; an input is too short when `length`, counted in UTF-16 code units, is below 3. |
| Booking.NormalizeWithPrefix | src/components/BookingScreen.tsx:83-94 | An input starting with "+63" is stored as "+63" and the first ten ASCII digits of the rest, in order. |
| Booking.NormalizeWithoutPrefix | src/components/BookingScreen.tsx:83-94 | An input of at least three UTF-16 code units not starting with "+63" is stored as "+63" and the first ten ASCII digits of the whole input, in order. |
| Booking.AstralPhoneKept | src/components/BookingScreen.tsx:83-93 | An emoji followed by a digit is three UTF-16 code units long, so it is normalised to "+631" rather than reset to "+63". |
| Booking.PhoneErrorClearIff | src/components/BookingScreen.tsx:83-99 | The phone error is clear exactly when the input is at least three UTF-16 code units long and ten digits were kept. |
| Booking.NormalizeKeepsShape | src/components/BookingScreen.tsx:89-94 | A stored phone typed in again is kept as it is. |
| Booking.NormalizeIdempotent | src/components/BookingScreen.tsx:83-94 | Normalising twice is normalising once. |
| Booking.ValidPhoneKept | src/components/BookingScreen.tsx:24-99 | A phone `isValidPhone` accepts is stored unchanged, with no error. |
| Booking.ValidateAllClearIff | src/components/BookingScreen.tsx:166-193 | All seven errors are clear exactly when the form is complete: the names and place are present, the dates are set in order, and the phone and e-mail are valid. |
| Booking.ValidateAllDateOrder | src/components/BookingScreen.tsx:180-187 | A passing date on or before the birth date gives "Date of passing must be after date of birth" and blocks the form. |
| Booking.Complete | src/components/BookingScreen.tsx:166-193 | What a complete form is. |
| Booking.BookingScreen.constructor | src/components/BookingScreen.tsx:32-53 | The form and errors start empty and the picker closed. |
| Booking.BookingScreen.DeceasedNameChange | src/components/BookingScreen.tsx:59-65 | Only the deceased's name and its error change. |
| Booking.BookingScreen.PlaceOfPassingChange | src/components/BookingScreen.tsx:67-73 | Only the place of passing and its error change. |
| Booking.BookingScreen.ContactNameChange | src/components/BookingScreen.tsx:75-81 | Only the contact's name and its error change. |
| Booking.BookingScreen.PhoneChange | src/components/BookingScreen.tsx:83-100 | Only the phone and its error change: the normalised phone, with the length test in UTF-16 code units, and its error. |
| Booking.BookingScreen.EmailChange | src/components/BookingScreen.tsx:102-108 | Only the e-mail and its error change. |
| Booking.BookingScreen.OpenPicker | src/components/BookingScreen.tsx:112-118 | The picker opens on the field's current date, or today when the field is unset. |
| Booking.BookingScreen.TempDateChange | src/components/BookingScreen.tsx:120-122 | Only a confirmed selection changes the date being picked. |
| Booking.BookingScreen.PickerDone | src/components/BookingScreen.tsx:124-161 | The picked date is stored in its field. The date-order error is recomputed whenever both dates are set. The picker closes. |
| Booking.BookingScreen.PickerCancel | src/components/BookingScreen.tsx:163 | Cancelling only closes the picker. |
| Booking.BookingScreen.HandleNext | src/components/BookingScreen.tsx:195-198 | The errors become `validateAll`'s, and the form is passed on exactly when it is complete. |
| Email.ValidEmailShape | src/components/RegisterScreen.tsx:9-10 | The anchored check holds exactly when the address has no whitespace, exactly one '@' with something before it, and a '.' after the '@' that is neither the first nor the last character there. |
| Email.ValidToShape | src/components/RegisterScreen.tsx:9-10 | An address the anchored check accepts has that shape. |
| Email.ShapeToValid | src/components/RegisterScreen.tsx:9-10 | An address of that shape is accepted by the anchored check. |
| Email.AtCountSplit | src/components/RegisterScreen.tsx:9-10 | Counting '@' splits around any position. |
| Email.NoAtCount | src/components/RegisterScreen.tsx:9-10 | A string without '@' counts none. |
| Email.OnlyAt | src/components/RegisterScreen.tsx:9-10 | With one '@' counted, no other position holds '@'. |
| Email.ValidIsLoose | src/components/BookingScreen.tsx:21-23 | Every address the anchored check accepts is accepted by the booking form's unanchored check. |
| Email.LooseIsWeaker | src/components/BookingScreen.tsx:21-23 | The unanchored check accepts "a b@c.d" and "a@@b.c", which the anchored one rejects. |
| Register.RegisterErrorsClearIff | src/components/RegisterScreen.tsx:46-61 | No error is set exactly when the name is non-empty, the e-mail valid, the password at least 6 UTF-16 code units long and the confirmation equal to it. |
| Register.BlankNamePasses | src/components/RegisterScreen.tsx:49 | A name of spaces passes: there is no trim. |
| Register.PasswordMessages | src/components/RegisterScreen.tsx:53-54 | "Please provide a password" when empty; else the length message when shorter than 6 UTF-16 code units; else none. |
| Register.AstralPasswordLongEnough | src/components/RegisterScreen.tsx:53-54 | Three emoji make six UTF-16 code units, so the password passes the length check. |
| Register.ConfirmMessages | src/components/RegisterScreen.tsx:56-57 | "Please confirm your password" when empty; else "Passwords do not match" when different; else none. |
| Register.RegisterScreen.constructor | src/components/RegisterScreen.tsx:23-44 | Empty fields, no errors, no banner, no modal. |
| Register.RegisterScreen.HandleRegister | src/components/RegisterScreen.tsx:46-115 | The back end is consulted exactly when the checks pass, the length test counting UTF-16 code units. A registered e-mail gets its error and modal. Each failed sign-up sets its error banner and leaves the e-mail-sent modal as it was; success opens it. The fields are unchanged. |
| Register.RegisterScreen.NameChange | src/components/RegisterScreen.tsx:155-158 | Only the name and its error change; a showing error is cleared. The banner, both modals and the modal message stay. |
| Register.RegisterScreen.EmailChange | src/components/RegisterScreen.tsx:169-172 | Only the e-mail and its error change; a showing error is cleared. The banner, both modals and the modal message stay. |
| Register.RegisterScreen.PasswordChange | src/components/RegisterScreen.tsx:194-197 | Only the password and its error change; a showing error is cleared. The banner, both modals and the modal message stay. |
| Register.RegisterScreen.ConfirmPasswordChange | src/components/RegisterScreen.tsx:223-226 | Only the confirmation and its error change; a showing error is cleared. The banner, both modals and the modal message stay. |
| Register.RegisterScreen.EmailBlur | src/components/RegisterScreen.tsx:173-180 | Leaving a non-empty invalid e-mail shows the "@ and a valid domain" hint. The fields, the banner, both modals and the modal message stay. |
| Login.LoginErrorsClearIff | src/components/LoginScreen.tsx:39-44 | Sign-in is attempted exactly when the e-mail is valid and the password non-empty. |
| Login.EmptyEmailInvalid | src/components/LoginScreen.tsx:8-41 | An empty e-mail gets "Please enter a valid email". |
| Login.Refusal | src/components/LoginScreen.tsx:52-76 | Every outcome except a confirmed user is refused with a non-empty message. |
| Login.LoginScreen.constructor | src/components/LoginScreen.tsx:12-20 | Empty fields, no errors, no modal, not logged in. |
| Login.LoginScreen.HandleLogin | src/components/LoginScreen.tsx:39-77 | Sign-in is consulted exactly when the checks pass. Only a confirmed user logs in, with errors cleared and the success banner. Every other outcome shows its modal. |
| Login.LoginScreen.EmailChange | src/components/LoginScreen.tsx:127-130 | Only the e-mail and its error change; a showing error is cleared. The banner, the modal and its message, the logged-in flag and the app's e-mail stay. |
| Login.LoginScreen.PasswordChange | src/components/LoginScreen.tsx:163-166 | Only the password and its error change; a showing error is cleared. The banner, the modal and its message, the logged-in flag and the app's e-mail stay. |
| Login.LoginScreen.EmailBlur | src/components/LoginScreen.tsx:131-138 | Leaving a non-empty invalid e-mail shows the domain hint. The fields, the banner, the modal and its message, the logged-in flag and the app's e-mail stay. |
| Profile.InitialsBlank | src/components/ProfileScreen.tsx:11-14 | The initials are empty exactly for an empty or all-whitespace name. |
| Profile.InitialsOneWord | src/components/ProfileScreen.tsx:13-14 | A name without inner spaces gives its first character, uppercased. |
| Profile.InitialsTwoWords | src/components/ProfileScreen.tsx:13-15 | A name with inner spaces gives the uppercased first characters of its first and last words. |
| Profile.InitialsShort | src/components/ProfileScreen.tsx:11-16 | The initials have at most two characters. |
| Profile.WordInitialsTwoWords | src/components/ProfileScreen.tsx:13-15 | For a trimmed name with a space: the first word's and the last word's first characters, uppercased. |
| Profile.WordInitialsLast | src/components/ProfileScreen.tsx:15 | The second initial is the character after the last space. |
| Profile.SplitTrimmedEnds | src/components/ProfileScreen.tsx:13 | Splitting a trimmed non-empty name gives a non-empty first and last part. |
| Profile.SavedIsUnchanged | src/components/ProfileScreen.tsx:58-110 | Inputs saved as their trimmed selves leave no change to save. |
| Profile.FailureAlert | src/components/ProfileScreen.tsx:112-113 | The failure alert shows the back end's message, or a fallback when it has none. |
| Profile.ProfileScreen.SaveNeedsValidEmail | src/components/ProfileScreen.tsx:65-75 | Saving is enabled only with a non-blank name and a well-formed trimmed e-mail. |
| Profile.ProfileScreen.constructor | src/components/ProfileScreen.tsx:18-25 | The screen opens on the e-mail it was given, not editing. |
| Profile.ProfileScreen.UserLoaded | src/components/ProfileScreen.tsx:29-56 | The loaded name and e-mail fill the shown data, the inputs and the originals, so nothing is changed yet. |
| Profile.ProfileScreen.StartEditing | src/components/ProfileScreen.tsx:119-121 | Only the editing flag is set. |
| Profile.ProfileScreen.NameInputChange | src/components/ProfileScreen.tsx:184 | Only the name input changes. |
| Profile.ProfileScreen.EmailInputChange | src/components/ProfileScreen.tsx:194 | Only the e-mail input changes. |
| Profile.ProfileScreen.CancelEditing | src/components/ProfileScreen.tsx:123-127 | The inputs return to the originals and editing ends, so no change remains. |
| Profile.ProfileScreen.Save | src/components/ProfileScreen.tsx:83-116 | On success the originals and the shown data become the trimmed inputs and editing ends. On failure an alert shows and nothing else changes. |
| Profile.ProfileScreen.HandleSaveProfile | src/components/ProfileScreen.tsx:77-117 | Invalid input only alerts. Valid input saves as above. |
| ResetPassword.ChooseToken | src/components/ResetPasswordScreen.tsx:16-34 | A chosen token is never empty. |
| ResetPassword.RouteTokenFirst | src/components/ResetPasswordScreen.tsx:20-23 | A non-empty route token is used whatever the link holds. |
| ResetPassword.RouteListHidesLink | src/components/ResetPasswordScreen.tsx:20-26 | A route parameter holding a list blocks the link and yields no usable token. |
| ResetPassword.Designated | src/components/ResetPasswordScreen.tsx:26-33 | The token a parameter names is a non-empty string: the parameter itself or the first element of its list. |
| ResetPassword.LinkTokenChosen | src/components/ResetPasswordScreen.tsx:22-33 | For every link without a truthy route parameter: the token is what `access_token` names whenever it is truthy, even when that is no token, and what `token` names otherwise. |
| ResetPassword.NoTokenWithoutSource | src/components/ResetPasswordScreen.tsx:26-45 | Without a route token or a link there is no token. |
| ResetPassword.PasswordProblem | src/components/ResetPasswordScreen.tsx:49-58 | No problem exactly when the password has 6 or more UTF-16 code units and equals its confirmation; a short one gets "Password must be at least 6 characters.", and a long enough one that differs from its confirmation gets "Passwords do not match.". |
| ResetPassword.DoneIsGreen | src/components/ResetPasswordScreen.tsx:65-106 | The success message is green. |
| ResetPassword.ProblemsAreRed | src/components/ResetPasswordScreen.tsx:52-106 | Both local validation messages are red. |
| ResetPassword.ResetScreen.constructor | src/components/ResetPasswordScreen.tsx:8-13 | Empty fields, no message, no session, no error. |
| ResetPassword.ResetScreen.Open | src/components/ResetPasswordScreen.tsx:16-84 | The code exchange is tried exactly with the chosen token. A missing token or a refused code sets its error and the screen shows that error; an accepted code readies the session and, with no earlier error, the screen shows the form. |
| ResetPassword.ResetScreen.PasswordChange | src/components/ResetPasswordScreen.tsx:93 | Only the password changes. |
| ResetPassword.ResetScreen.ConfirmPasswordChange | src/components/ResetPasswordScreen.tsx:101 | Only the confirmation changes. |
| ResetPassword.ResetScreen.UpdatePassword | src/components/ResetPasswordScreen.tsx:49-67 | The update is sent exactly when there is no problem (length in UTF-16 code units); otherwise the problem is the message. The result is the back end's error or the green success message. |
| FuneralPackages.Bullets | src/components/FuneralPackagesScreen.tsx:12-16 | One "• " line per feature, in order. |
| FuneralPackages.DetailsLines | src/components/FuneralPackagesScreen.tsx:12-18 | A package's details split into its bullet lines, a blank line and the closing sentence. |
| FuneralPackages.PriceList | src/components/FuneralPackagesScreen.tsx:7-129 | The name and price of each entry, in order. |
| FuneralPackages.PriceAt | src/components/FuneralPackagesScreen.tsx:7-129 | Each entry's name and price equal the assistant's catalog entry at the same position. |
| FuneralPackages.CatalogMatchesAssistant | src/components/FuneralPackagesScreen.tsx:7-129 | The screen's catalog and the assistant's agree entry for entry on names and prices. |
| FuneralPackages.ToggleTwice | src/components/FuneralPackagesScreen.tsx:186 | Pressing the same entry twice restores the state exactly when nothing or that entry was open. |
| FuneralPackages.ToggleOpensOne | src/components/FuneralPackagesScreen.tsx:186 | Opening one entry closes the one that was open. |
| FuneralPackages.PackagesScreen.constructor | src/components/FuneralPackagesScreen.tsx:131-135 | Nothing is expanded and the incoming form is kept. |
| FuneralPackages.PackagesScreen.Toggle | src/components/FuneralPackagesScreen.tsx:186-195 | The new state is the toggled one; afterwards exactly the pressed card reads "View Less", and none does when it was the open one. |
| FuneralPackages.PackagesScreen.AtMostOneOpen | src/components/FuneralPackagesScreen.tsx:177-195 | At most one card shows its details, and that card reads "View Less". |
| FuneralPackages.PackagesScreen.Select | src/components/FuneralPackagesScreen.tsx:198-201 | Navigates to the details with the pressed entry and the form unchanged. |
| App.DeepLinkNavigatesIff | App.tsx:100-111 | A link navigates exactly for the four known paths, and a confirmation token goes only to Login and is non-empty. |
| App.LoginLinkToken | App.tsx:101-104 | "login" goes to Login with the token when it is non-empty, and without parameters otherwise. |
| App.OtherLinkTargets | App.tsx:105-110 | The other three paths go to ResetPassword, FuneralPackages and PackageDetails. |
| App.ScreensPrecedence | App.tsx:122-166 | Logged in beats register, which beats forgot-password, which beats the login stack. |
| App.ChatbotWithTabs | App.tsx:122-168 | The assistant is mounted exactly when the main tabs are. |
| App.LoginStackOnly | App.tsx:149-166 | Login and ResetPassword are registered only in the default logged-out branch. |
| App.LinkTargetsRegistered | App.tsx:100-166 | Every link target is registered in the login stack; once logged in only the package screens are. |
| Tabs.VisibleMembers | src/components/Maintabs.tsx:40 | A route is visible exactly when it is a route not named "Booking". |
| Tabs.VisibleConcat | src/components/Maintabs.tsx:40 | The filter works piecewise, so it keeps the routes' order. |
| Tabs.IndexOfKey | src/components/Maintabs.tsx:52 | `findIndex` by key: the first route with that key, or none. |
| Tabs.IndexOfUniqueKey | src/components/Maintabs.tsx:52 | With unique keys, a route's key is found at its own index. |
| Tabs.ActiveIff | src/components/Maintabs.tsx:52-53 | A visible tab is active exactly when it is the current route. None is active while Booking is current. |
| Tabs.ActiveStandsOut | src/components/Maintabs.tsx:54-55 | The active colour differs from both inactive colours. |
| Tabs.DrawTabs | src/components/Maintabs.tsx:50-59 | Every drawn tab comes from a visible route with metadata and carries its caption and icon; its colour is the active colour exactly when the route is active, else the theme's inactive colour. Routes without metadata draw nothing. |
| Tabs.DrawOne | src/components/Maintabs.tsx:50-59 | A route with metadata draws one tab with its caption, icon and active-or-inactive colour, followed by the rest. |
| Tabs.DeclaredVisible | src/components/Maintabs.tsx:40-136 | Of the five declared screens, Home, Payment, Alerts and Profile are visible, in that order. |
| Tabs.TabScreensMeta | src/components/Maintabs.tsx:43-48 | The four tab screens' captions and icons. |
| Tabs.DeclaredTabs | src/components/Maintabs.tsx:40-136 | With the declared screens the bar draws Home, Payment, Alerts and Profile with their icons; each has the active colour #648CBA exactly when the navigator's index is its screen's place, else the theme's inactive colour. |
| Tabs.DeclaredPlaces | src/components/Maintabs.tsx:92-136 | The four tab screens sit at places 0, 1, 3 and 4 of the declared screens, Booking at 2. |
| Tabs.CentreTargetHidden | src/components/Maintabs.tsx:40-136 | The centre button opens a declared screen, and of the declared screens exactly that one has no tab. |
| Text.Lower | src/components/PeaceyChatbot.tsx:53 | `toLowerCase` on ASCII letters, character by character. |
| Text.LowerIdempotent | src/components/PeaceyChatbot.tsx:53 | Lowercasing twice is lowercasing once. |
| Text.Trim | src/components/PeaceyChatbot.tsx:334-338 | `trim` cuts leading and trailing whitespace, and the result neither starts nor ends with it. |
| Text.TrimEmptyIff | src/components/PeaceyChatbot.tsx:334 | The trimmed text is empty exactly when the text is all whitespace. |
| Text.TrimIdempotent | src/components/ProfileScreen.tsx:58-71 | Trimming twice is trimming once. |
| Text.Split | src/components/ProfileScreen.tsx:13 | `split` gives parts without the separator that join back to the text, and a single part exactly when the separator is absent. |
| Text.SplitJoin | src/components/ProfileScreen.tsx:13 | Splitting parts joined by a separator they lack gives them back. |
| Text.JoinInjective | src/components/PeaceyChatbot.tsx:33-35 | Different separator-free parts join to different texts. |
| Text.Numeral | src/components/PeaceyChatbot.tsx:336-346 | A non-empty numeral of digits, a single digit exactly below ten. |
| Text.NumeralInjective | src/components/PeaceyChatbot.tsx:336-346 | Different numbers give different id strings. |
| Text.Digits | src/components/BookingScreen.tsx:90-93 | `replace(/[^0-9]/g, '')` leaves only digits, no more than there were characters, and keeps an all-digit text whole. |
| Text.DigitsOne | src/components/BookingScreen.tsx:90-93 | A single character is kept exactly when it is an ASCII digit. |
| Text.DigitsConcat | src/components/BookingScreen.tsx:90-93 | The digits of a concatenation are the first part's followed by the second's; with `DigitsOne` this makes the result every ASCII digit of the text, in order. |
| Text.Take | src/components/BookingScreen.tsx:90-93 | `slice(0, n)` is a prefix of length at most `n`. |
| Text.Utf16LengthIff | src/components/RegisterScreen.tsx:54 | `length` counts UTF-16 code units; it equals the number of characters exactly when none lies outside the Basic Multilingual Plane. |
| Text.Utf16LengthConcat | src/components/BookingScreen.tsx:84 | The `length` of a concatenation is the sum of the lengths. |

## Left out

- Back-end calls are parameters: Supabase sign-in, sign-up, the user lookup and upsert, `updateUser`, `exchangeCodeForSession` and the users-table update. Only the outcome the screen branches on is modelled.
- The assistant's timers (the 100 ms scroll and the 650 ms reply delay) are not modelled. A message is sent in two steps, `SendMessage` and then `ReplyArrives`. `Converse` runs one exchange to completion, so the duplicate ids possible when a second message is sent before a reply arrives are not captured.
- Time zones and `formatDate` are not modelled. Dates are (year, month, day) triples and `today` is a parameter.
- Case mapping covers ASCII only. Every literal in the assistant's table is ASCII, so there only the case of non-ASCII characters in a message is out of scope; the profile initials are affected too (below).
- Profile.InitialsOneWord: takes the first character and uppercases ASCII letters only. The source takes the first UTF-16 code unit, a lone surrogate for a name starting with an emoji, and uppercases all of Unicode ("ñora" gives "Ñ"). Dafny characters cannot hold a lone surrogate.
- Profile.InitialsTwoWords: the same character and case-mapping gap as InitialsOneWord, for both initials.
- Profile.WordInitialsTwoWords: the same character and case-mapping gap as InitialsOneWord.
- Profile.WordInitialsLast: the same character and case-mapping gap as InitialsOneWord.
- Profile.InitialsShort: holds of the ASCII model only. In the source full-Unicode `toUpperCase` can lengthen an initial ("ßa ßb" gives "SSSS").
- Regular expressions are modelled as ordered literal alternatives, not by a general engine. The table's patterns are written out in that form, and the theme answer is kept as its rendered text.
- ThemeContext, SettingsScreen, the icons, the layout and the static screens hold no decision logic and are not part of this model.
- The loading and saving flags around awaited calls are collapsed into one step. Only their values after the call are stated.
- The profile fetch's error path only logs, so the model leaves the screen unchanged there.
- The booking picker's "required" messages for the dates cannot appear from the handlers modelled: picking a date always sets it.
- FuneralPackages.Details: the "All Package X inclusions" structure of the feature lists is not stated; only the line layout (`DetailsLines`) is proved.
- ChatbotFacts.HiShadowsThanks: states that the thanks rule never answers a message containing "hi", not that the greeting rule answers it, since an earlier rule may.
- ResetPassword.MessageColour: a back-end error message containing "reset" is shown green, as in the source. The model states this; it does not correct it.
- ForgotPasswordScreen is not part of this model: its only logic is the anchored e-mail check already modelled in `Email`, followed by a back-end call.
