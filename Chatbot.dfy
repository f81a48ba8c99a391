/** Peacey, the in-app funeral-service assistant: an ordered table of
    question patterns with canned answers and the reply function that
    consults it. Rules are numbered from 0 in table order. */
module Chatbot {
  import opened Text
  import opened Wrappers
  import opened Patterns

  /** A package as the assistant quotes it: name and price label. */
  datatype PackagePrice = PackagePrice(name: string, price: string)

  function Packages(): seq<PackagePrice> {
    [ PackagePrice("Package A", "₱30,000"),
      PackagePrice("Package B", "₱40,000"),
      PackagePrice("Package C", "₱50,000"),
      PackagePrice("Package D", "₱60,000"),
      PackagePrice("Package E", "₱70,000"),
      PackagePrice("Package F", "₱80,000"),
      PackagePrice("Package G", "₱90,000"),
      PackagePrice("Package H", "₱100,000"),
      PackagePrice("Package I", "₱120,000"),
      PackagePrice("Package J", "₱250,000") ]
  }

  /** A question pattern: its alternatives, each a `.*`-chain of literals. */
  type Pattern = seq<Alternative>

  /** How a rule answers once its question matched: with a fixed text, with
      the package catalog listed between a header and a footer (a text the
      source builds from the catalog when the table is built), or with the
      price of the package the match names. */
  datatype Answer = Fixed(text: string) | PackageList(header: string, footer: string) | PriceOfPackage

  /** The first line of the `k`-th catalog listing (of two). */
  function ListingHeader(k: nat): (h: string)
    requires k < 2
    ensures '\n' !in h
  {
    if k == 0 then "We offer 10 " + "packages:" else "Here are our 10 " + "standard packages:"
  }

  /** The last line of the `k`-th catalog listing (of two). */
  function ListingFooter(k: nat): (f: string)
    requires k < 2
    ensures '\n' !in f
  {
    if k == 0 then "You can choose any " + "package and " + "customize it with " + "your preferred " + "theme."
    else "Every package " + "includes core " + "funeral services " + "and can be further " + "customized."
  }

  const RuleCount := 56

  /** The rule whose answer reads the match. */
  const PriceRule := 3

  /** The lowered name of the `x`-th package: `package a`, `package b`, … */
  function PackageKey(x: nat): string
    requires x < 26
  {
    "package " + [('a' as int + x) as char]
  }

  /** `(price|cost) of (package [a-j])` as twenty literal alternatives, the
      `price` ones first; each ends in the second group, `package x`. */
  function PriceQuestion(): Pattern {
    seq(20, a => [(if a < 10 then "price of " else "cost of ") + "package " + [('a' as int + a % 10) as char]])
  }

  /** The length of the second group, `package x`. */
  const GroupLength := 9

  /** The question of rule `k`: the expanded alternatives of its pattern,
      as the source's table lists them (the line of each entry is noted). */
  function Question(k: nat): Pattern
    requires k < RuleCount
  {
    match k
    case 0 => // line 31
      [["how many packages do you have"], ["how many packages are there"], ["how many funeral packages do you have"], ["how many funeral packages are there"], ["number of packages"], ["funeral packages"]]
    case 1 => // line 38
      [["what are packages"], ["what are the packages"], ["what is packages"], ["what is the packages"], ["what do you offer packages"], ["what do you offer the packages"], ["list", "packages"], ["can you list", "packages"]]
    case 2 => // line 45
      [["how much", "package"], ["how much", "cost"], ["how much", "price"], ["price", "package"], ["package", "price"], ["cost", "funeral"]]
    case 3 => // line 50
      PriceQuestion()
    case 4 => // line 62
      [["cheapest"], ["lowest price"], ["most affordable"], ["budget"], ["minimum cost"]]
    case 5 => // line 66
      [["most expensive"], ["highest price"], ["premium"], ["luxury"], ["top package"]]
    case 6 => // line 70
      [["payment", "plan"], ["installment"], ["pay", "monthly"], ["financing"]]
    case 7 => // line 74
      [["what", "included", "package"], ["package", "include"], ["what", "get", "package"]]
    case 8 => // line 80
      [["what themes"], ["what styles"], ["what motifs"], ["what the themes"], ["what the styles"], ["what the motifs"], ["what are themes"], ["what are styles"], ["what are motifs"], ["what are the themes"], ["what are the styles"], ["what are the motifs"], ["theme", "package"], ["can i customize", "theme"]]
    case 9 => // line 87
      [["customize"], ["personalize"], ["modify"], ["change", "package"]]
    case 10 => // line 91
      [["flowers"], ["arrangements"], ["decorations"], ["decor"]]
    case 11 => // line 97
      [["what types of funeral"], ["what types of service"], ["what types of ceremony"], ["what kind of funeral"], ["what kind of service"], ["what kind of ceremony"], ["what kinds of funeral"], ["what kinds of service"], ["what kinds of ceremony"], ["what forms of funeral"], ["what forms of service"], ["what forms of ceremony"]]
    case 12 => // line 101
      [["traditional", "funeral"], ["catholic", "funeral"], ["christian", "funeral"]]
    case 13 => // line 105
      [["celebration", "life"], ["memorial", "service"], ["remembrance", "service"]]
    case 14 => // line 109
      [["wake", "service"], ["viewing"], ["visitation"]]
    case 15 => // line 115
      [["cremat"], ["burial"], ["urn"], ["ashes"]]
    case 16 => // line 119
      [["cremation", "process"], ["how", "cremation"], ["cremation", "work"]]
    case 17 => // line 123
      [["burial", "process"], ["how", "burial"], ["cemetery"], ["grave"]]
    case 18 => // line 127
      [["casket"], ["coffin"], ["urn", "options"]]
    case 19 => // line 133
      [["death certificate"], ["documents"], ["paperwork"], ["legal"]]
    case 20 => // line 137
      [["insurance"], ["claim"], ["benefits"]]
    case 21 => // line 141
      [["permit"], ["requirements"], ["government"], ["city hall"]]
    case 22 => // line 147
      [["transport"], ["vehicle"], ["hearse"], ["pickup"]]
    case 23 => // line 151
      [["location"], ["venue"], ["where", "service"], ["funeral home"]]
    case 24 => // line 155
      [["pickup", "body"], ["transfer", "deceased"], ["bring", "home"]]
    case 25 => // line 161
      [["how long"], ["duration"], ["days", "funeral"], ["schedule"]]
    case 26 => // line 165
      [["when", "available"], ["schedule", "funeral"], ["book", "date"]]
    case 27 => // line 169
      [["emergency"], ["urgent"], ["immediate"], ["rush"]]
    case 28 => // line 175
      [["preplan", "funeral"], ["pre-plan", "funeral"], ["plan", "in advance"], ["advance planning"], ["advance arrangement"]]
    case 29 => // line 179
      [["pre", "need"], ["plan", "ahead"], ["future", "planning"]]
    case 30 => // line 185
      [["grief support"], ["support", "grieving"], ["help", "grief"], ["bereavement"]]
    case 31 => // line 189
      [["counseling"], ["therapy"], ["emotional support"], ["coping"]]
    case 32 => // line 195
      [["memorial"], ["tribute"], ["remember"], ["digital memorial"]]
    case 33 => // line 199
      [["live stream"], ["online", "service"], ["virtual", "funeral"], ["video"]]
    case 34 => // line 203
      [["photos"], ["video", "tribute"], ["slideshow"], ["memory", "board"]]
    case 35 => // line 209
      [["military", "funeral"], ["veteran"], ["honor guard"]]
    case 36 => // line 213
      [["child", "funeral"], ["infant"], ["baby"], ["pediatric"]]
    case 37 => // line 217
      [["eco", "friendly"], ["green", "burial"], ["natural", "burial"], ["environmental"]]
    case 38 => // line 223
      [["contact", "support"], ["how", "contact"], ["reach", "support"], ["customer service"]]
    case 39 => // line 227
      [["sino", "matulog"], ["sino", "maaga"], ["matulog", "maaga"], ["customer service"]]
    case 40 => // line 231
      [["tips", "para"], ["makatulog", "maaga"], ["tips", "para"], ["customer service"]]
    case 41 => // line 235
      [["emergency", "contact"], ["hotline"], ["urgent", "help"]]
    case 42 => // line 239
      [["office", "hours"], ["when", "open"], ["business hours"]]
    case 43 => // line 245
      [["how do i arrange", "funeral"], ["how can i arrange", "funeral"], ["arrange", "funeral"], ["book", "funeral"]]
    case 44 => // line 249
      [["what", "do", "first"], ["where", "start"], ["begin", "process"]]
    case 45 => // line 253
      [["checklist"], ["what", "need"], ["requirements", "family"]]
    case 46 => // line 259
      [["facilities"], ["amenities"], ["chapel"], ["rooms"]]
    case 47 => // line 263
      [["parking"], ["accessibility"], ["wheelchair"], ["facilities"]]
    case 48 => // line 267
      [["catering"], ["food"], ["refreshments"], ["meals"]]
    case 49 => // line 273
      [["muslim", "funeral"], ["islamic", "service"], ["halal"]]
    case 50 => // line 277
      [["buddhist", "funeral"], ["buddhist", "service"]]
    case 51 => // line 281
      [["chinese", "funeral"], ["chinese", "tradition"], ["feng shui"]]
    case 52 => // line 287
      [["funeral"]]
    case 53 => // line 291
      [["hello"], ["hi"], ["hey"], ["good morning"], ["good afternoon"], ["good evening"]]
    case 54 => // line 295
      [["help"], ["support"], ["assist"]]
    case _ => // line 299
      [["thank you"], ["thanks"]]
  }

  /** The answer of rule `k`. */
  function AnswerOf(k: nat): Answer
    requires k < RuleCount
  {
    match k
    case 0 =>
      PackageList(ListingHeader(0), ListingFooter(0))
    case 1 =>
      PackageList(ListingHeader(1), ListingFooter(1))
    case 2 =>
      Fixed("Our packages range " + "from ₱30,000 (Package " + "A) to ₱250,000 (Package " + "J). Most families " + "choose packages in " + "the ₱50,000 to ₱100,000 " + "range. Let me know " + "if you want the price " + "for a specific package.")
    case 3 =>
      PriceOfPackage
    case 4 =>
      Fixed("Our most affordable " + "package is " + "Package A at ₱30,000" + ", which includes all " + "essential funeral " + "services. Would you " + "like to know what's " + "included in this package?")
    case 5 =>
      Fixed("Our premium package " + "is " + "Package J at ₱250,000" + ", which includes our " + "most comprehensive " + "services and premium " + "amenities. Would you " + "like details about " + "this package?")
    case 6 =>
      Fixed("Yes, we offer flexible " + "payment plans and " + "installment options " + "to make our services " + "more accessible. Contact " + "our support team to " + "discuss payment arrangements " + "that work for your " + "family.")
    case 7 =>
      Fixed("Each package includes: " + "casket/urn, embalming, " + "viewing arrangements, " + "transportation, funeral " + "service coordination, " + "and documentation " + "assistance. Higher " + "packages include additional " + "amenities and premium " + "options.")
    case 8 =>
      Fixed("You can choose from " + "4 beautiful themes " + "for any package:\n1. " + "Natural – nature-inspired, " + "with flowers, greenery, " + "and peaceful landscapes.\n2. " + "Classic – timeless " + "style with formal " + "arrangements and neutral " + "palettes.\n3. Modern " + "– minimalist designs " + "using clean lines " + "and soft colors.\n4. " + "Traditional – classic " + "Filipino motifs, candles, " + "and heritage-inspired " + "decor.\nYour chosen " + "theme will be reflected " + "in the decor and generated " + "images.")
    case 9 =>
      Fixed("Yes! All packages " + "can be customized " + "with your preferred " + "theme, additional " + "flowers, music, special " + "arrangements, or personal " + "touches. We'll work " + "with you to honor " + "your loved one's memory.")
    case 10 =>
      Fixed("We provide beautiful " + "floral arrangements " + "matching your chosen " + "theme. You can also " + "request specific flowers, " + "colors, or custom " + "arrangements for an " + "additional fee.")
    case 11 =>
      Fixed("We offer traditional " + "funerals, cremation " + "services, memorials, " + "celebration of life " + "ceremonies, wake services. " + "Each can be paired " + "with any package and " + "theme.")
    case 12 =>
      Fixed("We provide traditional " + "religious funeral " + "services following " + "Catholic, Protestant, " + "and other Christian " + "traditions. This includes " + "wake services, funeral " + "mass coordination, " + "and burial arrangements.")
    case 13 =>
      Fixed("Our celebration of " + "life services focus " + "on honoring your loved " + "one's life and legacy. " + "These can be more " + "personalized and less " + "formal than traditional " + "funerals, featuring " + "photos, videos, and " + "shared memories.")
    case 14 =>
      Fixed("We provide wake services " + "with comfortable viewing " + "areas, seating for " + "family and friends, " + "and all necessary " + "arrangements. Duration " + "can be customized " + "based on your family's " + "needs.")
    case 15 =>
      Fixed("We provide both cremation " + "and burial options. " + "Cremation packages " + "start at ₱40,000, " + "and burial packages " + "start at ₱50,000. " + "Any package can be " + "customized for either " + "option.")
    case 16 =>
      Fixed("Our cremation process " + "is respectful and " + "dignified. We handle " + "all documentation, " + "provide temporary " + "and permanent urns, " + "and can arrange for " + "ash scattering or " + "interment according " + "to your wishes.")
    case 17 =>
      Fixed("We coordinate burial " + "services including " + "casket selection, " + "cemetery arrangements, " + "grave preparation, " + "and graveside services. " + "We work with various " + "cemeteries and can " + "help you choose the " + "right location.")
    case 18 =>
      Fixed("We offer a wide selection " + "of caskets and urns " + "in different materials, " + "styles, and price " + "ranges. From simple " + "wooden caskets to " + "premium metal options, " + "and from basic urns " + "to decorative memorial " + "urns.")
    case 19 =>
      Fixed("We assist with all " + "necessary documentation " + "including death certificates, " + "burial permits, insurance " + "claims, and government " + "requirements. Our " + "team handles the paperwork " + "so you can focus on " + "your family.")
    case 20 =>
      Fixed("We help process insurance " + "claims and government " + "benefits including " + "SSS, GSIS, and other " + "death benefits. Our " + "team will guide you " + "through the application " + "process.")
    case 21 =>
      Fixed("We handle all required " + "permits and government " + "requirements including " + "burial permits, transport " + "permits, and local " + "government documentation. " + "Everything is taken " + "care of for you.")
    case 22 =>
      Fixed("We provide professional " + "transportation services " + "including hearse, " + "family cars, and pickup " + "services. Transportation " + "is included in all " + "packages, with premium " + "vehicles available " + "in higher packages.")
    case 23 =>
      Fixed("Services can be held " + "at our funeral homes, " + "churches, family residences, " + "or other venues of " + "your choice. We have " + "multiple locations " + "and can coordinate " + "services anywhere " + "in Metro Manila.")
    case 24 =>
      Fixed("We provide pickup " + "services from hospitals, " + "homes, or other locations. " + "Our professional staff " + "handles the transfer " + "with dignity and respect, " + "following all health " + "and safety protocols.")
    case 25 =>
      Fixed("Funeral services typically " + "last 3-7 days depending " + "on your preferences. " + "This includes wake/viewing " + "(1-3 days), funeral " + "service (1 day), and " + "burial/cremation. " + "We can adjust the " + "timeline to meet your " + "family's needs.")
    case 26 =>
      Fixed("We're available for " + "funeral arrangements. " + "Most services can " + "be scheduled within " + "24-48 hours. We'll " + "work with your preferred " + "dates and coordinate " + "with churches, cemeteries, " + "and other venues.")
    case 27 =>
      Fixed("We provide emergency " + "services for immediate " + "needs. Call our hotline " + "anytime, and we'll " + "respond quickly to " + "assist with urgent " + "arrangements and provide " + "immediate support.")
    case 28 =>
      Fixed("Yes, we offer pre-planning " + "so you can make arrangements " + "in advance, ensuring " + "your wishes are honored " + "and easing the burden " + "on your family. Pre-planning " + "also locks in today's " + "prices.")
    case 29 =>
      Fixed("Pre-need planning " + "allows you to make " + "all funeral arrangements " + "in advance and pay " + "over time. This ensures " + "your family won't " + "have to make difficult " + "decisions during their " + "time of grief while " + "also providing financial " + "protection.")
    case 30 =>
      Fixed("We offer grief support, " + "including resources " + "and connections to " + "professional counselors " + "or support groups. " + "We understand that " + "healing takes time, " + "and we're here to " + "support you beyond " + "the funeral service.")
    case 31 =>
      Fixed("We can connect you " + "with professional " + "grief counselors and " + "support groups. Many " + "families find comfort " + "in speaking with others " + "who have experienced " + "similar losses.")
    case 32 =>
      Fixed("You can create digital " + "memorials and tributes " + "in the EternalpEASE " + "app, choosing any " + "of our themes for " + "a personalized experience. " + "We also offer online " + "streaming for distant " + "family and friends.")
    case 33 =>
      Fixed("We offer live streaming " + "services so family " + "and friends who cannot " + "attend in person can " + "participate in the " + "service online. This " + "includes setup of " + "cameras, audio, and " + "streaming platforms.")
    case 34 =>
      Fixed("We can create photo " + "slideshows, video " + "tributes, and memory " + "boards celebrating " + "your loved one's life. " + "These can be displayed " + "during the service " + "and shared with family " + "and friends.")
    case 35 =>
      Fixed("We provide military " + "funeral honors for " + "veterans including " + "flag presentation, " + "honor guard, and coordination " + "with military representatives. " + "We ensure your veteran " + "receives the respect " + "they deserve.")
    case 36 =>
      Fixed("We provide compassionate " + "care for infant and " + "child services with " + "special packages designed " + "for families during " + "this difficult time. " + "Our staff is specially " + "trained to provide " + "gentle, sensitive " + "support.")
    case 37 =>
      Fixed("We offer eco-friendly " + "options including " + "biodegradable caskets, " + "natural burial sites, " + "and environmentally " + "conscious practices. " + "These options honor " + "both your loved one " + "and the environment.")
    case 38 =>
      Fixed("You can contact our " + "support team via the " + "app or by emailing " + "support@eternalpease.com.")
    case 39 =>
      Fixed("Si Angel Lauren Sanchez")
    case 40 =>
      Fixed("MAG DROP KA NA")
    case 41 =>
      Fixed("Our emergency hotline " + "is 0917-PEACEY1 (0917-732-2391. " + "We're available for " + "urgent needs and emergency " + "funeral arrangements.")
    case 42 =>
      Fixed("Our funeral homes " + "are open for your " + "convenience. Our administrative " + "offices are open Monday-Saturday " + "8AM-6PM, and our emergency " + "services are available " + "when needed.")
    case 43 =>
      Fixed("To arrange a funeral, " + "simply choose your " + "preferred package " + "and theme in the EternalpEASE " + "app or contact our " + "support team. We'll " + "guide you every step " + "of the way and handle " + "all the details.")
    case 44 =>
      Fixed("Start by contacting " + "us immediately. We'll " + "guide you through: " + "1) Immediate needs " + "(body pickup/transfer), " + "2) Package selection, " + "3) Documentation assistance, " + "4) Service planning, " + "and 5) Final arrangements.")
    case 45 =>
      Fixed("We'll help you gather: " + "valid IDs, medical " + "certificate of death, " + "marriage certificate " + "(if applicable), birth " + "certificate, and any " + "insurance documents. " + "Don't worry - we'll " + "guide you through " + "everything you need.")
    case 46 =>
      Fixed("Our facilities include " + "climate-controlled " + "chapels, comfortable " + "family rooms, parking " + "areas, catering facilities, " + "and audio-visual equipment. " + "Each location is designed " + "to provide comfort " + "during difficult times.")
    case 47 =>
      Fixed("All our locations " + "offer ample parking " + "and are wheelchair " + "accessible. We have " + "ramps, accessible " + "restrooms, and reserved " + "parking for elderly " + "and disabled guests.")
    case 48 =>
      Fixed("We can arrange catering " + "services for family " + "and guests, from simple " + "refreshments to full " + "meals. We work with " + "trusted caterers who " + "understand the needs " + "of funeral gatherings.")
    case 49 =>
      Fixed("We provide Islamic " + "funeral services following " + "Muslim traditions " + "including proper preparation, " + "quick burial arrangements, " + "and coordination with " + "Islamic centers and " + "imams.")
    case 50 =>
      Fixed("We offer Buddhist " + "funeral services with " + "proper ceremonies, " + "incense arrangements, " + "and coordination with " + "Buddhist temples and " + "monks according to " + "Buddhist traditions.")
    case 51 =>
      Fixed("We provide traditional " + "Chinese funeral services " + "including proper arrangements " + "according to Chinese " + "customs, coordination " + "with Taoist or Buddhist " + "elements, and feng " + "shui considerations.")
    case 52 =>
      Fixed("EternalpEASE helps " + "make funeral and memorial " + "arrangements gentle " + "and respectful. Ask " + "about our packages, " + "prices, themes, or " + "any step of the process. " + "I'm here to help with " + "any questions you " + "have.")
    case 53 =>
      Fixed("Hello! 👋 I'm Peacey, " + "your compassionate " + "funeral service assistant. " + "How can I help you " + "today? You can ask " + "me about packages, " + "services, or any funeral-related " + "questions.")
    case 54 =>
      Fixed("I'm here to help! " + "You can ask me about:\n• " + "Funeral packages and " + "pricing\n• Service " + "types and themes\n• " + "Documentation assistance\n• " + "Scheduling and arrangements\n• " + "Grief support resources\n• " + "Any other funeral-related " + "questions")
    case _ =>
      Fixed("You're very welcome. " + "I'm here whenever " + "you need assistance " + "or have questions. " + "Take care, and please " + "don't hesitate to " + "reach out anytime. " + "🙏")
  }

  // One lemma per fixed answer, each about a single row of the table.
  lemma FixedAnswer2()
    ensures AnswerOf(2).Fixed? && FixedText(AnswerOf(2).text)
  {
  }
  lemma FixedAnswer4()
    ensures AnswerOf(4).Fixed? && FixedText(AnswerOf(4).text)
  {
  }
  lemma FixedAnswer5()
    ensures AnswerOf(5).Fixed? && FixedText(AnswerOf(5).text)
  {
  }
  lemma FixedAnswer6()
    ensures AnswerOf(6).Fixed? && FixedText(AnswerOf(6).text)
  {
  }
  lemma FixedAnswer7()
    ensures AnswerOf(7).Fixed? && FixedText(AnswerOf(7).text)
  {
  }
  lemma FixedAnswer8()
    ensures AnswerOf(8).Fixed? && FixedText(AnswerOf(8).text)
  {
  }
  lemma FixedAnswer9()
    ensures AnswerOf(9).Fixed? && FixedText(AnswerOf(9).text)
  {
  }
  lemma FixedAnswer10()
    ensures AnswerOf(10).Fixed? && FixedText(AnswerOf(10).text)
  {
  }
  lemma FixedAnswer11()
    ensures AnswerOf(11).Fixed? && FixedText(AnswerOf(11).text)
  {
  }
  lemma FixedAnswer12()
    ensures AnswerOf(12).Fixed? && FixedText(AnswerOf(12).text)
  {
  }
  lemma FixedAnswer13()
    ensures AnswerOf(13).Fixed? && FixedText(AnswerOf(13).text)
  {
  }
  lemma FixedAnswer14()
    ensures AnswerOf(14).Fixed? && FixedText(AnswerOf(14).text)
  {
  }
  lemma FixedAnswer15()
    ensures AnswerOf(15).Fixed? && FixedText(AnswerOf(15).text)
  {
  }
  lemma FixedAnswer16()
    ensures AnswerOf(16).Fixed? && FixedText(AnswerOf(16).text)
  {
  }
  lemma FixedAnswer17()
    ensures AnswerOf(17).Fixed? && FixedText(AnswerOf(17).text)
  {
  }
  lemma FixedAnswer18()
    ensures AnswerOf(18).Fixed? && FixedText(AnswerOf(18).text)
  {
  }
  lemma FixedAnswer19()
    ensures AnswerOf(19).Fixed? && FixedText(AnswerOf(19).text)
  {
  }
  lemma FixedAnswer20()
    ensures AnswerOf(20).Fixed? && FixedText(AnswerOf(20).text)
  {
  }
  lemma FixedAnswer21()
    ensures AnswerOf(21).Fixed? && FixedText(AnswerOf(21).text)
  {
  }
  lemma FixedAnswer22()
    ensures AnswerOf(22).Fixed? && FixedText(AnswerOf(22).text)
  {
  }
  lemma FixedAnswer23()
    ensures AnswerOf(23).Fixed? && FixedText(AnswerOf(23).text)
  {
  }
  lemma FixedAnswer24()
    ensures AnswerOf(24).Fixed? && FixedText(AnswerOf(24).text)
  {
  }
  lemma FixedAnswer25()
    ensures AnswerOf(25).Fixed? && FixedText(AnswerOf(25).text)
  {
  }
  lemma FixedAnswer26()
    ensures AnswerOf(26).Fixed? && FixedText(AnswerOf(26).text)
  {
  }
  lemma FixedAnswer27()
    ensures AnswerOf(27).Fixed? && FixedText(AnswerOf(27).text)
  {
  }
  lemma FixedAnswer28()
    ensures AnswerOf(28).Fixed? && FixedText(AnswerOf(28).text)
  {
  }
  lemma FixedAnswer29()
    ensures AnswerOf(29).Fixed? && FixedText(AnswerOf(29).text)
  {
  }
  lemma FixedAnswer30()
    ensures AnswerOf(30).Fixed? && FixedText(AnswerOf(30).text)
  {
  }
  lemma FixedAnswer31()
    ensures AnswerOf(31).Fixed? && FixedText(AnswerOf(31).text)
  {
  }
  lemma FixedAnswer32()
    ensures AnswerOf(32).Fixed? && FixedText(AnswerOf(32).text)
  {
  }
  lemma FixedAnswer33()
    ensures AnswerOf(33).Fixed? && FixedText(AnswerOf(33).text)
  {
  }
  lemma FixedAnswer34()
    ensures AnswerOf(34).Fixed? && FixedText(AnswerOf(34).text)
  {
  }
  lemma FixedAnswer35()
    ensures AnswerOf(35).Fixed? && FixedText(AnswerOf(35).text)
  {
  }
  lemma FixedAnswer36()
    ensures AnswerOf(36).Fixed? && FixedText(AnswerOf(36).text)
  {
  }
  lemma FixedAnswer37()
    ensures AnswerOf(37).Fixed? && FixedText(AnswerOf(37).text)
  {
  }
  lemma FixedAnswer38()
    ensures AnswerOf(38).Fixed? && FixedText(AnswerOf(38).text)
  {
  }
  lemma FixedAnswer39()
    ensures AnswerOf(39).Fixed? && FixedText(AnswerOf(39).text)
  {
  }
  lemma FixedAnswer40()
    ensures AnswerOf(40).Fixed? && FixedText(AnswerOf(40).text)
  {
  }
  lemma FixedAnswer41()
    ensures AnswerOf(41).Fixed? && FixedText(AnswerOf(41).text)
  {
  }
  lemma FixedAnswer42()
    ensures AnswerOf(42).Fixed? && FixedText(AnswerOf(42).text)
  {
  }
  lemma FixedAnswer43()
    ensures AnswerOf(43).Fixed? && FixedText(AnswerOf(43).text)
  {
  }
  lemma FixedAnswer44()
    ensures AnswerOf(44).Fixed? && FixedText(AnswerOf(44).text)
  {
  }
  lemma FixedAnswer45()
    ensures AnswerOf(45).Fixed? && FixedText(AnswerOf(45).text)
  {
  }
  lemma FixedAnswer46()
    ensures AnswerOf(46).Fixed? && FixedText(AnswerOf(46).text)
  {
  }
  lemma FixedAnswer47()
    ensures AnswerOf(47).Fixed? && FixedText(AnswerOf(47).text)
  {
  }
  lemma FixedAnswer48()
    ensures AnswerOf(48).Fixed? && FixedText(AnswerOf(48).text)
  {
  }
  lemma FixedAnswer49()
    ensures AnswerOf(49).Fixed? && FixedText(AnswerOf(49).text)
  {
  }
  lemma FixedAnswer50()
    ensures AnswerOf(50).Fixed? && FixedText(AnswerOf(50).text)
  {
  }
  lemma FixedAnswer51()
    ensures AnswerOf(51).Fixed? && FixedText(AnswerOf(51).text)
  {
  }
  lemma FixedAnswer52()
    ensures AnswerOf(52).Fixed? && FixedText(AnswerOf(52).text)
  {
  }
  lemma FixedAnswer53()
    ensures AnswerOf(53).Fixed? && FixedText(AnswerOf(53).text)
  {
  }
  lemma FixedAnswer54()
    ensures AnswerOf(54).Fixed? && FixedText(AnswerOf(54).text)
  {
  }
  lemma FixedAnswer55()
    ensures AnswerOf(55).Fixed? && FixedText(AnswerOf(55).text)
  {
  }

  /** Every fixed answer is a text that is not empty and is neither the
      password hint nor the default reply. */
  lemma FixedAnswers(k: nat)
    requires k < RuleCount && AnswerOf(k).Fixed?
    ensures FixedText(AnswerOf(k).text)
  {
    if k == 2 { FixedAnswer2(); }
    else if k == 4 { FixedAnswer4(); }
    else if k == 5 { FixedAnswer5(); }
    else if k == 6 { FixedAnswer6(); }
    else if k == 7 { FixedAnswer7(); }
    else if k == 8 { FixedAnswer8(); }
    else if k == 9 { FixedAnswer9(); }
    else if k == 10 { FixedAnswer10(); }
    else if k == 11 { FixedAnswer11(); }
    else if k == 12 { FixedAnswer12(); }
    else if k == 13 { FixedAnswer13(); }
    else if k == 14 { FixedAnswer14(); }
    else if k == 15 { FixedAnswer15(); }
    else if k == 16 { FixedAnswer16(); }
    else if k == 17 { FixedAnswer17(); }
    else if k == 18 { FixedAnswer18(); }
    else if k == 19 { FixedAnswer19(); }
    else if k == 20 { FixedAnswer20(); }
    else if k == 21 { FixedAnswer21(); }
    else if k == 22 { FixedAnswer22(); }
    else if k == 23 { FixedAnswer23(); }
    else if k == 24 { FixedAnswer24(); }
    else if k == 25 { FixedAnswer25(); }
    else if k == 26 { FixedAnswer26(); }
    else if k == 27 { FixedAnswer27(); }
    else if k == 28 { FixedAnswer28(); }
    else if k == 29 { FixedAnswer29(); }
    else if k == 30 { FixedAnswer30(); }
    else if k == 31 { FixedAnswer31(); }
    else if k == 32 { FixedAnswer32(); }
    else if k == 33 { FixedAnswer33(); }
    else if k == 34 { FixedAnswer34(); }
    else if k == 35 { FixedAnswer35(); }
    else if k == 36 { FixedAnswer36(); }
    else if k == 37 { FixedAnswer37(); }
    else if k == 38 { FixedAnswer38(); }
    else if k == 39 { FixedAnswer39(); }
    else if k == 40 { FixedAnswer40(); }
    else if k == 41 { FixedAnswer41(); }
    else if k == 42 { FixedAnswer42(); }
    else if k == 43 { FixedAnswer43(); }
    else if k == 44 { FixedAnswer44(); }
    else if k == 45 { FixedAnswer45(); }
    else if k == 46 { FixedAnswer46(); }
    else if k == 47 { FixedAnswer47(); }
    else if k == 48 { FixedAnswer48(); }
    else if k == 49 { FixedAnswer49(); }
    else if k == 50 { FixedAnswer50(); }
    else if k == 51 { FixedAnswer51(); }
    else if k == 52 { FixedAnswer52(); }
    else if k == 53 { FixedAnswer53(); }
    else if k == 54 { FixedAnswer54(); }
    else { FixedAnswer55(); }
  }

  /** Only the two package-count rules and the price rule answer otherwise
      than with a fixed text. */
  lemma OtherAnswers(k: nat)
    requires k < RuleCount && !AnswerOf(k).Fixed?
    ensures k < 2 || k == PriceRule
  {
    if k == 2 { FixedAnswer2(); }
    else if k == 4 { FixedAnswer4(); }
    else if k == 5 { FixedAnswer5(); }
    else if k == 6 { FixedAnswer6(); }
    else if k == 7 { FixedAnswer7(); }
    else if k == 8 { FixedAnswer8(); }
    else if k == 9 { FixedAnswer9(); }
    else if k == 10 { FixedAnswer10(); }
    else if k == 11 { FixedAnswer11(); }
    else if k == 12 { FixedAnswer12(); }
    else if k == 13 { FixedAnswer13(); }
    else if k == 14 { FixedAnswer14(); }
    else if k == 15 { FixedAnswer15(); }
    else if k == 16 { FixedAnswer16(); }
    else if k == 17 { FixedAnswer17(); }
    else if k == 18 { FixedAnswer18(); }
    else if k == 19 { FixedAnswer19(); }
    else if k == 20 { FixedAnswer20(); }
    else if k == 21 { FixedAnswer21(); }
    else if k == 22 { FixedAnswer22(); }
    else if k == 23 { FixedAnswer23(); }
    else if k == 24 { FixedAnswer24(); }
    else if k == 25 { FixedAnswer25(); }
    else if k == 26 { FixedAnswer26(); }
    else if k == 27 { FixedAnswer27(); }
    else if k == 28 { FixedAnswer28(); }
    else if k == 29 { FixedAnswer29(); }
    else if k == 30 { FixedAnswer30(); }
    else if k == 31 { FixedAnswer31(); }
    else if k == 32 { FixedAnswer32(); }
    else if k == 33 { FixedAnswer33(); }
    else if k == 34 { FixedAnswer34(); }
    else if k == 35 { FixedAnswer35(); }
    else if k == 36 { FixedAnswer36(); }
    else if k == 37 { FixedAnswer37(); }
    else if k == 38 { FixedAnswer38(); }
    else if k == 39 { FixedAnswer39(); }
    else if k == 40 { FixedAnswer40(); }
    else if k == 41 { FixedAnswer41(); }
    else if k == 42 { FixedAnswer42(); }
    else if k == 43 { FixedAnswer43(); }
    else if k == 44 { FixedAnswer44(); }
    else if k == 45 { FixedAnswer45(); }
    else if k == 46 { FixedAnswer46(); }
    else if k == 47 { FixedAnswer47(); }
    else if k == 48 { FixedAnswer48(); }
    else if k == 49 { FixedAnswer49(); }
    else if k == 50 { FixedAnswer50(); }
    else if k == 51 { FixedAnswer51(); }
    else if k == 52 { FixedAnswer52(); }
    else if k == 53 { FixedAnswer53(); }
    else if k == 54 { FixedAnswer54(); }
    else if k == 55 { FixedAnswer55(); }
  }

  const ForgotPasswordHint := "If you forgot your password, tap 'Forgot Password?' on the login screen to reset it."
  const DefaultReply := "I'm here to help with any funeral service questions. You can ask me about packages, pricing, services, arrangements, documentation, or anything else related to funeral planning. What would you like to know?"
  /** A text a table rule may answer with: not empty, and neither of the
      two replies that are given when no rule matches. */
  predicate FixedText(t: string) {
    |t| > 0 && t != ForgotPasswordHint && t != DefaultReply
  }

  const PackageNotFound := "Sorry, I couldn't find that package. Please ask about Package A to J."

  // ---------------------------------------------------------------------
  // Answers

  function PackageLine(p: PackagePrice): string {
    "- " + p.name + " (" + p.price + ")"
  }

  function PackageLines(ps: seq<PackagePrice>): (lines: seq<string>)
    ensures |lines| == |ps|
    ensures forall k :: 0 <= k < |ps| ==> lines[k] == PackageLine(ps[k])
  {
    if ps == [] then [] else [PackageLine(ps[0])] + PackageLines(ps[1..])
  }

  function Listing(header: string, footer: string): string {
    Join([header] + PackageLines(Packages()) + [footer], '\n')
  }

  function PriceSentence(p: PackagePrice): string {
    p.name + " costs " + p.price + ". You can customize this with any of our 4 available themes. Would you like to know what's included?"
  }

  /** `find`: the first package whose name equals `name` ignoring case. */
  function FindPackage(ps: seq<PackagePrice>, name: string): (r: Option<nat>)
    ensures r.Some? ==> r.value < |ps| && Lower(ps[r.value].name) == Lower(name)
    ensures r.Some? ==> forall k :: 0 <= k < r.value ==> Lower(ps[k].name) != Lower(name)
    ensures r.None? ==> forall k :: 0 <= k < |ps| ==> Lower(ps[k].name) != Lower(name)
    decreases |ps|, |name|
  {
    if ps == [] then None
    else if Lower(ps[0].name) == Lower(name) then Some(0)
    else match FindPackage(ps[1..], name)
      case None => None
      case Some(k) => Some(k + 1)
  }

  /** The answer of the price rule for the captured package name. */
  function PriceReply(group: string): string {
    match FindPackage(Packages(), group)
    case Some(k) => PriceSentence(Packages()[k])
    case None => PackageNotFound
  }

  lemma PriceQuestionPlain()
    ensures Plain(PriceQuestion())
    ensures forall a :: 0 <= a < |PriceQuestion()| ==> |PriceQuestion()[a][0]| >= GroupLength
  {
  }

  /** The second group of the leftmost match of the price question. */
  function Capture(s: string): (g: Option<string>)
    ensures g.Some? <==> AnyMatches(s, PriceQuestion())
    ensures g.Some? ==> |g.value| == GroupLength
  {
    PriceQuestionPlain();
    match MatchedText(s, PriceQuestion())
    case None => None
    case Some(m) => Some(Suffix(m, GroupLength))
  }

  /** What rule `k` answers to `s`. The price rule is only consulted when
      its question matched, so its capture is then present. */
  function RuleReply(k: nat, s: string): string
    requires k < RuleCount
  {
    match AnswerOf(k)
    case Fixed(text) => text
    case PackageList(header, footer) => Listing(header, footer)
    case PriceOfPackage =>
      match Capture(s)
      case Some(g) => PriceReply(g)
      case None => PackageNotFound
  }

  /** Which rules' questions match `s`, in table order. */
  function Fires(s: string): (m: seq<bool>)
    ensures |m| == RuleCount
    ensures forall j :: 0 <= j < RuleCount ==> m[j] == AnyMatches(s, Question(j))
  {
    seq(RuleCount, j requires 0 <= j < RuleCount => AnyMatches(s, Question(j)))
  }

  /** The first place, from `k` on, holding `true`. */
  function FirstTrue(m: seq<bool>, k: nat): (r: Option<nat>)
    requires k <= |m|
    ensures r.Some? ==> k <= r.value < |m| && m[r.value]
    ensures forall j :: k <= j < (if r.Some? then r.value else |m|) ==> !m[j]
    decreases |m| - k
  {
    if k == |m| then None
    else if m[k] then Some(k)
    else FirstTrue(m, k + 1)
  }

  /** The first rule, from `k` on, whose question matches `s`: the table is
      scanned in order and the scan stops at the first match. */
  function FirstMatch(s: string, k: nat): (r: Option<nat>)
    requires k <= RuleCount
    ensures r.Some? ==> k <= r.value < RuleCount && AnyMatches(s, Question(r.value))
    ensures forall j :: k <= j < (if r.Some? then r.value else RuleCount) ==> !AnyMatches(s, Question(j))
  {
    FirstTrue(Fires(s), k)
  }

  /** `demoAiResponse`: the answer of the first rule whose question matches;
      failing that the password hint for `forgot.*password`, and otherwise
      the default reply. */
  function DemoAiResponse(s: string): string {
    match FirstMatch(s, 0)
    case Some(k) => RuleReply(k, s)
    case None =>
      if AltMatches(s, ["forgot", "password"]) then ForgotPasswordHint else DefaultReply
  }
}
