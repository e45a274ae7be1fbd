/**
 * The chat assistant (components/ai-assistant.tsx): a keyword-rule
 * responder over the lower-cased question, and the chat window's message
 * log, input box and open/expanded flags.  The reply, which the widget
 * posts after a delay, is a separate step here.
 */
module AiAssistant {
  import opened Wrappers
  import opened Text
  import I18n
  import CourseCatalog

  /** Which rule answers a question. */
  datatype Topic = Greeting | CourseInfo | Blockchain | Pricing | Fallback

  predicate AnyOf(s: string, words: seq<string>) {
    exists k :: 0 <= k < |words| && Contains(s, words[k])
  }

  const GreetingWords: seq<string> := ["hello", "hi", "hey"]
  const CourseWords: seq<string> := ["course", "courses"]
  const BlockchainWords: seq<string> := ["blockchain", "web3"]
  const PricingWords: seq<string> := ["price", "cost", "fee"]

  /** The first rule whose keywords occur in the lower-cased question. */
  function TopicOf(question: string): Topic {
    var q := ToLower(question);
    if Contains(q, "hello") || Contains(q, "hi") || Contains(q, "hey") then Greeting
    else if Contains(q, "course") || Contains(q, "courses") then CourseInfo
    else if Contains(q, "blockchain") || Contains(q, "web3") then Blockchain
    else if Contains(q, "price") || Contains(q, "cost") || Contains(q, "fee") then Pricing
    else Fallback
  }

  /** Helper: a two-word keyword list matches when either word occurs. */
  lemma AnyOfTwo(s: string, a: string, b: string)
    ensures AnyOf(s, [a, b]) <==> Contains(s, a) || Contains(s, b)
  {
    if Contains(s, a) {
      assert Contains(s, [a, b][0]);
    } else if Contains(s, b) {
      assert Contains(s, [a, b][1]);
    }
  }

  /** Helper: a three-word keyword list matches when any of its words occurs. */
  lemma AnyOfThree(s: string, a: string, b: string, c: string)
    ensures AnyOf(s, [a, b, c]) <==> Contains(s, a) || Contains(s, b) || Contains(s, c)
  {
    if Contains(s, a) {
      assert Contains(s, [a, b, c][0]);
    } else if Contains(s, b) {
      assert Contains(s, [a, b, c][1]);
    } else if Contains(s, c) {
      assert Contains(s, [a, b, c][2]);
    }
  }

  /**
   * The rules are tried in order, greeting, course, blockchain, pricing, and
   * the first whose keyword list has a word in the lower-cased question answers.
   */
  lemma TopicFirstMatch(question: string)
    ensures var q := ToLower(question);
      && (TopicOf(question) == Greeting <==> AnyOf(q, GreetingWords))
      && (TopicOf(question) == CourseInfo <==> !AnyOf(q, GreetingWords) && AnyOf(q, CourseWords))
      && (TopicOf(question) == Blockchain <==> !AnyOf(q, GreetingWords) && !AnyOf(q, CourseWords) && AnyOf(q, BlockchainWords))
      && (TopicOf(question) == Pricing <==> !AnyOf(q, GreetingWords) && !AnyOf(q, CourseWords)
                                            && !AnyOf(q, BlockchainWords) && AnyOf(q, PricingWords))
      && (TopicOf(question) == Fallback <==> !AnyOf(q, GreetingWords) && !AnyOf(q, CourseWords)
                                             && !AnyOf(q, BlockchainWords) && !AnyOf(q, PricingWords))
  {
    var q := ToLower(question);
    AnyOfThree(q, "hello", "hi", "hey");
    AnyOfTwo(q, "course", "courses");
    AnyOfTwo(q, "blockchain", "web3");
    AnyOfThree(q, "price", "cost", "fee");
  }

  /** The English pricing reply, around the two prices it quotes. */
  const PricingIntro := "Our course prices range from "
  const PricingMiddle := " for beginner courses to "
  const PricingOutro := " for advanced specialized courses. We also offer bundle discounts if you purchase multiple courses."

  /** The English replies. */
  function English(t: Topic): string {
    match t
    case Greeting => "Hello! How can I assist you with Web3 courses today?"
    case CourseInfo => "We offer various Web3 courses ranging from blockchain fundamentals to advanced DApp development. You can browse all courses in our course catalog."
    case Blockchain => "Blockchain is a distributed ledger technology that enables secure, transparent, and decentralized record-keeping. Web3 refers to the next generation of the internet built on blockchain technology."
    case Pricing => PricingIntro + "$199" + PricingMiddle + "$449" + PricingOutro
    case Fallback => "I'm sorry, I don't have specific information about that. Can you please ask something related to our Web3 courses or blockchain technology?"
  }

  /** The Chinese replies. */
  function Chinese(t: Topic): string {
    match t
    case Greeting => "你好！今天我能如何帮助你了解 Web3 课程？"
    case CourseInfo => "我们提供各种 Web3 课程，从区块链基础到高级 DApp 开发。您可以在我们的课程目录中浏览所有课程。"
    case Blockchain => "区块链是一种分布式账本技术，可实现安全、透明和去中心化的记录保存。Web3 指的是基于区块链技术构建的下一代互联网。"
    case Pricing => "我们的课程价格从初级课程的 $199 到高级专业课程的 $449 不等。如果您购买多门课程，我们还提供捆绑折扣。"
    case Fallback => "抱歉，我没有关于这方面的具体信息。您能否询问与我们的 Web3 课程或区块链技术相关的问题？"
  }

  /** The Korean replies. */
  function Korean(t: Topic): string {
    match t
    case Greeting => "안녕하세요! 오늘 Web3 코스에 대해 어떻게 도와드릴까요?"
    case CourseInfo => "우리는 블록체인 기초부터 고급 DApp 개발까지 다양한 Web3 코스를 제공합니다. 코스 카탈로그에서 모든 코스를 찾아볼 수 있습니다."
    case Blockchain => "블록체인은 안전하고 투명하며 분산된 기록 보관을 가능하게 하는 분산 원장 기술입니다. Web3는 블록체인 기술을 기반으로 구축된 차세대 인터넷을 의미합니다."
    case Pricing => "우리 코스 가격은 초급 코스의 경우 $199부터 고급 전문 코스의 경우 $449까지 다양합니다. 여러 코스를 구매하시면 번들 할인도 제공합니다."
    case Fallback => "죄송합니다. 그에 대한 구체적인 정보가 없습니다. Web3 코스나 블록체인 기술과 관련된 질문을 해주시겠어요?"
  }

  /** The reply text: English for "en", Chinese for "zh", Korean for any other code. */
  function Reply(t: Topic, lang: string): string {
    if lang == "en" then English(t) else if lang == "zh" then Chinese(t) else Korean(t)
  }

  /** `getAIResponse(question)`. */
  function Respond(question: string, lang: string): string {
    Reply(TopicOf(question), lang)
  }

  /** Codes other than "en" and "zh" get the Korean replies. */
  lemma OtherLanguagesKorean(t: Topic, lang: string)
    requires lang != "en" && lang != "zh"
    ensures Reply(t, lang) == Reply(t, "ko") == Korean(t)
  {
  }

  /** Matching ignores case: a question and its lower-cased form get the same rule, hence the same answer. */
  lemma CaseInsensitive(question: string)
    ensures TopicOf(ToLower(question)) == TopicOf(question)
  {
    ToLowerIdempotent(question);
  }

  /** "courses" contains "course", so the second keyword of that rule never decides anything. */
  lemma CoursesKeywordRedundant(s: string)
    ensures Contains(s, "courses") ==> Contains(s, "course")
  {
    if Contains(s, "courses") {
      var i := ContainsWitness(s, "courses");
      assert s[i..i + 6] == "course" by {
        assert s[i..i + 6] == s[i..i + 7][..6];
      }
      ContainsAt(s, "course", i);
    }
  }

  /** Any question with "hi" inside a word, as in "this", gets the greeting, whatever else it asks. */
  lemma HiInsideWordGreets(before: string, after: string)
    ensures TopicOf(before + "hi" + after) == Greeting
  {
    var question := before + "hi" + after;
    var q := ToLower(question);
    assert q[|before|..|before| + 2] == "hi";
    ContainsAt(q, "hi", |before|);
  }

  /** So "tell me about this course" gets the greeting, not the course reply. */
  lemma ThisIsAGreeting()
    ensures TopicOf("tell me about this course") == Greeting
  {
    HiInsideWordGreets("tell me about t", "s course");
    assert "tell me about t" + "hi" + "s course" == "tell me about this course";
  }

  /** The English price reply quotes "$199" and "$449". */
  lemma PriceReplyQuotes()
    ensures Contains(English(Pricing), "$199") && Contains(English(Pricing), "$449")
  {
    var reply := English(Pricing);
    var i, j := |PricingIntro|, |PricingIntro| + 4 + |PricingMiddle|;
    assert reply[i..i + 4] == "$199";
    ContainsAt(reply, "$199", i);
    assert reply[j..j + 4] == "$449";
    ContainsAt(reply, "$449", j);
  }

  /**
   * The price reply quotes "$199" and "$449", and these are the catalog's
   * cheapest and dearest course prices.
   */
  lemma PriceReplyMatchesCatalog()
    ensures Contains(English(Pricing), "$199") && Contains(English(Pricing), "$449")
    ensures forall c :: c in CourseCatalog.AllCourses ==> 199 <= c.price <= 449
    ensures exists c :: c in CourseCatalog.AllCourses && c.price == 199
    ensures exists c :: c in CourseCatalog.AllCourses && c.price == 449
  {
    PriceReplyQuotes();
    assert CourseCatalog.AllCourses[0].price == 199;
    assert CourseCatalog.AllCourses[4].price == 449;
  }

  /** The widget's own text table. */
  const Texts: I18n.Texts := map[
    "aiAssistant" := map["en" := "AI Assistant", "zh" := "AI 助手", "ko" := "AI 어시스턴트"],
    "builtBy" := map["en" := "Built by Web3 Course Team", "zh" := "由 Web3 课程团队构建", "ko" := "Web3 코스 팀이 제작"],
    "askMeAnything" := map["en" := "Ask me anything...", "zh" := "问我任何问题...", "ko" := "무엇이든 물어보세요..."],
    "welcomeMessage" := map[
      "en" := "Hello! I'm your Web3 course assistant. How can I help you today?",
      "zh" := "你好！我是你的 Web3 课程助手。今天我能帮你什么？",
      "ko" := "안녕하세요! 저는 Web3 코스 어시스턴트입니다. 오늘 어떻게 도와드릴까요?"],
    "suggestedFollowUp" := map["en" := "Suggested follow-up questions:", "zh" := "建议的后续问题：", "ko" := "추천 후속 질문:"]
  ]

  /** The welcome text in `lang`; other codes than en, zh and ko read the English one. */
  function Welcome(lang: string): (r: string)
    ensures r != ""
    ensures lang != "zh" && lang != "ko" ==> r == "Hello! I'm your Web3 course assistant. How can I help you today?"
  {
    I18n.GetText(Texts, "welcomeMessage", lang)
  }

  /** A line of the chat; the widget's time-based ids are not modelled. */
  datatype Message = Message(text: string, isUser: bool)

  class ChatWidget {
    var isOpen: bool
    var isExpanded: bool
    var messages: seq<Message>
    var input: string
    var lang: string

    constructor ()
      ensures !isOpen && !isExpanded && messages == [] && input == "" && lang == "en"
    {
      isOpen, isExpanded, messages, input, lang := false, false, [], "", "en";
    }

    /** A stored language preference, when present and non-empty, becomes the current one. */
    method LanguageChanged(stored: string)
      modifies this`lang
      ensures lang == if stored != "" then stored else old(lang)
    {
      if stored != "" {
        lang := stored;
      }
    }

    /** Opens or closes the window; opening an empty chat posts the welcome. */
    method ToggleChat()
      modifies this`isOpen, this`messages
      ensures isOpen == !old(isOpen)
      ensures messages == if !old(isOpen) && old(messages) == [] then [Message(Welcome(lang), false)] else old(messages)
    {
      var wasOpen := isOpen;
      isOpen := !isOpen;
      if !wasOpen && |messages| == 0 {
        messages := [Message(Welcome(lang), false)];
      }
    }

    method ToggleExpand()
      modifies this`isExpanded
      ensures isExpanded == !old(isExpanded)
    {
      isExpanded := !isExpanded;
    }

    /** Replaces the whole log with the welcome. */
    method ResetChat()
      modifies this`messages
      ensures messages == [Message(Welcome(lang), false)]
    {
      messages := [Message(Welcome(lang), false)];
    }

    /**
     * Sends the typed question: a blank input changes nothing; otherwise the
     * raw input is logged as the user's, the box is cleared, and the reply
     * to be posted later is returned.
     */
    method HandleSendMessage() returns (reply: Option<string>)
      modifies this`messages, this`input
      ensures IsBlank(old(input)) ==> reply.None? && messages == old(messages) && input == old(input)
      ensures !IsBlank(old(input)) ==>
        && messages == old(messages) + [Message(old(input), true)]
        && input == ""
        && reply == Some(Respond(old(input), lang))
    {
      if IsBlank(input) {
        return None;
      }
      var question := input;
      messages := messages + [Message(question, true)];
      input := "";
      reply := Some(Respond(question, lang));
    }

    /** A suggested question is put in the box and sent; its reply comes later. */
    method HandleSuggestedQuestion(question: string) returns (reply: string)
      modifies this`messages, this`input
      ensures input == question
      ensures messages == old(messages) + [Message(question, true)]
      ensures reply == Respond(question, lang)
    {
      input := question;
      messages := messages + [Message(question, true)];
      reply := Respond(question, lang);
    }

    /** The delayed reply arrives as one assistant line. */
    method DeliverReply(reply: string)
      modifies this`messages
      ensures messages == old(messages) + [Message(reply, false)]
    {
      messages := messages + [Message(reply, false)];
    }
  }

}
