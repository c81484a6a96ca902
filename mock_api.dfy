/**
 * The canned reply matcher of `src/lib/mockApi.ts`: a first-match-wins
 * classifier over fixed tables. The reply texts and code examples are the
 * source's literals, kept exactly as written (including their mis-encoded
 * characters); the tables refer to them by name (`Text`) and `Literal` spells
 * them out. The simulated network delay, the generated ids and the timestamps
 * are not part of the matcher: ids and clock readings are parameters.
 */
module MockApi {
  import opened Wrappers
  import opened Strings

  datatype Role = User | Assistant

  /** `new Date()` at a given clock reading, or `new Date(text)` for a text
      the model does not parse. */
  datatype Timestamp = Clock(ms: int) | Parsed(raw: string)

  /** One turn of the conversation; `code` and `language` may be absent. */
  datatype Message = Message(
    id: string,
    role: Role,
    content: string,
    code: Option<string>,
    language: Option<string>,
    timestamp: Timestamp)

  /** A message the assistant sends: role `assistant`, and whenever it
      carries code it also names the code's language. */
  predicate WellFormedReply(m: Message) {
    m.role == Assistant && (m.code.Some? ==> m.language.Some?)
  }

  /** The fixed texts of the matcher: eight conversational replies, four topic
      replies, the keyword reply, the fallback and the four code examples. */
  datatype Text =
    | HeyThere | Awesome | NoWorries | YoureWelcome | SeeYouLater
    | DoingGreat | IAmHexa | ICanHelp
    | ReverseIntro | FibonacciIntro | BinarySearchIntro | HelloIntro
    | PythonExampleIntro | HereToHelp
    | ReverseLinkedListCode | FibonacciCode | BinarySearchCode | HelloCode

  function Literal(t: Text): string {
    match t
    case HeyThere => "Hey there! ‚ü° Ready to write some code?"
    case Awesome => "Awesome! ‚ü° What would you like me to help you build today?"
    case NoWorries => "No worries! Let me know when you're ready ‚ü°"
    case YoureWelcome => "You're welcome! ‚ü° Happy to help anytime!"
    case SeeYouLater => "See you later! ‚ü° Happy coding!"
    case DoingGreat => "I'm doing great! ‚ü° Ready to help you write some amazing code. What can I build for you?"
    case IAmHexa => "I'm Hexa ‚ü° ‚Äî your AI coding companion. I can help you write functions, debug code, and build algorithms in Python, JavaScript, TypeScript, Rust, and more!"
    case ICanHelp => "I can help you write code! ‚ü° Try asking me to:\n‚Ä¢ Write a Python function to reverse a linked list\n‚Ä¢ Implement fibonacci in TypeScript\n‚Ä¢ Create a binary search in Rust\n\nOr ask me to build anything else!"
    case ReverseIntro => "Of course ‚ü° Here's a clean, iterative solution for reversing a linked list:"
    case FibonacciIntro => "Great choice ‚ü° Here's an efficient O(n) implementation using dynamic programming:"
    case BinarySearchIntro => "Perfect ‚ü° Here's a robust binary search implementation in Rust:"
    case HelloIntro => "Hello! I'm Hexa ‚ü° ‚Äî your AI coding companion. Ready to debug reality?"
    case PythonExampleIntro => "I'd love to help you with that! ‚ü° Here's a Python example to get you started:"
    case HereToHelp => "I'm here to help you write code! ‚ü° Try asking me to write a function or implement an algorithm, and I'll generate the code for you."
    case ReverseLinkedListCode => @"class ListNode:
    def __init__(self, val=0, next=None):
        self.val = val
        self.next = next

def reverse_linked_list(head: ListNode) -> ListNode:
    """"""
    Reverse a singly linked list iteratively.
    Time: O(n), Space: O(1)
    """"""
    prev = None
    current = head

    while current:
        next_node = current.next
        current.next = prev
        prev = current
        current = next_node

    return prev"
    case FibonacciCode => @"function fibonacci(n: number): number {
  /**
   * Calculate fibonacci number using dynamic programming
   * Time: O(n), Space: O(1)
   */
  if (n <= 1) return n;

  let prev = 0, curr = 1;

  for (let i = 2; i <= n; i++) {
    const next = prev + curr;
    prev = curr;
    curr = next;
  }

  return curr;
}"
    case BinarySearchCode => @"fn binary_search<T: Ord>(arr: &[T], target: &T) -> Option<usize> {
    /**
     * Perform binary search on a sorted array
     * Time: O(log n), Space: O(1)
     */
    let mut left = 0;
    let mut right = arr.len();

    while left < right {
        let mid = left + (right - left) / 2;

        match arr[mid].cmp(target) {
            std::cmp::Ordering::Equal => return Some(mid),
            std::cmp::Ordering::Less => left = mid + 1,
            std::cmp::Ordering::Greater => right = mid,
        }
    }

    None
}"
    case HelloCode => @"# Welcome to Hexa ‚ü°
# Your AI coding companion

print('Hello, World! üí†')

# Try asking me to:
# - Write a Python function to reverse a linked list
# - Implement fibonacci in TypeScript
# - Create a binary search in Rust"
  }

  /** An entry of `codeExamples`. */
  datatype CodeExample = CodeExample(code: Text, language: string)

  const CodeExamples: map<string, CodeExample> := map[
    "reverse linked list" := CodeExample(ReverseLinkedListCode, "python"),
    "fibonacci" := CodeExample(FibonacciCode, "typescript"),
    "binary search" := CodeExample(BinarySearchCode, "rust"),
    "hello" := CodeExample(HelloCode, "python")]

  /** A regular expression with the `i` flag, written as its alternatives in
      lower case (an optional apostrophe `'?` becomes two alternatives):
      `Whole` is anchored with `^(...)$`, `Anywhere` is unanchored. */
  datatype Pattern = Whole(alternatives: seq<string>) | Anywhere(alternatives: seq<string>)

  datatype Conversational = Conversational(pattern: Pattern, response: Text)

  const ConversationalPatterns: seq<Conversational> := [
    Conversational(Whole(["hi", "hey", "hello", "yo", "sup"]), HeyThere),
    Conversational(Whole(["yes", "yeah", "yep", "sure", "ok", "okay", "let's go", "lets go", "ready"]), Awesome),
    Conversational(Whole(["no", "nope", "nah", "not really"]), NoWorries),
    Conversational(Whole(["thanks", "thank you", "thx"]), YoureWelcome),
    Conversational(Whole(["bye", "goodbye", "see you", "later"]), SeeYouLater),
    Conversational(Anywhere(["how are you", "what's up", "whats up", "how's it going", "hows it going"]), DoingGreat),
    Conversational(Anywhere(["who are you", "what are you"]), IAmHexa),
    Conversational(Anywhere(["what can you do", "help me"]), ICanHelp)]

  /** `pattern.test(input)`: the input is tested as it is, not trimmed. With
      the `i` flag an ASCII letter matches either case, so testing the raw
      input is testing its fold against the lower-case alternatives. */
  predicate Matches(p: Pattern, input: string)
    ensures p.Whole? ==> (Matches(p, input) <==> exists k :: 0 <= k < |p.alternatives| && Fold(input) == p.alternatives[k])
    ensures p.Anywhere? ==> (Matches(p, input) <==> exists k :: 0 <= k < |p.alternatives| && Contains(Fold(input), p.alternatives[k]))
  {
    match p
    case Whole(alternatives) => Fold(input) in alternatives
    case Anywhere(alternatives) => ContainsAny(Fold(input), alternatives)
  }

  /** An entry of `codePatterns`: the key looked for, the reply, and the key
      of the code example it shows. */
  datatype Topic = Topic(key: string, response: Text, example: string)

  const CodePatterns: seq<Topic> := [
    Topic("reverse linked list", ReverseIntro, "reverse linked list"),
    Topic("fibonacci", FibonacciIntro, "fibonacci"),
    Topic("binary search", BinarySearchIntro, "binary search"),
    Topic("hello", HelloIntro, "hello")]

  const CodeKeywords: seq<string> :=
    ["write", "create", "implement", "build", "function", "class", "code", "algorithm", "sort", "search"]

  /** The part of a reply the tables decide. */
  datatype Reply = Reply(content: Text, code: Option<Text>, language: Option<string>)

  /** Pattern `i` is the first conversational pattern that matches. */
  predicate FirstConversational(i: nat, input: string)
    requires i < |ConversationalPatterns|
  {
    Matches(ConversationalPatterns[i].pattern, input) &&
    forall j :: 0 <= j < i ==> !Matches(ConversationalPatterns[j].pattern, input)
  }

  predicate NoConversational(input: string) {
    forall j :: 0 <= j < |ConversationalPatterns| ==> !Matches(ConversationalPatterns[j].pattern, input)
  }

  /** Topic `k` is the first whose key the lower-cased input contains. */
  predicate FirstTopic(k: nat, lower: string)
    requires k < |CodePatterns|
  {
    Contains(lower, CodePatterns[k].key) &&
    forall j :: 0 <= j < k ==> !Contains(lower, CodePatterns[j].key)
  }

  predicate NoTopic(lower: string) {
    forall j :: 0 <= j < |CodePatterns| ==> !Contains(lower, CodePatterns[j].key)
  }

  function TopicReply(k: nat): Reply
    requires k < |CodePatterns|
  {
    var example := CodeExamples[CodePatterns[k].example];
    Reply(CodePatterns[k].response, Some(example.code), Some(example.language))
  }

  /** The index of the conversational pattern the first loop of
      `generateAIResponse` returns from, if any. */
  function ConversationIndex(input: string): (r: Option<nat>)
    ensures r.Some? ==> r.value < |ConversationalPatterns| && FirstConversational(r.value, input)
    ensures r.None? <==> NoConversational(input)
  {
    FirstWhere(ConversationalPatterns, (c: Conversational) => Matches(c.pattern, input))
  }

  /** The index of the topic the second loop returns from, if any. */
  function TopicIndex(lower: string): (r: Option<nat>)
    ensures r.Some? ==> r.value < |CodePatterns| && FirstTopic(r.value, lower)
    ensures r.None? <==> NoTopic(lower)
  {
    FirstWhere(CodePatterns, (t: Topic) => Contains(lower, t.key))
  }

  /** The reply `generateAIResponse` chooses for an input. */
  function CannedReply(input: string): (r: Reply)
    ensures r.code.Some? ==> r.language.Some?
    // 1. conversational patterns, on the raw input, first match wins
    ensures forall i :: 0 <= i < |ConversationalPatterns| && FirstConversational(i, input) ==>
              r == Reply(ConversationalPatterns[i].response, None, None)
    // 2. topic keys, by substring of the lower-cased input, in table order
    ensures forall k :: 0 <= k < |CodePatterns| && NoConversational(input) && FirstTopic(k, ToLower(input)) ==>
              r == TopicReply(k)
    // 3. any of the keywords asks for code: the `hello` example, tagged python
    ensures NoConversational(input) && NoTopic(ToLower(input)) && ContainsAny(ToLower(input), CodeKeywords) ==>
              r == Reply(PythonExampleIntro, Some(HelloCode), Some("python"))
    // 4. otherwise plain text
    ensures NoConversational(input) && NoTopic(ToLower(input)) && !ContainsAny(ToLower(input), CodeKeywords) ==>
              r == Reply(HereToHelp, None, None)
  {
    match ConversationIndex(input)
    case Some(i) => Reply(ConversationalPatterns[i].response, None, None)
    case None =>
      var lower := ToLower(input);
      match TopicIndex(lower)
      case Some(k) => TopicReply(k)
      case None =>
        if ContainsAny(lower, CodeKeywords) then
          Reply(PythonExampleIntro, Some(CodeExamples["hello"].code), Some("python"))
        else
          Reply(HereToHelp, None, None)
  }

  /** The message literal a reply is returned as. */
  function ToMessage(r: Reply, id: string, now: int): (m: Message)
    ensures (r.code.Some? ==> r.language.Some?) ==> WellFormedReply(m)
    ensures m.role == Assistant && m.id == id && m.timestamp == Clock(now)
    ensures m.content == Literal(r.content) && m.language == r.language
    ensures m.code == (if r.code.Some? then Some(Literal(r.code.value)) else None)
  {
    Message(id, Assistant, Literal(r.content),
      match r.code case Some(c) => Some(Literal(c)) case None => None,
      r.language, Clock(now))
  }

  /** `generateAIResponse(userMessage)`, without its delay; `id` and `now`
      stand for the id and the time it makes from the clock and `Math.random`. */
  function GenerateAIResponse(userMessage: string, id: string, now: int): (m: Message)
    ensures WellFormedReply(m) && m.id == id && m.timestamp == Clock(now)
    ensures m.content == Literal(CannedReply(userMessage).content)
    ensures m.code == (if CannedReply(userMessage).code.Some? then Some(Literal(CannedReply(userMessage).code.value)) else None)
    ensures m.language == CannedReply(userMessage).language
  {
    ToMessage(CannedReply(userMessage), id, now)
  }

  /** `getWelcomeMessage()`. */
  function WelcomeMessage(now: int): (m: Message)
    ensures WellFormedReply(m) && m.id == "welcome-msg"
    ensures m.code == Some(Literal(HelloCode)) && m.language == Some("python")
  {
    Message("welcome-msg", Assistant, Literal(HelloIntro),
      Some(Literal(CodeExamples["hello"].code)), Some(CodeExamples["hello"].language), Clock(now))
  }

  /** The anchored patterns share no alternative. */
  lemma WholeAlternativesDisjoint(a: string, i: nat, j: nat)
    requires i < 5 && j < 5 && i != j
    requires a in ConversationalPatterns[i].pattern.alternatives
    ensures a !in ConversationalPatterns[j].pattern.alternatives
  {
    WholeShapeOwner(a, i);
    if a in ConversationalPatterns[j].pattern.alternatives {
      WholeShapeOwner(a, j);
      assert false;
    }
  }

  /** The anchored pattern an alternative belongs to, told by its first
      letter and its length alone. */
  function ShapeOwner(first: char, length: int): int {
    match (first, length)
    case ('h', _) => 0
    case ('y', 2) => 0
    case ('s', 3) => 0
    case ('t', _) => 3
    case ('n', _) => 2
    case ('b', _) => 4
    case ('g', _) => 4
    case ('s', 7) => 4
    case ('l', 5) => 4
    case _ => 1
  }

  lemma WholeShapeOwner(a: string, i: nat)
    requires i < 5 && a in ConversationalPatterns[i].pattern.alternatives
    ensures a != [] && ShapeOwner(a[0], |a|) == i
  {
    if i == 0 {
      assert a in ["hi", "hey", "hello", "yo", "sup"];
    } else if i == 1 {
      assert a in ["yes", "yeah", "yep", "sure", "ok", "okay", "let's go", "lets go", "ready"];
    } else if i == 2 {
      assert a in ["no", "nope", "nah", "not really"];
    } else if i == 3 {
      assert a in ["thanks", "thank you", "thx"];
    } else {
      assert a in ["bye", "goodbye", "see you", "later"];
    }
  }

  /** A matching anchored pattern decides the reply, without code: no
      earlier pattern can match, since anchored alternatives never overlap. */
  lemma WholeMatchReply(input: string, i: nat)
    requires i < |ConversationalPatterns| && ConversationalPatterns[i].pattern.Whole?
    requires Fold(input) in ConversationalPatterns[i].pattern.alternatives
    ensures CannedReply(input) == Reply(ConversationalPatterns[i].response, None, None)
  {
    assert i < 5;
    forall j | 0 <= j < i
      ensures !Matches(ConversationalPatterns[j].pattern, input)
    {
      WholeAlternativesDisjoint(Fold(input), i, j);
    }
    assert FirstConversational(i, input);
  }

  /** Exactly "hello" is caught by the greeting pattern before the `hello`
      topic is looked at: a short reply without code. */
  lemma HelloIsAGreeting()
    ensures CannedReply("hello") == Reply(HeyThere, None, None)
    ensures Literal(CannedReply("hello").content) == "Hey there! ‚ü° Ready to write some code?"
  {
    assert Fold("hello") == "hello";
    WholeMatchReply("hello", 0);
  }

  /** The anchored patterns ignore ASCII case ... */
  lemma UpperCaseGreeting()
    ensures CannedReply("HI") == Reply(HeyThere, None, None)
  {
    assert Fold("HI") == "hi";
    WholeMatchReply("HI", 0);
  }

  /** ... and accept `let's go` with or without the apostrophe. */
  lemma LetsGoWithApostrophe()
    ensures CannedReply("let's go") == Reply(Awesome, None, None)
  {
    FoldIdentity("let's go");
    WholeMatchReply("let's go", 1);
  }

  lemma LetsGoWithoutApostrophe()
    ensures CannedReply("Lets Go") == Reply(Awesome, None, None)
  {
    assert Fold("Lets Go") == "lets go";
    WholeMatchReply("Lets Go", 1);
  }

  lemma ThxIsThanks()
    ensures CannedReply("thx") == Reply(YoureWelcome, None, None)
  {
    assert Fold("thx") == "thx";
    WholeMatchReply("thx", 3);
  }

  /** Nothing is trimmed: " hi", in any case, matches no anchored pattern, and, naming no
      topic and no keyword, gets the plain fallback. */
  lemma SurroundingSpaceDefeatsAnchors(input: string)
    requires Fold(input) == " hi"
    ensures CannedReply(input) == Reply(HereToHelp, None, None)
  {
    SpaceHiNoConversation();
    SpaceHiNoTopic();
    SpaceHiNoKeyword();
    LowerIdentity(" hi");
    FoldIdentity(" hi");
    FoldedLike(input, " hi");
  }

  lemma SpaceHiNoConversation()
    ensures NoConversational(" hi")
  {
    NoConversationIn(" hi");
  }

  /** Every topic key and every keyword is longer than " hi". */
  lemma SpaceHiNoTopic()
    ensures NoTopic(" hi")
  {
  }

  lemma SpaceHiNoKeyword()
    ensures !ContainsAny(" hi", CodeKeywords)
  {
  }

  /** Whenever any conversational pattern matches, the reply is the text of a
      conversational pattern (the same one or an earlier one) and carries no
      code, whatever topic the input also names. */
  lemma ConversationBeforeTopics(input: string, i: nat)
    requires i < |ConversationalPatterns| && Matches(ConversationalPatterns[i].pattern, input)
    ensures CannedReply(input).code.None? && CannedReply(input).language.None?
    ensures exists j :: 0 <= j <= i && CannedReply(input).content == ConversationalPatterns[j].response
  {
    var j := ConversationIndex(input).value;
    assert FirstConversational(j, input);
  }

  lemma HelpMeFold()
    ensures Fold("Help me with fibonacci") == "help me with fibonacci"
  {
  }

  lemma HelpMeMatches()
    ensures Matches(ConversationalPatterns[7].pattern, "Help me with fibonacci")
  {
    HelpMeFold();
    assert OccursAt("help me with fibonacci", "help me", 0);
    assert Contains("help me with fibonacci", ConversationalPatterns[7].pattern.alternatives[1]);
  }

  /** "help me" anywhere in the input wins over a topic named next to it. */
  lemma HelpMeBeatsFibonacci()
    ensures CannedReply("Help me with fibonacci").code.None?
  {
    HelpMeMatches();
    ConversationBeforeTopics("Help me with fibonacci", 7);
  }

  /** An input in which no conversational pattern can match: it is none of
      the anchored alternatives, and every unanchored alternative holds a
      character it lacks (each of them has an `h`, and a `w` or a `p`). */
  lemma NoConversationIn(input: string)
    requires forall i :: 0 <= i < |input| ==> !IsUpper(input[i])
    requires input !in ConversationalPatterns[0].pattern.alternatives + ConversationalPatterns[1].pattern.alternatives
                       + ConversationalPatterns[2].pattern.alternatives + ConversationalPatterns[3].pattern.alternatives
                       + ConversationalPatterns[4].pattern.alternatives
    requires 'h' !in input || ('w' !in input && 'p' !in input)
    ensures NoConversational(input)
  {
    FoldIdentity(input);
    forall j, a | 5 <= j < |ConversationalPatterns| && a in ConversationalPatterns[j].pattern.alternatives
      ensures !Contains(input, a)
    {
      if 'h' !in input {
        AbsentCharOf(input, a, 'h');
      } else if 'w' in a {
        AbsentCharOf(input, a, 'w');
      } else {
        AbsentCharOf(input, a, 'p');
      }
    }
  }

  /** An input lacking a `v`, an `f`, a `y` and an `h` names no topic: each
      key holds one of them. */
  lemma NoTopicIn(input: string)
    requires 'v' !in input && 'f' !in input && 'y' !in input && 'h' !in input
    ensures NoTopic(input)
  {
    AbsentCharOf(input, CodePatterns[0].key, 'v');
    AbsentCharOf(input, CodePatterns[1].key, 'f');
    AbsentCharOf(input, CodePatterns[2].key, 'y');
    AbsentCharOf(input, CodePatterns[3].key, 'h');
  }

  /** With no conversational match, the first topic key decides. */
  lemma TopicDecides(input: string, k: nat)
    requires k < |CodePatterns| && NoConversational(input) && FirstTopic(k, ToLower(input))
    ensures CannedReply(input) == TopicReply(k)
  {
  }

  /** "fibonacci" matches no conversational pattern, and `fibonacci` is the
      first topic key it contains. */
  lemma FibonacciNoConversation()
    ensures NoConversational("fibonacci")
  {
    NoConversationIn("fibonacci");
  }

  lemma FibonacciFirstTopic()
    ensures FirstTopic(1, "fibonacci")
  {
    assert OccursAt("fibonacci", "fibonacci", 0);
    AbsentChar("fibonacci", "reverse linked list", 0);
  }

  /** Each topic key, alone and in any ASCII case, brings its own example
      and language. */
  lemma FibonacciIsTypeScript(input: string)
    requires Fold(input) == "fibonacci"
    ensures CannedReply(input) == Reply(FibonacciIntro, Some(FibonacciCode), Some("typescript"))
  {
    FibonacciNoConversation();
    FibonacciFirstTopic();
    FibonacciLower();
    FibonacciExample();
    TopicByFold(input, 1);
  }

  lemma FibonacciExample()
    ensures TopicReply(1) == Reply(FibonacciIntro, Some(FibonacciCode), Some("typescript"))
  {
    assert CodePatterns[1].example == "fibonacci";
  }

  lemma FibonacciLower()
    ensures ToLower("fibonacci") == "fibonacci"
  {
    LowerIdentity("fibonacci");
  }

  lemma BinarySearchNoConversation()
    ensures NoConversational("binary search")
  {
    NoConversationIn("binary search");
  }

  lemma BinarySearchFirstTopic()
    ensures FirstTopic(2, "binary search")
  {
    BinarySearchHasKey();
    BinarySearchLacksFibonacci();
  }

  lemma BinarySearchHasKey()
    ensures Contains("binary search", "binary search")
  {
    assert OccursAt("binary search", "binary search", 0);
  }

  lemma BinarySearchLacksFibonacci()
    ensures !Contains("binary search", "fibonacci")
  {
    AbsentChar("binary search", "fibonacci", 0);
  }

  lemma BinarySearchIsRust(input: string)
    requires Fold(input) == "binary search"
    ensures CannedReply(input) == Reply(BinarySearchIntro, Some(BinarySearchCode), Some("rust"))
  {
    BinarySearchNoConversation();
    BinarySearchFirstTopic();
    BinarySearchLower();
    BinarySearchExample();
    TopicByFold(input, 2);
  }

  lemma BinarySearchLower()
    ensures ToLower("binary search") == "binary search"
  {
    LowerIdentity("binary search");
  }

  lemma BinarySearchExample()
    ensures TopicReply(2) == Reply(BinarySearchIntro, Some(BinarySearchCode), Some("rust"))
  {
    assert CodePatterns[2].example == "binary search";
  }

  lemma QuicksortNoConversation()
    ensures NoConversational("quicksort please")
  {
    NoConversationIn("quicksort please");
  }

  lemma QuicksortNoTopic()
    ensures NoTopic("quicksort please")
  {
    NoTopicIn("quicksort please");
  }

  lemma QuicksortKeyword()
    ensures ContainsAny("quicksort please", CodeKeywords)
  {
    assert OccursAt("quicksort please", "sort", 5);
    assert Contains("quicksort please", CodeKeywords[8]);
  }

  /** A keyword alone asks for code: the `hello` example, tagged python. */
  lemma KeywordExample(input: string)
    requires Fold(input) == "quicksort please"
    ensures CannedReply(input) == Reply(PythonExampleIntro, Some(HelloCode), Some("python"))
  {
    QuicksortLower();
    QuicksortNoConversation();
    QuicksortNoTopic();
    QuicksortKeyword();
    KeywordByFold(input);
  }

  lemma QuicksortLower()
    ensures ToLower("quicksort please") == "quicksort please"
  {
    LowerIdentity("quicksort please");
  }

  /** With no conversational match and no topic, a keyword decides. */
  lemma KeywordDecides(input: string)
    requires NoConversational(input) && NoTopic(ToLower(input)) && ContainsAny(ToLower(input), CodeKeywords)
    ensures CannedReply(input) == Reply(PythonExampleIntro, Some(HelloCode), Some("python"))
  {
  }

  /** The whole matcher is blind to ASCII case: inputs that differ only in the
      case of ASCII letters get the same reply. */
  lemma CaseInsensitive(s: string, t: string)
    requires Fold(s) == Fold(t)
    ensures CannedReply(s) == CannedReply(t)
  {
    FoldDeterminesLower(s, t);
    SameConversationIndex(s, t);
  }

  /** Inputs that match the same conversational patterns stop the first loop
      at the same pattern. */
  lemma SameConversationIndex(s: string, t: string)
    requires forall j :: 0 <= j < |ConversationalPatterns| ==>
               (Matches(ConversationalPatterns[j].pattern, s) <==> Matches(ConversationalPatterns[j].pattern, t))
    ensures ConversationIndex(s) == ConversationIndex(t)
  {
    var a, b := ConversationIndex(s), ConversationIndex(t);
    if a.Some? && b.Some? {
      assert FirstConversational(a.value, s) && FirstConversational(b.value, t);
      assert !(a.value < b.value) && !(b.value < a.value);
    }
  }

  /** The matcher reads an input only through its fold, so facts about the
      fold decide the reply. */
  lemma TopicByFold(input: string, k: nat)
    requires k < |CodePatterns| && NoConversational(Fold(input)) && FirstTopic(k, ToLower(Fold(input)))
    ensures CannedReply(input) == TopicReply(k)
  {
    FoldIdempotent(input);
    FoldedLike(input, Fold(input));
    TopicDecides(input, k);
  }

  lemma KeywordByFold(input: string)
    requires NoConversational(Fold(input)) && NoTopic(ToLower(Fold(input)))
    requires ContainsAny(ToLower(Fold(input)), CodeKeywords)
    ensures CannedReply(input) == Reply(PythonExampleIntro, Some(HelloCode), Some("python"))
  {
    FoldIdempotent(input);
    FoldedLike(input, Fold(input));
    KeywordDecides(input);
  }

  lemma FoldIdempotent(s: string)
    ensures Fold(Fold(s)) == Fold(s)
  {
    FoldIdentity(Fold(s));
  }

  /** Inputs with the same fold match the same patterns and lower-case alike. */
  lemma FoldedLike(input: string, t: string)
    requires Fold(input) == Fold(t)
    ensures NoConversational(input) <==> NoConversational(t)
    ensures ToLower(input) == ToLower(t)
  {
    FoldDeterminesLower(input, t);
    assert forall j :: 0 <= j < |ConversationalPatterns| ==>
      (Matches(ConversationalPatterns[j].pattern, input) <==> Matches(ConversationalPatterns[j].pattern, t));
  }

  /** The welcome message shows what the `hello` topic shows. */
  lemma WelcomeIsHelloTopic(now: int)
    ensures WelcomeMessage(now) == ToMessage(TopicReply(3), "welcome-msg", now)
  {
  }
}
