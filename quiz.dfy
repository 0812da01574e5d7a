/**
 * The quiz controller of src/index.ts: the page-level state
 * (`questions`, `currentQuestionIndex`, `score`, `answered`), the
 * transitions the page's handlers run, the position kept in the query
 * string, the keyboard handler and the choice of the result message.
 *
 * The document is abstracted to what the transitions read back or
 * leave behind: which screen is visible, which option is marked selected
 * and which correct, whether the explanation is shown as right or wrong,
 * the `q`/`a` query parameters and the result message.
 */
module Quiz {
  import opened JsString

  datatype Answer = Valid | Invalid

  datatype Question = Question(email: string, answer: Answer, explanation: string)

  /** `valid(email, explanation)` */
  function ValidQuestion(email: string, explanation: string): (q: Question)
    ensures q.answer == Valid && q.email == email && q.explanation == explanation
  {
    Question(email, Valid, explanation)
  }

  /** `invalid(email, explanation)` */
  function InvalidQuestion(email: string, explanation: string): (q: Question)
    ensures q.answer == Invalid && q.email == email && q.explanation == explanation
  {
    Question(email, Invalid, explanation)
  }

  /** The fifteen questions of the quiz, in order. */
  const RawQuestions: seq<Question> := [
    ValidQuestion("easy@example.com", "No tricks here, just easing you into it."),
    ValidQuestion("easy+tag@example.com",
      "The + symbol is allowed, and email servers often treat is specially by ignoring anything after it. Very useful!"),
    InvalidQuestion("easy@", "Can't have an email address without a domain."),
    InvalidQuestion("@example.com", "Nor can you have one without a local part."),
    ValidQuestion("easy@example",
      "Surprisingly, this is valid! Top-level domains are not required by RFC 5322."),
    ValidQuestion("\"test@test\"@example.com",
      "Quoted strings in the local part can contain @ symbols and other special characters."),
    InvalidQuestion("user..name@example.com", "Consecutive dots are not allowed in the local part."),
    InvalidQuestion(".user@example.com", "The local part cannot start with a dot."),
    InvalidQuestion("user.@example.com", "The local part cannot end with a dot."),
    InvalidQuestion("user@ex ample.com", "Spaces are not allowed in the domain part."),
    ValidQuestion("very.long.email.address.that.keeps.going.and.going@example.com",
      "Long email addresses are valid as long as they don't exceed 320 characters total."),
    ValidQuestion("user@example.com.",
      "A trailing dot in the domain is valid (it represents the DNS root)."),
    ValidQuestion("user@[192.168.1.1]", "IP addresses in square brackets are valid domain formats."),
    ValidQuestion("user+tag+another@example.com", "Multiple plus signs and tags are perfectly valid."),
    ValidQuestion("\"spaces in quotes\"@example.com",
      "Quoted strings can contain spaces and many special characters.")
  ]

  /** The `q` and `a` parameters of the page's query string. */
  datatype Query = Query(q: Option<string>, a: Option<string>)

  /**
   * The marks on the rendered question: the option carrying "selected",
   * the one carrying "correct", the one carrying "incorrect", the
   * explanation (hidden, or shown as right or wrong) and the next button.
   */
  datatype Card = Card(
    selected: Option<nat>,
    correct: Option<nat>,
    incorrect: Option<nat>,
    verdict: Option<bool>,
    nextVisible: bool)

  /** A freshly rendered question: two unmarked options, no explanation, no next button. */
  const BlankCard := Card(None, None, None, None, false)

  /** Which of the three screens are not hidden. */
  datatype Screens = Screens(start: bool, quiz: bool, results: bool)

  /** The five result messages, worst first. */
  datatype Rating = Surprises | NotBad | GoodJob | Excellent | Perfect

  /** The texts of the results screen: the two counts, the message (its rating and its text) and the text offered for sharing. */
  datatype Results = Results(correctCount: nat, totalCount: nat, rating: Rating, message: string, share: string)

  /**
   * The page state the controller reads and writes: the four module-level
   * variables, the rendered question, the screens, the query string and
   * the results screen's texts once written.
   */
  datatype State = State(
    questions: seq<Question>,
    index: nat,     // currentQuestionIndex
    score: nat,
    answered: bool,
    card: Card,
    screens: Screens,
    query: Query,
    results: Option<Results>)

  /** The page as its script starts: the module-level initial values, every screen hidden, and the URL it was opened with. */
  function Initial(query: Query): State {
    State([], 0, 0, false, BlankCard, Screens(false, false, false), query, None)
  }

  // ---------------------------------------------------------------------
  // Positions in the query string

  /** `getUrlParams` on one parameter: a present, non-empty 1-based position read as a 0-based index. */
  function ReadPosition(p: Option<string>): (r: Option<Number>)
    ensures r.Some? <==> Truthy(p)
  {
    if Truthy(p) then Some(ParseInt(p.value).Minus(1)) else None
  }

  /** `updateUrl` on one index: the 1-based position it writes. */
  function WritePosition(i: nat): (s: string)
    ensures |s| >= 1 && s[0] != '0'
  {
    NatToString(i + 1)
  }

  /** What `updateUrl` writes, `getUrlParams` reads back as the same index. */
  lemma PositionRoundTrip(i: nat)
    ensures ReadPosition(Some(WritePosition(i))) == Some(Int(i))
  {
    ParseIntNatToString(i + 1);
  }

  /** A position `startQuiz` accepts: an integer index in range. */
  predicate InRange(p: Option<Number>, length: nat) {
    p.Some? && p.value.Int? && 0 <= p.value.value < length
  }

  // ---------------------------------------------------------------------
  // Options and answers

  /** `["valid", "invalid"][index]` */
  function OptionAnswer(index: int): (r: Option<Answer>)
    ensures r.Some? <==> 0 <= index < 2
  {
    if index == 0 then Some(Valid) else if index == 1 then Some(Invalid) else None
  }

  /** `question.answer === "valid" ? 0 : 1` */
  function CorrectIndex(a: Answer): (index: nat)
    ensures index < 2
  {
    if a == Valid then 0 else 1
  }

  /** The correct index is the one option whose answer matches. */
  lemma CorrectIndexSpec(a: Answer, index: int)
    ensures OptionAnswer(CorrectIndex(a)) == Some(a)
    ensures OptionAnswer(index) == Some(a) <==> index == CorrectIndex(a)
  {
  }

  // ---------------------------------------------------------------------
  // Result message

  /** The value `Math.round(score / total * 100)` takes. */
  datatype Percent = Finite(value: int) | NotANumber | PositiveInfinity

  /** The rounded percentage; with no question, 0/0 is NaN and a positive score over 0 is +Infinity. */
  function Percentage(score: nat, total: nat): (r: Percent)
    ensures total > 0 <==> r.Finite?
    ensures r.Finite? ==> r.value >= 0
  {
    if total == 0 then (if score == 0 then NotANumber else PositiveInfinity)
    else Finite((200 * score + total) / (2 * total))
  }

  /** The message `showResults` chooses, by the thresholds 100, 80, 60 and 40 on the percentage. */
  function Rate(score: nat, total: nat): Rating {
    match Percentage(score, total)
    case Finite(p) =>
      if p == 100 then Perfect
      else if p >= 80 then Excellent
      else if p >= 60 then GoodJob
      else if p >= 40 then NotBad
      else Surprises
    case NotANumber => Surprises
    case PositiveInfinity => Excellent
  }

  /** The text shown for each message. */
  function MessageText(r: Rating): string {
    match r
    case Perfect => "Perfect! You clearly know your email validation specs."
    case Excellent => "Excellent! You have a solid understanding of email validation."
    case GoodJob => "Good job! Email validation is trickier than most people think."
    case NotBad => "Not bad, but email validation has some surprising edge cases!"
    case Surprises => "Email validation is full of surprises. The RFC 5322 spec might shock you!"
  }

  /** The text `showResults` offers for sharing. */
  function ShareText(score: nat, total: nat): string {
    "I scored " + NatToString(score) + "/" + NatToString(total) + ShareTail
  }

  /** The rest of the share text, after the counts. */
  const ShareTail := " on the email validation quiz at https://e-mail.wtf - how well do you know email validation?"

  /** The texts `showResults` writes for a score out of a number of questions. */
  function ResultsFor(score: nat, total: nat): Results {
    var rating := Rate(score, total);
    Results(score, total, rating, MessageText(rating), ShareText(score, total))
  }

  /** The percentage is 100·score/total rounded to the nearest integer, halves up. */
  lemma PercentageRounds(score: nat, total: nat)
    requires total > 0
    ensures Percentage(score, total).Finite?
    ensures var p := Percentage(score, total).value;
      2 * total * p <= 200 * score + total < 2 * total * p + 2 * total
  {
    var n, d := 200 * score + total, 2 * total;
    var p := n / d;
    assert n == d * p + n % d;
  }

  lemma MultiplyMonotone(k: nat, a: int, b: int)
    requires a <= b
    ensures k * a <= k * b
  {
  }

  /** With no more right answers than questions, the percentage lies in 0..100. */
  lemma PercentageBounds(score: nat, total: nat)
    requires 0 < total && score <= total
    ensures 0 <= Percentage(score, total).value <= 100
  {
    PercentageRounds(score, total);
    var p := Percentage(score, total).value;
    if p > 100 {
      MultiplyMonotone(2 * total, 101, p);
    }
  }

  /** Below 200 questions, the perfect message is shown exactly when every answer was right. */
  lemma PerfectIffAllRight(score: nat, total: nat)
    requires 0 < total < 200 && score <= total
    ensures Rate(score, total) == Perfect <==> score == total
  {
    PercentageRounds(score, total);
    PercentageBounds(score, total);
    var p := Percentage(score, total).value;
    if score == total {
      if p < 100 {
        MultiplyMonotone(2 * total, p + 1, 100);
      }
    } else {
      MultiplyMonotone(200, score, total - 1);
    }
  }

  /** Where a message sits among the messages, worst first. */
  function Rank(r: Rating): nat {
    match r
    case Surprises => 0
    case NotBad => 1
    case GoodJob => 2
    case Excellent => 3
    case Perfect => 4
  }

  /** A higher score never gets a worse message, as long as it is at most the number of questions. */
  lemma MessageMonotone(low: nat, high: nat, total: nat)
    requires low <= high <= total && 0 < total
    ensures Rank(Rate(low, total)) <= Rank(Rate(high, total))
  {
    PercentageRounds(low, total);
    PercentageRounds(high, total);
    PercentageBounds(high, total);
    var p, q := Percentage(low, total).value, Percentage(high, total).value;
    if q < p {
      MultiplyMonotone(2 * total, q + 1, p);
    }
  }

  /** Exactly one message applies, and which one follows the thresholds on the percentage. */
  lemma MessageBuckets(score: nat, total: nat)
    requires 0 < total
    ensures var p := Percentage(score, total).value;
      && (Rate(score, total) == Perfect <==> p == 100)
      && (Rate(score, total) == Excellent <==> 80 <= p && p != 100)
      && (Rate(score, total) == GoodJob <==> 60 <= p < 80)
      && (Rate(score, total) == NotBad <==> 40 <= p < 60)
      && (Rate(score, total) == Surprises <==> p < 40)
  {
  }

  /** For fifteen questions: the scores each message needs. */
  lemma FifteenQuestionMessages(score: nat)
    requires score <= 15
    ensures Rate(score, 15) == Perfect <==> score == 15
    ensures Rate(score, 15) == Excellent <==> 12 <= score <= 14
    ensures Rate(score, 15) == GoodJob <==> 9 <= score <= 11
    ensures Rate(score, 15) == NotBad <==> 6 <= score <= 8
    ensures Rate(score, 15) == Surprises <==> score <= 5
  {
    MessageBuckets(score, 15);
  }

  // ---------------------------------------------------------------------
  // Keyboard

  /** `e.key >= "1" && e.key <= "2"`, compared as strings. */
  predicate IsOptionKey(key: string) {
    LessOrEqual("1", key) && LessOrEqual(key, "2")
  }

  /** The string comparison admits exactly "2" and the keys whose first character is '1'. */
  lemma OptionKeys(key: string)
    ensures IsOptionKey(key) <==> (|key| >= 1 && key[0] == '1') || key == "2"
  {
    var one, two := "1", "2";
    assert one[1..] == [] && two[1..] == [];
    if key == [] {
      assert Less(key, one);
    } else if key[0] == '1' {
      assert !Less(key[1..], one[1..]);
      assert !Less(key, one) && !Less(two, key);
    } else if key[0] == '2' {
      assert !Less(key, one);
      assert Less(two, key) <==> Less(two[1..], key[1..]);
    } else if key[0] < '1' {
      assert Less(key, one);
    } else {
      assert Less(two, key);
    }
  }

  lemma {:induction false} LeadingDigitValue(ds: string)
    requires |ds| >= 1 && 1 <= DigitValue(ds[0]) < 10
    requires forall i :: 0 <= i < |ds| ==> DigitValue(ds[i]) < 10
    ensures DigitsValue(ds, 10) >= 1
  {
    if |ds| > 1 {
      var init := ds[..|ds| - 1];
      LeadingDigitValue(init);
    } else {
      assert ds[..0] == [];
    }
  }

  /** A string that starts with a non-zero decimal digit parses as the value of its leading digits. */
  lemma ParseLeadingDigits(s: string)
    requires |s| >= 1 && '1' <= s[0] <= '9'
    ensures ParseInt(s) == Int(DigitsValue(DigitPrefix(s, 10), 10))
    ensures |DigitPrefix(s, 10)| >= 1
  {
    assert !IsWhiteSpace(s[0]);
    assert TrimStart(s) == s;
  }

  /** An option key parses as a positive integer. */
  lemma OptionKeyParses(key: string)
    requires IsOptionKey(key)
    ensures ParseInt(key).Int? && ParseInt(key).value >= 1
    ensures key == "1" ==> ParseInt(key) == Int(1)
    ensures key == "2" ==> ParseInt(key) == Int(2)
  {
    OptionKeys(key);
    ParseLeadingDigits(key);
    var ds := DigitPrefix(key, 10);
    LeadingDigitValue(ds);
    if |key| == 1 {
      assert ds == key;
      assert ds[..0] == [];
    }
  }

  /** `parseInt(e.key) - 1`: the option an option key picks. */
  function KeyOption(key: string): (index: int)
    requires IsOptionKey(key)
    ensures index >= 0
    ensures key == "1" ==> index == 0
    ensures key == "2" ==> index == 1
  {
    OptionKeyParses(key);
    ParseInt(key).value - 1
  }

  // ---------------------------------------------------------------------
  // Transitions

  /** `updateUrl()`: write the position; write the selected option when answered, drop it when not. */
  function AfterUpdateUrl(s: State): (r: State)
    ensures r == s.(query := r.query)
    ensures !s.answered ==> r.query.a == None
  {
    s.(query := Query(
      Some(WritePosition(s.index)),
      if !s.answered then None
      else if s.card.selected.Some? then Some(WritePosition(s.card.selected.value))
      else s.query.a))
  }

  /** `showQuestion()`: when there is a current question, render it unmarked and mark it unanswered. */
  function AfterShowQuestion(s: State): (r: State)
    ensures r.questions == s.questions && r.index == s.index && r.score == s.score
    ensures r.screens == s.screens && r.results == s.results
  {
    if s.index >= |s.questions| then s
    else AfterUpdateUrl(s.(card := BlankCard, answered := false))
  }

  /** The marks `selectOption(index)` adds to the card of `question`. */
  function Marked(card: Card, question: Question, index: int): (r: Card)
    ensures r.verdict == Some(true) <==> index == CorrectIndex(question.answer)
    ensures r.correct == Some(CorrectIndex(question.answer)) && r.nextVisible
    ensures 0 <= index < 2 ==> r.selected == Some(index as nat)
    ensures r.incorrect != card.incorrect ==> r.incorrect.Some? && r.incorrect != r.correct
  {
    CorrectIndexSpec(question.answer, index);
    var rendered := 0 <= index < 2;
    var isCorrect := OptionAnswer(index) == Some(question.answer);
    Card(
      if rendered then Some(index as nat) else card.selected,
      Some(CorrectIndex(question.answer)),
      if rendered && !isCorrect then Some(index as nat) else card.incorrect,
      Some(isCorrect),
      true)
  }

  /**
   * `selectOption(index)`: nothing once answered; otherwise the question
   * counts as answered even when there is no question, and with one the
   * card is marked and a right answer scores.
   */
  function AfterSelect(s: State, index: int): (r: State)
    ensures r.answered && r.questions == s.questions && r.index == s.index && r.screens == s.screens
    ensures s.score <= r.score <= s.score + 1
  {
    if s.answered then s
    else if s.index >= |s.questions| then s.(answered := true)
    else
      var question := s.questions[s.index];
      var isCorrect := OptionAnswer(index) == Some(question.answer);
      AfterUpdateUrl(s.(
        answered := true,
        card := Marked(s.card, question, index),
        score := if isCorrect then s.score + 1 else s.score))
  }

  /** `showResults()`: swap the quiz screen for the results screen, fill in its texts and drop the query string. */
  function AfterShowResults(s: State): (r: State)
    ensures r.questions == s.questions && r.index == s.index && r.score == s.score && r.answered == s.answered
    ensures r.screens.results && !r.screens.quiz
  {
    s.(screens := s.screens.(quiz := false, results := true),
       results := Some(ResultsFor(s.score, |s.questions|)),
       query := Query(None, None))
  }

  /** `nextQuestion()`: advance; show the next question or, past the last one, the results. */
  function AfterNext(s: State): (r: State)
    ensures r.index == s.index + 1 && r.score == s.score && r.questions == s.questions
  {
    var advanced := s.(index := s.index + 1);
    if advanced.index < |advanced.questions| then AfterShowQuestion(advanced) else AfterShowResults(advanced)
  }

  /**
   * `startQuiz()` with the question bank `bank`: load the questions, adopt
   * an in-range position from the query string, swap the start screen for
   * the quiz screen, show the question, then pick an option 0 or 1 named by
   * the query string. The score is kept and the results screen is left as
   * it was.
   */
  function AfterStart(s: State, bank: seq<Question>): (r: State)
    ensures r.questions == bank && r.screens.quiz && !r.screens.start && r.score >= s.score
  {
    var q := ReadPosition(s.query.q);
    var a := ReadPosition(s.query.a);
    var loaded := s.(questions := bank);
    var placed := if InRange(q, |bank|) then loaded.(index := q.value.value as nat) else loaded;
    var shown := AfterShowQuestion(placed.(screens := placed.screens.(start := false, quiz := true)));
    if InRange(a, 2) then AfterSelect(shown, a.value.value) else shown
  }

  /** The quiz part of the page-load handler: show the start screen, and start right away when the URL has a `q` parameter. */
  function AfterLoad(s: State, bank: seq<Question>): (r: State)
    ensures r.screens.start <==> ReadPosition(s.query.q).None?
    ensures ReadPosition(s.query.q).Some? ==> r.screens.quiz && r.questions == bank
  {
    var shown := s.(screens := s.screens.(start := true));
    if ReadPosition(s.query.q).Some? then AfterStart(shown, bank) else shown
  }

  /** The keydown handler: option keys answer, Enter and space advance, only while the quiz screen shows. */
  function AfterKey(s: State, key: string): (r: State)
    ensures !s.screens.quiz ==> r == s
    ensures r.questions == s.questions
  {
    if !s.screens.quiz then s
    else if IsOptionKey(key) && !s.answered then AfterSelect(s, KeyOption(key))
    else if (key == "Enter" || key == " ") && s.answered then AfterNext(s)
    else s
  }

  /**
   * On the quiz screen, "1" and "2" answer with the first and the second
   * option while unanswered, Enter and space advance once answered, and
   * each of them does nothing in the other case.
   */
  lemma KeyDispatch(s: State)
    requires s.screens.quiz
    ensures !s.answered ==> AfterKey(s, "1") == AfterSelect(s, 0) && AfterKey(s, "2") == AfterSelect(s, 1)
    ensures s.answered ==> AfterKey(s, "Enter") == AfterNext(s) && AfterKey(s, " ") == AfterNext(s)
    ensures s.answered ==> AfterKey(s, "1") == s && AfterKey(s, "2") == s
    ensures !s.answered ==> AfterKey(s, "Enter") == s && AfterKey(s, " ") == s
  {
    OptionKeys("1");
    OptionKeys("2");
    OptionKeys("Enter");
    OptionKeys(" ");
  }

  // ---------------------------------------------------------------------
  // Properties of single transitions

  /**
   * Showing a question renders it unmarked and unanswered and puts its
   * position, and no answer, in the URL; without a current question
   * nothing changes.
   */
  lemma ShowQuestionSpec(s: State)
    ensures s.index >= |s.questions| ==> AfterShowQuestion(s) == s
    ensures var t := AfterShowQuestion(s);
      s.index < |s.questions| ==>
        && !t.answered && t.card == BlankCard
        && t.query == Query(Some(WritePosition(s.index)), None)
        && t.questions == s.questions && t.index == s.index && t.score == s.score
        && t.screens == s.screens && t.results == s.results
  {
  }

  /** Only the first selection on a question has an effect. */
  lemma SelectAnswersOnce(s: State, index: int, again: int)
    ensures AfterSelect(s, index).answered
    ensures s.answered ==> AfterSelect(s, index) == s
    ensures AfterSelect(AfterSelect(s, index), again) == AfterSelect(s, index)
    ensures !s.answered && s.index >= |s.questions| ==> AfterSelect(s, index) == s.(answered := true)
  {
  }

  /** Answering the current question: a point exactly for the right option, and the marks the page shows. */
  lemma SelectScores(s: State, index: int)
    requires !s.answered && s.index < |s.questions|
    ensures var t, answer := AfterSelect(s, index), s.questions[s.index].answer;
      && (t.score == s.score + 1 <==> index == CorrectIndex(answer))
      && (t.score == s.score <==> index != CorrectIndex(answer))
      && t.card.verdict == Some(index == CorrectIndex(answer))
      && t.card.correct == Some(CorrectIndex(answer))
      && (0 <= index < 2 ==> t.card.selected == Some(index as nat))
      && (0 <= index < 2 && index != CorrectIndex(answer) ==> t.card.incorrect == Some(index as nat))
      && (0 <= index < 2 ==> t.query == Query(Some(WritePosition(s.index)), Some(WritePosition(index as nat))))
      && t.questions == s.questions && t.index == s.index && t.card.nextVisible
  {
    CorrectIndexSpec(s.questions[s.index].answer, index);
  }

  /** Advancing past the last question shows the results for the score so far; otherwise the next question, unanswered. */
  lemma NextShowsResultsAtEnd(s: State)
    ensures var t := AfterNext(s); t.index == s.index + 1 && t.score == s.score
    ensures var t := AfterNext(s);
      s.index + 1 >= |s.questions| ==>
        && t.screens.results && !t.screens.quiz && t.query == Query(None, None)
        && t.results == Some(ResultsFor(s.score, |s.questions|))
    ensures var t := AfterNext(s);
      s.index + 1 < |s.questions| ==>
        && !t.answered && t.card == BlankCard && t.screens == s.screens
        && t.query == Query(Some(WritePosition(s.index + 1)), None)
  {
  }

  /**
   * Starting loads the questions, adopts exactly the in-range positions,
   * never lowers the score, and leaves the question answered exactly when
   * the URL names option 1 or 2.
   */
  lemma StartSpec(s: State, bank: seq<Question>)
    ensures var t, q := AfterStart(s, bank), ReadPosition(s.query.q);
      && t.questions == bank
      && t.screens.quiz && !t.screens.start && t.screens.results == s.screens.results
      && t.index == (if InRange(q, |bank|) then q.value.value as nat else s.index)
      && t.score >= s.score
    ensures var t, a := AfterStart(s, bank), ReadPosition(s.query.a);
      t.index < |bank| ==>
        && (t.answered <==> InRange(a, 2))
        && (InRange(a, 2) ==> t.card.selected == Some(a.value.value as nat))
  {
  }

  /**
   * Reloading the URL the quiz wrote after an answer resumes at the same
   * question with the same option chosen and the same marks.
   */
  lemma ReloadResumes(s: State, bank: seq<Question>, index: nat)
    requires s.questions == bank && s.index < |bank| && index < 2
    ensures var u := AfterSelect(AfterShowQuestion(s), index);
      var t := AfterLoad(Initial(u.query), bank);
      && t.index == s.index && t.screens.quiz
      && t.answered && t.card == u.card
  {
    var u := AfterSelect(AfterShowQuestion(s), index);
    assert u.query == Query(Some(WritePosition(s.index)), Some(WritePosition(index)));
    PositionRoundTrip(s.index);
    PositionRoundTrip(index);
    var start := Initial(u.query);
    var shown := start.(screens := start.screens.(start := true));
    assert AfterLoad(start, bank) == AfterStart(shown, bank);
    var placed := shown.(questions := bank, index := s.index);
    var reshown := AfterShowQuestion(placed.(screens := placed.screens.(start := false, quiz := true)));
    assert reshown.index == s.index && !reshown.answered && reshown.card == BlankCard;
    assert AfterStart(shown, bank) == AfterSelect(reshown, index);
  }

  // ---------------------------------------------------------------------
  // Sessions

  /** What the user can do to the quiz page: press a key or click one of the visible controls. */
  datatype Event = KeyDown(key: string) | StartClicked | OptionClicked(option: nat) | NextClicked

  /** The start button sits on the start screen, the options and the next button on the quiz screen. */
  function AfterEvent(s: State, bank: seq<Question>, e: Event): (r: State)
    ensures r.questions == s.questions || r.questions == bank
  {
    match e
    case KeyDown(key) => AfterKey(s, key)
    case StartClicked => if s.screens.start then AfterStart(s, bank) else s
    case OptionClicked(i) => if s.screens.quiz && i < 2 then AfterSelect(s, i) else s
    case NextClicked => if s.screens.quiz && s.card.nextVisible then AfterNext(s) else s
  }

  function AfterEvents(s: State, bank: seq<Question>, events: seq<Event>): State
    decreases |events|
  {
    if events == [] then s else AfterEvents(AfterEvent(s, bank, events[0]), bank, events[1..])
  }

  /**
   * The invariant of a session: the index stays within the questions, the
   * score never exceeds the questions answered, the start screen is only
   * shown before anything was scored, and the results screen shows the
   * texts for the current score.
   */
  predicate Consistent(s: State) {
    && s.index <= |s.questions|
    && (s.screens.quiz ==> s.index < |s.questions| && !s.screens.start)
    && s.score <= s.index + (if s.answered && s.index < |s.questions| then 1 else 0)
    && (s.screens.start ==> s.index == 0 && s.score == 0 && !s.screens.results)
    && (s.screens.results ==>
          && !s.screens.quiz && 0 < |s.questions|
          && s.results == Some(ResultsFor(s.score, |s.questions|)))
  }

  lemma StartConsistent(s: State, bank: seq<Question>)
    requires Consistent(s) && s.screens.start && 0 < |bank|
    ensures Consistent(AfterStart(s, bank))
  {
  }

  lemma NextConsistent(s: State)
    requires Consistent(s) && s.screens.quiz
    ensures Consistent(AfterNext(s))
  {
  }

  lemma EventConsistent(s: State, bank: seq<Question>, e: Event)
    requires Consistent(s) && 0 < |bank|
    ensures Consistent(AfterEvent(s, bank, e))
  {
    match e
    case KeyDown(key) =>
      if s.screens.quiz && !(IsOptionKey(key) && !s.answered) && (key == "Enter" || key == " ") && s.answered {
        NextConsistent(s);
      }
    case StartClicked =>
      if s.screens.start {
        StartConsistent(s, bank);
      }
    case OptionClicked(i) =>
    case NextClicked =>
      if s.screens.quiz && s.card.nextVisible {
        NextConsistent(s);
      }
  }

  lemma {:induction false} EventsConsistent(s: State, bank: seq<Question>, events: seq<Event>)
    requires Consistent(s) && 0 < |bank|
    ensures Consistent(AfterEvents(s, bank, events))
    decreases |events|
  {
    if events != [] {
      EventConsistent(s, bank, events[0]);
      EventsConsistent(AfterEvent(s, bank, events[0]), bank, events[1..]);
    }
  }

  /**
   * Whatever the URL and whatever the user does, the score never exceeds
   * the number of questions, and a results screen shows the counts and
   * the message for a percentage between 0 and 100.
   */
  lemma SessionScoreBounded(query: Query, bank: seq<Question>, events: seq<Event>)
    requires 0 < |bank|
    ensures var s := AfterEvents(AfterLoad(Initial(query), bank), bank, events);
      && Consistent(s)
      && s.score <= |s.questions|
      && (s.screens.results ==>
            && s.results == Some(ResultsFor(s.score, |s.questions|))
            && 0 <= Percentage(s.score, |s.questions|).value <= 100)
  {
    var s0 := Initial(query);
    var shown := s0.(screens := s0.screens.(start := true));
    assert Consistent(shown);
    if ReadPosition(query.q).Some? {
      StartConsistent(shown, bank);
    }
    EventsConsistent(AfterLoad(s0, bank), bank, events);
    var s := AfterEvents(AfterLoad(s0, bank), bank, events);
    if s.screens.results {
      PercentageBounds(s.score, |s.questions|);
    }
  }

  /**
   * `startQuiz` resets neither the index nor the score. Started again once
   * past the last question, with no position in the URL, the quiz screen
   * shows with no current question and the old score: the page is then
   * not `Consistent`. The event model offers no such restart, because the
   * start button sits on the start screen, which the quiz never shows again.
   */
  lemma RestartKeepsProgress(s: State, bank: seq<Question>)
    requires s.query == Query(None, None) && |bank| <= s.index
    ensures var t := AfterStart(s, bank);
      && t.score == s.score && t.index == s.index && t.screens.quiz
      && !Consistent(t)
  {
  }

  /** The questions shown are none yet or the bank's. */
  predicate FromBank(s: State, bank: seq<Question>) {
    s.questions == [] || s.questions == bank
  }

  lemma {:induction false} QuestionsFromBank(s: State, bank: seq<Question>, events: seq<Event>)
    requires FromBank(s, bank)
    ensures FromBank(AfterEvents(s, bank, events), bank)
    decreases |events|
  {
    if events != [] {
      QuestionsFromBank(AfterEvent(s, bank, events[0]), bank, events[1..]);
    }
  }

  /** A quiz of fifteen questions ends with one of the fifteen-question messages. */
  lemma FifteenQuestionSession(query: Query, bank: seq<Question>, events: seq<Event>)
    requires |bank| == 15
    ensures var s := AfterEvents(AfterLoad(Initial(query), bank), bank, events);
      && s.score <= 15
      && (s.screens.results ==> s.results.Some? && s.results.value.totalCount == 15
                                && (s.results.value.rating == Perfect <==> s.score == 15))
  {
    SessionScoreBounded(query, bank, events);
    QuestionsFromBank(AfterLoad(Initial(query), bank), bank, events);
    var s := AfterEvents(AfterLoad(Initial(query), bank), bank, events);
    if s.screens.results {
      FifteenQuestionMessages(s.score);
    }
  }

  /** The quiz as shipped has fifteen questions. */
  lemma ShippedQuestionCount()
    ensures |RawQuestions| == 15
  {
  }

  // ---------------------------------------------------------------------
  // The controller, as the page holds it

  /** The page-level variables of the quiz and the parts of the document it changes. */
  class QuizPage {
    const rawQuestions: seq<Question>
    var questions: seq<Question>
    var currentQuestionIndex: nat
    var score: nat
    var answered: bool
    var card: Card
    var screens: Screens
    var query: Query
    var results: Option<Results>

    function Snapshot(): State
      reads this
    {
      State(questions, currentQuestionIndex, score, answered, card, screens, query, results)
    }

    /** The page as its script starts, opened with the query string `query`. */
    constructor (query: Query)
      ensures rawQuestions == RawQuestions
      ensures Snapshot() == Initial(query)
    {
      rawQuestions := RawQuestions;
      questions := [];
      currentQuestionIndex := 0;
      score := 0;
      answered := false;
      card := BlankCard;
      screens := Screens(false, false, false);
      this.query := query;
      results := None;
    }

    method UpdateUrl()
      modifies this
      ensures Snapshot() == AfterUpdateUrl(old(Snapshot()))
    {
      var a := query.a;
      if answered {
        if card.selected.Some? {
          a := Some(WritePosition(card.selected.value));
        }
      } else {
        a := None;
      }
      query := Query(Some(WritePosition(currentQuestionIndex)), a);
    }

    method InitializeQuiz()
      modifies this
      ensures Snapshot() == old(Snapshot()).(questions := rawQuestions)
    {
      questions := rawQuestions;
    }

    method ShowQuestion()
      modifies this
      ensures Snapshot() == AfterShowQuestion(old(Snapshot()))
    {
      if currentQuestionIndex >= |questions| {
        return;
      }
      card := BlankCard;
      answered := false;
      UpdateUrl();
    }

    method SelectOption(index: int)
      modifies this
      ensures Snapshot() == AfterSelect(old(Snapshot()), index)
    {
      if answered {
        return;
      }
      answered := true;
      if currentQuestionIndex >= |questions| {
        return;
      }
      var question := questions[currentQuestionIndex];
      var rendered := 0 <= index < 2;
      var isCorrect := OptionAnswer(index) == Some(question.answer);
      var correctIndex := CorrectIndex(question.answer);
      var marks := card;
      if rendered {
        marks := marks.(selected := Some(index as nat));
      }
      if isCorrect {
        score := score + 1;
      } else if rendered {
        marks := marks.(incorrect := Some(index as nat));
      }
      card := marks.(correct := Some(correctIndex), verdict := Some(isCorrect), nextVisible := true);
      UpdateUrl();
    }

    method ShowResults()
      modifies this
      ensures Snapshot() == AfterShowResults(old(Snapshot()))
    {
      screens := screens.(quiz := false, results := true);
      results := Some(ResultsFor(score, |questions|));
      query := Query(None, None);
    }

    method NextQuestion()
      modifies this
      ensures Snapshot() == AfterNext(old(Snapshot()))
    {
      currentQuestionIndex := currentQuestionIndex + 1;
      if currentQuestionIndex < |questions| {
        ShowQuestion();
      } else {
        ShowResults();
      }
    }

    method StartQuiz()
      modifies this
      ensures Snapshot() == AfterStart(old(Snapshot()), rawQuestions)
    {
      InitializeQuiz();
      var q := ReadPosition(query.q);
      var a := ReadPosition(query.a);
      if q.Some? && q.value.Int? && q.value.value >= 0 && q.value.value < |questions| {
        currentQuestionIndex := q.value.value as nat;
      }
      screens := screens.(start := false, quiz := true);
      ShowQuestion();
      if a.Some? && a.value.Int? && a.value.value >= 0 && a.value.value <= 1 {
        SelectOption(a.value.value);
      }
    }

    /** The quiz part of the page-load handler. */
    method PageLoaded()
      modifies this
      ensures Snapshot() == AfterLoad(old(Snapshot()), rawQuestions)
    {
      screens := screens.(start := true);
      var q := ReadPosition(query.q);
      if q.Some? {
        StartQuiz();
      }
    }

    method KeyDown(key: string)
      modifies this
      ensures Snapshot() == AfterKey(old(Snapshot()), key)
    {
      if screens.quiz {
        if IsOptionKey(key) && !answered {
          SelectOption(KeyOption(key));
        } else if (key == "Enter" || key == " ") && answered {
          NextQuestion();
        }
      }
    }
  }
}
