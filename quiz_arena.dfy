/**
 * The timed quiz arena: a bank of bilingual questions and a six-screen session (start, quiz,
 * feedback, results, name input, leaderboard) with a per-question countdown, one recorded time
 * per answer, a running count of correct answers, the "would I be top 3" prediction, and the
 * result submitted under the player's name.
 *
 * Each handler is a function from the state before it to the state after it; `ArenaScreen`
 * holds the same state in mutable fields and its methods apply those functions. Clock readings
 * (`Date.now()`) and the outcomes of requests are parameters.
 */
module QuizArena {
  import opened Wrappers
  import opened Text
  import opened Translations
  import opened RealArith

  datatype QuestionData = QuestionData(
    questionCs: string, questionEn: string,
    optionsCs: seq<string>, optionsEn: seq<string>,
    correctIndex: int)

  /** `QUESTIONS_DATA`. */
  const Bank: seq<QuestionData> := [
    QuestionData(
      "Který produkt od Applu byl nejprodávanější na Vánoce 2024?",
      "Which Apple product was the best-selling on Christmas 2024?",
      ["iPhone", "AirPods", "Apple Watch", "iPad"],
      ["iPhone", "AirPods", "Apple Watch", "iPad"],
      1),
    QuestionData(
      "Který člověk založil Microsoft?",
      "Who founded Microsoft?",
      ["Steve Jobs", "Mark Zuckerberg", "Bill Gates", "Tim Cook"],
      ["Steve Jobs", "Mark Zuckerberg", "Bill Gates", "Tim Cook"],
      2),
    QuestionData(
      "Koupíš si disk s kapacitou 2 TB. Kolik je to přibližně gigabajtů (GB)?",
      "You buy a 2 TB disk. How many gigabytes (GB) is that approximately?",
      ["1 000 GB", "1 024 GB", "2 000 GB", "2 048 GB"],
      ["1,000 GB", "1,024 GB", "2,000 GB", "2,048 GB"],
      3),
    QuestionData(
      "Jak se jmenuje první video na YouTube vůbec?",
      "What is the name of the very first video on YouTube?",
      ["Times Square", "Me at the Zoo", "Google Campus", "San Francisco Pier"],
      ["Times Square", "Me at the Zoo", "Google Campus", "San Francisco Pier"],
      1),
    QuestionData(
      "Co je to phishing?",
      "What is phishing?",
      ["vysokorychlostní připojení", "hledání chyb", "podvodný pokus získat údaje", "test výkonnosti"],
      ["high-speed connection", "bug hunting", "fraudulent attempt to obtain data", "performance test"],
      2),
    QuestionData(
      "Který jazyk slouží ke stylování webu?",
      "Which language is used for web styling?",
      ["JavaScript", "Python", "CSS", "HTML"],
      ["JavaScript", "Python", "CSS", "HTML"],
      2),
    QuestionData(
      "Co měří Hertz u monitoru?",
      "What does Hertz measure on a monitor?",
      ["rozlišení", "jas", "kontrast", "počet překreslení za sekundu"],
      ["resolution", "brightness", "contrast", "refresh rate per second"],
      3),
    QuestionData(
      "Které zařízení je výstupní?",
      "Which device is an output device?",
      ["Klávesnice", "Myš", "Monitor", "Mikrofon"],
      ["Keyboard", "Mouse", "Monitor", "Microphone"],
      2),
    QuestionData(
      "Co znamená cloud?",
      "What does cloud mean?",
      ["počítačový virus", "sdílené online úložiště", "typ procesoru", "grafická karta"],
      ["computer virus", "shared online storage", "processor type", "graphics card"],
      1),
    QuestionData(
      "Co znamená rychlost „100 Mbps\"?",
      "What does \"100 Mbps\" speed mean?",
      ["100 megabajtů za sekundu", "100 megabitů za sekundu včetně overheadu", "100 milionů paketů", "100 MHz frekvence"],
      ["100 megabytes per second", "100 megabits per second including overhead", "100 million packets", "100 MHz frequency"],
      1),
    QuestionData(
      "Co označuje open source?",
      "What does open source mean?",
      ["uzavřený software", "veřejně dostupný zdrojový kód", "placený program", "antivirový program"],
      ["closed software", "publicly available source code", "paid program", "antivirus program"],
      1),
    QuestionData(
      "Který kabel přenáší obraz?",
      "Which cable transmits video?",
      ["HDMI", "USB-C (pouze data)", "Ethernet", "Audio jack"],
      ["HDMI", "USB-C (data only)", "Ethernet", "Audio jack"],
      0),
    QuestionData(
      "Která firma prodávající reproduktory uvádí obrat cca 10,5 mld USD za rok 2024?",
      "Which speaker company reports approximately $10.5 billion USD revenue for 2024?",
      ["Sonos", "Bose", "Harman International", "JBL"],
      ["Sonos", "Bose", "Harman International", "JBL"],
      2),
    QuestionData(
      "Kdo vlastní YouTube?",
      "Who owns YouTube?",
      ["Facebook", "Microsoft", "Google", "Amazon"],
      ["Facebook", "Microsoft", "Google", "Amazon"],
      2),
    QuestionData(
      "Kolik bitů má IPv6 adresa?",
      "How many bits does an IPv6 address have?",
      ["32", "64", "128", "256"],
      ["32", "64", "128", "256"],
      2),
    QuestionData(
      "Za co byla udělena Nobelova cena související s informatikou?",
      "What was the Nobel Prize related to computer science awarded for?",
      ["hardware", "operační systémy", "databáze", "programový kód / neuronové sítě"],
      ["hardware", "operating systems", "databases", "code / neural networks"],
      3)
  ]

  /** A question as shown in one language. */
  datatype Question = Question(question: string, options: seq<string>, correctIndex: int)

  /** `QUESTIONS`: the bank in the current language, with the same correct indices. */
  function Questions(lang: Language): (r: seq<Question>)
    ensures |r| == |Bank|
    ensures forall k :: 0 <= k < |r| ==> r[k].correctIndex == Bank[k].correctIndex
    ensures forall k :: 0 <= k < |r| ==>
      r[k].options == (if lang == Cs then Bank[k].optionsCs else Bank[k].optionsEn)
  {
    seq(|Bank|, k requires 0 <= k < |Bank| =>
      if lang == Cs then Question(Bank[k].questionCs, Bank[k].optionsCs, Bank[k].correctIndex)
      else Question(Bank[k].questionEn, Bank[k].optionsEn, Bank[k].correctIndex))
  }

  /** In either language every shown question offers four options, one of them correct. */
  lemma ShownQuestionsWellFormed(lang: Language)
    ensures forall k :: 0 <= k < |Questions(lang)| ==>
      |Questions(lang)[k].options| == 4 && 0 <= Questions(lang)[k].correctIndex < 4
  {
    BankWellFormed();
  }

  /** Seconds allowed per question. */
  const SecondsPerQuestion: nat := 15

  /** Four options in both languages and a correct index among them. */
  predicate WellFormedQuestion(q: QuestionData) {
    |q.optionsCs| == 4 && |q.optionsEn| == 4 && 0 <= q.correctIndex < 4
  }

  /** The bank holds sixteen well-formed questions. */
  lemma BankWellFormed()
    ensures |Bank| == 16
    ensures forall k :: 0 <= k < |Bank| ==> WellFormedQuestion(Bank[k])
  {
  }

  /** `QUESTIONS.length`: a session asks every question of the bank once. */
  const QuestionCount: nat := 16

  /** The bank's correct indices in order, the column `handleAnswer` compares against. */
  const AnswerKey: seq<int> := [1, 2, 3, 1, 2, 2, 3, 2, 1, 1, 1, 0, 2, 2, 2, 3]

  /** The count and the answer key are the bank's own, question by question. */
  lemma AnswerKeyMatchesBank()
    ensures |Bank| == QuestionCount == |AnswerKey|
    ensures forall k :: 0 <= k < |Bank| ==> AnswerKey[k] == Bank[k].correctIndex
  {
  }

  lemma AnswerKeyInRange()
    ensures forall k :: 0 <= k < |AnswerKey| ==> 0 <= AnswerKey[k] < 4
  {
  }

  datatype Screen = Start | Quiz | Feedback | Results | NameInput | Leaderboard

  /** A row of the leaderboard the arena's backend returns. */
  datatype LeaderboardEntry = LeaderboardEntry(
    rank: int, name: string, correctAnswers: int, totalQuestions: int, averageTime: real)

  /** The session's state cells. Answer times are in seconds. */
  datatype ArenaState = ArenaState(
    screen: Screen,
    currentQuestion: nat,
    selectedAnswer: Option<int>,
    correctAnswers: nat,
    timeLeft: nat,
    answerTimes: seq<real>,
    questionStartTime: int,
    isCorrect: bool,
    isTopThree: bool,
    leaderboard: seq<LeaderboardEntry>)

  /** The body posted to save a result. */
  datatype Submission = Submission(
    name: string, correctAnswers: nat, totalQuestions: nat, averageTime: real, instagram: string)

  /** How the request saving a result ended. */
  datatype PostOutcome = Ok | NotOk | Thrown

  /** The state on mounting the screen at time `now`. */
  function Initial(now: int): ArenaState {
    ArenaState(Start, 0, None, 0, SecondsPerQuestion, [], now, false, false, [])
  }

  /** What holds in every state a session reaches: the cursor stays on the bank, one time is
      recorded per answered question, and no more answers are correct than were given. */
  predicate Valid(s: ArenaState) {
    && s.currentQuestion < QuestionCount
    && s.timeLeft <= SecondsPerQuestion
    && s.correctAnswers <= |s.answerTimes| <= QuestionCount
    && (s.screen == Start ==> s.answerTimes == [])
    && (s.screen == Quiz ==> |s.answerTimes| == s.currentQuestion)
    && (s.screen == Feedback ==> |s.answerTimes| == s.currentQuestion + 1)
    && (s.screen == Results || s.screen == NameInput ==> |s.answerTimes| == QuestionCount)
  }

  lemma InitialValid(now: int)
    ensures Valid(Initial(now))
  {
  }

  /** `handleStart`, with the effect that stamps the question's start time. */
  function StartQuiz(s: ArenaState, now: int): (r: ArenaState)
    requires s.screen == Start
    ensures r.screen == Quiz && r.currentQuestion == 0 && r.correctAnswers == 0
    ensures r.timeLeft == SecondsPerQuestion && r.answerTimes == [] && r.questionStartTime == now
    ensures r.selectedAnswer == s.selectedAnswer && r.isTopThree == s.isTopThree
  {
    s.(screen := Quiz, currentQuestion := 0, correctAnswers := 0, timeLeft := SecondsPerQuestion,
       answerTimes := [], questionStartTime := now)
  }

  /** `handleAnswer(i)` at time `now`: an option's index, or -1 for a skip or a timeout. */
  function Answer(s: ArenaState, i: int, now: int): (r: ArenaState)
    requires s.screen == Quiz && s.currentQuestion < QuestionCount && -1 <= i < 4
    ensures r.screen == Feedback && r.selectedAnswer == Some(i)
    ensures r.answerTimes == s.answerTimes + [(now - s.questionStartTime) as real / 1000.0]
    ensures r.isCorrect <==> i == AnswerKey[s.currentQuestion]
    ensures r.correctAnswers == if r.isCorrect then s.correctAnswers + 1 else s.correctAnswers
    ensures r.currentQuestion == s.currentQuestion && r.isTopThree == s.isTopThree
  {
    var correct := i == AnswerKey[s.currentQuestion];
    s.(answerTimes := s.answerTimes + [(now - s.questionStartTime) as real / 1000.0],
       selectedAnswer := Some(i),
       isCorrect := correct,
       correctAnswers := if correct then s.correctAnswers + 1 else s.correctAnswers,
       screen := Feedback)
  }

  /** A skip or a timeout never counts as correct. */
  lemma SkipNeverScores(s: ArenaState, now: int)
    requires s.screen == Quiz && s.currentQuestion < QuestionCount
    ensures !Answer(s, -1, now).isCorrect
    ensures Answer(s, -1, now).correctAnswers == s.correctAnswers
  {
    AnswerKeyInRange();
  }

  /** The countdown effect: on the quiz screen a second passes, and at zero the question is
      answered with -1; on every other screen nothing happens. */
  function Tick(s: ArenaState, now: int): (r: ArenaState)
    requires s.currentQuestion < QuestionCount
    ensures s.screen != Quiz ==> r == s
    ensures s.screen == Quiz && s.timeLeft > 0 ==> r == s.(timeLeft := s.timeLeft - 1)
    ensures s.screen == Quiz && s.timeLeft == 0 ==> r.screen == Feedback && r.selectedAnswer == Some(-1)
  {
    if s.screen == Quiz && s.timeLeft > 0 then s.(timeLeft := s.timeLeft - 1)
    else if s.screen == Quiz then Answer(s, -1, now)
    else s
  }

  /** Ticks at the given times, one after another. */
  function Ticks(s: ArenaState, nows: seq<int>): ArenaState
    requires s.currentQuestion < QuestionCount
    decreases |nows|
  {
    if nows == [] then s else
      var t := Tick(s, nows[0]);
      assert t.currentQuestion == s.currentQuestion;
      Ticks(t, nows[1..])
  }

  /** A question left alone with k seconds on the clock is answered with -1 by the (k+1)-th
      tick, and counts as not correct. */
  lemma {:induction false} UnansweredQuestionTimesOut(s: ArenaState, nows: seq<int>)
    requires s.screen == Quiz && s.currentQuestion < QuestionCount && |nows| == s.timeLeft + 1
    ensures Ticks(s, nows) == Answer(s.(timeLeft := 0), -1, nows[|nows| - 1])
    ensures Ticks(s, nows).correctAnswers == s.correctAnswers
    decreases |nows|
  {
    if s.timeLeft > 0 {
      var t := s.(timeLeft := s.timeLeft - 1);
      UnansweredQuestionTimesOut(t, nows[1..]);
    }
    SkipNeverScores(s.(timeLeft := 0), nows[|nows| - 1]);
  }

  /** The arithmetic mean; the caller makes sure there is something to average. */
  function Mean(xs: seq<real>): real
    requires |xs| > 0
  {
    Sum(xs) / |xs| as real
  }

  /** The mean times the number of values is their sum. */
  lemma MeanTimesCount(xs: seq<real>)
    requires |xs| > 0
    ensures Mean(xs) * |xs| as real == Sum(xs)
  {
    DivideThenMultiply(Sum(xs), |xs| as real);
  }

  /** `reduce((a, b) => a + b, 0)`, adding from the left. */
  function Sum(xs: seq<real>): real
    decreases |xs|
  {
    if xs == [] then 0.0 else Sum(xs[..|xs| - 1]) + xs[|xs| - 1]
  }

  lemma {:induction false} SumBounds(xs: seq<real>, lo: real, hi: real)
    requires forall k :: 0 <= k < |xs| ==> lo <= xs[k] <= hi
    ensures lo * |xs| as real <= Sum(xs) <= hi * |xs| as real
    decreases |xs|
  {
    if xs != [] {
      SumBounds(xs[..|xs| - 1], lo, hi);
    }
  }

  /** The mean lies between any bounds of the values. */
  lemma MeanBounds(xs: seq<real>, lo: real, hi: real)
    requires |xs| > 0
    requires forall k :: 0 <= k < |xs| ==> lo <= xs[k] <= hi
    ensures lo <= Mean(xs) <= hi
  {
    SumBounds(xs, lo, hi);
    MeanTimesCount(xs);
    CancelPositiveAtMost(lo, Mean(xs), |xs| as real);
    CancelPositiveAtMost(Mean(xs), hi, |xs| as real);
  }

  /** `avgAnswerTime` as the results screen shows it: 0 before any answer, else the mean. */
  function AverageAnswerTime(times: seq<real>): (r: real)
    ensures times == [] ==> r == 0.0
    ensures times != [] ==> r * |times| as real == Sum(times)
  {
    if |times| > 0 then MeanTimesCount(times); Mean(times) else 0.0
  }

  /** `successRate` before formatting: the share of the bank answered correctly, in percent. */
  function SuccessRate(correct: nat): (r: real)
    requires correct <= QuestionCount
    ensures 0.0 <= r <= 100.0
    ensures r == 100.0 <==> correct == QuestionCount
    ensures r == 0.0 <==> correct == 0
  {
    correct as real / QuestionCount as real * 100.0
  }

  /** The width of the timer bar in percent: empty with the full time left, full at zero. */
  function TimerBarPercent(timeLeft: nat): (r: real)
    requires timeLeft <= SecondsPerQuestion
    ensures 0.0 <= r <= 100.0
    ensures r == 0.0 <==> timeLeft == SecondsPerQuestion
    ensures r == 100.0 <==> timeLeft == 0
  {
    (SecondsPerQuestion - timeLeft) as real / SecondsPerQuestion as real * 100.0
  }

  /** Each second that passes widens the bar. */
  lemma TimerBarGrows(timeLeft: nat)
    requires 0 < timeLeft <= SecondsPerQuestion
    ensures TimerBarPercent(timeLeft) < TimerBarPercent(timeLeft - 1)
  {
  }

  /** The prediction in `showResults`: fewer than three entries, or more correct answers than
      third place, or as many with a strictly lower average time. With no recorded time the
      average is NaN and the comparison fails. */
  predicate PredictTopThree(correct: int, times: seq<real>, board: seq<LeaderboardEntry>) {
    |board| < 3 ||
    correct > board[2].correctAnswers ||
    (correct == board[2].correctAnswers && |times| > 0 && Mean(times) < board[2].averageTime)
  }

  /** A player with `correct` answers and average `avg` is strictly ahead of entry e. */
  predicate Beats(correct: int, avg: real, e: LeaderboardEntry) {
    correct > e.correctAnswers || (correct == e.correctAnswers && avg < e.averageTime)
  }

  /** Entry a ranks at or above entry b: more correct, or as many and no slower. */
  predicate RanksAtOrAbove(a: LeaderboardEntry, b: LeaderboardEntry) {
    a.correctAnswers > b.correctAnswers ||
    (a.correctAnswers == b.correctAnswers && a.averageTime <= b.averageTime)
  }

  predicate RankedBoard(board: seq<LeaderboardEntry>) {
    forall i, j :: 0 <= i < j < |board| ==> RanksAtOrAbove(board[i], board[j])
  }

  /** How many entries the player does not beat. */
  function CountNotBeaten(correct: int, avg: real, board: seq<LeaderboardEntry>): (r: nat)
    ensures r <= |board|
  {
    if board == [] then 0
    else (if Beats(correct, avg, board[0]) then 0 else 1) + CountNotBeaten(correct, avg, board[1..])
  }

  lemma {:induction false} BeatsAllCountsNone(correct: int, avg: real, board: seq<LeaderboardEntry>)
    requires forall j :: 0 <= j < |board| ==> Beats(correct, avg, board[j])
    ensures CountNotBeaten(correct, avg, board) == 0
  {
    if board != [] {
      BeatsAllCountsNone(correct, avg, board[1..]);
    }
  }

  /** Beating an entry means beating every entry ranked at or below it. */
  lemma BeatsBelow(correct: int, avg: real, a: LeaderboardEntry, b: LeaderboardEntry)
    requires Beats(correct, avg, a) && RanksAtOrAbove(a, b)
    ensures Beats(correct, avg, b)
  {
  }

  /** On a ranked leaderboard the prediction holds exactly when the player beats all but at most
      two entries, that is, when the player would rank in the first three. */
  lemma PredictionMeansTopThree(correct: int, times: seq<real>, board: seq<LeaderboardEntry>)
    requires |times| > 0 && RankedBoard(board)
    ensures PredictTopThree(correct, times, board) <==> CountNotBeaten(correct, Mean(times), board) < 3
  {
    var avg := Mean(times);
    if |board| >= 3 {
      var rest := board[3..];
      assert board[1..][1..][1..] == rest;
      assert board[1..][0] == board[1] && board[1..][1..][0] == board[2];
      var b0 := if Beats(correct, avg, board[0]) then 0 else 1;
      var b1 := if Beats(correct, avg, board[1]) then 0 else 1;
      var b2 := if Beats(correct, avg, board[2]) then 0 else 1;
      assert CountNotBeaten(correct, avg, board[1..][1..]) == b2 + CountNotBeaten(correct, avg, rest);
      assert CountNotBeaten(correct, avg, board[1..]) == b1 + b2 + CountNotBeaten(correct, avg, rest);
      assert CountNotBeaten(correct, avg, board) == b0 + b1 + b2 + CountNotBeaten(correct, avg, rest);
      if Beats(correct, avg, board[2]) {
        forall j | 0 <= j < |rest| ensures Beats(correct, avg, rest[j]) {
          BeatsBelow(correct, avg, board[2], board[j + 3]);
        }
        BeatsAllCountsNone(correct, avg, rest);
      } else {
        if Beats(correct, avg, board[0]) {
          BeatsBelow(correct, avg, board[0], board[2]);
        }
        if Beats(correct, avg, board[1]) {
          BeatsBelow(correct, avg, board[1], board[2]);
        }
      }
    }
  }

  /** The results step of `showResults`: the prediction against the fetched leaderboard only
      ever sets the flag; a failed fetch leaves it as it was. */
  function ShowResults(s: ArenaState, fetched: Option<seq<LeaderboardEntry>>): (r: ArenaState)
    ensures r.screen == Results
    ensures r.isTopThree <==> s.isTopThree || (fetched.Some? && PredictTopThree(s.correctAnswers, s.answerTimes, fetched.value))
    ensures r.answerTimes == s.answerTimes && r.correctAnswers == s.correctAnswers
  {
    s.(screen := Results,
       isTopThree := s.isTopThree || (fetched.Some? && PredictTopThree(s.correctAnswers, s.answerTimes, fetched.value)))
  }

  /** The callback two seconds after an answer: the next question with a fresh clock, or after
      the last one the results, judged on every answer given. */
  function Advance(s: ArenaState, now: int, fetched: Option<seq<LeaderboardEntry>>): (r: ArenaState)
    requires s.screen == Feedback
    ensures s.currentQuestion < QuestionCount - 1 ==>
      r == s.(currentQuestion := s.currentQuestion + 1, timeLeft := SecondsPerQuestion,
              selectedAnswer := None, screen := Quiz, questionStartTime := now)
    ensures s.currentQuestion >= QuestionCount - 1 ==> r == ShowResults(s, fetched)
  {
    if s.currentQuestion < QuestionCount - 1 then
      s.(currentQuestion := s.currentQuestion + 1, timeLeft := SecondsPerQuestion,
         selectedAnswer := None, screen := Quiz, questionStartTime := now)
    else ShowResults(s, fetched)
  }

  /** The continue button on the results screen. */
  function ContinueToNameInput(s: ArenaState): (r: ArenaState)
    requires s.screen == Results
    ensures r == s.(screen := NameInput)
  {
    s.(screen := NameInput)
  }

  /** "Show leaderboard" on the start screen and "Skip" on the name input: the leaderboard is
      fetched (a failed fetch keeps the old one) and shown. */
  function ShowLeaderboard(s: ArenaState, fetched: Option<seq<LeaderboardEntry>>): (r: ArenaState)
    requires s.screen == Start || s.screen == NameInput
    ensures r.screen == Leaderboard
    ensures r.leaderboard == if fetched.Some? then fetched.value else s.leaderboard
    ensures r.answerTimes == s.answerTimes && r.correctAnswers == s.correctAnswers
  {
    s.(leaderboard := fetched.GetOr(s.leaderboard), screen := Leaderboard)
  }

  /** The body `handleSubmitName` posts, or nothing when the trimmed name is blank. */
  function SubmissionFor(s: ArenaState, name: string, instagram: string): (r: Option<Submission>)
    requires |s.answerTimes| > 0
    ensures r.None? <==> Trim(name) == []
    ensures r.Some? ==> r.value.name == Trim(name) && r.value.instagram == Trim(instagram)
    ensures r.Some? ==> r.value.correctAnswers == s.correctAnswers && r.value.totalQuestions == QuestionCount
    ensures r.Some? ==> r.value.averageTime == AverageAnswerTime(s.answerTimes)
  {
    if Trim(name) == [] then None
    else Some(Submission(Trim(name), s.correctAnswers, QuestionCount, Mean(s.answerTimes), Trim(instagram)))
  }

  /** The state after `handleSubmitName`: only a successful post moves on to the leaderboard. */
  function AfterSubmit(s: ArenaState, name: string, outcome: PostOutcome,
                       fetched: Option<seq<LeaderboardEntry>>): (r: ArenaState)
    requires s.screen == NameInput
    ensures r != s ==> Trim(name) != [] && outcome == Ok
    ensures Trim(name) != [] && outcome == Ok ==> r == ShowLeaderboard(s, fetched)
  {
    if Trim(name) != [] && outcome == Ok then ShowLeaderboard(s, fetched) else s
  }

  /** Every handler keeps the session's invariant. */
  lemma StepsKeepValid(s: ArenaState, i: int, now: int, fetched: Option<seq<LeaderboardEntry>>,
                       name: string, outcome: PostOutcome)
    requires Valid(s)
    ensures s.screen == Start ==> Valid(StartQuiz(s, now))
    ensures s.screen == Quiz && -1 <= i < 4 ==> Valid(Answer(s, i, now))
    ensures Valid(Tick(s, now))
    ensures s.screen == Feedback ==> Valid(Advance(s, now, fetched))
    ensures s.screen == Results ==> Valid(ContinueToNameInput(s))
    ensures s.screen == Start || s.screen == NameInput ==> Valid(ShowLeaderboard(s, fetched))
    ensures s.screen == NameInput ==> Valid(AfterSubmit(s, name, outcome, fetched))
  {
  }

  /** On the results and name-input screens every question has its time recorded. */
  lemma FinishedSessionHasAllTimes(s: ArenaState)
    requires Valid(s) && (s.screen == Results || s.screen == NameInput)
    ensures |s.answerTimes| == |Bank| && s.correctAnswers <= |Bank|
  {
    AnswerKeyMatchesBank();
  }

  /** `handleAnswer` followed by its callback AS WRITTEN: the callback was created in the render
      before the answer, so on the last question `showResults` reads the count and the times as
      they were before this answer. */
  function AnswerAndAdvanceAsWritten(s: ArenaState, i: int, answeredAt: int, advancedAt: int,
                                     fetched: Option<seq<LeaderboardEntry>>): ArenaState
    requires s.screen == Quiz && s.currentQuestion < QuestionCount && -1 <= i < 4
  {
    var a := Answer(s, i, answeredAt);
    if s.currentQuestion < QuestionCount - 1 then Advance(a, advancedAt, fetched)
    else a.(screen := Results,
            isTopThree := a.isTopThree || (fetched.Some? && PredictTopThree(s.correctAnswers, s.answerTimes, fetched.value)))
  }

  /** Before the last question the written callback and the intended one agree. */
  lemma AsWrittenAgreesBeforeLastQuestion(s: ArenaState, i: int, answeredAt: int, advancedAt: int,
                                          fetched: Option<seq<LeaderboardEntry>>)
    requires s.screen == Quiz && s.currentQuestion < QuestionCount - 1 && -1 <= i < 4
    ensures AnswerAndAdvanceAsWritten(s, i, answeredAt, advancedAt, fetched)
         == Advance(Answer(s, i, answeredAt), advancedAt, fetched)
  {
  }

  /** A player who answers all sixteen questions correctly, two seconds each, against a third
      place with fifteen correct at one second: the written callback predicts no top-3 place,
      though the player is ahead of third place. */
  lemma StalePredictionMissesTopThree()
    ensures var s := ArenaState(Quiz, 15, None, 15, 0, seq(15, _ => 2.0), 0, true, false, []);
      var third := LeaderboardEntry(3, "third", 15, 16, 1.0);
      var board := [third, third, third];
      && !AnswerAndAdvanceAsWritten(s, 3, 2000, 4000, Some(board)).isTopThree
      && Advance(Answer(s, 3, 2000), 4000, Some(board)).isTopThree
  {
    var s := ArenaState(Quiz, 15, None, 15, 0, seq(15, _ => 2.0), 0, true, false, []);
    MeanBounds(s.answerTimes, 2.0, 2.0);
  }

  /** The screen component: its state cells, updated in place by the handlers. */
  class ArenaScreen {
    var screen: Screen
    var currentQuestion: nat
    var selectedAnswer: Option<int>
    var correctAnswers: nat
    var timeLeft: nat
    var answerTimes: seq<real>
    var questionStartTime: int
    var isCorrect: bool
    var isTopThree: bool
    var leaderboard: seq<LeaderboardEntry>

    function State(): ArenaState
      reads this
    {
      ArenaState(screen, currentQuestion, selectedAnswer, correctAnswers, timeLeft, answerTimes,
                 questionStartTime, isCorrect, isTopThree, leaderboard)
    }

    constructor(now: int)
      ensures State() == Initial(now) && Valid(State())
    {
      screen := Start;
      currentQuestion := 0;
      selectedAnswer := None;
      correctAnswers := 0;
      timeLeft := SecondsPerQuestion;
      answerTimes := [];
      questionStartTime := now;
      isCorrect := false;
      isTopThree := false;
      leaderboard := [];
    }

    method HandleStart(now: int)
      requires Valid(State()) && screen == Start
      modifies this
      ensures State() == StartQuiz(old(State()), now) && Valid(State())
    {
      screen := Quiz;
      currentQuestion := 0;
      correctAnswers := 0;
      timeLeft := SecondsPerQuestion;
      answerTimes := [];
      questionStartTime := now;
    }

    /** An option button (0 to 3), or the skip button and the timeout (-1). */
    method HandleAnswer(i: int, now: int)
      requires Valid(State()) && screen == Quiz && -1 <= i < 4
      modifies this
      ensures State() == Answer(old(State()), i, now) && Valid(State())
    {
      ghost var before := State();
      var timeTaken := (now - questionStartTime) as real / 1000.0;
      answerTimes := answerTimes + [timeTaken];
      selectedAnswer := Some(i);
      var correct := i == AnswerKey[currentQuestion];
      isCorrect := correct;
      if correct {
        correctAnswers := correctAnswers + 1;
      }
      screen := Feedback;
    }

    /** One run of the countdown effect. */
    method TimerEffect(now: int)
      requires Valid(State())
      modifies this
      ensures State() == Tick(old(State()), now) && Valid(State())
    {
      ghost var before := State();
      if screen == Quiz && timeLeft > 0 {
        timeLeft := timeLeft - 1;
      } else if screen == Quiz {
        HandleAnswer(-1, now);
      }
      StepsKeepValid(before, -1, now, None, "", Ok);
    }

    /** The callback two seconds after an answer, with the leaderboard `showResults` fetches. */
    method AdvanceAfterFeedback(now: int, fetched: Option<seq<LeaderboardEntry>>)
      requires Valid(State()) && screen == Feedback
      modifies this
      ensures State() == Advance(old(State()), now, fetched) && Valid(State())
    {
      ghost var before := State();
      if currentQuestion < QuestionCount - 1 {
        currentQuestion := currentQuestion + 1;
        timeLeft := SecondsPerQuestion;
        selectedAnswer := None;
        screen := Quiz;
        questionStartTime := now;
      } else {
        screen := Results;
        match fetched {
          case Some(board) =>
            if PredictTopThree(correctAnswers, answerTimes, board) {
              isTopThree := true;
            }
          case None =>
        }
      }
      StepsKeepValid(before, -1, now, fetched, "", Ok);
    }

    method Continue()
      requires Valid(State()) && screen == Results
      modifies this
      ensures State() == ContinueToNameInput(old(State())) && Valid(State())
    {
      screen := NameInput;
    }

    method OpenLeaderboard(fetched: Option<seq<LeaderboardEntry>>)
      requires Valid(State()) && (screen == Start || screen == NameInput)
      modifies this
      ensures State() == ShowLeaderboard(old(State()), fetched) && Valid(State())
    {
      if fetched.Some? {
        leaderboard := fetched.value;
      }
      screen := Leaderboard;
    }

    /** `handleSubmitName` with the typed name and handle; returns the body it posts. */
    method HandleSubmitName(name: string, instagram: string, outcome: PostOutcome,
                            fetched: Option<seq<LeaderboardEntry>>) returns (sent: Option<Submission>)
      requires Valid(State()) && screen == NameInput
      modifies this
      ensures sent == SubmissionFor(old(State()), name, instagram)
      ensures State() == AfterSubmit(old(State()), name, outcome, fetched) && Valid(State())
    {
      ghost var before := State();
      var trimmed := Trim(name);
      if trimmed == [] {
        return None;
      }
      var avgTime := Sum(answerTimes) / |answerTimes| as real;
      sent := Some(Submission(trimmed, correctAnswers, QuestionCount, avgTime, Trim(instagram)));
      if outcome == Ok {
        OpenLeaderboard(fetched);
      }
      StepsKeepValid(before, -1, 0, fetched, name, outcome);
    }
  }
}
