/**
 * The untimed quiz: a cursor over ten questions, one selected option per question kept in a
 * JavaScript array that may grow with holes, the score and its percentage, the guarded finish
 * that posts the score, the restart, and the feedback line picked by the percentage.
 */
module Quiz {
  import opened Wrappers
  import opened Translations

  datatype QuizQuestion = QuizQuestion(
    questionCs: string, questionEn: string,
    optionsCs: seq<string>, optionsEn: seq<string>,
    correctIndex: int)

  /** `QUIZ_QUESTIONS`. */
  const QuizBank: seq<QuizQuestion> := [
    QuizQuestion(
      "Jaká jednotka měří elektrický odpor?",
      "Which unit measures electrical resistance?",
      ["Volt", "Ampér", "Ohm", "Watt"],
      ["Volt", "Ampere", "Ohm", "Watt"],
      2),
    QuizQuestion(
      "Co se stane, když připojíte LED diodu obráceně?",
      "What happens if you connect an LED backwards?",
      ["Vybuchne", "Svítí jasněji", "Nebude svítit", "Bude blikat"],
      ["It explodes", "Shines brighter", "Won't light up", "Will blink"],
      2),
    QuizQuestion(
      "Tři baterie 1,5 V zapojené v sérii dají dohromady kolik voltů?",
      "Three 1.5 V batteries in series give how many volts?",
      ["1,5 V", "3 V", "4,5 V", "6 V"],
      ["1.5 V", "3 V", "4.5 V", "6 V"],
      2),
    QuizQuestion(
      "Který prvek se nejvíce používá v polovodičích?",
      "Which element is most used in semiconductors?",
      ["Měď", "Křemík", "Zlato", "Uhlík"],
      ["Copper", "Silicon", "Gold", "Carbon"],
      1),
    QuizQuestion(
      "Jaký je klíčový rozdíl mezi SSD a HDD?",
      "What's the key difference between SSD and HDD?",
      ["SSD je levnější", "SSD má větší kapacitu", "SSD je rychlejší a nemá pohyblivé části", "HDD je rychlejší"],
      ["SSD is cheaper", "SSD has larger capacity", "SSD is faster and has no moving parts", "HDD is faster"],
      2),
    QuizQuestion(
      "V sériovém obvodu, když se rozbije jedna žárovka, ostatní...",
      "In a series circuit, if one bulb breaks, the others...",
      ["Zhasnou", "Svítí dál", "Svítí jasněji", "Blikají"],
      ["Turn off", "Keep shining", "Shine brighter", "Blink"],
      0),
    QuizQuestion(
      "Co dělá tranzistor?",
      "What does a transistor do?",
      ["Ukládá energii", "Zesiluje nebo spíná signál", "Měří teplotu", "Generuje světlo"],
      ["Stores energy", "Amplifies or switches a signal", "Measures temperature", "Generates light"],
      1),
    QuizQuestion(
      "Kolik bitů je v jednom bajtu?",
      "How many bits are in one byte?",
      ["4", "8", "16", "32"],
      ["4", "8", "16", "32"],
      1),
    QuizQuestion(
      "Zvýšení impedance sluchátek znamená...",
      "Increasing headphone impedance means...",
      ["Horší kvalita zvuku", "Potřebuje více energie pro stejnou hlasitost", "Levnější sluchátka", "Automatické vypnutí"],
      ["Worse sound quality", "Needs more power for same volume", "Cheaper headphones", "Automatic shutdown"],
      1),
    QuizQuestion(
      "Pokud se napětí zdvojnásobí, ale odpor zůstane stejný, proud...",
      "If voltage doubles but resistance stays the same, current...",
      ["Zůstane stejný", "Zdvojnásobí se", "Sníží se na polovinu", "Ztrojnásobí se"],
      ["Stays the same", "Doubles", "Halves", "Triples"],
      1)
  ]

  /** The bank holds ten questions of four options, and each correct index names one of them. */
  lemma QuizBankWellFormed()
    ensures |QuizBank| == 10
    ensures forall k :: 0 <= k < |QuizBank| ==>
      |QuizBank[k].optionsCs| == 4 && |QuizBank[k].optionsEn| == 4 && 0 <= QuizBank[k].correctIndex < 4
  {
  }

  /** `QUIZ_QUESTIONS.length`. */
  const QuizLength: nat := 10

  /** The bank's correct indices in order, the column the score is counted against. */
  const QuizAnswerKey: seq<int> := [2, 2, 2, 1, 2, 0, 1, 1, 1, 1]

  /** The length and the answer key are the bank's own, question by question. */
  lemma QuizAnswerKeyMatchesBank()
    ensures |QuizBank| == QuizLength == |QuizAnswerKey|
    ensures forall k :: 0 <= k < |QuizBank| ==> QuizAnswerKey[k] == QuizBank[k].correctIndex
  {
  }

  /** The screen's state cells. A hole in the answers array reads as `undefined` (None). */
  datatype QuizState = QuizState(
    currentQuestion: nat,
    selectedAnswers: seq<Option<int>>,
    showResults: bool,
    submitting: bool,
    percentile: real,
    showCorrectAnswers: bool)

  function Initial(): QuizState {
    QuizState(0, [], false, false, 0.0, false)
  }

  /** `arr[i] = v` on a JavaScript array: past the end the array grows, with holes before i. */
  function SetAt(a: seq<Option<int>>, i: nat, v: int): (r: seq<Option<int>>)
    ensures |r| == if i < |a| then |a| else i + 1
    ensures r[i] == Some(v)
    ensures forall k :: 0 <= k < |a| && k != i ==> r[k] == a[k]
    ensures forall k :: |a| <= k < |r| && k != i ==> r[k] == None
  {
    if i < |a| then a[i := Some(v)] else a + seq(i - |a|, _ => None) + [Some(v)]
  }

  /** Question k has an answer. */
  predicate Answered(a: seq<Option<int>>, k: int) {
    0 <= k < |a| && a[k].Some?
  }

  /** What holds in every state the screen reaches: the cursor stays on the bank, every question
      up to the cursor's answers array is answered (so the array has no holes), every answer is
      one of four options, and the results never show while a request is pending. */
  predicate Valid(s: QuizState) {
    && s.currentQuestion < QuizLength
    && s.currentQuestion <= |s.selectedAnswers| <= QuizLength
    && (forall k :: 0 <= k < |s.selectedAnswers| ==>
          s.selectedAnswers[k].Some? && 0 <= s.selectedAnswers[k].value < 4)
    && (s.showResults ==> !s.submitting)
  }

  lemma InitialValid()
    ensures Valid(Initial())
  {
  }

  /** `handleSelectAnswer(index)`: only the current question's entry changes. */
  function SelectAnswer(s: QuizState, index: int): (r: QuizState)
    ensures r.selectedAnswers == SetAt(s.selectedAnswers, s.currentQuestion, index)
    ensures r.(selectedAnswers := s.selectedAnswers) == s
  {
    s.(selectedAnswers := SetAt(s.selectedAnswers, s.currentQuestion, index))
  }

  /** Selecting leaves every other question's answer as it was and records this one. */
  lemma SelectChangesOnlyCurrent(s: QuizState, index: int)
    requires Valid(s) && 0 <= index < 4
    ensures var a := SelectAnswer(s, index).selectedAnswers;
      && a[s.currentQuestion] == Some(index)
      && (forall k :: 0 <= k < |s.selectedAnswers| && k != s.currentQuestion ==> a[k] == s.selectedAnswers[k])
      && |a| == if s.currentQuestion < |s.selectedAnswers| then |s.selectedAnswers| else |s.selectedAnswers| + 1
  {
  }

  /** The next button is enabled once the current question has an answer. */
  predicate NextEnabled(s: QuizState) {
    Answered(s.selectedAnswers, s.currentQuestion)
  }

  /** `handleNext`: moves only while below the last question. */
  function Next(s: QuizState): (r: QuizState)
    ensures s.currentQuestion < QuizLength - 1 ==> r.currentQuestion == s.currentQuestion + 1
    ensures s.currentQuestion >= QuizLength - 1 ==> r == s
    ensures r.selectedAnswers == s.selectedAnswers
  {
    if s.currentQuestion < QuizLength - 1 then s.(currentQuestion := s.currentQuestion + 1) else s
  }

  /** `handlePrevious`: moves only while above the first question. */
  function Previous(s: QuizState): (r: QuizState)
    ensures s.currentQuestion > 0 ==> r.currentQuestion == s.currentQuestion - 1
    ensures s.currentQuestion == 0 ==> r == s
    ensures r.selectedAnswers == s.selectedAnswers
  {
    if s.currentQuestion > 0 then s.(currentQuestion := s.currentQuestion - 1) else s
  }

  /** The finish button replaces the next button on the last question only, and is enabled when
      no request is pending and every question is answered. */
  predicate FinishEnabled(s: QuizState) {
    !s.showResults && !s.submitting && s.currentQuestion == QuizLength - 1
    && |s.selectedAnswers| >= QuizLength
  }

  /** The answers counted by `calculateScore`: entries equal to their question's correct index
      (the loop skips holes). */
  function CountCorrect(a: seq<Option<int>>): (r: nat)
    requires |a| <= QuizLength
    ensures r <= |a|
    decreases |a|
  {
    if a == [] then 0
    else CountCorrect(a[..|a| - 1]) + (if a[|a| - 1] == Some(QuizAnswerKey[|a| - 1]) then 1 else 0)
  }

  /** `Math.round(x)`: the nearest integer, halves rounding up. */
  function Round(x: real): int {
    (x + 0.5).Floor
  }

  /** `Math.round((correct / QUIZ_QUESTIONS.length) * 100)`. */
  function Percentage(correct: nat): (r: int)
    requires correct <= QuizLength
    ensures r == 10 * correct
    ensures 0 <= r <= 100
  {
    assert correct as real / QuizLength as real * 100.0 == (10 * correct) as real;
    Round(correct as real / QuizLength as real * 100.0)
  }

  /** With every answer correct the percentage is 100, with none it is 0. */
  lemma PercentageExtremes(a: seq<Option<int>>)
    requires |a| == QuizLength
    ensures Percentage(CountCorrect(a)) == 100 <==> forall k :: 0 <= k < |a| ==> a[k] == Some(QuizAnswerKey[k])
  {
    CountAllCorrect(a);
  }

  lemma {:induction false} CountAllCorrect(a: seq<Option<int>>)
    requires |a| <= QuizLength
    ensures CountCorrect(a) == |a| <==> forall k :: 0 <= k < |a| ==> a[k] == Some(QuizAnswerKey[k])
    decreases |a|
  {
    if a != [] {
      var p := a[..|a| - 1];
      CountAllCorrect(p);
      assert forall k :: 0 <= k < |p| ==> p[k] == a[k];
    }
  }

  /** The body `handleFinish` posts. */
  datatype ScoreSubmission = ScoreSubmission(score: int, totalQuestions: nat, correctAnswers: nat)

  /** How the post in `handleFinish` ended: an OK response with the server's percentile, a
      response that was not OK, or a thrown error. */
  datatype FinishOutcome = OkWith(percentile: real) | NotOkResponse | Failed

  /** `handleFinish` up to its request: the flag goes up and the score is computed. */
  function BeginFinish(s: QuizState): (r: (QuizState, ScoreSubmission))
    requires |s.selectedAnswers| <= QuizLength
    ensures r.0 == s.(submitting := true)
    ensures r.1.correctAnswers == CountCorrect(s.selectedAnswers) && r.1.totalQuestions == 10
    ensures r.1.score == 10 * r.1.correctAnswers
  {
    var correct := CountCorrect(s.selectedAnswers);
    (s.(submitting := true), ScoreSubmission(Percentage(correct), QuizLength, correct))
  }

  /** The rest of `handleFinish`: on every path the flag drops and the results show; the
      percentile changes only on an OK response. */
  function CompleteFinish(s: QuizState, outcome: FinishOutcome): (r: QuizState)
    ensures !r.submitting && r.showResults
    ensures r.percentile == if outcome.OkWith? then outcome.percentile else s.percentile
    ensures r.currentQuestion == s.currentQuestion && r.selectedAnswers == s.selectedAnswers
  {
    var p := if outcome.OkWith? then outcome.percentile else s.percentile;
    s.(percentile := p, submitting := false, showResults := true)
  }

  /** `handleRestart`. */
  function Restart(s: QuizState): (r: QuizState)
    ensures r.currentQuestion == 0 && r.selectedAnswers == [] && !r.showResults
    ensures !r.showCorrectAnswers && r.percentile == 0.0 && r.submitting == s.submitting
  {
    s.(currentQuestion := 0, selectedAnswers := [], showResults := false,
       showCorrectAnswers := false, percentile := 0.0)
  }

  /** From the results screen a restart is back at the very first state. */
  lemma RestartIsInitial(s: QuizState)
    requires Valid(s) && s.showResults
    ensures Restart(s) == Initial()
  {
  }

  /** The show-answers button. */
  function ToggleCorrectAnswers(s: QuizState): (r: QuizState)
    ensures r.showCorrectAnswers != s.showCorrectAnswers
    ensures r.(showCorrectAnswers := s.showCorrectAnswers) == s
  {
    s.(showCorrectAnswers := !s.showCorrectAnswers)
  }

  /** Every handler, behind the guard of its button, keeps the screen's invariant. */
  lemma StepsKeepValid(s: QuizState, index: int, outcome: FinishOutcome)
    requires Valid(s)
    ensures !s.showResults && 0 <= index < 4 ==> Valid(SelectAnswer(s, index))
    ensures NextEnabled(s) ==> Valid(Next(s))
    ensures Valid(Previous(s))
    ensures FinishEnabled(s) ==> Valid(BeginFinish(s).0)
    ensures s.submitting ==> Valid(CompleteFinish(s, outcome))
    ensures s.showResults ==> Valid(Restart(s))
    ensures Valid(ToggleCorrectAnswers(s))
  {
  }

  /** Once the finish button is enabled every question has an answer. */
  lemma FinishMeansAllAnswered(s: QuizState)
    requires Valid(s) && FinishEnabled(s)
    ensures |s.selectedAnswers| == 10
    ensures forall k :: 0 <= k < 10 ==> Answered(s.selectedAnswers, k)
  {
  }

  /** The translation key `getFeedbackMessage` looks up. */
  function FeedbackKey(percentage: int): (r: string)
    ensures r == "excellent" <==> percentage >= 80
    ensures r == "goodJob" <==> 60 <= percentage < 80
    ensures r == "tryAgain" <==> percentage < 60
  {
    if percentage >= 80 then "excellent"
    else if percentage >= 60 then "goodJob"
    else "tryAgain"
  }

  /** `getFeedbackMessage(percentage)` in language `lang`. */
  function FeedbackMessage(lang: Language, percentage: int): string {
    Translate(lang, FeedbackKey(percentage))
  }

  /** None of the three keys is in the tables, so the line shows the bare key in both languages. */
  lemma FeedbackShowsBareKey(lang: Language, percentage: int)
    ensures FeedbackMessage(lang, percentage) == FeedbackKey(percentage)
  {
    UntranslatedKeysEchoed(lang, FeedbackKey(percentage));
  }

  /** A higher score never gets a lower band. */
  lemma FeedbackBandsOrdered(p: int, q: int)
    requires p <= q
    ensures FeedbackKey(p) == "excellent" ==> FeedbackKey(q) == "excellent"
    ensures FeedbackKey(q) == "tryAgain" ==> FeedbackKey(p) == "tryAgain"
  {
  }

  /** The screen component: its state cells, updated in place by the handlers. */
  class QuizScreen {
    var currentQuestion: nat
    var selectedAnswers: seq<Option<int>>
    var showResults: bool
    var submitting: bool
    var percentile: real
    var showCorrectAnswers: bool

    function State(): QuizState
      reads this
    {
      QuizState(currentQuestion, selectedAnswers, showResults, submitting, percentile, showCorrectAnswers)
    }

    constructor()
      ensures State() == Initial() && Valid(State())
    {
      currentQuestion := 0;
      selectedAnswers := [];
      showResults := false;
      submitting := false;
      percentile := 0.0;
      showCorrectAnswers := false;
    }

    /** An option button of the current question. */
    method HandleSelectAnswer(index: int)
      requires Valid(State()) && !showResults && 0 <= index < 4
      modifies this
      ensures State() == SelectAnswer(old(State()), index) && Valid(State())
    {
      ghost var before := State();
      var newAnswers := selectedAnswers;
      if currentQuestion < |newAnswers| {
        newAnswers := newAnswers[currentQuestion := Some(index)];
      } else {
        newAnswers := newAnswers + seq(currentQuestion - |newAnswers|, _ => None) + [Some(index)];
      }
      selectedAnswers := newAnswers;
      StepsKeepValid(before, index, Failed);
    }

    method HandleNext()
      requires Valid(State()) && NextEnabled(State())
      modifies this
      ensures State() == Next(old(State())) && Valid(State())
    {
      ghost var before := State();
      if currentQuestion < QuizLength - 1 {
        currentQuestion := currentQuestion + 1;
      }
      StepsKeepValid(before, 0, Failed);
    }

    method HandlePrevious()
      requires Valid(State())
      modifies this
      ensures State() == Previous(old(State())) && Valid(State())
    {
      ghost var before := State();
      if currentQuestion > 0 {
        currentQuestion := currentQuestion - 1;
      }
      StepsKeepValid(before, 0, Failed);
    }

    /** `calculateScore`: the loop over the answers, skipping holes. */
    method CalculateScore() returns (correct: nat, percentage: int)
      requires |selectedAnswers| <= QuizLength
      ensures correct == CountCorrect(selectedAnswers) && correct <= |selectedAnswers|
      ensures percentage == Percentage(correct)
    {
      correct := 0;
      var i := 0;
      while i < |selectedAnswers|
        invariant 0 <= i <= |selectedAnswers|
        invariant correct == CountCorrect(selectedAnswers[..i])
      {
        assert selectedAnswers[..i + 1][..i] == selectedAnswers[..i];
        if selectedAnswers[i].Some? && selectedAnswers[i].value == QuizAnswerKey[i] {
          correct := correct + 1;
        }
        i := i + 1;
      }
      assert selectedAnswers[..i] == selectedAnswers;
      percentage := Round(correct as real / QuizLength as real * 100.0);
    }

    /** `handleFinish` up to its request; returns the body it posts. */
    method BeginHandleFinish() returns (body: ScoreSubmission)
      requires Valid(State()) && FinishEnabled(State())
      modifies this
      ensures (State(), body) == BeginFinish(old(State())) && Valid(State())
    {
      ghost var before := State();
      submitting := true;
      var correct, percentage := CalculateScore();
      body := ScoreSubmission(percentage, QuizLength, correct);
      StepsKeepValid(before, 0, Failed);
    }

    /** The rest of `handleFinish`, once the request has ended. */
    method CompleteHandleFinish(outcome: FinishOutcome)
      requires Valid(State()) && submitting
      modifies this
      ensures State() == CompleteFinish(old(State()), outcome) && Valid(State())
    {
      ghost var before := State();
      if outcome.OkWith? {
        percentile := outcome.percentile;
      }
      submitting := false;
      showResults := true;
      StepsKeepValid(before, 0, outcome);
    }

    method HandleRestart()
      requires Valid(State()) && showResults
      modifies this
      ensures State() == Restart(old(State())) && State() == Initial()
    {
      ghost var before := State();
      currentQuestion := 0;
      selectedAnswers := [];
      showResults := false;
      showCorrectAnswers := false;
      percentile := 0.0;
      RestartIsInitial(before);
    }

    method ToggleAnswers()
      requires Valid(State())
      modifies this
      ensures State() == ToggleCorrectAnswers(old(State())) && Valid(State())
    {
      showCorrectAnswers := !showCorrectAnswers;
    }
  }
}
