/**
 * The two-question quiz. Answers are kept per question index; a "Tile"
 * roof can be refined to one of five tile kinds, stored as the compound
 * answer "Tile - <kind>". After the last question the answers are saved
 * remotely when a customer exists, and committed unless the call throws.
 */
module Quiz {
  import opened Wrappers
  import opened Text
  import opened Forms
  import opened Remote
  import opened Index

  datatype Question = Question(question: string, subtext: Option<string>,
                               options: seq<string>, tileOptions: seq<string>)

  const TileOption := "Tile"
  const TilePrefix := "Tile - "

  const TileKinds: seq<string> :=
    ["Clay", "Concrete", "Spanish / S-tile", "Flat Tile", "Lightweight Composite"]

  /** The `questions` table. */
  const Questions: seq<Question> := [
    Question("Do you own your home?", None,
             ["Yes, I own my home", "yes, my spouse/relative owns the home",
              "No, I rent", "I'm in the process of buying"],
             []),
    Question("What type of roof do you have?",
             Some("Select the closest match below. If your roof is tile, please select the specific type:"),
             ["Shingle / Asphalt (most common in SoCal, easy for solar installs)",
              "Tile",
              "Metal (standing seam or corrugated)",
              "Flat / Other (e.g., TPO, tar & gravel, foam)",
              "I don't know"],
             TileKinds)
  ]

  const LastQuestion := |Questions| - 1

  /** The stored answer for a tile kind. */
  function TileAnswer(kind: string): (a: string)
    ensures |a| == |TilePrefix| + |kind|
    ensures StartsWith(a, TilePrefix) && a[|TilePrefix|..] == kind
  {
    TilePrefix + kind
  }

  /** Distinct kinds are stored as distinct answers. */
  lemma TileAnswerInjective(kind1: string, kind2: string)
    requires TileAnswer(kind1) == TileAnswer(kind2)
    ensures kind1 == kind2
  {
    assert kind1 == TileAnswer(kind1)[|TilePrefix|..];
  }

  /** `isTileSelected`: the bare "Tile" option or any compound tile answer. */
  predicate IsTileSelected(answer: string) {
    answer == TileOption || StartsWith(answer, TilePrefix)
  }

  /** The radio group's value: a compound tile answer shows as "Tile". */
  function RadioValue(answer: string): (v: string)
    ensures StartsWith(answer, TilePrefix) ==> v == TileOption
    ensures !StartsWith(answer, TilePrefix) ==> v == answer
  {
    if StartsWith(answer, TilePrefix) then TileOption else answer
  }

  /** The radio group shows "Tile" exactly when a tile answer is selected. */
  lemma RadioShowsTileIffTileSelected(answer: string)
    ensures RadioValue(answer) == TileOption <==> IsTileSelected(answer)
  {
  }

  /** The tile kinds are distinct, so at most one tile radio is checked. */
  lemma AtMostOneKindChecked(answer: string, i: int, j: int)
    requires 0 <= i < |TileKinds| && 0 <= j < |TileKinds|
    requires answer == TileAnswer(TileKinds[i]) && answer == TileAnswer(TileKinds[j])
    ensures i == j
  {
    TileAnswerInjective(TileKinds[i], TileKinds[j]);
  }

  /** The tile kinds are listed under the "Tile" option of a question while
      a tile answer is selected; `showTileOptions` plays no part. */
  predicate KindsListed(answers: map<int, string>, q: int)
    requires 0 <= q < |Questions|
  {
    TileOption in Questions[q].options && IsTileSelected(CurrentAnswer(answers, q))
  }

  /** The chevron beside "Tile" points up while a tile answer is selected and
      `showTileOptions` is set, and down otherwise. */
  predicate ChevronUp(answers: map<int, string>, q: int, showTileOptions: bool)
    requires 0 <= q < |Questions|
  {
    TileOption in Questions[q].options && IsTileSelected(CurrentAnswer(answers, q)) && showTileOptions
  }

  /** Only the roof question offers "Tile", so the kinds are listed exactly
      on that question while a tile answer is selected, whatever the flag
      says; the flag only turns the chevron up over a listed set of kinds. */
  lemma KindsListedIffTileSelected(answers: map<int, string>, q: int, showTileOptions: bool)
    requires 0 <= q < |Questions|
    ensures KindsListed(answers, q) <==> q == 1 && IsTileSelected(CurrentAnswer(answers, q))
    ensures ChevronUp(answers, q, showTileOptions) <==> KindsListed(answers, q) && showTileOptions
  {
    if q == 0 {
      var opts := Questions[0].options;
      assert forall i :: 0 <= i < |opts| ==> opts[i][0] != TileOption[0];
      assert TileOption !in opts;
    } else {
      assert Questions[1].options[1] == TileOption;
    }
  }

  /** `answers[currentQuestion] || ''`. */
  function CurrentAnswer(answers: map<int, string>, q: int): (a: string)
    ensures q in answers ==> a == answers[q]
    ensures q !in answers ==> a == ""
  {
    if q in answers then answers[q] else ""
  }

  /** The Next button: disabled while the current question has no non-empty
      answer, or while submitting. */
  predicate NextDisabled(answers: map<int, string>, q: int, isSubmitting: bool) {
    !(q in answers && answers[q] != "") || isSubmitting
  }

  lemma NextDisabledIffNoAnswer(answers: map<int, string>, q: int, isSubmitting: bool)
    ensures NextDisabled(answers, q, isSubmitting) <==> CurrentAnswer(answers, q) == "" || isSubmitting
  {
  }

  /** The `setFormData` updater of the final step: only `quizAnswers` changes. */
  function WithQuizAnswers(prev: FormData, answers: map<int, string>): (r: FormData)
    ensures r.quizAnswers == answers
    ensures r.(quizAnswers := prev.quizAnswers) == prev
  {
    prev.(quizAnswers := answers)
  }

  /** The save request of the final step, made only when a customer exists. */
  function SaveRequest(f: FormData, answers: map<int, string>): (sent: Option<Request>)
    ensures sent.Some? <==> HasCustomer(f)
    ensures sent.Some? ==> sent.value == UpdateCustomer(f.customerId.value, QuizAnswers(answers))
  {
    if HasCustomer(f) then Some(UpdateCustomer(f.customerId.value, QuizAnswers(answers))) else None
  }

  /** The wizard's back button is shown, with an `onPrev`, only on the first
      question. */
  predicate BackOffered(hasPrev: bool, q: int) {
    hasPrev && q == 0
  }

  /** The card's Previous button is disabled on the first question. */
  predicate PrevDisabled(q: int) {
    q == 0
  }

  /** The quiz's place in the wizard's table. */
  const QuizStep := 8

  /** Mounted by the wizard, the quiz always has exactly one back action: the
      wizard's back button on the first question, the card's Previous button
      on every later one. */
  lemma OneBackAction(f: FormData, q: int)
    requires 0 <= q < |Questions|
    ensures Index.Sections[QuizStep].id == "quiz"
    ensures BackOffered(Index.PropsFor(QuizStep, f).hasPrev, q) <==> q == 0
    ensures BackOffered(Index.PropsFor(QuizStep, f).hasPrev, q) <==> PrevDisabled(q)
  {
  }

  class QuizSection {
    var currentQuestion: int
    var answers: map<int, string>
    var isSubmitting: bool
    var showTileOptions: bool

    ghost predicate Valid()
      reads this
    {
      0 <= currentQuestion < |Questions|
    }

    constructor (formData: FormData)
      ensures Valid()
      ensures currentQuestion == 0 && answers == formData.quizAnswers
      ensures !isSubmitting && !showTileOptions
    {
      currentQuestion := 0;
      answers := formData.quizAnswers;
      isSubmitting := false;
      showTileOptions := false;
    }

    /** Records the chosen option for the current question only. On the roof
        question, "Tile" sets `showTileOptions` (the chevron's up state) and
        any non-tile option clears it; a compound tile answer leaves it. */
    method HandleAnswerChange(value: string)
      requires Valid()
      modifies this
      ensures Valid() && currentQuestion == old(currentQuestion)
      ensures answers == old(answers)[currentQuestion := value]
      ensures showTileOptions == if currentQuestion == 1 && value == TileOption then true
                                 else if currentQuestion == 1 && !IsTileSelected(value) then false
                                 else old(showTileOptions)
      ensures isSubmitting == old(isSubmitting)
    {
      answers := answers[currentQuestion := value];
      if currentQuestion == 1 && value == TileOption {
        showTileOptions := true;
      } else if currentQuestion == 1 && value != TileOption && !StartsWith(value, TilePrefix) {
        showTileOptions := false;
      }
    }

    /** Stores the compound answer of a tile kind for the current question. */
    method HandleTileSubOptionChange(kind: string)
      requires Valid()
      modifies this
      ensures Valid() && currentQuestion == old(currentQuestion)
      ensures answers == old(answers)[currentQuestion := TileAnswer(kind)]
      ensures IsTileSelected(CurrentAnswer(answers, currentQuestion))
      ensures currentQuestion == 1 ==> KindsListed(answers, currentQuestion)
      ensures showTileOptions == old(showTileOptions) && isSubmitting == old(isSubmitting)
    {
      answers := answers[currentQuestion := TileAnswer(kind)];
      KindsListedIffTileSelected(answers, currentQuestion, showTileOptions);
    }

    /** Back one question, clearing `showTileOptions`; nothing on the first,
        where the button is disabled. */
    method HandlePrev()
      requires Valid()
      modifies this
      ensures Valid() && answers == old(answers) && isSubmitting == old(isSubmitting)
      ensures old(PrevDisabled(currentQuestion)) <==> currentQuestion == old(currentQuestion)
      ensures old(currentQuestion) > 0 ==> currentQuestion == old(currentQuestion) - 1 && !showTileOptions
      ensures old(currentQuestion) == 0 ==> currentQuestion == 0 && showTileOptions == old(showTileOptions)
    {
      if currentQuestion > 0 {
        currentQuestion := currentQuestion - 1;
        showTileOptions := false;
      }
    }

    /** The commit of the last question: the save call is made when a
        customer exists and its result is ignored; the answers are committed
        and the wizard advances unless that call throws. */
    method HandleSubmitQuiz(w: Wizard, response: Response) returns (sent: Option<Request>)
      requires Valid() && w.Valid()
      modifies this, w
      ensures Valid() && w.Valid()
      ensures currentQuestion == old(currentQuestion) && answers == old(answers)
      ensures showTileOptions == old(showTileOptions) && !isSubmitting
      ensures sent == SaveRequest(old(w.formData), answers)
      ensures sent.Some? && response.Threw? ==>
                w.formData == old(w.formData) && w.currentStep == old(w.currentStep)
      ensures !(sent.Some? && response.Threw?) ==>
                w.formData == WithQuizAnswers(old(w.formData), answers)
                && w.currentStep == Advance(old(w.currentStep))
    {
      isSubmitting := true;
      sent := SaveRequest(w.formData, answers);
      if sent.Some? && response.Threw? {
        isSubmitting := false;
        return;
      }
      w.SetFormData(WithQuizAnswers(w.formData, answers));
      w.NextStep();
      isSubmitting := false;
    }

    /** Forward one question, clearing `showTileOptions`; on the last question,
        the commit. Answers are never changed here. */
    method HandleNext(w: Wizard, response: Response) returns (sent: Option<Request>)
      requires Valid() && w.Valid()
      modifies this, w
      ensures Valid() && w.Valid() && answers == old(answers)
      ensures old(currentQuestion) < LastQuestion ==>
                currentQuestion == old(currentQuestion) + 1 && !showTileOptions && sent == None
                && w.formData == old(w.formData) && w.currentStep == old(w.currentStep)
                && isSubmitting == old(isSubmitting)
      ensures old(currentQuestion) == LastQuestion ==>
                currentQuestion == LastQuestion && sent == SaveRequest(old(w.formData), answers)
                && !isSubmitting && showTileOptions == old(showTileOptions)
                && (sent.Some? && response.Threw? ==>
                      w.formData == old(w.formData) && w.currentStep == old(w.currentStep))
                && (!(sent.Some? && response.Threw?) ==>
                      w.formData == WithQuizAnswers(old(w.formData), answers)
                      && w.currentStep == Advance(old(w.currentStep)))
    {
      if currentQuestion < |Questions| - 1 {
        currentQuestion := currentQuestion + 1;
        showTileOptions := false;
        sent := None;
      } else {
        sent := HandleSubmitQuiz(w, response);
      }
    }
  }
}
