/** What a question request and a client's response must look like. */
module QuestionValidation {
  import opened Basics
  import opened TaskStream
  import opened Text

  const MAX_QUESTIONS := 3
  const MAX_OPTIONS := 4
  const MAX_ID_BYTES := 64
  const MAX_HEADER_BYTES := 32
  const MAX_QUESTION_BYTES := 4096
  const MAX_LABEL_BYTES := 128
  const MAX_DESCRIPTION_BYTES := 512
  const MAX_ANSWER_BYTES := 4096

  datatype AskRequest = AskRequest(
    requestId: RequestId, tool: ToolId, questions: seq<QuestionItem>, expiresAt: Time)

  datatype Response = ResponseAnswered(answers: seq<Answer>) | ResponseDeclined

  // ----- requests -----

  predicate GoodText(s: string, max: nat) { !Blank(s) && Utf8Length(s) <= max }

  predicate GoodOptional(s: Option<string>, max: nat) { s.Some? ==> GoodText(s.value, max) }

  predicate GoodOption(o: QuestionOption) {
    GoodText(o.id, MAX_ID_BYTES) && GoodText(o.labelText, MAX_LABEL_BYTES) && GoodOptional(o.description, MAX_DESCRIPTION_BYTES)
  }

  predicate DistinctOptionIds(options: seq<QuestionOption>) {
    forall i, j :: 0 <= i < j < |options| ==> options[i].id != options[j].id
  }

  predicate DistinctQuestionIds(questions: seq<QuestionItem>) {
    forall i, j :: 0 <= i < j < |questions| ==> questions[i].id != questions[j].id
  }

  predicate GoodQuestion(q: QuestionItem) {
    && GoodText(q.id, MAX_ID_BYTES)
    && GoodText(q.text, MAX_QUESTION_BYTES)
    && GoodOptional(q.header, MAX_HEADER_BYTES)
    && (|q.options| == 0 || 2 <= |q.options| <= MAX_OPTIONS)
    && (q.multiSelect ==> |q.options| > 0)
    && (forall i :: 0 <= i < |q.options| ==> GoodOption(q.options[i]))
    && DistinctOptionIds(q.options)
  }

  /** A request that may be asked at time `now`. */
  predicate ValidRequest(now: Time, request: AskRequest) {
    && now < request.expiresAt
    && 1 <= |request.questions| <= MAX_QUESTIONS
    && (forall i :: 0 <= i < |request.questions| ==> GoodQuestion(request.questions[i]))
    && DistinctQuestionIds(request.questions)
  }

  method ValidateOptions(options: seq<QuestionOption>) returns (r: Result<(), string>)
    ensures r.Ok? <==> (forall i :: 0 <= i < |options| ==> GoodOption(options[i])) && DistinctOptionIds(options)
  {
    var ids: set<string> := {};
    for k := 0 to |options|
      invariant forall i :: 0 <= i < k ==> GoodOption(options[i])
      invariant forall i, j :: 0 <= i < j < k ==> options[i].id != options[j].id
      invariant forall id :: id in ids <==> exists i :: 0 <= i < k && options[i].id == id
    {
      var option := options[k];
      if !GoodText(option.id, MAX_ID_BYTES) { return Err("option id is empty or too long"); }
      if !GoodText(option.labelText, MAX_LABEL_BYTES) { return Err("option label is empty or too long"); }
      if option.id in ids { return Err("option ids must be unique within a question"); }
      ids := ids + {option.id};
      if !GoodOptional(option.description, MAX_DESCRIPTION_BYTES) { return Err("option description is empty or too long"); }
    }
    return Ok(());
  }

  /** Accepts exactly the valid requests. */
  method ValidateRequest(now: Time, request: AskRequest) returns (r: Result<(), string>)
    ensures r.Ok? <==> ValidRequest(now, request)
  {
    if request.expiresAt <= now { return Err("request is already expired"); }
    var questions := request.questions;
    if !(1 <= |questions| <= MAX_QUESTIONS) { return Err("request must contain between 1 and 3 questions"); }
    var ids: set<string> := {};
    for k := 0 to |questions|
      invariant forall i :: 0 <= i < k ==> GoodQuestion(questions[i])
      invariant forall i, j :: 0 <= i < j < k ==> questions[i].id != questions[j].id
      invariant forall id :: id in ids <==> exists i :: 0 <= i < k && questions[i].id == id
    {
      var q := questions[k];
      if !GoodText(q.id, MAX_ID_BYTES) { return Err("question id is empty or too long"); }
      if !GoodText(q.text, MAX_QUESTION_BYTES) { return Err("question text is empty or too long"); }
      if q.id in ids { return Err("question ids must be unique"); }
      ids := ids + {q.id};
      if !GoodOptional(q.header, MAX_HEADER_BYTES) { return Err("question header is empty or too long"); }
      if |q.options| > MAX_OPTIONS || (|q.options| > 0 && |q.options| < 2) {
        return Err("question options must be empty or contain between 2 and 4 items");
      }
      if q.multiSelect && |q.options| == 0 { return Err("multi-select questions require options"); }
      var options := ValidateOptions(q.options);
      if options.Err? { return options; }
    }
    return Ok(());
  }

  // ----- responses -----

  /** The first question with the given id. */
  function FindQuestion(questions: seq<QuestionItem>, id: string): (r: Option<QuestionItem>)
    ensures r.Some? ==> r.value in questions && r.value.id == id
    ensures r.None? <==> forall i :: 0 <= i < |questions| ==> questions[i].id != id
  {
    if |questions| == 0 then None
    else if questions[0].id == id then Some(questions[0])
    else FindQuestion(questions[1..], id)
  }

  predicate HasText(a: Answer) { a.text.Some? && !Blank(a.text.value) }

  predicate Offered(q: QuestionItem, id: string) {
    exists i :: 0 <= i < |q.options| && q.options[i].id == id
  }

  predicate GoodSelection(q: QuestionItem, selected: seq<string>) {
    && (forall i, j :: 0 <= i < j < |selected| ==> selected[i] != selected[j])
    && (forall i :: 0 <= i < |selected| ==> Offered(q, selected[i]))
  }

  /** One answer fits its question. */
  predicate Fits(q: QuestionItem, a: Answer) {
    && GoodSelection(q, a.selected)
    && (!q.multiSelect ==> |a.selected| <= 1)
    && (a.text.Some? ==> Utf8Length(a.text.value) <= MAX_ANSWER_BYTES)
    && (HasText(a) && |q.options| > 0 ==> q.allowCustom)
    && (|a.selected| > 0 || HasText(a))
  }

  predicate ValidResponse(questions: seq<QuestionItem>, response: Response) {
    response.ResponseDeclined? ||
    (&& |response.answers| == |questions|
     && (forall i, j :: 0 <= i < j < |response.answers| ==> response.answers[i].questionId != response.answers[j].questionId)
     && (forall i :: 0 <= i < |response.answers| ==> FitsOne(questions, response.answers[i])))
  }

  predicate FitsOne(questions: seq<QuestionItem>, a: Answer) {
    var q := FindQuestion(questions, a.questionId);
    q.Some? && Fits(q.value, a)
  }

  method ValidateSelection(q: QuestionItem, selected: seq<string>) returns (ok: bool)
    ensures ok <==> GoodSelection(q, selected)
  {
    var seen: set<string> := {};
    for k := 0 to |selected|
      invariant forall i, j :: 0 <= i < j < k ==> selected[i] != selected[j]
      invariant forall i :: 0 <= i < k ==> Offered(q, selected[i])
      invariant forall id :: id in seen <==> exists i :: 0 <= i < k && selected[i] == id
    {
      if selected[k] in seen { return false; }
      seen := seen + {selected[k]};
      if !Offered(q, selected[k]) { return false; }
    }
    return true;
  }

  method ValidateAnswer(q: QuestionItem, a: Answer) returns (r: Result<(), string>)
    ensures r.Ok? <==> Fits(q, a)
  {
    var selection := ValidateSelection(q, a.selected);
    if !selection { return Err("response contains an invalid option id"); }
    if !q.multiSelect && |a.selected| > 1 { return Err("single-select question has multiple selected options"); }
    if a.text.Some? && Utf8Length(a.text.value) > MAX_ANSWER_BYTES { return Err("custom response text is too long"); }
    if HasText(a) && |q.options| > 0 && !q.allowCustom { return Err("question does not allow a custom response"); }
    if |a.selected| == 0 && !HasText(a) { return Err("question response is empty"); }
    return Ok(());
  }

  /** Accepts exactly the valid responses. */
  method ValidateResponse(questions: seq<QuestionItem>, response: Response) returns (r: Result<(), string>)
    ensures r.Ok? <==> ValidResponse(questions, response)
  {
    if response.ResponseDeclined? { return Ok(()); }
    var answers := response.answers;
    if |answers| != |questions| { return Err("response must answer every question exactly once"); }
    var answered: set<string> := {};
    for k := 0 to |answers|
      invariant forall i, j :: 0 <= i < j < k ==> answers[i].questionId != answers[j].questionId
      invariant forall i :: 0 <= i < k ==> FitsOne(questions, answers[i])
      invariant forall id :: id in answered <==> exists i :: 0 <= i < k && answers[i].questionId == id
    {
      var a := answers[k];
      if a.questionId in answered { return Err("response contains a duplicate question answer"); }
      answered := answered + {a.questionId};
      var found := FindQuestion(questions, a.questionId);
      if found.None? { return Err("response contains an unknown question id"); }
      var checked := ValidateAnswer(found.value, a);
      if checked.Err? { return checked; }
    }
    return Ok(());
  }

  // ----- an accepted response answers every question exactly once -----

  function QuestionIds(questions: seq<QuestionItem>): set<string> {
    set i | 0 <= i < |questions| :: questions[i].id
  }

  function AnswerIds(answers: seq<Answer>): set<string> {
    set i | 0 <= i < |answers| :: answers[i].questionId
  }

  lemma {:induction false} QuestionIdCount(questions: seq<QuestionItem>)
    ensures |QuestionIds(questions)| <= |questions|
  {
    if |questions| == 0 {
      assert QuestionIds(questions) == {};
    } else {
      var rest := questions[..|questions| - 1];
      QuestionIdCount(rest);
      assert QuestionIds(questions) == QuestionIds(rest) + {questions[|questions| - 1].id};
    }
  }

  lemma {:induction false} AnswerIdCount(answers: seq<Answer>)
    requires forall i, j :: 0 <= i < j < |answers| ==> answers[i].questionId != answers[j].questionId
    ensures |AnswerIds(answers)| == |answers|
  {
    if |answers| == 0 {
      assert AnswerIds(answers) == {};
    } else {
      var rest := answers[..|answers| - 1];
      AnswerIdCount(rest);
      assert AnswerIds(answers) == AnswerIds(rest) + {answers[|answers| - 1].questionId};
      assert answers[|answers| - 1].questionId !in AnswerIds(rest);
    }
  }

  lemma SubsetOfSameSize(a: set<string>, b: set<string>)
    requires a <= b && |b| <= |a|
    ensures a == b
  {
    assert b == a + (b - a);
    assert |b| == |a| + |b - a|;
  }

  /** Counting forces the answers to cover all questions: none is skipped, none answered twice. */
  lemma EveryQuestionAnsweredOnce(questions: seq<QuestionItem>, response: Response, k: nat)
    requires ValidResponse(questions, response) && response.ResponseAnswered? && k < |questions|
    ensures exists i :: 0 <= i < |response.answers| && response.answers[i].questionId == questions[k].id
    ensures forall i, j :: 0 <= i < j < |response.answers| ==>
      !(response.answers[i].questionId == questions[k].id && response.answers[j].questionId == questions[k].id)
  {
    var answers := response.answers;
    AnswerIdCount(answers);
    QuestionIdCount(questions);
    forall id | id in AnswerIds(answers) ensures id in QuestionIds(questions) {
      var i :| 0 <= i < |answers| && answers[i].questionId == id;
      var q := FindQuestion(questions, id);
      var n :| 0 <= n < |questions| && questions[n] == q.value;
    }
    SubsetOfSameSize(AnswerIds(answers), QuestionIds(questions));
    assert questions[k].id in AnswerIds(answers);
  }
}
