/**
 * The AI doubt solver of the "AI Innovation Lab" panel (`askAI` in
 * src/App.jsx): the three pieces of component state it drives, the request it
 * issues and the answer it displays.
 */
module DoubtLab {
  import opened Wrappers
  import opened JsText
  import opened Retry

  /** Shown when the endpoint answers but the answer text is missing or empty. */
  const FALLBACK_ANSWER: string := "I couldn't generate an answer. Please try rephrasing."
  /** Shown whenever the request fails, whatever the error. */
  const CONNECTION_ERROR: string := "Error connecting to the AI Lab. Please try again."
  /** The instruction the question is appended to. */
  const TUTOR_PREAMBLE: string :=
    "You are a futuristic English Tutor for Indian defense exams (NDA, Air Force Group Y). \n    Explain this doubt in detail with examples and exam-specific tips: "

  /** The prompt text sent for a question. */
  function Prompt(question: string): string {
    TUTOR_PREAMBLE + question
  }

  /** The parts of the parsed response body that `askAI` looks at. An array
      element that is null or undefined behaves as one whose fields are all
      absent, so it is written that way. */
  datatype Part = Part(text: Option<string>)
  datatype Content = Content(parts: Option<seq<Part>>)
  datatype Candidate = Candidate(content: Option<Content>)
  /** `Null` is the JSON value null, on which `data.candidates` throws; any
      other value is an `Object`, perhaps lacking `candidates`. */
  datatype ResponseBody = Null | Object(candidates: Option<seq<Candidate>>)

  /** `candidates?.[0]?.content?.parts?.[0]?.text`. */
  function AnswerText(candidates: Option<seq<Candidate>>): Option<string> {
    match candidates
    case None => None
    case Some(cs) =>
      if cs == [] then None
      else match cs[0].content
        case None => None
        case Some(content) =>
          match content.parts
          case None => None
          case Some(ps) => if ps == [] then None else ps[0].text
  }

  /** `text || FALLBACK_ANSWER`: a present, non-empty text, else the fallback. */
  function OrFallback(text: Option<string>): (r: string)
    ensures r != ""
    ensures r == FALLBACK_ANSWER || text == Some(r)
    ensures text.Some? && text.value != "" ==> r == text.value
  {
    if text.Some? && text.value != "" then text.value else FALLBACK_ANSWER
  }

  /** The response `askAI` finally displays for what `fetchWithRetry` did. It
      is never empty, so the answer panel always appears. */
  function Settle<E>(fetched: Completion<ResponseBody, E>): (r: string)
    ensures r != ""
  {
    match fetched
    case Returned(Object(candidates)) => OrFallback(AnswerText(candidates))
    case Returned(Null) => CONNECTION_ERROR
    case Rethrown(_) => CONNECTION_ERROR
    case Failed(_) => CONNECTION_ERROR
  }

  /** The three values the response can take: the answer text when it is
      present and non-empty, the fallback when the body lacks it, the error
      message whenever the request (or reading the body) throws. */
  lemma SettleCases<E>(fetched: Completion<ResponseBody, E>)
    ensures !fetched.Returned? ==> Settle(fetched) == CONNECTION_ERROR
    ensures fetched == Returned(Null) ==> Settle(fetched) == CONNECTION_ERROR
    ensures forall t :: fetched.Returned? && fetched.body.Object? && AnswerText(fetched.body.candidates) == Some(t) && t != ""
              ==> Settle(fetched) == t
    ensures (fetched.Returned? && fetched.body.Object? && AnswerText(fetched.body.candidates) in {None, Some("")})
              ==> Settle(fetched) == FALLBACK_ANSWER
    ensures Settle(fetched) in {CONNECTION_ERROR, FALLBACK_ANSWER}
         || (fetched.Returned? && fetched.body.Object? && AnswerText(fetched.body.candidates) == Some(Settle(fetched)))
  {
  }

  /** One state of the component, as the three state hooks hold it. */
  datatype Snapshot = Snapshot(doubtInput: string, aiDoubtResponse: string, isGenerating: bool)

  /** `disabled={isGenerating || !doubtInput.trim()}` on the send button:
      disabled exactly while a request runs or the question is blank. */
  predicate SendDisabled(s: Snapshot)
    ensures SendDisabled(s) <==> s.isGenerating || IsBlank(s.doubtInput)
  {
    TrimEmptyIffBlank(s.doubtInput);
    s.isGenerating || Trim(s.doubtInput) == ""
  }

  /** A request that fails on every attempt ends with the error message,
      whatever the budget. */
  lemma NoAnswerShowsError<E>(outcomes: seq<Outcome<ResponseBody, E>>, maxRetries: int)
    requires maxRetries <= |outcomes|
    requires forall j :: 0 <= j < maxRetries ==> !outcomes[j].Ok?
    ensures Settle(FetchRun(outcomes, maxRetries).result) == CONNECTION_ERROR
  {
    RunExplained(outcomes, maxRetries);
  }

  /** The first ok response decides what is shown: its answer text when it
      has one, else the fallback. */
  lemma FirstOkDecides<E>(outcomes: seq<Outcome<ResponseBody, E>>, maxRetries: int, i: nat, candidates: Option<seq<Candidate>>)
    requires maxRetries <= |outcomes|
    requires i < maxRetries && outcomes[i] == Ok(Object(candidates))
    requires forall j :: 0 <= j < i ==> !outcomes[j].Ok?
    ensures Settle(FetchRun(outcomes, maxRetries).result) == OrFallback(AnswerText(candidates))
  {
    FirstOkReturned(outcomes, maxRetries, i);
  }

  /** A first ok response whose body is JSON null shows the error message:
      reading `data.candidates` throws inside the `try`. */
  lemma FirstOkNullShowsError<E>(outcomes: seq<Outcome<ResponseBody, E>>, maxRetries: int, i: nat)
    requires maxRetries <= |outcomes|
    requires i < maxRetries && outcomes[i] == Ok(Null)
    requires forall j :: 0 <= j < i ==> !outcomes[j].Ok?
    ensures Settle(FetchRun(outcomes, maxRetries).result) == CONNECTION_ERROR
  {
    FirstOkReturned(outcomes, maxRetries, i);
  }

  /** The doubt-solver state of the App component. `updates` records, in
      order, every state the three hooks have been set to since mounting. */
  class DoubtSolver {
    var doubtInput: string
    var aiDoubtResponse: string
    var isGenerating: bool
    ghost var updates: seq<Snapshot>

    function State(): Snapshot
      reads this
    {
      Snapshot(doubtInput, aiDoubtResponse, isGenerating)
    }

    ghost predicate Valid()
      reads this
    {
      |updates| > 0 && updates[|updates| - 1] == State()
    }

    /** The initial values of the three hooks. */
    constructor ()
      ensures Valid()
      ensures State() == Snapshot("", "", false) && updates == [State()]
    {
      doubtInput, aiDoubtResponse, isGenerating := "", "", false;
      updates := [Snapshot("", "", false)];
    }

    /** The textarea's `onChange`: replaces the question. */
    method EditDoubt(value: string)
      requires Valid()
      modifies this
      ensures Valid()
      ensures State() == old(State()).(doubtInput := value)
      ensures updates == old(updates) + [State()]
    {
      doubtInput := value;
      updates := updates + [State()];
    }

    method SetIsGenerating(value: bool)
      requires Valid()
      modifies this
      ensures Valid()
      ensures State() == old(State()).(isGenerating := value)
      ensures updates == old(updates) + [State()]
    {
      isGenerating := value;
      updates := updates + [State()];
    }

    method SetAiDoubtResponse(value: string)
      requires Valid()
      modifies this
      ensures Valid()
      ensures State() == old(State()).(aiDoubtResponse := value)
      ensures updates == old(updates) + [State()]
    {
      aiDoubtResponse := value;
      updates := updates + [State()];
    }

    /** `askAI()`, where `fetched` is how the call to `fetchWithRetry`
        settles. Returns the prompt sent, or None when no request is made.
        A blank question changes nothing. Otherwise the component goes
        generating, drops the previous answer, shows what `Settle` gives and
        leaves the generating state; the question stays as it was. */
    method AskAI<E>(fetched: Completion<ResponseBody, E>) returns (request: Option<string>)
      requires Valid()
      modifies this
      ensures Valid()
      ensures IsBlank(old(doubtInput)) ==>
        request == None && State() == old(State()) && updates == old(updates)
      ensures !IsBlank(old(doubtInput)) ==>
        && request == Some(Prompt(old(doubtInput)))
        && State() == Snapshot(old(doubtInput), Settle(fetched), false)
        && updates == old(updates)
             + [Snapshot(old(doubtInput), old(aiDoubtResponse), true)]
             + [Snapshot(old(doubtInput), "", true)]
             + [Snapshot(old(doubtInput), Settle(fetched), true)]
             + [State()]
    {
      TrimEmptyIffBlank(doubtInput);
      if Trim(doubtInput) == "" {
        return None;
      }
      request := Generate(fetched);
    }

    /** The part of `askAI()` past the blank-question guard. */
    method Generate<E>(fetched: Completion<ResponseBody, E>) returns (request: Option<string>)
      requires Valid()
      modifies this
      ensures Valid()
      ensures request == Some(Prompt(old(doubtInput)))
      ensures State() == Snapshot(old(doubtInput), Settle(fetched), false)
      ensures updates == old(updates)
             + [Snapshot(old(doubtInput), old(aiDoubtResponse), true)]
             + [Snapshot(old(doubtInput), "", true)]
             + [Snapshot(old(doubtInput), Settle(fetched), true)]
             + [State()]
    {
      var question := doubtInput;
      ghost var before, previous := updates, aiDoubtResponse;
      SetIsGenerating(true);
      SetAiDoubtResponse("");
      assert updates == before + [Snapshot(question, previous, true)] + [Snapshot(question, "", true)];
      request := Some(Prompt(question));
      var answer: string;
      match fetched {
        case Returned(data) =>
          if data.Null? {
            // reading `data.candidates` throws a TypeError, caught below
            answer := CONNECTION_ERROR;
          } else {
            answer := OrFallback(AnswerText(data.candidates));
          }
        case Rethrown(_) =>
          answer := CONNECTION_ERROR;
        case Failed(_) =>
          answer := CONNECTION_ERROR;
      }
      assert answer == Settle(fetched);
      ghost var entered := updates;
      SetAiDoubtResponse(answer);
      SetIsGenerating(false);
      assert updates == entered + [Snapshot(question, answer, true)] + [Snapshot(question, answer, false)];
    }
  }
}
