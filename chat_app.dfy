/**
 * The conversation state of the chat front end: the text box, the history
 * shown above it, the loading flag of the Send button and the model radio
 * group. `handleAsk` is split at its `await` into an ask step and an answer
 * step; the answer itself is a parameter.
 */
module ChatApp {
  import opened Wrappers
  import opened JsText
  import opened Messages
  import Dispatch

  /** The values of the model radio group. */
  datatype ModelChoice = Gpt | DeepSeekChoice

  /** The two client functions `handleAsk` can await. */
  datatype Backend = AskChatGpt | AskDeepSeek

  /** `model === 'gpt' ? askChatGPT : askDeepSeek`. */
  function BackendFor(m: ModelChoice): (b: Backend)
    ensures b == AskChatGpt <==> m == Gpt
  {
    if m == Gpt then AskChatGpt else AskDeepSeek
  }

  /** The server route each client function posts the question to, with the body it sends. */
  function BackendRoute(b: Backend, question: string): (c: Dispatch.RouteCall)
    ensures b == AskChatGpt ==> c == Dispatch.ChatCall(question, Some("gpt-4o"))
    ensures b == AskDeepSeek ==> c == Dispatch.DeepSeekCall(question)
  {
    match b
    case AskChatGpt => Dispatch.ChatCall(question, Some("gpt-4o"))
    case AskDeepSeek => Dispatch.DeepSeekCall(question)
  }

  /** A question the front end sends goes out as the user turn, to the provider its model choice names. */
  lemma QuestionReachesChosenProvider(cfg: Dispatch.Config, m: ModelChoice, question: string)
    ensures var call := BackendRoute(BackendFor(m), question);
      var r := Dispatch.BuildRequest(cfg, call, "");
      && r.payload.messages[1] == Message(User, question)
      && (Dispatch.ProviderOf(call) == Dispatch.DeepSeek <==> m == DeepSeekChoice)
      && r.payload.model == (if m == Gpt then "gpt-4o" else "deepseek-chat")
  {
  }

  /** The question an ask step hands to the backend, and which backend. */
  datatype PendingQuestion = PendingQuestion(backend: Backend, question: string)

  /** History entries are user or assistant turns; a user turn is a non-empty trimmed question. */
  predicate WellFormedEntry(m: Message) {
    && m.role != System
    && (m.role == User ==> m.content != "" && Trim(m.content) == m.content)
  }

  class ChatSession {
    var inputValue: string
    var history: seq<Message>
    var loading: bool
    var model: ModelChoice

    ghost predicate Valid()
      reads this
    {
      forall i :: 0 <= i < |history| ==> WellFormedEntry(history[i])
    }

    /** The initial state of the component's `useState` hooks. */
    constructor ()
      ensures Valid()
      ensures inputValue == "" && history == [] && !loading && model == Gpt
    {
      inputValue := "";
      history := [];
      loading := false;
      model := Gpt;
    }

    /** The text box's `onChange`. */
    method EditInput(value: string)
      requires Valid()
      modifies this
      ensures Valid()
      ensures inputValue == value
      ensures history == old(history) && loading == old(loading) && model == old(model)
    {
      inputValue := value;
    }

    /** The radio group's `onChange`. */
    method SelectModel(choice: ModelChoice)
      requires Valid()
      modifies this
      ensures Valid()
      ensures model == choice
      ensures history == old(history) && loading == old(loading) && inputValue == old(inputValue)
    {
      model := choice;
    }

    /**
     * `handleAsk` up to its `await`: a blank question changes nothing and
     * sends nothing; otherwise the trimmed question is appended as a user
     * turn, the input is cleared, loading starts, and the question goes to
     * the backend the current model selects.
     */
    method Ask() returns (pending: Option<PendingQuestion>)
      requires Valid()
      modifies this
      ensures Valid()
      ensures model == old(model)
      ensures Trim(old(inputValue)) == "" ==>
        pending == None && unchanged(this)
      ensures Trim(old(inputValue)) != "" ==>
        && pending == Some(PendingQuestion(BackendFor(model), Trim(old(inputValue))))
        && history == old(history) + [Message(User, Trim(old(inputValue)))]
        && inputValue == ""
        && loading
    {
      var question := Trim(inputValue);
      if question == "" {
        pending := None;
      } else {
        history := history + [Message(User, question)];
        inputValue := "";
        loading := true;
        pending := Some(PendingQuestion(BackendFor(model), question));
      }
    }

    /** `handleAsk` after its `await`: the answer is appended as an assistant turn and loading stops. */
    method Answer(answer: string)
      requires Valid()
      modifies this
      ensures Valid()
      ensures history == old(history) + [Message(Assistant, answer)]
      ensures !loading
      ensures inputValue == old(inputValue) && model == old(model)
    {
      history := history + [Message(Assistant, answer)];
      loading := false;
    }

    /**
     * One `handleAsk` run to completion with no other handler in between,
     * `answer` being what the awaited backend returned: the question and then
     * its answer are appended, after everything that was there before.
     */
    method HandleAsk(answer: string) returns (pending: Option<PendingQuestion>)
      requires Valid()
      modifies this
      ensures Valid()
      ensures model == old(model)
      ensures Trim(old(inputValue)) == "" ==>
        pending == None && unchanged(this)
      ensures Trim(old(inputValue)) != "" ==>
        && pending == Some(PendingQuestion(BackendFor(model), Trim(old(inputValue))))
        && history == old(history) + [Message(User, Trim(old(inputValue))), Message(Assistant, answer)]
        && inputValue == ""
        && !loading
    {
      pending := Ask();
      if pending.Some? {
        Answer(answer);
      }
    }

    /** `handleReset`: history and input are cleared; the model and the loading flag stay. */
    method Reset()
      requires Valid()
      modifies this
      ensures Valid()
      ensures history == [] && inputValue == ""
      ensures loading == old(loading) && model == old(model)
    {
      history := [];
      inputValue := "";
    }
  }
}
