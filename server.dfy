/** The chat endpoint's turn logic: defaults for a request, the choice between
    resuming a conversation paused for human review and starting afresh, and the
    rule that a pending review's message replaces the graph's reply. The graph
    run is a parameter; the checkpointer and the message store are fields. */
module ChatServer {
  import opened Common
  import opened Text
  import opened Routing

  /** A chat request. `message` is required; the others may be absent or empty. */
  datatype ChatRequest = ChatRequest(
    message: string,
    channel: Option<string>,
    conversationId: Option<string>,
    humanInput: Option<string>)

  /** The replies that may be answers to a pending review. */
  const ResumeWords: set<string> := {"yes", "y", "approve", "confirm", "no", "n", "reject", "cancel"}

  function ConversationId(req: ChatRequest): string {
    if Given(req.conversationId) then req.conversationId.value else "default"
  }

  function ChannelOf(req: ChatRequest): string {
    if Given(req.channel) then req.channel.value else "chat"
  }

  /** The state a fresh run starts from: the initial state, with the human input
      when one was supplied. */
  function FreshState(req: ChatRequest): GraphState {
    var s := InitialState(req.message, ChannelOf(req));
    if Given(req.humanInput) then s.(humanInput := req.humanInput) else s
  }

  /** The turn may answer a pending review: human input was supplied, or the
      lower-cased, stripped message is a yes/no word. */
  predicate WantsResume(req: ChatRequest) {
    Given(req.humanInput) || Strip(Lower(req.message)) in ResumeWords
  }

  /** The answer written into a resumed state: the human input, else the message. */
  function ReviewAnswer(req: ChatRequest): string {
    if Given(req.humanInput) then req.humanInput.value else req.message
  }

  /** The checkpointed state to resume, if the turn asks for it and the
      conversation is paused for review. */
  function ResumeTarget(req: ChatRequest, checkpoints: map<string, GraphState>): Option<GraphState> {
    var id := ConversationId(req);
    if WantsResume(req) && id in checkpoints && NeedsReview(checkpoints[id]) then
      Some(checkpoints[id].(humanInput := Some(ReviewAnswer(req))))
    else None
  }

  /** The graph run of a turn: the resumed state if there is one, falling back to
      a fresh run when that raises; a fresh run otherwise. */
  function Turn(req: ChatRequest, checkpoints: map<string, GraphState>,
                run: GraphState -> Result<GraphState, string>): Result<GraphState, string> {
    match ResumeTarget(req, checkpoints)
    case Some(s) => if run(s).Ok? then run(s) else run(FreshState(req))
    case None => run(FreshState(req))
  }

  /** Where the text of the reply comes from. */
  datatype TurnReply = FromReview(message: string) | FromGraph(response: Option<Reply>)

  /** A result paused for review with a non-empty review message answers with
      that message; any other result with its own response. */
  function ReplyOf(result: GraphState): TurnReply {
    if NeedsReview(result) && Given(result.reviewMessage) then FromReview(result.reviewMessage.value)
    else FromGraph(result.response)
  }

  datatype ChatResponse = ChatResponse(
    conversationId: string,
    reply: TurnReply,
    intent: Option<string>,
    needsHumanReview: bool,
    reviewMessage: Option<string>)

  /** A stored chat message; the assistant's is the reply before text fallbacks. */
  datatype StoredMessage = UserMessage(conversationId: string, text: string)
                         | AssistantMessage(conversationId: string, reply: TurnReply)

  /** Why a turn failed. Every failure reaches the caller as status 500: the
      outer handler re-wraps even the endpoint's own 400. */
  datatype Failure = MessageRequired | GraphFailed(detail: string)

  datatype HttpError = HttpError(status: int, cause: Failure)

  function ResponseOf(req: ChatRequest, result: GraphState): ChatResponse {
    var review := NeedsReview(result);
    ChatResponse(ConversationId(req), ReplyOf(result), if Given(result.intent) then result.intent else None,
                 review, if Given(result.reviewMessage) then result.reviewMessage else None)
  }

  /** The server: the checkpointer's last state per conversation and the stored messages. */
  class ChatService {
    var checkpoints: map<string, GraphState>
    var messages: seq<StoredMessage>

    constructor()
      ensures checkpoints == map[] && messages == []
    {
      checkpoints := map[];
      messages := [];
    }

    /** One chat turn. `run` is the compiled graph's invocation. */
    method Chat(req: ChatRequest, run: GraphState -> Result<GraphState, string>)
      returns (outcome: Result<ChatResponse, HttpError>)
      modifies this
      ensures req.message == "" ==>
        outcome == Err(HttpError(500, MessageRequired))
        && checkpoints == old(checkpoints) && messages == old(messages)
      ensures req.message != "" ==>
        var id := ConversationId(req);
        var result := Turn(req, old(checkpoints), run);
        && (result.Err? ==>
              outcome == Err(HttpError(500, GraphFailed(result.error)))
              && checkpoints == old(checkpoints)
              && messages == old(messages) + [UserMessage(id, req.message)])
        && (result.Ok? ==>
              outcome == Ok(ResponseOf(req, result.value))
              && checkpoints == old(checkpoints)[id := result.value]
              && messages == old(messages) + [UserMessage(id, req.message), AssistantMessage(id, ReplyOf(result.value))])
    {
      if req.message == "" {
        return Err(HttpError(500, MessageRequired));
      }
      var conversationId := if Given(req.conversationId) then req.conversationId.value else "default";
      messages := messages + [UserMessage(conversationId, req.message)];

      var result := RunTurn(req, run);
      if result.Err? {
        return Err(HttpError(500, GraphFailed(result.error)));
      }

      var graphState := result.value;
      checkpoints := checkpoints[conversationId := graphState];
      var reply := FromGraph(graphState.response);
      var needsReview := NeedsReview(graphState);
      var reviewMessage := if Given(graphState.reviewMessage) then graphState.reviewMessage else None;
      if needsReview && reviewMessage.Some? {
        reply := FromReview(reviewMessage.value);
      }
      messages := messages + [AssistantMessage(conversationId, reply)];
      outcome := Ok(ChatResponse(conversationId, reply, if Given(graphState.intent) then graphState.intent else None,
                                 needsReview, reviewMessage));
    }

    /** Starts the graph for a turn on the conversation's checkpoint, resuming a
        paused review when the turn answers it. */
    method RunTurn(req: ChatRequest, run: GraphState -> Result<GraphState, string>)
      returns (result: Result<GraphState, string>)
      ensures result == Turn(req, checkpoints, run)
    {
      var conversationId := if Given(req.conversationId) then req.conversationId.value else "default";
      var channel := if Given(req.channel) then req.channel.value else "chat";
      var state := InitialState(req.message, channel);
      if Given(req.humanInput) {
        state := state.(humanInput := req.humanInput);
      }
      assert state == FreshState(req);
      if Given(req.humanInput) || Strip(Lower(req.message)) in ResumeWords {
        if conversationId in checkpoints && NeedsReview(checkpoints[conversationId]) {
          var current := checkpoints[conversationId];
          var answer := if Given(req.humanInput) then req.humanInput.value else req.message;
          current := current.(humanInput := Some(answer));
          assert ResumeTarget(req, checkpoints) == Some(current);
          result := run(current);
          if result.Err? {
            result := run(state);
          }
        } else {
          assert ResumeTarget(req, checkpoints) == None;
          result := run(state);
        }
      } else {
        assert ResumeTarget(req, checkpoints) == None;
        result := run(state);
      }
    }
  }

  /** Missing or empty ids and channels default to "default" and "chat"; the fresh
      state carries the message, the channel, and the human input only when one
      was supplied, and is never paused for review. */
  lemma FreshTurn(req: ChatRequest)
    ensures ConversationId(req) == (if req.conversationId.Some? && req.conversationId.value != "" then req.conversationId.value else "default")
    ensures FreshState(req).input == Some(req.message)
    ensures FreshState(req).channel == Some(if Given(req.channel) then req.channel.value else "chat")
    ensures FreshState(req).humanInput.Some? <==> Given(req.humanInput)
    ensures FreshState(req).humanInput.Some? ==> FreshState(req).humanInput == req.humanInput
    ensures !NeedsReview(FreshState(req))
    ensures RouterTaskNode(FreshState(req)).currentActivity != Some("UserTask2")
  {
  }

  /** A conversation is resumed exactly when the turn asks for it and its
      checkpoint is paused for review; the resumed state is that checkpoint with
      the turn's answer as human input, and the router sends it straight back
      to the review step. */
  lemma ResumeOnlyWhenPaused(req: ChatRequest, checkpoints: map<string, GraphState>)
    ensures ResumeTarget(req, checkpoints).Some? <==>
      WantsResume(req) && ConversationId(req) in checkpoints && NeedsReview(checkpoints[ConversationId(req)])
    ensures ResumeTarget(req, checkpoints).Some? ==>
      var s := ResumeTarget(req, checkpoints).value;
      var saved := checkpoints[ConversationId(req)];
      && s.input == saved.input && s.toolResult == saved.toolResult && s.intent == saved.intent
      && UserResponse(s) == (if Given(req.humanInput) then req.humanInput.value else req.message)
      && RouterTaskNode(s).currentActivity == Some("UserTask2")
  {
    var id := ConversationId(req);
    if ResumeTarget(req, checkpoints).Some? {
      var saved := checkpoints[id];
      var s := saved.(humanInput := Some(ReviewAnswer(req)));
      assert ResumeTarget(req, checkpoints).value == s;
      assert NeedsReview(s);
      if !Given(req.humanInput) {
        ResumeWordNonEmpty(req.message);
      }
      assert Given(s.humanInput);
    }
  }

  /** A message whose stripped, lower-cased form is a yes/no word is not empty. */
  lemma ResumeWordNonEmpty(m: string)
    requires Strip(Lower(m)) in ResumeWords
    ensures m != ""
  {
    var w := Strip(Lower(m));
    ResumeWordsNonEmpty(w);
    assert |w| <= |Lower(m)| == |m|;
  }

  lemma ResumeWordsNonEmpty(w: string)
    requires w in ResumeWords
    ensures w != ""
  {
  }


  /** A turn runs the resumed state only when there is one, and a fresh state
      otherwise or when the resumed run fails. */
  lemma TurnRuns(req: ChatRequest, checkpoints: map<string, GraphState>, run: GraphState -> Result<GraphState, string>)
    ensures ResumeTarget(req, checkpoints).None? ==> Turn(req, checkpoints, run) == run(FreshState(req))
    ensures ResumeTarget(req, checkpoints).Some? && run(ResumeTarget(req, checkpoints).value).Ok? ==>
      Turn(req, checkpoints, run) == run(ResumeTarget(req, checkpoints).value)
    ensures Turn(req, checkpoints, run).Err? ==> run(FreshState(req)).Err?
  {
  }

  /** The yes/no words that may resume a turn are exactly the words the review
      step decides on outside a refund, and all of them are refund decisions too. */
  lemma ResumeWordsAreDecisions()
    ensures ResumeWords == PlainApproveWords + PlainRejectWords
    ensures ResumeWords <= RefundApproveWords + RefundRejectWords
  {
  }

  /** A paused refund resumed by a yes/no message is always decided: the review
      step clears its review flag. */
  lemma ResumedRefundDecided(req: ChatRequest, checkpoints: map<string, GraphState>,
                             approve: (Option<string>, bool) -> ApprovalOutcome)
    requires ResumeTarget(req, checkpoints).Some? && !Given(req.humanInput)
    requires InRefundReview(ResumeTarget(req, checkpoints).value)
    ensures UserTask2Node(ResumeTarget(req, checkpoints).value, approve).needsHumanReview == Some(false)
  {
    var s := ResumeTarget(req, checkpoints).value;
    ResumedByMessage(req, checkpoints);
    ResumeWordNonEmpty(req.message);
    ResumeWordsAreDecisions();
    RefundWordDecides(s);
  }

  /** A turn resumed without human input was asked for by a yes/no message,
      which becomes the answer. */
  lemma ResumedByMessage(req: ChatRequest, checkpoints: map<string, GraphState>)
    requires ResumeTarget(req, checkpoints).Some? && !Given(req.humanInput)
    ensures Strip(Lower(req.message)) in ResumeWords
    ensures UserResponse(ResumeTarget(req, checkpoints).value) == req.message
  {
    assert ReviewAnswer(req) == req.message;
  }

  /** In the refund branch a non-empty answer whose stripped, lower-cased form is
      a refund word approves or rejects. */
  lemma RefundWordDecides(s: GraphState)
    requires InRefundReview(s) && UserResponse(s) != ""
    requires Strip(Lower(UserResponse(s))) in RefundApproveWords + RefundRejectWords
    ensures Approves(s) || Rejects(s)
  {
  }

  /** Outside a refund the review step lower-cases the answer but does not strip
      it, while the server strips before deciding to resume: " yes" resumes a
      paused conversation, and the review step then asks again. */
  lemma PaddedAnswerAsksAgain(saved: GraphState, approve: (Option<string>, bool) -> ApprovalOutcome)
    requires NeedsReview(saved) && !InRefundReview(saved)
    ensures var req := ChatRequest(" yes", None, None, None);
      var target := ResumeTarget(req, map["default" := saved]);
      && target.Some?
      && UserTask2Node(target.value, approve).needsHumanReview == Some(true)
  {
    PaddedYesTarget(saved);
    var s := saved.(humanInput := Some(" yes"));
    PaddedYesUndecided(s);
  }

  /** " yes" on the default conversation resumes its paused state with " yes" as the answer. */
  lemma PaddedYesTarget(saved: GraphState)
    requires NeedsReview(saved)
    ensures ResumeTarget(ChatRequest(" yes", None, None, None), map["default" := saved])
      == Some(saved.(humanInput := Some(" yes")))
  {
    var req := ChatRequest(" yes", None, None, None);
    PaddedYesResumes();
    assert ConversationId(req) == "default" && ReviewAnswer(req) == " yes";
    assert WantsResume(req);
  }

  /** The server reads " yes" as a request to resume. */
  lemma PaddedYesResumes()
    ensures Strip(Lower(" yes")) == "yes"
  {
    assert Lower(" yes") == " yes";
    StripTrimmed("yes");
    assert RStrip(" yes") == " yes";
    assert LStrip(" yes") == LStrip("yes");
  }

  /** Outside a refund the review step neither approves nor rejects " yes". */
  lemma PaddedYesUndecided(s: GraphState)
    requires !InRefundReview(s) && s.humanInput == Some(" yes")
    ensures !Approves(s) && !Rejects(s)
  {
    assert UserResponse(s) == " yes";
    assert Lower(" yes") == " yes";
    assert " yes" !in PlainApproveWords && " yes" !in PlainRejectWords;
  }

  /** The reply is the review message exactly when the result is paused for
      review with a non-empty message; otherwise it is the graph's response. */
  lemma ReviewMessageOverrides(result: GraphState)
    ensures ReplyOf(result).FromReview? <==> NeedsReview(result) && Given(result.reviewMessage)
    ensures ReplyOf(result).FromReview? ==> ReplyOf(result).message == result.reviewMessage.value
    ensures ReplyOf(result).FromGraph? ==> ReplyOf(result).response == result.response
  {
  }
}
