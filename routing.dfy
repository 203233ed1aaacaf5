/** The shared workflow state of graph.py and the node functions that decide
    where a turn goes: the intent cascade, the router node and its routing
    function, and the human-review node with its routing function. */
module Routing {
  import opened Common
  import opened Text

  /** What a tool step left in `tool_result`, reduced to what the review
      node reads. `mentionsRefund` stands for `"refund" in str(tool_result).lower()`. */
  datatype ToolResult = ToolResult(
    refundId: Option<string>,
    returnRequestId: Option<string>,
    mentionsRefund: bool,
    orderId: Option<string>,
    amount: real,
    reason: Option<string>)

  /** The replies the nodes write into `response`; their text formatting is not modelled. */
  datatype Reply =
    | Text(text: string)
    | RefundApproved(orderId: Option<string>, amount: real)
    | ApprovalError
    | ApprovalException(message: string)
    | RefundRejected(orderId: Option<string>)
    | RefundCancelled(orderId: Option<string>)
    | PendingApproval(orderId: Option<string>, amount: real, reason: string)
    | RequestApproved
    | RequestCancelled
    | ApproveOrRejectPrompt

  /** The open state record; `None` is a key that is absent (or holds `None`). */
  datatype GraphState = GraphState(
    input: Option<string>,
    channel: Option<string>,
    intent: Option<string>,
    toolResult: Option<ToolResult>,
    needsHumanReview: Option<bool>,
    humanInput: Option<string>,
    response: Option<Reply>,
    currentActivity: Option<string>,
    reviewMessage: Option<string>,
    redirectUrl: Option<string>,
    workflowComplete: Option<bool>)

  /** `state.get("needs_human_review", False)` is truthy. */
  predicate NeedsReview(s: GraphState) {
    s.needsHumanReview == Some(true)
  }

  /** `initial_state`: a fresh turn that is not paused and carries no human input. */
  function InitialState(input: string, channel: string): (s: GraphState)
    ensures s.input == Some(input) && s.channel == Some(channel)
    ensures !NeedsReview(s) && s.needsHumanReview == Some(false) && s.humanInput.None?
    ensures s.intent.None? && s.toolResult.None? && s.response.None? && s.currentActivity.None?
    ensures s.reviewMessage.None? && s.redirectUrl.None?
    ensures s.workflowComplete == Some(false)
  {
    GraphState(Some(input), Some(channel), None, None, Some(false), None, None, None, None, None, Some(false))
  }

  // ---------------------------------------------------------------------------
  // Intent classification
  // ---------------------------------------------------------------------------

  /** Which keyword groups of `classify_intent` the lowered input matches. */
  datatype Keywords = Keywords(
    price: bool, tracking: bool, status: bool, refund: bool, fastener: bool, policy: bool)

  const Intents: set<string> :=
    {"order_price", "track_order", "order_status", "refund", "fastener_search", "policy_question", "chit_chat"}

  /** `classify_intent`: the first matching group wins, and the four order
      intents need an order id. */
  function ClassifyIntent(k: Keywords, hasOrderId: bool): (r: string)
    ensures r in Intents
    ensures r in {"order_price", "track_order", "order_status", "refund"} ==> hasOrderId
    ensures r == "order_price" <==> hasOrderId && k.price
    ensures r == "track_order" <==> hasOrderId && !k.price && k.tracking
    ensures r == "order_status" <==> hasOrderId && !k.price && !k.tracking && k.status
    ensures r == "refund" <==> hasOrderId && !k.price && !k.tracking && !k.status && k.refund
    ensures r == "fastener_search" <==>
      k.fastener && !(hasOrderId && (k.price || k.tracking || k.status || k.refund))
    ensures r == "policy_question" <==>
      !k.fastener && k.policy && !(hasOrderId && (k.price || k.tracking || k.status || k.refund))
    ensures r == "chit_chat" <==>
      !k.fastener && !k.policy && !(hasOrderId && (k.price || k.tracking || k.status || k.refund))
  {
    if k.price && hasOrderId then "order_price"
    else if k.tracking && hasOrderId then "track_order"
    else if k.status && hasOrderId then "order_status"
    else if k.refund && hasOrderId then "refund"
    else if k.fastener then "fastener_search"
    else if k.policy then "policy_question"
    else "chit_chat"
  }

  // ---------------------------------------------------------------------------
  // Router
  // ---------------------------------------------------------------------------

  const RenderIntents: seq<string> :=
    ["order_status", "order_price", "track_order", "policy_question", "chit_chat"]

  /** `router_task_node`: records the next activity and changes nothing else;
      review wins, then the fastener intent, and everything else renders. */
  function RouterTaskNode(s: GraphState): (r: GraphState)
    ensures r == s.(currentActivity := r.currentActivity)
    ensures r.currentActivity == Some("UserTask2") <==> NeedsReview(s)
    ensures r.currentActivity == Some("AgentTask1") <==>
      !NeedsReview(s) && s.intent == Some("fastener_search")
    ensures r.currentActivity == Some("RenderTask1") <==>
      !NeedsReview(s) && s.intent != Some("fastener_search")
  {
    var intent := s.intent.GetOr("");
    var next :=
      if NeedsReview(s) then "UserTask2"
      else if intent in RenderIntents then "RenderTask1"
      else if intent == "fastener_search" then "AgentTask1"
      else "RenderTask1";
    s.(currentActivity := Some(next))
  }

  const RouterKeys: set<string> := {"RenderTask1", "AgentTask1", "UserTask2"}

  /** `route_condition`: a key of the router's route table, read from
      `current_activity` with anything unexpected falling back to render. */
  function RouteCondition(s: GraphState): (r: string)
    ensures r in RouterKeys
    ensures r == "AgentTask1" <==> s.currentActivity == Some("AgentTask1")
    ensures r == "UserTask2" <==> s.currentActivity == Some("UserTask2")
  {
    var next := s.currentActivity.GetOr("RenderTask1");
    if next == "AgentTask1" then "AgentTask1"
    else if next == "UserTask2" then "UserTask2"
    else "RenderTask1"
  }

  /** What the router node followed by its routing function selects. */
  lemma RouterSelection(s: GraphState)
    ensures RouteCondition(RouterTaskNode(s)) == "UserTask2" <==> NeedsReview(s)
    ensures RouteCondition(RouterTaskNode(s)) == "AgentTask1" <==>
      !NeedsReview(s) && s.intent == Some("fastener_search")
    ensures RouteCondition(RouterTaskNode(s)) == "RenderTask1" <==>
      !NeedsReview(s) && s.intent != Some("fastener_search")
  {
  }

  /** `user_task2_route`: both of its branches answer `"__end__"`. */
  function UserTask2Route(s: GraphState): (r: string)
    ensures r == "__end__"
  {
    if NeedsReview(s) then "__end__" else "__end__"
  }

  // ---------------------------------------------------------------------------
  // Human review
  // ---------------------------------------------------------------------------

  /** What `approve_return` answered: a truthy `success`, anything else, or an exception. */
  datatype ApprovalOutcome = ApprovalSucceeded | ApprovalFailed | ApprovalRaised(message: string)

  /** `human_input or input`. */
  function UserResponse(s: GraphState): string {
    if Given(s.humanInput) then s.humanInput.value else s.input.GetOr("")
  }

  predicate IsRefundLike(tr: ToolResult) {
    Given(tr.refundId) || Given(tr.returnRequestId) || tr.mentionsRefund
  }

  /** The review node takes its refund branch. */
  predicate InRefundReview(s: GraphState) {
    s.toolResult.Some? && IsRefundLike(s.toolResult.value)
  }

  const RefundApproveWords: set<string> := {"yes", "y", "approve", "confirm", "approved"}
  const RefundRejectWords: set<string> := {"no", "n", "reject", "cancel", "rejected"}
  const PlainApproveWords: set<string> := {"yes", "y", "approve", "confirm"}
  const PlainRejectWords: set<string> := {"no", "n", "reject", "cancel"}

  /** The reply approves: lowered and stripped in the refund branch, only lowered otherwise. */
  predicate Approves(s: GraphState) {
    var reply := UserResponse(s);
    reply != "" &&
    if InRefundReview(s) then Strip(Lower(reply)) in RefundApproveWords
    else Lower(reply) in PlainApproveWords
  }

  /** The reply rejects (and does not approve). */
  predicate Rejects(s: GraphState) {
    var reply := UserResponse(s);
    reply != "" && !Approves(s) &&
    if InRefundReview(s) then Strip(Lower(reply)) in RefundRejectWords
    else Lower(reply) in PlainRejectWords
  }

  /** The prompt shown while a decision is awaited; it depends on `tool_result` only. */
  function PendingPrompt(s: GraphState): Reply {
    if InRefundReview(s) then
      var tr := s.toolResult.value;
      PendingApproval(tr.orderId, tr.amount, tr.reason.GetOr("Customer request"))
    else ApproveOrRejectPrompt
  }

  /** The id `approve_return` is called with: `returnRequestId or refundId`. */
  function RequestId(tr: ToolResult): Option<string> {
    if Given(tr.returnRequestId) then tr.returnRequestId else tr.refundId
  }

  /** `user_task2_node`. `approve(id, approved)` is the result of
      `approve_return(id, approved=...)`. Only the review flag, the completion
      flag and the response change. A decision always clears the review flag;
      without one the node re-asks with a prompt computed from `tool_result`. */
  function UserTask2Node(s: GraphState, approve: (Option<string>, bool) -> ApprovalOutcome): (r: GraphState)
    ensures r == s.(needsHumanReview := r.needsHumanReview, workflowComplete := r.workflowComplete,
                    response := r.response)
    ensures Approves(s) || Rejects(s) ==> r.needsHumanReview == Some(false)
    ensures !Approves(s) && !Rejects(s) ==>
      r.needsHumanReview == Some(true) && r.response == Some(PendingPrompt(s))
      && r.workflowComplete == s.workflowComplete
    ensures InRefundReview(s) && Approves(s) && approve(RequestId(s.toolResult.value), true) == ApprovalSucceeded ==>
      r.workflowComplete == Some(true)
      && r.response == Some(RefundApproved(s.toolResult.value.orderId, s.toolResult.value.amount))
    ensures InRefundReview(s) && Approves(s) && approve(RequestId(s.toolResult.value), true) == ApprovalFailed ==>
      r.workflowComplete == Some(true) && r.response == Some(ApprovalError)
    ensures InRefundReview(s) && Approves(s) && approve(RequestId(s.toolResult.value), true).ApprovalRaised? ==>
      r.workflowComplete == s.workflowComplete
      && r.response == Some(ApprovalException(approve(RequestId(s.toolResult.value), true).message))
    ensures InRefundReview(s) && Rejects(s) ==>
      r.workflowComplete == Some(true)
      && r.response == Some(if approve(RequestId(s.toolResult.value), false) == ApprovalSucceeded
                            then RefundRejected(s.toolResult.value.orderId)
                            else RefundCancelled(s.toolResult.value.orderId))
    ensures !InRefundReview(s) && Approves(s) ==> r.workflowComplete == Some(true) && r.response == Some(RequestApproved)
    ensures !InRefundReview(s) && Rejects(s) ==> r.workflowComplete == Some(true) && r.response == Some(RequestCancelled)
  {
    var reply := UserResponse(s);
    if InRefundReview(s) then
      var tr := s.toolResult.value;
      var decision := Strip(Lower(reply));
      if reply != "" && decision in RefundApproveWords then
        match approve(RequestId(tr), true)
        case ApprovalSucceeded =>
          s.(needsHumanReview := Some(false), workflowComplete := Some(true),
             response := Some(RefundApproved(tr.orderId, tr.amount)))
        case ApprovalFailed =>
          s.(needsHumanReview := Some(false), workflowComplete := Some(true), response := Some(ApprovalError))
        case ApprovalRaised(m) =>
          s.(needsHumanReview := Some(false), response := Some(ApprovalException(m)))
      else if reply != "" && decision in RefundRejectWords then
        match approve(RequestId(tr), false)
        case ApprovalSucceeded =>
          s.(needsHumanReview := Some(false), workflowComplete := Some(true),
             response := Some(RefundRejected(tr.orderId)))
        case _ =>
          s.(needsHumanReview := Some(false), workflowComplete := Some(true),
             response := Some(RefundCancelled(tr.orderId)))
      else
        s.(needsHumanReview := Some(true),
           response := Some(PendingApproval(tr.orderId, tr.amount, tr.reason.GetOr("Customer request"))))
    else
      var decision := Lower(reply);
      if reply != "" && decision in PlainApproveWords then
        s.(needsHumanReview := Some(false), workflowComplete := Some(true), response := Some(RequestApproved))
      else if reply != "" && decision in PlainRejectWords then
        s.(needsHumanReview := Some(false), workflowComplete := Some(true), response := Some(RequestCancelled))
      else
        s.(needsHumanReview := Some(true), response := Some(ApproveOrRejectPrompt))
  }

  /** An unrecognised reply leaves the node at a fixed point: running it again
      with the same reply, whatever the approval service would answer, changes nothing. */
  lemma UndecidedReviewIdempotent(s: GraphState, a: (Option<string>, bool) -> ApprovalOutcome,
                                  b: (Option<string>, bool) -> ApprovalOutcome)
    requires !Approves(s) && !Rejects(s)
    ensures UserTask2Node(UserTask2Node(s, a), b) == UserTask2Node(s, a)
  {
    var r := UserTask2Node(s, a);
    assert UserResponse(r) == UserResponse(s) && InRefundReview(r) == InRefundReview(s);
  }

  /** After an undecided review, the router sends the next pass back to review. */
  lemma UndecidedReviewRoutesBackToReview(s: GraphState, a: (Option<string>, bool) -> ApprovalOutcome)
    requires !Approves(s) && !Rejects(s)
    ensures RouteCondition(RouterTaskNode(UserTask2Node(s, a))) == "UserTask2"
  {
  }
}
