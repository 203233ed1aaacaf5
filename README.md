# Order-management agent: a verified model of its core

The system is a conversational order-management assistant. A workflow file
lists activities (Start, UserTask1, RouterTask1, UserTask2, …) and the
connections between them. `build_from_copilot_json` compiles that file into a
graph of named nodes with direct and conditional edges. Each chat turn runs the
graph over an open state record. A turn that needs a human decision (a refund
approval) pauses with `needs_human_review` set. The next turn may resume it from
the conversation's checkpoint. Tool steps call deterministic order tools:
schema validation, fraud scoring, shipping quotes and coupons. A seed script for
the graph database is split into statements by `parse_cypher_string`.

The Dafny project models this core:

| module | file | models |
|---|---|---|
| `Common` | common.dfy | `Option`, `Result`, decoded JSON values and Python truthiness |
| `Text` | text.dfy | `strip`, `lstrip`, `rstrip`, `lower`, `title`, `split`, `join`, `str(n)` and `re.sub(r"//.*$", "", …)` |
| `Routing` | routing.dfy | the state record, `initial_state`, `classify_intent`, `router_task_node`, `route_condition`, `user_task2_route`, `user_task2_node` (graph.py) |
| `WorkflowGraph` | workflow_graph.dfy | `get_property_value`, `build_from_copilot_json`, `build_graph` (graph.py) |
| `WorkflowProperties` | workflow_properties.dfy | what the compiled graph looks like: unique names, failures, wiring, END edges |
| `Cypher` | cypher.dfy | `parse_cypher_string` (neo4j_module.py) |
| `OrderTools` | order_tools.dfy | `validate_order_schema`, `fraud_check`, `calculate_shipping`, `apply_coupon` (tools/order_tools.py) |
| `ChatServer` | server.dfy | the turn logic of `chat_endpoint` (server.py) |

Code that loops or updates in place is modelled as Dafny methods with loops:

- the builder's three loops;
- the property lookup;
- the suffix search;
- the Cypher line loop;
- the validator's two passes;
- the fraud rule loop;
- the endpoint, as a class holding the checkpoints and the stored messages.

Each method is proved equal to a specification function. The lemmas state what
the source promises about that function.

Where the system's description and its code differ, the model follows the code:

- A checkpoint is not cleared when a turn resumes. The checkpointer keeps the last state of every conversation.
- A resumed turn runs the graph again on the checkpointed values. The run starts again at START, so `user_task_node` and `tool_task_node` run before the review (graph.py:130-142, 223-276). For a refund, `tool_task_node` calls `process_refund` again (graph.py:249). That files a new return request, and the review node then approves or rejects the new one. `ChatServer.ResumedRefundDecided` applies the router and the review node to the checkpoint directly. Its conclusion carries over to the re-run: every dictionary `process_refund` returns has a `refundId` key (tools/order_tools.py:402-451), so `"refund" in str(tool_result).lower()` holds and the state stays a refund review. The re-run itself is not modelled.
- A failed checkpoint lookup or resumed run is not fatal. The turn falls back to a fresh run.
- Activities are keyed by id. A repeated id overwrites the earlier entry in the node map, but the graph still holds the earlier node. A later activity can then be given a name the graph already has. LangGraph's `add_node` refuses such a name with a `ValueError`, and `build_graph` does not catch it. The model returns `DuplicateNode` there (`WorkflowProperties.RepeatedIdFails`).

## Model

| member | source | states |
|---|---|---|
| Routing.InitialState | graph.py:709-736 | the fresh state holds the input and channel, has the review flag false, has no human input, intent, tool result, response, current activity, review message or redirect URL, and is not complete |
| Routing.ClassifyIntent | graph.py:78-108 | the result is one of the seven intents, and each intent holds exactly when its keyword group matches and no earlier group applies; the four order intents also need an order id |
| Routing.RouterTaskNode | graph.py:279-298 | only `current_activity` changes; it is UserTask2 iff review is pending, AgentTask1 iff no review and the intent is fastener search, RenderTask1 otherwise |
| Routing.RouteCondition | graph.py:619-625 | the key is in the route table; AgentTask1 and UserTask2 iff `current_activity` says so, RenderTask1 for anything else |
| Routing.RouterSelection | graph.py:279-298 | router node then routing function selects UserTask2 iff review is pending and AgentTask1 iff the fastener intent without review |
| Routing.UserTask2Route | graph.py:642-652 | both branches return `__end__` |
| Routing.UserTask2Node | graph.py:426-527 | only the review flag, completion flag and response change. A decision clears the review flag; no decision keeps it set and re-prompts. For a refund approval: success completes with the approval reply, failure completes with the error reply, and an exception leaves completion unchanged and reports its message. A refund rejection completes, with the rejection reply if the service succeeds and the cancellation reply otherwise. Outside a refund, approval and rejection complete with the approved and cancelled replies |
| Routing.UndecidedReviewIdempotent | graph.py:500-525 | an unrecognised reply is a fixed point of the review node, whatever the approval service answers |
| Routing.UndecidedReviewRoutesBackToReview | graph.py:279-298 | after an undecided review the router sends the next pass back to UserTask2 |
| WorkflowGraph.GetPropertyValue | graph.py:52-58 | the value of the first property with that name (the default when it has no value), the default when none has it |
| WorkflowGraph.SuffixedInjective | graph.py:586-589 | distinct suffixes give distinct candidate names |
| WorkflowGraph.FirstFreeSuffix | graph.py:585-589 | the search returns the smallest suffix from 2 on whose candidate is free |
| WorkflowGraph.UniqueName | graph.py:583-592 | the name is not taken; a free activity name is kept; a taken one gets its first free suffix |
| WorkflowGraph.PickNodeName | graph.py:583-592 | the `while` loop computes `UniqueName` |
| WorkflowGraph.AddNodes | graph.py:575-595 | the activity loop computes the naming, or the first error: a missing handler, or a chosen name the graph already holds |
| WorkflowGraph.AddConnections | graph.py:598-664 | the connection loop computes the wiring specification |
| WorkflowGraph.AddEndEdges | graph.py:672-675 | exactly the END edges of node names without outgoing connections are added |
| WorkflowGraph.BuildFromCopilotJson | graph.py:554-680 | the builder computes `Compile`, including its missing-handler, duplicate-node and missing-start errors and `compile()`'s refusal of a route target that is not a node |
| WorkflowGraph.FirstMissing | graph.py:627-635 | the first route target, in table order, that is not a node; none exactly when all are nodes |
| WorkflowGraph.BuildGraph | graph.py:683-706 | a definition without activities or start id is unsupported; otherwise the Copilot build |
| WorkflowGraph.NameErrorPersists | graph.py:575-594 | once an activity raises (no handler, or a name the graph already holds) the whole pass fails with that error |
| WorkflowProperties.RegisteredNamesPlain | graph.py:561-571 | registered activity names are non-empty and contain no `_` |
| WorkflowProperties.UniqueNameShape | graph.py:583-592 | a registered name is kept or gains a `_` suffix, never empty |
| WorkflowProperties.NamingLength | graph.py:575-595 | one node per activity |
| WorkflowProperties.NamingKeys | graph.py:595 | the node map is keyed by exactly the activity ids |
| WorkflowProperties.NamingHandlers | graph.py:578-594 | each node carries the handler registered for its activity's name |
| WorkflowProperties.NamingNames | graph.py:583-592 | each node's name is its activity's name or a suffixed one |
| WorkflowProperties.NamingValuesNonEmpty | graph.py:595 | no id maps to the empty name |
| WorkflowProperties.NamingShape | graph.py:575-595 | the combined shape of a successful naming pass |
| WorkflowProperties.NamingSucceedsIff | graph.py:578-595 | naming succeeds only if every activity name has a handler; with distinct ids that is also enough, so no duplicate-node error arises |
| WorkflowProperties.NamingPrefix | graph.py:575-595 | naming a prefix gives a prefix of the nodes |
| WorkflowProperties.NodeNameAt | graph.py:583-594 | node i gets the unique name computed from the names assigned before it |
| WorkflowProperties.NamingValues | graph.py:583-595 | with distinct ids the node map's values are exactly the node names |
| WorkflowProperties.NamingIdsMapped | graph.py:595 | with distinct ids each id maps to its own node's name |
| WorkflowProperties.NamingNamesDistinct | graph.py:583-594 | after a successful pass no two nodes share a name |
| WorkflowProperties.NamingOwnNamesPresent | graph.py:583-595 | every activity's own name is held by some node |
| WorkflowProperties.NamingDistinct | graph.py:573-595 | with distinct ids: names pairwise distinct, ids mapped to their nodes, values equal to node names, every activity name present |
| WorkflowProperties.NameAssignment | graph.py:583-592 | the first activity with a name keeps it; a later one gets `name_k` for the smallest free k ≥ 2 |
| WorkflowProperties.RepeatedIdFails | graph.py:583-595 | ids "1", "1", "2" all named Start: the second entry overwrites the first in the map, so the third activity is given the name Start again and the build fails with `DuplicateNode("Start")` |
| WorkflowProperties.CompileFailsOnUnknownHandler | graph.py:578-581 | when the earlier activities name cleanly, the build fails with the missing handler of the next activity |
| WorkflowProperties.CompileStartCheck | graph.py:666-670 | when naming succeeds, the build reports the start id as not found iff no activity carries it |
| WorkflowProperties.CompileSucceedsIff | graph.py:627-680 | when naming succeeds, the build succeeds iff some activity has the start id and, if the router has a conditional edge, AgentTask1, UserTask2 and RenderTask1 are all nodes; otherwise the failure is the start id or the first missing router target |
| WorkflowProperties.NamingValuesNamed | graph.py:594-595 | every name in the node map is a node of the graph, even after a repeated id |
| WorkflowProperties.FirstTargetResolves | graph.py:603-611 | the review node's route target is a mapped node name |
| WorkflowProperties.CompiledGraphValid | graph.py:666-680 | every built graph passes `compile()`'s checks: the entry point, both ends of every edge and every route target are nodes or END |
| WorkflowProperties.RouterWithoutTargetsFails | graph.py:627-635 | Start, RouterTask1 and RenderTask1 wired 1→2→3 fail to build with the unknown target AgentTask1 |
| WorkflowProperties.WiringOutgoing | graph.py:603-613 | the outgoing record holds exactly the sources of resolving connections |
| WorkflowProperties.WiringEdges | graph.py:603-664 | the direct edges are exactly the resolving connections from non-conditional names |
| WorkflowProperties.WiringBranches | graph.py:615-662 | each conditional name that is a source gets one conditional edge: the router's fixed table, the review node's aimed at its first connection's target |
| WorkflowProperties.WiringShape | graph.py:597-664 | the combined description of the connection loop |
| WorkflowProperties.DanglingConnectionsIgnored | graph.py:607-611 | connections with an unresolved end change nothing |
| WorkflowProperties.SinksRouteToEnd | graph.py:672-675 | a node gets an END edge iff no resolving connection leaves it, and only node names do |
| WorkflowProperties.ConditionalEdges | graph.py:615-662 | the conditional edges of the compiled graph; conditional names get no direct edge other than to END |
| WorkflowProperties.RouterBranchTargets | graph.py:619-635 | the router's edge leads to one of its three targets, and to UserTask2 iff review was pending |
| WorkflowProperties.ReviewBranchEnds | graph.py:642-661 | the review node's edge always leads to END |
| Text.Strip | neo4j_module.py:422 | `strip()` gives a trimmed infix of its input, and every character it drops before or after that infix is whitespace |
| Text.StripEmpty | neo4j_module.py:422 | `line.strip()` is empty iff the line is all whitespace |
| Text.SplitJoin | neo4j_module.py:411 | joining the pieces of a split with the separator gives the input back |
| Text.NatToStringInjective | tools/order_tools.py:482-484 | distinct item indexes print differently |
| Text.StripComment | neo4j_module.py:418 | the line is cut just before its first `//`; the rest has no `//`; a line without `//` is unchanged |
| Cypher.ParseCypherString | neo4j_module.py:399-483 | the line loop computes `ParseCypher` |
| Cypher.ConsumeLine | neo4j_module.py:416-475 | one loop iteration performs one `Step` on the statements and the pending fragments |
| Cypher.ConsumeBlank | neo4j_module.py:422-434 | the blank-line branch performs the Blank step |
| Cypher.ConsumeClosing | neo4j_module.py:437-447 | the `;` branch performs the Closing step |
| Cypher.ConsumeSet | neo4j_module.py:455-466 | the `SET` branch performs the SetLine step |
| Cypher.EmitPending | neo4j_module.py:477-481 | emitting appends the joined pending statement when there is one |
| Cypher.StepValid | neo4j_module.py:416-475 | each step keeps the state valid and loses no fragment |
| Cypher.RunValid | neo4j_module.py:416-475 | the loop's groups and pending fragments are the input's fragments in order |
| Cypher.ParseLinesShape | neo4j_module.py:399-483 | one statement per group, each the single-space join of its fragments, non-empty, trimmed and `//`-free; the groups laid end to end are all fragments |
| Cypher.ParseCypherShape | neo4j_module.py:399-483 | the same for the whole text split at newlines |
| Cypher.EndOfInput | neo4j_module.py:477-481 | a pending statement at the end is emitted |
| Cypher.CommentIgnored | neo4j_module.py:418 | appending `//` and anything leaves a line's classification unchanged |
| Cypher.ClassifyBlank | neo4j_module.py:422 | a line blank after comment removal is Blank |
| Cypher.BlankStep | neo4j_module.py:422-434 | a blank line leaves a pending MERGE open and otherwise emits the pending statement |
| Cypher.ClassifyClosing | neo4j_module.py:437-441 | a line ending in `;` closes with its stripped text before the `;` |
| Cypher.ClosingStep | neo4j_module.py:437-447 | the closing text joins the pending fragments as one group and nothing is pending |
| Cypher.KeywordsExclusive | neo4j_module.py:450-452 | a SET line is not a statement start |
| Cypher.ClassifySet | neo4j_module.py:451 | a line starting with SET (any case) is a SetLine |
| Cypher.SetStep | neo4j_module.py:455-466 | SET joins a pending MERGE; after anything else it emits and starts a new statement |
| Cypher.ClassifyStart | neo4j_module.py:450-452 | a line starting with MERGE, CREATE or MATCH is a statement start |
| Cypher.StartStep | neo4j_module.py:467-472 | a statement start emits any pending statement and starts a new one |
| Cypher.CommentedSetLine | neo4j_module.py:418 | a SET line followed by `//` and anything is the SET line alone |
| Cypher.UrlTruncated | neo4j_module.py:177 | the UPS seed line loses its URL after `https:` |
| Cypher.UrlTruncatedStatement | neo4j_module.py:175-177 | the UPS MERGE line and its two SET lines form a single statement, which ends in the truncated `https:` |
| OrderTools.ValidateOrderSchema | tools/order_tools.py:459-494 | the validator computes `Validate` |
| OrderTools.CollectMissing | tools/order_tools.py:465-472 | the field pass collects the missing required fields in order |
| OrderTools.CollectItemErrors | tools/order_tools.py:477-484 | the item pass collects one message per bad item in index order |
| OrderTools.MissingFieldsInOrder | tools/order_tools.py:462-472 | the missing fields are exactly those of orderId, customerId, items that are absent or falsy, in that order |
| OrderTools.ItemErrorsEmpty | tools/order_tools.py:477-484 | no item error iff every item is an object with a name and a quantity |
| OrderTools.ItemErrorsIndexed | tools/order_tools.py:477-484 | every item error names a bad item by its index, and every bad item has one |
| OrderTools.ValidIff | tools/order_tools.py:459-494 | valid iff id and customer are given and items are a non-empty list of objects each with name and quantity |
| OrderTools.ValidationAsks | tools/order_tools.py:486-494 | ASK_USER iff invalid; valid iff no errors; one question and one error message per missing field, in place |
| OrderTools.FraudCheck | tools/order_tools.py:655-710 | the fraud check computes `Assess` |
| OrderTools.TallyScore | tools/order_tools.py:667-673 | each flag is worth 20 points, there are at most as many flags as rules, and manual review holds iff a firing rule demands it |
| OrderTools.TallyShape | tools/order_tools.py:667-673 | the flags are exactly the flags of the firing rules, in rule order: every firing rule contributes its flag, and every flag names a firing rule |
| OrderTools.FiringFlagsAppend | tools/order_tools.py:665-673 | taking one more rule into account appends its flag exactly when it fires |
| OrderTools.FiringFlagsComplete | tools/order_tools.py:667-673 | every firing rule's flag is among the firing flags |
| OrderTools.RiskLevels | tools/order_tools.py:676-710 | HIGH iff score ≥ 30 or manual review; MEDIUM iff 15 ≤ score < 30 without; LOW iff below 15 without; approved iff not HIGH; review iff not LOW; guests are always reviewed; every rule id is reported |
| OrderTools.TallyMonotone | tools/order_tools.py:665-673 | a larger amount fires at least the same rules |
| OrderTools.FraudMonotone | tools/order_tools.py:665-708 | a larger total never scores lower and never leaves HIGH risk or review |
| OrderTools.ShippingMethodChosen | tools/order_tools.py:539-575 | an unknown method falls back to standard; the quote names the resolved method unless free shipping turned it into "free" |
| OrderTools.FreeShippingThreshold | tools/order_tools.py:569-583 | from 50 on, standard and free shipping cost nothing, are labelled "Free Shipping" and take 5 days |
| OrderTools.ShippingCost | tools/order_tools.py:541-566 | otherwise the cost is the store's base rate if it has one, else the table rate, else 7.99 |
| OrderTools.ShippingDays | tools/order_tools.py:578-583 | 1 day overnight, 2 express, 5 otherwise |
| OrderTools.ShippingCostBounds | tools/order_tools.py:541-572 | with non-negative store rates a quote is never negative, and is zero, a store rate or a table rate |
| OrderTools.CouponAppliesIff | tools/order_tools.py:589-652 | applied iff a code names an active coupon whose minimum is met and whose type is known; a refusal keeps the amount and names its reason unless no code was given |
| OrderTools.PercentageCoupon | tools/order_tools.py:619-631 | the rate is the value, or the value over 100 above 1; discount plus final is the amount; for values in 0..100 the final amount stays between 0 and the amount |
| OrderTools.FlatCoupon | tools/order_tools.py:632-634 | the final amount is never negative and otherwise is the amount minus the value |
| OrderTools.ShippingCoupon | tools/order_tools.py:635-636 | free shipping, no discount, amount unchanged |
| OrderTools.CouponNeverRaises | tools/order_tools.py:594-652 | for a coupon value in 0..100, a non-negative amount never goes below zero or up |
| ChatServer.ChatService.Chat | server.py:80-162 | an empty message fails with status 500 and changes nothing; otherwise the user message is stored, the turn runs as `Turn`, a failure is a 500, a success updates the conversation's checkpoint, stores the reply and returns it |
| ChatServer.ChatService.RunTurn | server.py:94-122 | the graph runs on the resumed state or a fresh one, as `Turn` says |
| ChatServer.FreshTurn | server.py:86-98 | defaults "default" and "chat"; the fresh state holds the message and the human input only when given; it is never paused and never routed to review |
| ChatServer.ResumeOnlyWhenPaused | server.py:103-113 | resumed iff the turn asks for it and the checkpoint is paused; the resumed state is the checkpoint with the answer as human input, and the router sends it to UserTask2 |
| ChatServer.TurnRuns | server.py:103-122 | without a resume target a fresh run; a resumed run that succeeds is the result; a turn fails only if the fresh run fails |
| ChatServer.ResumeWordsAreDecisions | server.py:103 | the resume words are exactly the review step's plain approve and reject words, and all are refund decisions |
| ChatServer.ResumedRefundDecided | server.py:103-113 | a paused refund resumed by a yes/no message is always decided |
| ChatServer.PaddedAnswerAsksAgain | graph.py:515 | " yes" resumes a paused non-refund review, which then asks again because that branch does not strip |
| ChatServer.ReviewMessageOverrides | server.py:148-162 | the reply is the review message iff review is pending with a non-empty message; otherwise the graph's response |

## Left out

- Running the graph (LangGraph's scheduler), the checkpointer's internals, the LLM, retrieval and agent nodes, and the rest of the node functions: they are calls into code that is not part of this model. The endpoint takes the graph run as a function parameter.
- `extract_entities` and the regular expressions of `classify_intent`: `Routing.ClassifyIntent` takes which keyword groups matched as input.
- Response texts and their formatting: replies are the `Reply` datatype, and `str()` of a reply is not modelled.
- File reading and JSON decoding in `build_from_copilot_json` and `build_graph`: the model starts from the decoded definition.
- WorkflowGraph.BuildFromCopilotJson: every activity is taken to have an `Id` and a `Name`, and every connection a `SourceActivityId` and a `TargetActivityId`. The `KeyError` the source raises for a missing key (graph.py:576-577, 604-605) is not modelled.
- WorkflowGraph.BuildFromCopilotJson: a top-level key that is present but `null` counts as absent. The source's `.get` returns `None` there (graph.py:554-556). For `StartActivityId` the source then fails with its start-not-found error, while the model uses the default `"1"`. For the activity or connection list the source fails on iterating `None`, while the model uses the empty list.
- WorkflowGraph.AddNodes: LangGraph's node registry is a set of the names added so far. Of `add_node`'s checks, only the refusal of a name already present is modelled. The others cannot fire for the nine registered names and their `_k` suffixes: the reserved names START and END, a clash with a state key, and the characters `|` and `:`.
- WorkflowGraph.Compile: of LangGraph's `compile()` checks, only the route-table check is modelled. The others hold for every built graph (`WorkflowProperties.CompiledGraphValid`). Checkpointer wiring is not modelled.
- Python `re` and string methods are modelled for ASCII only. Whitespace is the ASCII part of what `str.isspace()` accepts (space, `\t`, `\n`, `\r`, `\v`, `\f` and 0x1C to 0x1F), and case folding is ASCII.
- Database lookups (`neo4j_get_shipping_method`, `neo4j_get_coupon_details`, `neo4j_get_fraud_rules`) are map parameters. Records are taken as well-typed: a present-but-null field counts as absent, and a failing `float()` conversion is not modelled.
- OrderTools.ShippingCost: the quote's cost is exact; `round(…, 2)` is not modelled, nor are floating-point effects.
- OrderTools.PercentageCoupon: discount and final amount are exact reals; `round(…, 2)` is not modelled.
- OrderTools.FraudCheck: item prices are a list of numbers, with a missing price as 0. The crash on a `None` item when another item is priced is not modelled.
- ChatServer.ChatService.Chat: the stored assistant message is the reply before the fallback cascade (server.py:166-270); that cascade only formats text. The coroutine checks and debug printing are not modelled. The error detail is a structured cause, not the text of `str(HTTPException)`.
- ChatServer.ChatService.Chat: a run that raises leaves the checkpoint unchanged in the model; what the checkpointer saved part-way is not modelled.
- Cypher.PendingMerge: `Cypher.Step` tests for a pending MERGE on the first fragment, where the source tests the joined text. The two agree because every pending fragment is non-empty and trimmed (`Cypher.PendingMergeJoined`); the loop itself performs the source's test on the joined text.
