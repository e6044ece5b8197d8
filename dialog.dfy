/**
 * The dialog state machine shared by the HTTP service (`api.py`) and the
 * console bot (`im_bot.py`): session states, the intent keywords, the fixed
 * reply texts, and one turn of `handle_message` as a function.
 *
 * The text generator (`ollama_generate`) is the parameter `generate`: any
 * function from a prompt to a reply. On failure the real one returns an
 * `[ERROR]`-prefixed text rather than raising, so it is total, like every
 * function of this type.
 */
module Dialog {
  import opened Wrappers
  import opened Text
  import opened OrderId

  /** A session's `state`. The source stores a free string; `Other(name)`
      stands for any string that is none of the three named states. */
  datatype State = WaitingIntent | WaitingOrderId | Done | Other(name: string)
  {
    /** One of the three states the code ever assigns. */
    predicate Known() {
      !Other?
    }

    /** The string stored in `session["state"]` and reported by `/chat`. */
    function Name(): string {
      match this
      case WaitingIntent => "waiting_intent"
      case WaitingOrderId => "waiting_order_id"
      case Done => "done"
      case Other(name) => name
    }
  }

  /** Read a stored state string, as `handle_message`'s comparisons do. */
  function StateOf(name: string): (st: State)
    ensures st.Name() == name
    ensures st.Other? <==> name !in {"waiting_intent", "waiting_order_id", "done"}
  {
    if name == "waiting_intent" then WaitingIntent
    else if name == "waiting_order_id" then WaitingOrderId
    else if name == "done" then Done
    else Other(name)
  }

  /** The state string and the state datatype carry the same information. */
  lemma StateNameRoundTrip(st: State)
    requires st.Other? ==> st.name !in {"waiting_intent", "waiting_order_id", "done"}
    ensures StateOf(st.Name()) == st
  {
  }

  /** The contents of one session dict: `{"state": ..., "order_id": ...}`. */
  datatype SessionData = SessionData(state: State, orderId: Option<string>)

  /** What `get_session` stores for a key it has not seen. */
  const Initial := SessionData(WaitingIntent, None)

  /** The session invariant: an order id is held exactly in `done`, and it is
      4 to 12 digits. */
  predicate Consistent(s: SessionData) {
    && (s.orderId.Some? <==> s.state == Done)
    && (s.orderId.Some? ==> IsOrderIdShape(s.orderId.value))
  }

  const IntentKeywords: seq<string> := ["查订单", "订单", "查询", "工单", "售后"]

  /** `any(k in user_msg for k in [...])`. */
  predicate HasIntent(msg: string) {
    exists k | k in IntentKeywords :: Contains(k, msg)
  }

  /** The message mentions an order intent exactly when one of the keywords occurs in it. */
  lemma HasIntentSpec(msg: string)
    ensures HasIntent(msg) <==> exists k, i :: k in IntentKeywords && OccursAt(k, msg, i)
  {
    forall k | k in IntentKeywords {
      ContainsSpec(k, msg);
    }
  }

  /** "查订单" contains "订单", so the first keyword never decides anything. */
  lemma IntentWithoutRedundantKeyword(msg: string)
    ensures HasIntent(msg) <==> Contains("订单", msg) || Contains("查询", msg) || Contains("工单", msg) || Contains("售后", msg)
  {
    if Contains("查订单", msg) {
      assert OccursAt("订单", "查订单", 1);
      ContainsSpec("订单", "查订单");
      ContainsTransitive("订单", "查订单", msg);
    }
    assert IntentKeywords[1] == "订单" && IntentKeywords[2] == "查询";
    assert IntentKeywords[3] == "工单" && IntentKeywords[4] == "售后";
  }

  // Fixed texts and prompts, as in api.py (im_bot.py shares all but FlowEnded
  // and StateResetNotice).
  const IntentGuidance := "你可以说“我想查订单”，我会引导你提供订单号。"
  const NotAnOrderId := "看起来不像订单号，请发一串数字，例如：123456"
  const AskOrderIdAgain := "请提供订单号（例如：123456）"
  const FlowEnded := "流程已结束。输入“我想查订单”可重新开始。"
  const StateResetNotice := "状态异常已重置。你可以输入“我想查订单”开始。"
  const AskOrderIdPrompt := "你是客服机器人。请用非常简短的一句话，礼貌地让用户提供订单号（只输出一句话）。"

  function ConfirmPrompt(id: string): string {
    "你是客服机器人。请用一句话确认已收到订单号 " + id + "，并询问是否还需要帮助（只输出一句话）。"
  }

  /** One turn of `handle_message`: the session after the turn, and the reply. */
  function Step(s: SessionData, msg: string, generate: string -> string): (r: (SessionData, string))
    ensures r.0.state.Known()
    ensures Consistent(s) ==> Consistent(r.0)
  {
    match s.state
    case WaitingIntent =>
      if HasIntent(msg) then (s.(state := WaitingOrderId), generate(AskOrderIdPrompt))
      else (s, IntentGuidance)
    case WaitingOrderId =>
      (match ExtractOrderId(msg)
       case None => (s, NotAnOrderId)
       case Some(id) => (SessionData(Done, Some(id)), generate(ConfirmPrompt(id))))
    case Done =>
      if HasIntent(msg) then (SessionData(WaitingOrderId, None), AskOrderIdAgain)
      else (s, FlowEnded)
    case Other(_) =>
      (SessionData(WaitingIntent, None), StateResetNotice)
  }

  /** The generator is consulted only on turns that move the session; a turn
      that leaves it as it was answers with a fixed text. */
  lemma GeneratorOnlyWhenMoving(s: SessionData, msg: string, g1: string -> string, g2: string -> string)
    ensures Step(s, msg, g1).0 == Step(s, msg, g2).0
    ensures Step(s, msg, g1).0 == s ==> Step(s, msg, g1).1 == Step(s, msg, g2).1
  {
  }

  /** A sequence of turns on one session: the final session and the replies. */
  function Converse(s: SessionData, msgs: seq<string>, generate: string -> string): (SessionData, seq<string>)
    decreases |msgs|
  {
    if msgs == [] then (s, [])
    else
      var (next, reply) := Step(s, msgs[0], generate);
      var (last, replies) := Converse(next, msgs[1..], generate);
      (last, [reply] + replies)
  }

  /** Every turn keeps the session invariant, so any conversation does. */
  lemma {:induction false} ConverseConsistent(s: SessionData, msgs: seq<string>, generate: string -> string)
    requires Consistent(s)
    ensures Consistent(Converse(s, msgs, generate).0)
    ensures |Converse(s, msgs, generate).1| == |msgs|
    decreases |msgs|
  {
    if msgs != [] {
      ConverseConsistent(Step(s, msgs[0], generate).0, msgs[1..], generate);
    }
  }

  /** Routing never depends on the generator: two generators drive a
      session through the same states and order ids. */
  lemma {:induction false} ConverseIgnoresGenerator(s: SessionData, msgs: seq<string>, g1: string -> string, g2: string -> string)
    ensures Converse(s, msgs, g1).0 == Converse(s, msgs, g2).0
    decreases |msgs|
  {
    if msgs != [] {
      GeneratorOnlyWhenMoving(s, msgs[0], g1, g2);
      ConverseIgnoresGenerator(Step(s, msgs[0], g1).0, msgs[1..], g1, g2);
    }
  }

  /** Turn one of a lookup: asking for an order moves a new session on. */
  lemma AskTurn(generate: string -> string)
    ensures Step(Initial, "我想查订单", generate) == (SessionData(WaitingOrderId, None), generate(AskOrderIdPrompt))
  {
    assert OccursAt("订单", "我想查订单", 3);
    ContainsSpec("订单", "我想查订单");
  }

  /** Turn two: a message without a number keeps the session waiting. */
  lemma NonNumberTurn(generate: string -> string)
    ensures Step(SessionData(WaitingOrderId, None), "abc", generate) == (SessionData(WaitingOrderId, None), NotAnOrderId)
  {
    ExtractNoDigits();
  }

  /** Turn three: a bare number is taken as the order id. */
  lemma OrderIdTurn(generate: string -> string)
    ensures Step(SessionData(WaitingOrderId, None), "123456", generate)
            == (SessionData(Done, Some("123456")), generate(ConfirmPrompt("123456")))
  {
    ExtractBareNumber();
  }

  /** The three turns in a row reach `done` with the id recorded, whatever
      the generator answers (a failing backend included). */
  lemma OrderLookupScenario(generate: string -> string)
    ensures Converse(Initial, ["我想查订单", "abc", "123456"], generate).0 == SessionData(Done, Some("123456"))
  {
    AskTurn(generate);
    NonNumberTurn(generate);
    OrderIdTurn(generate);
    var msgs := ["我想查订单", "abc", "123456"];
    assert msgs[1..] == ["abc", "123456"];
    assert msgs[1..][1..] == ["123456"];
    assert msgs[1..][1..][1..] == [];
  }
}
