/**
 * The HTTP service of `api.py`: the global `SESSIONS` dict as a store object,
 * sessions as objects updated in place, `/chat` and `/reset`.
 */
module Api {
  import opened Wrappers
  import opened Text
  import opened OrderId
  import opened Dialog

  /** One session dict, shared between `SESSIONS` and whoever `get_session`
      handed it to; `handle_message` writes its two entries in place. */
  class Session {
    var state: State
    var orderId: Option<string>

    /** The literal `{"state": "waiting_intent", "order_id": None}`. */
    constructor ()
      ensures state == WaitingIntent && orderId == None
    {
      state := WaitingIntent;
      orderId := None;
    }

    function Data(): SessionData
      reads this
    {
      SessionData(state, orderId)
    }

    /** `handle_message(session, user_msg)`. */
    method HandleMessage(msg: string, generate: string -> string) returns (reply: string)
      modifies this
      ensures (Data(), reply) == Step(old(Data()), msg, generate)
      ensures old(state) == WaitingIntent && HasIntent(msg) ==>
                state == WaitingOrderId && orderId == old(orderId) && reply == generate(AskOrderIdPrompt)
      ensures old(state) == WaitingIntent && !HasIntent(msg) ==>
                Data() == old(Data()) && reply == IntentGuidance
      ensures old(state) == WaitingOrderId && ExtractOrderId(msg).Some? ==>
                state == Done && orderId == ExtractOrderId(msg) && reply == generate(ConfirmPrompt(orderId.value))
      ensures old(state) == WaitingOrderId && ExtractOrderId(msg).None? ==>
                Data() == old(Data()) && reply == NotAnOrderId
      ensures old(state) == Done && HasIntent(msg) ==>
                state == WaitingOrderId && orderId == None && reply == AskOrderIdAgain
      ensures old(state) == Done && !HasIntent(msg) ==>
                Data() == old(Data()) && reply == FlowEnded
      ensures old(state).Other? ==>
                state == WaitingIntent && orderId == None && reply == StateResetNotice
    {
      if state == WaitingIntent {
        if HasIntent(msg) {
          state := WaitingOrderId;
          return generate(AskOrderIdPrompt);
        }
        return IntentGuidance;
      }
      if state == WaitingOrderId {
        var id := ExtractOrderId(msg);
        if id.None? {
          return NotAnOrderId;
        }
        orderId := id;
        state := Done;
        return generate(ConfirmPrompt(id.value));
      }
      if state == Done {
        if HasIntent(msg) {
          state := WaitingOrderId;
          orderId := None;
          return AskOrderIdAgain;
        }
        return FlowEnded;
      }
      state := WaitingIntent;
      orderId := None;
      return StateResetNotice;
    }
  }

  /** The JSON body `/chat` answers with (latency not modelled). */
  datatype ChatResponse = ChatResponse(sessionId: string, state: string, orderId: Option<string>, reply: string)

  /** The JSON body `/reset/{session_id}` answers with. */
  datatype ResetResponse = ResetResponse(sessionId: string, reset: bool)

  /** `SESSIONS`: session key to session dict. */
  class SessionStore {
    var sessions: map<string, Session>
    /** What each key's session currently holds. */
    ghost var contents: map<string, SessionData>

    /** `contents` mirrors the session objects, no two keys share a session
        object, and every session is consistent and in one of the three
        named states (nothing else is ever stored). */
    ghost predicate Valid()
      reads this, sessions.Values
    {
      && sessions.Keys == contents.Keys
      && (forall k :: k in sessions ==> sessions[k].Data() == contents[k])
      && (forall k1, k2 :: k1 in sessions && k2 in sessions && k1 != k2 ==> sessions[k1] != sessions[k2])
      && (forall k :: k in contents ==> Consistent(contents[k]) && contents[k].state.Known())
    }

    constructor ()
      ensures Valid() && sessions == map[] && contents == map[]
    {
      sessions := map[];
      contents := map[];
    }

    /** `get_session(session_id)`. */
    method GetSession(key: string) returns (s: Session)
      requires Valid()
      modifies this
      ensures Valid()
      ensures key in sessions && s == sessions[key]
      ensures key in old(sessions) ==> sessions == old(sessions)
      ensures key !in old(sessions) ==> fresh(s) && sessions == old(sessions)[key := s]
      ensures fresh(sessions.Values - old(sessions.Values))
      ensures contents == old(contents)[key := if key in old(contents) then old(contents)[key] else Initial]
    {
      if key !in sessions {
        s := new Session();
        sessions := sessions[key := s];
        contents := contents[key := Initial];
      } else {
        s := sessions[key];
      }
    }

    /** `handle_message` on the session stored under `key`: that entry
        moves by one turn, and no other session is touched. */
    method Advance(key: string, msg: string, generate: string -> string) returns (reply: string)
      requires Valid() && key in sessions
      modifies this, sessions[key]
      ensures Valid()
      ensures sessions == old(sessions)
      ensures var turn := Step(old(contents)[key], msg, generate);
              contents == old(contents)[key := turn.0] && reply == turn.1
    {
      var session := sessions[key];
      reply := session.HandleMessage(msg, generate);
      contents := contents[key := session.Data()];
    }

    /** `POST /chat`: one turn on the session named `key`, with the message stripped. */
    method Chat(key: string, message: string, generate: string -> string) returns (resp: ChatResponse)
      requires Valid()
      modifies this, sessions.Values
      ensures Valid()
      ensures key in old(sessions) ==> sessions == old(sessions)
      ensures key !in old(sessions) ==> key in sessions && fresh(sessions[key]) && sessions == old(sessions)[key := sessions[key]]
      ensures var turn := Step(if key in old(contents) then old(contents)[key] else Initial, Strip(message), generate);
              && contents == old(contents)[key := turn.0]
              && resp == ChatResponse(key, turn.0.state.Name(), turn.0.orderId, turn.1)
    {
      ghost var c0 := contents;
      ghost var before := if key in c0 then c0[key] else Initial;
      var msg := Strip(message);
      var _ := GetSession(key);
      var reply := Advance(key, msg, generate);
      UpdateTwice(c0, key, before, contents[key]);
      var session := sessions[key];
      resp := ChatResponse(key, session.state.Name(), session.orderId, reply);
    }

    /** `POST /reset/{session_id}`: forget the key; an absent key is no error. */
    method Reset(key: string) returns (resp: ResetResponse)
      requires Valid()
      modifies this
      ensures Valid()
      ensures sessions == old(sessions) - {key}
      ensures contents == old(contents) - {key}
      ensures resp == ResetResponse(key, true)
    {
      sessions := sessions - {key};
      contents := contents - {key};
      resp := ResetResponse(key, true);
    }
  }

  /** Overwriting one key twice keeps only the second value. */
  lemma UpdateTwice<K, V>(m: map<K, V>, k: K, a: V, b: V)
    ensures m[k := a][k := b] == m[k := b]
  {
  }

  /** Resetting twice leaves the store as resetting once, and both calls report success. */
  method ResetTwice(store: SessionStore, key: string) returns (r1: ResetResponse, r2: ResetResponse)
    requires store.Valid()
    modifies store
    ensures store.Valid()
    ensures store.sessions == old(store.sessions) - {key}
    ensures store.contents == old(store.contents) - {key}
    ensures r1 == r2 == ResetResponse(key, true)
  {
    r1 := store.Reset(key);
    r2 := store.Reset(key);
    assert store.sessions == old(store.sessions) - {key} - {key};
    assert store.contents == old(store.contents) - {key} - {key};
  }

  /** Two `/chat` calls on a fresh service: the request for an order, then
      an id. The routing holds for every generator, a failing one included. */
  method OrderLookup(generate: string -> string) returns (r1: ChatResponse, r2: ChatResponse)
    ensures r1.state == "waiting_order_id" && r1.orderId == None
    ensures r2.state == "done" && r2.orderId == Some("123456")
  {
    var store := new SessionStore();
    StripKeeps("我想查订单");
    AskTurn(generate);
    r1 := store.Chat("s1", "我想查订单", generate);
    assert "s1" in store.contents && store.contents["s1"] == SessionData(WaitingOrderId, None);
    StripKeeps("123456");
    OrderIdTurn(generate);
    r2 := store.Chat("s1", "123456", generate);
  }

  /** A session object obtained from the store stays the one stored under
      its key across `/chat` calls, and it holds what the store records:
      the dict `get_session` returns is the one later turns update. */
  method ChatKeepsSessionObject(store: SessionStore, key: string, other: string, message: string, generate: string -> string)
    returns (s: Session, resp: ChatResponse)
    requires store.Valid()
    modifies store, store.sessions.Values
    ensures store.Valid()
    ensures key in store.sessions && store.sessions[key] == s
    ensures s.Data() == store.contents[key]
  {
    s := store.GetSession(key);
    resp := store.Chat(other, message, generate);
  }
}
