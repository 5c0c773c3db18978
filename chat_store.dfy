/**
 * The chat store of `src/stores/chats/chats.ts`: chats kept in a map keyed by
 * id, the display order of their ids (newest first), the active chat's id and
 * a loading flag; the operations that create, select, retitle and delete
 * chats, append and overwrite messages, send a message, and the map/entries
 * pair used to persist the store.
 *
 * The chats are values here: the source mutates chat objects held in the map
 * and the model replaces the map entry instead.  The network requests made by
 * `sendMessage` are parameters carrying their outcome.
 */
module ChatStore {
  import opened Wrappers
  import opened ChatTypes
  import opened IdGen
  import opened MessageHandler

  const NewChatTitle: string := "new chat"
  const SendFailureText: string := "哦豁，发送失败了"

  // ---------------------------------------------------------------------------
  // Helpers on the order list and the map
  // ---------------------------------------------------------------------------

  predicate NoDuplicates(xs: seq<string>)
  {
    forall i, j :: 0 <= i < j < |xs| ==> xs[i] != xs[j]
  }

  /** Every chat is stored under its own id. */
  predicate Keyed(cm: map<string, Chat>)
  {
    forall k :: k in cm ==> cm[k].id == k
  }

  /** Replacing a chat by one with the same id keeps the keys and the keying. */
  lemma ReplaceChat(cm: map<string, Chat>, k: string, c: Chat)
    requires Keyed(cm) && k in cm && c.id == cm[k].id
    ensures Keyed(cm[k := c]) && cm[k := c].Keys == cm.Keys
  {
  }

  /** `findIndex`: the first position holding `x`, or -1. */
  function IndexOf(xs: seq<string>, x: string): (r: int)
    ensures -1 <= r < |xs|
    ensures r == -1 <==> x !in xs
    ensures r >= 0 ==> xs[r] == x && x !in xs[..r]
    decreases |xs|
  {
    if xs == [] then -1
    else if xs[0] == x then 0
    else
      var r := IndexOf(xs[1..], x);
      if r == -1 then -1 else r + 1
  }

  /** `splice(index, 1)`. */
  function RemoveAt(xs: seq<string>, index: nat): seq<string>
    requires index < |xs|
  {
    xs[..index] + xs[index + 1..]
  }

  /**
   * The active id chosen after deleting the active chat, which sat at `index`:
   * `order[max(index - 1, 0)] || null` on the shortened order.
   */
  function Reselect(order: seq<string>, index: nat): Option<string>
  {
    var k := if index >= 1 then index - 1 else 0;
    if k < |order| && order[k] != "" then Some(order[k]) else None
  }

  /**
   * Deleting the active chat makes its predecessor in the order active; when it
   * was first, the chat that is now first; when it was the last chat, nothing.
   * The new active id is never the deleted one.
   */
  lemma ReselectNeighbour(order: seq<string>, id: string)
    requires NoDuplicates(order) && id in order
    requires forall j :: 0 <= j < |order| ==> order[j] != ""
    ensures var i := IndexOf(order, id);
      var rest := RemoveAt(order, i);
      && Reselect(rest, i) == (if |rest| == 0 then None else if i == 0 then Some(order[1]) else Some(order[i - 1]))
      && (Reselect(rest, i).Some? ==> Reselect(rest, i).value in rest && Reselect(rest, i).value != id)
  {
    var i := IndexOf(order, id);
    var rest := RemoveAt(order, i);
    if |rest| > 0 {
      if i == 0 {
        assert rest[0] == order[1];
      } else {
        assert rest[i - 1] == order[i - 1];
      }
    }
  }

  /** The chats named by `order`, in that order. */
  function Lookup(cm: map<string, Chat>, order: seq<string>): (cs: seq<Chat>)
    requires forall id :: id in order ==> id in cm
    ensures |cs| == |order|
    ensures forall i :: 0 <= i < |order| ==> cs[i] == cm[order[i]]
    decreases |order|
  {
    if order == [] then [] else [cm[order[0]]] + Lookup(cm, order[1..])
  }

  /** `splice` keeps every other id, in order, and introduces no duplicate. */
  lemma RemoveAtMembers(xs: seq<string>, index: nat)
    requires NoDuplicates(xs) && index < |xs|
    ensures NoDuplicates(RemoveAt(xs, index))
    ensures forall x :: x in RemoveAt(xs, index) <==> x in xs && x != xs[index]
  {
    var ys := RemoveAt(xs, index);
    assert forall j :: 0 <= j < |ys| ==> ys[j] == (if j < index then xs[j] else xs[j + 1]);
    forall x | x in xs && x != xs[index] ensures x in ys {
      var j :| 0 <= j < |xs| && xs[j] == x;
      if j < index {
        assert ys[j] == x;
      } else {
        assert ys[j - 1] == x;
      }
    }
  }

  /** `activeChatId.value` used as a condition: null and the empty string are both falsy. */
  function ActiveKey(active: Option<string>): Option<string>
  {
    if active.Some? && active.value != "" then active else None
  }

  /** `activeChat`: the chat named by a truthy active id, if the map holds it. */
  function ActiveChatOf(cm: map<string, Chat>, active: Option<string>): (c: Option<Chat>)
    ensures c.Some? <==> active.Some? && active.value != "" && active.value in cm
    ensures c.Some? ==> c.value == cm[active.value]
  {
    var k := ActiveKey(active);
    if k.Some? && k.value in cm then Some(cm[k.value]) else None
  }

  /**
   * `addMessage` / `addMockMessages`: the messages are appended to the active
   * chat only; without an active chat the map is unchanged.
   */
  function AppendToActive(cm: map<string, Chat>, active: Option<string>, ms: seq<Message>): (r: map<string, Chat>)
    ensures r.Keys == cm.Keys
    ensures forall k :: k in cm && Some(k) != ActiveKey(active) ==> r[k] == cm[k]
    ensures ActiveChatOf(cm, active).Some? ==>
      var k := active.value;
      r[k].id == cm[k].id && r[k].title == cm[k].title && r[k].messages == cm[k].messages + ms
  {
    var k := ActiveKey(active);
    if k.Some? && k.value in cm then cm[k.value := cm[k.value].(messages := cm[k.value].messages + ms)]
    else cm
  }

  /**
   * `updateLastMessage`: the last message of the active chat gets the given
   * content, reasoning and token count (omitted ones become `undefined`) and
   * keeps its id and role; nothing happens when there is no such message.
   */
  function OverwriteLast(cm: map<string, Chat>, active: Option<string>,
                         content: string, tokens: Option<int>, reasoning: Option<string>): (r: map<string, Chat>)
    ensures r.Keys == cm.Keys
    ensures forall k :: k in cm && Some(k) != ActiveKey(active) ==> r[k] == cm[k]
    ensures ActiveChatOf(cm, active).None? || ActiveChatOf(cm, active).value.messages == [] ==> r == cm
    ensures ActiveChatOf(cm, active).Some? && ActiveChatOf(cm, active).value.messages != [] ==>
      var k := active.value;
      var old_ := cm[k].messages;
      var new_ := r[k].messages;
      && r[k].id == cm[k].id && r[k].title == cm[k].title
      && |new_| == |old_| && new_[..|old_| - 1] == old_[..|old_| - 1]
      && new_[|old_| - 1] == Message(old_[|old_| - 1].id, old_[|old_| - 1].role, content, reasoning, tokens)
  {
    var k := ActiveKey(active);
    if k.Some? && k.value in cm && cm[k.value].messages != [] then
      var chat := cm[k.value];
      var last := chat.messages[|chat.messages| - 1];
      var updated := last.(content := content, reasoning := reasoning, completionTokens := tokens);
      cm[k.value := chat.(messages := chat.messages[..|chat.messages| - 1] + [updated])]
    else cm
  }

  /** `updateChatTitle`: only that chat's title changes; an unknown id changes nothing. */
  function Retitle(cm: map<string, Chat>, id: string, title: string): (r: map<string, Chat>)
    ensures r.Keys == cm.Keys
    ensures forall k :: k in cm && k != id ==> r[k] == cm[k]
    ensures id in cm ==> r[id] == Chat(cm[id].id, title, cm[id].messages)
  {
    if id in cm then cm[id := cm[id].(title := title)] else cm
  }

  // ---------------------------------------------------------------------------
  // sendMessage, as a function of the request outcomes
  // ---------------------------------------------------------------------------

  /** The update callback applied to every notification in order. */
  function ApplyNotifications(cm: map<string, Chat>, active: Option<string>, ns: seq<Notification>): map<string, Chat>
    decreases |ns|
  {
    if ns == [] then cm
    else
      var n := ns[|ns| - 1];
      OverwriteLast(ApplyNotifications(cm, active, ns[..|ns| - 1]), active, n.content, Some(n.tokens), n.reasoning)
  }

  /**
   * The title request: made only for the active chat when it is still called
   * 'new chat' and holds exactly two messages.  `None` is a failed request
   * (it throws); `Some(None)` is a request that returned nothing, which keeps
   * 'new chat'; an empty first choice also keeps 'new chat'; no choice at all
   * throws.  The flag says whether the step threw.
   */
  function TitleStep(cm: map<string, Chat>, active: Option<string>, titleResponse: Option<Option<Completion>>)
    : (r: (map<string, Chat>, bool))
    ensures r.0.Keys == cm.Keys
    ensures forall k :: k in cm ==> r.0[k].id == cm[k].id && r.0[k].messages == cm[k].messages
    ensures Keyed(cm) ==> forall k :: k in cm && Some(k) != ActiveKey(active) ==> r.0[k] == cm[k]
    ensures r.1 ==> r.0 == cm
    ensures ActiveChatOf(cm, active).None? ==> r == (cm, false)
    ensures ActiveChatOf(cm, active).Some? ==>
      var chat := cm[active.value];
      && (chat.title != NewChatTitle || |chat.messages| != 2 ==> r == (cm, false))
      && (r.1 <==> chat.title == NewChatTitle && |chat.messages| == 2 &&
                   (titleResponse.None? || (titleResponse.value.Some? && titleResponse.value.value.choices == [])))
    ensures Keyed(cm) && ActiveChatOf(cm, active).Some? && !r.1 &&
            cm[active.value].title == NewChatTitle && |cm[active.value].messages| == 2 ==>
      && titleResponse.Some?
      && active.value in r.0
      && r.0[active.value].title == TitleOf(titleResponse.value)
  {
    var chat := ActiveChatOf(cm, active);
    if chat.Some? && chat.value.title == NewChatTitle && |chat.value.messages| == 2 then
      match titleResponse
      case None => (cm, true)
      case Some(reply) =>
        if reply.Some? && reply.value.choices == [] then (cm, true)
        else (Retitle(cm, chat.value.id, TitleOf(reply)), false)
    else (cm, false)
  }

  /**
   * The title a title request that did not throw gives:
   * `response?.choices[0].message.content || 'new chat'`, where a request
   * that returned nothing reads as `undefined`.
   */
  function TitleOf(reply: Option<Completion>): (t: string)
    requires reply.Some? ==> reply.value.choices != []
    ensures t != ""
    ensures reply.Some? && reply.value.choices[0].content != "" ==> t == reply.value.choices[0].content
    ensures reply.None? || reply.value.choices[0].content == "" ==> t == NewChatTitle
  {
    if reply.Some? && reply.value.choices[0].content != "" then reply.value.choices[0].content else NewChatTitle
  }

  /** The completion request's reply; a request that failed counts as one that threw. */
  function ReplyOf(response: Option<Body>, stream: bool, parse: Parser): Reply
  {
    if response.None? then Reply([], true) else HandleResponse(response.value, stream, parse)
  }

  /** The first step of `sendMessage`: the user's message and an empty assistant message. */
  function WithPlaceholders(cm: map<string, Chat>, active: Option<string>, content: string,
                            userTime: int, assistantTime: int): (r: map<string, Chat>)
    ensures ActiveChatOf(cm, active).None? ==> r == cm
    ensures ActiveChatOf(cm, active).Some? ==>
      var k := active.value;
      && r.Keys == cm.Keys
      && (forall k' :: k' in cm && k' != k ==> r[k'] == cm[k'])
      && r[k].id == cm[k].id && r[k].title == cm[k].title
      && r[k].messages == cm[k].messages + [Message(userTime, User, content, None, None),
                                            Message(assistantTime, Assistant, "", None, None)]
  {
    var cm1 := AppendToActive(cm, active, [FormatMessage(User, content, None, userTime)]);
    var r := AppendToActive(cm1, active, [FormatMessage(Assistant, "", None, assistantTime)]);
    assert ActiveChatOf(cm, active).None? ==> r == cm;
    r
  }

  /**
   * The rest of `sendMessage`: the reply's notifications overwrite the last
   * message, the title step runs if the reply did not throw, and if anything
   * threw the last message is overwritten with the failure text.
   */
  function Settle(cm: map<string, Chat>, active: Option<string>, reply: Reply,
                  titleResponse: Option<Option<Completion>>): map<string, Chat>
  {
    var cm3 := ApplyNotifications(cm, active, reply.notifications);
    var titled := if reply.threw then (cm3, true) else TitleStep(cm3, active, titleResponse);
    if titled.1 then OverwriteLast(titled.0, active, SendFailureText, None, None) else titled.0
  }

  /**
   * The chat map after `sendMessage`.  `response` is `None` when the
   * completion request failed, `titleResponse` likewise for the title request.
   */
  function SendEffect(cm: map<string, Chat>, active: Option<string>, content: string,
                      userTime: int, assistantTime: int, stream: bool,
                      response: Option<Body>, parse: Parser, titleResponse: Option<Option<Completion>>)
    : map<string, Chat>
  {
    Settle(WithPlaceholders(cm, active, content, userTime, assistantTime), active,
           ReplyOf(response, stream, parse), titleResponse)
  }

  /** Notifications only rewrite the last message of the active chat; the rest stays. */
  lemma {:induction false} ApplyNotificationsShape(cm: map<string, Chat>, active: Option<string>, ns: seq<Notification>)
    ensures var r := ApplyNotifications(cm, active, ns);
      && r.Keys == cm.Keys
      && (forall k :: k in cm && Some(k) != ActiveKey(active) ==> r[k] == cm[k])
      && (ActiveChatOf(cm, active).Some? ==>
            var k := active.value;
            && r[k].id == cm[k].id && r[k].title == cm[k].title
            && |r[k].messages| == |cm[k].messages|
            && (cm[k].messages != [] ==>
                  r[k].messages[..|cm[k].messages| - 1] == cm[k].messages[..|cm[k].messages| - 1]
                  && r[k].messages[|cm[k].messages| - 1].id == cm[k].messages[|cm[k].messages| - 1].id
                  && r[k].messages[|cm[k].messages| - 1].role == cm[k].messages[|cm[k].messages| - 1].role))
    decreases |ns|
  {
    if ns != [] {
      ApplyNotificationsShape(cm, active, ns[..|ns| - 1]);
    }
  }

  /** After some notifications, the last message shows the last one's content, tokens and reasoning. */
  lemma ApplyNotificationsLast(cm: map<string, Chat>, active: Option<string>, ns: seq<Notification>)
    requires ActiveChatOf(cm, active).Some? && ActiveChatOf(cm, active).value.messages != [] && ns != []
    ensures var r := ApplyNotifications(cm, active, ns);
      && active.value in r
      && var m := r[active.value].messages;
      var n := ns[|ns| - 1];
      && m != []
      && m[|m| - 1].content == n.content && m[|m| - 1].completionTokens == Some(n.tokens)
      && m[|m| - 1].reasoning == n.reasoning
  {
    ApplyNotificationsShape(cm, active, ns[..|ns| - 1]);
  }

  lemma {:induction false} ApplyNotificationsUnchanged(cm: map<string, Chat>, active: Option<string>, ns: seq<Notification>)
    requires ActiveChatOf(cm, active).None?
    ensures ApplyNotifications(cm, active, ns) == cm
    decreases |ns|
  {
    if ns != [] {
      ApplyNotificationsUnchanged(cm, active, ns[..|ns| - 1]);
    }
  }

  /**
   * Settling keeps the chat's id and every message but the last, and keeps the
   * last message's id and role; the title changes only through the title step.
   */
  lemma SettleShape(cm: map<string, Chat>, active: Option<string>, reply: Reply,
                    titleResponse: Option<Option<Completion>>)
    requires ActiveChatOf(cm, active).Some? && cm[active.value].messages != []
    ensures var r := Settle(cm, active, reply, titleResponse);
      var k := active.value;
      var n := |cm[k].messages|;
      && r.Keys == cm.Keys
      && (Keyed(cm) ==> forall k' :: k' in cm && k' != k ==> r[k'] == cm[k'])
      && r[k].id == cm[k].id
      && |r[k].messages| == n
      && r[k].messages[..n - 1] == cm[k].messages[..n - 1]
      && r[k].messages[n - 1].id == cm[k].messages[n - 1].id
      && r[k].messages[n - 1].role == cm[k].messages[n - 1].role
      && (cm[k].title != NewChatTitle || n != 2 ==> r[k].title == cm[k].title)
  {
    var k := active.value;
    var cm3 := ApplyNotifications(cm, active, reply.notifications);
    NotifyStage(cm, active, reply.notifications);
    var st := if reply.threw then (cm3, true) else TitleStep(cm3, active, titleResponse);
    if !reply.threw {
      TitleStage(cm3, active, titleResponse);
    }
    assert LastRewritten(cm3, st.0, k) && (Keyed(cm3) ==> OthersKept(cm3, st.0, k) && Keyed(st.0));
    assert st.0[k].title == cm3[k].title || (cm[k].title == NewChatTitle && |cm[k].messages| == 2);
    var r := if st.1 then OverwriteLast(st.0, active, SendFailureText, None, None) else st.0;
    FailureStage(st.0, active);
    SettleSteps(cm, active, reply, titleResponse);
    LastRewrittenTrans(cm, cm3, st.0, r, k);
    if Keyed(cm) {
      OthersKeptTrans(cm, cm3, st.0, r, k);
    }
  }

  /** Settle, one stage at a time. */
  lemma SettleSteps(cm: map<string, Chat>, active: Option<string>, reply: Reply,
                    titleResponse: Option<Option<Completion>>)
    ensures var cm3 := ApplyNotifications(cm, active, reply.notifications);
      var st := if reply.threw then (cm3, true) else TitleStep(cm3, active, titleResponse);
      Settle(cm, active, reply, titleResponse) == if st.1 then OverwriteLast(st.0, active, SendFailureText, None, None) else st.0
  {
  }

  /** The notifications stage of Settle, in terms of the predicates below. */
  lemma NotifyStage(cm: map<string, Chat>, active: Option<string>, ns: seq<Notification>)
    requires ActiveChatOf(cm, active).Some?
    ensures var r, k := ApplyNotifications(cm, active, ns), active.value;
      && LastRewritten(cm, r, k) && OthersKept(cm, r, k) && r[k].title == cm[k].title
      && (Keyed(cm) ==> Keyed(r))
  {
    ApplyNotificationsShape(cm, active, ns);
  }

  /** The title stage of Settle, in terms of the predicates below. */
  lemma TitleStage(cm: map<string, Chat>, active: Option<string>, titleResponse: Option<Option<Completion>>)
    requires ActiveChatOf(cm, active).Some?
    ensures var r, k := TitleStep(cm, active, titleResponse).0, active.value;
      && LastRewritten(cm, r, k) && (Keyed(cm) ==> OthersKept(cm, r, k) && Keyed(r))
      && (cm[k].title != NewChatTitle || |cm[k].messages| != 2 ==> r[k].title == cm[k].title)
  {
    var r, k := TitleStep(cm, active, titleResponse).0, active.value;
    assert k in cm && r.Keys == cm.Keys;
  }

  /** The failure stage of Settle, in terms of the predicates below. */
  lemma FailureStage(cm: map<string, Chat>, active: Option<string>)
    requires active.Some? && active.value in cm
    ensures var r, k := OverwriteLast(cm, active, SendFailureText, None, None), active.value;
      && LastRewritten(cm, r, k) && OthersKept(cm, r, k) && r[k].title == cm[k].title
      && (Keyed(cm) ==> Keyed(r))
  {
  }

  /** `r` differs from `cm` at `k` at most in the title and the last message's content. */
  ghost predicate LastRewritten(cm: map<string, Chat>, r: map<string, Chat>, k: string)
  {
    && r.Keys == cm.Keys && k in cm
    && r[k].id == cm[k].id
    && |r[k].messages| == |cm[k].messages|
    && (cm[k].messages != [] ==>
          var n := |cm[k].messages|;
          && r[k].messages[..n - 1] == cm[k].messages[..n - 1]
          && r[k].messages[n - 1].id == cm[k].messages[n - 1].id
          && r[k].messages[n - 1].role == cm[k].messages[n - 1].role)
  }

  /** Every chat but `k` is the same in `r` as in `cm`. */
  ghost predicate OthersKept(cm: map<string, Chat>, r: map<string, Chat>, k: string)
  {
    forall k' :: k' in cm && k' != k ==> k' in r && r[k'] == cm[k']
  }

  lemma LastRewrittenTrans(a: map<string, Chat>, b: map<string, Chat>, c: map<string, Chat>,
                           d: map<string, Chat>, k: string)
    requires LastRewritten(a, b, k) && LastRewritten(b, c, k) && LastRewritten(c, d, k)
    ensures LastRewritten(a, d, k)
  {
  }

  lemma OthersKeptTrans(a: map<string, Chat>, b: map<string, Chat>, c: map<string, Chat>,
                        d: map<string, Chat>, k: string)
    requires OthersKept(a, b, k) && OthersKept(b, c, k) && OthersKept(c, d, k)
    ensures OthersKept(a, d, k)
  {
  }

  /** When the reply throws, the last message ends up as the failure text with nothing else. */
  lemma SettleFailure(cm: map<string, Chat>, active: Option<string>, reply: Reply,
                      titleResponse: Option<Option<Completion>>)
    requires ActiveChatOf(cm, active).Some? && cm[active.value].messages != [] && reply.threw
    ensures var r := Settle(cm, active, reply, titleResponse);
      var k := active.value;
      var n := |cm[k].messages|;
      && k in r && |r[k].messages| == n
      && r[k].messages[n - 1] == Message(cm[k].messages[n - 1].id, cm[k].messages[n - 1].role, SendFailureText, None, None)
      && r[k].title == cm[k].title
  {
    var cm3 := ApplyNotifications(cm, active, reply.notifications);
    ApplyNotificationsShape(cm, active, reply.notifications);
    assert ActiveChatOf(cm3, active).Some?;
  }

  /**
   * When the reply does not throw and the title step does not throw either,
   * the last message is what the last notification carried.
   */
  lemma SettleSuccess(cm: map<string, Chat>, active: Option<string>, reply: Reply,
                      titleResponse: Option<Option<Completion>>)
    requires ActiveChatOf(cm, active).Some? && cm[active.value].messages != []
    requires !reply.threw && reply.notifications != []
    requires titleResponse.Some? && (titleResponse.value.Some? ==> titleResponse.value.value.choices != [])
    ensures var r := Settle(cm, active, reply, titleResponse);
      var k := active.value;
      var n := |cm[k].messages|;
      var last := reply.notifications[|reply.notifications| - 1];
      && k in r && |r[k].messages| == n
      && r[k].messages[n - 1].content == last.content
      && r[k].messages[n - 1].completionTokens == Some(last.tokens)
      && r[k].messages[n - 1].reasoning == last.reasoning
  {
    var cm3 := ApplyNotifications(cm, active, reply.notifications);
    ApplyNotificationsShape(cm, active, reply.notifications);
    ApplyNotificationsLast(cm, active, reply.notifications);
    assert ActiveChatOf(cm3, active).Some?;
  }

  /**
   * With an active chat, sending appends exactly two messages after the
   * existing ones: the user's, carrying the text, then the assistant's; the
   * chat keeps its id and every other chat is untouched.
   */
  lemma SendAppendsTwo(cm: map<string, Chat>, active: Option<string>, content: string,
                       userTime: int, assistantTime: int, stream: bool,
                       response: Option<Body>, parse: Parser, titleResponse: Option<Option<Completion>>)
    requires ActiveChatOf(cm, active).Some?
    ensures var r := SendEffect(cm, active, content, userTime, assistantTime, stream, response, parse, titleResponse);
      var k := active.value;
      var n := |cm[k].messages|;
      && r.Keys == cm.Keys
      && (Keyed(cm) ==> forall k' :: k' in cm && k' != k ==> r[k'] == cm[k'])
      && r[k].id == cm[k].id
      && |r[k].messages| == n + 2
      && r[k].messages[..n] == cm[k].messages
      && r[k].messages[n] == Message(userTime, User, content, None, None)
      && r[k].messages[n + 1].id == assistantTime
      && r[k].messages[n + 1].role == Assistant
  {
    SendKeepsOthers(cm, active, content, userTime, assistantTime, stream, response, parse, titleResponse);
    SendExtendsActive(cm, active, content, userTime, assistantTime, stream, response, parse, titleResponse);
  }

  /** The keys half of SendAppendsTwo. */
  lemma SendKeepsOthers(cm: map<string, Chat>, active: Option<string>, content: string,
                       userTime: int, assistantTime: int, stream: bool,
                       response: Option<Body>, parse: Parser, titleResponse: Option<Option<Completion>>)
    requires ActiveChatOf(cm, active).Some?
    ensures var r := SendEffect(cm, active, content, userTime, assistantTime, stream, response, parse, titleResponse);
      && r.Keys == cm.Keys
      && (Keyed(cm) ==> forall k' :: k' in cm && k' != active.value ==> r[k'] == cm[k'])
  {
    var k := active.value;
    var reply := ReplyOf(response, stream, parse);
    var cm2 := WithPlaceholders(cm, active, content, userTime, assistantTime);
    assert ActiveChatOf(cm2, active).Some?;
    assert Keyed(cm) ==> Keyed(cm2);
    SettleShape(cm2, active, reply, titleResponse);
    SendEffectSteps(cm, active, content, userTime, assistantTime, stream, response, parse, titleResponse);
  }

  /** The messages half of SendAppendsTwo. */
  lemma SendExtendsActive(cm: map<string, Chat>, active: Option<string>, content: string,
                       userTime: int, assistantTime: int, stream: bool,
                       response: Option<Body>, parse: Parser, titleResponse: Option<Option<Completion>>)
    requires ActiveChatOf(cm, active).Some?
    ensures var r := SendEffect(cm, active, content, userTime, assistantTime, stream, response, parse, titleResponse);
      var k := active.value;
      var n := |cm[k].messages|;
      && k in r
      && r[k].id == cm[k].id
      && |r[k].messages| == n + 2
      && r[k].messages[..n] == cm[k].messages
      && r[k].messages[n] == Message(userTime, User, content, None, None)
      && r[k].messages[n + 1].id == assistantTime
      && r[k].messages[n + 1].role == Assistant
  {
    var k := active.value;
    var reply := ReplyOf(response, stream, parse);
    var cm2 := WithPlaceholders(cm, active, content, userTime, assistantTime);
    var r := Settle(cm2, active, reply, titleResponse);
    assert ActiveChatOf(cm2, active).Some?;
    SettleShape(cm2, active, reply, titleResponse);
    var assistant := Message(assistantTime, Assistant, "", None, None);
    KeptPrefix(cm[k].messages, Message(userTime, User, content, None, None), assistant, r[k].messages);
    assert cm2[k].messages[|cm[k].messages| + 1] == assistant;
    SendEffectSteps(cm, active, content, userTime, assistantTime, stream, response, parse, titleResponse);
  }

  /** SendEffect, one stage at a time. */
  lemma SendEffectSteps(cm: map<string, Chat>, active: Option<string>, content: string,
                        userTime: int, assistantTime: int, stream: bool,
                        response: Option<Body>, parse: Parser, titleResponse: Option<Option<Completion>>)
    ensures SendEffect(cm, active, content, userTime, assistantTime, stream, response, parse, titleResponse)
         == Settle(WithPlaceholders(cm, active, content, userTime, assistantTime), active,
                   ReplyOf(response, stream, parse), titleResponse)
  {
  }

  /** A list that agrees with `a + [x, y]` on all but its last element starts with `a` then `x`. */
  lemma KeptPrefix(a: seq<Message>, x: Message, y: Message, b: seq<Message>)
    requires |b| == |a| + 2 && b[..|a| + 1] == (a + [x, y])[..|a| + 1]
    ensures b[..|a|] == a && b[|a|] == x
  {
    assert b[..|a|] == b[..|a| + 1][..|a|];
  }

  /**
   * A failed request or a reply that throws leaves the failure text, with no
   * reasoning and no token count, in the assistant message, and the title as
   * it was.
   */
  lemma SendFailureShown(cm: map<string, Chat>, active: Option<string>, content: string,
                         userTime: int, assistantTime: int, stream: bool,
                         response: Option<Body>, parse: Parser, titleResponse: Option<Option<Completion>>)
    requires ActiveChatOf(cm, active).Some?
    requires ReplyOf(response, stream, parse).threw
    ensures var r := SendEffect(cm, active, content, userTime, assistantTime, stream, response, parse, titleResponse);
      && active.value in r
      && var m := r[active.value].messages;
      && m != []
      && m[|m| - 1] == Message(assistantTime, Assistant, SendFailureText, None, None)
      && r[active.value].title == cm[active.value].title
  {
    var cm2 := WithPlaceholders(cm, active, content, userTime, assistantTime);
    assert ActiveChatOf(cm2, active).Some?;
    SettleFailure(cm2, active, ReplyOf(response, stream, parse), titleResponse);
  }

  /**
   * A failed title request also leaves the failure text in the assistant
   * message (after the reply was shown); the title stays 'new chat'.
   */
  lemma SendTitleFailureShown(cm: map<string, Chat>, active: Option<string>, content: string,
                              userTime: int, assistantTime: int, stream: bool,
                              response: Option<Body>, parse: Parser)
    requires ActiveChatOf(cm, active).Some?
    requires cm[active.value].title == NewChatTitle && cm[active.value].messages == []
    requires !ReplyOf(response, stream, parse).threw
    ensures var r := SendEffect(cm, active, content, userTime, assistantTime, stream, response, parse, None);
      && active.value in r
      && var m := r[active.value].messages;
      && |m| == 2
      && m[1] == Message(assistantTime, Assistant, SendFailureText, None, None)
      && r[active.value].title == NewChatTitle
  {
    var k := active.value;
    var cm2 := WithPlaceholders(cm, active, content, userTime, assistantTime);
    var reply := ReplyOf(response, stream, parse);
    var cm3 := ApplyNotifications(cm2, active, reply.notifications);
    ApplyNotificationsShape(cm2, active, reply.notifications);
    assert ActiveChatOf(cm3, active).Some? && |cm3[k].messages| == 2;
    assert TitleStep(cm3, active, None) == (cm3, true);
  }

  /**
   * When nothing throws, the assistant message shows the reply's last
   * notification: its content, its token count and its reasoning.
   */
  lemma SendShowsReply(cm: map<string, Chat>, active: Option<string>, content: string,
                       userTime: int, assistantTime: int, stream: bool,
                       response: Option<Body>, parse: Parser, titleResponse: Option<Option<Completion>>)
    requires ActiveChatOf(cm, active).Some?
    requires !ReplyOf(response, stream, parse).threw && ReplyOf(response, stream, parse).notifications != []
    requires titleResponse.Some? && (titleResponse.value.Some? ==> titleResponse.value.value.choices != [])
    ensures var r := SendEffect(cm, active, content, userTime, assistantTime, stream, response, parse, titleResponse);
      var ns := ReplyOf(response, stream, parse).notifications;
      && active.value in r
      && var m := r[active.value].messages;
      && m != []
      && m[|m| - 1].id == assistantTime
      && m[|m| - 1].content == ns[|ns| - 1].content
      && m[|m| - 1].completionTokens == Some(ns[|ns| - 1].tokens)
      && m[|m| - 1].reasoning == ns[|ns| - 1].reasoning
  {
    var cm2 := WithPlaceholders(cm, active, content, userTime, assistantTime);
    assert ActiveChatOf(cm2, active).Some?;
    SettleShape(cm2, active, ReplyOf(response, stream, parse), titleResponse);
    SettleSuccess(cm2, active, ReplyOf(response, stream, parse), titleResponse);
  }

  /**
   * On a 'new chat' without messages, when neither the reply nor the title
   * request throws, the chat takes the generated title (or keeps 'new chat'
   * for an empty one).
   */
  lemma SendSetsTitle(cm: map<string, Chat>, active: Option<string>, content: string,
                      userTime: int, assistantTime: int, stream: bool,
                      response: Option<Body>, parse: Parser, titleResponse: Option<Option<Completion>>)
    requires Keyed(cm) && ActiveChatOf(cm, active).Some?
    requires cm[active.value].title == NewChatTitle && cm[active.value].messages == []
    requires !ReplyOf(response, stream, parse).threw
    requires titleResponse.Some? && (titleResponse.value.Some? ==> titleResponse.value.value.choices != [])
    ensures var r := SendEffect(cm, active, content, userTime, assistantTime, stream, response, parse, titleResponse);
      && active.value in r
      && r[active.value].title == TitleOf(titleResponse.value)
  {
    var k := active.value;
    var cm2 := WithPlaceholders(cm, active, content, userTime, assistantTime);
    var reply := ReplyOf(response, stream, parse);
    var cm3 := ApplyNotifications(cm2, active, reply.notifications);
    assert ActiveChatOf(cm2, active).Some? && Keyed(cm2);
    NotifyStage(cm2, active, reply.notifications);
    assert ActiveChatOf(cm3, active).Some? && |cm3[k].messages| == 2 && cm3[k].title == NewChatTitle;
    assert !TitleStep(cm3, active, titleResponse).1;
    SettleSteps(cm2, active, reply, titleResponse);
    SendEffectSteps(cm, active, content, userTime, assistantTime, stream, response, parse, titleResponse);
  }

  /**
   * The title is only ever changed for a chat still called 'new chat' that had
   * no messages before this send (so exactly two after it).
   */
  lemma SendTitleOnlyForNewChats(cm: map<string, Chat>, active: Option<string>, content: string,
                                 userTime: int, assistantTime: int, stream: bool,
                                 response: Option<Body>, parse: Parser, titleResponse: Option<Option<Completion>>)
    requires ActiveChatOf(cm, active).Some?
    requires cm[active.value].title != NewChatTitle || cm[active.value].messages != []
    ensures var r := SendEffect(cm, active, content, userTime, assistantTime, stream, response, parse, titleResponse);
      active.value in r && r[active.value].title == cm[active.value].title
  {
    var cm2 := WithPlaceholders(cm, active, content, userTime, assistantTime);
    assert ActiveChatOf(cm2, active).Some?;
    SettleShape(cm2, active, ReplyOf(response, stream, parse), titleResponse);
  }

  /** Without an active chat, sending changes no chat. */
  lemma SendWithoutActiveChat(cm: map<string, Chat>, active: Option<string>, content: string,
                              userTime: int, assistantTime: int, stream: bool,
                              response: Option<Body>, parse: Parser, titleResponse: Option<Option<Completion>>)
    requires ActiveChatOf(cm, active).None?
    ensures SendEffect(cm, active, content, userTime, assistantTime, stream, response, parse, titleResponse) == cm
  {
    ApplyNotificationsUnchanged(cm, active, ReplyOf(response, stream, parse).notifications);
  }

  // ---------------------------------------------------------------------------
  // Persistence: the map travels as its list of entries
  // ---------------------------------------------------------------------------

  /** The store's state refs. */
  datatype StoreState = StoreState(
    chatMap: map<string, Chat>,
    chatOrder: seq<string>,
    activeChatId: Option<string>,
    isLoading: bool)

  /** The persisted form: the same state with the map replaced by its entries. */
  datatype PersistedState = PersistedState(
    chatEntries: seq<(string, Chat)>,
    chatOrder: seq<string>,
    activeChatId: Option<string>,
    isLoading: bool)

  /** `new Map(entries)`: entries are set in order, so a later entry for a key wins. */
  function FromEntries(es: seq<(string, Chat)>): map<string, Chat>
    decreases |es|
  {
    if es == [] then map[]
    else FromEntries(es[..|es| - 1])[es[|es| - 1].0 := es[|es| - 1].1]
  }

  /** `es` lists every entry of `m` once (in any order). */
  ghost predicate IsEnumeration(es: seq<(string, Chat)>, m: map<string, Chat>)
  {
    && (forall i, j :: 0 <= i < j < |es| ==> es[i].0 != es[j].0)
    && (forall i :: 0 <= i < |es| ==> es[i].0 in m && m[es[i].0] == es[i].1)
    && (forall k :: k in m ==> exists i :: 0 <= i < |es| && es[i].0 == k)
  }

  /** Rebuilding a map from any listing of its entries gives the map back. */
  lemma {:induction false} FromEnumeration(es: seq<(string, Chat)>, m: map<string, Chat>)
    requires IsEnumeration(es, m)
    ensures FromEntries(es) == m
    decreases |es|
  {
    if es == [] {
      assert forall k :: k !in m;
      assert m == map[];
    } else {
      var last := es[|es| - 1];
      var front := es[..|es| - 1];
      var m' := m - {last.0};
      EnumerationFront(es, m);
      FromEnumeration(front, m');
      assert m == m'[last.0 := last.1];
    }
  }

  /** Dropping the last entry of an enumeration enumerates the map without that key. */
  lemma EnumerationFront(es: seq<(string, Chat)>, m: map<string, Chat>)
    requires IsEnumeration(es, m) && es != []
    ensures IsEnumeration(es[..|es| - 1], m - {es[|es| - 1].0})
  {
    var last := es[|es| - 1];
    var front := es[..|es| - 1];
    var m' := m - {last.0};
    forall i | 0 <= i < |front|
      ensures front[i].0 in m' && m'[front[i].0] == front[i].1
    {
      assert front[i] == es[i];
      assert es[i].0 != es[|es| - 1].0;
    }
    forall k | k in m'
      ensures exists i :: 0 <= i < |front| && front[i].0 == k
    {
      var i :| 0 <= i < |es| && es[i].0 == k;
      assert i != |es| - 1;
      assert front[i].0 == k;
    }
  }

  /** Listing one more entry, for a key not yet listed, enumerates the extended map. */
  lemma EnumerationSnoc(es: seq<(string, Chat)>, m: map<string, Chat>, k: string, v: Chat)
    requires IsEnumeration(es, m) && k !in m
    ensures IsEnumeration(es + [(k, v)], m[k := v])
  {
    var es' := es + [(k, v)];
    var m' := m[k := v];
    forall k' | k' in m'

      ensures exists i :: 0 <= i < |es'| && es'[i].0 == k'
    {
      if k' == k {
        assert es'[|es|].0 == k';
      } else {
        var i :| 0 <= i < |es| && es[i].0 == k';
        assert es'[i].0 == k';
      }
    }
  }

  /** `deserialize` after `JSON.parse`: the map is rebuilt from its entries. */
  function Deserialize(p: PersistedState): StoreState
  {
    StoreState(FromEntries(p.chatEntries), p.chatOrder, p.activeChatId, p.isLoading)
  }

  // ---------------------------------------------------------------------------
  // The store
  // ---------------------------------------------------------------------------

  class Store {
    var chatMap: map<string, Chat>
    var chatOrder: seq<string>
    var activeChatId: Option<string>
    var isLoading: bool
    /** The module-level counter behind `addId`. */
    const ids: IdGenerator

    function State(): StoreState
      reads this
    {
      StoreState(chatMap, chatOrder, activeChatId, isLoading)
    }

    /**
     * The order list has no duplicates and holds exactly the map's keys, each
     * chat is stored under its own id, and every id came from the generator
     * (so the next id is fresh).
     */
    ghost predicate Valid()
      reads this, ids
    {
      && ids.Valid()
      && NoDuplicates(chatOrder)
      && (forall id :: id in chatMap <==> id in chatOrder)
      && Keyed(chatMap)
      && (forall id :: id in chatMap ==> id in ids.issued)
    }

    /** The active id is null or one of the listed chats (`selectChat` does not check this). */
    ghost predicate ActiveValid()
      reads this
    {
      activeChatId.None? || activeChatId.value in chatOrder
    }

    constructor (ids: IdGenerator)
      requires ids.Valid()
      ensures Valid() && ActiveValid() && this.ids == ids
      ensures chatMap == map[] && chatOrder == [] && activeChatId.None? && !isLoading
    {
      this.ids := ids;
      chatMap := map[];
      chatOrder := [];
      activeChatId := None;
      isLoading := false;
    }

    /** `activeChat`. */
    function ActiveChat(): (c: Option<Chat>)
      reads this
      ensures c.Some? <==> activeChatId.Some? && activeChatId.value != "" && activeChatId.value in chatMap
      ensures c.Some? ==> c.value == chatMap[activeChatId.value]
    {
      ActiveChatOf(chatMap, activeChatId)
    }

    /** `orderedChats`: the chats in display order. */
    function OrderedChats(): (cs: seq<Chat>)
      reads this
      requires forall id :: id in chatOrder ==> id in chatMap
      ensures |cs| == |chatOrder|
      ensures forall i :: 0 <= i < |chatOrder| ==> cs[i] == chatMap[chatOrder[i]]
    {
      Lookup(chatMap, chatOrder)
    }

    /** `currentMessages`: the active chat's messages, or none. */
    function CurrentMessages(): (ms: seq<Message>)
      reads this
      ensures ActiveChat().None? ==> ms == []
      ensures ActiveChat().Some? ==> ms == ActiveChat().value.messages
    {
      match ActiveChat()
      case Some(c) => c.messages
      case None => []
    }

    /** `getChatById`. */
    function GetChatById(id: string): (c: Option<Chat>)
      reads this
      ensures c.Some? <==> id in chatMap
      ensures c.Some? ==> c.value == chatMap[id]
    {
      if id in chatMap then Some(chatMap[id]) else None
    }

    /** `getLastMessage`: the active chat's last message, if there is one. */
    function GetLastMessage(): (m: Option<Message>)
      reads this
      ensures m.Some? <==> CurrentMessages() != []
      ensures m.Some? ==> m.value == CurrentMessages()[|CurrentMessages()| - 1]
    {
      var ms := CurrentMessages();
      if ms != [] then Some(ms[|ms| - 1]) else None
    }

    /** `addChat`: a fresh id goes to the front of the order, maps to an empty 'new chat', and becomes active. */
    method AddChat() returns (id: string)
      requires Valid()
      modifies this, ids
      ensures Valid() && ActiveValid()
      ensures id == IdString(ids.prefix, old(ids.current)) && id !in old(chatMap)
      ensures chatOrder == [id] + old(chatOrder)
      ensures chatMap == old(chatMap)[id := Chat(id, NewChatTitle, [])]
      ensures activeChatId == Some(id) && isLoading == old(isLoading)
    {
      id := ids.Next();
      var newChat := Chat(id, NewChatTitle, []);
      chatOrder := [id] + chatOrder;
      chatMap := chatMap[id := newChat];
      activeChatId := Some(newChat.id);
    }

    /** `selectChat`: any id is accepted, known or not. */
    method SelectChat(id: string)
      requires Valid()
      modifies this`activeChatId
      ensures Valid() && activeChatId == Some(id)
      ensures ActiveValid() <==> id in chatOrder
    {
      activeChatId := Some(id);
    }

    /** `updateChatTitle`. */
    method UpdateChatTitle(id: string, title: string)
      requires Valid()
      modifies this`chatMap
      ensures Valid()
      ensures chatMap == Retitle(old(chatMap), id, title)
    {
      var chat := GetChatById(id);
      if chat.Some? {
        var newChat := chat.value.(title := title);
        ReplaceChat(chatMap, id, newChat);
        chatMap := chatMap[id := newChat];
      }
    }

    /**
     * `deleteChat`: an id not in the order changes nothing; otherwise it leaves
     * the map and the order, and if it was active the neighbour chosen by
     * `Reselect` becomes active.
     */
    method DeleteChat(id: string)
      requires Valid()
      modifies this`chatMap, this`chatOrder, this`activeChatId
      ensures Valid()
      ensures old(ActiveValid()) ==> ActiveValid()
      ensures id !in old(chatOrder) ==>
        chatMap == old(chatMap) && chatOrder == old(chatOrder) && activeChatId == old(activeChatId)
      ensures id in old(chatOrder) ==>
        var index := IndexOf(old(chatOrder), id);
        && chatMap == old(chatMap) - {id}
        && chatOrder == RemoveAt(old(chatOrder), index)
        && activeChatId == (if old(activeChatId) == Some(id) then Reselect(chatOrder, index) else old(activeChatId))
    {
      var index := IndexOf(chatOrder, id);
      if index == -1 {
        return;
      }
      RemoveAtMembers(chatOrder, index);
      chatMap := chatMap - {id};
      chatOrder := chatOrder[..index] + chatOrder[index + 1..];
      if activeChatId == Some(id) {
        var newActiveIndex := if index - 1 > 0 then index - 1 else 0;
        activeChatId := if newActiveIndex < |chatOrder| && chatOrder[newActiveIndex] != ""
          then Some(chatOrder[newActiveIndex]) else None;
      }
    }

    /** `toggleLoading`. */
    method ToggleLoading(value: bool)
      modifies this`isLoading
      ensures isLoading == value
    {
      isLoading := value;
    }

    /** `addMessage`. */
    method AddMessage(message: Message)
      requires Valid()
      modifies this`chatMap
      ensures Valid()
      ensures chatMap == AppendToActive(old(chatMap), activeChatId, [message])
    {
      var k := ActiveKey(activeChatId);
      if k.Some? {
        var chat := GetChatById(k.value);
        if chat.Some? {
          var newChat := chat.value.(messages := chat.value.messages + [message]);
          ReplaceChat(chatMap, k.value, newChat);
          chatMap := chatMap[k.value := newChat];
        }
      }
    }

    /** `addMockMessages`. */
    method AddMockMessages(mockMessages: seq<Message>)
      requires Valid()
      modifies this`chatMap
      ensures Valid()
      ensures chatMap == AppendToActive(old(chatMap), activeChatId, mockMessages)
    {
      if ActiveKey(activeChatId).Some? {
        var chat := ActiveChat();
        if chat.Some? {
          var newChat := chat.value.(messages := chat.value.messages + mockMessages);
          ReplaceChat(chatMap, activeChatId.value, newChat);
          chatMap := chatMap[activeChatId.value := newChat];
        }
      }
    }

    /** `updateLastMessage`. */
    method UpdateLastMessage(content: string, tokens: Option<int>, reasoning: Option<string>)
      requires Valid()
      modifies this`chatMap
      ensures Valid()
      ensures chatMap == OverwriteLast(old(chatMap), activeChatId, content, tokens, reasoning)
    {
      var lastMessage := GetLastMessage();
      if lastMessage.Some? {
        var k := activeChatId.value;
        var chat := chatMap[k];
        var updated := lastMessage.value.(content := content, reasoning := reasoning, completionTokens := tokens);
        var newChat := chat.(messages := chat.messages[..|chat.messages| - 1] + [updated]);
        ReplaceChat(chatMap, k, newChat);
        chatMap := chatMap[k := newChat];
      }
    }

    /** The update callback of `sendMessage`, run for each notification of the reply in turn. */
    method ApplyReply(ns: seq<Notification>)
      requires Valid()
      modifies this`chatMap
      ensures Valid()
      ensures chatMap == ApplyNotifications(old(chatMap), activeChatId, ns)
    {
      var i := 0;
      while i < |ns|
        invariant 0 <= i <= |ns|
        invariant Valid()
        invariant chatMap == ApplyNotifications(old(chatMap), activeChatId, ns[..i])
      {
        assert ns[..i + 1][..i] == ns[..i];
        UpdateLastMessage(ns[i].content, Some(ns[i].tokens), ns[i].reasoning);
        i := i + 1;
      }
      assert ns[..i] == ns;
    }

    /**
     * The title step of `sendMessage`; `failed` says whether the title request
     * threw.
     */
    method RetitleNewChat(titleResponse: Option<Option<Completion>>) returns (failed: bool)
      requires Valid()
      modifies this`chatMap
      ensures Valid()
      ensures (chatMap, failed) == TitleStep(old(chatMap), activeChatId, titleResponse)
    {
      failed := false;
      var chat := ActiveChat();
      if chat.Some? && chat.value.title == NewChatTitle && |chat.value.messages| == 2 {
        match titleResponse {
          case None =>
            failed := true;
          case Some(r) =>
            if r.Some? && r.value.choices == [] {
              failed := true;
            } else {
              var newTitle := if r.Some? && r.value.choices[0].content != "" then r.value.choices[0].content
                              else NewChatTitle;
              UpdateChatTitle(chat.value.id, newTitle);
            }
        }
      }
    }

    /** The first step of `sendMessage`: the user's message, then the empty assistant message. */
    method AddPlaceholders(content: string, userTime: int, assistantTime: int)
      requires Valid()
      modifies this`chatMap
      ensures Valid()
      ensures chatMap == WithPlaceholders(old(chatMap), activeChatId, content, userTime, assistantTime)
    {
      AddMessage(FormatMessage(User, content, None, userTime));
      AddMessage(FormatMessage(Assistant, "", None, assistantTime));
    }

    /**
     * The rest of `sendMessage` once the reply is known: its notifications,
     * the title step if it did not throw, and the failure text if anything threw.
     */
    method SettleReply(reply: Reply, titleResponse: Option<Option<Completion>>)
      requires Valid()
      modifies this`chatMap
      ensures Valid()
      ensures chatMap == Settle(old(chatMap), activeChatId, reply, titleResponse)
    {
      ApplyReply(reply.notifications);
      var failed := reply.threw;
      if !failed {
        failed := RetitleNewChat(titleResponse);
      }
      if failed {
        UpdateLastMessage(SendFailureText, None, None);
      }
    }

    /**
     * `sendMessage`: `userTime` and `assistantTime` are the two clock readings,
     * `stream` the stream setting, `response` the completion request's outcome
     * (`None` when it failed) and `titleResponse` the title request's.  The
     * loading flag is off afterwards whatever happened.
     */
    method SendMessage(content: string, userTime: int, assistantTime: int, stream: bool,
                       response: Option<Body>, parse: Parser, titleResponse: Option<Option<Completion>>)
      requires Valid()
      modifies this`chatMap, this`isLoading
      ensures Valid()
      ensures chatMap == SendEffect(old(chatMap), activeChatId, content, userTime, assistantTime,
                                    stream, response, parse, titleResponse)
      ensures !isLoading
    {
      AddPlaceholders(content, userTime, assistantTime);
      ToggleLoading(true);
      if response.Some? {
        ToggleLoading(false);
      }
      var reply := ReplyOf(response, stream, parse);
      SettleReply(reply, titleResponse);
      if isLoading {
        ToggleLoading(false);
      }
    }

    /**
     * `serialize` before `JSON.stringify`: the state with the map listed as
     * its entries; deserializing gives the state back.
     */
    method Serialize() returns (p: PersistedState)
      ensures IsEnumeration(p.chatEntries, chatMap)
      ensures p.chatOrder == chatOrder && p.activeChatId == activeChatId && p.isLoading == isLoading
      ensures Deserialize(p) == State()
    {
      var entries: seq<(string, Chat)> := [];
      var rest := chatMap;
      while rest != map[]
        invariant rest.Keys <= chatMap.Keys && forall k :: k in rest ==> rest[k] == chatMap[k]
        invariant IsEnumeration(entries, chatMap - rest.Keys)
        decreases |rest|
      {
        var k :| k in rest;
        EnumerationSnoc(entries, chatMap - rest.Keys, k, rest[k]);
        assert chatMap - (rest.Keys - {k}) == (chatMap - rest.Keys)[k := rest[k]];
        entries := entries + [(k, rest[k])];
        rest := rest - {k};
      }
      assert chatMap - rest.Keys == chatMap;
      p := PersistedState(entries, chatOrder, activeChatId, isLoading);
      FromEnumeration(entries, chatMap);
    }
  }
}
