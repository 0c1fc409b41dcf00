/** The chat page (src/features/chats/index.tsx): the updaters it hands to
    `setMessages` and `setGroups` when a message arrives over the socket, the
    guard and optimistic append of `handleSendMessage`, the replacement or
    removal of the temporary message when the server acknowledges, and the
    grouping of the message list by day. */
module Chats {
  import opened Wrappers
  import opened Seqs
  import opened Strings

  datatype Person = Person(id: int, name: string)

  datatype Message = Message(
    id: int,
    content: string,
    senderId: int,
    /** `chatGroupId?: number`: `None` stands for `undefined`. */
    chatGroupId: Option<int>,
    receiverId: Option<int>,
    createdAt: string,
    sender: Person)

  datatype ChatGroup = ChatGroup(id: int, name: string, kind: string, lastMessage: Option<string>)

  /** Some message in `messages` carries `id`
      (`messages.some((msg) => msg.id === id)`). */
  predicate HasId(messages: seq<Message>, id: int) {
    exists k :: 0 <= k < |messages| && messages[k].id == id
  }

  predicate DistinctIds(messages: seq<Message>) {
    forall i, j :: 0 <= i < j < |messages| ==> messages[i].id != messages[j].id
  }

  // ---------------------------------------------------------------------
  // Incoming `newMessage`

  /** The message updater: `selected` is `selectedGroup?.id`, so with no
      group selected it is `None`, which `===` finds equal to a missing
      `chatGroupId`. */
  function OnNewMessage(prev: seq<Message>, selected: Option<int>, message: Message): (r: seq<Message>)
    ensures message.chatGroupId == selected && !HasId(prev, message.id) ==> r == prev + [message]
    ensures message.chatGroupId != selected || HasId(prev, message.id) ==> r == prev
  {
    if message.chatGroupId == selected && !HasId(prev, message.id) then prev + [message] else prev
  }

  /** Delivering the same message twice has the effect of delivering it once. */
  lemma OnNewMessageIdempotent(prev: seq<Message>, selected: Option<int>, message: Message)
    ensures OnNewMessage(OnNewMessage(prev, selected, message), selected, message)
         == OnNewMessage(prev, selected, message)
  {
    var once := OnNewMessage(prev, selected, message);
    if once != prev {
      assert once[|prev|] == message;
    }
  }

  /** Messages received over the socket never give two entries one id. */
  lemma OnNewMessageKeepsIdsDistinct(prev: seq<Message>, selected: Option<int>, message: Message)
    requires DistinctIds(prev)
    ensures DistinctIds(OnNewMessage(prev, selected, message))
  {
  }

  /** `group.id === message.chatGroupId ? { ...group, lastMessage } : group`:
      only `lastMessage` can change, and only in the message's own group. */
  function UpdateGroup(group: ChatGroup, message: Message): (r: ChatGroup)
    ensures r.(lastMessage := group.lastMessage) == group
    ensures message.chatGroupId == Some(group.id) ==> r.lastMessage == Some(message.content)
    ensures message.chatGroupId != Some(group.id) ==> r == group
  {
    if message.chatGroupId == Some(group.id) then group.(lastMessage := Some(message.content)) else group
  }

  /** The group updater: `prevGroups.map(...)`. */
  function UpdateGroups(groups: seq<ChatGroup>, message: Message): (r: seq<ChatGroup>)
    ensures |r| == |groups|
    ensures forall k :: 0 <= k < |r| ==> r[k] == UpdateGroup(groups[k], message)
    decreases |groups|
  {
    if groups == [] then [] else [UpdateGroup(groups[0], message)] + UpdateGroups(groups[1..], message)
  }

  /** Only the message's group learns the new last message; every other
      group, and the order, stay as they were. */
  lemma UpdateGroupsTouchesOnlyItsGroup(groups: seq<ChatGroup>, message: Message, k: nat)
    requires k < |groups|
    ensures var r := UpdateGroups(groups, message);
      && r[k].id == groups[k].id && r[k].name == groups[k].name && r[k].kind == groups[k].kind
      && (message.chatGroupId == Some(groups[k].id) ==> r[k].lastMessage == Some(message.content))
      && (message.chatGroupId != Some(groups[k].id) ==> r[k] == groups[k])
  {
  }

  /** A message without a group changes no group. */
  lemma UpdateGroupsWithoutGroup(groups: seq<ChatGroup>, message: Message)
    requires message.chatGroupId.None?
    ensures UpdateGroups(groups, message) == groups
  {
    var r := UpdateGroups(groups, message);
    assert forall k :: 0 <= k < |r| ==> r[k] == groups[k];
  }

  // ---------------------------------------------------------------------
  // Sending

  /** What the send handler reads: the input box, the selected group, whether
      a socket exists, and the signed-in user. */
  datatype Composer = Composer(
    messages: seq<Message>,
    input: string,
    selectedGroup: Option<ChatGroup>,
    hasSocket: bool,
    user: Option<Person>)

  /** `messageData`, the payload emitted as `sendMessage`. */
  datatype Outgoing = Outgoing(content: string, senderId: int, chatGroupId: int, sender: Person)

  /** `tempMessage`: the payload with `id: Date.now()` and
      `createdAt: new Date().toISOString()`, here the parameters `tempId` and
      `createdAt`. */
  function TempMessage(data: Outgoing, tempId: int, createdAt: string): (t: Message)
    ensures t.id == tempId && t.createdAt == createdAt && t.receiverId.None?
    ensures t.chatGroupId.Some? && Outgoing(t.content, t.senderId, t.chatGroupId.value, t.sender) == data
  {
    Message(tempId, data.content, data.senderId, Some(data.chatGroupId), None, createdAt, data.sender)
  }

  predicate CanSend(c: Composer) {
    Trim(c.input) != [] && c.selectedGroup.Some? && c.hasSocket && c.user.Some?
  }

  /** `handleSendMessage` up to the emit: the new composer state and the
      payload emitted, if any. */
  function HandleSend(c: Composer, tempId: int, createdAt: string): (r: (Composer, Option<Outgoing>))
    ensures !CanSend(c) <==> r.1.None?
    ensures !CanSend(c) ==> r.0 == c
    ensures CanSend(c) ==> var data := r.1.value;
      && data == Outgoing(c.input, c.user.value.id, c.selectedGroup.value.id, c.user.value)
      && r.0 == c.(messages := c.messages + [TempMessage(data, tempId, createdAt)], input := "")
  {
    if !CanSend(c) then (c, None)
    else
      var user := c.user.value;
      var data := Outgoing(c.input, user.id, c.selectedGroup.value.id, Person(user.id, user.name));
      (c.(messages := c.messages + [TempMessage(data, tempId, createdAt)], input := ""), Some(data))
  }

  /** A message made only of white space is never sent, whatever else holds. */
  lemma BlankInputIsNoOp(c: Composer, tempId: int, createdAt: string)
    requires AllWhitespace(c.input)
    ensures HandleSend(c, tempId, createdAt) == (c, None)
  {
  }

  /** The sent text is the input as typed: trimming only decides whether to
      send. */
  lemma SentContentIsUntrimmed(c: Composer, tempId: int, createdAt: string)
    requires CanSend(c)
    ensures var r := HandleSend(c, tempId, createdAt);
      r.1.value.content == c.input && r.0.messages[|c.messages|].content == c.input
  {
  }

  // ---------------------------------------------------------------------
  // Acknowledgement

  function Replace(messages: seq<Message>, tempId: int, response: Message): (r: seq<Message>)
    ensures |r| == |messages|
    ensures forall k :: 0 <= k < |r| ==>
      r[k] == (if messages[k].id == tempId then response else messages[k])
    decreases |messages|
  {
    if messages == [] then []
    else [if messages[0].id == tempId then response else messages[0]] + Replace(messages[1..], tempId, response)
  }

  function NotId(id: int): Message -> bool
  {
    (msg: Message) => msg.id != id
  }

  /** The acknowledgement callback: a truthy `response` replaces the
      temporary message, none removes it. */
  function Ack(messages: seq<Message>, tempId: int, response: Option<Message>): (r: seq<Message>)
    ensures response.Some? ==> |r| == |messages| && forall k :: 0 <= k < |r| ==>
      r[k] == (if messages[k].id == tempId then response.value else messages[k])
    ensures response.None? ==> !HasId(r, tempId) && forall k :: 0 <= k < |r| ==> r[k] in messages
    ensures response.None? ==> forall k :: 0 <= k < |messages| && messages[k].id != tempId ==> messages[k] in r
  {
    match response
    case Some(m) => Replace(messages, tempId, m)
    case None => Filter(messages, NotId(tempId))
  }

  /** Messages that arrived between the send and its acknowledgement keep
      their place: a success puts the server's message where the temporary
      one was. */
  lemma AckSuccessAroundOthers(before: seq<Message>, temp: Message, after: seq<Message>, response: Message)
    requires !HasId(before, temp.id) && !HasId(after, temp.id)
    ensures Ack(before + [temp] + after, temp.id, Some(response)) == before + [response] + after
  {
    var l := before + [temp] + after;
    var r := Replace(l, temp.id, response);
    var e := before + [response] + after;
    assert |r| == |e|;
    forall k | 0 <= k < |l|
      ensures r[k] == e[k]
    {
      if k < |before| {
        assert l[k] == before[k] && e[k] == before[k];
      } else if k == |before| {
        assert l[k] == temp && e[k] == response;
      } else {
        assert l[k] == after[k - |before| - 1] && e[k] == after[k - |before| - 1];
      }
    }
  }

  lemma {:induction false} NoneHasId(messages: seq<Message>, id: int)
    requires !HasId(messages, id)
    ensures Filter(messages, NotId(id)) == messages
  {
    assert forall k :: 0 <= k < |messages| ==> NotId(id)(messages[k]);
    FilterAll(messages, NotId(id));
  }

  /** ... and a failure takes the temporary one out. */
  lemma AckFailureAroundOthers(before: seq<Message>, temp: Message, after: seq<Message>)
    requires !HasId(before, temp.id) && !HasId(after, temp.id)
    ensures Ack(before + [temp] + after, temp.id, None) == before + after
  {
    var p := NotId(temp.id);
    var front := before + [temp];
    calc {
      Filter(front + after, p);
      { FilterAppend(front, after, p); }
      Filter(front, p) + Filter(after, p);
      { FilterAppend(before, [temp], p); }
      Filter(before, p) + Filter([temp], p) + Filter(after, p);
      { assert Filter([temp], p) == []; NoneHasId(before, temp.id); NoneHasId(after, temp.id); }
      before + [] + after;
    }
    assert before + [] + after == before + after;
  }

  /** Sending and then receiving a failed acknowledgement leaves the message
      list as it was before the send. */
  lemma SendThenFailedAckRestores(c: Composer, tempId: int, createdAt: string)
    requires CanSend(c) && !HasId(c.messages, tempId)
    ensures Ack(HandleSend(c, tempId, createdAt).0.messages, tempId, None) == c.messages
  {
    var t := TempMessage(HandleSend(c, tempId, createdAt).1.value, tempId, createdAt);
    assert c.messages + [t] + [] == c.messages + [t];
    AckFailureAroundOthers(c.messages, t, []);
    assert c.messages + [] == c.messages;
  }

  // ---------------------------------------------------------------------
  // Grouping by day

  function HasKey(key: Message -> string, day: string): Message -> bool
  {
    (msg: Message) => key(msg) == day
  }

  /** The bucket for `day`: the messages whose key is `day`, in list order. */
  function Bucket(messages: seq<Message>, key: Message -> string, day: string): (r: seq<Message>)
    ensures forall k :: 0 <= k < |r| ==> key(r[k]) == day
  {
    Filter(messages, HasKey(key, day))
  }

  /** Every message lies in the bucket for its own key and in no other, and
      each bucket keeps the original relative order. */
  lemma {:induction false} BucketsPartition(messages: seq<Message>, key: Message -> string, i: nat, day: string)
    requires i < |messages|
    ensures messages[i] in Bucket(messages, key, day) <==> key(messages[i]) == day
    ensures IsSubsequence(Bucket(messages, key, day), messages)
  {
    FilterIsSubsequence(messages, HasKey(key, day));
    if messages[i] in Bucket(messages, key, day) {
      var r := Bucket(messages, key, day);
      var k :| 0 <= k < |r| && r[k] == messages[i];
    }
  }

  lemma BucketStep(prefix: seq<Message>, message: Message, key: Message -> string, day: string)
    ensures Bucket(prefix + [message], key, day)
         == Bucket(prefix, key, day) + (if key(message) == day then [message] else [])
  {
    FilterAppend(prefix, [message], HasKey(key, day));
  }

  lemma BucketOfAbsentKey(prefix: seq<Message>, key: Message -> string, day: string)
    requires forall j :: 0 <= j < |prefix| ==> key(prefix[j]) != day
    ensures Bucket(prefix, key, day) == []
  {
    assert forall j :: 0 <= j < |prefix| ==> !HasKey(key, day)(prefix[j]);
    FilterNone(prefix, HasKey(key, day));
  }

  /** The `groupedMessages` reduce: `key` stands for
      `format(new Date(message.createdAt), 'd MMM, yyyy')`. */
  method GroupByDate(messages: seq<Message>, key: Message -> string)
    returns (acc: map<string, seq<Message>>)
    ensures forall day :: day in acc <==> exists i :: 0 <= i < |messages| && key(messages[i]) == day
    ensures forall day :: day in acc ==> acc[day] == Bucket(messages, key, day)
  {
    acc := map[];
    for i := 0 to |messages|
      invariant forall day :: day in acc <==> exists j :: 0 <= j < i && key(messages[j]) == day
      invariant forall day :: day in acc ==> acc[day] == Bucket(messages[..i], key, day)
    {
      var message := messages[i];
      var day := key(message);
      ghost var prefix := messages[..i];
      assert messages[..i + 1] == prefix + [message];
      var bucket: seq<Message>;
      if day in acc {
        bucket := acc[day];
      } else {
        bucket := [];
        forall j | 0 <= j < |prefix|
          ensures key(prefix[j]) != day
        {
          assert prefix[j] == messages[j];
        }
        BucketOfAbsentKey(prefix, key, day);
      }
      acc := acc[day := bucket + [message]];
      forall d | d in acc
        ensures acc[d] == Bucket(messages[..i + 1], key, d)
      {
        BucketStep(prefix, message, key, d);
      }
    }
    assert messages[..|messages|] == messages;
  }
}
