/** The `newMessage` listener of the chat store as a pure function: the pair
    filter, the append it performs, and what a run of deliveries does to the
    message log. */
module ChatRouting {
  import opened Common

  /** The handler's condition: the message goes from the selected user to the
      signed-in user, or the other way round, compared with `===`. */
  predicate InConversation(m: Message, selectedId: Val, authId: Val)
  {
    (m.senderId == selectedId && m.receiverId == authId) ||
    (m.senderId == authId && m.receiverId == selectedId)
  }

  /** The filter accepts exactly the messages whose unordered pair of endpoints
      is the unordered pair {selected user, signed-in user}. */
  lemma PairFilterIsUnorderedPair(m: Message, selectedId: Val, authId: Val)
    ensures InConversation(m, selectedId, authId) <==>
            multiset{m.senderId, m.receiverId} == multiset{selectedId, authId}
  {
  }

  /** One delivery to the handler: the log after it. An accepted message is
      appended at the end; nothing is checked against the ids already there. */
  function Deliver(log: seq<Message>, m: Message, selectedId: Val, authId: Val): (r: seq<Message>)
    ensures |r| == |log| + (if InConversation(m, selectedId, authId) then 1 else 0)
    ensures r[..|log|] == log
    ensures InConversation(m, selectedId, authId) ==> r[|log|] == m
  {
    if InConversation(m, selectedId, authId) then log + [m] else log
  }

  /** An inbound `newMessage` event together with `authUser?._id` as the
      handler reads it at that delivery. */
  datatype Delivery = Delivery(msg: Message, authId: Val)

  /** The log after the handler of a subscription for `selectedId` has run on
      each delivery in turn. */
  function Replay(log: seq<Message>, ds: seq<Delivery>, selectedId: Val): seq<Message>
    decreases |ds|
  {
    if ds == [] then log
    else Replay(Deliver(log, ds[0].msg, selectedId, ds[0].authId), ds[1..], selectedId)
  }

  /** The deliveries that pass the pair filter, in arrival order. */
  function Accepted(ds: seq<Delivery>, selectedId: Val): seq<Message>
    decreases |ds|
  {
    if ds == [] then []
    else (if InConversation(ds[0].msg, selectedId, ds[0].authId) then [ds[0].msg] else [])
         + Accepted(ds[1..], selectedId)
  }

  /** A run of deliveries only appends: the old log is kept as a prefix and the
      accepted messages follow in arrival order. */
  lemma {:induction false} ReplayAppendsAccepted(log: seq<Message>, ds: seq<Delivery>, selectedId: Val)
    ensures Replay(log, ds, selectedId) == log + Accepted(ds, selectedId)
    decreases |ds|
  {
    if ds != [] {
      var d := ds[0];
      var next := Deliver(log, d.msg, selectedId, d.authId);
      var head := if InConversation(d.msg, selectedId, d.authId) then [d.msg] else [];
      assert next == log + head;
      ReplayAppendsAccepted(next, ds[1..], selectedId);
      assert log + head + Accepted(ds[1..], selectedId) == log + (head + Accepted(ds[1..], selectedId));
    }
  }

  /** How many entries of the log carry the given id. */
  function Occurrences(log: seq<Message>, id: Val): nat
    decreases |log|
  {
    if log == [] then 0
    else (if log[0].id == id then 1 else 0) + Occurrences(log[1..], id)
  }

  lemma {:induction false} OccurrencesAppend(log: seq<Message>, m: Message, id: Val)
    ensures Occurrences(log + [m], id) == Occurrences(log, id) + (if m.id == id then 1 else 0)
    decreases |log|
  {
    if log != [] {
      assert (log + [m])[1..] == log[1..] + [m];
      OccurrencesAppend(log[1..], m, id);
    }
  }

  /** There is no deduplication: an accepted message whose id is already in
      the log is appended again, so that id occurs once more. */
  lemma AcceptedDuplicateIsAppended(log: seq<Message>, m: Message, selectedId: Val, authId: Val)
    requires InConversation(m, selectedId, authId)
    ensures Occurrences(Deliver(log, m, selectedId, authId), m.id) == Occurrences(log, m.id) + 1
  {
    OccurrencesAppend(log, m, m.id);
  }

  /** sendMessage stores the snapshot taken before its request plus the
      response. That equals the log the handler built meanwhile plus the
      response exactly when no delivery was accepted during the request. */
  lemma SendKeepsDeliveriesIffNoneAccepted(snapshot: seq<Message>, ds: seq<Delivery>, selectedId: Val, sent: Message)
    ensures snapshot + [sent] == Replay(snapshot, ds, selectedId) + [sent]
            <==> Accepted(ds, selectedId) == []
  {
    ReplayAppendsAccepted(snapshot, ds, selectedId);
    if Accepted(ds, selectedId) != [] {
      assert |Replay(snapshot, ds, selectedId) + [sent]| > |snapshot + [sent]|;
    }
  }

  /** The message sendMessage appended comes back as the sender's own
      `newMessage` echo: it passes the filter and is appended a second time. */
  lemma {:induction false} SentMessageEchoIsAppendedAgain(snapshot: seq<Message>, sent: Message, selectedId: Val, authId: Val)
    requires sent.senderId == authId && sent.receiverId == selectedId
    ensures Deliver(snapshot + [sent], sent, selectedId, authId) == snapshot + [sent, sent]
    ensures Occurrences(Deliver(snapshot + [sent], sent, selectedId, authId), sent.id) == Occurrences(snapshot, sent.id) + 2
  {
    assert snapshot + [sent] + [sent] == snapshot + [sent, sent];
    OccurrencesAppend(snapshot, sent, sent.id);
    OccurrencesAppend(snapshot + [sent], sent, sent.id);
  }
}
