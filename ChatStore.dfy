/** The chat store (src/store/useChatStore.js): the user list, the selected
    conversation partner and its message log, with their loading flags, and
    the `newMessage` subscription on the session store's socket. */
module Chat {
  import opened Common
  import opened Sockets
  import opened ChatRouting
  import opened Auth

  /** The store's fields as one value. */
  datatype ChatFields = ChatFields(
    messages: seq<Message>,
    users: seq<User>,
    selectedUser: Option<User>,
    isUsersLoading: bool,
    isMessagesLoading: bool)

  /** What sendMessage reads from the store before its request. */
  datatype SendSnapshot = SendSnapshot(selectedUser: Option<User>, messages: seq<Message>)

  class ChatStore {
    /** The session store, read for its socket and its current user. */
    const auth: AuthStore
    var messages: seq<Message>
    var users: seq<User>
    var selectedUser: Option<User>
    var isUsersLoading: bool
    var isMessagesLoading: bool

    ghost function Fields(): ChatFields
      reads this
    {
      ChatFields(messages, users, selectedUser, isUsersLoading, isMessagesLoading)
    }

    constructor (auth: AuthStore)
      ensures this.auth == auth
      ensures Fields() == ChatFields([], [], None, false, false)
    {
      this.auth := auth;
      messages, users := [], [];
      selectedUser := None;
      isUsersLoading, isMessagesLoading := false, false;
    }

    /** getUsers: the user list is replaced on success only; the loading flag
        is false after either outcome. */
    method GetUsers(response: Outcome<seq<User>>)
      modifies this
      ensures response.Success? ==> Fields() == old(Fields()).(users := response.data, isUsersLoading := false)
      ensures response.Failure? ==> Fields() == old(Fields()).(isUsersLoading := false)
    {
      isUsersLoading := true;
      if response.Success? {
        users := response.data;
      }
      isUsersLoading := false;
    }

    /** getMessages: the log is emptied first, then holds the fetched history
        on success and stays empty on failure; the loading flag ends false. */
    method GetMessages(response: Outcome<seq<Message>>)
      modifies this
      ensures messages == (if response.Success? then response.data else [])
      ensures Fields() == old(Fields()).(messages := messages, isMessagesLoading := false)
    {
      isMessagesLoading, messages := true, [];
      if response.Success? {
        messages := response.data;
      }
      isMessagesLoading := false;
    }

    /** sendMessage, up to its request: the selected user and the log it reads. */
    method BeginSend() returns (snapshot: SendSnapshot)
      ensures snapshot.selectedUser == selectedUser && snapshot.messages == messages
    {
      snapshot := SendSnapshot(selectedUser, messages);
    }

    /** sendMessage, after its request: on success the log becomes the snapshot
        plus the returned message, dropping whatever was appended meanwhile.
        With no selected user the request is never made (reading `_id` of null
        throws inside the try), and nothing changes; neither does it on failure. */
    method CompleteSend(snapshot: SendSnapshot, response: Outcome<Message>)
      modifies this
      ensures snapshot.selectedUser.Some? && response.Success? ==>
        Fields() == old(Fields()).(messages := snapshot.messages + [response.data])
      ensures !(snapshot.selectedUser.Some? && response.Success?) ==>
        Fields() == old(Fields())
    {
      if snapshot.selectedUser.Some? && response.Success? {
        messages := snapshot.messages + [response.data];
      }
    }

    /** subscribeToMessages: with a socket and a selected user, registers one
        fresh `newMessage` listener capturing the selected user and returns it
        as the unsubscribe handle; otherwise registers nothing and returns none. */
    method SubscribeToMessages() returns (unsubscribe: Option<Subscription>)
      modifies auth.socket
      ensures auth.socket == null || selectedUser.None? ==>
        unsubscribe.None? && (auth.socket != null ==> unchanged(auth.socket))
      ensures auth.socket != null && selectedUser.Some? ==>
        unsubscribe.Some? && fresh(unsubscribe.value) &&
        unsubscribe.value.socket == auth.socket &&
        unsubscribe.value.selectedUser == selectedUser.value &&
        auth.socket.handlers == old(auth.socket.handlers) + multiset{NewMessage(unsubscribe.value)} &&
        auth.socket.state == old(auth.socket.state) && auth.socket.emitted == old(auth.socket.emitted)
    {
      var s := auth.socket;
      if s == null || selectedUser.None? {
        return None;
      }
      var sub := new Subscription(s, selectedUser.value);
      s.On(NewMessage(sub));
      unsubscribe := Some(sub);
    }

    /** The listener of `sub` receiving `m`: the message is appended iff it
        passes the pair filter for the captured selected user and the signed-in
        user as read now. */
    method OnNewMessage(sub: Subscription, m: Message)
      requires sub.socket.state == Connected && NewMessage(sub) in sub.socket.handlers
      modifies this
      ensures Fields() == old(Fields()).(messages := Deliver(old(messages), m, sub.selectedUser.id, IdOf(auth.authUser)))
    {
      messages := Deliver(messages, m, sub.selectedUser.id, IdOf(auth.authUser));
    }

    /** setSelectedUser: selects the user and empties the log. */
    method SetSelectedUser(u: Option<User>)
      modifies this
      ensures Fields() == old(Fields()).(selectedUser := u, messages := [])
    {
      selectedUser, messages := u, [];
    }
  }

  /** Subscribing and then calling the returned handle leaves the socket's
      listeners as they were. */
  method SubscribeThenUnsubscribe(chat: ChatStore)
    modifies chat.auth.socket
    ensures chat.auth.socket != null ==>
      chat.auth.socket.handlers == old(chat.auth.socket.handlers) &&
      chat.auth.socket.state == old(chat.auth.socket.state) &&
      chat.auth.socket.emitted == old(chat.auth.socket.emitted)
  {
    var handle := chat.SubscribeToMessages();
    if handle.Some? {
      handle.value.Unsubscribe();
    }
  }

  /** Selecting another user does not remove the previous subscription: its
      listener still appends messages of the old pair, now to the log of the
      newly selected conversation. */
  method SelectWithoutUnsubscribing(chat: ChatStore, sub: Subscription, u: Option<User>, m: Message)
    requires sub.socket.state == Connected && NewMessage(sub) in sub.socket.handlers
    requires InConversation(m, sub.selectedUser.id, IdOf(chat.auth.authUser))
    modifies chat
    ensures chat.selectedUser == u && chat.messages == [m]
  {
    chat.SetSelectedUser(u);
    chat.OnNewMessage(sub, m);
  }

  /** sendMessage writes back the log it read before its request: a message the
      listener accepted while the request was pending is lost. */
  method SendDropsMessageReceivedDuringRequest(chat: ChatStore, u: User, m: Message, resp: Message)
    requires InConversation(m, u.id, IdOf(chat.auth.authUser))
    modifies chat, chat.auth
    ensures chat.messages == [resp]
  {
    chat.auth.ConnectSocket();
    var s := chat.auth.socket;
    s.Establish();
    chat.SetSelectedUser(Some(u));
    var handle := chat.SubscribeToMessages();
    var snapshot := chat.BeginSend();
    chat.OnNewMessage(handle.value, m);
    assert chat.messages == [m];
    chat.CompleteSend(snapshot, Success(resp));
  }
}
