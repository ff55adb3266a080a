# QuickTalk client stores in Dafny

This project models the two client-side state stores of the QuickTalk chat front end.

- The **session store** (`useAuthStore`) holds the signed-in user, four busy flags, the socket and the list of online users. It creates and tears down the socket.
- The **chat store** (`useChatStore`) holds the user list, the selected conversation partner and its message log. It routes inbound `newMessage` events into that log.

Each store is a `class` whose fields are the store's fields. Each action is a method that takes the outcome of its HTTP request as a parameter (`Success(data)` or `Failure(status)`) and performs its whole transition atomically.

The socket is a `class Socket` in `Sockets.dfy`. It holds a connection state, a multiset of registered listeners and the list of events emitted to the server.

Socket listeners are methods of the store that installed them. The listeners are `OnNewMessage`, `OnOnlineUsersUpdate` and `OnConnected`. Each one requires that its listener is registered on a connected socket, since the socket library only calls registered listeners of an open connection.

The message listener's pair filter and its effect on the log are also written as pure functions in `ChatRouting.dfy`, so that runs of deliveries can be reasoned about.

Files:
- `Common.dfy`: JavaScript values in id positions. `===` is structural equality on them. Also truthiness, the user and message records, and the HTTP outcome.
- `Sockets.dfy`: the socket and the `newMessage` subscription object.
- `ChatRouting.dfy`: the pair filter, one delivery, a run of deliveries, and lemmas about them.
- `AuthStore.dfy`: the session store.
- `ChatStore.dfy`: the chat store.

The code does none of the following, and the model follows the code:
- No message deduplication by id.
- No normalisation of ids before comparing.
- No unsubscribe-before-subscribe.
- `connectSocket` does not tear down an earlier socket.
- `checkAuth` and `login` create a socket even when the returned user has no `_id`.

## Model

| member | source | states |
|---|---|---|
| ChatRouting.PairFilterIsUnorderedPair | src/store/useChatStore.js:55-60 | The handler's condition holds iff the unordered pair {senderId, receiverId} equals {selected user's `_id`, signed-in user's `_id`}, compared strictly. |
| ChatRouting.Deliver | src/store/useChatStore.js:53-65 | One delivery grows the log by one iff the message passes the filter. The old log stays as the prefix and the new message is last. Otherwise the log is unchanged. |
| ChatRouting.ReplayAppendsAccepted | src/store/useChatStore.js:61-63 | After any run of deliveries the log is the old log followed by the accepted messages in arrival order. `authUser` is re-read at each delivery. |
| ChatRouting.AcceptedDuplicateIsAppended | src/store/useChatStore.js:61-63 | There is no id check: an accepted message whose id is already in the log makes that id occur once more. |
| ChatRouting.SentMessageEchoIsAppendedAgain | src/store/useChatStore.js:41 | The sender's own echo of a message `sendMessage` just appended passes the filter. It is appended a second time, so its id occurs twice more than in the snapshot. |
| ChatRouting.SendKeepsDeliveriesIffNoneAccepted | src/store/useChatStore.js:38-41 | Storing snapshot + [response] equals the log the handler built during the request plus the response iff no delivery was accepted meanwhile. Otherwise those messages are lost. |
| Chat.ChatStore.constructor | src/store/useChatStore.js:7-11 | Initial state: empty log and user list, no selected user, both loading flags false. |
| Chat.ChatStore.GetUsers | src/store/useChatStore.js:13-23 | The user list is replaced only on success. `isUsersLoading` is false after either outcome. Nothing else changes. |
| Chat.ChatStore.GetMessages | src/store/useChatStore.js:25-35 | The log is emptied, then equals the response on success and stays empty on failure. `isMessagesLoading` ends false. Nothing else changes. |
| Chat.ChatStore.BeginSend | src/store/useChatStore.js:38 | `sendMessage` reads the selected user and the log before its request. |
| Chat.ChatStore.CompleteSend | src/store/useChatStore.js:39-44 | On success the log becomes the pre-request snapshot + [response]. With no selected user, or on failure, nothing changes. |
| Chat.ChatStore.SubscribeToMessages | src/store/useChatStore.js:47-72 | With no socket or no selected user: registers nothing and returns no handle. Otherwise: adds exactly one fresh listener capturing the selected user to the socket's listener multiset and returns it as the handle. |
| Chat.ChatStore.OnNewMessage | src/store/useChatStore.js:53-65 | A registered listener appends the message iff the filter holds. It uses the selected user captured at subscription and the signed-in user as read at delivery. No other field changes. |
| Chat.ChatStore.SetSelectedUser | src/store/useChatStore.js:74 | `selectedUser` becomes the argument and the log becomes empty. No other field changes. |
| Sockets.Subscription.Unsubscribe | src/store/useChatStore.js:69-71 | The returned handle removes one registration of its listener from the socket it was registered on. |
| Chat.SubscribeThenUnsubscribe | src/store/useChatStore.js:67-71 | Subscribing and then calling the returned handle leaves the socket's listener multiset, state and emitted events as they were. |
| Chat.SelectWithoutUnsubscribing | src/store/useChatStore.js:48 | After another user is selected, a listener that was not unsubscribed still appends its old pair's messages, now into the new conversation's log. |
| Chat.SendDropsMessageReceivedDuringRequest | src/store/useChatStore.js:37-45 | Through the store's own methods: a message accepted by the listener between `sendMessage` reading the log and its response arriving is lost, and the log ends as the pre-request snapshot plus the response. |
| Auth.AuthStore.constructor | src/store/useAuthStore.js:7-13 | Initial state: no user, `isCheckingAuth` true, other flags false, no presence, no socket. |
| Auth.AuthStore.CheckAuth | src/store/useAuthStore.js:15-29 | On success `authUser` is the response and a fresh connecting socket is held. On failure `authUser` is null. `isCheckingAuth` is false in every case. A diagnostic is logged iff the failure status is not 401. |
| Auth.AuthStore.Signup | src/store/useAuthStore.js:31-49 | `authUser` is set and a socket created iff the request succeeded and the body has a truthy `_id`. Otherwise only `isSigningUp` changes. It is false afterwards in every case. |
| Auth.AuthStore.Login | src/store/useAuthStore.js:51-63 | On success `authUser` is replaced and a socket created. On failure only the busy flag changes. `isLoggingIn` ends false. |
| Auth.AuthStore.UpdateProfile | src/store/useAuthStore.js:76-87 | `authUser` is replaced only on success. `isUpdatingProfile` ends false. The socket field is untouched. |
| Auth.AuthStore.Logout | src/store/useAuthStore.js:65-74 | On success: `authUser`, `socket` and `onlineUsers` are cleared, and the old socket is disconnected only if it was connected. On failure nothing changes. |
| Auth.AuthStore.ConnectSocket | src/store/useAuthStore.js:89-128 | The store holds a fresh socket that is connecting, with the four listeners installed and nothing emitted. The previously held socket is left as it was, so it is not disconnected. |
| Auth.AuthStore.DisconnectSocket | src/store/useAuthStore.js:130-136 | The held socket is disconnected only if it is connected. The store always ends with no socket and an empty presence list. Nothing else changes. |
| Auth.DisconnectIsIdempotent | src/store/useAuthStore.js:130-136 | Applying the disconnect transition twice equals applying it once. It clears socket and presence and keeps `authUser`. |
| Auth.AuthStore.OnOnlineUsersUpdate | src/store/useAuthStore.js:104-106 | The presence list is replaced by the received list, with no merge. This happens even when the event comes from a socket the store no longer holds. |
| Auth.Announcement | src/store/useAuthStore.js:124-126 | At most one emission. It is non-empty iff `authUser?._id` is truthy, and then it is `authenticate` with that id. |
| Auth.AuthStore.OnConnected | src/store/useAuthStore.js:122-127 | The `connect` listener emits on its own socket exactly the announcement for the current `authUser`. It changes nothing else on the socket. |

## Left out

- The socket transport: reconnection attempts and delay options (src/store/useAuthStore.js:94-97), and the timed retry after `connect_error` (lines 116-119). These are timers and library networking. The `connect_error` listener is registered but its body is not modelled.
- The heartbeat echo (src/store/useAuthStore.js:109-113). It is registered but its body is not modelled, since it is a keep-alive with no store state.
- HTTP requests and the response interceptor in src/lib/axios.js. Each request is replaced by its outcome, passed as a parameter. The interceptor only logs and re-rejects.
- Toast notifications, `console` output and environment lookups are UI or environment effects. The one exception is the `checkAuth` 401-versus-other branch, which is kept as the `diagnostic` result.
- The URL path parameter of `getMessages` and `sendMessage`, and the message body sent. They only shape the request, whose outcome is an input.
- Interleaving of awaits is not modelled: each action is one atomic transition, so the busy flags' `true` phase is not observable. The one exception is `sendMessage`, split into `BeginSend` and `CompleteSend` so that deliveries can run between them.
- Chat.ChatStore.GetMessages: a `newMessage` delivered during its request (src/store/useChatStore.js:26-33) would be appended to the emptied log. On success the response overwrites it; on failure it would stay, so "stays empty on failure" holds only because the action is modelled as one atomic step.
- Numbers in id positions are integers. Floating point, `NaN` and `-0` are not modelled.
- src/store/useThemeStore.js and vite.config.js are not part of this model: theme persistence and build configuration.
