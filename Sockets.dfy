/** The client socket as the stores see it: a connection state, the listeners
    the stores have registered on it, and the events emitted to the server.
    The transport underneath (reconnection, timers, the wire) is not modelled. */
module Sockets {
  import opened Common

  datatype ConnState = Disconnected | Connecting | Connected

  /** Events the stores emit to the server. */
  datatype Emission = Authenticate(userId: Val)

  /** A listener registered by a store. The four auth-store listeners are
      installed once per socket; every `newMessage` listener belongs to one
      subscription, whose object identity stands for the closure's identity.
      The application has a single session store, so the auth-store listeners
      do not record which store installed them. */
  datatype Handler =
    | OnlineUsersUpdate
    | Heartbeat
    | ConnectError
    | OnConnect
    | NewMessage(subscription: Subscription)

  /** One call of subscribeToMessages that registered a listener: the socket it
      was registered on and the selected user captured when it was made. */
  class Subscription {
    const socket: Socket
    const selectedUser: User

    constructor (socket: Socket, selectedUser: User)
      ensures this.socket == socket && this.selectedUser == selectedUser
    {
      this.socket := socket;
      this.selectedUser := selectedUser;
    }

    /** The function subscribeToMessages returns: removes one registration of
        this subscription's listener from its socket. */
    method Unsubscribe()
      modifies socket
      ensures socket.handlers == old(socket.handlers) - multiset{NewMessage(this)}
      ensures socket.state == old(socket.state) && socket.emitted == old(socket.emitted)
    {
      socket.Off(NewMessage(this));
    }
  }

  class Socket {
    var state: ConnState
    var handlers: multiset<Handler>
    var emitted: seq<Emission>

    /** A socket created with `autoConnect: false`: not yet connecting. */
    constructor ()
      ensures state == Disconnected && handlers == multiset{} && emitted == []
    {
      state := Disconnected;
      handlers := multiset{};
      emitted := [];
    }

    /** `socket.connected` */
    predicate IsConnected()
      reads this
    {
      state == Connected
    }

    /** `socket.connect()`: starts connecting unless already connected. */
    method Connect()
      modifies this
      ensures state == (if old(state) == Connected then Connected else Connecting)
      ensures handlers == old(handlers) && emitted == old(emitted)
    {
      if state != Connected {
        state := Connecting;
      }
    }

    /** The transport completing a connection attempt; the library then
        delivers `connect` to the registered listeners. */
    method Establish()
      requires state == Connecting
      modifies this
      ensures state == Connected
      ensures handlers == old(handlers) && emitted == old(emitted)
    {
      state := Connected;
    }

    /** `socket.disconnect()`: closes the connection; listeners stay registered. */
    method Disconnect()
      modifies this
      ensures state == Disconnected
      ensures handlers == old(handlers) && emitted == old(emitted)
    {
      state := Disconnected;
    }

    /** `socket.on(event, fn)`: registrations accumulate, duplicates included. */
    method On(h: Handler)
      modifies this
      ensures handlers == old(handlers) + multiset{h}
      ensures state == old(state) && emitted == old(emitted)
    {
      handlers := handlers + multiset{h};
    }

    /** `socket.off(event, fn)`: removes one registration of `fn`, if any. */
    method Off(h: Handler)
      modifies this
      ensures handlers == old(handlers) - multiset{h}
      ensures state == old(state) && emitted == old(emitted)
    {
      handlers := handlers - multiset{h};
    }

    /** `socket.emit(event, payload)` */
    method Emit(e: Emission)
      modifies this
      ensures emitted == old(emitted) + [e]
      ensures state == old(state) && handlers == old(handlers)
    {
      emitted := emitted + [e];
    }
  }
}
