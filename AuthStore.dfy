/** The session store (src/store/useAuthStore.js): the signed-in user, the
    busy flags, the socket and the presence list. Each action is one atomic
    transition given the outcome of its HTTP request. */
module Auth {
  import opened Common
  import opened Sockets

  /** The listeners connectSocket installs on every socket it creates. */
  const STORE_HANDLERS: multiset<Handler> := multiset{OnlineUsersUpdate, Heartbeat, ConnectError, OnConnect}

  /** The store's fields as one value. */
  datatype AuthFields = AuthFields(
    authUser: Option<User>,
    isSigningUp: bool,
    isLoggingIn: bool,
    isUpdatingProfile: bool,
    isCheckingAuth: bool,
    onlineUsers: seq<Val>,
    socket: Socket?)

  /** The fields after disconnectSocket: no socket and an empty presence list. */
  function AfterDisconnect(f: AuthFields): AuthFields
  {
    f.(socket := null, onlineUsers := [])
  }

  lemma DisconnectIsIdempotent(f: AuthFields)
    ensures AfterDisconnect(AfterDisconnect(f)) == AfterDisconnect(f)
    ensures AfterDisconnect(f).socket == null && AfterDisconnect(f).onlineUsers == []
    ensures AfterDisconnect(f).authUser == f.authUser
  {
  }

  /** What the `connect` listener emits: `authenticate` with the user's id
      when `authUser?._id` is truthy, nothing otherwise. */
  function Announcement(authUser: Option<User>): (r: seq<Emission>)
    ensures |r| <= 1
    ensures r != [] <==> Truthy(IdOf(authUser))
    ensures r != [] ==> authUser.Some? && r[0] == Authenticate(authUser.value.id)
  {
    if Truthy(IdOf(authUser)) then [Authenticate(authUser.value.id)] else []
  }

  /** signup's acceptance test `res.data && res.data._id`. */
  predicate SignupAccepted(data: Option<User>)
  {
    data.Some? && Truthy(data.value.id)
  }

  /** A socket just made by connectSocket: connecting, with the store's four
      listeners and nothing emitted yet. */
  predicate FreshlyConnecting(s: Socket)
    reads s
  {
    s.state == Connecting && s.handlers == STORE_HANDLERS && s.emitted == []
  }

  class AuthStore {
    var authUser: Option<User>
    var isSigningUp: bool
    var isLoggingIn: bool
    var isUpdatingProfile: bool
    var isCheckingAuth: bool
    var onlineUsers: seq<Val>
    var socket: Socket?

    ghost function Fields(): AuthFields
      reads this
    {
      AuthFields(authUser, isSigningUp, isLoggingIn, isUpdatingProfile, isCheckingAuth, onlineUsers, socket)
    }

    /** The initial store: nobody signed in, the session check pending. */
    constructor ()
      ensures Fields() == AuthFields(None, false, false, false, true, [], null)
    {
      authUser := None;
      isSigningUp, isLoggingIn, isUpdatingProfile := false, false, false;
      isCheckingAuth := true;
      onlineUsers := [];
      socket := null;
    }

    /** checkAuth: on success the response becomes authUser and a socket is
        created; on failure authUser is cleared. Either way the check is no
        longer pending. `diagnostic` tells whether the failure is logged,
        which it is for every status but 401. */
    method CheckAuth(response: Outcome<Option<User>>) returns (diagnostic: bool)
      modifies this
      ensures response.Success? ==>
        socket != null && fresh(socket) && FreshlyConnecting(socket) &&
        Fields() == old(Fields()).(authUser := response.data, isCheckingAuth := false, socket := socket)
      ensures response.Failure? ==>
        Fields() == old(Fields()).(authUser := None, isCheckingAuth := false)
      ensures diagnostic <==> response.Failure? && response.status != Some(401)
    {
      diagnostic := false;
      if response.Success? {
        authUser := response.data;
        ConnectSocket();
      } else {
        diagnostic := response.status != Some(401);
        authUser := None;
      }
      isCheckingAuth := false;
    }

    /** signup: the user is stored and a socket created only when the response
        body has a truthy `_id`; any other outcome leaves authUser as it was.
        isSigningUp is false afterwards. */
    method Signup(response: Outcome<Option<User>>)
      modifies this
      ensures response.Success? && SignupAccepted(response.data) ==>
        socket != null && fresh(socket) && FreshlyConnecting(socket) &&
        Fields() == old(Fields()).(authUser := response.data, isSigningUp := false, socket := socket)
      ensures !(response.Success? && SignupAccepted(response.data)) ==>
        Fields() == old(Fields()).(isSigningUp := false)
    {
      isSigningUp := true;
      if response.Success? && SignupAccepted(response.data) {
        authUser := response.data;
        ConnectSocket();
      }
      isSigningUp := false;
    }

    /** login: on success the response becomes authUser and a socket is
        created; on failure nothing but the busy flag changes. */
    method Login(response: Outcome<Option<User>>)
      modifies this
      ensures response.Success? ==>
        socket != null && fresh(socket) && FreshlyConnecting(socket) &&
        Fields() == old(Fields()).(authUser := response.data, isLoggingIn := false, socket := socket)
      ensures response.Failure? ==>
        Fields() == old(Fields()).(isLoggingIn := false)
    {
      isLoggingIn := true;
      if response.Success? {
        authUser := response.data;
        ConnectSocket();
      }
      isLoggingIn := false;
    }

    /** updateProfile: authUser is replaced on success only; the socket is
        never touched. */
    method UpdateProfile(response: Outcome<Option<User>>)
      modifies this
      ensures response.Success? ==>
        Fields() == old(Fields()).(authUser := response.data, isUpdatingProfile := false)
      ensures response.Failure? ==>
        Fields() == old(Fields()).(isUpdatingProfile := false)
    {
      isUpdatingProfile := true;
      if response.Success? {
        authUser := response.data;
      }
      isUpdatingProfile := false;
    }

    /** logout: on success the user is cleared and the socket torn down; on
        failure nothing changes. */
    method Logout(response: Outcome<()>)
      modifies this, socket
      ensures response.Success? ==>
        Fields() == AfterDisconnect(old(Fields())).(authUser := None)
      ensures response.Success? && old(socket) != null ==>
        old(socket).state == (if old(socket.state) == Connected then Disconnected else old(socket.state)) &&
        old(socket).handlers == old(socket.handlers) && old(socket).emitted == old(socket.emitted)
      ensures response.Failure? ==>
        Fields() == old(Fields()) && (old(socket) != null ==> unchanged(old(socket)))
    {
      if response.Success? {
        authUser := None;
        DisconnectSocket();
      }
    }

    /** connectSocket: creates a socket, starts connecting it, stores it and
        installs the store's listeners. Whatever socket was held before is
        replaced without being disconnected. */
    method ConnectSocket()
      modifies this
      ensures socket != null && fresh(socket) && FreshlyConnecting(socket)
      ensures Fields() == old(Fields()).(socket := socket)
      ensures old(socket) != null ==> unchanged(old(socket))
    {
      var s := new Socket();
      s.Connect();
      socket := s;
      s.On(OnlineUsersUpdate);
      s.On(Heartbeat);
      s.On(ConnectError);
      s.On(OnConnect);
    }

    /** disconnectSocket: disconnects the held socket only if it is connected,
        then always drops it and empties the presence list. */
    method DisconnectSocket()
      modifies this, socket
      ensures Fields() == AfterDisconnect(old(Fields()))
      ensures old(socket) != null ==>
        old(socket).state == (if old(socket.state) == Connected then Disconnected else old(socket.state)) &&
        old(socket).handlers == old(socket.handlers) && old(socket).emitted == old(socket.emitted)
    {
      var s := socket;
      if s != null && s.IsConnected() {
        s.Disconnect();
      }
      socket := null;
      onlineUsers := [];
    }

    /** The `onlineUsersUpdate` listener of socket `s`: the presence list is
        replaced by the received one, whichever socket the store holds now. */
    method OnOnlineUsersUpdate(s: Socket, userIds: seq<Val>)
      requires s.state == Connected && OnlineUsersUpdate in s.handlers
      modifies this
      ensures Fields() == old(Fields()).(onlineUsers := userIds)
    {
      onlineUsers := userIds;
    }

    /** The `connect` listener of socket `s`: announces the current user's id
        on `s` when there is one. */
    method OnConnected(s: Socket)
      requires s.state == Connected && OnConnect in s.handlers
      modifies s
      ensures s.emitted == old(s.emitted) + Announcement(authUser)
      ensures s.state == old(s.state) && s.handlers == old(s.handlers)
    {
      var announcement := Announcement(authUser);
      if announcement != [] {
        s.Emit(announcement[0]);
      }
    }
  }
}
