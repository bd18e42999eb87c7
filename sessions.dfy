/** The server's connection sessions: one `Player` per socket
    (src/core/server/Player.ts) and the `Players` registry keyed by session
    id (src/core/server/Players.ts). The socket itself is an opaque handle;
    what a client may see of a session is everything but that handle. */
module Sessions {
  import opened Common

  datatype SessionStatus = Idle | Playing

  /** An opaque reference to the connection's socket. */
  datatype SocketRef = SocketRef(handle: nat)

  /** `PlayerProps`; `connectedAt` is the connection time in milliseconds. */
  datatype SessionProps = SessionProps(id: string, socket: SocketRef, connectedAt: int, disconnected: bool)

  /** The own data fields of a session without its socket. */
  datatype ClientData = ClientData(id: string, disconnected: bool, connectedAt: int,
                                   status: SessionStatus, username: Option<string>)

  class Session {
    const id: string
    const socket: SocketRef
    const connectedAt: int
    const disconnected: bool
    var status: SessionStatus
    var username: Option<string>

    /** Copies the props verbatim; a new session is IDLE with no username. */
    constructor (props: SessionProps)
      ensures id == props.id && socket == props.socket
      ensures connectedAt == props.connectedAt && disconnected == props.disconnected
      ensures status == Idle && username == None
    {
      id := props.id;
      socket := props.socket;
      connectedAt := props.connectedAt;
      disconnected := props.disconnected;
      status := Idle;
      username := None;
    }

    method SetStatus(status: SessionStatus)
      modifies this
      ensures this.status == status && username == old(username)
    {
      this.status := status;
    }

    method SetUsername(username: string)
      modifies this
      ensures this.username == Some(username) && status == old(status)
    {
      this.username := Some(username);
    }

    /** `getClientData()`: every data field of the session except `socket`. */
    function GetClientData(): (d: ClientData)
      reads this
      ensures d.id == id && d.disconnected == disconnected && d.connectedAt == connectedAt
      ensures d.status == status && d.username == username
    {
      ClientData(id, disconnected, connectedAt, status, username)
    }
  }

  /** Two sessions that differ only in their socket look the same to a client. */
  lemma SocketIsHidden(a: Session, b: Session)
    requires a.id == b.id && a.connectedAt == b.connectedAt && a.disconnected == b.disconnected
    requires a.status == b.status && a.username == b.username
    ensures a.GetClientData() == b.GetClientData()
  {
  }

  class Registry {
    var sessions: map<string, Session>

    /** Every session sits under its own id. */
    ghost predicate Valid()
      reads this
    {
      forall key :: key in sessions ==> sessions[key].id == key
    }

    constructor ()
      ensures Valid() && sessions == map[]
    {
      sessions := map[];
    }

    /** Opens a session for `data` under its id, replacing any session with that id. */
    method Add(data: SessionProps)
      requires Valid()
      modifies this
      ensures Valid()
      ensures data.id in sessions && fresh(sessions[data.id])
      ensures sessions == old(sessions)[data.id := sessions[data.id]]
      ensures sessions[data.id].status == Idle && sessions[data.id].socket == data.socket
      ensures sessions[data.id].connectedAt == data.connectedAt
      ensures sessions[data.id].disconnected == data.disconnected && sessions[data.id].username == None
    {
      var session := new Session(data);
      sessions := sessions[session.id := session];
    }

    /** `find(id)`: the session stored under `id`, whose own id is `id`. */
    function Find(id: string): (r: Option<Session>)
      reads this
      requires Valid()
      ensures r.Some? <==> id in sessions
      ensures r.Some? ==> r.value.id == id && r.value == sessions[id]
    {
      if id in sessions then Some(sessions[id]) else None
    }

    /** `findAll()`: the stored record itself. */
    function FindAll(): (r: map<string, Session>)
      reads this
      requires Valid()
      ensures forall key :: key in r ==> r[key].id == key
      ensures r.Keys == sessions.Keys
    {
      sessions
    }

    /** Deletes the session found under `id`; a missing id is a silent no-op. */
    method Remove(id: string)
      requires Valid()
      modifies this
      ensures Valid()
      ensures sessions == old(sessions) - {id}
      ensures id !in old(sessions) ==> sessions == old(sessions)
    {
      var session := Find(id);
      if session.None? { return; }
      sessions := sessions - {session.value.id};
    }

    method Reset()
      modifies this
      ensures Valid() && sessions == map[] && Count() == 0
    {
      sessions := map[];
    }

    /** `size()`: the number of sessions. */
    function Count(): (n: nat)
      reads this
      ensures n == |sessions|
      ensures n == 0 <==> sessions == map[]
    {
      |sessions.Keys|
    }

    /** `getClientData()`: the registry's keys, each mapped to that
        session's data without its socket. */
    method GetClientData() returns (data: map<string, ClientData>)
      requires Valid()
      ensures data.Keys == sessions.Keys
      ensures forall key :: key in data ==> data[key] == sessions[key].GetClientData() && data[key].id == key
    {
      data := map[];
      var pending := sessions.Keys;
      while pending != {}
        invariant pending <= sessions.Keys
        invariant data.Keys == sessions.Keys - pending
        invariant forall key :: key in data ==> data[key] == sessions[key].GetClientData()
        decreases pending
      {
        var key :| key in pending;
        data := data[key := sessions[key].GetClientData()];
        pending := pending - {key};
      }
    }
  }
}
