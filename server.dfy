/** The chat server (server.py): the HTTP handlers `register`, `login`,
    `create_channel` and `get_messages`, and the socket handlers for
    connecting, joining and leaving a channel's room, sending a message,
    typing and changing status. The database is a list of rows per table in
    insertion order, the socket rooms a map from room name to session ids,
    and every `emit` an entry of an append-only log that records the
    sessions it reached. */
module ChatServer {
  import opened Wrappers
  import opened Lists

  // ---------------------------------------------------------------
  // Rows (models.py)
  // ---------------------------------------------------------------

  datatype User = User(id: string, username: string, email: string, passwordHash: string,
                       avatar: string, color: string, status: string, tag: string)

  datatype Guild = Guild(id: string, name: string, ownerId: string)

  datatype Channel = Channel(id: string, name: string, serverId: string, kind: string, description: string)

  datatype Message = Message(id: string, content: string, authorId: string, channelId: string)

  const DefaultAvatar := "👤"
  const DefaultColor := "#94a3b8"
  const DefaultStatus := "offline"

  /** Python truthiness of an optional string: absent, `None` and `''` are
      false. */
  predicate Falsy(v: Option<string>) {
    v.None? || v.value == []
  }

  // ---------------------------------------------------------------
  // Queries
  // ---------------------------------------------------------------

  function UserId(id: string): User -> bool { (u: User) => u.id == id }
  function UserName(name: string): User -> bool { (u: User) => u.username == name }
  function UserEmail(email: string): User -> bool { (u: User) => u.email == email }
  function UserTag(tag: string): User -> bool { (u: User) => u.tag == tag }
  function GuildId(id: string): Guild -> bool { (g: Guild) => g.id == id }
  function ChannelId(id: string): Channel -> bool { (c: Channel) => c.id == id }
  function MessageId(id: string): Message -> bool { (m: Message) => m.id == id }
  function InChannel(id: string): Message -> bool { (m: Message) => m.channelId == id }

  function UserIds(users: seq<User>): set<string> {
    set u | u in users :: u.id
  }

  function ChannelIds(channels: seq<Channel>): set<string> {
    set c | c in channels :: c.id
  }

  function GuildIds(servers: seq<Guild>): set<string> {
    set g | g in servers :: g.id
  }

  /** A primary-key lookup (`Model.query.get`) finds a row exactly when one
      has that key. */
  lemma UserFound(users: seq<User>, id: string)
    ensures FirstIndex(users, UserId(id)).Some? <==> id in UserIds(users)
  {
    if id in UserIds(users) {
      var u :| u in users && u.id == id;
      var i :| 0 <= i < |users| && users[i] == u;
      assert UserId(id)(users[i]);
    }
  }

  lemma ChannelFound(channels: seq<Channel>, id: string)
    ensures FirstIndex(channels, ChannelId(id)).Some? <==> id in ChannelIds(channels)
  {
    if id in ChannelIds(channels) {
      var c :| c in channels && c.id == id;
      var i :| 0 <= i < |channels| && channels[i] == c;
      assert ChannelId(id)(channels[i]);
    }
  }

  /** The history `get_messages` returns: the channel's messages in the
      order they were committed. */
  function History(messages: seq<Message>, channelId: string): (r: seq<Message>)
    ensures forall m :: m in r <==> m in messages && m.channelId == channelId
  {
    Filter(messages, InChannel(channelId))
  }

  /** Committing a message adds it at the end of its own channel's history
      and leaves every other channel's history as it was. */
  lemma HistoryAppend(messages: seq<Message>, m: Message, channelId: string)
    ensures History(messages + [m], channelId)
      == History(messages, channelId) + (if m.channelId == channelId then [m] else [])
  {
    FilterConcat(messages, [m], InChannel(channelId));
    assert Filter([m], InChannel(channelId)) == (if m.channelId == channelId then [m] else []) + Filter([m][1..], InChannel(channelId));
    assert [m][1..] == [];
  }

  // ---------------------------------------------------------------
  // Rooms
  // ---------------------------------------------------------------

  /** The room of a channel, `f'channel_{channel_id}'`. */
  function ChannelRoom(channelId: string): string {
    "channel_" + channelId
  }

  /** Distinct channels have distinct rooms. */
  lemma ChannelRoomInjective(a: string, b: string)
    ensures ChannelRoom(a) == ChannelRoom(b) <==> a == b
  {
    if ChannelRoom(a) == ChannelRoom(b) {
      assert a == ChannelRoom(a)[8..];
      assert b == ChannelRoom(b)[8..];
    }
  }

  function Members(rooms: map<string, set<string>>, room: string): set<string> {
    if room in rooms then rooms[room] else {}
  }

  /** `join_room(room)` for session `sid`. */
  function Joined(rooms: map<string, set<string>>, room: string, sid: string): (r: map<string, set<string>>)
    ensures Members(r, room) == Members(rooms, room) + {sid}
    ensures forall o :: o != room ==> Members(r, o) == Members(rooms, o)
  {
    rooms[room := Members(rooms, room) + {sid}]
  }

  /** `leave_room(room)` for session `sid`. */
  function Left(rooms: map<string, set<string>>, room: string, sid: string): (r: map<string, set<string>>)
    ensures Members(r, room) == Members(rooms, room) - {sid}
    ensures forall o :: o != room ==> Members(r, o) == Members(rooms, o)
  {
    rooms[room := Members(rooms, room) - {sid}]
  }

  /** A disconnected session is taken out of every room. */
  function LeftAll(rooms: map<string, set<string>>, sid: string): (r: map<string, set<string>>)
    ensures forall o :: Members(r, o) == Members(rooms, o) - {sid}
  {
    map o | o in rooms :: rooms[o] - {sid}
  }

  /** A session's joins (`true`) and leaves (`false`) of one room, in turn. */
  function JoinsAndLeaves(rooms: map<string, set<string>>, room: string, sid: string, ops: seq<bool>): map<string, set<string>>
    decreases |ops|
  {
    if ops == [] then rooms
    else JoinsAndLeaves(if ops[0] then Joined(rooms, room, sid) else Left(rooms, room, sid), room, sid, ops[1..])
  }

  /** After any sequence of joins and leaves, the session is in the room
      exactly when the last of them was a join; the other sessions are where
      they were. */
  lemma {:induction false} LastOperationWins(rooms: map<string, set<string>>, room: string, sid: string, ops: seq<bool>)
    requires ops != []
    ensures sid in Members(JoinsAndLeaves(rooms, room, sid, ops), room) <==> ops[|ops| - 1]
    ensures Members(JoinsAndLeaves(rooms, room, sid, ops), room) - {sid} == Members(rooms, room) - {sid}
    decreases |ops|
  {
    var next := if ops[0] then Joined(rooms, room, sid) else Left(rooms, room, sid);
    assert Members(next, room) - {sid} == Members(rooms, room) - {sid};
    if |ops| > 1 {
      LastOperationWins(next, room, sid, ops[1..]);
      assert ops[1..][|ops[1..]| - 1] == ops[|ops| - 1];
    }
  }

  // ---------------------------------------------------------------
  // Events
  // ---------------------------------------------------------------

  /** Where an `emit` goes: a room, a room but the sender (`skip_sid`),
      every connected client (`broadcast=True`), or back to the sender. */
  datatype Target = ToRoom(room: string) | ToRoomExcept(room: string, skip: string) | ToAll | ToSession(sid: string)

  datatype Payload =
    | Notice(message: string)
    | NewMessage(msg: Message, author: User)
    | Typing(username: string)
    | StatusChanged(userId: string, status: string)

  /** An emitted event and the sessions it reached at that moment. */
  datatype Event = Event(name: string, payload: Payload, target: Target, delivered: set<string>)

  /** The sessions a target reaches. */
  function Recipients(rooms: map<string, set<string>>, connected: set<string>, t: Target): set<string> {
    match t
    case ToRoom(r) => Members(rooms, r)
    case ToRoomExcept(r, s) => Members(rooms, r) - {s}
    case ToAll => connected
    case ToSession(s) => {s}
  }

  /** An HTTP response: a JSON value with a success code, or an error. */
  datatype Reply<T> = Done(code: int, value: T) | Refused(code: int, error: string)

  /** The body the application's 500 error handler (`internal_error`)
      sends for an exception a handler does not catch, such as a unique or
      primary key violated on commit. It is sent when `DEBUG` is false; in
      debug mode Flask re-raises instead and the body is the debugger's
      page. */
  const ServerError := "Erreur serveur"

  /** The JSON body of `register`. */
  datatype Registration = Registration(username: Option<string>, email: Option<string>,
                                       password: Option<string>, avatar: Option<string>)

  /** The JSON body of `create_channel`. */
  datatype ChannelForm = ChannelForm(name: Option<string>, kind: Option<string>, description: Option<string>)

  /** The message `on_send_message` commits and the author it sends with
      it: none when a field is falsy, the author or channel is not in the
      store, or the new id is taken (the commit fails). */
  function Posted(users: seq<User>, channels: seq<Channel>, messages: seq<Message>,
                  channelId: Option<string>, content: Option<string>, userId: Option<string>,
                  newId: string): (r: Option<(Message, User)>)
    ensures r.Some? <==> (!Falsy(userId) && !Falsy(content) && !Falsy(channelId)
      && userId.value in UserIds(users) && channelId.value in ChannelIds(channels)
      && FirstIndex(messages, MessageId(newId)).None?)
    ensures r.Some? ==> (r.value.0 == Message(newId, content.value, userId.value, channelId.value)
      && r.value.1 in users && r.value.1.id == userId.value)
  {
    if Falsy(userId) || Falsy(content) || Falsy(channelId) then None
    else
      UserFound(users, userId.value);
      ChannelFound(channels, channelId.value);
      match (FirstIndex(users, UserId(userId.value)), FirstIndex(channels, ChannelId(channelId.value)))
      case (Some(u), Some(_)) =>
        if FirstIndex(messages, MessageId(newId)).Some? then None
        else Some((Message(newId, content.value, userId.value, channelId.value), users[u]))
      case _ => None
  }

  /** Unique `id`, `username`, `email` and `tag` (models.py:21-29). */
  predicate UsersOk(users: seq<User>) {
    forall i, j :: 0 <= i < j < |users| ==>
      users[i].id != users[j].id && users[i].username != users[j].username
      && users[i].email != users[j].email && users[i].tag != users[j].tag
  }

  predicate ServersOk(servers: seq<Guild>, users: seq<User>) {
    && (forall i, j :: 0 <= i < j < |servers| ==> servers[i].id != servers[j].id)
    && (forall i :: 0 <= i < |servers| ==> servers[i].ownerId in UserIds(users))
  }

  predicate ChannelsOk(channels: seq<Channel>, servers: seq<Guild>) {
    && (forall i, j :: 0 <= i < j < |channels| ==> channels[i].id != channels[j].id)
    && (forall i :: 0 <= i < |channels| ==> channels[i].serverId in GuildIds(servers))
  }

  predicate MessagesOk(messages: seq<Message>, users: seq<User>, channels: seq<Channel>) {
    && (forall i, j :: 0 <= i < j < |messages| ==> messages[i].id != messages[j].id)
    && (forall i :: 0 <= i < |messages| ==>
          messages[i].authorId in UserIds(users) && messages[i].channelId in ChannelIds(channels))
  }

  predicate RoomsOk(rooms: map<string, set<string>>, connected: set<string>) {
    forall r :: r in rooms ==> rooms[r] <= connected
  }

  class Backend {
    var users: seq<User>
    var servers: seq<Guild>
    var channels: seq<Channel>
    /** Commit order, which is `created_at` order. */
    var messages: seq<Message>
    var rooms: map<string, set<string>>
    var connected: set<string>
    var events: seq<Event>

    /** The database constraints (primary keys, unique columns, foreign
        keys) and rooms that hold only connected sessions. */
    predicate Valid()
      reads this
    {
      && UsersOk(users)
      && ServersOk(servers, users)
      && ChannelsOk(channels, servers)
      && MessagesOk(messages, users, channels)
      && RoomsOk(rooms, connected)
    }

    /** A server started over the rows `likoo.db` already holds (an empty
        file included: `db.create_all()` only adds missing tables), with no
        client connected yet. */
    constructor (users: seq<User>, servers: seq<Guild>, channels: seq<Channel>, messages: seq<Message>)
      requires UsersOk(users) && ServersOk(servers, users)
      requires ChannelsOk(channels, servers) && MessagesOk(messages, users, channels)
      ensures Valid()
      ensures this.users == users && this.servers == servers
      ensures this.channels == channels && this.messages == messages
      ensures rooms == map[] && connected == {} && events == []
    {
      this.users := users;
      this.servers := servers;
      this.channels := channels;
      this.messages := messages;
      rooms := map[];
      connected := {};
      events := [];
    }

    /** An `emit` of this handler: logged with the sessions it reaches. */
    method Emit(name: string, payload: Payload, target: Target)
      modifies `events
      ensures events == old(events) + [Event(name, payload, target, Recipients(rooms, connected, target))]
    {
      events := events + [Event(name, payload, target, Recipients(rooms, connected, target))];
    }

    // ---- HTTP --------------------------------------------------------

    /** `register()` with the request body, the new row's id, the tag
        `generate_tag` drew and the hash of the password: the checks in
        order are missing fields (400), a taken username (409), a taken
        email (409), then a key the commit rejects (500). */
    method Register(form: Registration, newId: string, tag: string, hash: string) returns (r: Reply<User>)
      requires Valid()
      modifies `users
      ensures Valid()
      ensures var missing := Falsy(form.username) || Falsy(form.email) || Falsy(form.password);
        && (missing ==> r == Refused(400, "Champs manquants"))
        && (!missing && FirstIndex(old(users), UserName(form.username.value)).Some? ==>
              r == Refused(409, "Pseudo déjà utilisé"))
        && (!missing && FirstIndex(old(users), UserName(form.username.value)).None?
              && FirstIndex(old(users), UserEmail(form.email.value)).Some? ==>
              r == Refused(409, "Email déjà utilisé"))
        && (!missing && FirstIndex(old(users), UserName(form.username.value)).None?
              && FirstIndex(old(users), UserEmail(form.email.value)).None?
              && (FirstIndex(old(users), UserId(newId)).Some? || FirstIndex(old(users), UserTag(tag)).Some?) ==>
              r == Refused(500, ServerError))
        && (!missing && FirstIndex(old(users), UserName(form.username.value)).None?
              && FirstIndex(old(users), UserEmail(form.email.value)).None?
              && FirstIndex(old(users), UserId(newId)).None? && FirstIndex(old(users), UserTag(tag)).None? ==>
              r.Done?)
      ensures r.Refused? ==> users == old(users)
      ensures r.Done? ==> (r.code == 201
        && r.value == User(newId, form.username.value, form.email.value, hash,
                           form.avatar.GetOr(DefaultAvatar), DefaultColor, DefaultStatus, tag)
        && users == old(users) + [r.value])
    {
      if Falsy(form.username) || Falsy(form.email) || Falsy(form.password) {
        return Refused(400, "Champs manquants");
      }
      if FirstIndex(users, UserName(form.username.value)).Some? {
        return Refused(409, "Pseudo déjà utilisé");
      }
      if FirstIndex(users, UserEmail(form.email.value)).Some? {
        return Refused(409, "Email déjà utilisé");
      }
      if FirstIndex(users, UserId(newId)).Some? || FirstIndex(users, UserTag(tag)).Some? {
        return Refused(500, ServerError);
      }
      var u := User(newId, form.username.value, form.email.value, hash,
                    form.avatar.GetOr(DefaultAvatar), DefaultColor, DefaultStatus, tag);
      UserStored(users, servers, messages, channels, u);
      users := users + [u];
      return Done(201, u);
    }

    /** `login()` with the request body and the password check: missing
        fields (400), then an unknown user or a wrong password (401);
        otherwise the user is `online` and returned. */
    method Login(username: Option<string>, password: Option<string>, check: (string, string) -> bool) returns (r: Reply<User>)
      requires Valid()
      modifies `users
      ensures Valid()
      ensures Falsy(username) || Falsy(password) ==> r == Refused(400, "Pseudo et mot de passe requis")
      ensures !Falsy(username) && !Falsy(password) ==> match FirstIndex(old(users), UserName(username.value))
        case None => r == Refused(401, "Identifiants incorrects")
        case Some(i) =>
          if !check(old(users)[i].passwordHash, password.value) then r == Refused(401, "Identifiants incorrects")
          else r == Done(200, old(users)[i].(status := "online")) && users == old(users)[i := r.value]
      ensures r.Refused? ==> users == old(users)
    {
      if Falsy(username) || Falsy(password) {
        return Refused(400, "Pseudo et mot de passe requis");
      }
      var i := FirstIndex(users, UserName(username.value));
      if i.None? || !check(users[i.value].passwordHash, password.value) {
        return Refused(401, "Identifiants incorrects");
      }
      var u := users[i.value].(status := "online");
      StatusStored(users, servers, messages, channels, i.value, "online");
      users := users[i.value := u];
      return Done(200, u);
    }

    /** `create_channel(server_id)` by the authenticated `caller`: an
        unknown server (404) is reported before a caller who does not own
        it (403); otherwise a channel with the body's fields, or their
        defaults, is added. */
    method CreateChannel(caller: string, serverId: string, form: ChannelForm, newId: string) returns (r: Reply<Channel>)
      requires Valid()
      modifies `channels
      ensures Valid()
      ensures match FirstIndex(old(servers), GuildId(serverId))
        case None => r == Refused(404, "Serveur non trouvé")
        case Some(s) =>
          if old(servers)[s].ownerId != caller then r == Refused(403, "Non autorisé")
          else if FirstIndex(old(channels), ChannelId(newId)).Some? then r == Refused(500, ServerError)
          else r == Done(201, Channel(newId, form.name.GetOr("nouveau-canal"), serverId,
                                      form.kind.GetOr("text"), form.description.GetOr("")))
      ensures r.Refused? ==> channels == old(channels)
      ensures r.Done? ==> channels == old(channels) + [r.value]
    {
      var s := FirstIndex(servers, GuildId(serverId));
      if s.None? {
        return Refused(404, "Serveur non trouvé");
      }
      if servers[s.value].ownerId != caller {
        return Refused(403, "Non autorisé");
      }
      if FirstIndex(channels, ChannelId(newId)).Some? {
        return Refused(500, ServerError);
      }
      var c := Channel(newId, form.name.GetOr("nouveau-canal"), serverId, form.kind.GetOr("text"), form.description.GetOr(""));
      assert servers[s.value].id == serverId;
      ChannelStored(channels, servers, messages, users, c);
      channels := channels + [c];
      return Done(201, c);
    }

    /** `get_messages(channel_id)`: 404 for an unknown channel, otherwise
        its history. */
    function GetMessages(channelId: string): (r: Reply<seq<Message>>)
      reads this
      ensures r.Refused? <==> channelId !in ChannelIds(channels)
      ensures r.Refused? ==> r == Refused(404, "Canal non trouvé")
      ensures r.Done? ==> r.code == 200 && r.value == History(messages, channelId)
    {
      ChannelFound(channels, channelId);
      if FirstIndex(channels, ChannelId(channelId)).None? then Refused(404, "Canal non trouvé")
      else Done(200, History(messages, channelId))
    }

    // ---- sockets -----------------------------------------------------

    /** `handle_connect`: the session is connected and greeted. */
    method Connect(sid: string)
      requires Valid()
      modifies this
      ensures Valid()
      ensures connected == old(connected) + {sid}
      ensures events == old(events) + [Event("connect_response", Notice("Connecté au serveur"), ToSession(sid), {sid})]
      ensures users == old(users) && servers == old(servers) && channels == old(channels)
      ensures messages == old(messages) && rooms == old(rooms)
    {
      connected := connected + {sid};
      Emit("connect_response", Notice("Connecté au serveur"), ToSession(sid));
    }

    /** `handle_disconnect`: the session leaves every room; nothing is
        emitted. */
    method Disconnect(sid: string)
      requires Valid()
      modifies this
      ensures Valid()
      ensures connected == old(connected) - {sid} && rooms == LeftAll(old(rooms), sid)
      ensures forall r :: sid !in Members(rooms, r)
      ensures events == old(events)
      ensures users == old(users) && servers == old(servers) && channels == old(channels) && messages == old(messages)
    {
      connected := connected - {sid};
      rooms := LeftAll(rooms, sid);
    }

    /** `on_join_channel` from session `sid` (a missing `channel_id` raises
        before anything happens): the session joins the room, then the room,
        the joiner included, hears of it. */
    method JoinChannel(sid: string, channelId: Option<string>)
      requires Valid() && sid in connected
      modifies this
      ensures Valid()
      ensures channelId.None? ==> rooms == old(rooms) && events == old(events)
      ensures channelId.Some? ==> var room := ChannelRoom(channelId.value);
        && rooms == Joined(old(rooms), room, sid)
        && events == old(events) + [Event("status", Notice("Utilisateur connecté au canal"), ToRoom(room), Members(rooms, room))]
        && sid in events[|events| - 1].delivered
      ensures users == old(users) && servers == old(servers) && channels == old(channels)
      ensures messages == old(messages) && connected == old(connected)
    {
      if channelId.None? {
        return;
      }
      var room := ChannelRoom(channelId.value);
      rooms := Joined(rooms, room, sid);
      Emit("status", Notice("Utilisateur connecté au canal"), ToRoom(room));
    }

    /** `on_leave_channel`: the session leaves the room, then the rest of
        the room hears of it; the leaver does not. */
    method LeaveChannel(sid: string, channelId: Option<string>)
      requires Valid() && sid in connected
      modifies this
      ensures Valid()
      ensures channelId.None? ==> rooms == old(rooms) && events == old(events)
      ensures channelId.Some? ==> var room := ChannelRoom(channelId.value);
        && rooms == Left(old(rooms), room, sid)
        && events == old(events) + [Event("status", Notice("Utilisateur a quitté le canal"), ToRoom(room), Members(rooms, room))]
        && sid !in events[|events| - 1].delivered
      ensures users == old(users) && servers == old(servers) && channels == old(channels)
      ensures messages == old(messages) && connected == old(connected)
    {
      if channelId.None? {
        return;
      }
      var room := ChannelRoom(channelId.value);
      rooms := Left(rooms, room, sid);
      Emit("status", Notice("Utilisateur a quitté le canal"), ToRoom(room));
    }

    /** `on_send_message`: when every field is present and truthy and the
        author and channel exist, the message is committed and then, once,
        sent to the channel's room, the sender included if it joined;
        otherwise nothing is stored and nothing is emitted. */
    method SendMessage(sid: string, channelId: Option<string>, content: Option<string>, userId: Option<string>, newId: string)
      requires Valid() && sid in connected
      modifies this
      ensures Valid()
      ensures var p := Posted(old(users), old(channels), old(messages), channelId, content, userId, newId);
        && (p.None? ==> messages == old(messages) && events == old(events))
        && (p.Some? ==> var room := ChannelRoom(channelId.value);
              && messages == old(messages) + [p.value.0]
              && events == old(events) + [Event("new_message", NewMessage(p.value.0, p.value.1), ToRoom(room), Members(rooms, room))]
              && (sid in Members(rooms, room) ==> sid in events[|events| - 1].delivered)
              && History(messages, channelId.value) == History(old(messages), channelId.value) + [p.value.0])
      ensures users == old(users) && servers == old(servers) && channels == old(channels)
      ensures rooms == old(rooms) && connected == old(connected)
    {
      if channelId.None? || content.None? {
        return;
      }
      if Falsy(userId) || Falsy(content) || Falsy(channelId) {
        return;
      }
      var u := FirstIndex(users, UserId(userId.value));
      var c := FirstIndex(channels, ChannelId(channelId.value));
      UserFound(users, userId.value);
      ChannelFound(channels, channelId.value);
      if u.None? || c.None? {
        return;
      }
      if FirstIndex(messages, MessageId(newId)).Some? {
        return;
      }
      var m := Message(newId, content.value, userId.value, channelId.value);
      assert Posted(users, channels, messages, channelId, content, userId, newId) == Some((m, users[u.value]));
      Commit(m, users[u.value]);
    }

    /** Persist, then emit: the message is committed and then broadcast to
        its channel's room. */
    method Commit(m: Message, author: User)
      requires Valid()
      requires forall i :: 0 <= i < |messages| ==> messages[i].id != m.id
      requires m.authorId in UserIds(users) && m.channelId in ChannelIds(channels)
      modifies `messages, `events
      ensures Valid()
      ensures messages == old(messages) + [m]
      ensures events == old(events) + [Event("new_message", NewMessage(m, author), ToRoom(ChannelRoom(m.channelId)), Members(rooms, ChannelRoom(m.channelId)))]
      ensures History(messages, m.channelId) == History(old(messages), m.channelId) + [m]
    {
      MessageStored(messages, users, channels, m);
      HistoryAppend(messages, m, m.channelId);
      messages := messages + [m];
      Emit("new_message", NewMessage(m, author), ToRoom(ChannelRoom(m.channelId)));
    }

    /** `on_typing`: everyone else in the channel's room is told who is
        typing, `Anonyme` when no username is given. */
    method Typing(sid: string, channelId: Option<string>, username: Option<string>)
      requires Valid() && sid in connected
      modifies this
      ensures Valid()
      ensures channelId.None? ==> events == old(events)
      ensures channelId.Some? ==> var room := ChannelRoom(channelId.value);
        && events == old(events) + [Event("user_typing", Payload.Typing(username.GetOr("Anonyme")),
                                          ToRoomExcept(room, sid), Members(rooms, room) - {sid})]
        && sid !in events[|events| - 1].delivered
      ensures users == old(users) && servers == old(servers) && channels == old(channels) && messages == old(messages)
      ensures rooms == old(rooms) && connected == old(connected)
    {
      if channelId.None? {
        return;
      }
      Emit("user_typing", Payload.Typing(username.GetOr("Anonyme")), ToRoomExcept(ChannelRoom(channelId.value), sid));
    }

    /** `on_status_change`: a known user takes the given status, whatever it
        is, and every connected client is told; an unknown user changes
        nothing and nobody is told. */
    method StatusChange(sid: string, userId: Option<string>, status: Option<string>)
      requires Valid() && sid in connected
      modifies this
      ensures Valid()
      ensures userId.None? || status.None? ==> users == old(users) && events == old(events)
      ensures userId.Some? && status.Some? ==> match FirstIndex(old(users), UserId(userId.value))
        case None => users == old(users) && events == old(events)
        case Some(i) =>
          && users == old(users)[i := old(users)[i].(status := status.value)]
          && events == old(events) + [Event("user_status_changed", StatusChanged(userId.value, status.value), ToAll, connected)]
      ensures servers == old(servers) && channels == old(channels) && messages == old(messages)
      ensures rooms == old(rooms) && connected == old(connected)
    {
      if userId.None? || status.None? {
        return;
      }
      var i := FirstIndex(users, UserId(userId.value));
      if i.None? {
        return;
      }
      var u := users[i.value].(status := status.value);
      StatusStored(users, servers, messages, channels, i.value, status.value);
      users := users[i.value := u];
      Emit("user_status_changed", StatusChanged(userId.value, status.value), ToAll);
    }
  }

  /** A message whose key is new and whose author and channel exist can be
      committed without breaking a constraint. */
  lemma MessageStored(messages: seq<Message>, users: seq<User>, channels: seq<Channel>, m: Message)
    requires MessagesOk(messages, users, channels)
    requires forall i :: 0 <= i < |messages| ==> messages[i].id != m.id
    requires m.authorId in UserIds(users) && m.channelId in ChannelIds(channels)
    ensures MessagesOk(messages + [m], users, channels)
  {
  }

  /** So can a channel with a new key in an existing server. */
  lemma ChannelStored(channels: seq<Channel>, servers: seq<Guild>, messages: seq<Message>, users: seq<User>, c: Channel)
    requires ChannelsOk(channels, servers) && MessagesOk(messages, users, channels)
    requires forall i :: 0 <= i < |channels| ==> channels[i].id != c.id
    requires c.serverId in GuildIds(servers)
    ensures ChannelsOk(channels + [c], servers) && MessagesOk(messages, users, channels + [c])
  {
    ChannelIdsAppend(channels, c);
  }

  /** A user with a new key, name, email and tag can be added, and a user's
      status changed, without breaking a constraint. */
  lemma UserStored(users: seq<User>, servers: seq<Guild>, messages: seq<Message>, channels: seq<Channel>, u: User)
    requires UsersOk(users) && ServersOk(servers, users) && MessagesOk(messages, users, channels)
    requires forall i :: 0 <= i < |users| ==>
      users[i].id != u.id && users[i].username != u.username && users[i].email != u.email && users[i].tag != u.tag
    ensures UsersOk(users + [u]) && ServersOk(servers, users + [u]) && MessagesOk(messages, users + [u], channels)
  {
    UserIdsAppend(users, u);
  }

  lemma StatusStored(users: seq<User>, servers: seq<Guild>, messages: seq<Message>, channels: seq<Channel>, i: nat, status: string)
    requires UsersOk(users) && ServersOk(servers, users) && MessagesOk(messages, users, channels) && i < |users|
    ensures var u := users[i].(status := status);
      UsersOk(users[i := u]) && ServersOk(servers, users[i := u]) && MessagesOk(messages, users[i := u], channels)
  {
    UserIdsUpdate(users, i, users[i].(status := status));
  }

  lemma UserIdsAppend(users: seq<User>, u: User)
    ensures UserIds(users + [u]) == UserIds(users) + {u.id}
  {
    assert forall x :: x in users + [u] <==> x in users || x == u;
  }

  lemma UserIdsUpdate(users: seq<User>, i: nat, u: User)
    requires i < |users| && u.id == users[i].id
    ensures UserIds(users[i := u]) == UserIds(users)
  {
    forall x | x in UserIds(users) ensures x in UserIds(users[i := u]) {
      var v :| v in users && v.id == x;
      var k :| 0 <= k < |users| && users[k] == v;
      if k == i { assert users[i := u][i] == u; } else { assert users[i := u][k] == v; }
    }
  }

  lemma ChannelIdsAppend(channels: seq<Channel>, c: Channel)
    ensures ChannelIds(channels + [c]) == ChannelIds(channels) + {c.id}
  {
    assert forall x :: x in channels + [c] <==> x in channels || x == c;
  }
}
