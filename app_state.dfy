/** The chat client's global state `APP` (app.js:9-21) and the functions
    that update it: the per-conversation message store (`pushMsg`,
    `sendMessage`, `editMsg`, `delMsg`, `toggleReact`), the navigation
    between home, servers, channels and direct messages, the voice channel
    and the creation of a channel. Rendering is left out: every operation
    below is the state change that precedes its `render*` calls. */
module AppState {
  import opened Wrappers
  import opened Text
  import opened AppText
  import opened Lists
  import opened AppData

  datatype View = Home | Server | Dm | ServersList

  // ---------------------------------------------------------------
  // The message store as a value
  // ---------------------------------------------------------------

  /** `APP.messages[key] || []`. */
  function Conversation(msgs: map<string, seq<Msg>>, key: string): seq<Msg> {
    if key in msgs then msgs[key] else []
  }

  /** The store after `pushMsg(key, m)`: the conversation is created when
      absent and `m` goes at its end. */
  function Pushed(msgs: map<string, seq<Msg>>, key: string, m: Msg): (r: map<string, seq<Msg>>)
    ensures r.Keys == msgs.Keys + {key}
    ensures |r[key]| == |Conversation(msgs, key)| + 1
    ensures r[key][..|r[key]| - 1] == Conversation(msgs, key) && r[key][|r[key]| - 1] == m
    ensures forall k :: k in msgs && k != key ==> r[k] == msgs[k]
  {
    msgs[key := Conversation(msgs, key) + [m]]
  }

  /** Every message of every conversation has well-formed reactions: what
      the demo data, `pushMsg` and `toggleReact` all keep. */
  predicate ReactionsOk(msgs: map<string, seq<Msg>>) {
    forall k, m :: k in msgs && m in msgs[k] ==> WellFormed(m.reactions)
  }

  /** Replacing one stored message by one with well-formed reactions keeps
      the store well formed. */
  lemma ReplacedReactionsOk(msgs: map<string, seq<Msg>>, key: string, i: nat, n: Msg)
    requires ReactionsOk(msgs) && key in msgs && i < |msgs[key]| && WellFormed(n.reactions)
    ensures ReactionsOk(msgs[key := msgs[key][i := n]])
  {
    var after := msgs[key := msgs[key][i := n]];
    forall k: string, m: Msg | k in after && m in after[k] ensures WellFormed(m.reactions) {
      if k == key {
        var j :| 0 <= j < |after[k]| && after[k][j] == m;
        if j != i {
          assert m == msgs[key][j];
        }
      }
    }
  }

  /** Deleting a freshly pushed message gives back the conversation as it
      was, created empty if it was absent. */
  lemma PushThenDelete(msgs: map<string, seq<Msg>>, key: string, m: Msg)
    requires forall i :: 0 <= i < |Conversation(msgs, key)| ==> Conversation(msgs, key)[i].id != m.id
    ensures Filter(Pushed(msgs, key, m)[key], OtherId(m.id)) == Conversation(msgs, key)
  {
    var c := Conversation(msgs, key);
    assert Pushed(msgs, key, m)[key] == c + [m];
    FilterConcat(c, [m], OtherId(m.id));
    DeleteAbsent(c, m.id);
    assert Filter([m], OtherId(m.id)) == Filter([m][1..], OtherId(m.id));
    assert [m][1..] == [];
  }

  /** The suffix `editMsg` appends to an edited message. */
  const EditMark := " *(modifié)*"

  /** `prompt` answers that `editMsg` accepts: not cancelled (`null`) and
      not blank. */
  predicate Accepted(answer: Option<string>) {
    answer.Some? && Trim(answer.value) != []
  }

  // ---------------------------------------------------------------
  // Lookups of the navigation
  // ---------------------------------------------------------------

  function GuildId(id: string): Guild -> bool {
    (g: Guild) => g.id == id
  }

  function ChannelId(id: string): Channel -> bool {
    (c: Channel) => c.id == id
  }

  function NotVoice(): Channel -> bool {
    (c: Channel) => c.kind != "voice"
  }

  /** `APP.activeSrv?.channels.find(c => c.id === id)`, as an index into
      the active server's channels. */
  function ChannelAt(servers: seq<Guild>, srv: Option<nat>, id: string): (r: Option<nat>)
    ensures r.Some? ==> (srv.Some? && srv.value < |servers|
      && r.value < |servers[srv.value].channels| && servers[srv.value].channels[r.value].id == id
      && forall j :: 0 <= j < r.value ==> servers[srv.value].channels[j].id != id)
    ensures r.None? <==> (srv.None? || srv.value >= |servers|
      || forall j :: 0 <= j < |servers[srv.value].channels| ==> servers[srv.value].channels[j].id != id)
  {
    if srv.None? || srv.value >= |servers| then None
    else FirstIndex(servers[srv.value].channels, ChannelId(id))
  }

  /** `ch?.name || 'Vocal'`: the label `joinVoice` shows. */
  function VoiceLabel(servers: seq<Guild>, srv: Option<nat>, id: string): (r: string)
    ensures r != []
    ensures ChannelAt(servers, srv, id).None? ==> r == "Vocal"
    ensures ChannelAt(servers, srv, id).Some? ==>
      var name := servers[srv.value].channels[ChannelAt(servers, srv, id).value].name;
      (name != [] ==> r == name) && (name == [] ==> r == "Vocal")
  {
    match ChannelAt(servers, srv, id)
    case None => "Vocal"
    case Some(k) =>
      var name := servers[srv.value].channels[k].name;
      if name == [] then "Vocal" else name
  }

  /** The id of the first channel of the active server that is not a voice
      channel: the one `selectServer` opens. */
  function FirstText(servers: seq<Guild>, srv: Option<nat>): (r: Option<string>)
    ensures r.Some? ==> (srv.Some? && srv.value < |servers|
      && var chs := servers[srv.value].channels;
      exists j :: 0 <= j < |chs| && chs[j].id == r.value && chs[j].kind != "voice"
        && forall i :: 0 <= i < j ==> chs[i].kind == "voice")
    ensures r.None? <==> (srv.None? || srv.value >= |servers|
      || forall j :: 0 <= j < |servers[srv.value].channels| ==> servers[srv.value].channels[j].kind == "voice")
  {
    if srv.None? || srv.value >= |servers| then None
    else match FirstIndex(servers[srv.value].channels, NotVoice())
      case None => None
      case Some(j) => Some(servers[srv.value].channels[j].id)
  }

  /** The servers after channel `k` of server `s` has its `notif` set to 0. */
  function ResetNotif(servers: seq<Guild>, s: nat, k: nat): (r: seq<Guild>)
    requires s < |servers| && k < |servers[s].channels|
    ensures |r| == |servers| && |r[s].channels| == |servers[s].channels|
    ensures r[s].channels[k] == servers[s].channels[k].(notif := 0)
    ensures forall j :: 0 <= j < |r| && j != s ==> r[j] == servers[j]
    ensures forall j :: 0 <= j < |r[s].channels| && j != k ==> r[s].channels[j] == servers[s].channels[j]
    ensures r[s].(channels := servers[s].channels) == servers[s]
  {
    var g := servers[s];
    servers[s := g.(channels := g.channels[k := g.channels[k].(notif := 0)])]
  }

  /** Resetting the opened channel clears its share of the server's badge
      and leaves the other servers' badges as they were. */
  lemma ResetNotifBadge(servers: seq<Guild>, s: nat, k: nat)
    requires s < |servers| && k < |servers[s].channels|
    ensures NotifSum(ResetNotif(servers, s, k)[s].channels) == NotifSum(servers[s].channels) - servers[s].channels[k].notif
    ensures forall j :: 0 <= j < |servers| && j != s ==> ResetNotif(servers, s, k)[j] == servers[j]
  {
    var chs := servers[s].channels;
    assert ResetNotif(servers, s, k)[s].channels == chs[k := chs[k].(notif := 0)];
    NotifSumReset(chs, k);
  }

  // ---------------------------------------------------------------
  // The client
  // ---------------------------------------------------------------

  class App {
    /** The local account; `null` before `setupAccount` (only the fields a
        message copies are kept). */
    var me: Option<Author>
    var servers: seq<Guild>
    /** `APP.activeSrv`, a reference to one of `servers`: its index. */
    var activeSrv: Option<nat>
    var activeCh: Option<string>
    var dmChannel: Option<string>
    var view: View
    var messages: map<string, seq<Msg>>
    var inVoice: Option<string>

    /** The active server is one of the servers, and the reactions of the
        stored messages are well formed. */
    predicate Valid()
      reads this
    {
      && (activeSrv.Some? ==> activeSrv.value < |servers|)
      && ReactionsOk(messages)
    }

    /** The state `boot` leaves: the given servers and conversations, on
        the home view, nothing selected. */
    constructor (me: Option<Author>, servers: seq<Guild>, messages: map<string, seq<Msg>>)
      requires ReactionsOk(messages)
      ensures Valid()
      ensures this.me == me && this.servers == servers && this.messages == messages
      ensures view == Home && activeSrv == None && activeCh == None && dmChannel == None && inVoice == None
    {
      this.me := me;
      this.servers := servers;
      this.messages := messages;
      view := Home;
      activeSrv := None;
      activeCh := None;
      dmChannel := None;
      inVoice := None;
    }

    /** `activeKey()`: the conversation the input box writes to. */
    function ActiveKey(): (r: Option<string>)
      reads this
      ensures view == Dm ==> r == dmChannel
      ensures view != Dm ==> r == activeCh
    {
      if view == Dm then dmChannel else activeCh
    }

    // ---- messages -------------------------------------------------

    /** `pushMsg(key, {author, content})` with the clock's `id` and `time`. */
    method PushMsg(key: string, author: Author, content: string, id: int, time: string)
      requires Valid()
      modifies this
      ensures Valid()
      ensures messages == Pushed(old(messages), key, Msg(id, author, content, time, []))
      ensures me == old(me) && servers == old(servers) && activeSrv == old(activeSrv)
      ensures activeCh == old(activeCh) && dmChannel == old(dmChannel) && view == old(view) && inVoice == old(inVoice)
    {
      messages := Pushed(messages, key, Msg(id, author, content, time, []));
    }

    /** `sendMessage()` with the input box's value (`None` when the box is
        missing): a blank text, no active conversation or no account sends
        nothing; otherwise the trimmed text is pushed as the user's. */
    method SendMessage(input: Option<string>, id: int, time: string)
      requires Valid()
      modifies this
      ensures Valid()
      ensures var text, key := if input.Some? then Trim(input.value) else [], old(ActiveKey());
        if text == [] || key.None? || key.value == [] || old(me).None? then messages == old(messages)
        else messages == Pushed(old(messages), key.value, Msg(id, old(me).value, text, time, []))
      ensures me == old(me) && servers == old(servers) && activeSrv == old(activeSrv)
      ensures activeCh == old(activeCh) && dmChannel == old(dmChannel) && view == old(view) && inVoice == old(inVoice)
    {
      var text := if input.Some? then Trim(input.value) else [];
      var key := ActiveKey();
      if text == [] || key.None? || key.value == [] {
        return;
      }
      if me.None? {
        // `APP.me.name` throws before anything is pushed.
        return;
      }
      var author := Author(me.value.name, me.value.av, me.value.color);
      PushMsg(key.value, author, text, id, time);
    }

    /** `delMsg(key, id)`: the conversation keeps exactly the messages with
        another id, in order; an unknown conversation is left alone (the
        call throws). */
    method DelMsg(key: string, id: int)
      requires Valid()
      modifies this
      ensures Valid()
      ensures key !in old(messages) ==> messages == old(messages)
      ensures key in old(messages) ==> messages == old(messages)[key := Filter(old(messages)[key], OtherId(id))]
      ensures key in old(messages) ==> forall m :: m in messages[key] <==> m in old(messages)[key] && m.id != id
      ensures me == old(me) && servers == old(servers) && activeSrv == old(activeSrv)
      ensures activeCh == old(activeCh) && dmChannel == old(dmChannel) && view == old(view) && inVoice == old(inVoice)
    {
      if key in messages {
        messages := messages[key := Filter(messages[key], OtherId(id))];
      }
    }

    /** `editMsg(key, id)` with the `prompt` answer: the first message with
        that id gets the trimmed answer followed by the edit mark; no such
        message, a cancelled prompt or a blank answer change nothing. */
    method EditMsg(key: string, id: int, answer: Option<string>)
      requires Valid()
      modifies this
      ensures Valid()
      ensures var i := FirstIndex(Conversation(old(messages), key), HasId(id));
        if key !in old(messages) || i.None? || !Accepted(answer) then messages == old(messages)
        else messages == old(messages)[key := old(messages)[key][i.value := old(messages)[key][i.value].(content := Trim(answer.value) + EditMark)]]
      ensures me == old(me) && servers == old(servers) && activeSrv == old(activeSrv)
      ensures activeCh == old(activeCh) && dmChannel == old(dmChannel) && view == old(view) && inVoice == old(inVoice)
    {
      if key !in messages {
        return;
      }
      var ms := messages[key];
      var i := FirstIndex(ms, HasId(id));
      if i.None? || !Accepted(answer) {
        return;
      }
      var m := ms[i.value];
      messages := messages[key := ms[i.value := m.(content := Trim(answer.value) + EditMark)]];
    }

    /** `toggleReact(key, id, e)`: the first message with that id has its
        reactions toggled for `e`; no such message changes nothing. */
    method ToggleReact(key: string, id: int, e: string)
      requires Valid()
      modifies this
      ensures Valid()
      ensures var i := FirstIndex(Conversation(old(messages), key), HasId(id));
        if key !in old(messages) || i.None? then messages == old(messages)
        else messages == old(messages)[key := old(messages)[key][i.value := old(messages)[key][i.value].(reactions := Toggled(old(messages)[key][i.value].reactions, e))]]
      ensures me == old(me) && servers == old(servers) && activeSrv == old(activeSrv)
      ensures activeCh == old(activeCh) && dmChannel == old(dmChannel) && view == old(view) && inVoice == old(inVoice)
    {
      if key !in messages {
        return;
      }
      var ms := messages[key];
      var i := FirstIndex(ms, HasId(id));
      if i.None? {
        return;
      }
      var m := ms[i.value];
      assert m in messages[key];
      ToggleWellFormed(m.reactions, e);
      ReplacedReactionsOk(messages, key, i.value, m.(reactions := Toggled(m.reactions, e)));
      messages := messages[key := ms[i.value := m.(reactions := Toggled(m.reactions, e))]];
    }

    // ---- navigation -----------------------------------------------

    /** `showHome()`: the home view, with no server, channel or direct
        conversation selected; a voice channel stays joined. */
    method ShowHome()
      requires Valid()
      modifies this
      ensures Valid()
      ensures view == Home && activeSrv == None && activeCh == None && dmChannel == None
      ensures inVoice == old(inVoice) && messages == old(messages) && servers == old(servers) && me == old(me)
    {
      view := Home;
      activeSrv := None;
      activeCh := None;
      dmChannel := None;
    }

    /** `showDM()`: the direct-messages view; the open conversation, if any,
        stays open and becomes the active key. */
    method ShowDM()
      requires Valid()
      modifies this
      ensures Valid()
      ensures view == Dm && activeSrv == None && activeCh == None
      ensures ActiveKey() == old(dmChannel)
      ensures dmChannel == old(dmChannel) && inVoice == old(inVoice)
      ensures messages == old(messages) && servers == old(servers) && me == old(me)
    {
      view := Dm;
      activeSrv := None;
      activeCh := None;
    }

    /** `joinVoice(id)`: the channel becomes the active one and its name
        (or "Vocal") the voice label. */
    method JoinVoice(id: string)
      requires Valid()
      modifies this
      ensures Valid()
      ensures inVoice == Some(VoiceLabel(old(servers), old(activeSrv), id)) && activeCh == Some(id)
      ensures view == old(view) && activeSrv == old(activeSrv) && dmChannel == old(dmChannel)
      ensures messages == old(messages) && servers == old(servers) && me == old(me)
    {
      inVoice := Some(VoiceLabel(servers, activeSrv, id));
      activeCh := Some(id);
    }

    /** `leaveVoice()`. */
    method LeaveVoice()
      requires Valid()
      modifies this
      ensures Valid()
      ensures inVoice == None && activeCh == None
      ensures view == old(view) && activeSrv == old(activeSrv) && dmChannel == old(dmChannel)
      ensures messages == old(messages) && servers == old(servers) && me == old(me)
    {
      inVoice := None;
      activeCh := None;
    }

    /** `selectChannel(id)` within the active server: an unknown channel
        changes nothing; a voice channel is joined, its count untouched; a
        text channel becomes the active one and its unread count is reset. */
    method SelectChannel(id: string)
      requires Valid()
      modifies this
      ensures Valid()
      ensures var k := ChannelAt(old(servers), old(activeSrv), id);
        && (k.None? ==> activeCh == old(activeCh) && inVoice == old(inVoice) && servers == old(servers))
        && (k.Some? && old(servers)[old(activeSrv).value].channels[k.value].kind == "voice" ==>
              activeCh == Some(id) && inVoice == Some(VoiceLabel(old(servers), old(activeSrv), id)) && servers == old(servers))
        && (k.Some? && old(servers)[old(activeSrv).value].channels[k.value].kind != "voice" ==>
              activeCh == Some(id) && inVoice == old(inVoice) && servers == ResetNotif(old(servers), old(activeSrv).value, k.value))
      ensures view == old(view) && activeSrv == old(activeSrv) && dmChannel == old(dmChannel)
      ensures messages == old(messages) && me == old(me)
    {
      var k := ChannelAt(servers, activeSrv, id);
      if k.None? {
        return;
      }
      var s := activeSrv.value;
      if servers[s].channels[k.value].kind == "voice" {
        JoinVoice(id);
        return;
      }
      activeCh := Some(id);
      servers := ResetNotif(servers, s, k.value);
    }

    /** `selectServer(id)`: the server view of the first server with that id
        (none when unknown), leaving the direct conversation, and opening
        the server's first channel that is not a voice channel, if any. */
    method SelectServer(id: string)
      requires Valid()
      modifies this
      ensures Valid()
      ensures view == Server && dmChannel == None
      ensures activeSrv == FirstIndex(old(servers), GuildId(id))
      ensures var first := FirstText(old(servers), activeSrv);
        && (first.None? ==> activeCh == old(activeCh) && inVoice == old(inVoice) && servers == old(servers))
        && (first.Some? ==> activeCh == first)
        && (first.Some? ==> var k := ChannelAt(old(servers), activeSrv, first.value);
              && k.Some?
              && (old(servers)[activeSrv.value].channels[k.value].kind == "voice" ==>
                    inVoice == Some(VoiceLabel(old(servers), activeSrv, first.value)) && servers == old(servers))
              && (old(servers)[activeSrv.value].channels[k.value].kind != "voice" ==>
                    inVoice == old(inVoice) && servers == ResetNotif(old(servers), activeSrv.value, k.value)))
      ensures messages == old(messages) && me == old(me)
    {
      view := Server;
      activeSrv := FirstIndex(servers, GuildId(id));
      dmChannel := None;
      var first := FirstText(servers, activeSrv);
      if first.Some? {
        ChannelFound(servers, activeSrv, first.value);
        SelectChannel(first.value);
      }
    }

    /** `selectDM(id)`: the direct-messages view of conversation `id`,
        created empty when absent, which becomes the active key. */
    method SelectDM(id: string)
      requires Valid()
      modifies this
      ensures Valid()
      ensures dmChannel == Some(id) && view == Dm && ActiveKey() == Some(id)
      ensures messages == old(messages)[id := Conversation(old(messages), id)]
      ensures activeSrv == old(activeSrv) && activeCh == old(activeCh) && inVoice == old(inVoice)
      ensures servers == old(servers) && me == old(me)
    {
      dmChannel := Some(id);
      view := Dm;
      if id !in messages {
        messages := messages[id := []];
      }
    }

    /** `createChannel()` with the name box's value (`None` when the box is
        missing), the chosen type and the clock's stamp: with a server
        open, a channel named by the normalised name is appended to it. */
    method CreateChannel(raw: Option<string>, kind: string, stamp: string)
      requires Valid()
      modifies this
      ensures Valid()
      ensures old(activeSrv).None? ==> servers == old(servers)
      ensures old(activeSrv).Some? ==> var s, name := old(activeSrv).value, ChannelName(raw);
        servers == old(servers)[s := old(servers)[s].(channels := old(servers)[s].channels
          + [Channel(old(servers)[s].id + "_" + name + "_" + stamp, name, kind, "", 0)])]
      ensures view == old(view) && activeSrv == old(activeSrv) && activeCh == old(activeCh)
      ensures dmChannel == old(dmChannel) && inVoice == old(inVoice) && messages == old(messages) && me == old(me)
    {
      if activeSrv.None? {
        return;
      }
      var s := activeSrv.value;
      var g := servers[s];
      var name := ChannelName(raw);
      servers := servers[s := g.(channels := g.channels + [Channel(g.id + "_" + name + "_" + stamp, name, kind, "", 0)])];
    }
  }

  /** The first text channel is found again by its id. */
  lemma ChannelFound(servers: seq<Guild>, srv: Option<nat>, id: string)
    requires FirstText(servers, srv) == Some(id)
    ensures ChannelAt(servers, srv, id).Some?
  {
    var chs := servers[srv.value].channels;
    var j :| 0 <= j < |chs| && chs[j].id == id;
    assert ChannelId(id)(chs[j]);
  }
}
