/**
 Who may join which session, over all runs: a name stands for one session for good, different names for
 different sessions, and two clients are in the same session exactly when they have named the same.
 */
module Sessions {
  import opened Wire
  import opened Slots
  import opened ServerModel
  import opened Network
  import opened WellTyped
  import opened Typing
  import opened Preservation
  import opened Membership
  import opened Joining

  // ---------------------------------------------------------------- one introduction

  /** Whether an introduction asks for something that can be had: a new session under a new name, or an existing one. */
  predicate Admissible(sessions: map<string, SessionId>, p: Packet)
    requires p.ClientIntro?
  {
    (p.session == 1 && p.sessionName !in sessions) || (p.session == 0 && p.sessionName in sessions)
  }

  /** A client is admitted if and only if it is a newcomer and asks for something admissible; its session is the one it has named. */
  lemma IntroDecides(s: Server, order: seq<ClientId>, c: ClientId, p: Packet)
    requires c in s.conns && p.ClientIntro? && SessionsOk(s)
    ensures var r := PacketIntro(s, order, c, p);
            if Newcomer(s, c) && Admissible(s.sessions, p) then
              && LiveAs(r.server, c, p.clientName, p.sessionName)
              && (p.session == 1 ==> r.server.sessions == s.sessions[p.sessionName := s.nextSession])
              && (p.session == 0 ==> r.server.sessions == s.sessions)
              && ServerOk in For(r.sends, c)
            else r.server == s && r.sends == [Send(c, ServerDeny)]
  {
    var r := PacketIntro(s, order, c, p);
    if r.server != s || r.sends != [Send(c, ServerDeny)] {
      assert r.sends[0] == Send(c, ServerOk);
      assert For(r.sends, c)[0] == ServerOk;
    }
  }

  /** A COMPLETE client, its name, and the name of the session it is in. */
  predicate LiveAs(s: Server, c: ClientId, name: string, session: string) {
    && c in s.conns && s.conns[c].complete && s.conns[c].name == name
    && session in s.sessions && s.conns[c].session == s.sessions[session]
  }

  // ---------------------------------------------------------------- names and ids

  /** Names and ids of sessions belong together, one to one, and every client in a session is in one that has a name. */
  predicate Named(s: Server) {
    && (forall a, b | a in s.sessions && b in s.sessions && s.sessions[a] == s.sessions[b] :: a == b)
    && (forall a | a in s.sessions :: s.sessions[a] < s.nextSession)
    && (forall x | x in s.conns && s.conns[x].complete :: s.conns[x].session in s.sessions.Values)
  }

  /** Sessions are kept, and so are the memberships of whoever stays connected. */
  predicate Kept(s: Server, n: Server) {
    && (forall a | a in s.sessions :: a in n.sessions && n.sessions[a] == s.sessions[a])
    && (forall x | x in s.conns && s.conns[x].complete && x in n.conns :: n.conns[x] == s.conns[x])
  }

  lemma IntroNamed(s: Server, order: seq<ClientId>, c: ClientId, p: Packet)
    requires Named(s) && SessionsOk(s) && c in s.conns && p.ClientIntro?
    ensures var n := PacketIntro(s, order, c, p).server;
            Named(n) && Kept(s, n) && n.conns.Keys == s.conns.Keys
  {
    var n := PacketIntro(s, order, c, p).server;
    if n != s {
      assert p.sessionName in n.sessions && n.conns[c].session == n.sessions[p.sessionName];
      assert forall a | a in s.sessions :: a in n.sessions && s.sessions[a] == n.sessions[a];
      forall x | x in n.conns && n.conns[x].complete
        ensures n.conns[x].session in n.sessions.Values
      {
        if x != c { StillNamed(s.sessions, n.sessions, s.conns[x].session); }
      }
    }
  }

  lemma StillNamed(a: map<string, SessionId>, b: map<string, SessionId>, id: SessionId)
    requires id in a.Values && forall k | k in a :: k in b && b[k] == a[k]
    ensures id in b.Values
  {
    var k :| k in a && a[k] == id;
    assert b[k] == id;
  }

  lemma HandleKeepsSessions(s: Server, order: seq<ClientId>, c: ClientId, p: Packet)
    requires c in s.conns && !p.ClientIntro?
    ensures var n := Handle(s, order, c, p).server;
            n.conns == s.conns && n.sessions == s.sessions && n.nextSession == s.nextSession
  {
  }

  lemma SameNames(s: Server, n: Server)
    requires Named(s) && n.sessions == s.sessions && n.nextSession == s.nextSession
    requires forall x | x in n.conns && n.conns[x].complete :: x in s.conns && s.conns[x] == n.conns[x]
    requires forall x | x in s.conns && s.conns[x].complete && x in n.conns :: n.conns[x] == s.conns[x]
    ensures Named(n) && Kept(s, n)
  {
  }

  lemma NextNamed(s: System, a: Action)
    requires Typed(s) && Named(s.server) && Enabled(s, a)
    ensures Named(Next(s, a).server) && Kept(s.server, Next(s, a).server)
  {
    hide Typed, Named, Kept, Handle, CloseClient, Execute, Slots.Work, Receive, Readable, CanReceive, IsOrder, ProperList,
      ServeNext, Broadcast, TablesOk, SessionsOk, UpOk;
    match a
    case Connect(c) =>
      ConnectedPeer(s, c);
      SameNames(s.server, Next(s, a).server);
    case Serve(c, order) =>
      var p := s.peers[c].up[0];
      ServedFacts(s, c);
      ServedServer(s, c, order);
      if p.ClientIntro? {
        HandleIsIntro(s.server, order, c, p);
        IntroNamed(s.server, order, c, p);
      } else {
        HandleKeepsSessions(s.server, order, c, p);
        SameNames(s.server, Next(s, a).server);
      }
    case Close(c, order) =>
      TypedTables(s, c);
      CloseTables(s.server, s.origin, order, c);
      SameNames(s.server, Next(s, a).server);
    case _ => SameNames(s.server, Next(s, a).server);
  }

  lemma HandleIsIntro(s: Server, order: seq<ClientId>, c: ClientId, p: Packet)
    requires c in s.conns && p.ClientIntro?
    ensures Handle(s, order, c, p) == PacketIntro(s, order, c, p)
  {
  }

  lemma {:induction false} RunNamed(s: System, run: seq<Action>)
    requires Typed(s) && Named(s.server) && Possible(s, run)
    ensures Typed(After(s, run)) && Named(After(s, run).server)
    decreases |run|
  {
    hide Typed, Named, Enabled, Next;
    if run != [] {
      NextTyped(s, run[0]);
      NextNamed(s, run[0]);
      RunNamed(Next(s, run[0]), run[1..]);
    }
  }

  lemma ReachableNamed(s: System)
    requires Reachable(s)
    ensures Typed(s) && Named(s.server)
  {
    hide Typed, Possible, After;
    var run :| Possible(INITIAL, run) && After(INITIAL, run) == s;
    InitialTyped();
    RunNamed(INITIAL, run);
  }

  // ---------------------------------------------------------------- over all runs

  /** In every reachable state every client in a session is in exactly one that has a name, and no other name stands for it. */
  lemma SessionHasOneName(s: System, x: ClientId) returns (name: string)
    requires Reachable(s) && x in s.server.conns && s.server.conns[x].complete
    ensures name in s.server.sessions && s.server.sessions[name] == s.server.conns[x].session
    ensures forall other | other in s.server.sessions && s.server.sessions[other] == s.server.conns[x].session :: other == name
  {
    hide Reachable, Typed;
    ReachableNamed(s);
    name :| name in s.server.sessions && s.server.sessions[name] == s.server.conns[x].session;
  }

  /** A client that leaves does not come back: its id is not used again. */
  lemma {:induction false} StaysAway(s: System, run: seq<Action>, x: ClientId)
    requires Typed(s) && Possible(s, run) && x in s.peers && x in After(s, run).server.conns
    ensures x in s.server.conns
    decreases |run|
  {
    hide Typed, Enabled, Next;
    if run != [] {
      NextTyped(s, run[0]);
      SentIsQueued(s, run[0], x);
      StaysAway(Next(s, run[0]), run[1..], x);
      NotBack(s, run[0], x);
    }
  }

  lemma NotBack(s: System, a: Action, x: ClientId)
    requires Typed(s) && Enabled(s, a) && x in s.peers && x in Next(s, a).server.conns
    ensures x in s.server.conns
  {
    hide Typed, Handle, CloseClient, Execute, Slots.Work, Receive, Readable, CanReceive, IsOrder, ProperList, ServeNext,
      Broadcast, TablesOk;
    match a
    case Serve(c, order) =>
      ServedConns(s.server, order, c, s.peers[c].up[0]);
      ServedServer(s, c, order);
    case Close(c, order) =>
      TypedTables(s, c);
      CloseTables(s.server, s.origin, order, c);
    case _ =>
  }

  lemma {:induction false} RunKeeps(s: System, run: seq<Action>, x: ClientId)
    requires Typed(s) && Named(s.server) && Possible(s, run) && x in s.peers
    requires x in s.server.conns && s.server.conns[x].complete && x in After(s, run).server.conns
    ensures After(s, run).server.conns[x] == s.server.conns[x]
    ensures forall name | name in s.server.sessions ::
              name in After(s, run).server.sessions && After(s, run).server.sessions[name] == s.server.sessions[name]
    decreases |run|
  {
    hide Typed, Named, Enabled, Next;
    if run != [] {
      var n := Next(s, run[0]);
      NextTyped(s, run[0]);
      NextNamed(s, run[0]);
      SentIsQueued(s, run[0], x);
      StaysAway(n, run[1..], x);
      RunKeeps(n, run[1..], x);
    }
  }

  /**
   A client that has joined under one name, and another that is admitted later, after any run, under a second
   name: they are in the same session if and only if the names are the same.
   */
  lemma SameSessionSameName(s: System, run: seq<Action>, x: ClientId, name: string, y: ClientId, order: seq<ClientId>)
    requires Reachable(s) && x in s.peers && x in s.server.conns && s.server.conns[x].complete
    requires name in s.server.sessions && s.server.sessions[name] == s.server.conns[x].session
    requires Possible(s, run)
    requires var m := After(s, run);
             && x in m.server.conns && x != y && Enabled(m, Serve(y, order)) && m.peers[y].up[0].ClientIntro?
             && Newcomer(m.server, y) && Admissible(m.server.sessions, m.peers[y].up[0])
    ensures var m := After(s, run);
            var e := Next(m, Serve(y, order)).server;
            && x in e.conns && y in e.conns && e.conns[y].complete
            && (e.conns[y].session == e.conns[x].session <==> m.peers[y].up[0].sessionName == name)
  {
    hide Reachable, Possible, After, Typed, Handle, ServeNext, IsOrder, PacketIntro, TablesOk, SessionsOk;
    ReachableNamed(s);
    RunNamed(s, run);
    RunKeeps(s, run, x);
    var m := After(s, run);
    var p := m.peers[y].up[0];
    ServedFacts(m, y);
    ServedServer(m, y, order);
    HandleIsIntro(m.server, order, y, p);
    IntroDecides(m.server, order, y, p);
    IntroNamed(m.server, order, y, p);
  }
}
