/**
  Ports, listeners and sites: how a worker process registers its listeners (SOK.cpp,
  Core/utils/SocketUtils.hpp), and which server entry of the configuration a handler is given
  (Core/utils/SiteConfig.hpp).
*/
module Sites {
  import opened Prelude
  import opened Yaml
  import opened YamlReader
  import opened ConnectionDispatch
  import ConnectionSafety

  // ----- The registry of listeners -----

  class FdPortRegistry {
    var fdPort: map<Fd, Port>

    constructor ()
      ensures fdPort == map[]
    {
      fdPort := map[];
    }

    /** A descriptor already known keeps its port. */
    method AddFdPort(fd: Fd, port: Port) returns (added: bool)
      modifies this
      ensures added == (fd !in old(fdPort))
      ensures fdPort == if added then old(fdPort)[fd := port] else old(fdPort)
    {
      if fd in fdPort { return false; }
      fdPort := fdPort[fd := port];
      return true;
    }
  }

  /** One successful setup_server: the descriptor it returned for `port`, and whether adding it to
      epoll succeeded; if not, it is closed again. */
  datatype Listen = Listen(fd: Fd, port: Port, watched: bool)

  function Register(registry: map<Fd, Port>, fd: Fd, port: Port): map<Fd, Port> {
    if fd in registry then registry else registry[fd := port]
  }

  /** What the registry holds after the first listens, starting from nothing. */
  function RegisterAll(listens: seq<Listen>): map<Fd, Port>
    decreases |listens|
  {
    if listens == [] then map[]
    else
      var last := listens[|listens| - 1];
      Register(RegisterAll(listens[..|listens| - 1]), last.fd, last.port)
  }

  /** The descriptors handed to the event loop. */
  function Watched(listens: seq<Listen>): seq<Fd>
    decreases |listens|
  {
    if listens == [] then []
    else
      var last := listens[|listens| - 1];
      Watched(listens[..|listens| - 1]) + if last.watched then [last.fd] else []
  }

  /** The registration loop of processWorker. */
  method ProcessWorker(registry: FdPortRegistry, listens: seq<Listen>) returns (serverFds: seq<Fd>)
    requires registry.fdPort == map[]
    modifies registry
    ensures registry.fdPort == RegisterAll(listens)
    ensures serverFds == Watched(listens)
  {
    serverFds := [];
    for i := 0 to |listens|
      invariant registry.fdPort == RegisterAll(listens[..i]) && serverFds == Watched(listens[..i])
    {
      assert listens[..i + 1][..i] == listens[..i];
      var added := registry.AddFdPort(listens[i].fd, listens[i].port);
      if !listens[i].watched { continue; }
      serverFds := serverFds + [listens[i].fd];
    }
    assert listens[..|listens|] == listens;
  }

  /** An open descriptor is not returned again. */
  predicate Distinct(listens: seq<Listen>) {
    forall i, j :: 0 <= i < j < |listens| && listens[i].watched ==> listens[i].fd != listens[j].fd
  }

  /** The first listen that got this descriptor. */
  predicate FirstOn(listens: seq<Listen>, fd: Fd, i: int) {
    0 <= i < |listens| && listens[i].fd == fd && forall j :: 0 <= j < i ==> listens[j].fd != fd
  }

  /** The registry answers with the port of the first listen on a descriptor, closed or not, and with -1
      for a descriptor no listen has got. */
  lemma {:induction false} FirstPortWins(listens: seq<Listen>, fd: Fd)
    ensures fd in RegisterAll(listens) <==> exists i :: FirstOn(listens, fd, i)
    ensures forall i :: FirstOn(listens, fd, i) ==> GetPort(RegisterAll(listens), fd) == listens[i].port
    ensures (forall i :: 0 <= i < |listens| ==> listens[i].fd != fd) ==> GetPort(RegisterAll(listens), fd) == -1
    decreases |listens|
  {
    if listens != [] {
      var n := |listens| - 1;
      var before := listens[..n];
      FirstPortWins(before, fd);
      forall i | 0 <= i < n ensures FirstOn(before, fd, i) == FirstOn(listens, fd, i) {}
      if fd in RegisterAll(before) {
        var i :| FirstOn(before, fd, i);
        assert FirstOn(listens, fd, i);
      } else if listens[n].fd == fd {
        forall j | 0 <= j < n ensures listens[j].fd != fd {
          if listens[j].fd == fd { EarliestOn(before, fd, j); }
        }
        assert FirstOn(listens, fd, n);
      }
    }
  }

  lemma {:induction false} EarliestOn(listens: seq<Listen>, fd: Fd, j: nat)
    requires j < |listens| && listens[j].fd == fd
    ensures exists i :: FirstOn(listens, fd, i)
    decreases j
  {
    if k :| 0 <= k < j && listens[k].fd == fd {
      EarliestOn(listens, fd, k);
    } else {
      assert FirstOn(listens, fd, j);
    }
  }

  /** No watched listener was given the descriptor of an earlier one, which then could not be watched
      and was closed, for another port. */
  predicate NoneHandedDown(listens: seq<Listen>) {
    forall i, j :: 0 <= j < i < |listens| && listens[i].watched && FirstOn(listens, listens[i].fd, j) ==>
      listens[j].port == listens[i].port
  }

  lemma PortOfFirst(listens: seq<Listen>, i: nat) returns (j: nat)
    requires i < |listens|
    ensures j <= i && FirstOn(listens, listens[i].fd, j)
    ensures GetPort(RegisterAll(listens), listens[i].fd) == listens[j].port
  {
    FirstPortWins(listens, listens[i].fd);
    EarliestOn(listens, listens[i].fd, i);
    j :| 0 <= j <= i && FirstOn(listens, listens[i].fd, j);
  }

  /** The watched listeners have their own ports in the registry if and only if no descriptor has been
      handed down with the port of a listener that could not be watched. */
  lemma OwnPortsIff(listens: seq<Listen>)
    requires Distinct(listens)
    ensures (forall i :: 0 <= i < |listens| && listens[i].watched ==>
               GetPort(RegisterAll(listens), listens[i].fd) == listens[i].port) <==> NoneHandedDown(listens)
  {
    forall i | 0 <= i < |listens| && listens[i].watched
      ensures exists j :: 0 <= j <= i && FirstOn(listens, listens[i].fd, j) &&
                GetPort(RegisterAll(listens), listens[i].fd) == listens[j].port
    {
      var j := PortOfFirst(listens, i);
    }
  }

  /** Descriptor 5, closed because it could not be watched for port 80, serves port 443 as port 80. */
  lemma WrongPort()
    ensures var listens := [Listen(5, 80, false), Listen(5, 443, true)];
            Distinct(listens) && !NoneHandedDown(listens) && GetPort(RegisterAll(listens), 5) == 80
  {
    var listens := [Listen(5, 80, false), Listen(5, 443, true)];
    FirstPortWins(listens, 5);
    assert FirstOn(listens, 5, 0);
    assert listens[1].watched;
  }

  // ----- The site of a port -----

  datatype Site = Site(name: string, root: string, found: bool)

  const NO_SITE := Site("", "", false)

  function SiteOf(server: Obj): Access<Site> {
    match GetString(server, "name")
    case Err(e) => Err(e)
    case Ok(name) =>
      match GetString(server, "root")
      case Err(e) => Err(e)
      case Ok(root) => Ok(Site(name, root, true))
  }

  function SiteFor(servers: seq<Obj>, port: Port): Access<Site>
    decreases |servers|
  {
    if servers == [] then Ok(NO_SITE)
    else
      match GetInt(servers[0], "port")
      case Err(e) => Err(e)
      case Ok(p) => if port == p then SiteOf(servers[0]) else SiteFor(servers[1..], port)
  }

  function ConfiguredSite(config: Obj, port: Port): Access<Site> {
    match GetArray(config, "servers")
    case Err(e) => Err(e)
    case Ok(servers) => SiteFor(servers, port)
  }

  /** The SiteInfo constructor: a loop over the server entries. */
  method SiteInfo(config: Obj, port: Port) returns (site: Access<Site>)
    ensures site == ConfiguredSite(config, port)
  {
    var entries := GetArray(config, "servers");
    if entries.Err? { return Err(entries.error); }
    var servers := entries.value;
    var i := 0;
    while i < |servers|
      invariant i <= |servers| && SiteFor(servers, port) == SiteFor(servers[i..], port)
    {
      assert servers[i..][0] == servers[i] && servers[i..][1..] == servers[i + 1..];
      var p := GetInt(servers[i], "port");
      if p.Err? { return Err(p.error); }
      if port == p.value {
        var name := GetString(servers[i], "name");
        if name.Err? { return Err(name.error); }
        var root := GetString(servers[i], "root");
        if root.Err? { return Err(root.error); }
        return Ok(Site(name.value, root.value, true));
      }
      i := i + 1;
    }
    return Ok(NO_SITE);
  }

  // What an entry says, read from its map.

  predicate HasPort(server: Obj, port: Port) {
    "port" in server && server["port"].Number? && server["port"].number == port
  }

  predicate HasOtherPort(server: Obj, port: Port) {
    "port" in server && server["port"].Number? && server["port"].number != port
  }

  predicate HasText(server: Obj, key: string) {
    key in server && server[key].Str?
  }

  /** `text` is `s`, or is `s` in double quotes; one quote alone counts as a pair around nothing. */
  predicate Quotes(text: string, s: string) {
    if text != "" && text[0] == '"' && text[|text| - 1] == '"' then text == "\"" + s + "\"" || (text == "\"" && s == "")
    else text == s
  }

  /** The entry has this name and this root, quoted or not. */
  predicate Says(server: Obj, name: string, root: string) {
    HasText(server, "name") && Quotes(server["name"].str, name) && HasText(server, "root") &&
    Quotes(server["root"].str, root)
  }

  /** The first entry whose port is `port`, all entries before it having other ports. */
  predicate FirstServer(servers: seq<Obj>, port: Port, k: int) {
    0 <= k < |servers| && HasPort(servers[k], port) && forall j :: 0 <= j < k ==> HasOtherPort(servers[j], port)
  }

  lemma UnquotedIs(text: string, s: string)
    requires Quotes(text, s)
    ensures Unquote(text) == s
  {
    if text == "\"" + s + "\"" { assert text[1..|text| - 1] == s; }
  }

  lemma UnquotedFits(text: string)
    ensures Quotes(text, Unquote(text))
  {
  }

  /** A site is that of the first entry with the port, and nothing after that entry matters. */
  lemma {:induction false} SiteIsOfFirstServer(servers: seq<Obj>, port: Port, k: int)
    requires FirstServer(servers, port, k)
    ensures SiteFor(servers, port) == SiteOf(servers[k])
    decreases |servers|
  {
    if k > 0 {
      assert HasOtherPort(servers[0], port);
      SiteIsOfFirstServer(servers[1..], port, k - 1);
    }
  }

  /** A site is found with this name and root if and only if the first entry with the port says so: its own
      strings, without the quotes around them. There is none if and only if all entries have other ports. */
  lemma {:induction false} SiteFoundIff(servers: seq<Obj>, port: Port, name: string, root: string)
    ensures SiteFor(servers, port) == Ok(Site(name, root, true)) <==>
            exists k :: FirstServer(servers, port, k) && Says(servers[k], name, root)
    ensures SiteFor(servers, port) == Ok(NO_SITE) <==> forall j :: 0 <= j < |servers| ==> HasOtherPort(servers[j], port)
    decreases |servers|
  {
    if servers != [] {
      SiteFoundIff(servers[1..], port, name, root);
      if HasOtherPort(servers[0], port) {
        forall k | FirstServer(servers[1..], port, k) ensures FirstServer(servers, port, k + 1) {}
        forall k | FirstServer(servers, port, k) ensures k > 0 && FirstServer(servers[1..], port, k - 1) {}
        assert forall j :: 0 <= j < |servers| - 1 ==> servers[1..][j] == servers[j + 1];
      } else if HasPort(servers[0], port) {
        assert FirstServer(servers, port, 0);
        forall k | FirstServer(servers, port, k) ensures k == 0 {}
        OneSiteIff(servers[0], name, root);
      }
    }
  }

  lemma OneSiteIff(server: Obj, name: string, root: string)
    ensures SiteOf(server) == Ok(Site(name, root, true)) <==> Says(server, name, root)
  {
    if HasText(server, "name") && HasText(server, "root") {
      UnquotedFits(server["name"].str);
      UnquotedFits(server["root"].str);
      if Says(server, name, root) {
        UnquotedIs(server["name"].str, name);
        UnquotedIs(server["root"].str, root);
      }
    }
  }

  /** The entry has no value of the right type under `key`. */
  predicate Lacks(server: Obj, key: string, e: AccessError) {
    if key in server then e == TypeMismatch(key) && if key == "port" then !server[key].Number? else !server[key].Str?
    else e == KeyNotFound(key)
  }

  /** The first entry that settles the search is this one, and it fails it. */
  predicate FailsAt(servers: seq<Obj>, port: Port, k: int, e: AccessError) {
    0 <= k < |servers| && (forall j :: 0 <= j < k ==> HasOtherPort(servers[j], port)) &&
    (Lacks(servers[k], "port", e) ||
     (HasPort(servers[k], port) &&
      (Lacks(servers[k], "name", e) || (HasText(servers[k], "name") && Lacks(servers[k], "root", e)))))
  }

  /** The search fails if and only if it meets an entry without an integer port before it meets the port, or
      the entry it meets has no name, or no root; the error says which is missing or has another type. */
  lemma {:induction false} SiteErrorIff(servers: seq<Obj>, port: Port, e: AccessError)
    ensures SiteFor(servers, port) == Err(e) <==> exists k :: FailsAt(servers, port, k, e)
    decreases |servers|
  {
    if servers != [] {
      SiteErrorIff(servers[1..], port, e);
      if HasOtherPort(servers[0], port) {
        forall k | FailsAt(servers[1..], port, k, e) ensures FailsAt(servers, port, k + 1, e) {}
        forall k | FailsAt(servers, port, k, e) ensures k > 0 && FailsAt(servers[1..], port, k - 1, e) {}
      } else {
        forall k | FailsAt(servers, port, k, e) ensures k == 0 {}
        assert SiteFor(servers, port) == Err(e) <==> FailsAt(servers, port, 0, e);
      }
    }
  }

  // ----- From the configuration to the handler -----

  /** The ports the server is started for: those of its entries, in order. */
  predicate ListensOn(listens: seq<Listen>, servers: seq<Obj>) {
    |listens| == |servers| && forall i :: 0 <= i < |listens| ==> HasPort(servers[i], listens[i].port)
  }

  function WatchedFds(listens: seq<Listen>): set<Fd> {
    set fd | fd in Watched(listens)
  }

  lemma {:induction false} WatchedIs(listens: seq<Listen>, fd: Fd)
    ensures fd in Watched(listens) <==> exists i :: 0 <= i < |listens| && listens[i].watched && listens[i].fd == fd
    decreases |listens|
  {
    if listens != [] {
      var n := |listens| - 1;
      WatchedIs(listens[..n], fd);
      if i :| 0 <= i < |listens| && listens[i].watched && listens[i].fd == fd {
        if i < n { assert listens[..n][i] == listens[i]; }
      }
    }
  }

  lemma {:induction false} FirstServerUpTo(servers: seq<Obj>, port: Port, i: nat)
    requires i < |servers| && HasPort(servers[i], port)
    requires forall j :: 0 <= j < i ==> HasPort(servers[j], port) || HasOtherPort(servers[j], port)
    ensures exists k :: k <= i && FirstServer(servers, port, k)
    decreases i
  {
    if k :| 0 <= k < i && HasPort(servers[k], port) {
      FirstServerUpTo(servers, port, k);
    } else {
      assert FirstServer(servers, port, i);
    }
  }

  /** Every listener of a connection is one the event loop was given. */
  ghost predicate ListenersKnown(listeners: set<Fd>, s: ConnectionDispatch.State) {
    s.net.listeners == listeners && (s.loop.Accepting? ==> s.loop.listener in listeners) &&
    forall i :: 0 <= i < |s.net.conns| ==> s.net.conns[i].listener in listeners
  }

  lemma ListenerIsKnown(registry: map<Fd, Port>, listeners: set<Fd>, s: ConnectionDispatch.State)
    requires Reachable(registry, listeners, s)
    ensures ListenersKnown(listeners, s)
  {
    var actions :| Run(Next, Initial(registry, listeners), actions) == Some(s);
    forall t, a | ListenersKnown(listeners, t) && Next(t, a).Some? ensures ListenersKnown(listeners, Next(t, a).value) {
      match a
      case Loop(step) =>
      case Work(id, work) =>
    }
    RunKeeps(Next, t => ListenersKnown(listeners, t), Initial(registry, listeners), actions);
  }

  /** Every handler call serves the site, by name and root, of the first server entry with the port of the
      listener that accepted its connection, whatever the interleaving of the event loop and the workers, if no
      listener has another one's port. */
  lemma HandlerServesItsListenersSite(servers: seq<Obj>, listens: seq<Listen>, s: ConnectionDispatch.State, c: nat)
    requires ListensOn(listens, servers) && Distinct(listens) && NoneHandedDown(listens)
    requires Reachable(RegisterAll(listens), WatchedFds(listens), s) && c < |s.calls|
    ensures s.calls[c].conn < |s.net.conns|
    ensures exists i, k :: 0 <= i < |listens| && listens[i].watched &&
              listens[i].fd == s.net.conns[s.calls[c].conn].listener &&
              FirstServer(servers, listens[i].port, k) && s.calls[c].port == listens[i].port &&
              forall name, root :: Says(servers[k], name, root) ==>
                SiteFor(servers, s.calls[c].port) == Ok(Site(name, root, true))
  {
    ConnectionSafety.PortAffinity(RegisterAll(listens), WatchedFds(listens), s, c);
    ListenerIsKnown(RegisterAll(listens), WatchedFds(listens), s);
    var fd := s.net.conns[s.calls[c].conn].listener;
    WatchedIs(listens, fd);
    var i :| 0 <= i < |listens| && listens[i].watched && listens[i].fd == fd;
    OwnPortsIff(listens);
    FirstServerUpTo(servers, listens[i].port, i);
    var k :| k <= i && FirstServer(servers, listens[i].port, k);
    forall name, root | Says(servers[k], name, root)
      ensures SiteFor(servers, listens[i].port) == Ok(Site(name, root, true))
    {
      SiteFoundIff(servers, listens[i].port, name, root);
    }
  }
}
