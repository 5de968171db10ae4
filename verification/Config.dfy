/** Configuration: the normalisation and the checks of Validate. Address and CIDR syntax are parameters. */
module Configs {

  datatype Transport = Transport(mode: string, prefer: string,
                                 listenTCP: string, listenUDP: string, connectTCP: string, connectUDP: string)

  datatype L3 = L3(enabled: bool, iface: string, address: string, mtu: int, routes: seq<string>, allow: seq<string>)

  datatype Service = Service(network: string, address: string)

  datatype Forward = Forward(name: string, protocol: string, listen: string, service: string)

  datatype Settings = Settings(nodeID: string, peerID: string, role: string, secretFile: string,
                               transport: Transport, l3: L3, services: map<string, Service>, forwards: seq<Forward>)

  /** Which strings are listen addresses, dial addresses and CIDR blocks. */
  datatype Syntax = Syntax(listen: string -> bool, dial: string -> bool, cidr: string -> bool)

  predicate Alphanumeric(c: char) {
    'a' <= c <= 'z' || 'A' <= c <= 'Z' || '0' <= c <= '9'
  }

  predicate Safe(c: char) {
    Alphanumeric(c) || c == '_' || c == '.' || c == '-'
  }

  /** 1 to 64 safe characters, the first a letter or digit. */
  predicate IsIdentifier(s: string) {
    1 <= |s| <= 64 && Alphanumeric(s[0]) && forall i | 0 <= i < |s| :: Safe(s[i])
  }

  predicate IsInterface(s: string) {
    1 <= |s| <= 15 && forall i | 0 <= i < |s| :: Safe(s[i])
  }

  function LowerChar(c: char): char {
    if 'A' <= c <= 'Z' then c - 'A' + 'a' else c
  }

  function Lower(s: string): string {
    seq(|s|, i requires 0 <= i < |s| => LowerChar(s[i]))
  }

  lemma LowerTwice(s: string)
    ensures Lower(Lower(s)) == Lower(s)
  {
  }

  predicate IsNetwork(s: string) {
    s == "tcp" || s == "udp"
  }

  // ----- what Validate turns settings into -----

  function NormalTransport(t: Transport): Transport {
    var mode, prefer := Lower(t.mode), Lower(t.prefer);
    t.(mode := mode, prefer := if prefer == "" then (if mode == "both" then "udp" else mode) else prefer)
  }

  function LowerAll(names: seq<string>): seq<string> {
    seq(|names|, i requires 0 <= i < |names| => Lower(names[i]))
  }

  function NormalL3(l: L3): L3 {
    if !l.enabled then l
    else l.(mtu := if l.mtu == 0 then 1200 else l.mtu,
            allow := if l.allow == [] then ["tcp", "udp"] else LowerAll(l.allow))
  }

  function NormalServices(m: map<string, Service>): map<string, Service> {
    map name | name in m :: if IsIdentifier(name) then m[name].(network := Lower(m[name].network)) else m[name]
  }

  function NormalForwards(f: seq<Forward>): seq<Forward> {
    seq(|f|, i requires 0 <= i < |f| => f[i].(protocol := Lower(f[i].protocol)))
  }

  function Normal(c: Settings): Settings {
    c.(role := Lower(c.role), transport := NormalTransport(c.transport), l3 := NormalL3(c.l3),
       services := NormalServices(c.services), forwards := NormalForwards(c.forwards))
  }

  // ----- what it accepts, said of the normalised settings -----

  predicate TransportOk(x: Syntax, role: string, t: Transport) {
    var tcp, udp := t.mode == "tcp" || t.mode == "both", t.mode == "udp" || t.mode == "both";
    && (t.mode == "tcp" || t.mode == "udp" || t.mode == "both")
    && IsNetwork(t.prefer)
    && (t.mode != "both" ==> t.prefer == t.mode)
    && (role == "server" ==> (tcp ==> x.listen(t.listenTCP)) && (udp ==> x.listen(t.listenUDP)))
    && (role == "client" ==> (tcp ==> x.dial(t.connectTCP)) && (udp ==> x.dial(t.connectUDP)))
  }

  ghost predicate Distinct(names: seq<string>) {
    forall i, j | 0 <= i < j < |names| :: names[i] != names[j]
  }

  ghost predicate L3Ok(x: Syntax, l: L3) {
    l.enabled ==>
      && IsInterface(l.iface) && x.cidr(l.address) && 576 <= l.mtu <= 1300
      && (forall i | 0 <= i < |l.routes| :: x.cidr(l.routes[i]))
      && (forall i | 0 <= i < |l.allow| :: IsNetwork(l.allow[i])) && Distinct(l.allow)
  }

  predicate ServiceOk(x: Syntax, name: string, v: Service) {
    IsIdentifier(name) && IsNetwork(v.network) && x.dial(v.address)
  }

  predicate ForwardOk(x: Syntax, f: Forward) {
    IsIdentifier(f.name) && IsNetwork(f.protocol) && x.listen(f.listen) && IsIdentifier(f.service)
  }

  ghost predicate ForwardsOk(x: Syntax, f: seq<Forward>) {
    && (forall i | 0 <= i < |f| :: ForwardOk(x, f[i]))
    && (forall i, j | 0 <= i < j < |f| :: f[i].name != f[j].name)
  }

  ghost predicate Accepted(x: Syntax, c: Settings) {
    && IsIdentifier(c.nodeID) && IsIdentifier(c.peerID) && c.nodeID != c.peerID
    && (c.role == "server" || c.role == "client") && c.secretFile != ""
    && TransportOk(x, c.role, c.transport)
    && L3Ok(x, c.l3)
    && (forall name | name in c.services :: ServiceOk(x, name, c.services[name]))
    && ForwardsOk(x, c.forwards)
  }

  /** Validating twice changes nothing more, so a configuration that was loaded is saved as it is. */
  lemma NormalTwice(c: Settings)
    ensures Normal(Normal(c)) == Normal(c)
  {
    var n := Normal(c);
    LowerTwice(c.role);
    LowerTwice(c.transport.mode);
    LowerTwice(c.transport.prefer);
    assert Lower("udp") == "udp" && Lower("tcp") == "tcp";
    assert NormalTransport(n.transport) == n.transport;
    assert NormalL3(n.l3) == n.l3 by {
      forall i | 0 <= i < |c.l3.allow| ensures Lower(Lower(c.l3.allow[i])) == Lower(c.l3.allow[i]) { LowerTwice(c.l3.allow[i]); }
      assert LowerAll(["tcp", "udp"]) == ["tcp", "udp"];
    }
    forall name | name in c.services ensures Lower(Lower(c.services[name].network)) == Lower(c.services[name].network) {
      LowerTwice(c.services[name].network);
    }
    assert NormalServices(n.services) == n.services;
    forall i | 0 <= i < |c.forwards| ensures Lower(Lower(c.forwards[i].protocol)) == Lower(c.forwards[i].protocol) {
      LowerTwice(c.forwards[i].protocol);
    }
    assert NormalForwards(n.forwards) == n.forwards;
  }

  // ----- the object -----

  class Config {
    var nodeID: string
    var peerID: string
    var role: string
    var secretFile: string
    var transport: Transport
    var l3: L3
    var services: map<string, Service>
    var forwards: seq<Forward>

    function View(): Settings
      reads this
    {
      Settings(nodeID, peerID, role, secretFile, transport, l3, services, forwards)
    }

    constructor (c: Settings)
      ensures View() == c
    {
      nodeID, peerID, role, secretFile := c.nodeID, c.peerID, c.role, c.secretFile;
      transport, l3, services, forwards := c.transport, c.l3, c.services, c.forwards;
    }

    method ValidateTransport(x: Syntax) returns (ok: bool)
      modifies `transport
      ensures transport == NormalTransport(old(transport)) && ok == TransportOk(x, role, transport)
    {
      ok := true;
      transport := transport.(mode := Lower(transport.mode), prefer := Lower(transport.prefer));
      if transport.mode != "tcp" && transport.mode != "udp" && transport.mode != "both" {
        ok := false;
      }
      if transport.prefer == "" {
        transport := transport.(prefer := if transport.mode == "both" then "udp" else transport.mode);
      }
      if transport.prefer != "tcp" && transport.prefer != "udp" {
        ok := false;
      }
      if transport.mode != "both" && transport.prefer != transport.mode {
        ok := false;
      }
      var needsTCP := transport.mode == "tcp" || transport.mode == "both";
      var needsUDP := transport.mode == "udp" || transport.mode == "both";
      if role == "server" {
        if needsTCP && !x.listen(transport.listenTCP) { ok := false; }
        if needsUDP && !x.listen(transport.listenUDP) { ok := false; }
      } else if role == "client" {
        if needsTCP && !x.dial(transport.connectTCP) { ok := false; }
        if needsUDP && !x.dial(transport.connectUDP) { ok := false; }
      }
    }

    method ValidateL3(x: Syntax) returns (ok: bool)
      modifies `l3
      ensures l3 == NormalL3(old(l3)) && ok == L3Ok(x, l3)
    {
      if !l3.enabled {
        return true;
      }
      ok := IsInterface(l3.iface) && x.cidr(l3.address);
      if l3.mtu == 0 {
        l3 := l3.(mtu := 1200);
      }
      if l3.mtu < 576 || l3.mtu > 1300 {
        ok := false;
      }
      for i := 0 to |l3.routes|
        invariant ok <==> IsInterface(l3.iface) && x.cidr(l3.address) && 576 <= l3.mtu <= 1300
                          && forall j | 0 <= j < i :: x.cidr(l3.routes[j])
      {
        if !x.cidr(l3.routes[i]) {
          ok := false;
        }
      }
      if |l3.allow| == 0 {
        l3 := l3.(allow := ["tcp", "udp"]);
        assert Lower("udp") == "udp" && Lower("tcp") == "tcp";
        assert LowerAll(l3.allow) == ["tcp", "udp"];
      }
      var names, good := LowerProtocols(l3.allow);
      l3 := l3.(allow := names);
      ok := ok && good;
    }

    method ValidateServices(x: Syntax) returns (ok: bool)
      modifies `services
      ensures services == NormalServices(old(services))
      ensures ok <==> forall name | name in services :: ServiceOk(x, name, services[name])
    {
      ok := true;
      ghost var given := services;
      var todo := services.Keys;
      while todo != {}
        invariant todo <= given.Keys && services.Keys == given.Keys
        invariant forall name | name in given :: services[name] == if name in todo then given[name] else NormalServices(given)[name]
        invariant ok <==> forall name | name in services.Keys - todo :: ServiceOk(x, name, services[name])
        decreases todo
      {
        var name :| name in todo;
        todo := todo - {name};
        var svc := services[name];
        if !IsIdentifier(name) {
          ok := false;
        } else {
          svc := svc.(network := Lower(svc.network));
          if svc.network != "tcp" && svc.network != "udp" {
            ok := false;
          }
          if !x.dial(svc.address) {
            ok := false;
          }
        }
        assert svc == NormalServices(given)[name];
        services := services[name := svc];
      }
      assert services == NormalServices(given);
    }

    method ValidateForwards(x: Syntax) returns (ok: bool)
      modifies `forwards
      ensures forwards == NormalForwards(old(forwards)) && ok == ForwardsOk(x, forwards)
    {
      ok := true;
      ghost var given := forwards;
      var seen: set<string> := {};
      for i := 0 to |forwards|
        invariant |forwards| == |given| && forwards[i..] == given[i..]
        invariant forall j | 0 <= j < i :: forwards[j] == NormalForwards(given)[j]
        invariant seen == Names(forwards[..i])
        invariant ok <==> ForwardsOk(x, forwards[..i])
      {
        var f := forwards[i].(protocol := Lower(forwards[i].protocol));
        assert forwards[i] == forwards[i..][0] == given[i];
        ghost var done := forwards[..i];
        forwards := forwards[i := f];
        assert forwards[..i + 1] == done + [f];
        ForwardsMore(x, done, f);
        ok := ok && ForwardOk(x, f) && f.name !in seen;
        seen := seen + {f.name};
      }
      assert forwards[..|forwards|] == forwards;
    }

    /** Rewrites every field to its normal form and accepts exactly the settings that pass all checks in that form. */
    method Validate(x: Syntax) returns (ok: bool)
      modifies this
      ensures View() == Normal(old(View()))
      ensures ok <==> Accepted(x, View())
    {
      ok := IsIdentifier(nodeID) && IsIdentifier(peerID) && nodeID != peerID;
      role := Lower(role);
      if role != "server" && role != "client" {
        ok := false;
      }
      if secretFile == "" {
        ok := false;
      }
      var a := ValidateTransport(x);
      var b := ValidateL3(x);
      var c := ValidateServices(x);
      var d := ValidateForwards(x);
      ok := ok && a && b && c && d;
    }
  }

  ghost function Names(forwards: seq<Forward>): set<string> {
    set i | 0 <= i < |forwards| :: forwards[i].name
  }

  lemma ForwardsMore(x: Syntax, done: seq<Forward>, f: Forward)
    ensures ForwardsOk(x, done + [f]) <==> ForwardsOk(x, done) && ForwardOk(x, f) && f.name !in Names(done)
    ensures Names(done + [f]) == Names(done) + {f.name}
  {
    var all := done + [f];
    if ForwardsOk(x, all) {
      assert forall j | 0 <= j < |done| :: all[j] == done[j];
      assert all[|done|] == f;
    }
  }

  /** Lower-cases the listed protocols; good when each is TCP or UDP and none is listed twice. */
  method LowerProtocols(given: seq<string>) returns (names: seq<string>, ok: bool)
    ensures names == LowerAll(given)
    ensures ok <==> (forall i | 0 <= i < |names| :: IsNetwork(names[i])) && Distinct(names)
  {
    names, ok := given, true;
    var seen: set<string> := {};
    for i := 0 to |given|
      invariant |names| == |given| && names[i..] == given[i..]
      invariant forall j | 0 <= j < i :: names[j] == Lower(given[j])
      invariant seen == set j | 0 <= j < i :: names[j]
      invariant ok <==> (forall j | 0 <= j < i :: IsNetwork(names[j])) && (forall j, k | 0 <= j < k < i :: names[j] != names[k])
    {
      assert names[i] == names[i..][0] == given[i];
      var p := Lower(names[i]);
      ghost var before := names;
      names := names[i := p];
      assert forall j | 0 <= j < i :: names[j] == before[j];
      assert p in seen <==> exists j :: 0 <= j < i && names[j] == p;
      if p != "tcp" && p != "udp" {
        ok := false;
      }
      if p in seen {
        ok := false;
      }
      seen := seen + {p};
    }
  }
}
