/** The lifecycle of the MCP servers and the tools they contribute (app/mcp/manager.py).

    What starting, listing and closing a server's client come to is an oracle. */
module McpManager {
  import opened Wrappers

  datatype Risk = Low | Medium | High {
    function Rank(): nat {
      match this case Low => 0 case Medium => 1 case High => 2
    }
  }

  datatype ServerConfig = ServerConfig(name: string, allowedTools: set<string>, maxRisk: Risk)

  datatype Definition = Definition(name: string, risk: Risk, riskKnown: bool)

  datatype Tool = Tool(server: string, name: string)

  datatype ServerState = NotStarted | Starting | Ready | Failed | ShutDown

  datatype Status = Status(state: ServerState, toolCount: nat)

  datatype Readiness = Disabled | IsStarting | IsReady | Degraded | NotReady | IsClosed

  /** What happens to one server during a discovery. `cleanupCancelled`: a cancellation arrived while the
      client of a failed server was being closed. */
  datatype Attempt =
    | FactoryRaises
    | ClientCancelled
    | ClientRaises(cleanupCancelled: bool)
    | Lists(definitions: seq<Definition>, cleanupCancelled: bool)

  datatype Raised = AlreadyStarted(server: string) | CancelledError | FactoryError

  // ----- Which tools are admitted -----

  predicate Admitted(c: ServerConfig, d: Definition) {
    && d.riskKnown
    && (c.allowedTools == {} || d.name in c.allowedTools)
    && d.risk.Rank() <= c.maxRisk.Rank()
  }

  ghost predicate DistinctNames(ds: seq<Definition>) {
    forall i, j :: 0 <= i < j < |ds| ==> ds[i].name != ds[j].name
  }

  /** An outcome that makes the whole discovery raise. */
  ghost predicate Raising(a: Attempt) {
    match a
    case FactoryRaises => true
    case ClientCancelled => true
    case ClientRaises(cleanupCancelled) => cleanupCancelled
    case Lists(definitions, cleanupCancelled) => cleanupCancelled && !DistinctNames(definitions)
  }

  /** An outcome that leaves the server ready. */
  ghost predicate Serves(a: Attempt) {
    a.Lists? && DistinctNames(a.definitions)
  }

  /** A tool may be offered: its risk is known, the allowlist, if there is one, names it, and its risk is within
      the limit, low before medium before high. */
  ghost predicate Allowed(c: ServerConfig, d: Definition) {
    && d.riskKnown
    && (c.allowedTools == {} || d.name in c.allowedTools)
    && (d.risk == Low || (d.risk == Medium && c.maxRisk != Low) || c.maxRisk == High)
  }

  /** `tools` are those of the definitions at the positions `idx`, in order; `idx` holds exactly the positions of
      the tools that may be offered. */
  ghost predicate Picks(c: ServerConfig, ds: seq<Definition>, tools: seq<Tool>, idx: seq<nat>) {
    && |idx| == |tools|
    && (forall i, j :: 0 <= i < j < |idx| ==> idx[i] < idx[j])
    && (forall i :: 0 <= i < |idx| ==> idx[i] < |ds| && tools[i] == Tool(c.name, ds[idx[i]].name))
    && (forall j :: 0 <= j < |ds| ==> (j in idx <==> Allowed(c, ds[j])))
  }

  /** The admitted tools of a server, or none if it names a tool twice. */
  method AdmitTools(c: ServerConfig, ds: seq<Definition>) returns (r: Option<seq<Tool>>)
    ensures r.Some? <==> DistinctNames(ds)
    ensures r.Some? ==> exists idx :: Picks(c, ds, r.value, idx)
    ensures r.Some? ==> forall t :: t in r.value <==> exists d :: d in ds && Allowed(c, d) && t == Tool(c.name, d.name)
    ensures r.Some? ==> forall i, j :: 0 <= i < j < |r.value| ==> r.value[i] != r.value[j]
  {
    hide Picks;
    var seen: set<string> := {};
    var tools: seq<Tool> := [];
    ghost var idx: seq<nat> := [];
    PickNothing(c, ds);
    for i := 0 to |ds|
      invariant DistinctNames(ds[..i])
      invariant forall n :: n in seen <==> exists k :: 0 <= k < i && ds[k].name == n
      invariant Picks(c, ds[..i], tools, idx)
    {
      if ds[i].name in seen {
        var k :| 0 <= k < i && ds[k].name == ds[i].name;
        return None;
      }
      PickNext(c, ds, i, tools, idx);
      seen := seen + {ds[i].name};
      if Admitted(c, ds[i]) {
        tools, idx := tools + [Tool(c.name, ds[i].name)], idx + [i];
      }
    }
    assert ds[..|ds|] == ds;
    PickedTools(c, ds, tools, idx);
    return Some(tools);
  }

  lemma {:induction false} PickNothing(c: ServerConfig, ds: seq<Definition>)
    ensures Picks(c, ds[..0], [], [])
  {
  }

  lemma {:induction false} PickNext(c: ServerConfig, ds: seq<Definition>, i: nat, tools: seq<Tool>, idx: seq<nat>)
    requires i < |ds| && Picks(c, ds[..i], tools, idx)
    ensures if Admitted(c, ds[i]) then Picks(c, ds[..i + 1], tools + [Tool(c.name, ds[i].name)], idx + [i])
            else Picks(c, ds[..i + 1], tools, idx)
  {
    assert forall j :: 0 <= j < i ==> ds[..i + 1][j] == ds[..i][j];
    assert Admitted(c, ds[i]) <==> Allowed(c, ds[i]);
  }

  /** What is picked: exactly the tools that may be offered, once each if their names differ. */
  lemma {:induction false} PickedTools(c: ServerConfig, ds: seq<Definition>, tools: seq<Tool>, idx: seq<nat>)
    requires Picks(c, ds, tools, idx)
    ensures forall t :: t in tools <==> exists d :: d in ds && Allowed(c, d) && t == Tool(c.name, d.name)
    ensures DistinctNames(ds) ==> forall i, j :: 0 <= i < j < |tools| ==> tools[i] != tools[j]
  {
    forall t
      ensures t in tools <==> exists d :: d in ds && Allowed(c, d) && t == Tool(c.name, d.name)
    {
      if i :| 0 <= i < |tools| && tools[i] == t {
        assert idx[i] in idx && ds[idx[i]] in ds;
      }
      if d :| d in ds && Allowed(c, d) && t == Tool(c.name, d.name) {
        var j :| 0 <= j < |ds| && ds[j] == d;
        var i :| 0 <= i < |idx| && idx[i] == j;
        assert tools[i] == t;
      }
    }
  }

  // ----- The manager -----

  function Names(cs: seq<ServerConfig>): set<string> {
    set c | c in cs :: c.name
  }

  ghost predicate DistinctServers(cs: seq<ServerConfig>) {
    forall i, j :: 0 <= i < j < |cs| ==> cs[i].name != cs[j].name
  }

  /** The servers among the first `n` whose outcome leaves them ready. */
  ghost function Served(cs: seq<ServerConfig>, attempt: nat -> Attempt, n: nat): set<string>
    requires n <= |cs|
  {
    set k | 0 <= k < n && Serves(attempt(k)) :: cs[k].name
  }

  /** The first `n` servers can be discovered: no client is held for any of them when its turn comes, and no
      outcome raises. */
  ghost predicate Smooth(cs: seq<ServerConfig>, held: set<string>, attempt: nat -> Attempt, n: nat)
    requires n <= |cs|
  {
    forall k :: 0 <= k < n ==> cs[k].name !in held + Served(cs, attempt, k) && !Raising(attempt(k))
  }

  /** For distinct servers this says that no client is held and no outcome raises. */
  lemma {:induction false} SmoothWhenDistinct(cs: seq<ServerConfig>, held: set<string>, attempt: nat -> Attempt)
    requires DistinctServers(cs) && held <= Names(cs)
    ensures Smooth(cs, held, attempt, |cs|) <==> held == {} && forall i :: 0 <= i < |cs| ==> !Raising(attempt(i))
  {
    HeldIsNotSmooth(cs, held, attempt);
  }

  /** The tool counts of the servers that are ready, in total. */
  function ReadyTools(cs: seq<ServerConfig>, statuses: map<string, Status>): nat {
    if cs == [] then 0
    else
      var name := cs[|cs| - 1].name;
      ReadyTools(cs[..|cs| - 1], statuses)
      + if name in statuses && statuses[name].state == Ready then statuses[name].toolCount else 0
  }

  ghost predicate SameStatus(before: map<string, Status>, after: map<string, Status>, c: ServerConfig) {
    c.name in before && c.name in after && before[c.name] == after[c.name]
  }

  lemma {:induction false} ReadyToolsFrame(
      cs: seq<ServerConfig>, before: map<string, Status>, after: map<string, Status>)
    requires forall i :: 0 <= i < |cs| ==> SameStatus(before, after, cs[i])
    ensures ReadyTools(cs, before) == ReadyTools(cs, after)
  {
    if cs != [] {
      ReadyToolsFrame(cs[..|cs| - 1], before, after);
    }
  }

  /** The readiness reported for the servers, without probing them. */
  function ReadinessOf(statuses: map<string, Status>, discovered: bool): Readiness {
    var ready := set n | n in statuses && statuses[n].state == Ready;
    var failed := set n | n in statuses && statuses[n].state == Failed;
    if statuses == map[] then Disabled
    else if forall n :: n in statuses ==> statuses[n].state == ShutDown then IsClosed
    else if !discovered then IsStarting
    else if |ready| > 0 && |failed| > 0 then Degraded
    else if |ready| == |statuses| then IsReady
    else NotReady
  }

  lemma {:induction false} AllOfThem(part: set<string>, all: set<string>)
    requires part <= all
    ensures |part| == |all| <==> part == all
  {
    assert all == part + (all - part);
    assert |all| == |part| + |all - part|;
  }

  /** Readiness by the states of the servers. */
  lemma {:induction false} ReadinessReads(statuses: map<string, Status>, discovered: bool)
    ensures var r := ReadinessOf(statuses, discovered);
            && (r.Disabled? <==> statuses == map[])
            && (r.IsClosed? <==> statuses != map[] && forall n :: n in statuses ==> statuses[n].state == ShutDown)
            && (statuses != map[] && (exists n :: n in statuses && statuses[n].state != ShutDown) ==>
                  && (r.IsStarting? <==> !discovered)
                  && (r.Degraded? <==> && discovered
                                       && (exists n :: n in statuses && statuses[n].state == Ready)
                                       && (exists n :: n in statuses && statuses[n].state == Failed))
                  && (r.IsReady? <==> discovered && forall n :: n in statuses ==> statuses[n].state == Ready))
  {
    var ready := set n | n in statuses && statuses[n].state == Ready;
    var failed := set n | n in statuses && statuses[n].state == Failed;
    AllOfThem(ready, statuses.Keys);
    if n :| n in statuses && statuses[n].state == Ready {
      assert n in ready;
    } else {
      assert ready == {};
    }
    if n :| n in statuses && statuses[n].state == Failed {
      assert n in failed && n !in ready;
    } else {
      assert failed == {};
    }
    if forall n :: n in statuses ==> statuses[n].state == Ready {
      assert ready == statuses.Keys;
    }
    if statuses != map[] {
      var n :| n in statuses;
    }
  }

  predicate Usable(r: Readiness) {
    r.Disabled? || r.IsReady? || r.Degraded?
  }

  /** After a discovery the servers are usable exactly when one of them is ready or none is configured. */
  lemma {:induction false} UsableMeansSomeReady(statuses: map<string, Status>)
    requires forall n :: n in statuses ==> statuses[n].state == Ready || statuses[n].state == Failed
    ensures Usable(ReadinessOf(statuses, true)) <==>
            statuses == map[] || exists n :: n in statuses && statuses[n].state == Ready
  {
    var ready := set n | n in statuses && statuses[n].state == Ready;
    var failed := set n | n in statuses && statuses[n].state == Failed;
    if statuses != map[] {
      var n :| n in statuses;
      assert n in ready || n in failed;
      if n :| n in statuses && statuses[n].state == Ready {
        assert n in ready;
        if failed == {} {
          forall m | m in statuses
            ensures m in ready
          {
            assert m in ready || m in failed;
          }
          assert ready == statuses.Keys;
        }
      } else {
        assert ready == {};
      }
    }
  }

  class ToolManager {
    const configs: seq<ServerConfig>
    var clients: set<string>
    var tools: seq<Tool>
    var discovered: bool
    var statuses: map<string, Status>

    /** One status per server, and the held clients are exactly those of the ready servers. */
    ghost predicate Consistent()
      reads this
    {
      && statuses.Keys == Names(configs)
      && forall n :: n in clients <==> n in statuses && statuses[n].state == Ready
    }

    /** Moreover every listed tool belongs to a ready server; and after a discovery each server is ready
        or failed, and the tool counts of distinct servers add up to the tools listed. */
    ghost predicate Valid()
      reads this
    {
      && Consistent()
      && (forall t :: t in tools ==> t.server in clients)
      && (!discovered ==> tools == [])
      && (discovered ==> forall n :: n in statuses ==> statuses[n].state == Ready || statuses[n].state == Failed)
      && (discovered && DistinctServers(configs) ==> |tools| == ReadyTools(configs, statuses))
    }

    constructor (configs: seq<ServerConfig>)
      ensures Valid() && this.configs == configs && !discovered && clients == {}
    {
      this.configs := configs;
      clients, tools, discovered := {}, [], false;
      statuses := map n | n in Names(configs) :: Status(NotStarted, 0);
    }

    /** Every listed tool may be used: the permission it requires is granted. */
    method GrantedPermissions() returns (granted: set<string>)
      requires Valid()
      ensures granted == (set n | n in clients :: "mcp:server:" + n)
      ensures forall t :: t in tools ==> "mcp:server:" + t.server in granted
    {
      granted := set n | n in clients :: "mcp:server:" + n;
    }

    /** One server of a discovery. Failure means that the whole discovery raises. */
    method DiscoverServer(c: ServerConfig, attempt: Attempt) returns (r: Result<seq<Tool>, Raised>)
      requires Consistent() && c in configs
      modifies this`clients, this`statuses
      ensures Consistent() && clients == old(clients) + if Serves(attempt) then {c.name} else {}
      ensures statuses.Keys == old(statuses.Keys) && c.name in statuses
      ensures forall n :: n in statuses && n != c.name ==> statuses[n] == old(statuses)[n]
      ensures r.Failure? <==> c.name in old(clients) || Raising(attempt)
      ensures r.Failure? ==>
                r.error == if c.name in old(clients) then AlreadyStarted(c.name)
                           else if attempt.FactoryRaises? then FactoryError else CancelledError
      ensures c.name in old(clients) ==> statuses == old(statuses)
      ensures c.name !in old(clients) ==> statuses[c.name].state == match attempt
                                                                    case FactoryRaises => Starting
                                                                    case ClientCancelled => ShutDown
                                                                    case _ => if Serves(attempt) then Ready else Failed
      ensures r.Success? ==> forall t :: t in r.value ==> t.server in clients
      ensures r.Success? ==> Reports(c, attempt, statuses, r.value)
    {
      hide Picks, Allowed, DistinctNames;
      if c.name in clients {
        return Failure(AlreadyStarted(c.name));
      }
      statuses := statuses[c.name := Status(Starting, 0)];
      match attempt {
        case FactoryRaises =>
          return Failure(FactoryError);
        case ClientCancelled =>
          clients, statuses := clients - {c.name}, statuses[c.name := Status(ShutDown, 0)];
          return Failure(CancelledError);
        case ClientRaises(cleanupCancelled) =>
          clients, statuses := clients - {c.name}, statuses[c.name := Status(Failed, 0)];
          return if cleanupCancelled then Failure(CancelledError) else Success([]);
        case Lists(definitions, cleanupCancelled) =>
          r := ListServer(c, definitions, cleanupCancelled);
      }
    }

    /** A server that started and listed its tools. */
    method ListServer(c: ServerConfig, definitions: seq<Definition>, cleanupCancelled: bool)
      returns (r: Result<seq<Tool>, Raised>)
      requires Consistent() && c.name in statuses && c.name !in clients
      modifies this`clients, this`statuses
      ensures Consistent()
      ensures var a := Lists(definitions, cleanupCancelled);
              && clients == old(clients) + (if Serves(a) then {c.name} else {})
              && statuses == old(statuses)[c.name := if r.Success? && Serves(a) then Status(Ready, |r.value|)
                                                     else Status(Failed, 0)]
              && (r.Failure? <==> Raising(a)) && (r.Failure? ==> r.error == CancelledError)
              && (r.Success? ==> Reports(c, a, statuses, r.value) && forall t :: t in r.value ==> t.server in clients)
    {
      hide DistinctNames, Picks, Allowed;
      var admitted := AdmitTools(c, definitions);
      if admitted.None? {
        clients, statuses := clients - {c.name}, statuses[c.name := Status(Failed, 0)];
        return if cleanupCancelled then Failure(CancelledError) else Success([]);
      }
      clients, statuses := clients + {c.name}, statuses[c.name := Status(Ready, |admitted.value|)];
      return Success(admitted.value);
    }

    /** The servers one after the other, up to the first that makes the discovery raise. */
    method DiscoverAll(attempt: nat -> Attempt) returns (r: Result<seq<Tool>, Raised>)
      requires Consistent()
      modifies this`clients, this`statuses
      ensures Consistent()
      ensures r.Success? <==> Smooth(configs, old(clients), attempt, |configs|)
      ensures r.Success? ==> Surveyed(configs, clients, statuses, r.value)
      ensures r.Success? ==> Offered(configs, attempt, |configs|, statuses, r.value)
      ensures exists n :: Reached(configs, old(clients), attempt, n, clients)
    {
      hide Consistent, Surveyed, Through, Smooth, Served, Reached, Raising, Serves, Reports, Offered;
      var found: seq<Tool> := [];
      NothingYet(configs, clients, statuses, attempt);
      for i := 0 to |configs|
        invariant Consistent() && Through(configs, old(clients), attempt, i, clients)
        invariant Surveyed(configs[..i], clients, statuses, found)
        invariant Offered(configs, attempt, i, statuses, found)
      {
        ghost var clients0, statuses0 := clients, statuses;
        var served := DiscoverServer(configs[i], attempt(i));
        ThroughOneMore(configs, old(clients), attempt, i, clients0, clients);
        if served.Failure? {
          return Failure(served.error);
        }
        SurveyOneMore(configs, i, attempt(i), clients0, clients, statuses0, statuses, found, served.value);
        OfferOneMore(configs, attempt, i, old(clients), clients0, statuses0, statuses, found, served.value);
        found := found + served.value;
      }
      assert configs[..|configs|] == configs;
      ThroughAll(configs, old(clients), attempt, clients);
      return Success(found);
    }

    /** Starts every server and lists its tools. After an interrupted discovery that left a server ready,
        a further discovery raises until the manager is closed. */
    method Discover(attempt: nat -> Attempt) returns (r: Result<seq<Tool>, Raised>)
      requires Valid()
      modifies this
      ensures Valid()
      ensures r.Success? ==> discovered && r.value == tools
      ensures r.Failure? ==> !discovered
      ensures old(discovered) ==> r == Success(old(tools)) && clients == old(clients) && statuses == old(statuses)
      ensures !old(discovered) ==>
                && (r.Success? <==> Smooth(configs, old(clients), attempt, |configs|))
                && exists n :: Reached(configs, old(clients), attempt, n, clients)
      ensures !old(discovered) && r.Success? ==> Offered(configs, attempt, |configs|, statuses, tools)
      ensures !old(discovered) && old(clients) != {} ==> r.Failure?
      ensures !old(discovered) && DistinctServers(configs) ==>
                (r.Success? <==> old(clients) == {} && forall i :: 0 <= i < |configs| ==> !Raising(attempt(i)))
    {
      hide ReadyTools, DistinctServers, Smooth, Reached, Offered;
      if discovered {
        return Success(tools);
      }
      HeldIsNotSmooth(configs, clients, attempt);
      if DistinctServers(configs) {
        SmoothWhenDistinct(configs, clients, attempt);
      }
      var found := DiscoverAll(attempt);
      ghost var n :| Reached(configs, old(clients), attempt, n, clients);
      if found.Failure? {
        return Failure(found.error);
      }
      AllSettled(configs, statuses);
      tools, discovered := found.value, true;
      assert Reached(configs, old(clients), attempt, n, clients);
      return Success(tools);
    }

    /** Closes every client, whatever closing them comes to, and reports a cancellation afterwards. */
    method Shutdown(cancelled: string -> bool) returns (raised: bool)
      requires Valid()
      modifies this
      ensures Valid() && clients == {} && tools == [] && !discovered
      ensures forall n :: n in statuses ==> statuses[n] == Status(ShutDown, 0)
      ensures raised <==> exists n :: n in old(clients) && cancelled(n)
    {
      var rest := clients;
      tools, discovered := [], false;
      raised := false;
      while rest != {}
        invariant rest <= clients == old(clients)
        invariant raised <==> exists n :: n in old(clients) - rest && cancelled(n)
      {
        var n :| n in rest;
        rest := rest - {n};
        raised := cancelled(n) || raised;
      }
      clients := {};
      statuses := map n | n in Names(configs) :: Status(ShutDown, 0);
    }
  }

  predicate Settled(s: Status) {
    s.state == Ready || s.state == Failed
  }

  predicate IsSettled(statuses: map<string, Status>, c: ServerConfig) {
    c.name in statuses && Settled(statuses[c.name])
  }

  /** The first n servers were discovered, and `clients` are held now. */
  ghost predicate Through(
      cs: seq<ServerConfig>, held: set<string>, attempt: nat -> Attempt, n: nat, clients: set<string>)
  {
    n <= |cs| && Smooth(cs, held, attempt, n) && clients == held + Served(cs, attempt, n)
  }

  /** A discovery got to the server number n, where it raised, or through all of them. */
  ghost predicate Reached(
      cs: seq<ServerConfig>, held: set<string>, attempt: nat -> Attempt, n: nat, clients: set<string>)
  {
    Through(cs, held, attempt, n, clients) && (n < |cs| ==> !Smooth(cs, held, attempt, n + 1))
  }

  lemma {:induction false} NothingYet(
      cs: seq<ServerConfig>, held: set<string>, statuses: map<string, Status>, attempt: nat -> Attempt)
    ensures Surveyed(cs[..0], held, statuses, []) && Through(cs, held, attempt, 0, held)
    ensures Offered(cs, attempt, 0, statuses, [])
  {
    assert Served(cs, attempt, 0) == {};
    assert Listing(cs, attempt, 0, [], []);
  }

  lemma {:induction false} ThroughOneMore(
      cs: seq<ServerConfig>, held: set<string>, attempt: nat -> Attempt, i: nat,
      before: set<string>, after: set<string>)
    requires i < |cs| && Through(cs, held, attempt, i, before)
    requires after == before + if Serves(attempt(i)) then {cs[i].name} else {}
    ensures cs[i].name !in before && !Raising(attempt(i)) ==> Through(cs, held, attempt, i + 1, after)
    ensures cs[i].name in before || Raising(attempt(i)) ==>
              Reached(cs, held, attempt, i, after) && !Smooth(cs, held, attempt, |cs|)
  {
    assert Served(cs, attempt, i + 1) == Served(cs, attempt, i) + if Serves(attempt(i)) then {cs[i].name} else {};
    assert Raising(attempt(i)) ==> !Serves(attempt(i));
    assert cs[i].name in before ==> after == before;
  }

  lemma {:induction false} ThroughAll(
      cs: seq<ServerConfig>, held: set<string>, attempt: nat -> Attempt, clients: set<string>)
    requires Through(cs, held, attempt, |cs|, clients)
    ensures Reached(cs, held, attempt, |cs|, clients) && Smooth(cs, held, attempt, |cs|)
  {
  }

  lemma {:induction false} HeldIsNotSmooth(cs: seq<ServerConfig>, held: set<string>, attempt: nat -> Attempt)
    requires held <= Names(cs)
    ensures Smooth(cs, held, attempt, |cs|) ==> held == {}
  {
    if n :| n in held {
      var c :| c in cs && c.name == n;
      var i :| 0 <= i < |cs| && cs[i] == c;
      assert cs[i].name in held + Served(cs, attempt, i);
    }
  }

  lemma {:induction false} AllSettled(cs: seq<ServerConfig>, statuses: map<string, Status>)
    requires statuses.Keys == Names(cs)
    requires forall k :: 0 <= k < |cs| ==> IsSettled(statuses, cs[k])
    ensures forall n :: n in statuses ==> Settled(statuses[n])
  {
    forall n | n in statuses
      ensures Settled(statuses[n])
    {
      var c :| c in cs && c.name == n;
      var k :| 0 <= k < |cs| && cs[k] == c;
      assert IsSettled(statuses, cs[k]);
    }
  }

  /** Each of these servers is ready or failed, every tool found belongs to a held client, and the tool counts
      of distinct servers add up. */
  ghost predicate Surveyed(
      cs: seq<ServerConfig>, clients: set<string>, statuses: map<string, Status>, found: seq<Tool>)
  {
    && (forall k :: 0 <= k < |cs| ==> IsSettled(statuses, cs[k]))
    && (forall t :: t in found ==> t.server in clients)
    && (DistinctServers(cs) ==> |found| == ReadyTools(cs, statuses))
  }

  /** What a discovered server reports: its tools and their number if it serves, a failure otherwise. */
  ghost predicate Reports(c: ServerConfig, a: Attempt, statuses: map<string, Status>, more: seq<Tool>) {
    && c.name in statuses
    && if Serves(a) then
         statuses[c.name] == Status(Ready, |more|) && exists idx :: Picks(c, a.definitions, more, idx)
       else statuses[c.name].state == Failed && more == []
  }

  // ----- What a discovery offers -----

  /** A definition, by its server and its position in the list of that server. */
  datatype Place = Place(server: nat, definition: nat)

  ghost predicate Offers(cs: seq<ServerConfig>, attempt: nat -> Attempt, n: nat, p: Place) {
    && p.server < n <= |cs| && Serves(attempt(p.server)) && p.definition < |attempt(p.server).definitions|
    && Allowed(cs[p.server], attempt(p.server).definitions[p.definition])
  }

  ghost predicate Before(p: Place, q: Place) {
    p.server < q.server || (p.server == q.server && p.definition < q.definition)
  }

  /** `tools` are those at `places`, server by server and in the order of each list; `places` holds exactly the
      definitions that the first n servers offer. */
  ghost predicate Listing(
      cs: seq<ServerConfig>, attempt: nat -> Attempt, n: nat, tools: seq<Tool>, places: seq<Place>)
  {
    && n <= |cs| && |places| == |tools|
    && (forall i, j :: 0 <= i < j < |places| ==> Before(places[i], places[j]))
    && (forall p :: p in places <==> Offers(cs, attempt, n, p))
    && (forall i :: 0 <= i < |places| ==>
          && Offers(cs, attempt, n, places[i])
          && tools[i] == Tool(cs[places[i].server].name,
                              attempt(places[i].server).definitions[places[i].definition].name))
  }

  /** A server that serves is ready with the number of its tools. */
  ghost predicate Counted(cs: seq<ServerConfig>, attempt: nat -> Attempt, statuses: map<string, Status>, k: nat)
    requires k < |cs|
  {
    Serves(attempt(k)) ==>
      exists tools, idx ::
        && Picks(cs[k], attempt(k).definitions, tools, idx)
        && cs[k].name in statuses && statuses[cs[k].name] == Status(Ready, |tools|)
  }

  ghost predicate Offered(
      cs: seq<ServerConfig>, attempt: nat -> Attempt, n: nat, statuses: map<string, Status>, tools: seq<Tool>)
  {
    && n <= |cs| && (exists places :: Listing(cs, attempt, n, tools, places))
    && forall k :: 0 <= k < n ==> Counted(cs, attempt, statuses, k)
  }

  lemma {:induction false} ListOneMore(
      cs: seq<ServerConfig>, attempt: nat -> Attempt, i: nat, found: seq<Tool>, places: seq<Place>,
      more: seq<Tool>, idx: seq<nat>) returns (all: seq<Place>)
    requires i < |cs| && Listing(cs, attempt, i, found, places)
    requires if Serves(attempt(i)) then Picks(cs[i], attempt(i).definitions, more, idx) else more == [] && idx == []
    ensures Listing(cs, attempt, i + 1, found + more, all)
  {
    hide Allowed;
    var next := seq(|idx|, m requires 0 <= m < |idx| => Place(i, idx[m]));
    all := places + next;
    forall p
      ensures p in all <==> Offers(cs, attempt, i + 1, p)
    {
      if p.server == i {
        NextPlaces(cs, attempt, i, more, idx, next, p);
      } else {
        assert p in all <==> p in places;
      }
    }
    forall a, b | 0 <= a < b < |all|
      ensures Before(all[a], all[b])
    {
      assert a < |places| ==> all[a] in places;
    }
    forall a | 0 <= a < |all|
      ensures Offers(cs, attempt, i + 1, all[a])
      ensures (found + more)[a] == Tool(cs[all[a].server].name,
                                        attempt(all[a].server).definitions[all[a].definition].name)
    {
      assert all[a] in all;
      assert a < |places| ==> Offers(cs, attempt, i, places[a]);
    }
  }

  lemma {:induction false} NextPlaces(
      cs: seq<ServerConfig>, attempt: nat -> Attempt, i: nat, more: seq<Tool>, idx: seq<nat>,
      next: seq<Place>, p: Place)
    requires i < |cs| && p.server == i && next == seq(|idx|, m requires 0 <= m < |idx| => Place(i, idx[m]))
    requires if Serves(attempt(i)) then Picks(cs[i], attempt(i).definitions, more, idx) else idx == []
    ensures p in next <==> Offers(cs, attempt, i + 1, p)
  {
    if p in next {
      var m :| 0 <= m < |next| && next[m] == p;
      assert idx[m] in idx;
    }
    if Offers(cs, attempt, i + 1, p) {
      var m :| 0 <= m < |idx| && idx[m] == p.definition;
      assert next[m] == p;
    }
  }

  lemma {:induction false} OfferOneMore(
      cs: seq<ServerConfig>, attempt: nat -> Attempt, i: nat, held: set<string>, clients: set<string>,
      before: map<string, Status>, after: map<string, Status>, found: seq<Tool>, more: seq<Tool>)
    requires i < |cs| && Offered(cs, attempt, i, before, found) && Reports(cs[i], attempt(i), after, more)
    requires Through(cs, held, attempt, i, clients) && cs[i].name !in clients
    requires forall n :: n in before && n != cs[i].name ==> n in after && after[n] == before[n]
    ensures Offered(cs, attempt, i + 1, after, found + more)
  {
    hide Picks, Smooth;
    var places :| Listing(cs, attempt, i, found, places);
    hide Listing;
    var idx: seq<nat> := [];
    if Serves(attempt(i)) {
      idx :| Picks(cs[i], attempt(i).definitions, more, idx);
    }
    var all := ListOneMore(cs, attempt, i, found, places, more, idx);
    forall k | 0 <= k < i
      ensures Counted(cs, attempt, after, k)
    {
      assert Counted(cs, attempt, before, k);
      if Serves(attempt(k)) {
        assert cs[k].name in Served(cs, attempt, i);
      }
    }
  }

  lemma {:induction false} SurveyOneMore(
      cs: seq<ServerConfig>, i: nat, a: Attempt, clients0: set<string>, clients: set<string>,
      before: map<string, Status>, after: map<string, Status>, found: seq<Tool>, more: seq<Tool>)
    requires i < |cs| && Surveyed(cs[..i], clients0, before, found) && clients0 <= clients
    requires Reports(cs[i], a, after, more) && forall t :: t in more ==> t.server in clients
    requires forall n :: n in before && n != cs[i].name ==> n in after && after[n] == before[n]
    ensures Surveyed(cs[..i + 1], clients, after, found + more)
  {
    var longer := cs[..i + 1];
    assert longer[..i] == cs[..i] && longer[i] == cs[i];
    forall k | 0 <= k < |longer|
      ensures IsSettled(after, longer[k])
    {
      assert k < i ==> IsSettled(before, cs[..i][k]);
    }
    if DistinctServers(longer) {
      assert DistinctServers(cs[..i]);
      forall k | 0 <= k < i
        ensures SameStatus(before, after, cs[..i][k])
      {
        assert IsSettled(before, cs[..i][k]) && longer[k].name != longer[i].name;
      }
      ReadyToolsFrame(cs[..i], before, after);
    }
  }
}
