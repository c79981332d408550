/** internal/quickdocker/spec.go: the one-file description a pair of configurations is generated from. */
module QuickSpec {
  import opened Bytes
  import opened HostPort

  datatype SpecService = SpecService(client: Str, server: Str)

  datatype Spec = Spec(
    listen: Str, address: Str, serverMode: Str, clientMode: Str, id: Str, projectName: Str,
    services: map<Str, SpecService>)

  const HOST: Str := Lit("host")
  const ISOLATED: Str := Lit("isolated")

  datatype SpecError =
    | BadListen
    | BadAddress
    | ModeRequired(server: bool)
    | UnknownMode(server: bool, mode: Str)
    | IdRequired
    | BadProjectName
    | NoServices
    | NameRequired
    | BadClient(name: Str)
    | BadServer(name: Str)
    | ServerReused(name: Str, owner: Str)

  // ------------------------------------------------------------ specification

  predicate KnownMode(mode: Str)
  {
    mode == HOST || mode == ISOLATED
  }

  predicate LowerOrDigit(c: Byte)
  {
    97 <= c <= 122 || 48 <= c <= 57
  }

  /** projectNameRE; the empty name is allowed beside it. */
  predicate ProjectNameOk(s: Str)
  {
    s == [] || (LowerOrDigit(s[0]) && forall i :: 0 <= i < |s| ==> LowerOrDigit(s[i]) || s[i] == 95 || s[i] == 45)
  }

  ghost predicate ServiceOk(name: Str, sv: SpecService)
  {
    name != [] && Splits(sv.client) && Splits(sv.server)
  }

  /** No two services ask for the same address on the server. */
  ghost predicate DistinctServers(services: map<Str, SpecService>)
  {
    forall n, m :: n in services && m in services && n != m ==> services[n].server != services[m].server
  }

  ghost predicate ValidSpec(s: Spec)
  {
    && Splits(s.listen) && Splits(s.address)
    && KnownMode(s.serverMode) && KnownMode(s.clientMode)
    && s.id != [] && ProjectNameOk(s.projectName)
    && s.services != map[]
    && (forall n :: n in s.services ==> ServiceOk(n, s.services[n]))
    && DistinctServers(s.services)
  }

  /** The words of a spec in characters. */
  lemma WordsInCharacters(mode: Str, name: Str)
    ensures KnownMode(mode) <==> mode == Lit("host") || mode == Lit("isolated")
    ensures ProjectNameOk(name) <==>
            name == [] || (name[0] != '_' as int && name[0] != '-' as int
                           && forall i :: 0 <= i < |name| ==>
                                'a' as int <= name[i] <= 'z' as int || '0' as int <= name[i] <= '9' as int
                                || name[i] == '_' as int || name[i] == '-' as int)
  {}

  /** The fault an error names is there. */
  ghost predicate Blames(s: Spec, e: SpecError)
  {
    match e
    case BadListen => !Splits(s.listen)
    case BadAddress => !Splits(s.address)
    case ModeRequired(server) => (if server then s.serverMode else s.clientMode) == []
    case UnknownMode(server, mode) => mode == (if server then s.serverMode else s.clientMode) && mode != [] && !KnownMode(mode)
    case IdRequired => s.id == []
    case BadProjectName => !ProjectNameOk(s.projectName)
    case NoServices => s.services == map[]
    case NameRequired => [] in s.services
    case BadClient(name) => name in s.services && !Splits(s.services[name].client)
    case BadServer(name) => name in s.services && !Splits(s.services[name].server)
    case ServerReused(name, owner) =>
      name in s.services && owner in s.services && name != owner && s.services[name].server == s.services[owner].server
  }

  // ------------------------------------------------------------ the validator

  /** validateMode. */
  function ValidateMode(mode: Str, server: bool): (err: Option<SpecError>)
    ensures err.None? <==> KnownMode(mode)
    ensures err == Some(ModeRequired(server)) <==> mode == []
  {
    if mode == HOST || mode == ISOLATED then None
    else if mode == [] then Some(ModeRequired(server))
    else Some(UnknownMode(server, mode))
  }

  /** The services outside `left` passed; seenServerListen maps the addresses of just these to
    * their names. */
  ghost predicate Passed(services: map<Str, SpecService>, left: set<Str>, seen: map<Str, Str>)
  {
    && (forall n :: n in services && n !in left ==>
          ServiceOk(n, services[n]) && services[n].server in seen && seen[services[n].server] == n)
    && (forall a :: a in seen ==> seen[a] in services && seen[a] !in left && services[seen[a]].server == a)
  }

  lemma PassedStep(services: map<Str, SpecService>, left: set<Str>, seen: map<Str, Str>, name: Str)
    requires Passed(services, left, seen) && name in left && name in services
    requires ServiceOk(name, services[name]) && services[name].server !in seen
    ensures Passed(services, left - {name}, seen[services[name].server := name])
  {}

  lemma AllPassed(services: map<Str, SpecService>, seen: map<Str, Str>)
    requires Passed(services, {}, seen)
    ensures DistinctServers(services)
  {}

  /** The service loop of Validate. Go visits a map in any order, and so does this. */
  method CheckServices(s: Spec) returns (err: Option<SpecError>)
    ensures err.None? <==> (forall n :: n in s.services ==> ServiceOk(n, s.services[n])) && DistinctServers(s.services)
    ensures err.Some? ==> Blames(s, err.value)
  {
    var left := s.services.Keys;
    var seen: map<Str, Str> := map[];
    while left != {}
      invariant left <= s.services.Keys && Passed(s.services, left, seen)
      decreases |left|
    {
      var name :| name in left;
      var sv := s.services[name];
      if name == [] {
        assert !ServiceOk(name, sv);
        return Some(NameRequired);
      }
      if sv.client == [] || !Splits(sv.client) {
        assert !ServiceOk(name, sv);
        return Some(BadClient(name));
      }
      if sv.server == [] || !Splits(sv.server) {
        assert !ServiceOk(name, sv);
        return Some(BadServer(name));
      }
      if sv.server in seen {
        return Some(ServerReused(name, seen[sv.server]));
      }
      PassedStep(s.services, left, seen, name);
      seen := seen[sv.server := name];
      left := left - {name};
    }
    AllPassed(s.services, seen);
    return None;
  }

  /** Spec.Validate accepts exactly the specs of the quantified specification, and an error names a
    * fault that is there. */
  method Validate(s: Spec) returns (err: Option<SpecError>)
    ensures err.None? <==> ValidSpec(s)
    ensures err.Some? ==> Blames(s, err.value)
  {
    if s.listen == [] || !Splits(s.listen) {
      return Some(BadListen);
    }
    if s.address == [] || !Splits(s.address) {
      return Some(BadAddress);
    }
    err := ValidateMode(s.serverMode, true);
    if err.Some? {
      return;
    }
    err := ValidateMode(s.clientMode, false);
    if err.Some? {
      return;
    }
    if s.id == [] {
      return Some(IdRequired);
    }
    if !ProjectNameOk(s.projectName) {
      return Some(BadProjectName);
    }
    if |s.services| == 0 {
      return Some(NoServices);
    }
    err := CheckServices(s);
  }
}
