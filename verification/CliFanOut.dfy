/** Connecting to several devices, and listing the devices of all hosts, over the gathering protocol. */
module CliFanOut {
  import opened Wrappers
  import opened Gather

  datatype Locator = Locator(root: string, host: string, name: string)

  datatype ConnStatus = ConnStatus(port: int, state: string)

  // Connecting.

  type Connected = Result<ConnStatus, string>

  datatype Printed = Printed(cvd: Locator, status: ConnStatus)

  function Errors(results: seq<Connected>): seq<string> {
    if results == [] then []
    else Errors(results[..|results| - 1]) + (match results[|results| - 1] case Failure(e) => [e] case Success(_) => [])
  }

  function Connections(cvds: seq<Locator>, results: seq<Connected>): seq<Printed>
    requires |cvds| == |results|
  {
    if results == [] then []
    else
      var n := |results| - 1;
      Connections(cvds[..n], results[..n]) + (match results[n] case Success(st) => [Printed(cvds[n], st)] case Failure(_) => [])
  }

  ghost predicate AllReal<T>(got: seq<Received<T>>, results: seq<T>) {
    |got| == |results| && forall i :: 0 <= i < |got| ==> got[i] == Real(results[i])
  }

  /** The collecting loop of the connect command. */
  method CollectConnections(cvds: seq<Locator>, got: seq<Received<Connected>>, ghost results: seq<Connected>)
      returns (printed: seq<Printed>, merr: seq<string>)
    requires |cvds| == |got| && AllReal(got, results)
    ensures printed == Connections(cvds, results) && merr == Errors(results)
  {
    printed, merr := [], [];
    for i := 0 to |cvds|
      invariant printed == Connections(cvds[..i], results[..i]) && merr == Errors(results[..i])
    {
      assert cvds[..i + 1][..i] == cvds[..i] && results[..i + 1][..i] == results[..i];
      assert got[i] == Real(results[i]);
      match got[i].value
      case Success(status) => printed := printed + [Printed(cvds[i], status)];
      case Failure(error) => merr := merr + [error];
    }
    assert cvds[..|cvds|] == cvds && results[..|cvds|] == results;
  }

  /** In every interleaving in which the command returns, its loop sees every device's own outcome. */
  lemma ConnectSeesEveryOutcome(results: seq<Connected>, steps: seq<Step>)
    requires IsRun(Config(results, true), Init(Config(results, true)), steps)
    requires After(Config(results, true), Init(Config(results, true)), steps).returned
    ensures AllReal(After(Config(results, true), Init(Config(results, true)), steps).got, results)
  {
    ReceivesAreReal(Config(results, true), steps);
  }

  /** The error list holds exactly the errors, each at the position its device has among the failed ones. */
  lemma {:induction false} ErrorsInOrder(results: seq<Connected>, i: nat)
    requires i < |results| && results[i].Failure?
    ensures |Errors(results[..i])| < |Errors(results)| && Errors(results)[|Errors(results[..i])|] == results[i].error
    ensures |Errors(results)| <= |results|
  {
    var n := |results| - 1;
    ErrorsCount(results);
    if i < n {
      assert results[..n][..i] == results[..i];
      ErrorsInOrder(results[..n], i);
    }
  }

  lemma {:induction false} ErrorsCount(results: seq<Connected>)
    ensures |Errors(results)| == |set i | 0 <= i < |results| && results[i].Failure?|
    ensures |Errors(results)| <= |results|
  {
    if results == [] {
    } else {
      var n := |results| - 1;
      ErrorsCount(results[..n]);
      var before := set i | 0 <= i < n && results[..n][i].Failure?;
      var all := set i | 0 <= i < |results| && results[i].Failure?;
      assert all == if results[n].Failure? then before + {n} else before;
    }
  }

  /** Each connection is printed with the device it belongs to, in order, and no device is both printed and failed. */
  lemma {:induction false} ConnectionsInOrder(cvds: seq<Locator>, results: seq<Connected>, i: nat)
    requires |cvds| == |results| && i < |results| && results[i].Success?
    ensures |Connections(cvds[..i], results[..i])| < |Connections(cvds, results)|
    ensures Connections(cvds, results)[|Connections(cvds[..i], results[..i])|] == Printed(cvds[i], results[i].value)
    ensures |Connections(cvds, results)| + |Errors(results)| == |results|
  {
    var n := |results| - 1;
    EveryDeviceOnce(cvds, results);
    if i < n {
      assert cvds[..n][..i] == cvds[..i] && results[..n][..i] == results[..i];
      ConnectionsInOrder(cvds[..n], results[..n], i);
    }
  }

  lemma {:induction false} EveryDeviceOnce(cvds: seq<Locator>, results: seq<Connected>)
    requires |cvds| == |results|
    ensures |Connections(cvds, results)| + |Errors(results)| == |results|
  {
    if results == [] {
    } else {
      EveryDeviceOnce(cvds[..|results| - 1], results[..|results| - 1]);
    }
  }

  // Listing.

  datatype RemoteCvd = RemoteCvd(locator: Locator, status: Option<ConnStatus>)

  type Statuses = map<Locator, ConnStatus>

  /** What the service answers when asked for the devices of a host. */
  type Reply = Result<seq<string>, string>

  type Listing = Result<seq<RemoteCvd>, string>

  function Lookup(statuses: Statuses, l: Locator): Option<ConnStatus> {
    if l in statuses then Some(statuses[l]) else None
  }

  function ByHost(statuses: Statuses, host: string): Statuses {
    map l | l in statuses && l.host == host :: statuses[l]
  }

  function Listed(root: string, host: string, names: seq<string>, statuses: Statuses): seq<RemoteCvd> {
    seq(|names|, i requires 0 <= i < |names| =>
      RemoteCvd(Locator(root, host, names[i]), Lookup(statuses, Locator(root, host, names[i]))))
  }

  function Inner(root: string, host: string, reply: Reply, statuses: Statuses): Listing {
    match reply
    case Success(names) => Success(Listed(root, host, names, statuses))
    case Failure(e) => Failure(e)
  }

  /** The filling loop shared by both ways of listing. */
  method ListHostCVDsInner(root: string, host: string, reply: Reply, statuses: Statuses) returns (r: Listing)
    ensures r == Inner(root, host, reply, statuses)
  {
    match reply
    case Failure(e) => r := Failure(e);
    case Success(names) =>
      var ret := new RemoteCvd[|names|](_ => RemoteCvd(Locator("", "", ""), None));
      for i := 0 to |names|
        invariant ret[..i] == Listed(root, host, names, statuses)[..i]
      {
        ret[i] := RemoteCvd(Locator(root, host, names[i]), None);
        if ret[i].locator in statuses {
          ret[i] := ret[i].(status := Some(statuses[ret[i].locator]));
        }
        assert ret[..i + 1] == ret[..i] + [ret[i]];
      }
      assert ret[..] == ret[..|names|];
      assert Listed(root, host, names, statuses)[..|names|] == Listed(root, host, names, statuses);
      r := Success(ret[..]);
  }

  /**
   * An entry of the error list: from listing the connections, from listing the devices of a host, or
   * naming a host and wrapping a cause, where a nil error is None.
   */
  datatype ListError = ConnectionsError(text: string) | ServiceError(text: string) | HostFailed(host: string, wrapped: Option<string>)

  /** The underlying error that a caller can get at. */
  function Cause(e: ListError): Option<string> {
    match e
    case ConnectionsError(text) => Some(text)
    case ServiceError(text) => Some(text)
    case HostFailed(_, wrapped) => wrapped
  }

  function Causes(errs: seq<ListError>): seq<Option<string>> {
    seq(|errs|, i requires 0 <= i < |errs| => Cause(errs[i]))
  }

  function ServiceErrors(reply: Reply): seq<ListError> {
    match reply
    case Failure(e) => [ServiceError(e)]
    case Success(_) => []
  }

  /** One host on its own: its statuses are filtered by host first. */
  method ListHostCVDs(root: string, host: string, reply: Reply, statuses: Statuses, listErrs: seq<ListError>)
      returns (cvds: seq<RemoteCvd>, merr: seq<ListError>)
    ensures cvds == Devices(root, host, reply, ByHost(statuses, host))
    ensures merr == listErrs + ServiceErrors(reply)
  {
    var result := ListHostCVDsInner(root, host, reply, ByHost(statuses, host));
    cvds, merr := [], listErrs;
    match result
    case Failure(e) => merr := merr + [ServiceError(e)];
    case Success(list) => cvds := list;
  }

  function Devices(root: string, host: string, reply: Reply, statuses: Statuses): seq<RemoteCvd> {
    match Inner(root, host, reply, statuses)
    case Success(list) => list
    case Failure(_) => []
  }

  /** The simple listing of several hosts: one after the other, filtered each, glued in host order. */
  function SimpleListing(root: string, hosts: seq<string>, service: string -> Reply, statuses: Statuses): seq<RemoteCvd> {
    if hosts == [] then []
    else
      var n := |hosts| - 1;
      SimpleListing(root, hosts[..n], service, statuses) + Devices(root, hosts[n], service(hosts[n]), ByHost(statuses, hosts[n]))
  }

  /** The errors of listing the hosts one after the other. */
  function SimpleErrors(hosts: seq<string>, service: string -> Reply): seq<ListError> {
    if hosts == [] then []
    else
      var n := |hosts| - 1;
      SimpleErrors(hosts[..n], service) + ServiceErrors(service(hosts[n]))
  }

  /** The errors of the concurrent listing: each failed host, and never what it failed with. */
  function FastErrors(hosts: seq<string>, service: string -> Reply): seq<ListError> {
    if hosts == [] then []
    else
      var n := |hosts| - 1;
      FastErrors(hosts[..n], service) + (if service(hosts[n]).Failure? then [HostFailed(hosts[n], None)] else [])
  }

  /** Filtering by host never changes a lookup by full locator on that host. */
  lemma FilterKeepsLookups(root: string, host: string, reply: Reply, statuses: Statuses)
    ensures Inner(root, host, reply, ByHost(statuses, host)) == Inner(root, host, reply, statuses)
  {
    forall names
      ensures Listed(root, host, names, ByHost(statuses, host)) == Listed(root, host, names, statuses)
    {
      assert forall i :: 0 <= i < |names| ==>
          Listed(root, host, names, ByHost(statuses, host))[i] == Listed(root, host, names, statuses)[i];
    }
  }

  lemma {:induction false} ListingGrows(root: string, hosts: seq<string>, service: string -> Reply, statuses: Statuses, m: nat)
    requires m <= |hosts|
    ensures SimpleListing(root, hosts[..m], service, statuses) <= SimpleListing(root, hosts, service, statuses)
    decreases |hosts|
  {
    if m == |hosts| {
      assert hosts[..m] == hosts;
    } else {
      var n := |hosts| - 1;
      assert hosts[..n][..m] == hosts[..m];
      ListingGrows(root, hosts[..n], service, statuses, m);
    }
  }

  lemma NextHost(root: string, hosts: seq<string>, service: string -> Reply, statuses: Statuses, i: nat)
    requires i < |hosts|
    ensures SimpleListing(root, hosts[..i + 1], service, statuses) ==
              SimpleListing(root, hosts[..i], service, statuses) + Devices(root, hosts[i], service(hosts[i]), ByHost(statuses, hosts[i]))
  {
    assert hosts[..i + 1][..i] == hosts[..i];
  }

  lemma DeviceAt(root: string, host: string, names: seq<string>, statuses: Statuses, j: nat)
    requires j < |names|
    ensures |Devices(root, host, Success(names), ByHost(statuses, host))| == |names|
    ensures var l := Locator(root, host, names[j]);
            Devices(root, host, Success(names), ByHost(statuses, host))[j] == RemoteCvd(l, if l in statuses then Some(statuses[l]) else None)
  {
  }

  /**
   * Where each device is in the listing, and with which status: the devices of a host follow those of
   * the hosts before it, in the order the service gives, each with the status its full locator has.
   */
  lemma ListingAt(root: string, hosts: seq<string>, service: string -> Reply, statuses: Statuses, i: nat, names: seq<string>, j: nat)
    requires i < |hosts| && service(hosts[i]) == Success(names) && j < |names|
    ensures var before := |SimpleListing(root, hosts[..i], service, statuses)|;
            var l := Locator(root, hosts[i], names[j]);
            && |SimpleListing(root, hosts[..i + 1], service, statuses)| == before + |names| <= |SimpleListing(root, hosts, service, statuses)|
            && SimpleListing(root, hosts, service, statuses)[before + j] == RemoteCvd(l, if l in statuses then Some(statuses[l]) else None)
  {
    NextHost(root, hosts, service, statuses, i);
    ListingGrows(root, hosts, service, statuses, i + 1);
    DeviceAt(root, hosts[i], names, statuses, j);
  }

  /** A host that fails, or has no devices, adds nothing. */
  lemma HostWithoutDevices(root: string, hosts: seq<string>, service: string -> Reply, statuses: Statuses, i: nat)
    requires i < |hosts| && (service(hosts[i]).Failure? || service(hosts[i]) == Success([]))
    ensures SimpleListing(root, hosts[..i + 1], service, statuses) == SimpleListing(root, hosts[..i], service, statuses)
  {
    NextHost(root, hosts, service, statuses, i);
  }

  /** What the goroutine of each host computes, all over the one status map. */
  ghost function FastResults(root: string, hosts: seq<string>, service: string -> Reply, statuses: Statuses): seq<Listing> {
    seq(|hosts|, i requires 0 <= i < |hosts| => Inner(root, hosts[i], service(hosts[i]), statuses))
  }

  /**
   * The collecting loop of the concurrent listing. The error it wraps for a failed host is `err`,
   * which is ListHosts's and nil by then, not the host's own.
   */
  method CollectListings(root: string, hosts: seq<string>, got: seq<Received<Listing>>, listErrs: seq<ListError>,
                         ghost service: string -> Reply, ghost statuses: Statuses)
      returns (cvds: seq<RemoteCvd>, merr: seq<ListError>)
    requires |got| == |hosts| && AllReal(got, FastResults(root, hosts, service, statuses))
    ensures cvds == SimpleListing(root, hosts, service, statuses)
    ensures merr == listErrs + FastErrors(hosts, service)
  {
    var err: Option<string> := None;
    cvds, merr := [], listErrs;
    for i := 0 to |hosts|
      invariant cvds == SimpleListing(root, hosts[..i], service, statuses)
      invariant merr == listErrs + FastErrors(hosts[..i], service)
    {
      assert hosts[..i + 1][..i] == hosts[..i];
      assert got[i] == Real(FastResults(root, hosts, service, statuses)[i]);
      FilterKeepsLookups(root, hosts[i], service(hosts[i]), statuses);
      match got[i].value
      case Failure(_) => merr := merr + [HostFailed(hosts[i], err)];
      case Success(list) => cvds := cvds + list;
    }
    assert hosts[..|hosts|] == hosts;
  }

  predicate Fails(service: string -> Reply, host: string) {
    service(host).Failure?
  }

  predicate AnyFails(hosts: seq<string>, service: string -> Reply) {
    exists i :: 0 <= i < |hosts| && Fails(service, hosts[i])
  }

  /** Both ways report an error for the same hosts; the simple one has a cause for each, the concurrent one for none. */
  lemma {:induction false} ErrorsOfHosts(hosts: seq<string>, service: string -> Reply, k: nat)
    ensures |FastErrors(hosts, service)| == |SimpleErrors(hosts, service)|
    ensures k < |FastErrors(hosts, service)| ==>
              Cause(FastErrors(hosts, service)[k]).None? && Cause(SimpleErrors(hosts, service)[k]).Some?
  {
    if hosts == [] {
    } else {
      ErrorsOfHosts(hosts[..|hosts| - 1], service, k);
    }
  }

  lemma {:induction false} ErrorsIffAnyFails(hosts: seq<string>, service: string -> Reply)
    ensures AnyFails(hosts, service) <==> FastErrors(hosts, service) != []
  {
    if hosts == [] {
    } else {
      var n := |hosts| - 1;
      ErrorsIffAnyFails(hosts[..n], service);
      AnyFailsSnoc(hosts[..n], hosts[n], service);
      assert hosts[..n] + [hosts[n]] == hosts;
      assert FastErrors(hosts, service) == FastErrors(hosts[..n], service) + (if Fails(service, hosts[n]) then [HostFailed(hosts[n], None)] else []);
    }
  }

  lemma AnyFailsSnoc(hosts: seq<string>, host: string, service: string -> Reply)
    ensures AnyFails(hosts + [host], service) <==> AnyFails(hosts, service) || Fails(service, host)
  {
    var all := hosts + [host];
    assert all[|hosts|] == host;
    if i :| 0 <= i < |hosts| && Fails(service, hosts[i]) {
      assert Fails(service, all[i]);
    }
  }

  /**
   * The concurrent listing reports the errors the simple one reports, in the same order, exactly when
   * no host fails: of a failed host it loses the cause.
   */
  lemma ErrorsAgreeOnlyWithoutFailure(hosts: seq<string>, service: string -> Reply, listErrs: seq<ListError>)
    ensures Causes(listErrs + FastErrors(hosts, service)) == Causes(listErrs + SimpleErrors(hosts, service))
            <==> !AnyFails(hosts, service)
  {
    ErrorsOfHosts(hosts, service, 0);
    ErrorsIffAnyFails(hosts, service);
    var fast, simple := listErrs + FastErrors(hosts, service), listErrs + SimpleErrors(hosts, service);
    if AnyFails(hosts, service) {
      assert fast[|listErrs|] == FastErrors(hosts, service)[0] && simple[|listErrs|] == SimpleErrors(hosts, service)[0];
      assert Causes(fast)[|listErrs|] != Causes(simple)[|listErrs|];
    }
  }

  /** One host that fails is enough: of what it failed with nothing is left. */
  lemma CauseIsLost(host: string, text: string)
    ensures var service: string -> Reply := _ => Failure(text);
            && Causes(SimpleErrors([host], service)) == [Some(text)]
            && Causes(FastErrors([host], service)) == [None]
  {
    assert [host][..0] == [];
  }

  /**
   * In every interleaving in which the concurrent listing returns, its loop collects what
   * `CollectListings` turns into the simple listing.
   */
  lemma ListingSeesEveryHost(root: string, hosts: seq<string>, service: string -> Reply, statuses: Statuses, steps: seq<Step>)
    requires var cfg := Config(FastResults(root, hosts, service, statuses), false);
             IsRun(cfg, Init(cfg), steps) && After(cfg, Init(cfg), steps).returned
    ensures var cfg := Config(FastResults(root, hosts, service, statuses), false);
            AllReal(After(cfg, Init(cfg), steps).got, cfg.results)
  {
    ReceivesAreReal(Config(FastResults(root, hosts, service, statuses), false), steps);
  }
}
