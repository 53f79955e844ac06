/** The page's store: actions folded into a state by reducers. */
module PageStore {
  import opened Wrappers
  import opened Lists

  datatype RuntimeStatus = RuntimeValid | RuntimeError | RuntimeLoading

  datatype HostStatus = HostStarting | HostRunning | HostStopping | HostError | HostLoading

  datatype EnvStatus = EnvStarting | EnvRunning | EnvStopping | EnvError

  datatype ViewStatus = ViewInitializing | ViewRefreshing | ViewRegistering | ViewRegisterError | ViewDone

  datatype Runtime = Runtime(alias: string, url: string, status: RuntimeStatus)

  datatype Host = Host(name: string, zone: Option<string>, url: Option<string>, runtime: string, status: HostStatus)

  datatype Env = Env(runtimeAlias: string, hostUrl: string, groupName: string, devices: seq<string>, status: EnvStatus)

  datatype Wait =
    | HostCreateWait(waitUrl: string, zone: string, runtimeAlias: string)
    | HostDeleteWait(waitUrl: string, hostUrl: string)
    | EnvCreateWait(waitUrl: string, hostUrl: string, groupName: string, runtimeAlias: string, devices: seq<string>)

  datatype AppState = AppState(
    runtimes: seq<Runtime>, hosts: seq<Host>, envs: seq<Env>, loadStatus: ViewStatus, waits: map<string, Wait>)

  const INITIAL_STATE := AppState([], [], [], ViewInitializing, map[])

  datatype Action =
    | Init
    | RefreshStart
    | RefreshComplete
    | RuntimeInit
    | RuntimeLoad(runtime: Runtime)
    | RuntimeRegisterStart
    | RuntimeRegisterComplete(runtime: Runtime)
    | RuntimeRegisterError
    | RuntimeUnregister(alias: string)
    | HostLoad(host: Host)
    | HostCreateStart(wait: Wait)
    | HostCreateComplete(waitUrl: string, host: Host)
    | HostCreateError
    | HostDeleteStart(wait: Wait)
    | HostDeleteComplete(waitUrl: string)
    | HostDeleteError
    | EnvLoad(env: Env)
    | EnvCreateStart(wait: Wait)
    | EnvCreateComplete(waitUrl: string, env: Env)
    | EnvCreateError

  datatype EnvKey = EnvKey(hostUrl: string, groupName: string)

  function HostKeyOf(h: Host): Option<string> {
    h.url
  }

  function EnvKeyOf(e: Env): EnvKey {
    EnvKey(e.hostUrl, e.groupName)
  }

  function HostNotOf(alias: string): Host -> bool {
    (h: Host) => h.runtime != alias
  }

  function EnvNotOf(alias: string): Env -> bool {
    (e: Env) => e.runtimeAlias != alias
  }

  function HostNotAt(url: string): Host -> bool {
    (h: Host) => h.url != Some(url)
  }

  function EnvNotAt(url: string): Env -> bool {
    (e: Env) => e.hostUrl != url
  }

  function RuntimeNotNamed(alias: string): Runtime -> bool {
    (r: Runtime) => r.alias != alias
  }

  /**
   * The reducer of an action applied to a state. It fails where the code throws: completing a host
   * deletion that nothing waits for reads the metadata of undefined.
   */
  function Match(a: Action, s: AppState): Option<AppState> {
    match a
    case Init => Some(INITIAL_STATE)
    case RefreshStart => Some(s.(loadStatus := ViewRefreshing, runtimes := [], hosts := [], envs := []))
    case RefreshComplete => Some(s.(loadStatus := ViewDone))
    case RuntimeLoad(r) => Some(s.(runtimes := s.runtimes + [r]))
    case HostLoad(h) => Some(if HasKey(HostKeyOf, s.hosts, h.url) then s else s.(hosts := s.hosts + [h]))
    case EnvLoad(e) => Some(if HasKey(EnvKeyOf, s.envs, EnvKeyOf(e)) then s else s.(envs := s.envs + [e]))
    case RuntimeRegisterStart => Some(s.(loadStatus := ViewRegistering))
    case RuntimeRegisterComplete(r) => Some(s.(loadStatus := ViewDone, runtimes := s.runtimes + [r]))
    case RuntimeRegisterError => Some(s.(loadStatus := ViewRegisterError))
    case RuntimeUnregister(alias) =>
      Some(s.(runtimes := Filter(RuntimeNotNamed(alias), s.runtimes),
              hosts := Filter(HostNotOf(alias), s.hosts),
              envs := Filter(EnvNotOf(alias), s.envs)))
    case EnvCreateStart(w) => Some(s.(waits := s.waits[w.waitUrl := w]))
    case EnvCreateComplete(u, e) =>
      Some(s.(envs := if HasKey(EnvKeyOf, s.envs, EnvKeyOf(e)) then s.envs else s.envs + [e],
              waits := s.waits - {u}))
    case HostCreateStart(w) => Some(s.(waits := s.waits[w.waitUrl := w]))
    case HostCreateComplete(u, h) =>
      Some(s.(hosts := if HasKey(HostKeyOf, s.hosts, h.url) then s.hosts else s.hosts + [h],
              waits := s.waits - {u}))
    case HostDeleteStart(w) => Some(s.(waits := s.waits[w.waitUrl := w]))
    case HostDeleteComplete(u) =>
      if u !in s.waits then None
      else if !s.waits[u].HostDeleteWait? then Some(s)
      else Some(s.(hosts := Filter(HostNotAt(s.waits[u].hostUrl), s.hosts),
                   envs := Filter(EnvNotAt(s.waits[u].hostUrl), s.envs),
                   waits := s.waits - {u}))
    case RuntimeInit => Some(s)
    case HostCreateError => Some(s)
    case HostDeleteError => Some(s)
    case EnvCreateError => Some(s)
  }

  /** The store's scan: the actions in order; a reducer that throws ends the stream. */
  function Fold(actions: seq<Action>, s: AppState): Option<AppState> {
    if actions == [] then Some(s)
    else match Match(actions[0], s)
         case None => None
         case Some(t) => Fold(actions[1..], t)
  }

  ghost predicate StoreInv(s: AppState) {
    && Distinct(HostKeyOf, s.hosts)
    && Distinct(EnvKeyOf, s.envs)
    && (forall u :: u in s.waits ==> s.waits[u].waitUrl == u)
  }

  lemma MatchKeepsInv(a: Action, s: AppState)
    requires StoreInv(s) && Match(a, s).Some?
    ensures StoreInv(Match(a, s).value)
  {
    match a
    case HostLoad(h) => InsertKeepsDistinct(HostKeyOf, s.hosts, h);
    case EnvLoad(e) => InsertKeepsDistinct(EnvKeyOf, s.envs, e);
    case RuntimeUnregister(alias) =>
      FilterDistinct(HostNotOf(alias), HostKeyOf, s.hosts);
      FilterDistinct(EnvNotOf(alias), EnvKeyOf, s.envs);
    case EnvCreateComplete(_, e) => InsertKeepsDistinct(EnvKeyOf, s.envs, e);
    case HostCreateComplete(_, h) => InsertKeepsDistinct(HostKeyOf, s.hosts, h);
    case HostDeleteComplete(u) =>
      if s.waits[u].HostDeleteWait? {
        FilterDistinct(HostNotAt(s.waits[u].hostUrl), HostKeyOf, s.hosts);
        FilterDistinct(EnvNotAt(s.waits[u].hostUrl), EnvKeyOf, s.envs);
      }
    case _ =>
  }

  /**
   * In every state the store reaches, no two hosts have the same URL, no two environments the same
   * host and group, and every wait is filed under its own URL.
   */
  lemma {:induction false} FoldKeepsInv(actions: seq<Action>, s: AppState)
    requires StoreInv(s) && Fold(actions, s).Some?
    ensures StoreInv(Fold(actions, s).value)
  {
    if actions == [] {
    } else {
      MatchKeepsInv(actions[0], s);
      FoldKeepsInv(actions[1..], Match(actions[0], s).value);
    }
  }

  /** The k-th action completes a host deletion that nothing waits for at that point. */
  ghost predicate StrayDelete(actions: seq<Action>, s: AppState, k: nat) {
    && k < |actions| && actions[k].HostDeleteComplete?
    && Fold(actions[..k], s).Some? && actions[k].waitUrl !in Fold(actions[..k], s).value.waits
  }

  /** The stream dies exactly when some action completes a host deletion that nothing waits for. */
  lemma {:induction false} FoldFailsOnlyOnStrayDelete(actions: seq<Action>, s: AppState)
    ensures Fold(actions, s).None? <==> exists k: nat :: StrayDelete(actions, s, k)
  {
    if actions == [] {
    } else {
      assert StrayDelete(actions, s, 0) <==> Match(actions[0], s).None?;
      match Match(actions[0], s)
      case None =>
      case Some(t) =>
        FoldFailsOnlyOnStrayDelete(actions[1..], t);
        forall k: nat
          ensures StrayDelete(actions, s, k + 1) <==> StrayDelete(actions[1..], t, k)
        {
          if k < |actions[1..]| {
            assert actions[..k + 1][1..] == actions[1..][..k];
          }
        }
        forall k: nat | StrayDelete(actions, s, k)
          ensures exists j: nat :: StrayDelete(actions[1..], t, j)
        {
          assert StrayDelete(actions[1..], t, k - 1);
        }
    }
  }

  lemma StoreInvariant(actions: seq<Action>)
    requires Fold(actions, INITIAL_STATE).Some?
    ensures StoreInv(Fold(actions, INITIAL_STATE).value)
  {
    FoldKeepsInv(actions, INITIAL_STATE);
  }

  // Runtimes and the load status over a run.

  ghost predicate Adds(a: Action, r: Runtime) {
    (a.RuntimeLoad? || a.RuntimeRegisterComplete?) && a.runtime == r
  }

  ghost predicate Drops(a: Action, r: Runtime) {
    a.Init? || a.RefreshStart? || (a.RuntimeUnregister? && a.alias == r.alias)
  }

  /** No action from position `i` on drops the runtime. */
  ghost predicate KeptFrom(actions: seq<Action>, i: nat, r: Runtime) {
    forall j :: i <= j < |actions| ==> !Drops(actions[j], r)
  }

  lemma RuntimeStep(a: Action, s: AppState, r: Runtime)
    requires Match(a, s).Some?
    ensures r in Match(a, s).value.runtimes <==> (r in s.runtimes && !Drops(a, r)) || Adds(a, r)
  {
    if a.RuntimeUnregister? {
      FilterMember(RuntimeNotNamed(a.alias), s.runtimes, r);
    }
  }

  /** A runtime is listed exactly when it was there or added, and no later refresh or unregistration dropped it. */
  lemma {:induction false} RuntimesListed(actions: seq<Action>, s: AppState, r: Runtime)
    requires Fold(actions, s).Some?
    ensures r in Fold(actions, s).value.runtimes <==>
              (r in s.runtimes && KeptFrom(actions, 0, r)) ||
              exists i: nat :: i < |actions| && Adds(actions[i], r) && KeptFrom(actions, i + 1, r)
  {
    if actions == [] {
    } else {
      var t := Match(actions[0], s).value;
      var rest := actions[1..];
      RuntimeStep(actions[0], s, r);
      RuntimesListed(rest, t, r);
      forall i: nat
        ensures KeptFrom(rest, i, r) <==> KeptFrom(actions, i + 1, r)
      {
        assert forall j :: i <= j < |rest| ==> rest[j] == actions[j + 1];
        assert forall j :: i + 1 <= j < |actions| ==> actions[j] == rest[j - 1];
      }
      assert KeptFrom(actions, 0, r) <==> !Drops(actions[0], r) && KeptFrom(actions, 1, r);
      if i: nat :| i < |rest| && Adds(rest[i], r) && KeptFrom(rest, i + 1, r) {
        assert Adds(actions[i + 1], r) && KeptFrom(actions, i + 2, r);
      }
      if i: nat :| i < |actions| && Adds(actions[i], r) && KeptFrom(actions, i + 1, r) {
        if i > 0 {
          assert Adds(rest[i - 1], r) && KeptFrom(rest, i, r);
        }
      }
    }
  }

  function StatusOf(a: Action): Option<ViewStatus> {
    match a
    case Init => Some(ViewInitializing)
    case RefreshStart => Some(ViewRefreshing)
    case RefreshComplete => Some(ViewDone)
    case RuntimeRegisterStart => Some(ViewRegistering)
    case RuntimeRegisterComplete(_) => Some(ViewDone)
    case RuntimeRegisterError => Some(ViewRegisterError)
    case _ => None
  }

  /** The load status is the one the last action with a status gave it. */
  lemma {:induction false} StatusIsTheLast(actions: seq<Action>, s: AppState, i: nat)
    requires Fold(actions, s).Some? && i <= |actions|
    requires forall j :: i <= j < |actions| ==> StatusOf(actions[j]).None?
    requires 0 < i ==> StatusOf(actions[i - 1]).Some?
    ensures Fold(actions, s).value.loadStatus == if i == 0 then s.loadStatus else StatusOf(actions[i - 1]).value
  {
    if actions == [] {
    } else {
      var t := Match(actions[0], s).value;
      assert t.loadStatus == if StatusOf(actions[0]).Some? then StatusOf(actions[0]).value else s.loadStatus;
      StatusIsTheLast(actions[1..], t, if i == 0 then 0 else i - 1);
    }
  }

  // The lists as maps in which the first writer wins.

  function ToMap<T, K(==)>(key: T -> K, xs: seq<T>): map<K, T> {
    if xs == [] then map[]
    else FirstWins(key, ToMap(key, xs[..|xs| - 1]), xs[|xs| - 1])
  }

  function FirstWins<T, K(==)>(key: T -> K, m: map<K, T>, x: T): map<K, T> {
    if key(x) in m then m else m[key(x) := x]
  }

  datatype Model = Model(hosts: map<Option<string>, Host>, envs: map<EnvKey, Env>, waits: map<string, Wait>)

  function Abstract(s: AppState): Model {
    Model(ToMap(HostKeyOf, s.hosts), ToMap(EnvKeyOf, s.envs), s.waits)
  }

  /** What each action means for the maps. */
  function ModelMatch(a: Action, m: Model): Model {
    match a
    case Init => Model(map[], map[], map[])
    case RefreshStart => m.(hosts := map[], envs := map[])
    case HostLoad(h) => m.(hosts := FirstWins(HostKeyOf, m.hosts, h))
    case EnvLoad(e) => m.(envs := FirstWins(EnvKeyOf, m.envs, e))
    case RuntimeUnregister(alias) =>
      m.(hosts := map k | k in m.hosts && m.hosts[k].runtime != alias :: m.hosts[k],
         envs := map k | k in m.envs && m.envs[k].runtimeAlias != alias :: m.envs[k])
    case EnvCreateStart(w) => m.(waits := m.waits[w.waitUrl := w])
    case HostCreateStart(w) => m.(waits := m.waits[w.waitUrl := w])
    case HostDeleteStart(w) => m.(waits := m.waits[w.waitUrl := w])
    case EnvCreateComplete(u, e) => m.(envs := FirstWins(EnvKeyOf, m.envs, e), waits := m.waits - {u})
    case HostCreateComplete(u, h) => m.(hosts := FirstWins(HostKeyOf, m.hosts, h), waits := m.waits - {u})
    case HostDeleteComplete(u) =>
      if u in m.waits && m.waits[u].HostDeleteWait? then
        var url := m.waits[u].hostUrl;
        Model(m.hosts - {Some(url)}, map k | k in m.envs && k.hostUrl != url :: m.envs[k], m.waits - {u})
      else m
    case _ => m
  }

  /** The map has an entry for exactly the elements of a list without repeated keys. */
  lemma {:induction false} ToMapEntry<T, K>(key: T -> K, xs: seq<T>, k: K, x: T)
    requires Distinct(key, xs)
    ensures (k in ToMap(key, xs) && ToMap(key, xs)[k] == x) <==> (x in xs && key(x) == k)
  {
    if xs == [] {
    } else {
      var n := |xs| - 1;
      ToMapEntry(key, xs[..n], k, x);
      assert xs == xs[..n] + [xs[n]];
      if key(xs[n]) in ToMap(key, xs[..n]) {
        ToMapEntry(key, xs[..n], key(xs[n]), ToMap(key, xs[..n])[key(xs[n])]);
        assert false;
      }
    }
  }

  lemma ToMapKey<T, K>(key: T -> K, xs: seq<T>, k: K)
    requires Distinct(key, xs)
    ensures k in ToMap(key, xs) <==> HasKey(key, xs, k)
    ensures k in ToMap(key, xs) ==> ToMap(key, xs)[k] in xs && key(ToMap(key, xs)[k]) == k
  {
    if k in ToMap(key, xs) {
      var x := ToMap(key, xs)[k];
      ToMapEntry(key, xs, k, x);
      var i :| 0 <= i < |xs| && xs[i] == x;
    }
    if HasKey(key, xs, k) {
      var i :| 0 <= i < |xs| && key(xs[i]) == k;
      ToMapEntry(key, xs, k, xs[i]);
    }
  }

  lemma ToMapInsert<T, K>(key: T -> K, xs: seq<T>, x: T)
    requires Distinct(key, xs)
    ensures ToMap(key, Insert(key, xs, x)) == FirstWins(key, ToMap(key, xs), x)
  {
    ToMapKey(key, xs, key(x));
    var ys := xs + [x];
    assert ys[..|ys| - 1] == xs && ys[|ys| - 1] == x;
  }

  lemma ToMapFilter<T, K>(p: T -> bool, key: T -> K, xs: seq<T>)
    requires Distinct(key, xs)
    ensures ToMap(key, Filter(p, xs)) == map k | k in ToMap(key, xs) && p(ToMap(key, xs)[k]) :: ToMap(key, xs)[k]
  {
    var ys := Filter(p, xs);
    FilterDistinct(p, key, xs);
    forall k | k in ToMap(key, ys)
      ensures k in ToMap(key, xs) && p(ToMap(key, xs)[k]) && ToMap(key, xs)[k] == ToMap(key, ys)[k]
    {
      var y := ToMap(key, ys)[k];
      ToMapEntry(key, ys, k, y);
      FilterMember(p, xs, y);
      ToMapEntry(key, xs, k, y);
    }
    forall k | k in ToMap(key, xs) && p(ToMap(key, xs)[k])
      ensures k in ToMap(key, ys)
    {
      var x := ToMap(key, xs)[k];
      ToMapEntry(key, xs, k, x);
      FilterMember(p, xs, x);
      ToMapEntry(key, ys, k, x);
    }
  }

  lemma UnregisterRefines(s: AppState, alias: string)
    requires StoreInv(s)
    ensures Abstract(Match(RuntimeUnregister(alias), s).value) == ModelMatch(RuntimeUnregister(alias), Abstract(s))
  {
    ToMapFilter(HostNotOf(alias), HostKeyOf, s.hosts);
    ToMapFilter(EnvNotOf(alias), EnvKeyOf, s.envs);
  }

  lemma HostsWithout(hosts: seq<Host>, url: string)
    requires Distinct(HostKeyOf, hosts)
    ensures ToMap(HostKeyOf, Filter(HostNotAt(url), hosts)) == ToMap(HostKeyOf, hosts) - {Some(url)}
  {
    ToMapFilter(HostNotAt(url), HostKeyOf, hosts);
    var m := ToMap(HostKeyOf, hosts);
    forall k | k in m
      ensures m[k].url == k
    {
      ToMapKey(HostKeyOf, hosts, k);
    }
  }

  lemma EnvsWithout(envs: seq<Env>, url: string)
    requires Distinct(EnvKeyOf, envs)
    ensures var m := ToMap(EnvKeyOf, envs);
            ToMap(EnvKeyOf, Filter(EnvNotAt(url), envs)) == map k | k in m && k.hostUrl != url :: m[k]
  {
    ToMapFilter(EnvNotAt(url), EnvKeyOf, envs);
    var m := ToMap(EnvKeyOf, envs);
    forall k | k in m
      ensures m[k].hostUrl == k.hostUrl
    {
      ToMapKey(EnvKeyOf, envs, k);
    }
  }

  lemma DeleteRefines(s: AppState, u: string)
    requires StoreInv(s) && u in s.waits && s.waits[u].HostDeleteWait?
    ensures Abstract(Match(HostDeleteComplete(u), s).value) == ModelMatch(HostDeleteComplete(u), Abstract(s))
  {
    HostsWithout(s.hosts, s.waits[u].hostUrl);
    EnvsWithout(s.envs, s.waits[u].hostUrl);
  }

  /** Every reducer does to the maps what the action means: the lists refine first-writer-wins maps. */
  lemma MatchRefinesModel(a: Action, s: AppState)
    requires StoreInv(s) && Match(a, s).Some?
    ensures Abstract(Match(a, s).value) == ModelMatch(a, Abstract(s))
  {
    match a
    case HostLoad(h) => ToMapInsert(HostKeyOf, s.hosts, h);
    case EnvLoad(e) => ToMapInsert(EnvKeyOf, s.envs, e);
    case EnvCreateComplete(_, e) => ToMapInsert(EnvKeyOf, s.envs, e);
    case HostCreateComplete(_, h) => ToMapInsert(HostKeyOf, s.hosts, h);
    case RuntimeUnregister(alias) => UnregisterRefines(s, alias);
    case HostDeleteComplete(u) =>
      if s.waits[u].HostDeleteWait? {
        DeleteRefines(s, u);
      }
    case _ =>
  }

  function ModelFold(actions: seq<Action>, m: Model): Model {
    if actions == [] then m else ModelFold(actions[1..], ModelMatch(actions[0], m))
  }

  /** The refinement over whole runs. */
  lemma {:induction false} FoldRefinesModel(actions: seq<Action>, s: AppState)
    requires StoreInv(s) && Fold(actions, s).Some?
    ensures Abstract(Fold(actions, s).value) == ModelFold(actions, Abstract(s))
  {
    if actions == [] {
    } else {
      MatchKeepsInv(actions[0], s);
      MatchRefinesModel(actions[0], s);
      FoldRefinesModel(actions[1..], Match(actions[0], s).value);
    }
  }
}
