/** What the page's store holds, read off the actions that led to it. */
module PageHistory {
  import opened Wrappers
  import opened Lists
  import opened PageStore
  import opened PageCards

  /** The store before the j-th action. */
  ghost function Before(actions: seq<Action>, s: AppState, j: nat): AppState
    requires j <= |actions|
  {
    if Fold(actions[..j], s).Some? then Fold(actions[..j], s).value else s
  }

  /** From position `i` on no action takes the thing away, each judged on the store it finds. */
  ghost predicate KeptSince(drops: (Action, AppState) -> bool, actions: seq<Action>, s: AppState, i: nat) {
    forall j: nat :: i <= j < |actions| ==> !drops(actions[j], Before(actions, s, j))
  }

  /** The i-th action brings the thing, and it is kept since. */
  ghost predicate BroughtAt(brings: (Action, AppState) -> bool, drops: (Action, AppState) -> bool, actions: seq<Action>, s: AppState, i: nat) {
    i < |actions| && brings(actions[i], Before(actions, s, i)) && KeptSince(drops, actions, s, i + 1)
  }

  lemma BeforeShift(actions: seq<Action>, s: AppState, j: nat)
    requires actions != [] && Fold(actions, s).Some? && j < |actions|
    ensures Match(actions[0], s).Some?
    ensures Before(actions[1..], Match(actions[0], s).value, j) == Before(actions, s, j + 1)
  {
    assert actions[..j + 1][0] == actions[0] && actions[..j + 1][1..] == actions[1..][..j];
    PrefixFolds(actions, s, j + 1);
  }

  lemma {:induction false} PrefixFolds(actions: seq<Action>, s: AppState, j: nat)
    requires Fold(actions, s).Some? && j <= |actions|
    ensures Fold(actions[..j], s).Some?
    decreases j
  {
    if j == 0 {
      assert actions[..0] == [];
    } else {
      assert actions[..j][0] == actions[0] && actions[..j][1..] == actions[1..][..j - 1];
      PrefixFolds(actions[1..], Match(actions[0], s).value, j - 1);
    }
  }

  lemma KeptShift(drops: (Action, AppState) -> bool, actions: seq<Action>, s: AppState, i: nat)
    requires actions != [] && Fold(actions, s).Some?
    ensures Match(actions[0], s).Some?
    ensures KeptSince(drops, actions[1..], Match(actions[0], s).value, i) <==> KeptSince(drops, actions, s, i + 1)
  {
    var rest, t := actions[1..], Match(actions[0], s).value;
    forall j: nat | j < |rest|
      ensures rest[j] == actions[j + 1] && Before(rest, t, j) == Before(actions, s, j + 1)
    {
      BeforeShift(actions, s, j);
    }
    if KeptSince(drops, rest, t, i) {
      forall j: nat | i + 1 <= j < |actions|
        ensures !drops(actions[j], Before(actions, s, j))
      {
        assert !drops(rest[j - 1], Before(rest, t, j - 1));
      }
    }
    if KeptSince(drops, actions, s, i + 1) {
      forall j: nat | i <= j < |rest|
        ensures !drops(rest[j], Before(rest, t, j))
      {
        assert !drops(actions[j + 1], Before(actions, s, j + 1));
      }
    }
  }

  lemma BroughtShift(brings: (Action, AppState) -> bool, drops: (Action, AppState) -> bool, actions: seq<Action>, s: AppState, i: nat)
    requires actions != [] && Fold(actions, s).Some?
    ensures Match(actions[0], s).Some?
    ensures BroughtAt(brings, drops, actions[1..], Match(actions[0], s).value, i) <==> BroughtAt(brings, drops, actions, s, i + 1)
  {
    KeptShift(drops, actions, s, i + 1);
    if i < |actions| - 1 {
      BeforeShift(actions, s, i);
    }
  }

  /**
   * If each single action leaves the thing there exactly when it brings it, or found it and does not
   * drop it, then after any run it is there exactly when it was at first and was kept throughout, or
   * some action brought it and it was kept since.
   */
  lemma {:induction false} ThereIffBrought(there: AppState -> bool, brings: (Action, AppState) -> bool, drops: (Action, AppState) -> bool,
                                           actions: seq<Action>, s: AppState)
    requires forall a, t | Match(a, t).Some? :: there(Match(a, t).value) <==> brings(a, t) || (there(t) && !drops(a, t))
    requires Fold(actions, s).Some?
    ensures there(Fold(actions, s).value) <==>
              (there(s) && KeptSince(drops, actions, s, 0)) || exists i: nat :: BroughtAt(brings, drops, actions, s, i)
  {
    if actions == [] {
    } else {
      var t := Match(actions[0], s).value;
      var rest := actions[1..];
      ThereIffBrought(there, brings, drops, rest, t);
      KeptShift(drops, actions, s, 0);
      FirstAction(brings, drops, actions, s);
      if i: nat :| BroughtAt(brings, drops, rest, t, i) {
        BroughtShift(brings, drops, actions, s, i);
      }
      if i: nat :| BroughtAt(brings, drops, actions, s, i) && 0 < i {
        BroughtShift(brings, drops, actions, s, i - 1);
      }
    }
  }

  lemma FirstAction(brings: (Action, AppState) -> bool, drops: (Action, AppState) -> bool, actions: seq<Action>, s: AppState)
    requires actions != []
    ensures KeptSince(drops, actions, s, 0) <==> !drops(actions[0], s) && KeptSince(drops, actions, s, 1)
    ensures BroughtAt(brings, drops, actions, s, 0) <==> brings(actions[0], s) && KeptSince(drops, actions, s, 1)
  {
    assert actions[..0] == [];
    assert Before(actions, s, 0) == s;
  }

  // Waits.

  predicate Starts(a: Action, w: Wait) {
    (a.EnvCreateStart? || a.HostCreateStart? || a.HostDeleteStart?) && a.wait == w
  }

  /** The action is about the URL: another start, a completion, or a fresh beginning. */
  predicate Unfiles(a: Action, u: string, w: Wait) {
    match a
    case Init => true
    case EnvCreateStart(v) => v.waitUrl == u
    case HostCreateStart(v) => v.waitUrl == u
    case HostDeleteStart(v) => v.waitUrl == u
    case EnvCreateComplete(v, _) => v == u
    case HostCreateComplete(v, _) => v == u
    case HostDeleteComplete(v) => v == u && w.HostDeleteWait?
    case _ => false
  }

  function FiledAs(u: string, w: Wait): AppState -> bool {
    (s: AppState) => u in s.waits && s.waits[u] == w
  }

  function FilesAs(u: string, w: Wait): (Action, AppState) -> bool {
    (a: Action, s: AppState) => Starts(a, w) && w.waitUrl == u
  }

  function UnfilesAs(u: string, w: Wait): (Action, AppState) -> bool {
    (a: Action, s: AppState) => Unfiles(a, u, w)
  }

  lemma WaitStep(a: Action, s: AppState, u: string, w: Wait)
    requires Match(a, s).Some?
    ensures FiledAs(u, w)(Match(a, s).value) <==> FilesAs(u, w)(a, s) || (FiledAs(u, w)(s) && !UnfilesAs(u, w)(a, s))
  {
  }

  /**
   * A wait is on file exactly when it was at first, or some action started what it waits for, and no
   * later action was about its URL.
   */
  lemma WaitsFiled(actions: seq<Action>, s: AppState, u: string, w: Wait)
    requires Fold(actions, s).Some?
    ensures u in Fold(actions, s).value.waits && Fold(actions, s).value.waits[u] == w <==>
              (u in s.waits && s.waits[u] == w && KeptSince(UnfilesAs(u, w), actions, s, 0)) ||
              exists i: nat :: BroughtAt(FilesAs(u, w), UnfilesAs(u, w), actions, s, i)
  {
    forall a, t | Match(a, t).Some?
      ensures FiledAs(u, w)(Match(a, t).value) <==> FilesAs(u, w)(a, t) || (FiledAs(u, w)(t) && !UnfilesAs(u, w)(a, t))
    {
      WaitStep(a, t, u, w);
    }
    ThereIffBrought(FiledAs(u, w), FilesAs(u, w), UnfilesAs(u, w), actions, s);
  }

  // Hosts.

  predicate BringsHost(a: Action, s: AppState, h: Host) {
    (a.HostLoad? || a.HostCreateComplete?) && a.host == h && forall g :: g in s.hosts ==> g.url != h.url
  }

  predicate DropsHost(a: Action, s: AppState, h: Host) {
    match a
    case Init => true
    case RefreshStart => true
    case RuntimeUnregister(alias) => h.runtime == alias
    case HostDeleteComplete(u) => u in s.waits && s.waits[u].HostDeleteWait? && h.url == Some(s.waits[u].hostUrl)
    case _ => false
  }

  function HostListed(h: Host): AppState -> bool {
    (s: AppState) => h in s.hosts
  }

  function HostBrought(h: Host): (Action, AppState) -> bool {
    (a: Action, s: AppState) => BringsHost(a, s, h)
  }

  function HostDropped(h: Host): (Action, AppState) -> bool {
    (a: Action, s: AppState) => DropsHost(a, s, h)
  }

  lemma NoKey<T, K>(key: T -> K, xs: seq<T>, k: K)
    ensures HasKey(key, xs, k) <==> exists x :: x in xs && key(x) == k
  {
    if x :| x in xs && key(x) == k {
      var i :| 0 <= i < |xs| && xs[i] == x;
    }
    if HasKey(key, xs, k) {
      var i :| 0 <= i < |xs| && key(xs[i]) == k;
      assert xs[i] in xs;
    }
  }

  lemma HostStep(a: Action, s: AppState, h: Host)
    requires Match(a, s).Some?
    ensures h in Match(a, s).value.hosts <==> BringsHost(a, s, h) || (h in s.hosts && !DropsHost(a, s, h))
  {
    match a
    case HostLoad(g) => NoKey(HostKeyOf, s.hosts, g.url);
    case HostCreateComplete(_, g) => NoKey(HostKeyOf, s.hosts, g.url);
    case RuntimeUnregister(alias) => FilterMember(HostNotOf(alias), s.hosts, h);
    case HostDeleteComplete(u) =>
      if s.waits[u].HostDeleteWait? {
        FilterMember(HostNotAt(s.waits[u].hostUrl), s.hosts, h);
      }
    case _ =>
  }

  /**
   * A host is listed exactly when it was at first, or it was loaded or created while no host with its
   * URL was listed, and no later refresh, unregistration of its runtime or completed deletion took it.
   */
  lemma HostsListed(actions: seq<Action>, s: AppState, h: Host)
    requires Fold(actions, s).Some?
    ensures h in Fold(actions, s).value.hosts <==>
              (h in s.hosts && KeptSince(HostDropped(h), actions, s, 0)) ||
              exists i: nat :: BroughtAt(HostBrought(h), HostDropped(h), actions, s, i)
  {
    forall a, t | Match(a, t).Some?
      ensures HostListed(h)(Match(a, t).value) <==> HostBrought(h)(a, t) || (HostListed(h)(t) && !HostDropped(h)(a, t))
    {
      HostStep(a, t, h);
    }
    ThereIffBrought(HostListed(h), HostBrought(h), HostDropped(h), actions, s);
  }

  // Environments.

  predicate BringsEnv(a: Action, s: AppState, e: Env) {
    && (a.EnvLoad? || a.EnvCreateComplete?) && a.env == e
    && forall f :: f in s.envs ==> f.hostUrl != e.hostUrl || f.groupName != e.groupName
  }

  predicate DropsEnv(a: Action, s: AppState, e: Env) {
    match a
    case Init => true
    case RefreshStart => true
    case RuntimeUnregister(alias) => e.runtimeAlias == alias
    case HostDeleteComplete(u) => u in s.waits && s.waits[u].HostDeleteWait? && e.hostUrl == s.waits[u].hostUrl
    case _ => false
  }

  function EnvListed(e: Env): AppState -> bool {
    (s: AppState) => e in s.envs
  }

  function EnvBrought(e: Env): (Action, AppState) -> bool {
    (a: Action, s: AppState) => BringsEnv(a, s, e)
  }

  function EnvDropped(e: Env): (Action, AppState) -> bool {
    (a: Action, s: AppState) => DropsEnv(a, s, e)
  }

  lemma EnvStep(a: Action, s: AppState, e: Env)
    requires Match(a, s).Some?
    ensures e in Match(a, s).value.envs <==> BringsEnv(a, s, e) || (e in s.envs && !DropsEnv(a, s, e))
  {
    match a
    case EnvLoad(f) => NoKey(EnvKeyOf, s.envs, EnvKeyOf(f));
    case EnvCreateComplete(_, f) => NoKey(EnvKeyOf, s.envs, EnvKeyOf(f));
    case RuntimeUnregister(alias) => FilterMember(EnvNotOf(alias), s.envs, e);
    case HostDeleteComplete(u) =>
      if s.waits[u].HostDeleteWait? {
        FilterMember(EnvNotAt(s.waits[u].hostUrl), s.envs, e);
      }
    case _ =>
  }

  /** The same for an environment, with its host and group, its runtime, and the deletion of its host. */
  lemma EnvsListed(actions: seq<Action>, s: AppState, e: Env)
    requires Fold(actions, s).Some?
    ensures e in Fold(actions, s).value.envs <==>
              (e in s.envs && KeptSince(EnvDropped(e), actions, s, 0)) ||
              exists i: nat :: BroughtAt(EnvBrought(e), EnvDropped(e), actions, s, i)
  {
    forall a, t | Match(a, t).Some?
      ensures EnvListed(e)(Match(a, t).value) <==> EnvBrought(e)(a, t) || (EnvListed(e)(t) && !EnvDropped(e)(a, t))
    {
      EnvStep(a, t, e);
    }
    ThereIffBrought(EnvListed(e), EnvBrought(e), EnvDropped(e), actions, s);
  }

  // What starting an operation shows.

  /** Starting to create an environment gives it a card, and a new one is starting. */
  lemma CreateStartShowsCard(s: AppState, w: Wait, keys: seq<string>)
    requires w.EnvCreateWait? && Enumerates(keys, Match(EnvCreateStart(w), s).value.waits)
    ensures var t := Match(EnvCreateStart(w), s).value;
            && HasKey(EnvKeyOf, Cards(t, keys), EnvKey(w.hostUrl, w.groupName))
            && (!IsStored(s, EnvKey(w.hostUrl, w.groupName)) ==>
                  Env(w.runtimeAlias, w.hostUrl, w.groupName, w.devices, EnvStarting) in Cards(t, keys))
  {
    var t := Match(EnvCreateStart(w), s).value;
    assert PendingAs(t, w.waitUrl, EnvKey(w.hostUrl, w.groupName));
    CardIffPendingOrStored(t, keys, EnvKey(w.hostUrl, w.groupName));
    if !IsStored(s, EnvKey(w.hostUrl, w.groupName)) {
      PendingCard(t, keys, w.waitUrl);
    }
  }

  /** Starting to delete a host shows each of its environments as stopping. */
  lemma DeleteStartShowsStopping(s: AppState, w: Wait, keys: seq<string>, e: Env)
    requires StoreInv(s) && w.HostDeleteWait? && e in s.envs && e.hostUrl == w.hostUrl
    requires Enumerates(keys, Match(HostDeleteStart(w), s).value.waits)
    ensures e.(status := EnvStopping) in Cards(Match(HostDeleteStart(w), s).value, keys)
  {
    var t := Match(HostDeleteStart(w), s).value;
    assert w.waitUrl in t.waits && t.waits[w.waitUrl] == w;
    assert DeleteRequested(t.waits, e.hostUrl);
    StoredCard(t, keys, e);
  }

  /** Starting to create a host shows a new one, starting, on the card of its runtime. */
  lemma HostCreateStartShowsHost(s: AppState, w: Wait, keys: seq<string>)
    requires w.HostCreateWait? && Enumerates(keys, Match(HostCreateStart(w), s).value.waits)
    requires RuntimeHosts(Match(HostCreateStart(w), s).value, keys, w.runtimeAlias).Some?
    ensures HostItem("New host", Some(w.zone), None, w.runtimeAlias, HostStarting, [])
            in RuntimeHosts(Match(HostCreateStart(w), s).value, keys, w.runtimeAlias).value
  {
    var t := Match(HostCreateStart(w), s).value;
    assert w.waitUrl in keys && t.waits[w.waitUrl] == w;
    StartingItem(keys, t.waits, w.runtimeAlias, HostItem("New host", Some(w.zone), None, w.runtimeAlias, HostStarting, []));
  }
}
