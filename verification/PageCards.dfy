/** The cards the page shows: pending environments merged with stored ones. */
module PageCards {
  import opened Wrappers
  import opened Lists
  import opened PageStore

  /** `keys` is the order in which the code's Object.values visits the waits. */
  ghost predicate Enumerates(keys: seq<string>, waits: map<string, Wait>) {
    && (forall u :: u in keys <==> u in waits)
    && (forall i, j :: 0 <= i < j < |keys| ==> keys[i] != keys[j])
  }

  /** The card of an environment that is being created. */
  function StartingEnv(w: Wait): Env
    requires w.EnvCreateWait?
  {
    Env(w.runtimeAlias, w.hostUrl, w.groupName, w.devices, EnvStarting)
  }

  function StartingEnvs(keys: seq<string>, waits: map<string, Wait>): seq<Env>
    requires forall u :: u in keys ==> u in waits
  {
    if keys == [] then []
    else (if waits[keys[0]].EnvCreateWait? then [StartingEnv(waits[keys[0]])] else []) + StartingEnvs(keys[1..], waits)
  }

  predicate DeleteRequested(waits: map<string, Wait>, hostUrl: string) {
    exists u :: u in waits && waits[u].HostDeleteWait? && waits[u].hostUrl == hostUrl
  }

  function Shown(waits: map<string, Wait>, e: Env): Env {
    if DeleteRequested(waits, e.hostUrl) then e.(status := EnvStopping) else e
  }

  function ShownEnvs(waits: map<string, Wait>, envs: seq<Env>): seq<Env> {
    seq(|envs|, i requires 0 <= i < |envs| => Shown(waits, envs[i]))
  }

  function NotStored(envs: seq<Env>): Env -> bool {
    (e: Env) => !HasKey(EnvKeyOf, envs, EnvKeyOf(e))
  }

  /** allEnvListSelector. */
  function Cards(s: AppState, keys: seq<string>): seq<Env>
    requires Enumerates(keys, s.waits)
  {
    Filter(NotStored(s.envs), StartingEnvs(keys, s.waits)) + ShownEnvs(s.waits, s.envs)
  }

  ghost predicate PendingAs(s: AppState, u: string, k: EnvKey) {
    u in s.waits && s.waits[u].EnvCreateWait? && EnvKey(s.waits[u].hostUrl, s.waits[u].groupName) == k
  }

  ghost predicate IsPending(s: AppState, k: EnvKey) {
    exists u :: PendingAs(s, u, k)
  }

  ghost predicate IsStored(s: AppState, k: EnvKey) {
    HasKey(EnvKeyOf, s.envs, k)
  }

  lemma {:induction false} StartingMember(keys: seq<string>, waits: map<string, Wait>, e: Env)
    requires forall u :: u in keys ==> u in waits
    ensures e in StartingEnvs(keys, waits) <==>
              exists u :: u in keys && waits[u].EnvCreateWait? && StartingEnv(waits[u]) == e
  {
    if keys == [] {
    } else {
      StartingMember(keys[1..], waits, e);
      assert forall u :: u in keys <==> u == keys[0] || u in keys[1..];
    }
  }

  lemma MemberHasKey<T, K>(key: T -> K, xs: seq<T>, x: T)
    requires x in xs
    ensures HasKey(key, xs, key(x))
  {
    var i :| 0 <= i < |xs| && xs[i] == x;
  }

  lemma ShownHasKey(waits: map<string, Wait>, envs: seq<Env>, k: EnvKey)
    ensures HasKey(EnvKeyOf, ShownEnvs(waits, envs), k) <==> HasKey(EnvKeyOf, envs, k)
    ensures Distinct(EnvKeyOf, ShownEnvs(waits, envs)) <==> Distinct(EnvKeyOf, envs)
  {
    var shown := ShownEnvs(waits, envs);
    assert forall i :: 0 <= i < |envs| ==> EnvKeyOf(shown[i]) == EnvKeyOf(envs[i]);
    if HasKey(EnvKeyOf, envs, k) {
      var i :| 0 <= i < |envs| && EnvKeyOf(envs[i]) == k;
      assert EnvKeyOf(shown[i]) == k;
    }
  }

  lemma AppendHasKey<T, K>(key: T -> K, xs: seq<T>, ys: seq<T>, k: K)
    ensures HasKey(key, xs + ys, k) <==> HasKey(key, xs, k) || HasKey(key, ys, k)
  {
    if HasKey(key, xs, k) {
      var i :| 0 <= i < |xs| && key(xs[i]) == k;
      assert key((xs + ys)[i]) == k;
    }
    if HasKey(key, ys, k) {
      var i :| 0 <= i < |ys| && key(ys[i]) == k;
      assert key((xs + ys)[|xs| + i]) == k;
    }
  }

  lemma StartingHasKey(s: AppState, keys: seq<string>, k: EnvKey)
    requires Enumerates(keys, s.waits)
    ensures HasKey(EnvKeyOf, Filter(NotStored(s.envs), StartingEnvs(keys, s.waits)), k) <==> IsPending(s, k) && !IsStored(s, k)
  {
    var starting := StartingEnvs(keys, s.waits);
    var fresh_ := Filter(NotStored(s.envs), starting);
    if HasKey(EnvKeyOf, fresh_, k) {
      var i :| 0 <= i < |fresh_| && EnvKeyOf(fresh_[i]) == k;
      FilterMember(NotStored(s.envs), starting, fresh_[i]);
      StartingMember(keys, s.waits, fresh_[i]);
      var u :| u in keys && s.waits[u].EnvCreateWait? && StartingEnv(s.waits[u]) == fresh_[i];
      assert PendingAs(s, u, k);
    }
    if IsPending(s, k) && !IsStored(s, k) {
      var u :| PendingAs(s, u, k);
      var e := StartingEnv(s.waits[u]);
      StartingMember(keys, s.waits, e);
      FilterMember(NotStored(s.envs), starting, e);
      MemberHasKey(EnvKeyOf, fresh_, e);
    }
  }

  /** A key has a card exactly when it is pending or stored. */
  lemma CardIffPendingOrStored(s: AppState, keys: seq<string>, k: EnvKey)
    requires Enumerates(keys, s.waits)
    ensures HasKey(EnvKeyOf, Cards(s, keys), k) <==> IsPending(s, k) || IsStored(s, k)
  {
    AppendHasKey(EnvKeyOf, Filter(NotStored(s.envs), StartingEnvs(keys, s.waits)), ShownEnvs(s.waits, s.envs), k);
    StartingHasKey(s, keys, k);
    ShownHasKey(s.waits, s.envs, k);
  }

  /** No two waits are about the same environment, unless that is stored already. */
  ghost predicate PendingDistinct(s: AppState) {
    forall u, v, k :: PendingAs(s, u, k) && PendingAs(s, v, k) && u != v ==> IsStored(s, k)
  }

  lemma {:induction false} StartingDistinct(s: AppState, keys: seq<string>)
    requires forall u :: u in keys ==> u in s.waits
    requires forall i, j :: 0 <= i < j < |keys| ==> keys[i] != keys[j]
    requires PendingDistinct(s)
    ensures Distinct(EnvKeyOf, Filter(NotStored(s.envs), StartingEnvs(keys, s.waits)))
  {
    if keys == [] {
    } else {
      var rest := StartingEnvs(keys[1..], s.waits);
      StartingDistinct(s, keys[1..]);
      var u := keys[0];
      if s.waits[u].EnvCreateWait? {
        var e := StartingEnv(s.waits[u]);
        assert StartingEnvs(keys, s.waits) == [e] + rest && StartingEnvs(keys, s.waits)[1..] == rest;
        if NotStored(s.envs)(e) {
          forall x | x in Filter(NotStored(s.envs), rest)
            ensures EnvKeyOf(x) != EnvKeyOf(e)
          {
            FilterMember(NotStored(s.envs), rest, x);
            StartingMember(keys[1..], s.waits, x);
            var v :| v in keys[1..] && s.waits[v].EnvCreateWait? && StartingEnv(s.waits[v]) == x;
            assert PendingAs(s, v, EnvKeyOf(x)) && PendingAs(s, u, EnvKeyOf(e)) && u != v;
          }
          assert Filter(NotStored(s.envs), [e] + rest) == [e] + Filter(NotStored(s.envs), rest);
          assert Distinct(EnvKeyOf, [e]);
          DistinctAppend(EnvKeyOf, [e], Filter(NotStored(s.envs), rest));
        } else {
          assert Filter(NotStored(s.envs), [e] + rest) == Filter(NotStored(s.envs), rest);
        }
      } else {
        assert StartingEnvs(keys, s.waits) == rest;
      }
    }
  }

  lemma {:induction false} StartingRepeated(s: AppState, keys: seq<string>, i: nat, j: nat, k: EnvKey)
    requires forall u :: u in keys ==> u in s.waits
    requires i < j < |keys| && PendingAs(s, keys[i], k) && PendingAs(s, keys[j], k) && !IsStored(s, k)
    ensures !Distinct(EnvKeyOf, Filter(NotStored(s.envs), StartingEnvs(keys, s.waits)))
  {
    var rest := StartingEnvs(keys[1..], s.waits);
    var restCards := Filter(NotStored(s.envs), rest);
    if i == 0 {
      var e, f := StartingEnv(s.waits[keys[0]]), StartingEnv(s.waits[keys[j]]);
      assert keys[1..][j - 1] == keys[j];
      StartingMember(keys[1..], s.waits, f);
      FilterMember(NotStored(s.envs), rest, f);
      assert StartingEnvs(keys, s.waits)[1..] == rest;
      assert Filter(NotStored(s.envs), StartingEnvs(keys, s.waits)) == [e] + restCards;
      DistinctAppend(EnvKeyOf, [e], restCards);
    } else {
      StartingRepeated(s, keys[1..], i - 1, j - 1, k);
      if s.waits[keys[0]].EnvCreateWait? {
        var e := StartingEnv(s.waits[keys[0]]);
        assert StartingEnvs(keys, s.waits) == [e] + rest && StartingEnvs(keys, s.waits)[1..] == rest;
        DistinctAppend(EnvKeyOf, if NotStored(s.envs)(e) then [e] else [], restCards);
      } else {
        assert StartingEnvs(keys, s.waits) == rest;
      }
    }
  }

  /**
   * No environment has two cards, exactly when no two of the waits for one that is not stored are
   * about the same host and group.
   */
  lemma CardsAreDistinct(s: AppState, keys: seq<string>)
    requires StoreInv(s) && Enumerates(keys, s.waits)
    ensures Distinct(EnvKeyOf, Cards(s, keys)) <==> PendingDistinct(s)
  {
    var starting := Filter(NotStored(s.envs), StartingEnvs(keys, s.waits));
    var shown := ShownEnvs(s.waits, s.envs);
    DistinctAppend(EnvKeyOf, starting, shown);
    if PendingDistinct(s) {
      StartingDistinct(s, keys);
      forall x, y | x in starting && y in shown
        ensures EnvKeyOf(x) != EnvKeyOf(y)
      {
        MemberHasKey(EnvKeyOf, starting, x);
        StartingHasKey(s, keys, EnvKeyOf(x));
        MemberHasKey(EnvKeyOf, shown, y);
        ShownHasKey(s.waits, s.envs, EnvKeyOf(y));
      }
      ShownHasKey(s.waits, s.envs, EnvKey("", ""));
    } else {
      var u, v, k :| PendingAs(s, u, k) && PendingAs(s, v, k) && u != v && !IsStored(s, k);
      var i :| 0 <= i < |keys| && keys[i] == u;
      var j :| 0 <= j < |keys| && keys[j] == v;
      if i < j {
        StartingRepeated(s, keys, i, j, k);
      } else {
        StartingRepeated(s, keys, j, i, k);
      }
    }
  }

  /** The card of a stored environment: stopping if a deletion of its host is awaited, else as stored. */
  lemma StoredCard(s: AppState, keys: seq<string>, e: Env)
    requires StoreInv(s) && Enumerates(keys, s.waits) && e in s.envs
    ensures forall c :: c in Cards(s, keys) && EnvKeyOf(c) == EnvKeyOf(e) ==>
              c == if DeleteRequested(s.waits, e.hostUrl) then e.(status := EnvStopping) else e
    ensures Shown(s.waits, e) in Cards(s, keys)
  {
    var starting := Filter(NotStored(s.envs), StartingEnvs(keys, s.waits));
    var shown := ShownEnvs(s.waits, s.envs);
    forall c | c in Cards(s, keys) && EnvKeyOf(c) == EnvKeyOf(e)
      ensures c == Shown(s.waits, e)
    {
      if c in starting {
        MemberHasKey(EnvKeyOf, starting, c);
        StartingHasKey(s, keys, EnvKeyOf(c));
        MemberHasKey(EnvKeyOf, s.envs, e);
      }
      var i :| 0 <= i < |shown| && shown[i] == c;
      UniqueKey(EnvKeyOf, s.envs, s.envs[i], e);
    }
    var i :| 0 <= i < |s.envs| && s.envs[i] == e;
    assert shown[i] == Shown(s.waits, e);
  }

  /** The card of a pending environment that is not stored: what was asked for, starting. */
  lemma PendingCard(s: AppState, keys: seq<string>, u: string)
    requires Enumerates(keys, s.waits) && u in s.waits && s.waits[u].EnvCreateWait?
    requires !IsStored(s, EnvKey(s.waits[u].hostUrl, s.waits[u].groupName))
    ensures var w := s.waits[u];
            Env(w.runtimeAlias, w.hostUrl, w.groupName, w.devices, EnvStarting) in Cards(s, keys)
  {
    var e := StartingEnv(s.waits[u]);
    StartingMember(keys, s.waits, e);
    FilterMember(NotStored(s.envs), StartingEnvs(keys, s.waits), e);
  }

  // From starting to running.

  /** The action may take the wait filed under `u` away or replace it. */
  ghost predicate Touches(a: Action, u: string) {
    match a
    case Init => true
    case EnvCreateStart(w) => w.waitUrl == u
    case HostCreateStart(w) => w.waitUrl == u
    case HostDeleteStart(w) => w.waitUrl == u
    case EnvCreateComplete(v, _) => v == u
    case HostCreateComplete(v, _) => v == u
    case _ => false
  }

  lemma UntouchedWaitStays(a: Action, s: AppState, u: string)
    requires Match(a, s).Some? && !Touches(a, u)
    requires u in s.waits && s.waits[u].EnvCreateWait?
    ensures u in Match(a, s).value.waits && Match(a, s).value.waits[u] == s.waits[u]
  {
  }

  lemma {:induction false} UntouchedRun(actions: seq<Action>, s: AppState, u: string)
    requires Fold(actions, s).Some? && forall a :: a in actions ==> !Touches(a, u)
    requires u in s.waits && s.waits[u].EnvCreateWait?
    ensures u in Fold(actions, s).value.waits && Fold(actions, s).value.waits[u] == s.waits[u]
    decreases |actions|
  {
    if actions == [] {
    } else {
      assert !Touches(actions[0], u);
      UntouchedWaitStays(actions[0], s, u);
      UntouchedRun(actions[1..], Match(actions[0], s).value, u);
    }
  }

  /**
   * The card of an environment under creation never vanishes: through refreshes, unregistered
   * runtimes, loads and deletions alike it is there until its own wait completes, and the completion
   * with that environment leaves the set of cards as it was and shows the environment as stored.
   */
  lemma CardSurvives(s: AppState, u: string, k: EnvKey, actions: seq<Action>, env: Env, keys: seq<string>, keys': seq<string>)
    requires StoreInv(s) && PendingAs(s, u, k) && EnvKeyOf(env) == k
    requires Fold(actions, s).Some? && forall a :: a in actions ==> !Touches(a, u)
    requires Enumerates(keys, Fold(actions, s).value.waits)
    requires Enumerates(keys', Match(EnvCreateComplete(u, env), Fold(actions, s).value).value.waits)
    ensures var t := Fold(actions, s).value;
            var t' := Match(EnvCreateComplete(u, env), t).value;
            && HasKey(EnvKeyOf, Cards(t, keys), k)
            && (forall c :: HasKey(EnvKeyOf, Cards(t', keys'), c) <==> HasKey(EnvKeyOf, Cards(t, keys), c))
            && (PendingDistinct(t) ==> Distinct(EnvKeyOf, Cards(t', keys')))
            && (!IsStored(t, k) ==> Shown(t'.waits, env) in Cards(t', keys'))
  {
    UntouchedRun(actions, s, u);
    FoldKeepsInv(actions, s);
    var t := Fold(actions, s).value;
    var t' := Match(EnvCreateComplete(u, env), t).value;
    assert PendingAs(t, u, k);
    CardIffPendingOrStored(t, keys, k);
    MatchKeepsInv(EnvCreateComplete(u, env), t);
    InsertKeepsDistinct(EnvKeyOf, t.envs, env);
    forall c
      ensures HasKey(EnvKeyOf, Cards(t', keys'), c) <==> HasKey(EnvKeyOf, Cards(t, keys), c)
    {
      CardIffPendingOrStored(t, keys, c);
      CardIffPendingOrStored(t', keys', c);
      CompletionKeepsKey(t, u, env, c);
    }
    if PendingDistinct(t) {
      forall v, w, c | PendingAs(t', v, c) && PendingAs(t', w, c) && v != w
        ensures IsStored(t', c)
      {
        assert PendingAs(t, v, c) && PendingAs(t, w, c);
      }
      CardsAreDistinct(t', keys');
    }
    if !IsStored(t, k) {
      assert env in t'.envs;
      StoredCard(t', keys', env);
    }
  }

  lemma CompletionKeepsKey(t: AppState, u: string, env: Env, c: EnvKey)
    requires StoreInv(t) && PendingAs(t, u, EnvKeyOf(env))
    ensures var t' := Match(EnvCreateComplete(u, env), t).value;
            IsPending(t', c) || IsStored(t', c) <==> IsPending(t, c) || IsStored(t, c)
  {
    var t' := Match(EnvCreateComplete(u, env), t).value;
    InsertKeepsDistinct(EnvKeyOf, t.envs, env);
    if v :| PendingAs(t', v, c) {
      assert PendingAs(t, v, c);
    }
    if v :| PendingAs(t, v, c) && v != u {
      assert PendingAs(t', v, c);
    }
  }

  // The card of one runtime.

  datatype HostItem = HostItem(name: string, zone: Option<string>, url: Option<string>, runtime: string, status: HostStatus, envs: seq<Env>)

  function OfRuntime(alias: string): Env -> bool {
    (e: Env) => e.runtimeAlias == alias
  }

  function AtHost(url: Option<string>): Env -> bool {
    (e: Env) => Some(e.hostUrl) == url
  }

  function StoredItem(s: AppState, envs: seq<Env>, h: Host): HostItem {
    if h.url.Some? && DeleteRequested(s.waits, h.url.value) then HostItem(h.name, h.zone, h.url, h.runtime, HostStopping, [])
    else HostItem(h.name, h.zone, h.url, h.runtime, HostRunning, Filter(AtHost(h.url), envs))
  }

  function StartingItems(keys: seq<string>, waits: map<string, Wait>, alias: string): (items: seq<HostItem>)
    requires forall u :: u in keys ==> u in waits
    ensures forall i :: 0 <= i < |items| ==> items[i].envs == [] && items[i].status.HostStarting? && items[i].runtime == alias
  {
    if keys == [] then []
    else (if waits[keys[0]].HostCreateWait? && waits[keys[0]].runtimeAlias == alias
          then [HostItem("New host", Some(waits[keys[0]].zone), None, alias, HostStarting, [])] else [])
         + StartingItems(keys[1..], waits, alias)
  }

  /** The hosts of runtimeCardSelectorFactory's card; None where it selects undefined. */
  function RuntimeHosts(s: AppState, keys: seq<string>, alias: string): Option<seq<HostItem>>
    requires Enumerates(keys, s.waits)
  {
    if alias == "" || forall i :: 0 <= i < |s.runtimes| ==> s.runtimes[i].alias != alias then None
    else
      var envs := Filter(OfRuntime(alias), Cards(s, keys));
      Some(seq(|s.hosts|, i requires 0 <= i < |s.hosts| => StoredItem(s, envs, s.hosts[i])) + StartingItems(keys, s.waits, alias))
  }

  /**
   * On a runtime's card, each environment of the runtime is under the host it runs on and no other,
   * unless that host is being deleted, when it is under none.
   */
  lemma EnvIsUnderItsHost(s: AppState, keys: seq<string>, alias: string, c: Env, i: nat)
    requires StoreInv(s) && Enumerates(keys, s.waits) && RuntimeHosts(s, keys, alias).Some?
    requires i < |RuntimeHosts(s, keys, alias).value|
    ensures var items := RuntimeHosts(s, keys, alias).value;
            c in items[i].envs <==>
              c in Cards(s, keys) && c.runtimeAlias == alias && !DeleteRequested(s.waits, c.hostUrl) &&
              i < |s.hosts| && s.hosts[i].url == Some(c.hostUrl)
    ensures var items := RuntimeHosts(s, keys, alias).value;
            forall j: nat :: j < |items| && c in items[i].envs && c in items[j].envs ==> i == j
  {
    var items := RuntimeHosts(s, keys, alias).value;
    UnderHost(s, keys, alias, c, i);
    forall j: nat | j < |items| && c in items[i].envs && c in items[j].envs
      ensures i == j
    {
      UnderHost(s, keys, alias, c, j);
      assert HostKeyOf(s.hosts[i]) == HostKeyOf(s.hosts[j]);
    }
  }

  lemma UnderHost(s: AppState, keys: seq<string>, alias: string, c: Env, i: nat)
    requires Enumerates(keys, s.waits) && RuntimeHosts(s, keys, alias).Some?
    requires i < |RuntimeHosts(s, keys, alias).value|
    ensures c in RuntimeHosts(s, keys, alias).value[i].envs <==>
              c in Cards(s, keys) && c.runtimeAlias == alias && !DeleteRequested(s.waits, c.hostUrl) &&
              i < |s.hosts| && s.hosts[i].url == Some(c.hostUrl)
  {
    var envs := Filter(OfRuntime(alias), Cards(s, keys));
    FilterMember(OfRuntime(alias), Cards(s, keys), c);
    if i < |s.hosts| {
      FilterMember(AtHost(s.hosts[i].url), envs, c);
    }
  }

  lemma {:induction false} StartingItem(keys: seq<string>, waits: map<string, Wait>, alias: string, item: HostItem)
    requires forall u :: u in keys ==> u in waits
    ensures item in StartingItems(keys, waits, alias) <==>
              exists u :: u in keys && waits[u].HostCreateWait? && waits[u].runtimeAlias == alias &&
                          item == HostItem("New host", Some(waits[u].zone), None, alias, HostStarting, [])
  {
    if keys == [] {
    } else {
      StartingItem(keys[1..], waits, alias, item);
      assert forall u :: u in keys <==> u == keys[0] || u in keys[1..];
    }
  }

  /**
   * The card of a runtime is there exactly when the runtime is listed; it shows every stored host, in
   * order, stopping exactly when its deletion is awaited and else running, and after those a starting
   * host for each zone in which a creation for this runtime is awaited, and nothing else.
   */
  lemma RuntimeCardHosts(s: AppState, keys: seq<string>, alias: string)
    requires Enumerates(keys, s.waits)
    ensures RuntimeHosts(s, keys, alias).Some? <==> alias != "" && exists r :: r in s.runtimes && r.alias == alias
    ensures RuntimeHosts(s, keys, alias).Some? ==>
              var items := RuntimeHosts(s, keys, alias).value;
              && |s.hosts| <= |items|
              && (forall i :: 0 <= i < |s.hosts| ==>
                    && items[i].name == s.hosts[i].name && items[i].zone == s.hosts[i].zone
                    && items[i].url == s.hosts[i].url && items[i].runtime == s.hosts[i].runtime
                    && items[i].status == if exists u :: u in s.waits && s.waits[u].HostDeleteWait? && Some(s.waits[u].hostUrl) == s.hosts[i].url
                                          then HostStopping else HostRunning)
              && (forall item :: item in items[|s.hosts|..] <==>
                    exists u :: u in s.waits && s.waits[u].HostCreateWait? && s.waits[u].runtimeAlias == alias &&
                                item == HostItem("New host", Some(s.waits[u].zone), None, alias, HostStarting, []))
  {
    if r :| r in s.runtimes && r.alias == alias {
      var i :| 0 <= i < |s.runtimes| && s.runtimes[i] == r;
    }
    if RuntimeHosts(s, keys, alias).Some? {
      var items := RuntimeHosts(s, keys, alias).value;
      assert items[|s.hosts|..] == StartingItems(keys, s.waits, alias);
      forall item
        ensures item in items[|s.hosts|..] <==>
                  exists u :: u in s.waits && s.waits[u].HostCreateWait? && s.waits[u].runtimeAlias == alias &&
                              item == HostItem("New host", Some(s.waits[u].zone), None, alias, HostStarting, [])
      {
        StartingItem(keys, s.waits, alias, item);
      }
    }
  }

  /** The cards of the stored environments come last, in the order of the store. */
  lemma StoredCardsInOrder(s: AppState, keys: seq<string>, i: nat)
    requires Enumerates(keys, s.waits) && i < |s.envs|
    ensures |s.envs| <= |Cards(s, keys)|
    ensures EnvKeyOf(Cards(s, keys)[|Cards(s, keys)| - |s.envs| + i]) == EnvKeyOf(s.envs[i])
  {
    var starting := Filter(NotStored(s.envs), StartingEnvs(keys, s.waits));
    assert Cards(s, keys)[|starting| + i] == ShownEnvs(s.waits, s.envs)[i];
  }
}
