/** Loads and creations arriving in any order, and more than once, lead to the same store. */
module PageLoads {
  import opened Wrappers
  import opened Lists
  import opened PageStore

  predicate IsLoad(a: Action) {
    a.HostLoad? || a.EnvLoad? || a.HostCreateComplete? || a.EnvCreateComplete?
  }

  function HostOf(a: Action): seq<Host> {
    if a.HostLoad? || a.HostCreateComplete? then [a.host] else []
  }

  function EnvOf(a: Action): seq<Env> {
    if a.EnvLoad? || a.EnvCreateComplete? then [a.env] else []
  }

  function CompletedBy(a: Action): set<string> {
    if a.HostCreateComplete? || a.EnvCreateComplete? then {a.waitUrl} else {}
  }

  function HostsIn(actions: seq<Action>): seq<Host> {
    if actions == [] then [] else HostOf(actions[0]) + HostsIn(actions[1..])
  }

  function EnvsIn(actions: seq<Action>): seq<Env> {
    if actions == [] then [] else EnvOf(actions[0]) + EnvsIn(actions[1..])
  }

  function CompletedIn(actions: seq<Action>): set<string> {
    if actions == [] then {} else CompletedBy(actions[0]) + CompletedIn(actions[1..])
  }

  lemma OneLoad(a: Action, s: AppState)
    requires IsLoad(a)
    ensures Match(a, s) ==
              Some(s.(hosts := InsertAll(HostKeyOf, s.hosts, HostOf(a)),
                      envs := InsertAll(EnvKeyOf, s.envs, EnvOf(a)),
                      waits := s.waits - CompletedBy(a)))
  {
    OneInserted(HostKeyOf, s.hosts, HostOf(a));
    OneInserted(EnvKeyOf, s.envs, EnvOf(a));
    assert s.waits - {} == s.waits;
  }

  lemma OneInserted<T, K>(key: T -> K, xs: seq<T>, news: seq<T>)
    requires |news| <= 1
    ensures InsertAll(key, xs, news) == if news == [] then xs else Insert(key, xs, news[0])
  {
  }

  /** What a sequence of loads leaves behind. */
  lemma {:induction false} FoldLoads(actions: seq<Action>, s: AppState)
    requires forall a :: a in actions ==> IsLoad(a)
    ensures Fold(actions, s) ==
              Some(s.(hosts := InsertAll(HostKeyOf, s.hosts, HostsIn(actions)),
                      envs := InsertAll(EnvKeyOf, s.envs, EnvsIn(actions)),
                      waits := s.waits - CompletedIn(actions)))
    decreases |actions|
  {
    if actions == [] {
      assert s.waits - {} == s.waits;
    } else {
      var a, rest := actions[0], actions[1..];
      assert IsLoad(a);
      OneLoad(a, s);
      FoldLoads(rest, Match(a, s).value);
      InsertAllAppend(HostKeyOf, s.hosts, HostOf(a), HostsIn(rest));
      InsertAllAppend(EnvKeyOf, s.envs, EnvOf(a), EnvsIn(rest));
      assert s.waits - CompletedBy(a) - CompletedIn(rest) == s.waits - CompletedIn(actions);
    }
  }

  ghost predicate LoadsHost(a: Action, h: Host) {
    (a.HostLoad? || a.HostCreateComplete?) && a.host == h
  }

  ghost predicate LoadsEnv(a: Action, e: Env) {
    (a.EnvLoad? || a.EnvCreateComplete?) && a.env == e
  }

  ghost predicate Completes(a: Action, u: string) {
    (a.HostCreateComplete? || a.EnvCreateComplete?) && a.waitUrl == u
  }

  lemma {:induction false} HostsInMember(actions: seq<Action>, h: Host)
    ensures h in HostsIn(actions) <==> exists a :: a in actions && LoadsHost(a, h)
  {
    if actions == [] {
    } else {
      HostsInMember(actions[1..], h);
      assert LoadsHost(actions[0], h) ==> actions[0] in actions;
      assert forall a :: a in actions <==> a == actions[0] || a in actions[1..];
    }
  }

  lemma {:induction false} EnvsInMember(actions: seq<Action>, e: Env)
    ensures e in EnvsIn(actions) <==> exists a :: a in actions && LoadsEnv(a, e)
  {
    if actions == [] {
    } else {
      EnvsInMember(actions[1..], e);
      assert LoadsEnv(actions[0], e) ==> actions[0] in actions;
      assert forall a :: a in actions <==> a == actions[0] || a in actions[1..];
    }
  }

  lemma {:induction false} CompletedInMember(actions: seq<Action>, u: string)
    ensures u in CompletedIn(actions) <==> exists a :: a in actions && Completes(a, u)
  {
    if actions == [] {
    } else {
      CompletedInMember(actions[1..], u);
      assert Completes(actions[0], u) ==> actions[0] in actions;
      assert forall a :: a in actions <==> a == actions[0] || a in actions[1..];
    }
  }

  /** The same load actions, in any order and with any repetition. */
  ghost predicate SameLoads(A: seq<Action>, B: seq<Action>) {
    && (forall a :: a in A <==> a in B)
    && (forall a :: a in A ==> IsLoad(a))
  }

  lemma SameLoadsSameContents(A: seq<Action>, B: seq<Action>)
    requires SameLoads(A, B)
    ensures forall h :: h in HostsIn(A) <==> h in HostsIn(B)
    ensures forall e :: e in EnvsIn(A) <==> e in EnvsIn(B)
    ensures CompletedIn(A) == CompletedIn(B)
  {
    forall h
      ensures h in HostsIn(A) <==> h in HostsIn(B)
    {
      HostsInMember(A, h);
      HostsInMember(B, h);
    }
    forall e
      ensures e in EnvsIn(A) <==> e in EnvsIn(B)
    {
      EnvsInMember(A, e);
      EnvsInMember(B, e);
    }
    forall u
      ensures u in CompletedIn(A) <==> u in CompletedIn(B)
    {
      CompletedInMember(A, u);
      CompletedInMember(B, u);
    }
  }

  /** Whatever the payloads, the order does not matter for the host URLs, the environment keys and the waits. */
  lemma LoadsAgreeOnKeys(A: seq<Action>, B: seq<Action>, s: AppState)
    requires StoreInv(s) && SameLoads(A, B)
    ensures Fold(A, s).Some? && Fold(B, s).Some?
    ensures var a := Fold(A, s).value;
            var b := Fold(B, s).value;
            && (forall k :: HasKey(HostKeyOf, a.hosts, k) <==> HasKey(HostKeyOf, b.hosts, k))
            && (forall k :: HasKey(EnvKeyOf, a.envs, k) <==> HasKey(EnvKeyOf, b.envs, k))
            && a.waits == b.waits && a.runtimes == b.runtimes && a.loadStatus == b.loadStatus
  {
    FoldLoads(A, s);
    FoldLoads(B, s);
    SameLoadsSameContents(A, B);
    InsertAllKeys(HostKeyOf, s.hosts, HostsIn(A));
    InsertAllKeys(HostKeyOf, s.hosts, HostsIn(B));
    InsertAllKeys(EnvKeyOf, s.envs, EnvsIn(A));
    InsertAllKeys(EnvKeyOf, s.envs, EnvsIn(B));
    SameMembersSameKeys(HostKeyOf, HostsIn(A), HostsIn(B));
    SameMembersSameKeys(EnvKeyOf, EnvsIn(A), EnvsIn(B));
  }

  lemma SameMembersSameKeys<T, K>(key: T -> K, xs: seq<T>, ys: seq<T>)
    requires forall x :: x in xs <==> x in ys
    ensures forall k :: HasKey(key, xs, k) <==> HasKey(key, ys, k)
  {
    forall k
      ensures HasKey(key, xs, k) <==> HasKey(key, ys, k)
    {
      if HasKey(key, xs, k) {
        var i :| 0 <= i < |xs| && key(xs[i]) == k;
        assert xs[i] in ys;
        var j :| 0 <= j < |ys| && ys[j] == xs[i];
      }
      if HasKey(key, ys, k) {
        var i :| 0 <= i < |ys| && key(ys[i]) == k;
        assert ys[i] in xs;
        var j :| 0 <= j < |xs| && xs[j] == ys[i];
      }
    }
  }

  /** Hosts, or environments, not stored yet are the same wherever their keys are. */
  ghost predicate EqualPayloads(A: seq<Action>, s: AppState) {
    Agree(HostKeyOf, s.hosts, HostsIn(A)) && Agree(EnvKeyOf, s.envs, EnvsIn(A))
  }

  ghost predicate Permuted(a: AppState, b: AppState) {
    multiset(a.hosts) == multiset(b.hosts) && multiset(a.envs) == multiset(b.envs)
  }

  lemma LoadsArePermuted(A: seq<Action>, B: seq<Action>, s: AppState)
    requires StoreInv(s) && SameLoads(A, B) && EqualPayloads(A, s)
    ensures Fold(A, s).Some? && Fold(B, s).Some? && Permuted(Fold(A, s).value, Fold(B, s).value)
  {
    FoldLoads(A, s);
    FoldLoads(B, s);
    SameLoadsSameContents(A, B);
    InsertAllPermuted(HostKeyOf, s.hosts, HostsIn(A), HostsIn(B));
    InsertAllPermuted(EnvKeyOf, s.envs, EnvsIn(A), EnvsIn(B));
  }

  lemma InsertAllPermuted<T(!new), K>(key: T -> K, xs: seq<T>, news: seq<T>, others: seq<T>)
    requires Distinct(key, xs) && Agree(key, xs, news) && forall x :: x in news <==> x in others
    ensures multiset(InsertAll(key, xs, news)) == multiset(InsertAll(key, xs, others))
  {
    InsertAllKeys(key, xs, news);
    InsertAllKeys(key, xs, others);
    InsertAllMembers(key, xs, news);
    InsertAllMembers(key, xs, others);
    SameElements(key, InsertAll(key, xs, news), InsertAll(key, xs, others));
  }

  /** The same loads in another order. */
  ghost predicate Reordered(A: seq<Action>, B: seq<Action>) {
    multiset(A) == multiset(B)
  }

  lemma ReorderedSameLoads(A: seq<Action>, B: seq<Action>)
    requires Reordered(A, B) && forall a :: a in A ==> IsLoad(a)
    ensures SameLoads(A, B)
  {
    forall a
      ensures a in A <==> a in B
    {
      assert a in A <==> a in multiset(A);
      assert a in B <==> a in multiset(B);
    }
  }

  /**
   * Load confluence: the lists come out as permutations of each other, however the loads and
   * completions are ordered, exactly when those among them that are not stored yet carry equal
   * payloads for equal keys; and then it does not matter either how often each is repeated.
   */
  lemma LoadConfluence(A: seq<Action>, s: AppState)
    requires StoreInv(s) && forall a :: a in A ==> IsLoad(a)
    ensures (forall B, C | Reordered(A, B) && Reordered(A, C) ::
               Fold(B, s).Some? && Fold(C, s).Some? && Permuted(Fold(B, s).value, Fold(C, s).value))
            <==> EqualPayloads(A, s)
    ensures EqualPayloads(A, s) ==>
              (forall B, C | SameLoads(A, B) && SameLoads(A, C) ::
                 Fold(B, s).Some? && Fold(C, s).Some? && Permuted(Fold(B, s).value, Fold(C, s).value))
  {
    if EqualPayloads(A, s) {
      forall B, C | SameLoads(A, B) && SameLoads(A, C)
        ensures Fold(B, s).Some? && Fold(C, s).Some? && Permuted(Fold(B, s).value, Fold(C, s).value)
      {
        LoadsArePermuted(A, B, s);
        LoadsArePermuted(A, C, s);
      }
      forall B, C | Reordered(A, B) && Reordered(A, C)
        ensures SameLoads(A, B) && SameLoads(A, C)
      {
        ReorderedSameLoads(A, B);
        ReorderedSameLoads(A, C);
      }
    } else {
      var B, C;
      if Agree(HostKeyOf, s.hosts, HostsIn(A)) {
        B, C := EnvsDisagree(A, s);
      } else {
        B, C := HostsDisagree(A, s);
      }
    }
  }

  lemma HostsDisagree(A: seq<Action>, s: AppState) returns (B: seq<Action>, C: seq<Action>)
    requires StoreInv(s) && (forall a :: a in A ==> IsLoad(a))
    requires !Agree(HostKeyOf, s.hosts, HostsIn(A))
    ensures Reordered(A, B) && Reordered(A, C)
    ensures Fold(B, s).Some? && Fold(C, s).Some? && !Permuted(Fold(B, s).value, Fold(C, s).value)
  {
    var x, y :| x in HostsIn(A) && y in HostsIn(A) && x.url == y.url && !HasKey(HostKeyOf, s.hosts, HostKeyOf(x)) && x != y;
    HostsInMember(A, x);
    HostsInMember(A, y);
    var a :| a in A && LoadsHost(a, x);
    var b :| b in A && LoadsHost(b, y);
    B := FirstHostWins(A, a, s, y);
    C := FirstHostWins(A, b, s, x);
    assert x in multiset(Fold(B, s).value.hosts) && x !in multiset(Fold(C, s).value.hosts);
  }

  lemma EnvsDisagree(A: seq<Action>, s: AppState) returns (B: seq<Action>, C: seq<Action>)
    requires StoreInv(s) && (forall a :: a in A ==> IsLoad(a))
    requires !Agree(EnvKeyOf, s.envs, EnvsIn(A))
    ensures Reordered(A, B) && Reordered(A, C)
    ensures Fold(B, s).Some? && Fold(C, s).Some? && !Permuted(Fold(B, s).value, Fold(C, s).value)
  {
    var x, y :| x in EnvsIn(A) && y in EnvsIn(A) && EnvKeyOf(x) == EnvKeyOf(y) && !HasKey(EnvKeyOf, s.envs, EnvKeyOf(x)) && x != y;
    EnvsInMember(A, x);
    EnvsInMember(A, y);
    var a :| a in A && LoadsEnv(a, x);
    var b :| b in A && LoadsEnv(b, y);
    B := FirstEnvWins(A, a, s, y);
    C := FirstEnvWins(A, b, s, x);
    assert x in multiset(Fold(B, s).value.envs) && x !in multiset(Fold(C, s).value.envs);
  }

  /** Moving one of the actions to the front. */
  lemma Leading(A: seq<Action>, a: Action) returns (rest: seq<Action>)
    requires a in A && forall c :: c in A ==> IsLoad(c)
    ensures Reordered(A, [a] + rest)
    ensures forall c :: c in [a] + rest ==> IsLoad(c)
  {
    var i :| 0 <= i < |A| && A[i] == a;
    rest := A[..i] + A[i + 1..];
    assert A == A[..i] + [a] + A[i + 1..];
  }

  lemma FirstHostWins(A: seq<Action>, a: Action, s: AppState, y: Host) returns (B: seq<Action>)
    requires StoreInv(s) && (forall c :: c in A ==> IsLoad(c)) && a in A
    requires a.HostLoad? || a.HostCreateComplete?
    requires !HasKey(HostKeyOf, s.hosts, a.host.url) && y.url == a.host.url && y != a.host
    ensures Reordered(A, B) && Fold(B, s).Some?
    ensures a.host in Fold(B, s).value.hosts && y !in Fold(B, s).value.hosts
  {
    var rest := Leading(A, a);
    B := [a] + rest;
    FoldLoads(B, s);
    assert B[1..] == rest;
    FirstOneStays(HostKeyOf, s.hosts, a.host, HostsIn(rest), y);
  }

  lemma FirstEnvWins(A: seq<Action>, a: Action, s: AppState, y: Env) returns (B: seq<Action>)
    requires StoreInv(s) && (forall c :: c in A ==> IsLoad(c)) && a in A
    requires a.EnvLoad? || a.EnvCreateComplete?
    requires !HasKey(EnvKeyOf, s.envs, EnvKeyOf(a.env)) && EnvKeyOf(y) == EnvKeyOf(a.env) && y != a.env
    ensures Reordered(A, B) && Fold(B, s).Some?
    ensures a.env in Fold(B, s).value.envs && y !in Fold(B, s).value.envs
  {
    var rest := Leading(A, a);
    B := [a] + rest;
    FoldLoads(B, s);
    assert B[1..] == rest;
    FirstOneStays(EnvKeyOf, s.envs, a.env, EnvsIn(rest), y);
  }
}
