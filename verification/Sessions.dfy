/** OAuth2 states and CSRF tokens that are accepted once (RFC 6749, section 10.12). */
module Sessions {
  import opened Wrappers

  datatype Session = Session(key: string, state: string)

  const NO_SESSION := Session("", "")

  /** Requests to the handlers that touch sessions. Keys and states are the random strings drawn. */
  datatype Request =
    | Auth(key: string, state: string)
    | DeAuth(hasCredentials: bool, key: string, state: string)
    | Callback(cookie: Option<string>, stateParam: Option<string>, denied: bool, code: Option<string>)
    | Rescind(cookie: Option<string>, token: Option<string>)

  /** What the request presents to be accepted: a session key and a state. */
  function Presented(r: Request): Option<Session> {
    match r
    case Callback(Some(key), Some(state), false, _) => Some(Session(key, state))
    case Rescind(Some(key), Some(state)) => Some(Session(key, state))
    case _ => None
  }

  function Issued(r: Request): Option<Session> {
    match r
    case Auth(key, state) => Some(Session(key, state))
    case DeAuth(true, key, state) => Some(Session(key, state))
    case _ => None
  }

  // The in-memory store, with one slot.

  function FetchSlot(slot: Session, key: string): Option<Session> {
    if slot.key != key then None else Some(slot)
  }

  function DeleteSlot(slot: Session, key: string): Session {
    if slot.key == key then NO_SESSION else slot
  }

  predicate SlotAccepts(slot: Session, r: Request) {
    Presented(r).Some? && FetchSlot(slot, Presented(r).value.key) == Presented(r)
  }

  function SlotStep(slot: Session, r: Request): Session {
    if Issued(r).Some? then Issued(r).value
    else if SlotAccepts(slot, r) then DeleteSlot(slot, Presented(r).value.key)
    else slot
  }

  function SlotAfter(rs: seq<Request>): Session {
    if rs == [] then NO_SESSION else SlotStep(SlotAfter(rs[..|rs| - 1]), rs[|rs| - 1])
  }

  // A store that meets the interface: a map from keys to states.

  type Keyed = map<string, string>

  predicate KeyedAccepts(m: Keyed, r: Request) {
    Presented(r).Some? && Presented(r).value.key in m && m[Presented(r).value.key] == Presented(r).value.state
  }

  function KeyedStep(m: Keyed, r: Request): Keyed {
    if Issued(r).Some? then m[Issued(r).value.key := Issued(r).value.state]
    else if KeyedAccepts(m, r) then m - {Presented(r).value.key}
    else m
  }

  function KeyedAfter(rs: seq<Request>): Keyed {
    if rs == [] then map[] else KeyedStep(KeyedAfter(rs[..|rs| - 1]), rs[|rs| - 1])
  }

  /** The in-memory database object. */
  class InMemoryDB {
    var session: Session
    var credentials: map<string, string>

    constructor ()
      ensures session == NO_SESSION && credentials == map[]
    {
      session, credentials := NO_SESSION, map[];
    }

    method CreateOrUpdateSession(s: Session)
      modifies this`session
      ensures session == s
    {
      session := s;
    }

    method FetchSession(key: string) returns (r: Option<Session>)
      ensures r == FetchSlot(session, key)
    {
      if session.key != key {
        return None;
      }
      r := Some(session);
    }

    method DeleteSession(key: string)
      modifies this`session
      ensures session == DeleteSlot(old(session), key)
    {
      if session.key == key {
        session := NO_SESSION;
      }
    }
  }

  datatype AuthError = Denied | NoState | NoCookie | SessionNotFound | StateMismatch | NoCode | MissingToken | RevokeFailed

  /** The handlers, each taken to run without interruption. */
  class App {
    const db: InMemoryDB

    constructor (db: InMemoryDB)
      ensures this.db == db
    {
      this.db := db;
    }

    method AuthHandler(key: string, state: string)
      modifies db
      ensures db.session == SlotStep(old(db.session), Auth(key, state)) && db.credentials == old(db.credentials)
    {
      db.CreateOrUpdateSession(Session(key, state));
    }

    method DeAuthHandler(user: string, key: string, state: string)
      modifies db
      ensures db.session == SlotStep(old(db.session), DeAuth(user in db.credentials, key, state))
      ensures db.credentials == old(db.credentials)
    {
      if user !in db.credentials {
        return;
      }
      db.CreateOrUpdateSession(Session(key, state));
    }

    method FetchCookieSession(cookie: Option<string>) returns (r: Result<Session, AuthError>)
      ensures r == match cookie
                   case None => Failure(NoCookie)
                   case Some(key) => (match FetchSlot(db.session, key) case None => Failure(SessionNotFound) case Some(s) => Success(s))
    {
      match cookie
      case None => r := Failure(NoCookie);
      case Some(key) =>
        var s := db.FetchSession(key);
        r := if s.Some? then Success(s.value) else Failure(SessionNotFound);
    }

    /** The state is used up as soon as it matches, whether or not a code came with it. */
    method ParseAuthorizationResponse(cookie: Option<string>, state: Option<string>, denied: bool, code: Option<string>)
        returns (r: Result<string, AuthError>)
      modifies db
      ensures db.session == SlotStep(old(db.session), Callback(cookie, state, denied, code)) && db.credentials == old(db.credentials)
      ensures r.Success? <==> SlotAccepts(old(db.session), Callback(cookie, state, denied, code)) && code.Some?
      ensures r.Success? ==> code == Some(r.value)
    {
      if denied {
        return Failure(Denied);
      }
      if state.None? {
        return Failure(NoState);
      }
      var fetched := FetchCookieSession(cookie);
      if fetched.Failure? {
        return Failure(fetched.error);
      }
      var session := fetched.value;
      if state.value != session.state {
        return Failure(StateMismatch);
      }
      r := if code.Some? then Success(code.value) else Failure(NoCode);
      db.DeleteSession(session.key);
    }

    /** Once the token is accepted the credentials go, even if revoking them at the provider fails. */
    method RescindAuthorization(user: string, cookie: Option<string>, token: Option<string>, revokeOk: bool)
        returns (r: Result<bool, AuthError>)
      modifies db
      ensures db.session == SlotStep(old(db.session), Rescind(cookie, token))
      ensures db.credentials ==
                if SlotAccepts(old(db.session), Rescind(cookie, token)) then old(db.credentials) - {user} else old(db.credentials)
      ensures r.Success? <==>
                SlotAccepts(old(db.session), Rescind(cookie, token)) && (user in old(db.credentials) ==> revokeOk)
    {
      if token.None? {
        return Failure(MissingToken);
      }
      var fetched := FetchCookieSession(cookie);
      if fetched.Failure? {
        return Failure(fetched.error);
      }
      var session := fetched.value;
      if token.value != session.state {
        return Failure(StateMismatch);
      }
      if user in db.credentials {
        r := if revokeOk then Success(true) else Failure(RevokeFailed);
        db.credentials := db.credentials - {user};
      } else {
        r := Success(false);
      }
      db.DeleteSession(session.key);
    }
  }

  // Whole runs.

  /** Every key and state drawn in the run is new, and none is empty. */
  ghost predicate Fresh(rs: seq<Request>) {
    && (forall i :: 0 <= i < |rs| && Issued(rs[i]).Some? ==> Issued(rs[i]).value.key != "" && Issued(rs[i]).value.state != "")
    && (forall i, j :: 0 <= i < j < |rs| && Issued(rs[i]).Some? && Issued(rs[j]).Some? ==>
          Issued(rs[i]).value.key != Issued(rs[j]).value.key && Issued(rs[i]).value.state != Issued(rs[j]).value.state)
  }

  /** The slot holds nothing, or what the keyed store holds too. */
  ghost predicate SlotInKeyed(slot: Session, m: Keyed) {
    (slot == NO_SESSION || (slot.key in m && m[slot.key] == slot.state)) && "" !in m
  }

  lemma {:induction false} SlotFollowsKeyed(rs: seq<Request>)
    requires Fresh(rs)
    ensures SlotInKeyed(SlotAfter(rs), KeyedAfter(rs))
    decreases |rs|
  {
    if rs == [] {
    } else {
      SlotFollowsKeyed(rs[..|rs| - 1]);
    }
  }

  /** The i-th request is accepted by the one-slot store. */
  ghost predicate Accepted(rs: seq<Request>, i: nat) {
    i < |rs| && SlotAccepts(SlotAfter(rs[..i]), rs[i])
  }

  /** Request i issues a session that is neither replaced nor used up before request j. */
  ghost predicate LiveAt(rs: seq<Request>, i: nat, j: nat) {
    && i < j <= |rs| && Issued(rs[i]).Some?
    && forall k: nat :: i < k < j ==> Issued(rs[k]).None? && !Accepted(rs, k)
  }

  ghost predicate NothingLive(rs: seq<Request>, j: nat) {
    forall i: nat :: !LiveAt(rs, i, j)
  }

  /** The slot holds the session that is live, and is empty exactly when none is. */
  lemma {:induction false} SlotIsLive(rs: seq<Request>, j: nat)
    requires j <= |rs|
    ensures forall i: nat :: LiveAt(rs, i, j) ==> SlotAfter(rs[..j]) == Issued(rs[i]).value
    ensures NothingLive(rs, j) ==> SlotAfter(rs[..j]) == NO_SESSION
    decreases j
  {
    if j == 0 {
      assert rs[..0] == [];
    } else {
      var n := j - 1;
      SlotIsLive(rs, n);
      assert rs[..j][..n] == rs[..n];
      assert SlotAfter(rs[..j]) == SlotStep(SlotAfter(rs[..n]), rs[n]);
      forall i: nat | LiveAt(rs, i, j) && i < n
        ensures LiveAt(rs, i, n)
      {
      }
      if NothingLive(rs, j) {
        NothingBecameLive(rs, n);
      }
    }
  }

  /** If nothing is live after request n, it used up what was, or nothing was and it issued nothing. */
  lemma NothingBecameLive(rs: seq<Request>, n: nat)
    requires n < |rs| && NothingLive(rs, n + 1)
    ensures Issued(rs[n]).None?
    ensures Accepted(rs, n) || NothingLive(rs, n)
  {
    assert !LiveAt(rs, n, n + 1);
    if i: nat :| LiveAt(rs, i, n) {
      assert !LiveAt(rs, i, n + 1);
    }
  }

  /**
   * Acceptance, exactly: a request is accepted if and only if it presents the session of a request
   * before it that no other request has since replaced or used up, or, where there is none, the empty
   * session.
   */
  lemma AcceptedIffLive(rs: seq<Request>, j: nat)
    requires j < |rs|
    ensures Accepted(rs, j) <==>
              Presented(rs[j]).Some? &&
              ((exists i: nat :: LiveAt(rs, i, j) && Issued(rs[i]) == Presented(rs[j])) ||
               (NothingLive(rs, j) && Presented(rs[j]) == Some(NO_SESSION)))
  {
    SlotIsLive(rs, j);
    if i: nat :| LiveAt(rs, i, j) {
      assert SlotAfter(rs[..j]) == Issued(rs[i]).value;
    }
  }

  ghost predicate EmptyCookie(r: Request) {
    Presented(r).Some? && Presented(r).value.key == ""
  }

  /**
   * Refinement: of the requests that the one-slot store accepts, a keyed store that has seen the
   * same requests accepts exactly those whose session cookie is not empty.
   */
  lemma SlotRefinesKeyed(rs: seq<Request>, i: nat)
    requires Fresh(rs) && Accepted(rs, i)
    ensures KeyedAccepts(KeyedAfter(rs[..i]), rs[i]) <==> !EmptyCookie(rs[i])
  {
    SlotFollowsKeyed(rs[..i]);
  }

  /** An empty cookie is accepted exactly with an empty state, and while the slot is empty. */
  lemma EmptyCookieAccepted(rs: seq<Request>, i: nat)
    requires Fresh(rs) && i < |rs| && EmptyCookie(rs[i])
    ensures Accepted(rs, i) <==> Presented(rs[i]).value.state == "" && SlotAfter(rs[..i]) == NO_SESSION
  {
    SlotFollowsKeyed(rs[..i]);
  }

  ghost predicate IssuedAs(rs: seq<Request>, i: nat, key: string, state: string) {
    i < |rs| && Issued(rs[i]) == Some(Session(key, state))
  }

  /** Whatever the keyed store holds was issued in the run. */
  lemma {:induction false} KeyedWasIssued(rs: seq<Request>, key: string) returns (i: nat)
    requires key in KeyedAfter(rs)
    ensures IssuedAs(rs, i, key, KeyedAfter(rs)[key])
    decreases |rs|
  {
    var n := |rs| - 1;
    if Issued(rs[n]).Some? && Issued(rs[n]).value.key == key {
      i := n;
    } else {
      i := KeyedWasIssued(rs[..n], key);
    }
  }

  /** Once the session of a key has been used up it is never there again. */
  lemma {:induction false} StaysUsedUp(rs: seq<Request>, i: nat, j: nat, key: string)
    requires Fresh(rs) && i <= j <= |rs|
    requires key !in KeyedAfter(rs[..i])
    requires exists h :: 0 <= h < i && Issued(rs[h]).Some? && Issued(rs[h]).value.key == key
    ensures key !in KeyedAfter(rs[..j])
    decreases j - i
  {
    if i == j {
    } else {
      var h :| 0 <= h < i && Issued(rs[h]).Some? && Issued(rs[h]).value.key == key;
      assert rs[..i + 1][..i] == rs[..i];
      assert key !in KeyedAfter(rs[..i + 1]);
      StaysUsedUp(rs, i + 1, j, key);
    }
  }

  /** In a keyed store each state is accepted at most once. */
  lemma KeyedSingleUse(rs: seq<Request>, i: nat, j: nat)
    requires Fresh(rs) && i < j < |rs|
    requires KeyedAccepts(KeyedAfter(rs[..i]), rs[i]) && KeyedAccepts(KeyedAfter(rs[..j]), rs[j])
    ensures Presented(rs[i]).value.state != Presented(rs[j]).value.state
  {
    var a, b := Presented(rs[i]).value, Presented(rs[j]).value;
    var h := KeyedWasIssued(rs[..i], a.key);
    var k := KeyedWasIssued(rs[..j], b.key);
    assert Issued(rs[h]) == Some(a) && Issued(rs[k]) == Some(b);
    assert rs[..i + 1][..i] == rs[..i];
    assert a.key !in KeyedAfter(rs[..i + 1]);
    StaysUsedUp(rs, i + 1, j, a.key);
    assert h != k;
  }

  /** No two accepted requests present the same state. */
  ghost predicate StatesUsedOnce(rs: seq<Request>) {
    forall i: nat, j: nat :: i < j && Accepted(rs, i) && Accepted(rs, j) ==>
      Presented(rs[i]).value.state != Presented(rs[j]).value.state
  }

  ghost predicate OneEmptyCookie(rs: seq<Request>) {
    forall i: nat, j: nat :: i < j && Accepted(rs, i) && Accepted(rs, j) ==> !EmptyCookie(rs[i]) || !EmptyCookie(rs[j])
  }

  lemma AcceptedStateIsEmpty(rs: seq<Request>, i: nat)
    requires Fresh(rs) && Accepted(rs, i)
    ensures Presented(rs[i]).value.state == "" <==> EmptyCookie(rs[i])
  {
    SlotRefinesKeyed(rs, i);
    if EmptyCookie(rs[i]) {
      EmptyCookieAccepted(rs, i);
    } else {
      var k := KeyedWasIssued(rs[..i], Presented(rs[i]).value.key);
      assert rs[..i][k] == rs[k];
    }
  }

  /** Two accepted requests with the same state present an empty one, both with an empty cookie. */
  lemma RepeatedStateIsEmpty(rs: seq<Request>, i: nat, j: nat)
    requires Fresh(rs) && i < j && Accepted(rs, i) && Accepted(rs, j)
    requires Presented(rs[i]).value.state == Presented(rs[j]).value.state
    ensures Presented(rs[i]) == Presented(rs[j]) == Some(NO_SESSION)
  {
    AcceptedStateIsEmpty(rs, i);
    AcceptedStateIsEmpty(rs, j);
    SlotRefinesKeyed(rs, i);
    SlotRefinesKeyed(rs, j);
    if !EmptyCookie(rs[i]) {
      KeyedSingleUse(rs, i, j);
    }
  }

  /**
   * Single use: with fresh keys and states, whatever cookies the clients send, each state value is
   * accepted at most once in a run, across authorization callbacks and rescissions, exactly when at
   * most one request with an empty cookie is.
   */
  lemma SingleUse(rs: seq<Request>)
    requires Fresh(rs)
    ensures StatesUsedOnce(rs) <==> OneEmptyCookie(rs)
  {
    forall i: nat, j: nat | i < j && Accepted(rs, i) && Accepted(rs, j)
      ensures Presented(rs[i]).value.state == Presented(rs[j]).value.state <==> EmptyCookie(rs[i]) && EmptyCookie(rs[j])
    {
      if Presented(rs[i]).value.state == Presented(rs[j]).value.state {
        RepeatedStateIsEmpty(rs, i, j);
      }
      if EmptyCookie(rs[i]) && EmptyCookie(rs[j]) {
        EmptyCookieAccepted(rs, i);
        EmptyCookieAccepted(rs, j);
      }
    }
  }

  /** The callback with an empty cookie and an empty state, `n` times in a row. */
  function EmptyCallbacks(n: nat): seq<Request> {
    seq(n, _ => Callback(Some(""), Some(""), false, Some("code")))
  }

  lemma {:induction false} EmptyCallbacksLeaveSlot(n: nat)
    ensures SlotAfter(EmptyCallbacks(n)) == NO_SESSION
  {
    if n == 0 {
    } else {
      assert EmptyCallbacks(n)[..n - 1] == EmptyCallbacks(n - 1);
      EmptyCallbacksLeaveSlot(n - 1);
    }
  }

  /** On an empty slot that callback is accepted every time. */
  lemma EmptyStateAcceptedAgain(n: nat, i: nat)
    requires i < n
    ensures Fresh(EmptyCallbacks(n)) && Accepted(EmptyCallbacks(n), i)
  {
    assert EmptyCallbacks(n)[..i] == EmptyCallbacks(i);
    EmptyCallbacksLeaveSlot(i);
  }

  /** The interface promises that nothing is found once deleted; an empty slot breaks that for the empty key only. */
  lemma DeletedIsGone(slot: Session, key: string)
    ensures FetchSlot(DeleteSlot(slot, key), key).None? <==> key != "" || slot.key != ""
  {
  }
}
