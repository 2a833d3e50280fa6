/**
 Server-side sessions: a keyed store whose records lapse, filled by login, rewritten by the
 access-token refresh and by the profile wizards, emptied by logout and by rejected refreshes.

 `Exec` runs events in any order, with requests open side by side: `Begin` is a request's load,
 `Finish` or `Amend` its later save. `Run` runs whole requests one after the other, which is how
 one browser tab at a time uses a session. Time is in integer nanoseconds.

 Assumed: the cache honours its expiry times; a failed call to it took effect entirely or not at
 all; a login's session ID has not been used before.
 */
module Sessions {
  import opened Prelude

  datatype Session = Session(
    accessToken: string, accessExpiry: int, refreshToken: string,
    userId: string, dni: string, shippingAddress: string)

  datatype Record = Record(session: Session, expiry: int)

  /** Token duration, refresh interval, and how long a saved record lives. */
  datatype Config = Config(duration: int, interval: int, ttl: int)

  type Store = map<string, Record>

  predicate Resolves(store: Store, now: int, id: string) {
    id in store && now < store[id].expiry
  }

  predicate NeedsRefresh(now: int, accessExpiry: int, interval: int) {
    accessExpiry - now <= interval
  }

  /** A call to the cache: it took effect and said so, did nothing, or took effect but reported an error. */
  datatype Outcome = Done | NotDone | DoneUnacknowledged

  function Saved(cfg: Config, store: Store, now: int, id: string, session: Session, outcome: Outcome): Store {
    if outcome.NotDone? then store else store[id := Record(session, now + cfg.ttl)]
  }

  function Removed(store: Store, id: string, outcome: Outcome): Store {
    if outcome.NotDone? then store else store - {id}
  }

  // --- Login ---------------------------------------------------------------------------------

  datatype User = User(id: string, dni: string)

  /** The remote answers login gets, in order; `None` and `false` are errors. */
  datatype LoginAnswers = LoginAnswers(
    adminToken: bool, user: Option<User>, addresses: Option<(bool, string)>,
    tokens: Option<(string, string)>, freshId: Option<string>, save: Outcome)

  datatype LoginResult = LoginFailed | LoggedIn(id: string, session: Session)

  /** The answers a session can be made of. */
  predicate Usable(a: LoginAnswers) {
    && a.adminToken && a.user.Some? && a.user.value.id != "" && a.addresses.Some?
    && a.tokens.Some? && a.tokens.value.0 != "" && a.freshId.Some?
  }

  function NewSession(cfg: Config, now: int, a: LoginAnswers): Session
    requires Usable(a)
  {
    var (hasAddresses, first) := a.addresses.value;
    Session(a.tokens.value.0, now + cfg.duration, a.tokens.value.1,
            a.user.value.id, a.user.value.dni, if hasAddresses then first else "")
  }

  function LoginOutcome(cfg: Config, store: Store, now: int, a: LoginAnswers): (Store, LoginResult) {
    if !Usable(a) then (store, LoginFailed)
    else
      var session := NewSession(cfg, now, a);
      (Saved(cfg, store, now, a.freshId.value, session, a.save),
       if a.save.Done? then LoggedIn(a.freshId.value, session) else LoginFailed)
  }

  // --- Refresh -------------------------------------------------------------------------------

  /** What a refresh comes to: a failure that says nothing, an explicit rejection, an empty answer, or a token. */
  datatype RefreshAnswer = Unreachable | Rejected(removal: Outcome) | NoToken | NewToken(token: string, save: Outcome)

  function Refreshed(cfg: Config, now: int, session: Session, token: string): Session {
    session.(accessToken := token, accessExpiry := now + cfg.duration)
  }

  /** An answer that carries a token. */
  predicate Minted(answer: RefreshAnswer) {
    answer.NewToken? && answer.token != ""
  }

  function FinishStore(cfg: Config, store: Store, now: int, id: string, session: Session, answer: RefreshAnswer): Store {
    if answer.Rejected? then Removed(store, id, answer.removal)
    else if Minted(answer) then Saved(cfg, store, now, id, Refreshed(cfg, now, session, answer.token), answer.save)
    else store
  }

  /** The session the request goes on with; `None` is "not logged in". */
  function FinishSession(cfg: Config, now: int, session: Session, answer: RefreshAnswer): Option<Session> {
    if answer.Rejected? then None
    else if Minted(answer) && answer.save.Done? then Some(Refreshed(cfg, now, session, answer.token))
    else Some(session)
  }

  // --- The profile wizards -------------------------------------------------------------------

  datatype Change = Dni(dni: string) | Address(shippingAddress: string)

  function Amended(session: Session, change: Change): Session {
    match change
    case Dni(dni) => session.(dni := dni)
    case Address(a) => session.(shippingAddress := a)
  }

  // --- The machine ---------------------------------------------------------------------------

  /** A request between its load and its save, with its own copy of the session. */
  datatype Pending = Pending(id: string, session: Session, refresh: bool)

  /**
   `issued` remembers every session ID ever stored, with the user and refresh token it was stored for;
   `stamps` the times of its login and of its stored refreshes.
   */
  datatype Sys = Sys(
    now: int, store: Store, pending: map<nat, Pending>,
    issued: map<string, (string, string)>, stamps: map<string, seq<int>>)

  datatype Event =
    | Tick(elapsed: nat)
    | Login(answers: LoginAnswers)
    | Begin(request: nat, id: string, refresh: bool)
    | Finish(request: nat, answer: RefreshAnswer)
    | Amend(request: nat, change: Change, save: Outcome)
    | Logout(id: string, removal: Outcome)

  function Stamps(s: Sys, id: string): seq<int> {
    if id in s.stamps then s.stamps[id] else []
  }

  /** One event; an event that is not possible in the current state changes nothing. */
  function Step(cfg: Config, s: Sys, e: Event): Sys {
    match e
    case Tick(d) => s.(now := s.now + d)
    case Login(a) =>
      if !Usable(a) || a.freshId.value in s.issued || a.save.NotDone? then s
      else
        var id := a.freshId.value;
        s.(store := LoginOutcome(cfg, s.store, s.now, a).0,
           issued := s.issued[id := (a.user.value.id, a.tokens.value.1)],
           stamps := s.stamps[id := [s.now]])
    case Begin(r, id, refresh) =>
      if r in s.pending || !Resolves(s.store, s.now, id) ||
         (refresh && !NeedsRefresh(s.now, s.store[id].session.accessExpiry, cfg.interval)) then s
      else s.(pending := s.pending[r := Pending(id, s.store[id].session, refresh)])
    case Finish(r, answer) =>
      if r !in s.pending || !s.pending[r].refresh then s
      else
        var p := s.pending[r];
        s.(store := FinishStore(cfg, s.store, s.now, p.id, p.session, answer),
           pending := s.pending - {r},
           stamps := if Minted(answer) && !answer.save.NotDone?
                     then s.stamps[p.id := Stamps(s, p.id) + [s.now]] else s.stamps)
    case Amend(r, change, save) =>
      if r !in s.pending || s.pending[r].refresh then s
      else
        var p := s.pending[r];
        s.(store := Saved(cfg, s.store, s.now, p.id, Amended(p.session, change), save), pending := s.pending - {r})
    case Logout(id, removal) => s.(store := Removed(s.store, id, removal))
  }

  function Exec(cfg: Config, s: Sys, es: seq<Event>): Sys {
    if |es| == 0 then s else Step(cfg, Exec(cfg, s, es[..|es| - 1]), es[|es| - 1])
  }

  lemma {:induction false} ExecConcat(cfg: Config, s: Sys, a: seq<Event>, b: seq<Event>)
    ensures Exec(cfg, s, a + b) == Exec(cfg, Exec(cfg, s, a), b)
    decreases |b|
  {
    if |b| == 0 {
      assert a + b == a;
    } else {
      assert (a + b)[..|a + b| - 1] == a + b[..|b| - 1];
      ExecConcat(cfg, s, a, b[..|b| - 1]);
    }
  }

  function Init(now: int): Sys {
    Sys(now, map[], map[], map[], map[])
  }

  // --- What every event keeps ----------------------------------------------------------------

  /** A session that can still act for the user it was issued to. */
  ghost predicate Genuine(s: Sys, id: string, session: Session) {
    && id in s.issued && s.issued[id] == (session.userId, session.refreshToken)
    && session.userId != "" && session.accessToken != ""
  }

  ghost predicate Inv(cfg: Config, s: Sys) {
    && (forall id :: id in s.store ==> Genuine(s, id, s.store[id].session) && s.store[id].expiry <= s.now + cfg.ttl)
    && (forall r :: r in s.pending ==> Genuine(s, s.pending[r].id, s.pending[r].session))
  }

  ghost predicate IssuedKept(s: Sys, s': Sys) {
    forall id :: id in s.issued ==> id in s'.issued && s'.issued[id] == s.issued[id]
  }

  lemma LoginKeeps(cfg: Config, s: Sys, a: LoginAnswers)
    requires Inv(cfg, s)
    ensures Inv(cfg, Step(cfg, s, Login(a)))
    ensures IssuedKept(s, Step(cfg, s, Login(a)))
  {
  }

  lemma FinishKeeps(cfg: Config, s: Sys, r: nat, answer: RefreshAnswer)
    requires Inv(cfg, s)
    ensures Inv(cfg, Step(cfg, s, Finish(r, answer)))
  {
    if r in s.pending && s.pending[r].refresh {
      assert Genuine(s, s.pending[r].id, s.pending[r].session);
    }
  }

  lemma AmendKeeps(cfg: Config, s: Sys, r: nat, change: Change, save: Outcome)
    requires Inv(cfg, s)
    ensures Inv(cfg, Step(cfg, s, Amend(r, change, save)))
  {
    if r in s.pending && !s.pending[r].refresh {
      assert Genuine(s, s.pending[r].id, s.pending[r].session);
    }
  }

  lemma StepKeeps(cfg: Config, s: Sys, e: Event)
    requires Inv(cfg, s)
    ensures Inv(cfg, Step(cfg, s, e))
    ensures IssuedKept(s, Step(cfg, s, e))
  {
    match e
    case Login(a) => LoginKeeps(cfg, s, a);
    case Finish(r, answer) => FinishKeeps(cfg, s, r, answer);
    case Amend(r, change, save) => AmendKeeps(cfg, s, r, change, save);
    case _ =>
  }

  lemma {:induction false} ExecKeeps(cfg: Config, s: Sys, es: seq<Event>)
    requires Inv(cfg, s)
    ensures Inv(cfg, Exec(cfg, s, es))
    ensures IssuedKept(s, Exec(cfg, s, es))
  {
    if |es| == 0 {
    } else {
      ExecKeeps(cfg, s, es[..|es| - 1]);
      StepKeeps(cfg, Exec(cfg, s, es[..|es| - 1]), es[|es| - 1]);
    }
  }

  /**
   In every reachable state, with any interleaving of requests, a stored session has a user and an access
   token, and the user and refresh token are those of the login that issued its ID, whatever came between.
   */
  lemma StoredSessionsAreGenuine(cfg: Config, now: int, es: seq<Event>, later: seq<Event>, id: string)
    ensures var s := Exec(cfg, Init(now), es); var s' := Exec(cfg, s, later);
      && (id in s.store ==> s.store[id].session.userId != "" && s.store[id].session.accessToken != "")
      && (id in s.store && id in s'.store ==>
            s'.store[id].session.userId == s.store[id].session.userId &&
            s'.store[id].session.refreshToken == s.store[id].session.refreshToken)
  {
    ExecKeeps(cfg, Init(now), es);
    ExecKeeps(cfg, Exec(cfg, Init(now), es), later);
  }

  // --- Lifetime ------------------------------------------------------------------------------

  /** The event saves a record under the ID. */
  predicate Saves(s: Sys, e: Event, id: string) {
    match e
    case Login(a) => Usable(a) && a.freshId.value == id && !a.save.NotDone?
    case Finish(r, answer) => r in s.pending && s.pending[r].id == id && Minted(answer) && !answer.save.NotDone?
    case Amend(r, _, save) => r in s.pending && s.pending[r].id == id && !save.NotDone?
    case _ => false
  }

  /** A record is what that save left under the ID, and it lapses TTL after it. */
  ghost predicate SavedAt(cfg: Config, s: Sys, es: seq<Event>, k: nat, id: string, record: Record)
    requires k < |es|
  {
    var at := Exec(cfg, s, es[..k]);
    var after := Exec(cfg, s, es[..k + 1]);
    && Saves(at, es[k], id) && id in after.store && after.store[id] == record
    && record.expiry == at.now + cfg.ttl && at.now <= Exec(cfg, s, es).now
  }

  lemma StepStore(cfg: Config, s: Sys, e: Event, id: string)
    requires id in Step(cfg, s, e).store
    ensures
      || (id in s.store && Step(cfg, s, e).store[id] == s.store[id])
      || (Saves(s, e, id) && Step(cfg, s, e).store[id].expiry == s.now + cfg.ttl)
    ensures s.now <= Step(cfg, s, e).now
  {
  }

  lemma {:induction false} RecordsComeFromSaves(cfg: Config, now: int, es: seq<Event>, id: string) returns (k: nat)
    requires id in Exec(cfg, Init(now), es).store
    ensures k < |es| && SavedAt(cfg, Init(now), es, k, id, Exec(cfg, Init(now), es).store[id])
  {
    var n := |es| - 1;
    var before := Exec(cfg, Init(now), es[..n]);
    StepStore(cfg, before, es[n], id);
    if id in before.store && Exec(cfg, Init(now), es).store[id] == before.store[id] {
      k := RecordsComeFromSaves(cfg, now, es[..n], id);
      assert es[..n][..k] == es[..k] && es[..n][..k + 1] == es[..k + 1];
    } else {
      assert es[..n + 1] == es;
      k := n;
    }
  }

  /** A session that resolves was saved, by a login, a refresh or a wizard, less than TTL ago; loading it never extends that. */
  lemma BoundedLifetime(cfg: Config, now: int, es: seq<Event>, id: string) returns (k: nat)
    requires Resolves(Exec(cfg, Init(now), es).store, Exec(cfg, Init(now), es).now, id)
    ensures k < |es| && Saves(Exec(cfg, Init(now), es[..k]), es[k], id)
    ensures id in Exec(cfg, Init(now), es[..k + 1]).store
    ensures Exec(cfg, Init(now), es[..k + 1]).store[id] == Exec(cfg, Init(now), es).store[id]
    ensures Exec(cfg, Init(now), es).now - cfg.ttl < Exec(cfg, Init(now), es[..k]).now <= Exec(cfg, Init(now), es).now
  {
    k := RecordsComeFromSaves(cfg, now, es, id);
  }

  // --- Removal -------------------------------------------------------------------------------

  /** The event ends a session that resolved: a logout, an explicitly rejected refresh, or its record lapsing. */
  predicate Ends(s: Sys, e: Event, id: string) {
    && Resolves(s.store, s.now, id)
    && match e
       case Logout(removed, removal) => removed == id && !removal.NotDone?
       case Finish(r, answer) => r in s.pending && s.pending[r].id == id && answer.Rejected? && !answer.removal.NotDone?
       case Tick(d) => s.store[id].expiry <= s.now + d
       case _ => false
  }

  /** A session that resolved and no longer does was ended by one of those three; no failed refresh ever removes one. */
  lemma {:induction false} RemovalIsJustified(cfg: Config, s: Sys, es: seq<Event>, id: string) returns (k: nat)
    requires Resolves(s.store, s.now, id) && cfg.ttl > 0
    requires !Resolves(Exec(cfg, s, es).store, Exec(cfg, s, es).now, id)
    ensures k < |es| && Ends(Exec(cfg, s, es[..k]), es[k], id)
  {
    var n := |es| - 1;
    var before := Exec(cfg, s, es[..n]);
    if Resolves(before.store, before.now, id) {
      k := n;
    } else {
      k := RemovalIsJustified(cfg, s, es[..n], id);
      assert es[..n][..k] == es[..k] && es[..n][k] == es[k];
    }
  }

  ghost predicate InFlight(s: Sys, id: string) {
    exists r :: r in s.pending && s.pending[r].id == id
  }

  ghost predicate NeverAgain(cfg: Config, s: Sys, id: string) {
    forall es: seq<Event> :: !Resolves(Exec(cfg, s, es).store, Exec(cfg, s, es).now, id)
  }

  lemma GoneStep(cfg: Config, s: Sys, e: Event, id: string)
    requires id in s.issued && !Resolves(s.store, s.now, id) && !InFlight(s, id)
    ensures var s' := Step(cfg, s, e);
      id in s'.issued && !Resolves(s'.store, s'.now, id) && !InFlight(s', id)
  {
    match e
    case Finish(r, _) => assert r in s.pending ==> s.pending[r].id != id;
    case Amend(r, _, _) => assert r in s.pending ==> s.pending[r].id != id;
    case _ =>
  }

  lemma {:induction false} GoneStaysGone(cfg: Config, s: Sys, es: seq<Event>, id: string)
    requires id in s.issued && !Resolves(s.store, s.now, id) && !InFlight(s, id)
    ensures var s' := Exec(cfg, s, es);
      id in s'.issued && !Resolves(s'.store, s'.now, id) && !InFlight(s', id)
  {
    if |es| == 0 {
    } else {
      GoneStaysGone(cfg, s, es[..|es| - 1], id);
      GoneStep(cfg, Exec(cfg, s, es[..|es| - 1]), es[|es| - 1], id);
    }
  }

  /** A session that no longer resolves is gone for good exactly when no request that loaded it is still open. */
  lemma RemovalIsFinal(cfg: Config, s: Sys, id: string)
    requires id in s.issued && !Resolves(s.store, s.now, id) && cfg.ttl > 0
    ensures NeverAgain(cfg, s, id) <==> !InFlight(s, id)
  {
    if InFlight(s, id) {
      var r :| r in s.pending && s.pending[r].id == id;
      var e := if s.pending[r].refresh then Finish(r, NewToken("t", Done)) else Amend(r, Dni(""), Done);
      assert [e][..0] == [];
      assert Exec(cfg, s, [e]) == Step(cfg, s, e);
      assert Resolves(Exec(cfg, s, [e]).store, Exec(cfg, s, [e]).now, id);
    } else {
      forall es: seq<Event>
        ensures !Resolves(Exec(cfg, s, es).store, Exec(cfg, s, es).now, id)
      {
        GoneStaysGone(cfg, s, es, id);
      }
    }
  }

  // --- One request at a time -----------------------------------------------------------------

  /** What a user does with one tab: wait, log in, make a request (with a remote call that takes a while), fill in a wizard, log out. */
  datatype Visit =
    | Wait(elapsed: nat)
    | SignIn(answers: LoginAnswers)
    | Request(id: string, delay: nat, answer: RefreshAnswer)
    | Profile(id: string, delay: nat, change: Change, save: Outcome)
    | SignOut(id: string, removal: Outcome)

  function Events(v: Visit): seq<Event> {
    match v
    case Wait(d) => [Tick(d)]
    case SignIn(a) => [Login(a)]
    case Request(id, d, answer) => [Begin(0, id, true), Tick(d), Finish(0, answer)]
    case Profile(id, d, change, save) => [Begin(0, id, false), Tick(d), Amend(0, change, save)]
    case SignOut(id, removal) => [Logout(id, removal)]
  }

  function Do(cfg: Config, s: Sys, v: Visit): Sys {
    match v
    case Wait(d) => Step(cfg, s, Tick(d))
    case SignIn(a) => Step(cfg, s, Login(a))
    case Request(id, d, answer) => Step(cfg, Step(cfg, Step(cfg, s, Begin(0, id, true)), Tick(d)), Finish(0, answer))
    case Profile(id, d, change, save) => Step(cfg, Step(cfg, Step(cfg, s, Begin(0, id, false)), Tick(d)), Amend(0, change, save))
    case SignOut(id, removal) => Step(cfg, s, Logout(id, removal))
  }

  function Run(cfg: Config, s: Sys, vs: seq<Visit>): Sys {
    if |vs| == 0 then s else Do(cfg, Run(cfg, s, vs[..|vs| - 1]), vs[|vs| - 1])
  }

  function Flatten(vs: seq<Visit>): seq<Event> {
    if |vs| == 0 then [] else Flatten(vs[..|vs| - 1]) + Events(vs[|vs| - 1])
  }

  lemma ExecOne(cfg: Config, s: Sys, a: Event)
    ensures Exec(cfg, s, [a]) == Step(cfg, s, a)
  {
    assert [a][..0] == [];
  }

  lemma ExecThree(cfg: Config, s: Sys, a: Event, b: Event, c: Event)
    ensures Exec(cfg, s, [a, b, c]) == Step(cfg, Step(cfg, Step(cfg, s, a), b), c)
  {
    ExecOne(cfg, s, a);
    assert [a, b, c][..2] == [a, b] && [a, b][..1] == [a];
    assert Exec(cfg, s, [a, b]) == Step(cfg, Exec(cfg, s, [a]), b);
  }

  /** A run of whole requests is one of the machine's schedules. */
  lemma {:induction false} RunIsExec(cfg: Config, s: Sys, vs: seq<Visit>)
    ensures Run(cfg, s, vs) == Exec(cfg, s, Flatten(vs))
  {
    if |vs| == 0 {
    } else {
      var v := vs[|vs| - 1];
      var before := Run(cfg, s, vs[..|vs| - 1]);
      RunIsExec(cfg, s, vs[..|vs| - 1]);
      ExecConcat(cfg, s, Flatten(vs[..|vs| - 1]), Events(v));
      match v
      case Wait(d) => ExecOne(cfg, before, Tick(d));
      case SignIn(a) => ExecOne(cfg, before, Login(a));
      case Request(id, d, answer) => ExecThree(cfg, before, Begin(0, id, true), Tick(d), Finish(0, answer));
      case Profile(id, d, change, save) => ExecThree(cfg, before, Begin(0, id, false), Tick(d), Amend(0, change, save));
      case SignOut(id, removal) => ExecOne(cfg, before, Logout(id, removal));
    }
  }
}
