/**
 The code that works on sessions, step by step: the store over its cache, login, the
 refreshing load each request starts with, and logout. Remote answers, cache outcomes and the
 time a remote call takes come in as parameters.
 */
module SessionApp {
  import opened Prelude
  import S = Sessions
  import T = SessionTiming

  /** The cookie holds a session ID, if anything usable. */
  function SessionId(cookie: Option<string>): Option<string> {
    if cookie.Some? && cookie.value == "" then None else cookie
  }

  class App {
    const cfg: S.Config
    var now: int
    var store: S.Store

    constructor (cfg: S.Config, now: int)
      ensures this.cfg == cfg && this.now == now && store == map[]
    {
      this.cfg, this.now, store := cfg, now, map[];
    }

    // --- The store over its cache ------------------------------------------------------------

    method Save(id: string, session: S.Session, outcome: S.Outcome) returns (ok: bool)
      modifies this`store
      ensures ok <==> outcome.Done?
      ensures outcome.NotDone? ==> store == old(store)
      ensures !outcome.NotDone? ==> store == old(store)[id := S.Record(session, now + cfg.ttl)]
    {
      if !outcome.NotDone? {
        store := store[id := S.Record(session, now + cfg.ttl)];
      }
      ok := outcome.Done?;
    }

    /** A record that has lapsed is as good as missing; loading changes nothing. */
    method Load(id: string, reachable: bool) returns (session: Option<S.Session>)
      ensures session.Some? <==> reachable && id in store && now < store[id].expiry
      ensures session.Some? ==> session.value == store[id].session
    {
      if !reachable || id !in store || now >= store[id].expiry {
        return None;
      }
      session := Some(store[id].session);
    }

    method Delete(id: string, outcome: S.Outcome) returns (ok: bool)
      modifies this`store
      ensures ok <==> outcome.Done?
      ensures store == if outcome.NotDone? then old(store) else old(store) - {id}
    {
      if !outcome.NotDone? {
        store := store - {id};
      }
      ok := outcome.Done?;
    }

    // --- Login -------------------------------------------------------------------------------

    /**
     All or nothing: a login that succeeds has stored exactly the session it returns, under the fresh ID,
     and the ID resolves to it; a login that fails has changed nothing, unless the very last step, the save,
     took effect and reported an error.
     */
    method Login(a: S.LoginAnswers) returns (result: S.LoginResult)
      modifies this`store
      ensures (store, result) == S.LoginOutcome(cfg, old(store), now, a)
      ensures result.LoggedIn? <==>
        && a.adminToken && a.user.Some? && a.user.value.id != "" && a.addresses.Some?
        && a.tokens.Some? && a.tokens.value.0 != "" && a.freshId.Some? && a.save.Done?
      ensures result.LoggedIn? ==> result.session == S.Session(
          a.tokens.value.0, now + cfg.duration, a.tokens.value.1, a.user.value.id, a.user.value.dni,
          if a.addresses.value.0 then a.addresses.value.1 else "")
      ensures result.LoggedIn? ==>
        && a.freshId == Some(result.id) && store == old(store)[result.id := S.Record(result.session, now + cfg.ttl)]
        && (cfg.ttl > 0 ==> S.Resolves(store, now, result.id))
        && result.session.userId != "" && result.session.accessToken != ""
        && result.session.accessExpiry == now + cfg.duration
      ensures result.LoginFailed? && store != old(store) ==> S.Usable(a) && a.save.DoneUnacknowledged?
    {
      result := S.LoginFailed;
      if !a.adminToken || a.user.None? {
        return;
      }
      var user := a.user.value;
      var session := S.Session("", 0, "", "", "", "");
      session := session.(userId := user.id);
      if user.dni != "" {
        session := session.(dni := user.dni);
      }
      if session.userId == "" {
        return;
      }
      if a.addresses.None? {
        return;
      }
      var (hasAddresses, first) := a.addresses.value;
      if hasAddresses {
        session := session.(shippingAddress := first);
      }
      if a.tokens.None? {
        return;
      }
      session := session.(accessToken := a.tokens.value.0);
      session := session.(accessExpiry := now + cfg.duration);
      session := session.(refreshToken := a.tokens.value.1);
      if session.accessToken == "" {
        return;
      }
      if a.freshId.None? {
        return;
      }
      var saved := Save(a.freshId.value, session, a.save);
      if saved {
        result := S.LoggedIn(a.freshId.value, session);
      }
    }

    // --- Each request ------------------------------------------------------------------------

    /** The refresh: `None` is an explicit rejection, any other failure leaves the caller with the session it had. */
    method RefreshIfNeeded(id: string, session: S.Session, delay: nat, answer: S.RefreshAnswer) returns (result: Option<S.Session>)
      modifies this`store, this`now
      ensures now == old(now) + delay
      ensures S.NeedsRefresh(old(now), session.accessExpiry, cfg.interval) ==>
        && result == S.FinishSession(cfg, now, session, answer)
        && store == (if answer.Rejected? then old(store) else S.FinishStore(cfg, old(store), now, id, session, answer))
      ensures !S.NeedsRefresh(old(now), session.accessExpiry, cfg.interval) ==> result == Some(session) && store == old(store)
      ensures result.None? <==> session.accessExpiry - old(now) <= cfg.interval && answer.Rejected?
      ensures session.accessExpiry - old(now) <= cfg.interval && answer.NewToken? && answer.token != "" ==>
        var refreshed := session.(accessToken := answer.token, accessExpiry := now + cfg.duration);
        && result == Some(if answer.save.Done? then refreshed else session)
        && store == if answer.save.NotDone? then old(store) else old(store)[id := S.Record(refreshed, now + cfg.ttl)]
    {
      var due := session.accessExpiry - now <= cfg.interval;
      now := now + delay;
      result := Some(session);
      if !due {
        return;
      }
      match answer
      case Unreachable =>
      case Rejected(_) => result := None;
      case NoToken =>
      case NewToken(token, outcome) =>
        if token != "" {
          var refreshed := session.(accessToken := token, accessExpiry := now + cfg.duration);
          var saved := Save(id, refreshed, outcome);
          if saved {
            result := Some(refreshed);
          }
        }
    }

    /**
     Resolve the cookie's session, refreshing it first if it is close to expiry. What it returns is what
     resolves under that ID afterwards, exactly when the two stay in step.
     */
    method CurrentSession(cookie: Option<string>, reachable: bool, delay: nat, answer: S.RefreshAnswer)
      returns (session: Option<S.Session>)
      modifies this`store, this`now
      ensures SessionId(cookie).Some? && reachable ==>
        var before := S.Sys(old(now), old(store), map[], map[], map[]);
        var (after, seen) := T.Seen(cfg, before, cookie.value, delay, answer);
        session == seen && store == after.store && now == after.now
      ensures now == old(now) + delay
      ensures cookie.None? || cookie.value == "" || !reachable || !S.Resolves(old(store), old(now), cookie.value) ==>
        session.None? && store == old(store)
      ensures cookie.Some? && cookie.value != "" && reachable && S.Resolves(old(store), old(now), cookie.value) ==>
        var (id, loaded) := (cookie.value, old(store)[cookie.value].session);
        if loaded.accessExpiry - old(now) > cfg.interval then session == Some(loaded) && store == old(store)
        else match answer
          case Rejected(removal) =>
            session.None? && store == if removal.NotDone? then old(store) else old(store) - {id}
          case NewToken(token, save) =>
            if token == "" then session == Some(loaded) && store == old(store)
            else
              var refreshed := loaded.(accessToken := token, accessExpiry := now + cfg.duration);
              && session == Some(if save.Done? then refreshed else loaded)
              && store == if save.NotDone? then old(store) else old(store)[id := S.Record(refreshed, now + cfg.ttl)]
          case _ => session == Some(loaded) && store == old(store)
      ensures session.Some? ==>
        && reachable && cookie.Some? && S.Resolves(old(store), old(now), cookie.value)
        && (S.Resolves(store, now, cookie.value) && store[cookie.value].session == session.value <==>
              T.StaysInStep(cfg, old(now), old(store)[cookie.value], delay, answer))
    {
      if cookie.None? || cookie.value == "" {
        now := now + delay;
        return None;
      }
      var id := cookie.value;
      ghost var before := S.Sys(now, store, map[], map[], map[]);
      var loaded := Load(id, reachable);
      if loaded.None? {
        now := now + delay;
        return None;
      }
      session := RefreshIfNeeded(id, loaded.value, delay, answer);
      if session.None? {
        var _ := Delete(id, answer.removal);
      }
      T.RequestEffect(cfg, before, id, delay, answer);
      T.StoreAgreement(cfg, before, id, delay, answer);
    }

    /** Logging out removes the stored record, whatever happens to the cookie. */
    method Logout(cookie: Option<string>, removal: S.Outcome)
      modifies this`store
      ensures cookie.Some? && cookie.value != "" && !removal.NotDone? ==> store == old(store) - {cookie.value}
      ensures cookie.Some? && cookie.value != "" && !removal.NotDone? ==> !S.Resolves(store, now, cookie.value)
      ensures cookie.None? || cookie.value == "" || removal.NotDone? ==> store == old(store)
    {
      if cookie.Some? && cookie.value != "" {
        var _ := Delete(cookie.value, removal);
      }
    }
  }
}
