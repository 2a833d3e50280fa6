/** How often a session is refreshed, and whether a request sees what the store holds, when its requests come one at a time. */
module SessionTiming {
  import opened Prelude
  import opened Sessions
  import Radix
  import opened Durations

  /** Consecutive times are at least `gap` apart. */
  ghost predicate Spaced(times: seq<int>, gap: int) {
    forall i: nat, j: nat | i < j < |times| && j == i + 1 :: times[j] - times[i] >= gap
  }

  function Last(times: seq<int>): int {
    if |times| == 0 then 0 else times[|times| - 1]
  }

  /** The least time between two stamps: a token is left alone until its last interval. */
  function Gap(cfg: Config): nat {
    if cfg.duration <= cfg.interval then 0 else cfg.duration - cfg.interval
  }

  ghost predicate Well(cfg: Config, times: seq<int>, now: int) {
    |times| > 0 && Last(times) <= now && Spaced(times, Gap(cfg))
  }

  lemma WellAppend(cfg: Config, times: seq<int>, now: int, later: int)
    requires Well(cfg, times, now) && later >= Last(times) + Gap(cfg)
    ensures Well(cfg, times + [later], later)
  {
  }

  /** What a session ID ever stored has: stamps, and if it is stored now, a token that expires D after the last of them. */
  ghost predicate CalmAt(cfg: Config, s: Sys, id: string) {
    && (id in s.stamps <==> id in s.issued) && (id in s.store ==> id in s.stamps)
    && (id in s.stamps ==> Well(cfg, s.stamps[id], s.now))
    && (id in s.store ==> s.store[id].session.accessExpiry == Last(Stamps(s, id)) + cfg.duration)
  }

  /** Between requests nothing is open. */
  ghost predicate Calm(cfg: Config, s: Sys) {
    s.pending == map[] && forall id :: CalmAt(cfg, s, id)
  }

  predicate SameAt(s: Sys, s': Sys, id: string) {
    && (id in s'.store <==> id in s.store) && (id in s.store ==> s'.store[id] == s.store[id])
    && (id in s'.stamps <==> id in s.stamps) && (id in s.stamps ==> s'.stamps[id] == s.stamps[id])
    && (id in s'.issued <==> id in s.issued)
  }

  /** Nothing changed but for `id`, and time. */
  ghost predicate OthersAsBefore(s: Sys, s': Sys, id: string) {
    && s.now <= s'.now && s'.pending == s.pending
    && forall k :: k != id ==> SameAt(s, s', k)
  }

  lemma CalmElsewhere(cfg: Config, s: Sys, s': Sys, id: string)
    requires Calm(cfg, s) && OthersAsBefore(s, s', id) && CalmAt(cfg, s', id)
    ensures Calm(cfg, s')
  {
    forall k
      ensures CalmAt(cfg, s', k)
    {
      assert CalmAt(cfg, s, k);
      assert k != id ==> SameAt(s, s', k);
    }
  }

  predicate Due(cfg: Config, s: Sys, id: string) {
    Resolves(s.store, s.now, id) && NeedsRefresh(s.now, s.store[id].session.accessExpiry, cfg.interval)
  }

  /** A whole request, in terms of the state it starts from. */
  lemma RequestEffect(cfg: Config, s: Sys, id: string, d: nat, answer: RefreshAnswer)
    requires s.pending == map[]
    ensures Do(cfg, s, Request(id, d, answer)) ==
      if !Due(cfg, s, id) then s.(now := s.now + d)
      else s.(now := s.now + d,
              store := FinishStore(cfg, s.store, s.now + d, id, s.store[id].session, answer),
              stamps := if Minted(answer) && !answer.save.NotDone?
                        then s.stamps[id := Stamps(s, id) + [s.now + d]] else s.stamps)
  {
    if Due(cfg, s, id) {
      var s1 := Step(cfg, s, Begin(0, id, true));
      assert s1.pending == map[0 := Pending(id, s.store[id].session, true)];
      assert s1.pending - {0} == map[];
    }
  }

  lemma RequestKeepsCalm(cfg: Config, s: Sys, id: string, d: nat, answer: RefreshAnswer)
    requires Calm(cfg, s)
    ensures Calm(cfg, Do(cfg, s, Request(id, d, answer)))
  {
    var s' := Do(cfg, s, Request(id, d, answer));
    RequestEffect(cfg, s, id, d, answer);
    assert CalmAt(cfg, s, id);
    if Due(cfg, s, id) { WellAppend(cfg, Stamps(s, id), s.now, s.now + d); }
    CalmElsewhere(cfg, s, s', id);
  }

  /** A whole profile save, in terms of the state it starts from. */
  lemma ProfileEffect(cfg: Config, s: Sys, id: string, d: nat, change: Change, save: Outcome)
    requires s.pending == map[]
    ensures Do(cfg, s, Profile(id, d, change, save)) ==
      if !Resolves(s.store, s.now, id) then s.(now := s.now + d)
      else s.(now := s.now + d, store := Saved(cfg, s.store, s.now + d, id, Amended(s.store[id].session, change), save))
  {
    if Resolves(s.store, s.now, id) {
      var s1 := Step(cfg, s, Begin(0, id, false));
      assert s1.pending == map[0 := Pending(id, s.store[id].session, false)];
      assert s1.pending - {0} == map[];
    }
  }

  /** A profile save that takes effect stores the one field it changes, and nothing else of the session, for another TTL. */
  lemma ProfileSaves(cfg: Config, s: Sys, id: string, d: nat, change: Change, save: Outcome)
    requires s.pending == map[] && Resolves(s.store, s.now, id) && !save.NotDone?
    ensures var (was, s') := (s.store[id].session, Do(cfg, s, Profile(id, d, change, save)));
      && s'.store.Keys == s.store.Keys && (forall k :: k in s.store && k != id ==> s'.store[k] == s.store[k])
      && s'.store[id].expiry == s.now + d + cfg.ttl
      && (change.Dni? ==> s'.store[id].session == was.(dni := change.dni))
      && (change.Address? ==> s'.store[id].session == was.(shippingAddress := change.shippingAddress))
  {
    ProfileEffect(cfg, s, id, d, change, save);
  }

  lemma ProfileKeepsCalm(cfg: Config, s: Sys, id: string, d: nat, change: Change, save: Outcome)
    requires Calm(cfg, s)
    ensures Calm(cfg, Do(cfg, s, Profile(id, d, change, save)))
  {
    ProfileEffect(cfg, s, id, d, change, save);
    assert CalmAt(cfg, s, id);
    CalmElsewhere(cfg, s, Do(cfg, s, Profile(id, d, change, save)), id);
  }

  lemma SignInKeepsCalm(cfg: Config, s: Sys, a: LoginAnswers)
    requires Calm(cfg, s)
    ensures Calm(cfg, Do(cfg, s, SignIn(a)))
  {
    if a.freshId.Some? {
      assert CalmAt(cfg, s, a.freshId.value);
      CalmElsewhere(cfg, s, Do(cfg, s, SignIn(a)), a.freshId.value);
    }
  }

  lemma DoKeepsCalm(cfg: Config, s: Sys, v: Visit)
    requires Calm(cfg, s)
    ensures Calm(cfg, Do(cfg, s, v))
  {
    match v
    case Request(id, d, answer) => RequestKeepsCalm(cfg, s, id, d, answer);
    case Profile(id, d, change, save) => ProfileKeepsCalm(cfg, s, id, d, change, save);
    case SignIn(a) => SignInKeepsCalm(cfg, s, a);
    case SignOut(id, _) =>
      assert CalmAt(cfg, s, id);
      CalmElsewhere(cfg, s, Do(cfg, s, v), id);
    case Wait(_) =>
      assert CalmAt(cfg, s, "");
      CalmElsewhere(cfg, s, Do(cfg, s, v), "");
  }

  lemma {:induction false} RunKeepsCalm(cfg: Config, s: Sys, vs: seq<Visit>)
    requires Calm(cfg, s)
    ensures Calm(cfg, Run(cfg, s, vs))
  {
    if |vs| == 0 {
    } else {
      RunKeepsCalm(cfg, s, vs[..|vs| - 1]);
      DoKeepsCalm(cfg, Run(cfg, s, vs[..|vs| - 1]), vs[|vs| - 1]);
    }
  }

  lemma CalmInRun(cfg: Config, now: int, vs: seq<Visit>, id: string)
    ensures CalmAt(cfg, Run(cfg, Init(now), vs), id)
  {
    RunKeepsCalm(cfg, Init(now), vs);
  }

  lemma {:induction false} SpacedSpan(times: seq<int>, gap: int, i: nat, j: nat)
    requires Spaced(times, gap) && i <= j < |times|
    ensures times[j] - times[i] >= (j - i) * gap
    decreases j - i
  {
    if i == j {
    } else {
      SpacedSpan(times, gap, i, j - 1);
      assert (j - i) * gap == (j - 1 - i) * gap + gap;
    }
  }

  lemma AtMost(n: nat, gap: int, window: int)
    requires gap > 0 && n * gap <= window
    ensures n <= window / gap
  {
    var q := window / gap;
    assert window == q * gap + window % gap;
    var over := n - q - 1;
    assert over * gap == n * gap - q * gap - gap;
    Radix.NegativeFactor(over, gap);
  }

  lemma GapBound(cfg: Config, n: nat, window: int)
    requires n * Gap(cfg) <= window
    ensures n * (cfg.duration - cfg.interval) <= window
    ensures cfg.duration > cfg.interval ==> n + 1 <= 1 + window / (cfg.duration - cfg.interval)
  {
    if cfg.duration > cfg.interval {
      AtMost(n, Gap(cfg), window);
    } else {
      var short := cfg.interval - cfg.duration;
      Radix.ProductNonNegative(n, short);
      assert n * -short == -(n * short);
    }
  }

  /**
   Stored refreshes of a session, counting its login, are at least D - R apart, so any window of length T
   that holds the stamps i to j has (j - i) * (D - R) <= T.
   */
  lemma RefreshSpacing(cfg: Config, now: int, vs: seq<Visit>, id: string, i: nat, j: nat, window: int)
    requires i <= j < |Stamps(Run(cfg, Init(now), vs), id)|
    requires Stamps(Run(cfg, Init(now), vs), id)[j] - Stamps(Run(cfg, Init(now), vs), id)[i] <= window
    ensures (j - i) * (cfg.duration - cfg.interval) <= window
    ensures cfg.duration > cfg.interval ==> j - i + 1 <= 1 + window / (cfg.duration - cfg.interval)
  {
    CalmInRun(cfg, now, vs, id);
    SpacedSpan(Stamps(Run(cfg, Init(now), vs), id), Gap(cfg), i, j);
    GapBound(cfg, j - i, window);
  }

  // --- "At most once per refresh interval" ---------------------------------------------------

  /** From the second time on, consecutive times are at least `gap` apart. */
  ghost predicate AfterLoginSpaced(times: seq<int>, gap: int) {
    |times| > 0 ==> Spaced(times[1..], gap)
  }

  /** The comment's claim: a session's stored refreshes (its login aside) are at least one refresh interval apart. */
  ghost predicate OncePerInterval(cfg: Config) {
    forall now: int, vs: seq<Visit>, id: string :: AfterLoginSpaced(Stamps(Run(cfg, Init(now), vs), id), cfg.interval)
  }

  function SomeLogin(): LoginAnswers {
    LoginAnswers(true, Some(User("u", "")), Some((false, "")), Some(("a", "r")), Some("s"), Done)
  }

  /**
   Log in; then, some rounds long, save the profile in a call that takes `gap` and make a request that refreshes. The
   profile's save keeps the record from lapsing and the access token as it was.
   */
  function Eager(gap: nat, rounds: nat): seq<Visit> {
    if rounds == 0 then [SignIn(SomeLogin())]
    else Eager(gap, rounds - 1) + [Profile("s", gap, Dni(""), Done)] + [Request("s", 0, NewToken("t", Done))]
  }

  lemma RunSnoc(cfg: Config, s: Sys, vs: seq<Visit>, v: Visit)
    ensures Run(cfg, s, vs + [v]) == Do(cfg, Run(cfg, s, vs), v)
  {
    assert (vs + [v])[..|vs|] == vs;
  }

  /** The session "s" has just been saved with a new token. */
  predicate JustRefreshed(cfg: Config, s: Sys) {
    && s.pending == map[] && "s" in s.store && "s" in s.stamps && s.store["s"].expiry == s.now + cfg.ttl
    && s.store["s"].session.accessExpiry == s.now + cfg.duration
  }

  lemma ProfileProlongs(cfg: Config, s: Sys, gap: nat)
    requires JustRefreshed(cfg, s) && cfg.ttl > 0
    ensures var s' := Do(cfg, s, Profile("s", gap, Dni(""), Done));
      && s'.now == s.now + gap && s'.pending == map[] && "s" in s'.store && s'.stamps == s.stamps
      && s'.store["s"].expiry == s'.now + cfg.ttl
      && s'.store["s"].session == s.store["s"].session.(dni := "")
  {
    ProfileEffect(cfg, s, "s", gap, Dni(""), Done);
  }

  /** If a profile save takes long enough for a refresh to be due, the next request stores one. */
  lemma ProfileThenRefresh(cfg: Config, s: Sys, gap: nat)
    requires JustRefreshed(cfg, s) && cfg.ttl > 0 && cfg.duration - gap <= cfg.interval
    ensures var s' := Do(cfg, Do(cfg, s, Profile("s", gap, Dni(""), Done)), Request("s", 0, NewToken("t", Done)));
      JustRefreshed(cfg, s') && s'.now == s.now + gap && s'.stamps["s"] == s.stamps["s"] + [s'.now]
  {
    ProfileProlongs(cfg, s, gap);
    RequestEffect(cfg, Do(cfg, s, Profile("s", gap, Dni(""), Done)), "s", 0, NewToken("t", Done));
  }

  lemma RunTwo(cfg: Config, vs: seq<Visit>, v: Visit, v': Visit)
    ensures Run(cfg, Init(0), vs + [v] + [v']) == Do(cfg, Do(cfg, Run(cfg, Init(0), vs), v), v')
  {
    RunSnoc(cfg, Init(0), vs, v);
    RunSnoc(cfg, Init(0), vs + [v], v');
  }

  lemma EagerRound(cfg: Config, vs: seq<Visit>, gap: nat)
    requires JustRefreshed(cfg, Run(cfg, Init(0), vs)) && cfg.ttl > 0 && cfg.duration - gap <= cfg.interval
    ensures var s := Run(cfg, Init(0), vs);
      var s' := Run(cfg, Init(0), vs + [Profile("s", gap, Dni(""), Done)] + [Request("s", 0, NewToken("t", Done))]);
      JustRefreshed(cfg, s') && s'.now == s.now + gap && s'.stamps["s"] == s.stamps["s"] + [s'.now]
  {
    RunTwo(cfg, vs, Profile("s", gap, Dni(""), Done), Request("s", 0, NewToken("t", Done)));
    ProfileThenRefresh(cfg, Run(cfg, Init(0), vs), gap);
  }

  lemma EagerStart(cfg: Config)
    ensures var s := Run(cfg, Init(0), [SignIn(SomeLogin())]);
      JustRefreshed(cfg, s) && s.now == 0 && s.stamps["s"] == [0] && s.store["s"].session.accessToken == "a"
  {
    assert [SignIn(SomeLogin())][..0] == [];
  }

  lemma {:induction false} EagerRun(cfg: Config, gap: nat, rounds: nat)
    requires cfg.ttl > 0 && cfg.duration - gap <= cfg.interval
    ensures var s := Run(cfg, Init(0), Eager(gap, rounds));
      JustRefreshed(cfg, s) && |s.stamps["s"]| == rounds + 1 && s.now == s.stamps["s"][rounds]
    ensures rounds > 0 ==> var times := Stamps(Run(cfg, Init(0), Eager(gap, rounds)), "s");
      times[rounds] == times[rounds - 1] + gap
  {
    if rounds == 0 {
      EagerStart(cfg);
    } else {
      EagerRun(cfg, gap, rounds - 1);
      EagerRound(cfg, Eager(gap, rounds - 1), gap);
    }
  }

  /** The claim holds exactly when a token lasts at least two intervals. */
  lemma OncePerIntervalIff(cfg: Config)
    requires cfg.ttl > 0
    ensures OncePerInterval(cfg) <==> cfg.interval <= 0 || cfg.duration >= 2 * cfg.interval
  {
    if cfg.interval <= 0 || cfg.duration >= 2 * cfg.interval {
      forall now: int, vs: seq<Visit>, id: string
        ensures AfterLoginSpaced(Stamps(Run(cfg, Init(now), vs), id), cfg.interval)
      {
        CalmInRun(cfg, now, vs, id);
      }
    } else {
      var stamps := Stamps(Run(cfg, Init(0), Eager(Gap(cfg), 2)), "s");
      EagerRun(cfg, Gap(cfg), 2);
      assert stamps[1..][1] - stamps[1..][0] == Gap(cfg) < cfg.interval;
      assert !AfterLoginSpaced(stamps, cfg.interval);
    }
  }

  predicate DueIfResolving(cfg: Config, s: Sys, id: string) {
    Resolves(s.store, s.now, id) ==> NeedsRefresh(s.now, s.store[id].session.accessExpiry, cfg.interval)
  }

  /** Every request of a session that resolves, in every run, is due a refresh. */
  ghost predicate AlwaysDue(cfg: Config) {
    forall now: int, vs: seq<Visit>, id: string :: DueIfResolving(cfg, Run(cfg, Init(now), vs), id)
  }

  /** That happens exactly when a token lasts no longer than the interval; both default to 24 hours, so it does by default. */
  lemma AlwaysDueIff(cfg: Config)
    requires cfg.ttl > 0
    ensures AlwaysDue(cfg) <==> cfg.duration <= cfg.interval
  {
    if cfg.duration <= cfg.interval {
      forall now: int, vs: seq<Visit>, id: string
        ensures DueIfResolving(cfg, Run(cfg, Init(now), vs), id)
      {
        CalmInRun(cfg, now, vs, id);
      }
    } else {
      EagerStart(cfg);
      assert !DueIfResolving(cfg, Run(cfg, Init(0), [SignIn(SomeLogin())]), "s");
    }
  }

  const DEFAULT_DURATION := 24 * HOUR
  const DEFAULT_INTERVAL := 24 * HOUR

  lemma DefaultsRefreshEveryRequest(ttl: int)
    requires ttl > 0
    ensures DEFAULT_DURATION == DEFAULT_INTERVAL == 86_400_000_000_000
    ensures AlwaysDue(Config(DEFAULT_DURATION, DEFAULT_INTERVAL, ttl))
    ensures !OncePerInterval(Config(DEFAULT_DURATION, DEFAULT_INTERVAL, ttl))
  {
    AlwaysDueIff(Config(DEFAULT_DURATION, DEFAULT_INTERVAL, ttl));
    OncePerIntervalIff(Config(DEFAULT_DURATION, DEFAULT_INTERVAL, ttl));
  }

  // --- Removal, one request at a time --------------------------------------------------------

  /** Between requests a session that is gone never comes back, whatever follows. */
  lemma GoneBetweenRequests(cfg: Config, now: int, vs: seq<Visit>, id: string)
    requires cfg.ttl > 0
    ensures var s := Run(cfg, Init(now), vs);
      id in s.issued && !Resolves(s.store, s.now, id) ==> NeverAgain(cfg, s, id)
  {
    RunKeepsCalm(cfg, Init(now), vs);
    var s := Run(cfg, Init(now), vs);
    if id in s.issued && !Resolves(s.store, s.now, id) {
      RemovalIsFinal(cfg, s, id);
    }
  }

  /** With two requests open at once it can: a refresh that loaded the session before a logout stores it again. */
  lemma LogoutCanBeUndone(cfg: Config, s: Sys, id: string, r: nat)
    requires Resolves(s.store, s.now, id) && r !in s.pending && cfg.ttl > 0
    requires NeedsRefresh(s.now, s.store[id].session.accessExpiry, cfg.interval)
    ensures var gone := Exec(cfg, s, [Begin(r, id, true), Logout(id, Done)]);
      var back := Exec(cfg, s, [Begin(r, id, true), Logout(id, Done), Finish(r, NewToken("t", Done))]);
      !Resolves(gone.store, gone.now, id) && Resolves(back.store, back.now, id)
  {
    ExecThree(cfg, s, Begin(r, id, true), Logout(id, Done), Finish(r, NewToken("t", Done)));
    assert [Begin(r, id, true), Logout(id, Done)][..1] == [Begin(r, id, true)];
    ExecOne(cfg, s, Begin(r, id, true));
  }

  // --- What a request sees -------------------------------------------------------------------

  /**
   A request as currentSession carries it out: load, refresh if due, save. It ends with the store and,
   if logged in, the session handed to the rest of the request.
   */
  function Seen(cfg: Config, s: Sys, id: string, d: nat, answer: RefreshAnswer): (Sys, Option<Session>) {
    if !Resolves(s.store, s.now, id) then (s.(now := s.now + d), None)
    else
      var session := s.store[id].session;
      if !NeedsRefresh(s.now, session.accessExpiry, cfg.interval) then (s.(now := s.now + d), Some(session))
      else (Do(cfg, s, Request(id, d, answer)), FinishSession(cfg, s.now + d, session, answer))
  }

  /** A refresh for this record would store something when its answer comes in. */
  predicate SavesToken(cfg: Config, now: int, record: Record, answer: RefreshAnswer) {
    NeedsRefresh(now, record.session.accessExpiry, cfg.interval) && Minted(answer) && !answer.save.NotDone?
  }

  /**
   When the session a request goes on with is the one that resolves under its ID at the end: either its refresh
   was stored and acknowledged (or stored nothing new), or nothing was stored and the record has not lapsed meanwhile.
   */
  predicate StaysInStep(cfg: Config, now: int, record: Record, d: nat, answer: RefreshAnswer) {
    if SavesToken(cfg, now, record, answer)
    then cfg.ttl > 0 && (answer.save.Done? || Refreshed(cfg, now + d, record.session, answer.token) == record.session)
    else now + d < record.expiry
  }

  ghost predicate Agrees(s: Sys, id: string, session: Session) {
    Resolves(s.store, s.now, id) && s.store[id].session == session
  }

  lemma StoreAgreement(cfg: Config, s: Sys, id: string, d: nat, answer: RefreshAnswer)
    requires s.pending == map[]
    ensures var (s', seen) := Seen(cfg, s, id, d, answer);
      seen.Some? ==> Resolves(s.store, s.now, id) && (Agrees(s', id, seen.value) <==> StaysInStep(cfg, s.now, s.store[id], d, answer))
  {
    RequestEffect(cfg, s, id, d, answer);
  }

  /**
   Whatever the configuration, both ways to disagree happen: a record that lapses while its refresh gets no
   answer, and a save that took effect but reported an error.
   */
  lemma StoreCanDisagree(cfg: Config)
    requires cfg.ttl > 0
    ensures var s := Run(cfg, Init(0), [SignIn(SomeLogin())] + [Profile("s", Gap(cfg), Dni(""), Done)]);
      var (lapsed, kept) := Seen(cfg, s, "s", cfg.ttl, Unreachable);
      var (stored, stale) := Seen(cfg, s, "s", 0, NewToken("t", DoneUnacknowledged));
      && Due(cfg, s, "s")
      && kept.Some? && !Resolves(lapsed.store, lapsed.now, "s")
      && stale.Some? && Resolves(stored.store, stored.now, "s") && stored.store["s"].session != stale.value
  {
    var start, p := [SignIn(SomeLogin())], Profile("s", Gap(cfg), Dni(""), Done);
    EagerStart(cfg);
    RunSnoc(cfg, Init(0), start, p);
    ProfileProlongs(cfg, Run(cfg, Init(0), start), Gap(cfg));
    var s := Run(cfg, Init(0), start + [p]);
    RequestEffect(cfg, s, "s", cfg.ttl, Unreachable);
    RequestEffect(cfg, s, "s", 0, NewToken("t", DoneUnacknowledged));
  }

  // --- Configuration -------------------------------------------------------------------------

  const WEEK := 7 * 24 * HOUR
  const INT64_MAX := 0x7fff_ffff_ffff_ffff

  /** Arithmetic on 64-bit signed integers wraps around. */
  function Wrap64(x: int): int {
    (x + 0x8000_0000_0000_0000) % 0x1_0000_0000_0000_0000 - 0x8000_0000_0000_0000
  }

  function SessionTtl(maxAge: int): int {
    if maxAge <= 0 then WEEK else Wrap64(maxAge * SECOND)
  }

  /** A record lives a week by default, else the configured seconds, exactly up to the most that fit; up to there that is positive. */
  lemma SessionTtlIff(maxAge: int)
    requires maxAge <= INT64_MAX
    ensures maxAge <= 0 ==> SessionTtl(maxAge) == 604_800_000_000_000
    ensures maxAge > 0 ==> (SessionTtl(maxAge) == maxAge * 1_000_000_000 <==> maxAge <= 9_223_372_036)
    ensures maxAge <= 9_223_372_036 ==> SessionTtl(maxAge) > 0
    ensures SessionTtl(9_223_372_037) < 0
  {
  }
}
