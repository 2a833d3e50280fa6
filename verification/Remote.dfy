/**
 The basket and order services as the storefront sees them over HTTP, and the two ways of
 calling them: one shot, or with kawa's retry loop.

 Assumed of the services: a success reply means the request was applied; a checked-out
 basket refuses item changes (AddItem with 409); a new basket gets an unused, non-empty ID.
 */
module Remote {
  import opened Wire

  datatype Status = Open | CheckedOut

  datatype Basket = Basket(owner: string, items: multiset<string>, status: Status)

  /** What one step of a payment confirmation asks a service to do. */
  datatype Effect =
    | Order(position: nat, order: OrderV1)
    | Checkout(basket: string, payment: string, shipping: string)
    | OpenBasket(user: string)

  /** An effect together with the confirmation call that asked for it. */
  datatype Entry = Entry(call: nat, effect: Effect)

  /** The persistent state of the services: baskets, and everything confirmations got applied, in order. */
  datatype World = World(baskets: map<string, Basket>, log: seq<Entry>)

  datatype Request =
    | Confirming(entry: Entry, freshId: string)
    | AddItem(basket: string, product: string, quantity: nat)
    | RemoveItem(basket: string, product: string, quantity: nat)
    | StartBasket(user: string, freshId: string)

  datatype Reply = Ok | HttpError(code: int) | NoAnswer

  const CONFLICT := 409
  const NOT_FOUND := 404
  const SERVER_ERROR := 500

  function WithItems(b: Basket, product: string, quantity: nat): Basket {
    b.(items := b.items[product := quantity])
  }

  /** A service processes a request: the new state and the reply it sends back. */
  function Serve(w: World, req: Request): (World, Reply) {
    match req
    case Confirming(entry, freshId) =>
      var logged := w.(log := w.log + [entry]);
      (match entry.effect
       case Order(_, _) => (logged, Ok)
       case Checkout(b, _, _) =>
         if b !in w.baskets then (w, HttpError(NOT_FOUND))
         else (logged.(baskets := w.baskets[b := w.baskets[b].(status := CheckedOut)]), Ok)
       case OpenBasket(user) =>
         if freshId == "" || freshId in w.baskets then (w, HttpError(SERVER_ERROR))
         else (logged.(baskets := w.baskets[freshId := Basket(user, multiset{}, Open)]), Ok))
    case AddItem(b, p, q) =>
      if b !in w.baskets then (w, HttpError(NOT_FOUND))
      else if w.baskets[b].status.CheckedOut? then (w, HttpError(CONFLICT))
      else (w.(baskets := w.baskets[b := WithItems(w.baskets[b], p, w.baskets[b].items[p] + q)]), Ok)
    case RemoveItem(b, p, q) =>
      if b !in w.baskets then (w, HttpError(NOT_FOUND))
      else if w.baskets[b].status.CheckedOut? then (w, HttpError(CONFLICT))
      else
        var have := w.baskets[b].items[p];
        (w.(baskets := w.baskets[b := WithItems(w.baskets[b], p, if have < q then 0 else have - q)]), Ok)
    case StartBasket(user, freshId) =>
      if freshId == "" || freshId in w.baskets then (w, HttpError(SERVER_ERROR))
      else (w.(baskets := w.baskets[freshId := Basket(user, multiset{}, Open)]), Ok)
  }

  /**
   How the network treats one attempt: it gets through, an error code comes back instead of the service's
   reply, or nothing does. In the last two cases the service may have processed the request all the same.
   */
  datatype Fate = Served | Faulted(processed: bool, code: int) | Cut(processed: bool)

  predicate Processed(fate: Fate) {
    fate.Served? || fate.processed
  }

  function Attempt(w: World, req: Request, fate: Fate): (World, Reply) {
    match fate
    case Served => Serve(w, req)
    case Faulted(processed, code) => (if processed then Serve(w, req).0 else w, HttpError(code))
    case Cut(processed) => (if processed then Serve(w, req).0 else w, NoAnswer)
  }

  /** kawa's default error classification: these codes, and every non-HTTP failure, are tried again. */
  predicate Transient(reply: Reply) {
    match reply
    case Ok => false
    case HttpError(code) => code < 400 || code in {408, 429, 500, 502, 503, 504}
    case NoAnswer => true
  }

  /**
   One call with at most `retries` further attempts after the first. `fates` says what happens to each
   attempt; running out of them is the caller's context ending the loop early.
   */
  function DoWithRetry(w: World, req: Request, fates: seq<Fate>, retries: nat): (World, Reply)
    requires |fates| > 0
    decreases |fates|
  {
    var (w', reply) := Attempt(w, req, fates[0]);
    if !Transient(reply) || retries == 0 || |fates| == 1 then (w', reply)
    else DoWithRetry(w', req, fates[1..], retries - 1)
  }

  /** The number of attempts that call makes. */
  function Attempts(w: World, req: Request, fates: seq<Fate>, retries: nat): (n: nat)
    requires |fates| > 0
    ensures 1 <= n <= retries + 1
    decreases |fates|
  {
    var (w', reply) := Attempt(w, req, fates[0]);
    if !Transient(reply) || retries == 0 || |fates| == 1 then 1
    else 1 + Attempts(w', req, fates[1..], retries - 1)
  }

  /**
   An error code ends the call after this attempt and is its answer, except 408, 429, 500, 502, 503, 504 and codes
   below 400, which like a missing answer are followed by another attempt while the budget lasts.
   */
  lemma CodesDecide(w: World, req: Request, fates: seq<Fate>, retries: nat)
    requires |fates| > 0
    ensures fates[0].Faulted? && fates[0].code >= 400 && fates[0].code !in {408, 429, 500, 502, 503, 504} ==>
      && DoWithRetry(w, req, fates, retries) == (Attempt(w, req, fates[0]).0, HttpError(fates[0].code))
      && Attempts(w, req, fates, retries) == 1
    ensures (fates[0].Cut? || (fates[0].Faulted? && (fates[0].code < 400 || fates[0].code in {408, 429, 500, 502, 503, 504}))) &&
            retries > 0 && |fates| > 1 ==>
      && DoWithRetry(w, req, fates, retries) == DoWithRetry(Attempt(w, req, fates[0]).0, req, fates[1..], retries - 1)
      && Attempts(w, req, fates, retries) == 1 + Attempts(Attempt(w, req, fates[0]).0, req, fates[1..], retries - 1)
  {
  }

  /**
   How many of those attempts the service has not processed when the call returns, and may still. (One processed
   late but before that counts as processed.)
   */
  function Late(w: World, req: Request, fates: seq<Fate>, retries: nat): (n: nat)
    requires |fates| > 0
    ensures n <= Attempts(w, req, fates, retries)
    decreases |fates|
  {
    var (w', reply) := Attempt(w, req, fates[0]);
    var first := if Processed(fates[0]) then 0 else 1;
    if !Transient(reply) || retries == 0 || |fates| == 1 then first
    else first + Late(w', req, fates[1..], retries - 1)
  }

  /** How many it has processed by then. */
  function Applied(w: World, req: Request, fates: seq<Fate>, retries: nat): nat
    requires |fates| > 0
  {
    Attempts(w, req, fates, retries) - Late(w, req, fates, retries)
  }

  lemma {:induction false} OkMeansApplied(w: World, req: Request, fates: seq<Fate>, retries: nat)
    requires |fates| > 0 && DoWithRetry(w, req, fates, retries).1.Ok?
    ensures Applied(w, req, fates, retries) >= 1
    decreases |fates|
  {
    var (w', reply) := Attempt(w, req, fates[0]);
    if !Transient(reply) || retries == 0 || |fates| == 1 {
    } else {
      OkMeansApplied(w', req, fates[1..], retries - 1);
    }
  }

  /** The state once `n` more copies of a request have been processed. */
  function Landed(w: World, req: Request, n: nat): World {
    if n == 0 then w else Serve(Landed(w, req, n - 1), req).0
  }

  lemma {:induction false} LandedTwice(w: World, req: Request, j: nat, k: nat)
    ensures Landed(Landed(w, req, j), req, k) == Landed(w, req, j + k)
  {
    if k == 0 {
    } else {
      LandedTwice(w, req, j, k - 1);
    }
  }

  lemma AttemptIsLanded(w: World, req: Request, fate: Fate)
    ensures Attempt(w, req, fate).0 == Landed(w, req, if Processed(fate) then 1 else 0)
  {
    assert Landed(w, req, 0) == w && Landed(w, req, 1) == Serve(w, req).0;
  }

  /** What a retried call does, by the time it returns, is what its processed attempts do one after the other. */
  lemma {:induction false} RetriedIsLanded(w: World, req: Request, fates: seq<Fate>, retries: nat)
    requires |fates| > 0
    ensures DoWithRetry(w, req, fates, retries).0 == Landed(w, req, Applied(w, req, fates, retries))
    decreases |fates|
  {
    var (w', reply) := Attempt(w, req, fates[0]);
    var first := if Processed(fates[0]) then 1 else 0;
    AttemptIsLanded(w, req, fates[0]);
    if !Transient(reply) || retries == 0 || |fates| == 1 {
    } else {
      RetriedIsLanded(w', req, fates[1..], retries - 1);
      LandedTwice(w, req, first, Applied(w', req, fates[1..], retries - 1));
    }
  }

  /** A call that is not retried. */
  function Do(w: World, req: Request, fate: Fate): (World, Reply) {
    DoWithRetry(w, req, [fate], 0)
  }

  // --- Creating an order under either policy -------------------------------------------------

  function Repeat<T>(x: T, n: nat): (r: seq<T>)
    ensures |r| == n && forall i :: 0 <= i < n ==> r[i] == x
  {
    if n == 0 then [] else Repeat(x, n - 1) + [x]
  }

  lemma RepeatShift<T>(x: T, n: nat)
    ensures Repeat(x, n + 1) == [x] + Repeat(x, n)
  {
  }

  ghost predicate StoresCopies(w: World, w': World, entry: Entry, k: nat) {
    w'.baskets == w.baskets && w'.log == w.log + Repeat(entry, k)
  }

  lemma {:induction false} LandedCopies(w: World, entry: Entry, id: string, n: nat)
    requires entry.effect.Order?
    ensures StoresCopies(w, Landed(w, Confirming(entry, id), n), entry, n)
  {
    if n == 0 {
      assert w.log + Repeat(entry, 0) == w.log;
    } else {
      LandedCopies(w, entry, id, n - 1);
      assert w.log + Repeat(entry, n - 1) + [entry] == w.log + Repeat(entry, n);
    }
  }

  /**
   Whenever and however many of its late attempts land, a call with `retries` retries stores at most
   retries + 1 copies of its order, at least one if it reports success, and nothing else.
   */
  lemma CopiesBounded(w: World, entry: Entry, id: string, fates: seq<Fate>, retries: nat, landed: nat) returns (k: nat)
    requires entry.effect.Order? && |fates| > 0 && landed <= Late(w, Confirming(entry, id), fates, retries)
    ensures landed <= k <= retries + 1
    ensures StoresCopies(w, Landed(DoWithRetry(w, Confirming(entry, id), fates, retries).0, Confirming(entry, id), landed), entry, k)
    ensures DoWithRetry(w, Confirming(entry, id), fates, retries).1.Ok? ==> k >= 1
  {
    var req := Confirming(entry, id);
    k := Applied(w, req, fates, retries) + landed;
    RetriedIsLanded(w, req, fates, retries);
    LandedTwice(w, req, Applied(w, req, fates, retries), landed);
    LandedCopies(w, entry, id, k);
    if DoWithRetry(w, req, fates, retries).1.Ok? { OkMeansApplied(w, req, fates, retries); }
  }

  /** Every attempt but the last times out after the service has stored the order. */
  function SlowThenServed(n: nat): (r: seq<Fate>)
    ensures |r| == n + 1
  {
    if n == 0 then [Served] else [Cut(true)] + SlowThenServed(n - 1)
  }

  /** The bound is attained: n retries can store n + 1 copies while the caller sees one plain success. */
  lemma {:induction false} RetriesDuplicate(w: World, entry: Entry, id: string, n: nat)
    requires entry.effect.Order?
    ensures StoresCopies(w, DoWithRetry(w, Confirming(entry, id), SlowThenServed(n), n).0, entry, n + 1)
    ensures DoWithRetry(w, Confirming(entry, id), SlowThenServed(n), n).1 == Ok
    decreases n
  {
    if n == 0 {
      assert Repeat(entry, 1) == [entry];
    } else {
      var w1 := w.(log := w.log + [entry]);
      assert SlowThenServed(n)[1..] == SlowThenServed(n - 1);
      RetriesDuplicate(w1, entry, id, n - 1);
      RepeatShift(entry, n);
      assert w1.log + Repeat(entry, n) == w.log + ([entry] + Repeat(entry, n));
    }
  }

  ghost predicate NeverDuplicates(retries: nat) {
    forall w: World, entry: Entry, id: string, fates: seq<Fate>, landed: nat |
      entry.effect.Order? && |fates| > 0 && landed <= Late(w, Confirming(entry, id), fates, retries) ::
      |Landed(DoWithRetry(w, Confirming(entry, id), fates, retries).0, Confirming(entry, id), landed).log| <= |w.log| + 1
  }

  /** A create-order call is free of duplicates exactly when it is single-shot. */
  lemma SingleShotIsNecessary(retries: nat)
    ensures NeverDuplicates(retries) <==> retries == 0
  {
    if retries == 0 {
      forall w: World, entry: Entry, id: string, fates: seq<Fate>, landed: nat |
        entry.effect.Order? && |fates| > 0 && landed <= Late(w, Confirming(entry, id), fates, 0)
        ensures |Landed(DoWithRetry(w, Confirming(entry, id), fates, 0).0, Confirming(entry, id), landed).log| <= |w.log| + 1
      {
        var k := CopiesBounded(w, entry, id, fates, 0, landed);
      }
    } else {
      var w := World(map[], []);
      var item := FinancialItemV1(StoreV1("", "", "", ""), [], 0.0, "", 0.0, 0.0, 0.0);
      var entry := Entry(0, Order(0, OrderV1("", "", "", "", item)));
      RetriesDuplicate(w, entry, "", retries);
      var w' := DoWithRetry(w, Confirming(entry, ""), SlowThenServed(retries), retries).0;
      assert Landed(w', Confirming(entry, ""), 0) == w' && |w'.log| == retries + 1;
    }
  }
}
