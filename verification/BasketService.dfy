/**
 The basket use case: adding a product from the search page, with its recovery from a basket
 that was checked out in another tab. One session's requests run one after the other here.
 */
module BasketService {
  import opened Prelude
  import opened Remote

  datatype AddError = BasketCheckedOut | Other

  /** BasketAddItem's error: only a 409 says the basket is checked out. */
  function ToAddError(reply: Reply): Option<AddError> {
    if reply.Ok? then None
    else if reply == HttpError(CONFLICT) then Some(BasketCheckedOut)
    else Some(Other)
  }

  /** Only the basket service itself answers 409; nothing in between does. */
  ghost predicate NoForgedConflict(fates: seq<Fate>) {
    forall fate :: fate in fates && fate.Faulted? ==> fate.code != CONFLICT
  }

  predicate OpenIn(w: World, id: string) {
    id in w.baskets && w.baskets[id].status.Open?
  }

  /** `w'` is `w` with k times `quantity` of the product added to an open basket. */
  ghost predicate Added(w: World, w': World, id: string, product: string, quantity: nat, k: nat) {
    && OpenIn(w, id)
    && w' == w.(baskets := w.baskets[id := WithItems(w.baskets[id], product, w.baskets[id].items[product] + k * quantity)])
  }

  lemma AddedNone(w: World, id: string, product: string, quantity: nat)
    requires OpenIn(w, id)
    ensures Added(w, w, id, product, quantity, 0)
  {
    assert 0 * quantity == 0;
    assert w.baskets[id].items[product := w.baskets[id].items[product]] == w.baskets[id].items;
    assert w.baskets[id := w.baskets[id]] == w.baskets;
  }

  lemma AddedTwice(w: World, w1: World, w2: World, id: string, product: string, quantity: nat, j: nat, k: nat)
    requires Added(w, w1, id, product, quantity, j) && Added(w1, w2, id, product, quantity, k)
    ensures Added(w, w2, id, product, quantity, j + k)
  {
    assert (j + k) * quantity == j * quantity + k * quantity;
    var n := w.baskets[id].items[product];
    assert w.baskets[id].items[product := n + j * quantity][product := n + j * quantity + k * quantity] ==
           w.baskets[id].items[product := n + (j + k) * quantity];
    assert w2.baskets == w.baskets[id := w2.baskets[id]];
  }

  lemma {:induction false} LandedAdds(w: World, id: string, product: string, quantity: nat, n: nat)
    ensures var w' := Landed(w, AddItem(id, product, quantity), n);
      if OpenIn(w, id) then Added(w, w', id, product, quantity, n) else w' == w
  {
    if n == 0 {
      if OpenIn(w, id) { AddedNone(w, id, product, quantity); }
    } else {
      LandedAdds(w, id, product, quantity, n - 1);
      if OpenIn(w, id) {
        var before := Landed(w, AddItem(id, product, quantity), n - 1);
        assert 1 * quantity == quantity;
        AddedTwice(w, before, Landed(w, AddItem(id, product, quantity), n), id, product, quantity, n - 1, 1);
      }
    }
  }

  lemma AttemptReply(w: World, id: string, product: string, quantity: nat, fate: Fate)
    ensures var (w', reply) := Attempt(w, AddItem(id, product, quantity), fate);
      && (OpenIn(w', id) <==> OpenIn(w, id)) && (id in w'.baskets <==> id in w.baskets)
      && (reply.Ok? ==> OpenIn(w, id))
      && (reply == HttpError(CONFLICT) ==> (id in w.baskets && !OpenIn(w, id)) || (fate.Faulted? && fate.code == CONFLICT))
  {
  }

  lemma {:induction false} AddRefused(w: World, id: string, product: string, quantity: nat, fates: seq<Fate>, retries: nat)
    requires |fates| > 0 && !OpenIn(w, id)
    ensures !DoWithRetry(w, AddItem(id, product, quantity), fates, retries).1.Ok?
    decreases |fates|
  {
    var (w1, reply) := Attempt(w, AddItem(id, product, quantity), fates[0]);
    AttemptReply(w, id, product, quantity, fates[0]);
    if !Transient(reply) || retries == 0 || |fates| == 1 {
    } else {
      AddRefused(w1, id, product, quantity, fates[1..], retries - 1);
    }
  }

  /** Unless something in between forged it, 409 comes from the basket service, and only for a basket that is checked out. */
  lemma {:induction false} ConflictMeansClosed(w: World, id: string, product: string, quantity: nat, fates: seq<Fate>, retries: nat)
    requires |fates| > 0 && NoForgedConflict(fates)
    ensures DoWithRetry(w, AddItem(id, product, quantity), fates, retries).1 == HttpError(CONFLICT) ==>
      id in w.baskets && !OpenIn(w, id)
    decreases |fates|
  {
    var (w1, reply) := Attempt(w, AddItem(id, product, quantity), fates[0]);
    AttemptReply(w, id, product, quantity, fates[0]);
    assert fates[0] in fates;
    if !Transient(reply) || retries == 0 || |fates| == 1 {
    } else {
      ConflictMeansClosed(w1, id, product, quantity, fates[1..], retries - 1);
    }
  }

  /** Within the retry budget an attempt gets through to the service and back, after failures that are tried again. */
  predicate GetsThrough(fates: seq<Fate>, retries: nat)
    requires |fates| > 0
    decreases |fates|
  {
    match fates[0]
    case Served => true
    case Faulted(_, code) =>
      && (code < 400 || code in {408, 429, 500, 502, 503, 504})
      && retries > 0 && |fates| > 1 && GetsThrough(fates[1..], retries - 1)
    case Cut(_) => retries > 0 && |fates| > 1 && GetsThrough(fates[1..], retries - 1)
  }

  /** An add that gets through succeeds on an open basket, and is told of a checked-out one. */
  lemma {:induction false} ThroughIsAnswered(w: World, id: string, product: string, quantity: nat, fates: seq<Fate>, retries: nat)
    requires |fates| > 0 && GetsThrough(fates, retries) && id in w.baskets
    ensures DoWithRetry(w, AddItem(id, product, quantity), fates, retries).1 == if OpenIn(w, id) then Ok else HttpError(CONFLICT)
    decreases |fates|
  {
    if fates[0].Served? {
    } else {
      AttemptReply(w, id, product, quantity, fates[0]);
      ThroughIsAnswered(Attempt(w, AddItem(id, product, quantity), fates[0]).0, id, product, quantity, fates[1..], retries - 1);
    }
  }

  /** On an open basket an add succeeds exactly if it gets through. */
  lemma {:induction false} AddSucceedsIff(w: World, id: string, product: string, quantity: nat, fates: seq<Fate>, retries: nat)
    requires |fates| > 0 && OpenIn(w, id)
    ensures DoWithRetry(w, AddItem(id, product, quantity), fates, retries).1 == Ok <==> GetsThrough(fates, retries)
    decreases |fates|
  {
    var (w1, reply) := Attempt(w, AddItem(id, product, quantity), fates[0]);
    AttemptReply(w, id, product, quantity, fates[0]);
    if !Transient(reply) || retries == 0 || |fates| == 1 {
    } else {
      AddSucceedsIff(w1, id, product, quantity, fates[1..], retries - 1);
    }
  }

  /**
   When a retried add returns, it has been applied once for each attempt that was processed, at least once on
   success. A basket that is checked out or unknown is left alone and never yields success; 409 means checked out.
   */
  lemma RetriedAdd(w: World, id: string, product: string, quantity: nat, fates: seq<Fate>, retries: nat) returns (k: nat)
    requires |fates| > 0
    ensures var (w', reply) := DoWithRetry(w, AddItem(id, product, quantity), fates, retries);
      if OpenIn(w, id)
      then Added(w, w', id, product, quantity, k) && (reply.Ok? ==> k >= 1) &&
           k + Late(w, AddItem(id, product, quantity), fates, retries) == Attempts(w, AddItem(id, product, quantity), fates, retries) &&
           (NoForgedConflict(fates) ==> reply != HttpError(CONFLICT))
      else w' == w && k == 0 && !reply.Ok? && (NoForgedConflict(fates) && reply == HttpError(CONFLICT) ==> id in w.baskets)
  {
    var req := AddItem(id, product, quantity);
    k := if OpenIn(w, id) then Applied(w, req, fates, retries) else 0;
    RetriedIsLanded(w, req, fates, retries);
    LandedAdds(w, id, product, quantity, Applied(w, req, fates, retries));
    if NoForgedConflict(fates) { ConflictMeansClosed(w, id, product, quantity, fates, retries); }
    if !OpenIn(w, id) {
      AddRefused(w, id, product, quantity, fates, retries);
    } else if DoWithRetry(w, req, fates, retries).1.Ok? {
      OkMeansApplied(w, req, fates, retries);
    }
  }

  /**
   Whenever and however many of its late attempts land, a retried add to an open basket is applied at most
   retries + 1 times, at least once on success, and changes nothing else; any other basket is left alone.
   */
  lemma AddsBounded(w: World, id: string, product: string, quantity: nat, fates: seq<Fate>, retries: nat, landed: nat) returns (k: nat)
    requires |fates| > 0 && landed <= Late(w, AddItem(id, product, quantity), fates, retries)
    ensures var (w', reply) := DoWithRetry(w, AddItem(id, product, quantity), fates, retries);
      var after := Landed(w', AddItem(id, product, quantity), landed);
      if OpenIn(w, id)
      then Added(w, after, id, product, quantity, k) && landed <= k <= retries + 1 && (reply.Ok? ==> k >= 1)
      else after == w && !reply.Ok?
  {
    var req := AddItem(id, product, quantity);
    k := Applied(w, req, fates, retries) + landed;
    RetriedIsLanded(w, req, fates, retries);
    LandedTwice(w, req, Applied(w, req, fates, retries), landed);
    LandedAdds(w, id, product, quantity, k);
    if !OpenIn(w, id) {
      AddRefused(w, id, product, quantity, fates, retries);
    } else if DoWithRetry(w, req, fates, retries).1.Ok? {
      OkMeansApplied(w, req, fates, retries);
    }
  }

  /** One click can add a product up to retries + 1 times: every answer but the last gets lost on its way back. */
  lemma {:induction false} OneClickAddsMany(w: World, id: string, product: string, retries: nat)
    requires OpenIn(w, id)
    ensures var (w', reply) := DoWithRetry(w, AddItem(id, product, 1), SlowThenServed(retries), retries);
      reply.Ok? && Added(w, w', id, product, 1, retries + 1)
    decreases retries
  {
    var req := AddItem(id, product, 1);
    if retries == 0 {
    } else {
      var w1 := Serve(w, req).0;
      assert Added(w, w1, id, product, 1, 1);
      assert SlowThenServed(retries)[1..] == SlowThenServed(retries - 1);
      OneClickAddsMany(w1, id, product, retries - 1);
      AddedTwice(w, w1, DoWithRetry(w1, req, SlowThenServed(retries - 1), retries - 1).0, id, product, 1, 1, retries);
    }
  }

  /** What FindBasket hands back: the basket under the ID asked for, or the zero value when the reply has no body. */
  datatype View = View(id: string, owner: string, items: multiset<string>, status: Option<Status>)

  const ZERO_VIEW := View("", "", multiset{}, None)

  function Shown(w: World, id: string): View
    requires id in w.baskets
  {
    View(id, w.baskets[id].owner, w.baskets[id].items, Some(w.baskets[id].status))
  }

  ghost predicate NewBasketOnly(before: World, after: World, user: string, id: string, product: string, k: nat) {
    id in after.baskets && after.baskets[id] == Basket(user, multiset{}[product := k], Open)
  }

  /** The product is in basket `id`, which is open: the given one, or a new one of the user where that was checked out. */
  ghost predicate Healed(
    before: World, after: World, given: string, product: string, user: string, freshId: string, id: string, retries: nat)
  {
    && OpenIn(after, id) && product in after.baskets[id].items
    && exists k: nat :: 1 <= k <= retries + 1 &&
         if id == given && OpenIn(before, given) then Added(before, after, given, product, 1, k)
         else id == freshId && id !in before.baskets && NewBasketOnly(before, after, user, id, product, k)
  }

  /** Only the given basket, and that only while open, or a new one may have changed; no effect of a confirmation happened. */
  ghost predicate OthersUntouched(before: World, after: World, given: string, freshId: string) {
    && "" !in after.baskets && after.log == before.log
    && after.baskets.Keys <= before.baskets.Keys + {freshId}
    && (forall b :: b in before.baskets && (b != given || before.baskets[b].status.CheckedOut?) ==>
          b in after.baskets && after.baskets[b] == before.baskets[b])
  }

  lemma AddUntouched(w: World, w1: World, w2: World, given: string, freshId: string, id: string, product: string, k: nat)
    requires OthersUntouched(w, w1, given, freshId)
    requires w2 == w1 || (Added(w1, w2, id, product, 1, k) && (id == given || id !in w.baskets))
    ensures OthersUntouched(w, w2, given, freshId)
  {
  }

  lemma CreateUntouched(w: World, w1: World, given: string, user: string, freshId: string, fate: Fate)
    requires OthersUntouched(w, w1, given, freshId) && w.baskets.Keys <= w1.baskets.Keys
    ensures var (w2, reply) := Do(w1, StartBasket(user, freshId), fate);
      && OthersUntouched(w, w2, given, freshId)
      && (reply.Ok? ==> freshId !in w1.baskets && w2 == w1.(baskets := w1.baskets[freshId := Basket(user, multiset{}, Open)]))
  {
  }

  /** The given basket took the product. */
  lemma GivenTookIt(w: World, w': World, given: string, product: string, user: string, freshId: string, k: nat, retries: nat)
    requires Added(w, w', given, product, 1, k) && 1 <= k <= retries + 1
    ensures Healed(w, w', given, product, user, freshId, given, retries)
  {
    assert w'.baskets[given].items[product] == w.baskets[given].items[product] + k;
  }

  /** A new basket was created and took the product. */
  lemma NewOneTookIt(
    w: World, w1: World, w2: World, w3: World, given: string, product: string, user: string, freshId: string, k: nat, retries: nat)
    requires w.baskets.Keys <= w1.baskets.Keys && freshId !in w1.baskets
    requires w2 == w1.(baskets := w1.baskets[freshId := Basket(user, multiset{}, Open)])
    requires Added(w2, w3, freshId, product, 1, k) && 1 <= k <= retries + 1
    ensures Healed(w, w3, given, product, user, freshId, freshId, retries)
  {
    assert w2.baskets[freshId].items[product] == 0;
    assert NewBasketOnly(w, w3, user, freshId, product, k);
    assert w3.baskets[freshId].items[product] == k;
  }

  /** The first add: only the given basket can change, and if all went well it took the product. */
  lemma FirstAdd(w: World, given: string, product: string, user: string, freshId: string, fates: seq<Fate>, retries: nat)
    requires |fates| > 0 && "" !in w.baskets
    ensures var (w1, reply) := DoWithRetry(w, AddItem(given, product, 1), fates, retries);
      && OthersUntouched(w, w1, given, freshId) && w.baskets.Keys <= w1.baskets.Keys
      && (reply.Ok? ==> Healed(w, w1, given, product, user, freshId, given, retries))
      && (NoForgedConflict(fates) && OpenIn(w, given) ==> reply != HttpError(CONFLICT))
      && (GetsThrough(fates, retries) && given in w.baskets ==> reply == if OpenIn(w, given) then Ok else HttpError(CONFLICT))
      && (!OpenIn(w, given) ==> w1 == w)
  {
    if GetsThrough(fates, retries) && given in w.baskets { ThroughIsAnswered(w, given, product, 1, fates, retries); }
    var k := RetriedAdd(w, given, product, 1, fates, retries);
    var (w1, reply) := DoWithRetry(w, AddItem(given, product, 1), fates, retries);
    AddUntouched(w, w, w1, given, freshId, given, product, k);
    if reply.Ok? { GivenTookIt(w, w1, given, product, user, freshId, k, retries); }
  }

  /** The add after the new basket, under the ID its reply named. */
  lemma SecondAdd(
    w: World, w1: World, w2: World, given: string, product: string, user: string, freshId: string, id: string,
    fates: seq<Fate>, retries: nat)
    requires |fates| > 0 && w.baskets.Keys <= w1.baskets.Keys && freshId !in w1.baskets
    requires w2 == w1.(baskets := w1.baskets[freshId := Basket(user, multiset{}, Open)])
    requires OthersUntouched(w, w2, given, freshId) && (id == freshId || id == "")
    ensures var (w3, reply) := DoWithRetry(w2, AddItem(id, product, 1), fates, retries);
      && OthersUntouched(w, w3, given, freshId)
      && (reply.Ok? ==> Healed(w, w3, given, product, user, freshId, id, retries))
      && (GetsThrough(fates, retries) && id == freshId ==> reply.Ok?)
  {
    if GetsThrough(fates, retries) && id == freshId { ThroughIsAnswered(w2, id, product, 1, fates, retries); }
    var k := RetriedAdd(w2, id, product, 1, fates, retries);
    var (w3, reply) := DoWithRetry(w2, AddItem(id, product, 1), fates, retries);
    AddUntouched(w, w2, w3, given, freshId, id, product, k);
    if reply.Ok? { NewOneTookIt(w, w1, w2, w3, given, product, user, freshId, k, retries); }
  }

  /** What the environment makes of each remote call of one request. */
  datatype Answers = Answers(
    token: bool, firstAdd: seq<Fate>, create: Fate, freshId: string, createHasBody: bool,
    secondAdd: seq<Fate>, find: bool, findHasBody: bool)

  /** The token, the first add and the final look-up get through. */
  predicate AsksThrough(a: Answers, retries: nat)
    requires |a.firstAdd| > 0
  {
    a.token && GetsThrough(a.firstAdd, retries) && a.find
  }

  /** The new basket is created under an unused ID that comes back, and the second add gets through. */
  predicate RecoversThrough(w: World, a: Answers, retries: nat)
    requires |a.secondAdd| > 0
  {
    && a.create.Served? && a.createHasBody && a.freshId != "" && a.freshId !in w.baskets
    && GetsThrough(a.secondAdd, retries)
  }

  /** The two services with the client's retry budget, and counters of the mutations it sent. */
  class Client {
    const maxRetries: nat
    var world: World
    var adds: nat
    var attempts: nat
    var creates: nat

    constructor (world: World, maxRetries: nat)
      ensures this.world == world && this.maxRetries == maxRetries && adds == attempts == creates == 0
    {
      this.world, this.maxRetries := world, maxRetries;
      adds, attempts, creates := 0, 0, 0;
    }

    /** kawa's loop around one PUT addItem. */
    method BasketAddItem(id: string, product: string, quantity: nat, fates: seq<Fate>) returns (err: Option<AddError>)
      requires |fates| > 0
      modifies this`world, this`adds, this`attempts
      ensures (world, err) == (DoWithRetry(old(world), AddItem(id, product, quantity), fates, maxRetries).0,
                               ToAddError(DoWithRetry(old(world), AddItem(id, product, quantity), fates, maxRetries).1))
      ensures err == Some(BasketCheckedOut) <==> DoWithRetry(old(world), AddItem(id, product, quantity), fates, maxRetries).1 == HttpError(409)
      ensures OpenIn(old(world), id) ==> (err.None? <==> GetsThrough(fates, maxRetries))
      ensures !OpenIn(old(world), id) ==> err.Some? && world == old(world)
      ensures adds == old(adds) + 1
      ensures attempts == old(attempts) + Attempts(old(world), AddItem(id, product, quantity), fates, maxRetries)
    {
      var req := AddItem(id, product, quantity);
      adds := adds + 1;
      var i := 0;
      var reply: Reply;
      world, reply := Attempt(world, req, fates[0]).0, Attempt(world, req, fates[0]).1;
      attempts := attempts + 1;
      ghost var w0 := old(world);
      while Transient(reply) && i < maxRetries && i + 1 < |fates|
        invariant i <= maxRetries && i < |fates|
        invariant (world, reply) == Attempt(w0, req, fates[i])
        invariant DoWithRetry(old(world), req, fates, maxRetries) == DoWithRetry(w0, req, fates[i..], maxRetries - i)
        invariant adds == old(adds) + 1 && attempts == old(attempts) + i + 1
        invariant Attempts(old(world), req, fates, maxRetries) == i + Attempts(w0, req, fates[i..], maxRetries - i)
      {
        assert fates[i..][1..] == fates[i + 1..];
        w0 := world;
        i := i + 1;
        world, reply := Attempt(world, req, fates[i]).0, Attempt(world, req, fates[i]).1;
        attempts := attempts + 1;
      }
      err := ToAddError(reply);
      if OpenIn(old(world), id) {
        AddSucceedsIff(old(world), id, product, quantity, fates, maxRetries);
      } else {
        ghost var k := RetriedAdd(old(world), id, product, quantity, fates, maxRetries);
      }
    }

    /** A single POST baskets; `None` is an error. */
    method CreateBasket(user: string, fate: Fate, freshId: string, hasBody: bool) returns (id: Option<string>)
      modifies this`world, this`creates
      ensures creates == old(creates) + 1
      ensures world == Do(old(world), StartBasket(user, freshId), fate).0
      ensures id.Some? <==> Do(old(world), StartBasket(user, freshId), fate).1.Ok?
      ensures id.Some? ==> id.value == if hasBody then freshId else ""
    {
      var (w', reply) := Do(world, StartBasket(user, freshId), fate);
      world, creates := w', creates + 1;
      id := if reply.Ok? then Some(if hasBody then freshId else "") else None;
    }

    /** GET baskets/{id}. An unknown basket is an error. */
    method FindBasket(id: string, ok: bool, hasBody: bool) returns (view: Option<View>)
      ensures view.Some? <==> ok && id in world.baskets
      ensures view.Some? ==> view.value == if hasBody then Shown(world, id) else ZERO_VIEW
      ensures view.Some? && hasBody ==>
        && view.value.id == id && view.value.owner == world.baskets[id].owner
        && view.value.items == world.baskets[id].items && view.value.status == Some(world.baskets[id].status)
      ensures view.Some? && !hasBody ==>
        view.value.id == "" && view.value.owner == "" && view.value.items == multiset{} && view.value.status == None
    {
      if !ok || id !in world.baskets {
        return None;
      }
      view := Some(if hasBody then Shown(world, id) else ZERO_VIEW);
    }

    /**
     Add a product to a basket; if the basket turns out to be checked out, once more to a new one.

     On success the returned basket is open and contains the product: the given basket with between one
     and maxRetries + 1 more of it, or, if the given one was checked out, a new basket of that user holding
     only those. Nothing else changes on any path, at most one basket is created and at most two adds are issued.

     It does succeed if what it needs gets through: the add, where the given basket is open; that add, the new
     basket with its ID, and the second add, where it is checked out.
     */
    method AddItemFromSearch(basketId: string, product: string, user: string, a: Answers)
      returns (result: Option<(string, View)>)
      requires |a.firstAdd| > 0 && |a.secondAdd| > 0 && "" !in world.baskets
      modifies this
      ensures creates <= old(creates) + 1 && adds <= old(adds) + 2
      ensures attempts <= old(attempts) + 2 * (maxRetries + 1)
      ensures OthersUntouched(old(world), world, basketId, a.freshId)
      ensures result.Some? ==> Healed(old(world), world, basketId, product, user, a.freshId, result.value.0, maxRetries)
      ensures result.Some? ==> result.value.0 in world.baskets
      ensures result.Some? ==> result.value.1 == if a.findHasBody then Shown(world, result.value.0) else ZERO_VIEW
      ensures result.Some? && a.findHasBody ==>
        var (id, view) := result.value;
        && view.id == id && product in view.items && view.status == Some(Open)
        && view.items == world.baskets[id].items && view.owner == world.baskets[id].owner
      ensures NoForgedConflict(a.firstAdd) && OpenIn(old(world), basketId) ==>
        creates == old(creates) && (result.Some? ==> result.value.0 == basketId)
      ensures result.Some? ==> a.token && a.find
      ensures !a.token ==> world == old(world) && adds == old(adds)
      ensures creates == old(creates) +
        if a.token && DoWithRetry(old(world), AddItem(basketId, product, 1), a.firstAdd, maxRetries).1 == HttpError(409) then 1 else 0
      ensures AsksThrough(a, maxRetries) && OpenIn(old(world), basketId) ==>
        result.Some? && result.value.0 == basketId
      ensures AsksThrough(a, maxRetries) && basketId in old(world).baskets && !OpenIn(old(world), basketId) &&
              RecoversThrough(old(world), a, maxRetries) ==>
        result.Some? && result.value.0 == a.freshId
    {
      if !a.token {
        return None;
      }
      var id := basketId;
      ghost var w := world;
      FirstAdd(w, id, product, user, a.freshId, a.firstAdd, maxRetries);
      var err := BasketAddItem(id, product, 1, a.firstAdd);
      ghost var w1 := world;
      if err == Some(BasketCheckedOut) {
        CreateUntouched(w, w1, id, user, a.freshId, a.create);
        var created := CreateBasket(user, a.create, a.freshId, a.createHasBody);
        if created.None? {
          return None;
        }
        id := created.value;
        ghost var w2 := world;
        SecondAdd(w, w1, w2, basketId, product, user, a.freshId, id, a.secondAdd, maxRetries);
        err := BasketAddItem(id, product, 1, a.secondAdd);
      }
      if err.Some? {
        return None;
      }
      var view := FindBasket(id, a.find, a.findHasBody);
      if view.None? {
        return None;
      }
      result := Some((id, view.value));
    }
  }
}
