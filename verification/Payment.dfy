/**
 ConfirmPayment as the payment service runs it, against services other calls are using at the
 same time. Whatever happens in between, a call is one of the runs of module Saga.
 */
module Payment {
  import opened Prelude
  import opened Wire
  import opened Remote
  import opened Saga
  import opened SagaSafety

  /** An event that moves a call other than `me`, or none. */
  predicate Elsewhere(e: Event, me: nat) {
    (e.Gateway? || e.Token? || e.Price? || e.Act?) ==> e.call != me
  }

  function Others(es: seq<Event>, me: nat): (r: seq<Event>)
    ensures forall i :: 0 <= i < |r| ==> Elsewhere(r[i], me)
  {
    if |es| == 0 then []
    else Others(es[..|es| - 1], me) + if Elsewhere(es[|es| - 1], me) then [es[|es| - 1]] else []
  }

  /** Only its own events move a call. */
  lemma {:induction false} OthersSpare(s: Sys, es: seq<Event>, me: nat)
    requires me < |s.calls| && forall i :: 0 <= i < |es| ==> Elsewhere(es[i], me)
    ensures |Exec(s, es).calls| >= |s.calls| && Exec(s, es).calls[me] == s.calls[me]
  {
    if |es| == 0 {
    } else {
      OthersSpare(s, es[..|es| - 1], me);
      assert Elsewhere(es[|es| - 1], me);
    }
  }

  lemma StartRun(s: Sys, args: Args)
    ensures Exec(s, [Start(args)]) == s.(calls := s.calls + [Call(args, None, false, [], 0, AtGateway)])
  {
    assert [Start(args)][..0] == [];
  }

  /** What a read does to its call depends on that call alone. */
  lemma ReadIsLocal(s: Sys, s': Sys, me: nat, e: Event, call: Call)
    requires me < |s.calls| && me < |s'.calls| && s'.calls[me] == s.calls[me] && call != s.calls[me]
    requires (e.Gateway? || e.Token? || e.Price?) && e.call == me
    requires Step(s, e) == Update(s, me, call)
    ensures Step(s', e) == Update(s', me, call)
  {
    assert Step(s, e).calls[me] == call;
  }

  /** The order and basket services, with the program counters of the calls that use them. */
  class Backend {
    var world: World
    var inflight: seq<Entry>
    var calls: seq<Call>

    function State(): Sys
      reads this
    {
      Sys(world, inflight, calls)
    }

    /** Anything any other call, or any other user of the basket service, may do meanwhile. */
    method Interfere(me: nat) returns (ghost es: seq<Event>)
      requires me < |calls|
      modifies this
      ensures State() == Exec(old(State()), es)
      ensures me < |calls| && calls[me] == old(calls[me])
    {
      var any: seq<Event> := *;
      var chosen := Others(any, me);
      OthersSpare(State(), chosen, me);
      var s := Exec(State(), chosen);
      world, inflight, calls := s.world, s.inflight, s.calls;
      es := chosen;
    }

    /** The same, on top of the run so far. */
    method Meanwhile(me: nat, ghost s0: Sys, ghost before: seq<Event>) returns (ghost trace: seq<Event>)
      requires me < |calls| && State() == Exec(s0, before)
      modifies this
      ensures State() == Exec(s0, trace)
      ensures me < |calls| && calls[me] == old(calls[me])
    {
      ghost var es := Interfere(me);
      ExecConcat(s0, before, es);
      trace := before + es;
    }

    /** A call arrives. */
    method Arrive(args: Args) returns (me: nat, ghost trace: seq<Event>)
      modifies this
      ensures State() == Exec(old(State()), trace)
      ensures me == |old(calls)| && calls == old(calls) + [Call(args, None, false, [], 0, AtGateway)]
    {
      ghost var s0 := State();
      me := |calls|;
      calls := calls + [Call(args, None, false, [], 0, AtGateway)];
      trace := [Start(args)];
      StartRun(s0, args);
    }

    /** A read and its bookkeeping, after whatever others did first. */
    method Ask(me: nat, ghost e: Event, call: Call) returns (ghost trace: seq<Event>)
      requires me < |calls| && (e.Gateway? || e.Token? || e.Price?) && e.call == me
      requires Step(State(), e) == Update(State(), me, call) && call != calls[me]
      modifies this
      ensures State() == Exec(old(State()), trace)
      ensures me < |calls| && calls[me] == call
    {
      ghost var s0 := State();
      trace := Interfere(me);
      ReadIsLocal(s0, State(), me, e, call);
      ExecSnoc(s0, trace, e);
      trace := trace + [e];
      calls := calls[me := call];
    }

    /** A single-shot mutation. */
    method Mutate(entry: Entry, fate: Fate, freshId: string) returns (ok: bool)
      modifies this`world, this`inflight
      ensures Delivery(world, inflight, ok) == Deliver(old(world), old(inflight), entry, freshId, fate)
    {
      var d := Deliver(world, inflight, entry, freshId, fate);
      world, inflight, ok := d.world, d.inflight, d.ok;
    }

    /** One order for one store, then the call's bookkeeping. */
    method CreateOrder(me: nat, position: nat, order: OrderV1, fate: Fate) returns (ok: bool)
      requires me < |calls| && CanAct(calls[me])
      requires Plan(calls[me])[calls[me].reported] == Order(position, order)
      modifies this
      ensures State() == Step(old(State()), Act(me, fate, "", false))
      ensures calls == old(calls)[me := OnReply(old(calls[me]), ok, "")]
      ensures ok <==> fate.Served?
    {
      ok := Mutate(Entry(me, Order(position, order)), fate, "");
      calls := calls[me := OnReply(calls[me], ok, "")];
    }

    method CheckoutBasket(me: nat, basket: string, payment: string, shipping: string, fate: Fate) returns (ok: bool)
      requires me < |calls| && CanAct(calls[me])
      requires Plan(calls[me])[calls[me].reported] == Checkout(basket, payment, shipping)
      modifies this
      ensures State() == Step(old(State()), Act(me, fate, "", false))
      ensures calls == old(calls)[me := OnReply(old(calls[me]), ok, "")]
      ensures ok <==> fate.Served? && basket in old(world.baskets)
    {
      ok := Mutate(Entry(me, Checkout(basket, payment, shipping)), fate, "");
      calls := calls[me := OnReply(calls[me], ok, "")];
    }

    /** The reply may come without a body; the ID is then the empty string. */
    method CreateBasket(me: nat, user: string, fate: Fate, freshId: string, hasBody: bool) returns (ok: bool, id: string)
      requires me < |calls| && CanAct(calls[me])
      requires Plan(calls[me])[calls[me].reported] == OpenBasket(user)
      modifies this
      ensures State() == Step(old(State()), Act(me, fate, freshId, hasBody))
      ensures calls == old(calls)[me := OnReply(old(calls[me]), ok, id)]
      ensures ok <==> fate.Served? && freshId != "" && freshId !in old(world.baskets)
      ensures !ok && fate.Served? ==> world == old(world)
      ensures ok ==> freshId in world.baskets
      ensures id == if hasBody then freshId else ""
    {
      ok := Mutate(Entry(me, OpenBasket(user)), fate, freshId);
      id := if hasBody then freshId else "";
      calls := calls[me := OnReply(calls[me], ok, id)];
    }
  }

  /**
   What the environment makes of each remote call of one confirmation: the answers of the gateway, the token
   service and the price computation; the fates of the k-th order, of the checkout and of the new basket; and the
   new basket's ID.
   */
  datatype Answers = Answers(
    gateway: Option<GatewayReply>, token: bool, financials: Option<Option<FinancialsV1>>,
    orders: nat -> Fate, checkout: Fate, create: Fate, freshId: string, createHasBody: bool)

  /** The call gets as far as its effects. */
  predicate Proceeds(a: Answers) {
    a.gateway.Some? && Passes(ToConfirmation(a.gateway.value)) && a.token && a.financials.Some?
  }

  /** What a call that does not returns: the refusal with a nil error, or an error. */
  function Stopped(a: Answers): Result {
    if a.gateway.Some? && !Passes(ToConfirmation(a.gateway.value)) then Returned(ToConfirmation(a.gateway.value), "")
    else Failed
  }

  ghost predicate OrderCallsServed(a: Answers, n: nat) {
    forall k: nat :: k < n ==> a.orders(k).Served?
  }

  /** The same in the gateway's own terms. */
  lemma AnswersDecide(a: Answers, reply: GatewayReply)
    requires a.gateway == Some(reply)
    ensures ToConfirmation(reply).transactionId == reply.transactionId && ToConfirmation(reply).status == reply.transactionStatus
    ensures if (reply.statusCode == 3 && reply.transactionStatus == "Approved") || reply.message == Some("") then
      && (Proceeds(a) <==> a.token && a.financials.Some?) && (!Proceeds(a) ==> Stopped(a) == Failed)
    else
      && !Proceeds(a) && Stopped(a).Returned? && Stopped(a).newBasketId == ""
      && Stopped(a).confirmation.errorMessage == if reply.message.Some? then reply.message.value else "Payment was not approved"
  {
    GateAdmits(reply);
    ConfirmationSays(reply);
  }

  /** All the effects' requests, `n` orders among them, get through to the services and back. */
  ghost predicate AllServed(a: Answers, n: nat) {
    OrderCallsServed(a, n) && a.checkout.Served? && a.create.Served?
  }

  /** The saga up to its first effect: confirm, gate, token, price. `Some` carries on with the snapshot. */
  method Begin(b: Backend, args: Args, answers: Answers) returns (result: Result, snapshot: Option<Financials>, ghost trace: seq<Event>)
    modifies b
    ensures b.State() == Exec(old(b.State()), trace)
    ensures |old(b.calls)| < |b.calls| && b.calls[|old(b.calls)|].args == args
    ensures b.calls[|old(b.calls)|].gateway == answers.gateway
    ensures snapshot.Some? <==> Proceeds(answers)
    ensures var call := b.calls[|old(b.calls)|];
      match snapshot
      case None => call.pc == Done(result) && result == Stopped(answers) && !call.priced
      case Some(f) =>
        && answers.gateway.Some? && result == Returned(ToConfirmation(answers.gateway.value), "")
        && call == Call(args, answers.gateway, true, ItemsIn(answers.financials.value), 0, AtEffects)
        && |f.items| == |call.received| && forall k :: 0 <= k < |f.items| ==> f.items[k] == ToDomainItem(call.received[k])
  {
    ghost var s0, es := b.State(), [];
    snapshot, result := None, Failed;
    var me: nat;
    me, trace := b.Arrive(args);

    es := b.Ask(me, Gateway(me, answers.gateway), OnGateway(b.calls[me], answers.gateway));
    ExecConcat(s0, trace, es);
    trace := trace + es;
    if answers.gateway.None? {
      return;
    }
    var confirmation := ToConfirmation(answers.gateway.value);
    result := Returned(confirmation, "");
    if confirmation.errorMessage != "" {
      return;
    }

    es := b.Ask(me, Token(me, answers.token), b.calls[me].(pc := if answers.token then AtFinancials else Done(Failed)));
    ExecConcat(s0, trace, es);
    trace := trace + es;
    if !answers.token {
      result := Failed;
      return;
    }

    es := b.Ask(me, Price(me, answers.financials), OnPrice(b.calls[me], answers.financials));
    ExecConcat(s0, trace, es);
    trace := trace + es;
    match answers.financials
    case None => result := Failed;
    case Some(None) => snapshot := Some(Financials([], 0.0, 0.0, 0.0, 0.0));
    case Some(Some(f)) =>
      var financials := MapFinancials(f);
      snapshot := Some(financials);
  }

  lemma Settled(s0: Sys, s: Sys, trace: seq<Event>, c: nat)
    requires s == Exec(s0, trace) && c < |s.calls| && s.calls[c].pc.Done?
    ensures Reachable(s0) && s.calls[c].pc.result.Returned? && Passes(s.calls[c].pc.result.confirmation) ==>
      Of(s.world.log, c) == Plan(s.calls[c]) && Of(s.inflight, c) == []
  {
    if Reachable(s0) {
      var baskets: map<string, Basket>, es: seq<Event> :| "" !in baskets && s0 == Exec(Init(baskets), es);
      ExecConcat(Init(baskets), es, trace);
      assert Reachable(s);
      CompletedMeansAllApplied(s, c);
    }
  }

  lemma Ran(s0: Sys, es: seq<Event>, e: Event) returns (es': seq<Event>)
    ensures es' == es + [e] && Exec(s0, es') == Step(Exec(s0, es), e)
  {
    ExecSnoc(s0, es, e);
    es' := es + [e];
  }

  /** No event takes a basket away. */
  lemma {:induction false} BasketsRemain(s: Sys, es: seq<Event>)
    ensures s.world.baskets.Keys <= Exec(s, es).world.baskets.Keys
  {
    if |es| == 0 {
    } else {
      BasketsRemain(s, es[..|es| - 1]);
      StepServes(Exec(s, es[..|es| - 1]), es[|es| - 1]);
    }
  }

  /** The call as it stands between its effects. */
  function Midway(args: Args, answers: Answers, reported: nat): Call
    requires Proceeds(answers)
  {
    Call(args, answers.gateway, true, ItemsIn(answers.financials.value), reported, AtEffects)
  }

  ghost predicate FailedMidway(call: Call, args: Args, answers: Answers)
    requires Proceeds(answers)
  {
    call.reported < |ItemsIn(answers.financials.value)| + 2 && call == Midway(args, answers, call.reported).(pc := Done(Failed))
  }

  lemma NextOrder(args: Args, answers: Answers, k: nat)
    requires Proceeds(answers) && k < |ItemsIn(answers.financials.value)|
    ensures var call := Midway(args, answers, k);
      && CanAct(call) && Plan(call)[k] == Order(k, OrderFor(args, ToDomainItem(call.received[k])))
      && OnReply(call, true, "") == Midway(args, answers, k + 1)
      && FailedMidway(OnReply(call, false, ""), args, answers)
  {
  }

  /** The order for one line of the snapshot. */
  method PlaceOrder(b: Backend, me: nat, args: Args, answers: Answers, k: nat, item: LineItem, ghost s0: Sys, ghost before: seq<Event>)
    returns (ok: bool, ghost trace: seq<Event>)
    requires b.State() == Exec(s0, before) && Proceeds(answers)
    requires me < |b.calls| && b.calls[me] == Midway(args, answers, k)
    requires k < |ItemsIn(answers.financials.value)| && item == ToDomainItem(ItemsIn(answers.financials.value)[k])
    modifies b
    ensures b.State() == Exec(s0, trace) && me < |b.calls|
    ensures ok <==> answers.orders(k).Served?
    ensures if ok then b.calls[me] == Midway(args, answers, k + 1) else FailedMidway(b.calls[me], args, answers)
  {
    trace := b.Meanwhile(me, s0, before);
    NextOrder(args, answers, k);
    var wire := MapWireItem(item);
    ok := b.CreateOrder(me, k, OrderV1(args.user, args.payment, args.basket, args.shipping, wire), answers.orders(k));
    trace := Ran(s0, trace, Act(me, answers.orders(k), "", false));
  }

  /** One order per line of the snapshot, up to the first that fails. */
  method PlaceOrders(b: Backend, me: nat, args: Args, answers: Answers, items: seq<LineItem>, ghost s0: Sys, ghost before: seq<Event>)
    returns (placed: nat, ghost trace: seq<Event>)
    requires b.State() == Exec(s0, before) && Proceeds(answers)
    requires me < |b.calls| && b.calls[me] == Midway(args, answers, 0)
    requires |items| == |ItemsIn(answers.financials.value)|
    requires forall k :: 0 <= k < |items| ==> items[k] == ToDomainItem(ItemsIn(answers.financials.value)[k])
    modifies b
    ensures b.State() == Exec(s0, trace) && me < |b.calls|
    ensures placed <= |items| && OrderCallsServed(answers, placed)
    ensures if placed == |items| then b.calls[me] == Midway(args, answers, placed)
            else !answers.orders(placed).Served? && FailedMidway(b.calls[me], args, answers)
  {
    placed, trace := 0, before;
    for k := 0 to |items|
      invariant placed == k && OrderCallsServed(answers, k)
      invariant b.State() == Exec(s0, trace)
      invariant me < |b.calls| && b.calls[me] == Midway(args, answers, k)
    {
      var ok: bool;
      ok, trace := PlaceOrder(b, me, args, answers, k, items[k], s0, trace);
      if !ok {
        return;
      }
      placed := placed + 1;
    }
  }

  lemma LastTwo(args: Args, answers: Answers, newBasketId: string)
    requires Proceeds(answers)
    ensures var n := |ItemsIn(answers.financials.value)|;
      var checkout, open := Midway(args, answers, n), Midway(args, answers, n + 1);
      var result := Returned(ToConfirmation(answers.gateway.value), newBasketId);
      && CanAct(checkout) && Plan(checkout)[n] == Checkout(args.basket, args.payment, args.shipping)
      && OnReply(checkout, true, "") == open && FailedMidway(OnReply(checkout, false, ""), args, answers)
      && CanAct(open) && Plan(open)[n + 1] == OpenBasket(args.user)
      && OnReply(open, true, newBasketId) == Midway(args, answers, n + 2).(pc := Done(result))
      && FailedMidway(OnReply(open, false, newBasketId), args, answers)
  {
  }

  /** The checkout, which fails only if its request does or the basket is unknown. */
  method CloseBasket(b: Backend, me: nat, args: Args, answers: Answers, ghost s0: Sys, ghost before: seq<Event>)
    returns (ok: bool, ghost trace: seq<Event>)
    requires b.State() == Exec(s0, before) && Proceeds(answers)
    requires me < |b.calls| && b.calls[me] == Midway(args, answers, |ItemsIn(answers.financials.value)|)
    modifies b
    ensures b.State() == Exec(s0, trace) && me < |b.calls|
    ensures if ok then b.calls[me] == Midway(args, answers, |ItemsIn(answers.financials.value)| + 1)
            else FailedMidway(b.calls[me], args, answers)
    ensures ok ==> answers.checkout.Served?
    ensures answers.checkout.Served? && args.basket in old(b.world.baskets) ==> ok
  {
    ghost var es := b.Interfere(me);
    ExecConcat(s0, before, es);
    BasketsRemain(old(b.State()), es);
    LastTwo(args, answers, "");
    ok := b.CheckoutBasket(me, args.basket, args.payment, args.shipping, answers.checkout);
    trace := Ran(s0, before + es, Act(me, answers.checkout, "", false));
  }

  /** The new basket, and with it the end of the call. */
  method OpenNext(b: Backend, me: nat, args: Args, answers: Answers, ghost s0: Sys, ghost before: seq<Event>)
    returns (result: Result, ghost trace: seq<Event>)
    requires b.State() == Exec(s0, before) && Proceeds(answers)
    requires me < |b.calls| && b.calls[me] == Midway(args, answers, |ItemsIn(answers.financials.value)| + 1)
    modifies b
    ensures b.State() == Exec(s0, trace) && me < |b.calls|
    ensures if result.Failed? then FailedMidway(b.calls[me], args, answers)
            else b.calls[me] == Midway(args, answers, |ItemsIn(answers.financials.value)| + 2).(pc := Done(result))
    ensures result.Returned? ==>
      && answers.create.Served? && answers.freshId in b.world.baskets
      && result == Returned(ToConfirmation(answers.gateway.value), if answers.createHasBody then answers.freshId else "")
    ensures result.Failed? && answers.create.Served? ==> answers.freshId == "" || answers.freshId in b.world.baskets
  {
    trace := b.Meanwhile(me, s0, before);
    LastTwo(args, answers, if answers.createHasBody then answers.freshId else "");
    var ok, id := b.CreateBasket(me, args.user, answers.create, answers.freshId, answers.createHasBody);
    trace := Ran(s0, trace, Act(me, answers.create, answers.freshId, answers.createHasBody));
    result := if ok then Returned(ToConfirmation(answers.gateway.value), id) else Failed;
  }

  /**
   The whole call. `me` is its number; `trace` is the schedule it and its surroundings ran, which is one
   of module Saga's, so everything proved of every schedule holds of this code.

   The gateway, the token and the price decide whether it gets to its effects. From there it returns without an
   error only if all their requests got through, and if they did and its basket exists, only a new basket ID that
   is empty or taken can still make it fail.
   */
  method ConfirmPayment(b: Backend, args: Args, answers: Answers) returns (result: Result, ghost me: nat, ghost trace: seq<Event>)
    modifies b
    ensures b.State() == Exec(old(b.State()), trace)
    ensures me == |old(b.calls)| < |b.calls|
    ensures b.calls[me].args == args && b.calls[me].gateway == answers.gateway && b.calls[me].pc == Done(result)
    ensures b.calls[me].priced <==> Proceeds(answers)
    ensures !Proceeds(answers) ==> result == Stopped(answers)
    ensures answers.gateway.None? ==> result == Failed
    ensures answers.gateway.Some? ==>
      var reply := answers.gateway.value;
      if (reply.statusCode == 3 && reply.transactionStatus == "Approved") || reply.message == Some("") then
        && (b.calls[me].priced <==> answers.token && answers.financials.Some?)
        && (!answers.token || answers.financials.None? ==> result == Failed)
      else
        && !b.calls[me].priced && result.Returned? && result.newBasketId == ""
        && result.confirmation.errorMessage == if reply.message.Some? then reply.message.value else "Payment was not approved"
    ensures result.Returned? ==>
      && answers.gateway.Some? && result.confirmation.transactionId == answers.gateway.value.transactionId
      && result.confirmation.status == answers.gateway.value.transactionStatus
    ensures b.calls[me].priced && answers.financials.value.Some? ==>
      b.calls[me].received == answers.financials.value.value.items
    ensures b.calls[me].priced && answers.financials.value.None? ==> b.calls[me].received == []
    ensures Proceeds(answers) ==> (result.Returned? <==> b.calls[me].reported == |Plan(b.calls[me])|)
    ensures Proceeds(answers) && result.Returned? ==>
      && AllServed(answers, |b.calls[me].received|) && answers.freshId in b.world.baskets
      && result == Returned(ToConfirmation(answers.gateway.value), if answers.createHasBody then answers.freshId else "")
    ensures Proceeds(answers) && result.Failed? && AllServed(answers, |b.calls[me].received|) ==>
      args.basket !in old(b.world.baskets) || answers.freshId == "" || answers.freshId in b.world.baskets
    ensures Reachable(old(b.State())) && result.Returned? && Passes(result.confirmation) ==>
      Of(b.world.log, me) == Plan(b.calls[me]) && Of(b.inflight, me) == []
  {
    ghost var s0 := b.State();
    me := |b.calls|;
    var c := |b.calls|;
    var snapshot: Option<Financials>;
    result, snapshot, trace := Begin(b, args, answers);
    if snapshot.Some? {
      var placed: nat;
      placed, trace := PlaceOrders(b, c, args, answers, snapshot.value.items, s0, trace);
      result := Failed;
      BasketsRemain(s0, trace);
      if placed == |snapshot.value.items| {
        var ok: bool;
        ok, trace := CloseBasket(b, c, args, answers, s0, trace);
        if ok {
          result, trace := OpenNext(b, c, args, answers, s0, trace);
        }
      }
    }
    Settled(s0, b.State(), trace, c);
    if answers.gateway.Some? { AnswersDecide(answers, answers.gateway.value); }
  }
}
