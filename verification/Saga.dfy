/**
 Any number of ConfirmPayment calls in flight at once, interleaved with each other and with
 every other use of the basket service, one remote call at a time.

 A schedule is a list of events; `Exec` runs it. A mutation that was answered for, or cut off,
 before the service got to it stays in flight and may be processed at any later moment, or never.
 */
module Saga {
  import opened Prelude
  import opened Wire
  import opened Remote

  /** The reply of the payment gateway's confirmation API; `message` is absent when the JSON has none. */
  datatype GatewayReply = GatewayReply(transactionId: int, statusCode: int, transactionStatus: string, message: Option<string>)

  datatype Confirmation = Confirmation(transactionId: int, status: string, errorMessage: string)

  const APPROVED_CODE := 3
  const APPROVED_STATUS := "Approved"

  predicate Approved(r: GatewayReply) {
    r.statusCode == APPROVED_CODE && r.transactionStatus == APPROVED_STATUS
  }

  /** The gateway adapter: a reply that is not an approval gets an error message. */
  function ToConfirmation(r: GatewayReply): Confirmation {
    Confirmation(r.transactionId, r.transactionStatus,
      if Approved(r) then ""
      else match r.message
        case Some(text) => text
        case None => "Payment was not approved")
  }

  /** The gate ConfirmPayment applies before it touches orders or baskets. */
  predicate Passes(c: Confirmation) {
    c.errorMessage == ""
  }

  /** A refusal the gateway sent with an empty message text. */
  predicate BlankRefusal(r: GatewayReply) {
    !Approved(r) && r.message == Some("")
  }

  datatype Args = Args(user: string, basket: string, payment: string, shipping: string)

  /** What a finished call returned: an error, or a confirmation and the new basket's ID with a nil error. */
  datatype Result = Failed | Returned(confirmation: Confirmation, newBasketId: string)

  datatype Pc = AtGateway | AtToken | AtFinancials | AtEffects | Done(result: Result)

  /**
   One ConfirmPayment call. `received` is what the basket service answered to ComputeFinancials
   (once `priced`), `reported` how many of the planned remote effects have reported success.
   */
  datatype Call = Call(
    args: Args, gateway: Option<GatewayReply>, priced: bool, received: seq<FinancialItemV1>,
    reported: nat, pc: Pc)

  datatype Sys = Sys(world: World, inflight: seq<Entry>, calls: seq<Call>)

  /** The request body for the store at one position of the financial snapshot. */
  function OrderFor(args: Args, item: LineItem): OrderV1 {
    OrderV1(args.user, args.payment, args.basket, args.shipping, ToWireItem(item))
  }

  /** The effects the code of a call would issue, in order: one order per store, the checkout, the new basket. */
  function Plan(call: Call): (plan: seq<Effect>)
    ensures |plan| == |call.received| + 2
  {
    seq(|call.received|, i requires 0 <= i < |call.received| =>
      Order(i, OrderFor(call.args, ToDomainItem(call.received[i])))) +
    [Checkout(call.args.basket, call.args.payment, call.args.shipping), OpenBasket(call.args.user)]
  }

  datatype Event =
    | Start(args: Args)
    | Gateway(call: nat, answer: Option<GatewayReply>)
    | Token(call: nat, ok: bool)
    // An answer without a body (204) is priced as an empty breakdown.
    | Price(call: nat, body: Option<Option<FinancialsV1>>)
    | Act(call: nat, fate: Fate, freshId: string, hasBody: bool)
    | Land(index: nat, freshId: string)
    | Foreign(request: Request)

  /** What a single-shot mutation does to the services, to what is still in flight, and whether it reported success. */
  datatype Delivery = Delivery(world: World, inflight: seq<Entry>, ok: bool)

  function Deliver(w: World, inflight: seq<Entry>, entry: Entry, freshId: string, fate: Fate): Delivery {
    var (w', reply) := Do(w, Confirming(entry, freshId), fate);
    Delivery(w', if Processed(fate) then inflight else inflight + [entry], reply.Ok?)
  }

  function OnGateway(call: Call, answer: Option<GatewayReply>): Call {
    match answer
    case None => call.(pc := Done(Failed))
    case Some(reply) =>
      var c := ToConfirmation(reply);
      if Passes(c) then call.(gateway := answer, pc := AtToken)
      else call.(gateway := answer, pc := Done(Returned(c, "")))
  }

  function OnPrice(call: Call, body: Option<Option<FinancialsV1>>): Call {
    match body
    case None => call.(pc := Done(Failed))
    case Some(None) => call.(priced := true, received := [], reported := 0, pc := AtEffects)
    case Some(Some(f)) => call.(priced := true, received := f.items, reported := 0, pc := AtEffects)
  }

  /** The call's own bookkeeping after one mutation: stop on an error, finish after the last one. */
  function OnReply(call: Call, ok: bool, newBasketId: string): Call
    requires call.gateway.Some?
  {
    if !ok then call.(pc := Done(Failed))
    else if call.reported + 1 < |Plan(call)| then call.(reported := call.reported + 1)
    else call.(reported := call.reported + 1, pc := Done(Returned(ToConfirmation(call.gateway.value), newBasketId)))
  }

  predicate CanAct(call: Call) {
    call.pc.AtEffects? && call.gateway.Some? && call.reported < |Plan(call)|
  }

  function Update(s: Sys, c: nat, call: Call): Sys
    requires c < |s.calls|
  {
    s.(calls := s.calls[c := call])
  }

  /** One event; an event that is not possible in the current state changes nothing. */
  function Step(s: Sys, e: Event): Sys {
    match e
    case Start(args) => s.(calls := s.calls + [Call(args, None, false, [], 0, AtGateway)])
    case Gateway(c, answer) =>
      if c < |s.calls| && s.calls[c].pc.AtGateway? then Update(s, c, OnGateway(s.calls[c], answer)) else s
    case Token(c, ok) =>
      if c < |s.calls| && s.calls[c].pc.AtToken?
      then Update(s, c, s.calls[c].(pc := if ok then AtFinancials else Done(Failed))) else s
    case Price(c, body) =>
      if c < |s.calls| && s.calls[c].pc.AtFinancials? then Update(s, c, OnPrice(s.calls[c], body)) else s
    case Act(c, fate, freshId, hasBody) =>
      if c < |s.calls| && CanAct(s.calls[c]) then
        var call := s.calls[c];
        var d := Deliver(s.world, s.inflight, Entry(c, Plan(call)[call.reported]), freshId, fate);
        Sys(d.world, d.inflight, s.calls[c := OnReply(call, d.ok, if hasBody then freshId else "")])
      else s
    case Land(i, freshId) =>
      if i < |s.inflight|
      then s.(world := Serve(s.world, Confirming(s.inflight[i], freshId)).0,
              inflight := s.inflight[..i] + s.inflight[i + 1..])
      else s
    case Foreign(request) =>
      if request.Confirming? then s else s.(world := Serve(s.world, request).0)
  }

  function Exec(s: Sys, es: seq<Event>): Sys {
    if |es| == 0 then s else Step(Exec(s, es[..|es| - 1]), es[|es| - 1])
  }

  lemma {:induction false} ExecConcat(s: Sys, a: seq<Event>, b: seq<Event>)
    ensures Exec(s, a + b) == Exec(Exec(s, a), b)
    decreases |b|
  {
    if |b| == 0 {
      assert a + b == a;
    } else {
      assert (a + b)[..|a + b| - 1] == a + b[..|b| - 1];
      ExecConcat(s, a, b[..|b| - 1]);
    }
  }

  /** No confirmation has run yet; the baskets may be anything, but an empty ID names none of them. */
  function Init(baskets: map<string, Basket>): Sys {
    Sys(World(baskets, []), [], [])
  }

  // --- The effects of one call ---------------------------------------------------------------

  /** The effects call `c` has in a list of entries, in their order. */
  function Of(es: seq<Entry>, c: nat): (r: seq<Effect>)
    ensures |r| <= |es|
  {
    if |es| == 0 then []
    else Of(es[..|es| - 1], c) + (if es[|es| - 1].call == c then [es[|es| - 1].effect] else [])
  }

  lemma OfAppend(es: seq<Entry>, e: Entry, c: nat)
    ensures Of(es + [e], c) == Of(es, c) + (if e.call == c then [e.effect] else [])
  {
    assert (es + [e])[..|es|] == es;
  }

  lemma {:induction false} OfConcat(a: seq<Entry>, b: seq<Entry>, c: nat)
    ensures Of(a + b, c) == Of(a, c) + Of(b, c)
    decreases |b|
  {
    if |b| == 0 {
      assert a + b == a;
    } else {
      assert (a + b)[..|a + b| - 1] == a + b[..|b| - 1];
      OfConcat(a, b[..|b| - 1], c);
    }
  }

  lemma OfSplit(es: seq<Entry>, i: nat, c: nat)
    requires i < |es|
    ensures Of(es, c) == Of(es[..i], c) + (if es[i].call == c then [es[i].effect] else []) + Of(es[i + 1..], c)
  {
    assert es == es[..i] + [es[i]] + es[i + 1..];
    OfAppend(es[..i], es[i], c);
    OfConcat(es[..i] + [es[i]], es[i + 1..], c);
  }

  lemma OfRemove(es: seq<Entry>, i: nat, c: nat)
    requires i < |es|
    ensures es[i].call != c ==> Of(es[..i] + es[i + 1..], c) == Of(es, c)
    ensures es[i].call == c && |Of(es, c)| == 1 ==> Of(es[..i] + es[i + 1..], c) == [] && Of(es, c) == [es[i].effect]
    ensures es[i].call == c ==> |Of(es, c)| >= 1
  {
    var before, after := Of(es[..i], c), Of(es[i + 1..], c);
    OfSplit(es, i, c);
    OfConcat(es[..i], es[i + 1..], c);
    if es[i].call == c {
      assert |before + [es[i].effect] + after| == |before| + 1 + |after|;
    } else {
      assert before + [] == before;
    }
  }

  /** Where in the list the effects of a call come from. */
  lemma {:induction false} OfWitness(es: seq<Entry>, c: nat, k: nat) returns (i: nat)
    requires k < |Of(es, c)|
    ensures i < |es| && es[i] == Entry(c, Of(es, c)[k])
  {
    var n := |es| - 1;
    if k < |Of(es[..n], c)| {
      i := OfWitness(es[..n], c, k);
    } else {
      i := n;
    }
  }

  // --- What every step keeps -----------------------------------------------------------------

  /** The state of one call against what it has had applied and what it still has in flight. */
  ghost predicate CallOk(call: Call, done: seq<Effect>, flying: seq<Effect>) {
    var plan := Plan(call);
    && call.reported <= |plan| && call.reported <= |done|
    && (done + flying == plan[..call.reported] ||
        (call.reported < |plan| && call.pc == Done(Failed) && done + flying == plan[..call.reported + 1]))
    && (call.pc == Done(Failed) ==> call.reported < |plan|)
    && (if call.priced
        then call.gateway.Some? && Passes(ToConfirmation(call.gateway.value)) && (call.pc.AtEffects? || call.pc.Done?)
        else done + flying == [] && call.reported == 0 && call.received == [])
    && (call.pc.AtGateway? ==> !call.priced)
    && (call.pc.AtToken? || call.pc.AtFinancials? ==>
          !call.priced && call.gateway.Some? && Passes(ToConfirmation(call.gateway.value)))
    && (call.pc.AtEffects? ==> call.priced && call.reported < |plan|)
    && (call.pc.Done? && call.pc.result.Returned? ==>
          && call.gateway.Some? && call.pc.result.confirmation == ToConfirmation(call.gateway.value)
          && (if call.priced then call.reported == |plan|
              else call.pc.result.newBasketId == "" && !Passes(call.pc.result.confirmation)))
  }

  ghost predicate Inv(s: Sys) {
    && "" !in s.world.baskets
    && (forall i :: 0 <= i < |s.world.log| ==> s.world.log[i].call < |s.calls|)
    && (forall i :: 0 <= i < |s.inflight| ==> s.inflight[i].call < |s.calls|)
    && (forall c: nat :: c < |s.calls| ==> CallOk(s.calls[c], Of(s.world.log, c), Of(s.inflight, c)))
  }

  lemma {:induction false} OfAbsent(es: seq<Entry>, c: nat)
    requires forall i :: 0 <= i < |es| ==> es[i].call < c
    ensures Of(es, c) == []
  {
    if |es| == 0 {
    } else {
      OfAbsent(es[..|es| - 1], c);
    }
  }

  lemma StartKeeps(s: Sys, args: Args)
    requires Inv(s)
    ensures Inv(Step(s, Start(args)))
  {
    OfAbsent(s.world.log, |s.calls|);
    OfAbsent(s.inflight, |s.calls|);
  }

  /** A confirmation effect is either applied and logged, or leaves the services as they were. */
  lemma ServeEffect(w: World, entry: Entry, freshId: string)
    ensures var (w', reply) := Serve(w, Confirming(entry, freshId));
            if reply.Ok? then w'.log == w.log + [entry] else w' == w
    ensures "" !in w.baskets ==> "" !in Serve(w, Confirming(entry, freshId)).0.baskets
  {
  }

  /** The call that acted, after its single-shot mutation: applied and acknowledged, or failed in one of three ways. */
  lemma CallAfterReply(call: Call, done: seq<Effect>, done': seq<Effect>, flying': seq<Effect>, ok: bool, newBasketId: string)
    requires CanAct(call) && CallOk(call, done, [])
    requires done' == done || done' == done + [Plan(call)[call.reported]]
    requires flying' == [] || (flying' == [Plan(call)[call.reported]] && !ok && done' == done)
    requires ok ==> done' != done
    ensures CallOk(OnReply(call, ok, newBasketId), done', flying')
  {
    var plan, r := Plan(call), call.reported;
    var call' := OnReply(call, ok, newBasketId);
    assert Plan(call') == plan;
    assert done + [] == done;
    assert plan[..r + 1] == plan[..r] + [plan[r]];
    assert done' + [] == done';
    assert ok ==> done' + flying' == plan[..r + 1];
  }

  /** Nothing changed for any call but `c`. */
  ghost predicate OthersKept(s: Sys, s': Sys, c: nat) {
    && c < |s.calls| == |s'.calls|
    && (forall k: nat :: k < |s.calls| && k != c ==>
          s'.calls[k] == s.calls[k] && Of(s'.world.log, k) == Of(s.world.log, k) && Of(s'.inflight, k) == Of(s.inflight, k))
  }

  ghost predicate EntriesOfCalls(s: Sys) {
    && "" !in s.world.baskets
    && (forall i :: 0 <= i < |s.world.log| ==> s.world.log[i].call < |s.calls|)
    && (forall i :: 0 <= i < |s.inflight| ==> s.inflight[i].call < |s.calls|)
  }

  /** Where nothing changed for the other calls, only the call that moved needs looking at. */
  lemma OneCallMoved(s: Sys, s': Sys, c: nat)
    requires Inv(s) && OthersKept(s, s', c) && EntriesOfCalls(s')
    requires CallOk(s'.calls[c], Of(s'.world.log, c), Of(s'.inflight, c))
    ensures Inv(s')
  {
  }

  /** A single-shot mutation ends in one of four ways: applied (acknowledged or not), still in flight, or without any trace. */
  lemma DeliverEffect(w: World, inflight: seq<Entry>, entry: Entry, freshId: string, fate: Fate)
    ensures var d := Deliver(w, inflight, entry, freshId, fate);
            && (d.world == w || d.world.log == w.log + [entry])
            && (d.inflight == inflight || (d.inflight == inflight + [entry] && d.world == w && !d.ok))
            && (d.ok ==> d.world.log == w.log + [entry])
            && ("" !in w.baskets ==> "" !in d.world.baskets)
  {
    ServeEffect(w, entry, freshId);
  }

  lemma ActMoves(s: Sys, s': Sys, entry: Entry, c: nat)
    requires EntriesOfCalls(s) && c < |s.calls| == |s'.calls| && entry.call == c
    requires forall k :: 0 <= k < |s.calls| && k != c ==> s'.calls[k] == s.calls[k]
    requires s'.world.log == s.world.log || s'.world.log == s.world.log + [entry]
    requires s'.inflight == s.inflight || s'.inflight == s.inflight + [entry]
    requires "" !in s'.world.baskets
    ensures OthersKept(s, s', c) && EntriesOfCalls(s')
  {
    forall k: nat | k < |s.calls| && k != c
      ensures Of(s'.world.log, k) == Of(s.world.log, k) && Of(s'.inflight, k) == Of(s.inflight, k)
    {
      OfAppend(s.world.log, entry, k);
      OfAppend(s.inflight, entry, k);
    }
  }

  lemma NothingFlying(call: Call, done: seq<Effect>, flying: seq<Effect>)
    requires CallOk(call, done, flying) && call.pc != Done(Failed)
    ensures flying == [] && done == Plan(call)[..call.reported]
  {
    assert |done| + |flying| == |done + flying| == call.reported;
    assert done + [] == done;
  }

  /** A mutation moves the call's history on by at most the one effect it asked for. */
  lemma ActKeepsCall(s: Sys, c: nat, fate: Fate, freshId: string, newBasketId: string)
    requires c < |s.calls| && CanAct(s.calls[c]) && CallOk(s.calls[c], Of(s.world.log, c), Of(s.inflight, c))
    ensures var call := s.calls[c];
      var d := Deliver(s.world, s.inflight, Entry(c, Plan(call)[call.reported]), freshId, fate);
      CallOk(OnReply(call, d.ok, newBasketId), Of(d.world.log, c), Of(d.inflight, c))
  {
    var call := s.calls[c];
    var entry := Entry(c, Plan(call)[call.reported]);
    NothingFlying(call, Of(s.world.log, c), Of(s.inflight, c));
    var d := Deliver(s.world, s.inflight, entry, freshId, fate);
    DeliverEffect(s.world, s.inflight, entry, freshId, fate);
    OfAppend(s.world.log, entry, c);
    OfAppend(s.inflight, entry, c);
    CallAfterReply(call, Of(s.world.log, c), Of(d.world.log, c), Of(d.inflight, c), d.ok, newBasketId);
  }

  lemma ActKeeps(s: Sys, c: nat, fate: Fate, freshId: string, hasBody: bool)
    requires Inv(s) && c < |s.calls| && CanAct(s.calls[c])
    ensures Inv(Step(s, Act(c, fate, freshId, hasBody)))
  {
    var s' := Step(s, Act(c, fate, freshId, hasBody));
    var entry := Entry(c, Plan(s.calls[c])[s.calls[c].reported]);
    DeliverEffect(s.world, s.inflight, entry, freshId, fate);
    ActKeepsCall(s, c, fate, freshId, if hasBody then freshId else "");
    ActMoves(s, s', entry, c);
    OneCallMoved(s, s', c);
  }

  /** A late effect arrives: what was in flight becomes history, or vanishes if the service refuses it. */
  lemma CallAfterLanding(call: Call, done: seq<Effect>, flying: seq<Effect>, late: Effect, applied: bool)
    requires CallOk(call, done, flying) && |flying| >= 1
    ensures |flying| == 1
    ensures flying[0] == late ==> CallOk(call, if applied then done + [late] else done, [])
  {
    var plan, r := Plan(call), call.reported;
    assert |done| + |flying| == |done + flying|;
    if flying[0] == late {
      assert done + [late] == done + flying;
      assert done == (done + flying)[..r] == plan[..r];
      assert done + [] == done;
      assert (done + [late]) + [] == done + [late];
    }
  }

  lemma LandMoves(s: Sys, s': Sys, i: nat)
    requires EntriesOfCalls(s) && i < |s.inflight| && s'.calls == s.calls && "" !in s'.world.baskets
    requires s'.world.log == s.world.log || s'.world.log == s.world.log + [s.inflight[i]]
    requires s'.inflight == s.inflight[..i] + s.inflight[i + 1..]
    ensures OthersKept(s, s', s.inflight[i].call) && EntriesOfCalls(s')
  {
    forall k: nat | k < |s.calls| && k != s.inflight[i].call
      ensures Of(s'.world.log, k) == Of(s.world.log, k) && Of(s'.inflight, k) == Of(s.inflight, k)
    {
      OfAppend(s.world.log, s.inflight[i], k);
      OfRemove(s.inflight, i, k);
    }
  }

  lemma LandKeeps(s: Sys, i: nat, freshId: string)
    requires Inv(s) && i < |s.inflight|
    ensures Inv(Step(s, Land(i, freshId)))
  {
    var s' := Step(s, Land(i, freshId));
    var entry := s.inflight[i];
    var c := entry.call;
    ServeEffect(s.world, entry, freshId);
    OfAppend(s.world.log, entry, c);
    OfRemove(s.inflight, i, c);
    CallAfterLanding(s.calls[c], Of(s.world.log, c), Of(s.inflight, c), entry.effect, s'.world != s.world);
    LandMoves(s, s', i);
    OneCallMoved(s, s', c);
  }

  /** What a read makes of its call. */
  predicate Reads(call: Call, call': Call, e: Event) {
    match e
    case Gateway(_, answer) => call.pc.AtGateway? && call' == OnGateway(call, answer)
    case Token(_, ok) => call.pc.AtToken? && call' == call.(pc := if ok then AtFinancials else Done(Failed))
    case Price(_, body) => call.pc.AtFinancials? && call' == OnPrice(call, body)
    case _ => false
  }

  lemma CallAfterRead(call: Call, call': Call, done: seq<Effect>, flying: seq<Effect>, e: Event)
    requires CallOk(call, done, flying) && Reads(call, call', e)
    ensures CallOk(call', done, flying)
  {
    assert done + flying == Plan(call')[..0];
  }

  lemma UpdateKeeps(s: Sys, e: Event, c: nat, call: Call)
    requires Inv(s) && c < |s.calls| && Reads(s.calls[c], call, e)
    ensures Inv(Update(s, c, call))
  {
    CallAfterRead(s.calls[c], call, Of(s.world.log, c), Of(s.inflight, c), e);
  }

  /** Confirming, fetching a token and pricing the basket change nothing but the call's own state. */
  lemma ReadKeeps(s: Sys, e: Event)
    requires Inv(s) && (e.Gateway? || e.Token? || e.Price?)
    ensures Inv(Step(s, e))
    ensures Step(s, e).world == s.world && Step(s, e).inflight == s.inflight
  {
    match e
    case Gateway(c, answer) =>
      if c < |s.calls| && s.calls[c].pc.AtGateway? { UpdateKeeps(s, e, c, OnGateway(s.calls[c], answer)); }
    case Token(c, ok) =>
      if c < |s.calls| && s.calls[c].pc.AtToken? {
        UpdateKeeps(s, e, c, s.calls[c].(pc := if ok then AtFinancials else Done(Failed)));
      }
    case Price(c, body) =>
      if c < |s.calls| && s.calls[c].pc.AtFinancials? { UpdateKeeps(s, e, c, OnPrice(s.calls[c], body)); }
  }

  lemma StepKeeps(s: Sys, e: Event)
    requires Inv(s)
    ensures Inv(Step(s, e))
  {
    match e
    case Start(args) => StartKeeps(s, args);
    case Act(c, fate, freshId, hasBody) =>
      if c < |s.calls| && CanAct(s.calls[c]) { ActKeeps(s, c, fate, freshId, hasBody); }
    case Land(i, freshId) =>
      if i < |s.inflight| { LandKeeps(s, i, freshId); }
    case Foreign(request) =>
    case _ => ReadKeeps(s, e);
  }

  lemma {:induction false} ExecKeeps(s: Sys, es: seq<Event>)
    requires Inv(s)
    ensures Inv(Exec(s, es))
  {
    if |es| == 0 {
    } else {
      ExecKeeps(s, es[..|es| - 1]);
      StepKeeps(Exec(s, es[..|es| - 1]), es[|es| - 1]);
    }
  }
}
