/** What holds after every schedule of the saga, and runs that show where a promise is not kept. */
module SagaSafety {
  import opened Prelude
  import opened Wire
  import opened Remote
  import opened Saga

  /** A state some schedule leads to. */
  ghost predicate Reachable(s: Sys) {
    exists baskets: map<string, Basket>, es: seq<Event> :: "" !in baskets && s == Exec(Init(baskets), es)
  }

  lemma ReachableInv(s: Sys)
    requires Reachable(s)
    ensures Inv(s)
  {
    var baskets: map<string, Basket>, es: seq<Event> :| "" !in baskets && s == Exec(Init(baskets), es);
    ExecKeeps(Init(baskets), es);
  }

  // --- Each call's history is a prefix of its plan -------------------------------------------

  /**
   Partial failures, completely: what a call has had applied is its plan up to the last step that
   reported success, plus at most the one step whose outcome was lost; that step is applied or still
   in flight, never both, and only a call that returned an error has one.
   */
  lemma HistoryIsPrefixOfPlan(s: Sys, c: nat)
    requires Reachable(s) && c < |s.calls|
    ensures var call, plan, done, flying := s.calls[c], Plan(s.calls[c]), Of(s.world.log, c), Of(s.inflight, c);
      && call.reported <= |plan| && |done| <= |plan| && done == plan[..|done|]
      && call.reported <= |done| <= |done| + |flying| <= call.reported + 1
      && (|done| + |flying| > call.reported ==> call.pc == Done(Failed) && call.reported < |plan|)
      && (flying != [] ==> flying == [plan[call.reported]])
  {
    ReachableInv(s);
    var call, plan, done, flying := s.calls[c], Plan(s.calls[c]), Of(s.world.log, c), Of(s.inflight, c);
    assert CallOk(call, done, flying);
    assert done == (done + flying)[..|done|];
    if flying != [] {
      assert flying[0] == (done + flying)[|done|];
    }
  }

  /** A nil error with a confirmation that passed the gate means the whole plan was carried out, and reported so. */
  lemma CompletedMeansAllApplied(s: Sys, c: nat)
    requires Reachable(s) && c < |s.calls| && s.calls[c].pc.Done?
    ensures var call := s.calls[c];
      (call.pc.result.Returned? && Passes(call.pc.result.confirmation)) <==> call.reported == |Plan(call)|
    ensures s.calls[c].reported == |Plan(s.calls[c])| ==>
      Of(s.world.log, c) == Plan(s.calls[c]) && Of(s.inflight, c) == []
  {
    ReachableInv(s);
    HistoryIsPrefixOfPlan(s, c);
    assert CallOk(s.calls[c], Of(s.world.log, c), Of(s.inflight, c));
  }

  // --- Order of effects ----------------------------------------------------------------------

  /** An entry is the next effect of its call after those logged before it. */
  lemma EntryPlace(es: seq<Entry>, i: nat)
    requires i < |es|
    ensures var c := es[i].call; |Of(es[..i], c)| < |Of(es, c)| && Of(es, c)[|Of(es[..i], c)|] == es[i].effect
    ensures var c := es[i].call; Of(es[..i], c) == Of(es, c)[..|Of(es[..i], c)|]
  {
    var c := es[i].call;
    assert es == es[..i] + [es[i]] + es[i + 1..];
    OfAppend(es[..i], es[i], c);
    OfConcat(es[..i] + [es[i]], es[i + 1..], c);
  }

  lemma LaterPlace(es: seq<Entry>, i: nat, j: nat)
    requires i < j < |es| && es[i].call == es[j].call
    ensures |Of(es[..i], es[i].call)| < |Of(es[..j], es[i].call)|
  {
    assert es[..j][..i] == es[..i] && es[..j][i] == es[i];
    EntryPlace(es[..j], i);
  }

  /** The order a call stores for one position of what it received: its own IDs, and the item exactly as received. */
  function OrderAt(call: Call, k: nat): Effect
    requires k < |call.received|
  {
    Order(k, OrderV1(call.args.user, call.args.payment, call.args.basket, call.args.shipping, call.received[k]))
  }

  lemma PlanOrders(call: Call)
    ensures forall k: nat :: k < |call.received| ==> Plan(call)[k] == OrderAt(call, k)
  {
    forall k: nat | k < |call.received|
      ensures Plan(call)[k] == OrderAt(call, k)
    {
      WireRoundTrip(call.received[k]);
    }
  }

  /** When a checkout is applied, one order per line of the call's own snapshot is already stored, with the call's IDs. */
  lemma CheckoutFollowsOrders(s: Sys, i: nat)
    requires Reachable(s) && i < |s.world.log| && s.world.log[i].effect.Checkout?
    ensures var c := s.world.log[i].call;
      && c < |s.calls|
      && s.world.log[i].effect == Checkout(s.calls[c].args.basket, s.calls[c].args.payment, s.calls[c].args.shipping)
      && forall k: nat :: k < |s.calls[c].received| ==>
           exists j :: 0 <= j < i && s.world.log[j] == Entry(c, OrderAt(s.calls[c], k))
  {
    ReachableInv(s);
    var log, c := s.world.log, s.world.log[i].call;
    HistoryIsPrefixOfPlan(s, c);
    EntryPlace(log, i);
    PlanOrders(s.calls[c]);
    forall k: nat | k < |s.calls[c].received|
      ensures exists j :: 0 <= j < i && log[j] == Entry(c, OrderAt(s.calls[c], k))
    {
      var j := OfWitness(log[..i], c, k);
      assert log[j] == Entry(c, OrderAt(s.calls[c], k));
    }
  }

  /** An order's position says how many effects of its call were applied before it, and its IDs are the call's. */
  lemma OrderPlace(s: Sys, i: nat)
    requires Reachable(s) && i < |s.world.log| && s.world.log[i].effect.Order?
    ensures var Entry(c, Order(position, order)) := s.world.log[i];
      c < |s.calls| && position == |Of(s.world.log[..i], c)| && order.paymentId == s.calls[c].args.payment
  {
    ReachableInv(s);
    HistoryIsPrefixOfPlan(s, s.world.log[i].call);
    EntryPlace(s.world.log, i);
  }

  /** Each call stores at most one order per position, whatever is retried, lost or late. */
  lemma OneOrderPerPosition(s: Sys, i: nat, j: nat)
    requires Reachable(s) && i < |s.world.log| && j < |s.world.log|
    requires s.world.log[i].effect.Order? && s.world.log[j].effect.Order?
    requires s.world.log[i].call == s.world.log[j].call
    requires s.world.log[i].effect.position == s.world.log[j].effect.position
    ensures i == j
  {
    OrderPlace(s, i);
    OrderPlace(s, j);
    if i < j { LaterPlace(s.world.log, i, j); }
    if j < i { LaterPlace(s.world.log, j, i); }
  }

  // --- Conservation --------------------------------------------------------------------------

  /** The financial items of the orders among some effects. */
  function Items(effects: seq<Effect>): seq<FinancialItemV1> {
    if |effects| == 0 then []
    else
      var last := effects[|effects| - 1];
      Items(effects[..|effects| - 1]) + (if last.Order? then [last.order.financialItem] else [])
  }

  lemma ItemsAppend(effects: seq<Effect>, e: Effect)
    ensures Items(effects + [e]) == Items(effects) + (if e.Order? then [e.order.financialItem] else [])
  {
    assert (effects + [e])[..|effects|] == effects;
  }

  lemma ItemsOfStep(call: Call, k: nat)
    requires k < |Plan(call)|
    ensures Items(Plan(call)[..k + 1]) == Items(Plan(call)[..k]) + (if k < |call.received| then [call.received[k]] else [])
  {
    var plan := Plan(call);
    PlanOrders(call);
    assert plan[..k + 1] == plan[..k] + [plan[k]];
    ItemsAppend(plan[..k], plan[k]);
  }

  lemma {:induction false} ItemsOfOrders(call: Call, m: nat)
    requires m <= |call.received|
    ensures Items(Plan(call)[..m]) == call.received[..m]
  {
    if m == 0 {
    } else {
      ItemsOfOrders(call, m - 1);
      ItemsOfStep(call, m - 1);
      assert call.received[..m] == call.received[..m - 1] + [call.received[m - 1]];
    }
  }

  lemma ItemsOfPlan(call: Call, m: nat)
    requires m <= |Plan(call)|
    ensures m <= |call.received| ==> Items(Plan(call)[..m]) == call.received[..m]
    ensures m > |call.received| ==> Items(Plan(call)[..m]) == call.received
  {
    var n := |call.received|;
    if m <= n {
      ItemsOfOrders(call, m);
    } else {
      ItemsOfOrders(call, n);
      assert call.received[..n] == call.received;
      ItemsOfStep(call, n);
      if m == n + 2 { ItemsOfStep(call, n + 1); }
    }
  }

  /** The orders of a call carry, in order and unchanged, what the basket service answered; all of it once the basket is checked out. */
  lemma WireConservation(s: Sys, c: nat)
    requires Reachable(s) && c < |s.calls|
    ensures Items(Of(s.world.log, c)) <= s.calls[c].received
    ensures |Of(s.world.log, c)| > |s.calls[c].received| ==> Items(Of(s.world.log, c)) == s.calls[c].received
  {
    HistoryIsPrefixOfPlan(s, c);
    ItemsOfPlan(s.calls[c], |Of(s.world.log, c)|);
  }

  // --- Counting orders -----------------------------------------------------------------------

  predicate Pays(e: Effect, payment: string) {
    e.Order? && e.order.paymentId == payment
  }

  /** The orders stored for a payment. */
  function OrdersPaid(log: seq<Entry>, payment: string): nat {
    if |log| == 0 then 0
    else OrdersPaid(log[..|log| - 1], payment) + if Pays(log[|log| - 1].effect, payment) then 1 else 0
  }

  function PaidIn(effects: seq<Effect>, payment: string): nat {
    if |effects| == 0 then 0
    else PaidIn(effects[..|effects| - 1], payment) + if Pays(effects[|effects| - 1], payment) then 1 else 0
  }

  /** What each of the first `n` calls has had stored for the payment. */
  function PaidBy(log: seq<Entry>, n: nat, payment: string): seq<nat> {
    seq(n, c requires 0 <= c < n => PaidIn(Of(log, c), payment))
  }

  function Sum(xs: seq<nat>): nat {
    if |xs| == 0 then 0 else Sum(xs[..|xs| - 1]) + xs[|xs| - 1]
  }

  lemma {:induction false} SumRaise(xs: seq<nat>, i: nat, more: nat)
    requires i < |xs|
    ensures Sum(xs[i := xs[i] + more]) == Sum(xs) + more
  {
    var n := |xs| - 1;
    if i == n {
      assert xs[i := xs[i] + more][..n] == xs[..n];
    } else {
      SumRaise(xs[..n], i, more);
      assert xs[i := xs[i] + more][..n] == xs[..n][i := xs[i] + more];
    }
  }

  lemma {:induction false} SumBound(xs: seq<nat>, ys: seq<nat>)
    requires |xs| == |ys| && forall i :: 0 <= i < |xs| ==> xs[i] <= ys[i]
    ensures Sum(xs) <= Sum(ys)
  {
    if |xs| == 0 {
    } else {
      SumBound(xs[..|xs| - 1], ys[..|ys| - 1]);
    }
  }

  lemma PaidInAppend(effects: seq<Effect>, e: Effect, payment: string)
    ensures PaidIn(effects + [e], payment) == PaidIn(effects, payment) + if Pays(e, payment) then 1 else 0
  {
    assert (effects + [e])[..|effects|] == effects;
  }

  lemma PaidByOneAppend(log: seq<Entry>, e: Entry, c: nat, payment: string)
    ensures PaidIn(Of(log + [e], c), payment) ==
            PaidIn(Of(log, c), payment) + if e.call == c && Pays(e.effect, payment) then 1 else 0
  {
    OfAppend(log, e, c);
    if e.call == c {
      PaidInAppend(Of(log, c), e.effect, payment);
    } else {
      assert Of(log + [e], c) == Of(log, c);
    }
  }

  lemma PaidByAppend(log: seq<Entry>, e: Entry, n: nat, payment: string)
    requires e.call < n
    ensures var paid := PaidBy(log, n, payment);
      PaidBy(log + [e], n, payment) == paid[e.call := paid[e.call] + if Pays(e.effect, payment) then 1 else 0]
  {
    forall c: nat | c < n
      ensures PaidBy(log + [e], n, payment)[c] ==
              PaidBy(log, n, payment)[c] + if e.call == c && Pays(e.effect, payment) then 1 else 0
    {
      PaidByOneAppend(log, e, c, payment);
    }
  }

  lemma {:induction false} AllZero(xs: seq<nat>)
    requires forall i :: 0 <= i < |xs| ==> xs[i] == 0
    ensures Sum(xs) == 0
  {
    if |xs| == 0 {
    } else {
      AllZero(xs[..|xs| - 1]);
    }
  }

  lemma {:induction false} CountByCall(log: seq<Entry>, n: nat, payment: string)
    requires forall i :: 0 <= i < |log| ==> log[i].call < n
    ensures OrdersPaid(log, payment) == Sum(PaidBy(log, n, payment))
  {
    if |log| == 0 {
      AllZero(PaidBy(log, n, payment));
    } else {
      var rest, e := log[..|log| - 1], log[|log| - 1];
      CountByCall(rest, n, payment);
      assert rest + [e] == log;
      PaidByAppend(rest, e, n, payment);
      SumRaise(PaidBy(rest, n, payment), e.call, if Pays(e.effect, payment) then 1 else 0);
    }
  }

  lemma {:induction false} PaidInPlan(call: Call, m: nat, payment: string)
    requires m <= |Plan(call)|
    ensures PaidIn(Plan(call)[..m], payment) ==
      if call.args.payment != payment then 0 else if m < |call.received| then m else |call.received|
  {
    if m == 0 {
    } else {
      PaidInPlan(call, m - 1, payment);
      assert Plan(call)[..m][..m - 1] == Plan(call)[..m - 1];
    }
  }

  /** What a call may store for a payment: one order per line of its snapshot, once it is past the gate and priced. */
  function Share(call: Call, payment: string): nat {
    if call.priced && call.args.payment == payment then |call.received| else 0
  }

  function Shares(calls: seq<Call>, payment: string): seq<nat> {
    seq(|calls|, c requires 0 <= c < |calls| => Share(calls[c], payment))
  }

  /** The summed snapshot lengths of the payment's priced calls. */
  function SnapshotLengths(calls: seq<Call>, payment: string): nat {
    Sum(Shares(calls, payment))
  }

  predicate OrdersDoneBy(s: Sys, c: nat, payment: string)
    requires c < |s.calls|
  {
    s.calls[c].args.payment == payment ==> |Of(s.world.log, c)| >= |s.calls[c].received|
  }

  /** The calls for the payment have had all their orders applied. */
  ghost predicate OrdersDone(s: Sys, payment: string) {
    forall c: nat :: c < |s.calls| ==> OrdersDoneBy(s, c, payment)
  }

  lemma UnpricedIsEmpty(s: Sys, c: nat)
    requires Reachable(s) && c < |s.calls| && !s.calls[c].priced
    ensures s.calls[c].received == [] && Of(s.world.log, c) == [] && Of(s.inflight, c) == []
  {
    ReachableInv(s);
    assert CallOk(s.calls[c], Of(s.world.log, c), Of(s.inflight, c));
  }

  lemma PaidByOne(s: Sys, c: nat, payment: string)
    requires Reachable(s) && c < |s.calls|
    ensures PaidIn(Of(s.world.log, c), payment) <= Share(s.calls[c], payment)
    ensures OrdersDoneBy(s, c, payment) ==> PaidIn(Of(s.world.log, c), payment) == Share(s.calls[c], payment)
  {
    HistoryIsPrefixOfPlan(s, c);
    PaidInPlan(s.calls[c], |Of(s.world.log, c)|, payment);
    if !s.calls[c].priced { UnpricedIsEmpty(s, c); }
  }

  /**
   The orders stored for a payment never exceed the snapshot lengths of its priced calls, and reach them when
   those calls get through their orders.
   */
  lemma OrdersPerPayment(s: Sys, payment: string)
    requires Reachable(s)
    ensures OrdersPaid(s.world.log, payment) <= SnapshotLengths(s.calls, payment)
    ensures OrdersDone(s, payment) ==>
      OrdersPaid(s.world.log, payment) == SnapshotLengths(s.calls, payment)
  {
    ReachableInv(s);
    CountByCall(s.world.log, |s.calls|, payment);
    var paid, shares := PaidBy(s.world.log, |s.calls|, payment), Shares(s.calls, payment);
    forall c: nat | c < |s.calls|
      ensures paid[c] <= shares[c] && (OrdersDone(s, payment) ==> paid[c] == shares[c])
    {
      PaidByOne(s, c, payment);
    }
    SumBound(paid, shares);
    assert OrdersDone(s, payment) ==> paid == shares;
  }

  // --- The approval gate ---------------------------------------------------------------------

  /** The gate lets through approvals, that is code 3 with status "Approved", and refusals whose message text is empty. */
  lemma GateAdmits(r: GatewayReply)
    ensures Passes(ToConfirmation(r)) <==> (r.statusCode == 3 && r.transactionStatus == "Approved") || r.message == Some("")
    ensures Passes(ToConfirmation(r)) <==> Approved(r) || BlankRefusal(r)
    ensures Approved(r) <==> r.statusCode == 3 && r.transactionStatus == "Approved"
  {
  }

  /** A confirmation carries the reply's transaction, and why it was refused: the gateway's text, or a fixed one where it sent none. */
  lemma ConfirmationSays(r: GatewayReply)
    ensures ToConfirmation(r).transactionId == r.transactionId && ToConfirmation(r).status == r.transactionStatus
    ensures r.statusCode == 3 && r.transactionStatus == "Approved" ==> ToConfirmation(r).errorMessage == ""
    ensures !(r.statusCode == 3 && r.transactionStatus == "Approved") ==>
      && (r.message.Some? ==> ToConfirmation(r).errorMessage == r.message.value)
      && (r.message.None? ==> ToConfirmation(r).errorMessage == "Payment was not approved")
  {
  }

  /** Everything a call had applied, or has in flight, comes after a gateway reply that passed the gate. */
  lemma EffectsArePassed(s: Sys, c: nat)
    requires Reachable(s) && c < |s.calls| && Of(s.world.log, c) + Of(s.inflight, c) != []
    ensures s.calls[c].gateway.Some? && (Approved(s.calls[c].gateway.value) || BlankRefusal(s.calls[c].gateway.value))
  {
    ReachableInv(s);
    assert CallOk(s.calls[c], Of(s.world.log, c), Of(s.inflight, c));
  }

  /** A call that returned a refused confirmation has left no trace: nothing applied, nothing on its way. */
  lemma RefusedLeavesNoTrace(s: Sys, c: nat)
    requires Reachable(s) && c < |s.calls| && s.calls[c].pc.Done? && s.calls[c].pc.result.Returned?
    requires !Passes(s.calls[c].pc.result.confirmation)
    ensures Of(s.world.log, c) == [] && Of(s.inflight, c) == [] && s.calls[c].pc.result.newBasketId == ""
  {
    ReachableInv(s);
    assert CallOk(s.calls[c], Of(s.world.log, c), Of(s.inflight, c));
    UnpricedIsEmpty(s, c);
  }

  ghost predicate BlankFree(es: seq<Event>) {
    forall i :: 0 <= i < |es| && es[i].Gateway? && es[i].answer.Some? ==> !BlankRefusal(es[i].answer.value)
  }

  lemma {:induction false} RepliesAreAnswers(s: Sys, es: seq<Event>, c: nat)
    requires c < |Exec(s, es).calls| && |s.calls| == 0 && BlankFree(es)
    ensures Exec(s, es).calls[c].gateway.Some? ==> !BlankRefusal(Exec(s, es).calls[c].gateway.value)
  {
    if |es| == 0 {
    } else {
      var before := Exec(s, es[..|es| - 1]);
      if c < |before.calls| {
        RepliesAreAnswers(s, es[..|es| - 1], c);
        assert es[|es| - 1].Gateway? && es[|es| - 1].answer.Some? ==> !BlankRefusal(es[|es| - 1].answer.value);
      }
    }
  }

  /** Where the gateway never refuses with an empty text, every applied effect, so every order, follows a real approval of its own call. */
  lemma OrdersFollowApproval(baskets: map<string, Basket>, es: seq<Event>, i: nat)
    requires "" !in baskets && BlankFree(es)
    requires i < |Exec(Init(baskets), es).world.log|
    ensures var s := Exec(Init(baskets), es); var c := s.world.log[i].call;
      c < |s.calls| && s.calls[c].gateway.Some? && Approved(s.calls[c].gateway.value)
  {
    var s := Exec(Init(baskets), es);
    assert Reachable(s);
    ReachableInv(s);
    EntryPlace(s.world.log, i);
    EffectsArePassed(s, s.world.log[i].call);
    RepliesAreAnswers(Init(baskets), es, s.world.log[i].call);
  }

  lemma ExecSnoc(s: Sys, es: seq<Event>, e: Event)
    ensures Exec(s, es + [e]) == Step(Exec(s, es), e)
  {
    assert (es + [e])[..|es|] == es;
  }

  // --- Building runs -------------------------------------------------------------------------

  /** A state some schedule leads to from these baskets. */
  ghost predicate Leads(baskets: map<string, Basket>, s: Sys) {
    exists es: seq<Event> :: s == Exec(Init(baskets), es)
  }

  lemma LeadsReachable(baskets: map<string, Basket>, s: Sys)
    requires Leads(baskets, s) && "" !in baskets
    ensures Reachable(s)
  {
  }

  lemma InitLeads(baskets: map<string, Basket>)
    ensures Leads(baskets, Init(baskets))
  {
    assert Exec(Init(baskets), []) == Init(baskets);
  }

  lemma StepLeads(baskets: map<string, Basket>, s: Sys, e: Event)
    requires Leads(baskets, s)
    ensures Leads(baskets, Step(s, e))
  {
    var es: seq<Event> :| s == Exec(Init(baskets), es);
    ExecSnoc(Init(baskets), es, e);
  }

  /** The line items of a price answer; without a body there are none. */
  function ItemsIn(price: Option<FinancialsV1>): seq<FinancialItemV1> {
    if price.Some? then price.value.items else []
  }

  /** A call that is past the gate and priced, before its first effect. */
  function Priced(args: Args, reply: GatewayReply, price: Option<FinancialsV1>): Call {
    Call(args, Some(reply), true, ItemsIn(price), 0, AtEffects)
  }

  function WithCall(s: Sys, call: Call): Sys {
    s.(calls := s.calls + [call])
  }

  lemma ReadByLast(s: Sys, call: Call, e: Event, call': Call)
    requires Reads(call, call', e) && e.call == |s.calls|
    ensures Step(WithCall(s, call), e) == WithCall(s, call')
  {
  }

  /** A call comes in, the gateway's answer passes, and a token and a price are to be had. */
  lemma OpeningLeads(baskets: map<string, Basket>, s: Sys, args: Args, reply: GatewayReply, price: Option<FinancialsV1>)
    requires Leads(baskets, s) && Passes(ToConfirmation(reply))
    ensures Leads(baskets, WithCall(s, Priced(args, reply, price)))
  {
    var c := |s.calls|;
    var starting := Call(args, None, false, [], 0, AtGateway);
    var confirmed := starting.(gateway := Some(reply), pc := AtToken);
    StepLeads(baskets, s, Start(args));
    ReadByLast(s, starting, Gateway(c, Some(reply)), confirmed);
    StepLeads(baskets, WithCall(s, starting), Gateway(c, Some(reply)));
    ReadByLast(s, confirmed, Token(c, true), confirmed.(pc := AtFinancials));
    StepLeads(baskets, WithCall(s, confirmed), Token(c, true));
    ReadByLast(s, confirmed.(pc := AtFinancials), Price(c, Some(price)), Priced(args, reply, price));
    StepLeads(baskets, WithCall(s, confirmed.(pc := AtFinancials)), Price(c, Some(price)));
  }

  /** The last call's next effect is applied and acknowledged. */
  lemma ServedByLast(baskets: map<string, Basket>, s: Sys, call: Call, freshId: string, hasBody: bool)
    requires Leads(baskets, WithCall(s, call)) && CanAct(call)
    ensures var e := Plan(call)[call.reported];
      var (w', reply) := Serve(s.world, Confirming(Entry(|s.calls|, e), freshId));
      var call' := OnReply(call, true, if hasBody then freshId else "");
      reply.Ok? ==> Leads(baskets, WithCall(s.(world := w'), call'))
  {
    StepLeads(baskets, WithCall(s, call), Act(|s.calls|, Served, freshId, hasBody));
    var e := Plan(call)[call.reported];
    var (w', reply) := Serve(s.world, Confirming(Entry(|s.calls|, e), freshId));
    var call' := OnReply(call, true, if hasBody then freshId else "");
    assert reply.Ok? ==> Step(WithCall(s, call), Act(|s.calls|, Served, freshId, hasBody)) == WithCall(s.(world := w'), call');
  }

  function OneItem(item: FinancialItemV1): Option<FinancialsV1> {
    Some(FinancialsV1([item], 0.0, 0.0, 0.0, 0.0))
  }

  /** One more call comes in, passes the gate, is priced at one item, and has its order stored. */
  lemma OneMoreOrder(baskets: map<string, Basket>, s: Sys, args: Args, reply: GatewayReply, item: FinancialItemV1) returns (s': Sys)
    requires Leads(baskets, s) && Passes(ToConfirmation(reply))
    ensures Leads(baskets, s') && s'.world.baskets == s.world.baskets
    ensures s'.calls == s.calls + [Priced(args, reply, OneItem(item)).(reported := 1)]
    ensures s'.world.log == s.world.log +
      [Entry(|s.calls|, Order(0, OrderV1(args.user, args.payment, args.basket, args.shipping, item)))]
  {
    var call := Priced(args, reply, OneItem(item));
    OpeningLeads(baskets, s, args, reply, OneItem(item));
    PlanOrders(call);
    ServedByLast(baskets, s, call, "", true);
    var log := s.world.log + [Entry(|s.calls|, OrderAt(call, 0))];
    s' := WithCall(s.(world := s.world.(log := log)), call.(reported := 1));
  }

  /** The one call so far, with these arguments and this gateway reply, has had an order for the item stored. */
  ghost predicate OneOrderStored(s: Sys, args: Args, reply: GatewayReply, item: FinancialItemV1) {
    && |s.calls| == 1 && s.calls[0].args == args && s.calls[0].gateway == Some(reply)
    && s.world.log == [Entry(0, Order(0, OrderV1(args.user, args.payment, args.basket, args.shipping, item)))]
  }

  /** Any refusal with an empty text gets orders stored, whatever baskets there are: the gate needs the condition above. */
  lemma BlankRefusalStoresOrder(reply: GatewayReply, baskets: map<string, Basket>, args: Args, item: FinancialItemV1)
    requires BlankRefusal(reply)
    ensures exists s :: Leads(baskets, s) && OneOrderStored(s, args, reply, item) && s.world.baskets == baskets
  {
    InitLeads(baskets);
    var s := OneMoreOrder(baskets, Init(baskets), args, reply, item);
    assert Leads(baskets, s) && OneOrderStored(s, args, reply, item) && s.world.baskets == baskets;
  }

  // --- Baskets -------------------------------------------------------------------------------

  predicate Closed(w: World, b: string) {
    b in w.baskets && w.baskets[b].status.CheckedOut?
  }

  /** The request an event has processed, if any. */
  function Asks(s: Sys, e: Event): Option<Request> {
    match e
    case Act(c, fate, freshId, _) =>
      if c < |s.calls| && CanAct(s.calls[c]) && Processed(fate)
      then Some(Confirming(Entry(c, Plan(s.calls[c])[s.calls[c].reported]), freshId)) else None
    case Land(i, freshId) => if i < |s.inflight| then Some(Confirming(s.inflight[i], freshId)) else None
    case Foreign(request) => if request.Confirming? then None else Some(request)
    case _ => None
  }

  lemma StepServes(s: Sys, e: Event)
    ensures Step(s, e).world == if Asks(s, e).Some? then Serve(s.world, Asks(s, e).value).0 else s.world
  {
  }

  ghost predicate ClosedInLog(w: World, b: string) {
    exists i :: 0 <= i < |w.log| && w.log[i].effect.Checkout? && w.log[i].effect.basket == b
  }

  /** Nobody asks the basket service to put anything into the basket or take anything out. */
  predicate LeavesItems(e: Event, b: string) {
    e.Foreign? && (e.request.AddItem? || e.request.RemoveItem?) ==> e.request.basket != b
  }

  /** The basket as it was, checked out if the log has a checkout of it. */
  ghost predicate OnlyCheckedOut(was: Basket, w: World, b: string) {
    b in w.baskets && w.baskets[b] == was.(status := if ClosedInLog(w, b) then CheckedOut else was.status)
  }

  lemma LogGrows(w: World, req: Request, b: string)
    ensures var w' := Serve(w, req).0;
      w'.log == w.log || (req.Confirming? && w'.log == w.log + [req.entry])
    ensures ClosedInLog(Serve(w, req).0, b) <==>
      ClosedInLog(w, b) || (Serve(w, req).0.log != w.log && req.entry.effect.Checkout? && req.entry.effect.basket == b)
  {
    var w' := Serve(w, req).0;
    if ClosedInLog(w, b) {
      var i :| 0 <= i < |w.log| && w.log[i].effect.Checkout? && w.log[i].effect.basket == b;
      assert w'.log[i] == w.log[i];
    } else if w'.log != w.log {
      assert w'.log[|w.log|] == req.entry;
    }
  }

  /**
   A basket's contents are changed by nobody's confirmation, whatever fails or lands late: unless items of it are
   added or removed, it is as it was at first, checked out exactly if it was so or a call's checkout of it was applied.
   */
  lemma {:induction false} BasketsChangeByCheckoutOnly(baskets: map<string, Basket>, es: seq<Event>, b: string)
    requires b in baskets && forall i :: 0 <= i < |es| ==> LeavesItems(es[i], b)
    ensures OnlyCheckedOut(baskets[b], Exec(Init(baskets), es).world, b)
  {
    if |es| == 0 {
    } else {
      BasketsChangeByCheckoutOnly(baskets, es[..|es| - 1], b);
      var s, e := Exec(Init(baskets), es[..|es| - 1]), es[|es| - 1];
      assert LeavesItems(e, b);
      StepServes(s, e);
      if Asks(s, e).Some? { LogGrows(s.world, Asks(s, e).value, b); }
    }
  }

  lemma {:induction false} ClosedByCheckout(baskets: map<string, Basket>, es: seq<Event>, b: string)
    requires !Closed(Init(baskets).world, b)
    ensures Closed(Exec(Init(baskets), es).world, b) ==> ClosedInLog(Exec(Init(baskets), es).world, b)
  {
    if |es| == 0 {
    } else {
      ClosedByCheckout(baskets, es[..|es| - 1], b);
      var s, e := Exec(Init(baskets), es[..|es| - 1]), es[|es| - 1];
      StepServes(s, e);
      if Asks(s, e).Some? { LogGrows(s.world, Asks(s, e).value, b); }
    }
  }

  /** A basket that was not checked out at first and is now was checked out by a call past the gate that had stored all its orders. */
  lemma ClosedBasketIsOrdered(baskets: map<string, Basket>, es: seq<Event>, b: string) returns (c: nat)
    requires "" !in baskets && !Closed(Init(baskets).world, b)
    requires Closed(Exec(Init(baskets), es).world, b)
    ensures var s := Exec(Init(baskets), es);
      && c < |s.calls| && s.calls[c].args.basket == b && s.calls[c].gateway.Some?
      && Passes(ToConfirmation(s.calls[c].gateway.value))
      && Items(Of(s.world.log, c)) == s.calls[c].received
  {
    var s := Exec(Init(baskets), es);
    assert Reachable(s);
    ClosedByCheckout(baskets, es, b);
    var i :| 0 <= i < |s.world.log| && s.world.log[i].effect.Checkout? && s.world.log[i].effect.basket == b;
    c := s.world.log[i].call;
    CheckoutFollowsOrders(s, i);
    EntryPlace(s.world.log, i);
    HistoryIsPrefixOfPlan(s, c);
    WireConservation(s, c);
    EffectsArePassed(s, c);
    GateAdmits(s.calls[c].gateway.value);
  }

  // --- The new basket's ID -------------------------------------------------------------------

  /** The mutation a call can return after without an error is the opening of its user's new basket. */
  lemma LastAct(s: Sys, c: nat, fate: Fate, freshId: string, hasBody: bool)
    requires c < |s.calls| && CanAct(s.calls[c]) && Passes(ToConfirmation(s.calls[c].gateway.value))
    ensures var s' := Step(s, Act(c, fate, freshId, hasBody));
      s'.calls[c].pc.Done? && s'.calls[c].pc.result.Returned? ==>
        && s'.calls[c].pc.result == Returned(ToConfirmation(s.calls[c].gateway.value), if hasBody then freshId else "")
        && freshId != "" && freshId !in s.world.baskets
        && freshId in s'.world.baskets && s'.world.baskets[freshId] == Basket(s.calls[c].args.user, multiset{}, Open)
  {
    var call := s.calls[c];
    if call.reported + 1 == |Plan(call)| {
      assert Plan(call)[call.reported] == OpenBasket(call.args.user);
    }
  }

  /**
   The ID a call returns with a nil error is empty exactly when the confirmation was refused or the
   create-basket reply had no body; in the second case a basket was opened that nobody can name.
   */
  lemma NewBasketIdEmpty(s: Sys, e: Event, c: nat)
    requires Reachable(s) && c < |s.calls| && !s.calls[c].pc.Done?
    requires Step(s, e).calls[c].pc.Done? && Step(s, e).calls[c].pc.result.Returned?
    ensures var Returned(confirmation, id) := Step(s, e).calls[c].pc.result;
      && (id == "" <==> !Passes(confirmation) || (e.Act? && !e.hasBody))
      && (Passes(confirmation) ==>
            && e.Act? && e.freshId !in s.world.baskets && (id != "" ==> id == e.freshId)
            && e.freshId in Step(s, e).world.baskets
            && Step(s, e).world.baskets[e.freshId] == Basket(s.calls[c].args.user, multiset{}, Open))
  {
    ReachableInv(s);
    var call := s.calls[c];
    assert CallOk(call, Of(s.world.log, c), Of(s.inflight, c));
    if e.Act? && e.call == c {
      LastAct(s, c, e.fate, e.freshId, e.hasBody);
    }
  }

  /** A call's orders are applied and acknowledged, one after the other. */
  lemma {:induction false} OrdersServed(baskets: map<string, Basket>, s: Sys, call: Call, n: nat) returns (log: seq<Entry>)
    requires Leads(baskets, WithCall(s, call)) && CanAct(call) && call.reported == 0 && n <= |call.received|
    ensures Leads(baskets, WithCall(s.(world := World(s.world.baskets, log)), call.(reported := n)))
  {
    if n == 0 {
      log := s.world.log;
    } else {
      var before := OrdersServed(baskets, s, call, n - 1);
      var s' := s.(world := World(s.world.baskets, before));
      PlanOrders(call.(reported := n - 1));
      ServedByLast(baskets, s', call.(reported := n - 1), "", true);
      log := before + [Entry(|s.calls|, OrderAt(call, n - 1))];
    }
  }

  /** The given baskets once the call has checked its own out and opened a new one. */
  function BasketsAfterSale(baskets: map<string, Basket>, args: Args, freshId: string): map<string, Basket>
    requires args.basket in baskets
  {
    baskets[args.basket := baskets[args.basket].(status := CheckedOut)][freshId := Basket(args.user, multiset{}, Open)]
  }

  /** The checkout and the new basket are applied and acknowledged. */
  lemma ClosingServed(baskets: map<string, Basket>, s: Sys, call: Call, freshId: string, hasBody: bool) returns (log: seq<Entry>)
    requires Leads(baskets, WithCall(s, call)) && CanAct(call) && call.reported == |call.received|
    requires call.args.basket in s.world.baskets && freshId != "" && freshId !in s.world.baskets
    ensures var result := Returned(ToConfirmation(call.gateway.value), if hasBody then freshId else "");
      var w := World(BasketsAfterSale(s.world.baskets, call.args, freshId), log);
      Leads(baskets, WithCall(s.(world := w), call.(reported := |Plan(call)|, pc := Done(result))))
  {
    var next := call.(reported := call.reported + 1);
    var checkout, open := Plan(call)[call.reported], Plan(next)[next.reported];
    ServedByLast(baskets, s, call, "", true);
    var w1 := Serve(s.world, Confirming(Entry(|s.calls|, checkout), "")).0;
    ServedByLast(baskets, s.(world := w1), next, freshId, hasBody);
    log := w1.log + [Entry(|s.calls|, open)];
  }

  /**
   The one call so far went through all the way to a nil error, returning `id`; its basket is checked out and the
   one opened under `freshId` is its user's, open and empty.
   */
  ghost predicate SoldThrough(
    s: Sys, baskets: map<string, Basket>, args: Args, reply: GatewayReply, price: Option<FinancialsV1>, freshId: string, id: string)
    requires args.basket in baskets
  {
    && |s.calls| == 1 && s.calls[0].args == args && s.calls[0].gateway == Some(reply)
    && s.calls[0].received == ItemsIn(price) && s.calls[0].pc == Done(Returned(ToConfirmation(reply), id))
    && Of(s.world.log, 0) == Plan(s.calls[0]) && s.inflight == []
    && s.world.baskets == BasketsAfterSale(baskets, args, freshId)
  }

  /**
   Whatever was priced, a call the gate let through can complete; and if the last reply comes without a body,
   it returns the empty ID with a nil error.
   */
  lemma SaleCanComplete(
    baskets: map<string, Basket>, args: Args, reply: GatewayReply, price: Option<FinancialsV1>, freshId: string, hasBody: bool)
    requires Passes(ToConfirmation(reply)) && "" !in baskets && args.basket in baskets
    requires freshId != "" && freshId !in baskets
    ensures exists s ::
      Leads(baskets, s) && SoldThrough(s, baskets, args, reply, price, freshId, if hasBody then freshId else "")
  {
    var s0, call := Init(baskets), Priced(args, reply, price);
    var n, id := |call.received|, if hasBody then freshId else "";
    InitLeads(baskets);
    OpeningLeads(baskets, s0, args, reply, price);
    var log1 := OrdersServed(baskets, s0, call, n);
    var log2 := ClosingServed(baskets, s0.(world := World(baskets, log1)), call.(reported := n), freshId, hasBody);
    var done := call.(reported := |Plan(call)|, pc := Done(Returned(ToConfirmation(reply), id)));
    var s := WithCall(Sys(World(BasketsAfterSale(baskets, args, freshId), log2), [], []), done);
    LeadsReachable(baskets, s);
    CompletedMeansAllApplied(s, 0);
    assert Leads(baskets, s) && SoldThrough(s, baskets, args, reply, price, freshId, id);
  }

  // --- Confirming a payment more than once ---------------------------------------------------

  /** The call was for this payment, and its gateway reply passed the gate. */
  predicate Confirmed(call: Call, payment: string) {
    call.args.payment == payment && call.gateway.Some? && Passes(ToConfirmation(call.gateway.value))
  }

  function Confirmations(calls: seq<Call>, payment: string): nat {
    if |calls| == 0 then 0
    else Confirmations(calls[..|calls| - 1], payment) + if Confirmed(calls[|calls| - 1], payment) then 1 else 0
  }

  lemma {:induction false} OneConfirmed(calls: seq<Call>, payment: string, c: nat)
    requires c < |calls| && Confirmed(calls[c], payment)
    ensures Confirmations(calls, payment) >= 1
  {
    if c == |calls| - 1 {
    } else {
      OneConfirmed(calls[..|calls| - 1], payment, c);
    }
  }

  lemma {:induction false} TwoConfirmed(calls: seq<Call>, payment: string, c: nat, d: nat)
    requires c < d < |calls| && Confirmed(calls[c], payment) && Confirmed(calls[d], payment)
    ensures Confirmations(calls, payment) >= 2
  {
    if d == |calls| - 1 {
      OneConfirmed(calls[..d], payment, c);
    } else {
      TwoConfirmed(calls[..|calls| - 1], payment, c, d);
    }
  }

  lemma {:induction false} AtMostAllConfirmed(calls: seq<Call>, payment: string)
    ensures Confirmations(calls, payment) <= |calls|
  {
    if |calls| == 0 {
    } else {
      AtMostAllConfirmed(calls[..|calls| - 1], payment);
    }
  }

  predicate SameLine(e: Effect, f: Effect, payment: string) {
    Pays(e, payment) && Pays(f, payment) && e.position == f.position
  }

  /** No line of the payment is ordered twice. */
  ghost predicate OrderedOnce(s: Sys, payment: string) {
    forall i: nat, j: nat | i < |s.world.log| && j < |s.world.log| ::
      SameLine(s.world.log[i].effect, s.world.log[j].effect, payment) ==> i == j
  }

  /** An order for a payment comes from a call that confirmed it. */
  lemma OrderIsConfirmed(s: Sys, i: nat, payment: string)
    requires Reachable(s) && i < |s.world.log| && Pays(s.world.log[i].effect, payment)
    ensures s.world.log[i].call < |s.calls| && Confirmed(s.calls[s.world.log[i].call], payment)
  {
    OrderPlace(s, i);
    EntryPlace(s.world.log, i);
    EffectsArePassed(s, s.world.log[i].call);
    GateAdmits(s.calls[s.world.log[i].call].gateway.value);
  }

  lemma ConfirmedOnceOrderedOnce(s: Sys, payment: string)
    requires Reachable(s) && Confirmations(s.calls, payment) <= 1
    ensures OrderedOnce(s, payment)
  {
    forall i: nat, j: nat |
      i < |s.world.log| && j < |s.world.log| && SameLine(s.world.log[i].effect, s.world.log[j].effect, payment)
      ensures i == j
    {
      OrderIsConfirmed(s, i, payment);
      OrderIsConfirmed(s, j, payment);
      var c, d := s.world.log[i].call, s.world.log[j].call;
      if c < d { TwoConfirmed(s.calls, payment, c, d); }
      if d < c { TwoConfirmed(s.calls, payment, d, c); }
      OneOrderPerPosition(s, i, j);
    }
  }

  /** One call per reply, each of which had its one order stored: the same line of the same payment. */
  ghost predicate EachOrdered(s: Sys, args: Args, replies: seq<GatewayReply>, item: FinancialItemV1) {
    && |s.calls| == |s.world.log| == |replies|
    && (forall c :: 0 <= c < |replies| ==> s.calls[c].args == args && s.calls[c].gateway == Some(replies[c]))
    && (forall i :: 0 <= i < |replies| ==>
          s.world.log[i] == Entry(i, Order(0, OrderV1(args.user, args.payment, args.basket, args.shipping, item))))
  }

  lemma OrdersPaidAppend(log: seq<Entry>, e: Entry, payment: string)
    ensures OrdersPaid(log + [e], payment) == OrdersPaid(log, payment) + if Pays(e.effect, payment) then 1 else 0
  {
    assert (log + [e])[..|log|] == log;
  }

  lemma OneMoreOrdered(before: Sys, s: Sys, args: Args, replies: seq<GatewayReply>, reply: GatewayReply, item: FinancialItemV1)
    requires EachOrdered(before, args, replies, item) && OrdersPaid(before.world.log, args.payment) == |replies|
    requires s.calls == before.calls + [Priced(args, reply, OneItem(item)).(reported := 1)]
    requires s.world.log == before.world.log +
      [Entry(|before.calls|, Order(0, OrderV1(args.user, args.payment, args.basket, args.shipping, item)))]
    ensures EachOrdered(s, args, replies + [reply], item) && OrdersPaid(s.world.log, args.payment) == |replies| + 1
  {
    OrdersPaidAppend(before.world.log, s.world.log[|replies|], args.payment);
  }

  /** Confirming the same payment again is not idempotent: for any replies that pass, each call can store the same line once more. */
  lemma {:induction false} RepeatedConfirmations(
    baskets: map<string, Basket>, args: Args, replies: seq<GatewayReply>, item: FinancialItemV1) returns (s: Sys)
    requires forall r :: r in replies ==> Passes(ToConfirmation(r))
    ensures Leads(baskets, s) && EachOrdered(s, args, replies, item) && OrdersPaid(s.world.log, args.payment) == |replies|
  {
    if |replies| == 0 {
      InitLeads(baskets);
      s := Init(baskets);
    } else {
      var n := |replies| - 1;
      var before := RepeatedConfirmations(baskets, args, replies[..n], item);
      s := OneMoreOrder(baskets, before, args, replies[n], item);
      OneMoreOrdered(before, s, args, replies[..n], replies[n], item);
      assert replies[..n] + [replies[n]] == replies;
    }
  }

  /** Whatever happens, as long as the gate lets through at most `n` calls for the payment, no line of it is ordered twice. */
  ghost predicate SafeUpTo(payment: string, n: nat) {
    forall s | Reachable(s) && Confirmations(s.calls, payment) <= n :: OrderedOnce(s, payment)
  }

  /** A payment's lines are ordered once each exactly as long as only one of its calls gets a passing gateway reply. */
  lemma OrderedOnceIff(payment: string, n: nat)
    ensures SafeUpTo(payment, n) <==> n <= 1
  {
    if n <= 1 {
      forall s | Reachable(s) && Confirmations(s.calls, payment) <= n
        ensures OrderedOnce(s, payment)
      {
        ConfirmedOnceOrderedOnce(s, payment);
      }
    } else {
      var reply := GatewayReply(0, APPROVED_CODE, APPROVED_STATUS, None);
      var item := FinancialItemV1(StoreV1("", "", "", ""), [], 0.0, "", 0.0, 0.0, 0.0);
      var s := RepeatedConfirmations(map[], Args("", "", payment, ""), [reply, reply], item);
      LeadsReachable(map[], s);
      AtMostAllConfirmed(s.calls, payment);
      assert SameLine(s.world.log[0].effect, s.world.log[1].effect, payment);
      assert !OrderedOnce(s, payment);
    }
  }

  // --- Selling nothing -----------------------------------------------------------------------

  /** The event by which a call was priced. */
  predicate Prices(s: Sys, e: Event, c: nat) {
    e.Price? && e.call == c && e.body.Some? && c < |s.calls| && s.calls[c].pc.AtFinancials?
  }

  lemma PriceStep(s: Sys, e: Event, c: nat)
    requires c < |Step(s, e).calls| && Step(s, e).calls[c].priced
    ensures if Prices(s, e, c) then Step(s, e).calls[c].received == ItemsIn(e.body.value)
            else c < |s.calls| && s.calls[c].priced && s.calls[c].received == Step(s, e).calls[c].received
  {
  }

  lemma {:induction false} PricedByAnswer(s: Sys, es: seq<Event>, c: nat) returns (k: nat)
    requires |s.calls| == 0 && c < |Exec(s, es).calls| && Exec(s, es).calls[c].priced
    ensures k < |es| && Prices(Exec(s, es[..k]), es[k], c) && Exec(s, es).calls[c].received == ItemsIn(es[k].body.value)
  {
    var n := |es| - 1;
    PriceStep(Exec(s, es[..n]), es[n], c);
    if Prices(Exec(s, es[..n]), es[n], c) {
      k := n;
    } else {
      k := PricedByAnswer(s, es[..n], c);
      assert es[..n][..k] == es[..k] && es[..n][k] == es[k];
    }
  }

  ghost predicate NothingOrdered(log: seq<Entry>, c: nat) {
    forall i :: 0 <= i < |log| && log[i].call == c ==> !log[i].effect.Order?
  }

  lemma NothingOrderedIff(s: Sys, i: nat)
    requires Reachable(s) && i < |s.world.log| && s.world.log[i].effect.Checkout?
    ensures var c := s.world.log[i].call;
      c < |s.calls| && s.calls[c].priced && (NothingOrdered(s.world.log, c) <==> s.calls[c].received == [])
  {
    var log, c := s.world.log, s.world.log[i].call;
    CheckoutFollowsOrders(s, i);
    EntryPlace(log, i);
    if !s.calls[c].priced { UnpricedIsEmpty(s, c); }
    if s.calls[c].received == [] {
      forall j | 0 <= j < |log| && log[j].call == c
        ensures !log[j].effect.Order?
      {
        EntryPlace(log, j);
        HistoryIsPrefixOfPlan(s, c);
      }
    } else {
      var j :| 0 <= j < i && log[j] == Entry(c, OrderAt(s.calls[c], 0));
    }
  }

  /** A call that checked its basket out has ordered nothing exactly when the answer it was priced by had no items: no body, or an empty list. */
  lemma NothingSoldIff(baskets: map<string, Basket>, es: seq<Event>, i: nat) returns (k: nat)
    requires "" !in baskets && i < |Exec(Init(baskets), es).world.log|
    requires Exec(Init(baskets), es).world.log[i].effect.Checkout?
    ensures var s := Exec(Init(baskets), es);
      && k < |es| && Prices(Exec(Init(baskets), es[..k]), es[k], s.world.log[i].call)
      && (NothingOrdered(s.world.log, s.world.log[i].call) <==> ItemsIn(es[k].body.value) == [])
  {
    var s := Exec(Init(baskets), es);
    assert Reachable(s);
    NothingOrderedIff(s, i);
    k := PricedByAnswer(Init(baskets), es, s.world.log[i].call);
  }

  /** A call comes in, passes the gate, gets a token, is priced, and has its next effect applied and acknowledged. */
  function ShortSale(args: Args, reply: GatewayReply, price: Option<FinancialsV1>): seq<Event> {
    [Start(args)] + [Gateway(0, Some(reply))] + [Token(0, true)] + [Price(0, Some(price))] + [Act(0, Served, "", true)]
  }

  lemma ShortSaleOpens(baskets: map<string, Basket>, args: Args, reply: GatewayReply, price: Option<FinancialsV1>)
    requires Passes(ToConfirmation(reply))
    ensures Exec(Init(baskets), ShortSale(args, reply, price)) ==
            Step(WithCall(Init(baskets), Priced(args, reply, price)), Act(0, Served, "", true))
  {
    var s := Init(baskets);
    var starting := Call(args, None, false, [], 0, AtGateway);
    var confirmed := starting.(gateway := Some(reply), pc := AtToken);
    var e1, e2, e3 := [Start(args)], [Gateway(0, Some(reply))], [Token(0, true)];
    assert Exec(s, e1) == WithCall(s, starting) by { assert e1[..0] == []; }
    ReadByLast(s, starting, Gateway(0, Some(reply)), confirmed);
    ExecSnoc(s, e1, Gateway(0, Some(reply)));
    ReadByLast(s, confirmed, Token(0, true), confirmed.(pc := AtFinancials));
    ExecSnoc(s, e1 + e2, Token(0, true));
    ReadByLast(s, confirmed.(pc := AtFinancials), Price(0, Some(price)), Priced(args, reply, price));
    ExecSnoc(s, e1 + e2 + e3, Price(0, Some(price)));
    ExecSnoc(s, e1 + e2 + e3 + [Price(0, Some(price))], Act(0, Served, "", true));
  }

  /** And it happens, from any baskets: after either answer the first effect is the checkout, even of a full basket. */
  lemma EmptyPriceSellsNothing(args: Args, reply: GatewayReply, price: Option<FinancialsV1>, baskets: map<string, Basket>)
    requires Passes(ToConfirmation(reply)) && ItemsIn(price) == [] && args.basket in baskets
    ensures var s := Exec(Init(baskets), ShortSale(args, reply, price));
      && |s.calls| == 1 && s.calls[0].args == args && s.calls[0].gateway == Some(reply)
      && s.world.log == [Entry(0, Checkout(args.basket, args.payment, args.shipping))] && NothingOrdered(s.world.log, 0)
      && s.world.baskets == baskets[args.basket := baskets[args.basket].(status := CheckedOut)]
  {
    var call := Priced(args, reply, price);
    ShortSaleOpens(baskets, args, reply, price);
    assert Plan(call)[0] == Checkout(args.basket, args.payment, args.shipping);
  }
}
