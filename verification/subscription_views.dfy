/**
  The subscription handlers (subscription/views.py) as pure steps over the
  plan catalog and the subscription ledger: each takes the state and the
  authenticated user and returns either the new ledger with the record it
  concerns, or the error it reports. A failed step returns no ledger, so the
  stored state is left exactly as it was.
 */
module SubscriptionViews {
  import opened Wrappers
  import opened SubscriptionModels

  datatype LedgerError = PlanNotFound | AlreadySubscribed | InvalidUpgrade | NoActiveSubscription

  /** The HTTP status a handler answers a refusal with: not found for a plan
      lookup that fails, bad request for every other refusal. */
  function HttpStatus(e: LedgerError): (code: int)
    ensures code == 404 <==> e.PlanNotFound?
    ensures code == 400 <==> !e.PlanNotFound?
  {
    if e.PlanNotFound? then 404 else 400
  }

  /** A successful step: the ledger afterwards and the record the response shows. */
  datatype Step = Step(ledger: Ledger, record: Record)

  // ---------------------------------------------------------------------
  // Invariants of the stored state
  // ---------------------------------------------------------------------

  /** Some record of `u` is active. */
  ghost predicate HasActive(l: Ledger, u: UserId) {
    exists i :: 0 <= i < |l| && IsActiveOf(l[i], u)
  }

  /** At most one record per user is active. */
  ghost predicate AtMostOneActive(l: Ledger) {
    forall i, j :: 0 <= i < |l| && 0 <= j < |l| && l[i].active && l[j].active && l[i].user == l[j].user ==> i == j
  }

  /** Every record refers to a row of the catalog (the plan foreign key, with
      cascading delete, guarantees it). */
  predicate PlansExist(c: Catalog, l: Ledger) {
    forall i :: 0 <= i < |l| ==> l[i].plan in c
  }

  /** The record for `plan` opened for `u` at `now`: it starts now, ends
      `durationDays` whole days later and is active. */
  ghost predicate OpenedFor(r: Record, u: UserId, id: PlanId, plan: Plan, now: Time) {
    && r.user == u
    && r.plan == id
    && r.start == now
    && r.end == now + plan.durationDays * SecondsPerDay
    && r.active
  }

  /** A record deactivated at `at`: only its end and active flag change. */
  function Closed(r: Record, at: Time): (c: Record)
    ensures c.user == r.user && c.plan == r.plan && c.start == r.start
    ensures c.end == at && !c.active
  {
    r.(active := false, end := at)
  }

  // ---------------------------------------------------------------------
  // The active-record lookup: filter(user, is_active=True).first()
  // ---------------------------------------------------------------------

  /** The position of the user's active record that the default ordering
      (`-start_date`) puts first: the latest start, the later-created on a tie. */
  function FirstActive(l: Ledger, u: UserId): (r: Option<nat>)
    ensures r.Some? ==> r.value < |l| && IsActiveOf(l[r.value], u)
    ensures r.Some? ==> forall j :: 0 <= j < |l| && IsActiveOf(l[j], u) ==> l[j].start <= l[r.value].start
    ensures r.None? <==> !HasActive(l, u)
  {
    if l == [] then None
    else
      var last := |l| - 1;
      var front := l[..last];
      var rest := FirstActive(front, u);
      assert forall j :: 0 <= j < last ==> l[j] == front[j];
      if !IsActiveOf(l[last], u) then
        assert HasActive(l, u) ==> HasActive(front, u);
        rest
      else if rest.Some? && l[rest.value].start > l[last].start then
        rest
      else
        Some(last)
  }

  /** Under the single-active invariant, the active record of `u` is the one
      at `i`, if any record of `u` at `i` is active. */
  lemma FirstActiveIsTheActive(l: Ledger, u: UserId, i: nat)
    requires AtMostOneActive(l)
    requires i < |l| && IsActiveOf(l[i], u)
    ensures FirstActive(l, u) == Some(i)
  {
  }

  // ---------------------------------------------------------------------
  // Handlers
  // ---------------------------------------------------------------------

  /** `subscribe_user`: subscribing is refused outright while any record of
      the user is active; the caller must cancel first. */
  function Subscribe(c: Catalog, l: Ledger, u: UserId, planId: PlanId, now: Time): (r: Result<Step, LedgerError>)
    ensures !Offered(c, planId) ==> r == Failure(PlanNotFound)
    ensures Offered(c, planId) && HasActive(l, u) ==> r == Failure(AlreadySubscribed)
    ensures r.Success? <==> Offered(c, planId) && !HasActive(l, u)
    ensures r.Success? ==> r.value.ledger == l + [r.value.record]
    ensures r.Success? ==> OpenedFor(r.value.record, u, planId, c[planId], now)
  {
    if !Offered(c, planId) then
      Failure(PlanNotFound)
    else if FirstActive(l, u).Some? then
      Failure(AlreadySubscribed)
    else
      var plan := c[planId];
      var rec := NewRecord(u, planId, DaysAfter(now, plan.durationDays), Some(now), Some(true), now);
      Success(Step(l + [rec], rec))
  }

  /** `upgrade_subscription`: the new plan must be dearer than the plan of the
      current active record, compared at today's catalog prices. The old record
      is closed at `closedAt` and the new one opened at `now` (the handler reads
      the clock twice). With no active record this is a plain subscribe. */
  function Upgrade(c: Catalog, l: Ledger, u: UserId, newPlanId: PlanId, closedAt: Time, now: Time): (r: Result<Step, LedgerError>)
    requires PlansExist(c, l)
    ensures r == Failure(PlanNotFound) <==> !Offered(c, newPlanId)
    ensures r.Failure? ==> r.error == PlanNotFound || r.error == InvalidUpgrade
    ensures Offered(c, newPlanId) && !HasActive(l, u) ==>
              r.Success? && r.value.ledger == l + [r.value.record]
    ensures forall i :: FirstActive(l, u) == Some(i) && Offered(c, newPlanId) ==>
              (r == Failure(InvalidUpgrade) <==> c[newPlanId].price <= c[l[i].plan].price)
    ensures forall i :: FirstActive(l, u) == Some(i) && r.Success? ==>
              && c[newPlanId].price > c[l[i].plan].price
              && |r.value.ledger| == |l| + 1
              && r.value.ledger[i] == Closed(l[i], closedAt)
              && (forall j :: 0 <= j < |l| && j != i ==> r.value.ledger[j] == l[j])
              && r.value.ledger[|l|] == r.value.record
    ensures r.Success? ==> OpenedFor(r.value.record, u, newPlanId, c[newPlanId], now)
  {
    if !Offered(c, newPlanId) then
      Failure(PlanNotFound)
    else
      var newPlan := c[newPlanId];
      var current := FirstActive(l, u);
      if current.Some? && newPlan.price <= c[l[current.value].plan].price then
        Failure(InvalidUpgrade)
      else
        var kept := if current.Some? then l[current.value := Closed(l[current.value], closedAt)] else l;
        var rec := NewRecord(u, newPlanId, DaysAfter(now, newPlan.durationDays), Some(now), Some(true), now);
        Success(Step(kept + [rec], rec))
  }

  /** `cancel_subscription`: deactivates the current active record in place,
      ending it at `now`; nothing is deleted. */
  function Cancel(l: Ledger, u: UserId, now: Time): (r: Result<Step, LedgerError>)
    ensures r == Failure(NoActiveSubscription) <==> !HasActive(l, u)
    ensures r.Failure? ==> r.error == NoActiveSubscription
    ensures forall i :: FirstActive(l, u) == Some(i) && r.Success? ==>
              && |r.value.ledger| == |l|
              && r.value.ledger[i] == Closed(l[i], now)
              && r.value.record == r.value.ledger[i]
              && (forall j :: 0 <= j < |l| && j != i ==> r.value.ledger[j] == l[j])
  {
    match FirstActive(l, u)
    case None => Failure(NoActiveSubscription)
    case Some(i) =>
      var closed := Closed(l[i], now);
      Success(Step(l[i := closed], closed))
  }

  /** `get_active_subscription`: the user's current active record, or none. */
  function GetActive(l: Ledger, u: UserId): (r: Option<Record>)
    ensures r.None? <==> !HasActive(l, u)
    ensures r.Some? ==> r.value in l && IsActiveOf(r.value, u)
    ensures r.Some? ==> forall j :: 0 <= j < |l| && IsActiveOf(l[j], u) ==> l[j].start <= r.value.start
  {
    match FirstActive(l, u)
    case None => None
    case Some(i) => Some(l[i])
  }

  /** The records of `u`, in creation order. */
  function OwnedBy(l: Ledger, u: UserId): (s: seq<Record>)
    ensures forall x {:trigger multiset(s)[x]} :: multiset(s)[x] == if x.user == u then multiset(l)[x] else 0
  {
    if l == [] then []
    else
      var last := |l| - 1;
      assert l == l[..last] + [l[last]];
      OwnedBy(l[..last], u) + (if l[last].user == u then [l[last]] else [])
  }

  /** `subscription_history`: every record of `u`, active or not, most recent start first. */
  function History(l: Ledger, u: UserId): (h: seq<Record>)
    ensures NewestFirst(h)
    ensures forall x :: multiset(h)[x] == if x.user == u then multiset(l)[x] else 0
  {
    OrderNewestFirst(OwnedBy(l, u))
  }

  /** The refusal statuses of the three ledger handlers: subscribe and
      upgrade answer 404 exactly when the plan is not offered and 400 for
      their other refusal; cancel refuses only with 400. */
  lemma RefusalStatus(c: Catalog, l: Ledger, u: UserId, planId: PlanId, closedAt: Time, now: Time)
    requires PlansExist(c, l)
    ensures Subscribe(c, l, u, planId, now).Failure? ==>
              (HttpStatus(Subscribe(c, l, u, planId, now).error) == 404 <==> !Offered(c, planId))
    ensures Upgrade(c, l, u, planId, closedAt, now).Failure? ==>
              (HttpStatus(Upgrade(c, l, u, planId, closedAt, now).error) == 404 <==> !Offered(c, planId))
    ensures Cancel(l, u, now).Failure? ==> HttpStatus(Cancel(l, u, now).error) == 400
  {
  }

  // ---------------------------------------------------------------------
  // The plan catalog endpoint: GET lists, POST creates
  // ---------------------------------------------------------------------

  /** A plan with its primary key, as the listing shows it. */
  datatype PlanRow = PlanRow(id: PlanId, plan: Plan)

  ghost predicate CheapestFirst(r: seq<PlanRow>) {
    forall i, j :: 0 <= i < j < |r| ==> r[i].plan.price <= r[j].plan.price
  }

  /** The first position in a cheapest-first listing whose price exceeds `price`. */
  method InsertionPoint(r: seq<PlanRow>, price: int) returns (k: nat)
    requires CheapestFirst(r)
    ensures k <= |r|
    ensures forall i :: 0 <= i < k ==> r[i].plan.price <= price
    ensures forall i :: k <= i < |r| ==> price < r[i].plan.price
  {
    k := 0;
    while k < |r| && r[k].plan.price <= price
      invariant k <= |r|
      invariant forall i :: 0 <= i < k ==> r[i].plan.price <= price
    {
      k := k + 1;
    }
  }

  /** `r` lists, cheapest first and each once, exactly the active plans whose
      keys are no longer `remaining`. */
  ghost predicate ListsOfferedExcept(c: Catalog, r: seq<PlanRow>, remaining: set<PlanId>) {
    && remaining <= c.Keys
    && CheapestFirst(r)
    && (forall i :: 0 <= i < |r| ==> r[i].id in c && r[i].id !in remaining && c[r[i].id] == r[i].plan && r[i].plan.active)
    && (forall i, j :: 0 <= i < j < |r| ==> r[i].id != r[j].id)
    && (forall id :: Offered(c, id) && id !in remaining ==> exists i :: 0 <= i < |r| && r[i].id == id)
  }

  /** `r'` is `r` with `row` placed at position `k`. */
  ghost predicate InsertedAt(r': seq<PlanRow>, r: seq<PlanRow>, row: PlanRow, k: nat) {
    && k <= |r|
    && |r'| == |r| + 1
    && (forall i :: 0 <= i < k ==> r'[i] == r[i])
    && r'[k] == row
    && (forall i :: k < i < |r'| ==> r'[i] == r[i - 1])
  }

  lemma InsertedAtKeepsOrder(r': seq<PlanRow>, r: seq<PlanRow>, row: PlanRow, k: nat)
    requires InsertedAt(r', r, row, k) && CheapestFirst(r)
    requires forall i :: 0 <= i < k ==> r[i].plan.price <= row.plan.price
    requires forall i :: k <= i < |r| ==> row.plan.price < r[i].plan.price
    ensures CheapestFirst(r')
  {
  }

  lemma InsertedAtKeepsListing(c: Catalog, r': seq<PlanRow>, r: seq<PlanRow>, remaining: set<PlanId>, id: PlanId, k: nat)
    requires ListsOfferedExcept(c, r, remaining) && id in remaining && c[id].active
    requires InsertedAt(r', r, PlanRow(id, c[id]), k) && CheapestFirst(r')
    ensures ListsOfferedExcept(c, r', remaining - {id})
  {
    var row := PlanRow(id, c[id]);
    forall i | 0 <= i < |r'|
      ensures r'[i].id in c && r'[i].id !in remaining - {id} && c[r'[i].id] == r'[i].plan && r'[i].plan.active
    {
      if i > k { assert r'[i] == r[i - 1]; }
    }
    forall i, j | 0 <= i < j < |r'|
      ensures r'[i].id != r'[j].id
    {
      if j < k {
      } else if j == k {
        assert r'[i] == r[i];
      } else if i < k {
        assert r'[j] == r[j - 1];
      } else if i == k {
        assert r'[j] == r[j - 1];
      } else {
        assert r'[i] == r[i - 1] && r'[j] == r[j - 1];
      }
    }
    forall x | Offered(c, x) && x !in remaining - {id}
      ensures exists i :: 0 <= i < |r'| && r'[i].id == x
    {
      if x == id {
        assert r'[k].id == x;
      } else {
        var i :| 0 <= i < |r| && r[i].id == x;
        if i < k { assert r'[i].id == x; } else { assert r'[i + 1].id == x; }
      }
    }
  }

  /** One step of the listing: takes key `id` out of `remaining`, placing its
      plan in price order when it is active. */
  method AddToListing(c: Catalog, r: seq<PlanRow>, remaining: set<PlanId>, id: PlanId) returns (r': seq<PlanRow>)
    requires ListsOfferedExcept(c, r, remaining) && id in remaining
    ensures ListsOfferedExcept(c, r', remaining - {id})
  {
    if !c[id].active {
      return r;
    }
    var row := PlanRow(id, c[id]);
    var k := InsertionPoint(r, row.plan.price);
    r' := r[..k] + [row] + r[k..];
    assert InsertedAt(r', r, row, k);
    InsertedAtKeepsOrder(r', r, row, k);
    InsertedAtKeepsListing(c, r', r, remaining, id, k);
  }

  /** Some key of a non-empty set. */
  method PickKey(s: set<PlanId>) returns (x: PlanId)
    requires s != {}
    ensures x in s
  {
    // Dafny does not derive the witness's existence from `s != {}` for the
    // such-that below; stating the empty case and refuting it supplies it.
    if forall y :: y !in s {
      assert false;
    }
    x :| x in s;
  }

  /** `subscription_plans` GET: exactly the active plans, each once, cheapest
      first (`filter(is_active=True).order_by('price')`). */
  method ListPlans(c: Catalog) returns (r: seq<PlanRow>)
    ensures CheapestFirst(r)
    ensures forall i :: 0 <= i < |r| ==> r[i].id in c && c[r[i].id] == r[i].plan && r[i].plan.active
    ensures forall i, j :: 0 <= i < j < |r| ==> r[i].id != r[j].id
    ensures forall id :: Offered(c, id) ==> exists i :: 0 <= i < |r| && r[i].id == id
  {
    r := [];
    var remaining := c.Keys;
    while remaining != {}
      invariant ListsOfferedExcept(c, r, remaining)
      decreases remaining
    {
      var id := PickKey(remaining);
      r := AddToListing(c, r, remaining, id);
      remaining := remaining - {id};
    }
  }

  /** `subscription_plans` POST: validates the fields and stores a new plan
      under the fresh key `id` the database assigns; every validation error
      is reported and nothing is stored. */
  function CreatePlan(c: Catalog, id: PlanId, name: string, price: int, durationDays: int, active: Option<bool>)
    : (r: Result<Catalog, seq<PlanFieldError>>)
    requires id !in c
    ensures r.Failure? <==> PlanErrors(c, name, price, durationDays) != []
    ensures r.Failure? ==> r.error == PlanErrors(c, name, price, durationDays)
    ensures r.Success? ==> r.value.Keys == c.Keys + {id} && (forall p :: p in c ==> r.value[p] == c[p])
    ensures r.Success? ==> r.value[id].name == name && r.value[id].price == price && r.value[id].durationDays == durationDays
    ensures r.Success? ==> r.value[id].active == active.GetOr(true)
  {
    var errs := PlanErrors(c, name, price, durationDays);
    if errs != [] then Failure(errs)
    else Success(c[id := NewPlan(name, price, durationDays, active)])
  }

  /** A stored plan keeps the catalog well formed: names non-blank, short and unique. */
  lemma CreatePlanKeepsCatalogWellFormed(c: Catalog, id: PlanId, name: string, price: int, durationDays: int, active: Option<bool>)
    requires id !in c && WellFormedCatalog(c)
    ensures CreatePlan(c, id, name, price, durationDays, active).Success? ==>
              WellFormedCatalog(CreatePlan(c, id, name, price, durationDays, active).value)
  {
  }

  // ---------------------------------------------------------------------
  // Each step preserves the invariants
  // ---------------------------------------------------------------------

  lemma SubscribeKeepsSingleActive(c: Catalog, l: Ledger, u: UserId, planId: PlanId, now: Time)
    requires AtMostOneActive(l)
    ensures Subscribe(c, l, u, planId, now).Success? ==> AtMostOneActive(Subscribe(c, l, u, planId, now).value.ledger)
  {
  }

  lemma UpgradeKeepsSingleActive(c: Catalog, l: Ledger, u: UserId, newPlanId: PlanId, closedAt: Time, now: Time)
    requires PlansExist(c, l) && AtMostOneActive(l)
    ensures Upgrade(c, l, u, newPlanId, closedAt, now).Success? ==>
              AtMostOneActive(Upgrade(c, l, u, newPlanId, closedAt, now).value.ledger)
  {
  }

  lemma CancelKeepsSingleActive(l: Ledger, u: UserId, now: Time)
    requires AtMostOneActive(l)
    ensures Cancel(l, u, now).Success? ==> AtMostOneActive(Cancel(l, u, now).value.ledger)
  {
  }

  /** A successful step leaves every earlier record in place: unchanged, or an
      active record of the caller deactivated at `at`. No record is deleted. */
  ghost predicate OnlyClosesOrAppends(l: Ledger, l': Ledger, u: UserId, at: Time) {
    && |l| <= |l'|
    && forall i :: 0 <= i < |l| ==> l'[i] == l[i] || (IsActiveOf(l[i], u) && l'[i] == Closed(l[i], at))
  }

  // ---------------------------------------------------------------------
  // Sequences of requests
  // ---------------------------------------------------------------------

  datatype Action =
    | SubscribeTo(plan: PlanId, now: Time)
    | UpgradeTo(plan: PlanId, closedAt: Time, now: Time)
    | CancelAt(now: Time)

  /** One authenticated request to a state-changing handler. */
  datatype Request = Request(user: UserId, action: Action)

  /** The handler's result for one request. */
  function Handle(c: Catalog, l: Ledger, q: Request): (r: Result<Step, LedgerError>)
    requires PlansExist(c, l)
  {
    match q.action
    case SubscribeTo(p, now) => Subscribe(c, l, q.user, p, now)
    case UpgradeTo(p, closedAt, now) => Upgrade(c, l, q.user, p, closedAt, now)
    case CancelAt(now) => Cancel(l, q.user, now)
  }

  /** The time at which `q` would deactivate a record. */
  function ClosingTime(a: Action): Time {
    match a
    case SubscribeTo(_, now) => now
    case UpgradeTo(_, closedAt, _) => closedAt
    case CancelAt(now) => now
  }

  /** The stored ledger after one request: the new ledger on success, the old one on failure. */
  function Apply(c: Catalog, l: Ledger, q: Request): (l': Ledger)
    requires PlansExist(c, l)
    ensures PlansExist(c, l')
    ensures Handle(c, l, q).Failure? ==> l' == l
    ensures OnlyClosesOrAppends(l, l', q.user, ClosingTime(q.action))
  {
    match Handle(c, l, q)
    case Success(step) => step.ledger
    case Failure(_) => l
  }

  lemma ApplyKeepsSingleActive(c: Catalog, l: Ledger, q: Request)
    requires PlansExist(c, l) && AtMostOneActive(l)
    ensures AtMostOneActive(Apply(c, l, q))
  {
  }

  /** The stored ledger after a sequence of requests, served one at a time. */
  function Run(c: Catalog, l: Ledger, qs: seq<Request>): (l': Ledger)
    requires PlansExist(c, l)
    ensures PlansExist(c, l')
    ensures |l| <= |l'|
    decreases |qs|
  {
    if qs == [] then l else Run(c, Apply(c, l, qs[0]), qs[1..])
  }

  /** However requests are interleaved, no user ever holds two active records. */
  lemma {:induction false} RunKeepsSingleActive(c: Catalog, l: Ledger, qs: seq<Request>)
    requires PlansExist(c, l) && AtMostOneActive(l)
    ensures AtMostOneActive(Run(c, l, qs))
    decreases |qs|
  {
    if qs != [] {
      ApplyKeepsSingleActive(c, l, qs[0]);
      RunKeepsSingleActive(c, Apply(c, l, qs[0]), qs[1..]);
    }
  }

  /** Records are never deleted, and a deactivated record never changes again. */
  lemma {:induction false} RunNeverDeletes(c: Catalog, l: Ledger, qs: seq<Request>)
    requires PlansExist(c, l)
    ensures |l| <= |Run(c, l, qs)|
    ensures forall i :: 0 <= i < |l| ==>
              && Run(c, l, qs)[i].user == l[i].user
              && Run(c, l, qs)[i].plan == l[i].plan
              && Run(c, l, qs)[i].start == l[i].start
    ensures forall i :: 0 <= i < |l| && !l[i].active ==> Run(c, l, qs)[i] == l[i]
    decreases |qs|
  {
    if qs != [] {
      var l1 := Apply(c, l, qs[0]);
      RunNeverDeletes(c, l1, qs[1..]);
    }
  }

  /** After any sequence of requests from a consistent state, the active-record
      lookup returns the user's one active record, or none when there is none. */
  lemma RunGetActiveIsTheActive(c: Catalog, l: Ledger, qs: seq<Request>, u: UserId)
    requires PlansExist(c, l) && AtMostOneActive(l)
    ensures var l' := Run(c, l, qs);
            && (GetActive(l', u).None? <==> forall i :: 0 <= i < |l'| ==> !IsActiveOf(l'[i], u))
            && forall i :: 0 <= i < |l'| && IsActiveOf(l'[i], u) ==> GetActive(l', u) == Some(l'[i])
  {
    RunKeepsSingleActive(c, l, qs);
    var l' := Run(c, l, qs);
    forall i | 0 <= i < |l'| && IsActiveOf(l'[i], u)
      ensures GetActive(l', u) == Some(l'[i])
    {
      FirstActiveIsTheActive(l', u, i);
    }
  }

  // ---------------------------------------------------------------------
  // The subscribe/upgrade asymmetry
  // ---------------------------------------------------------------------

  /** With no active record, upgrading is exactly subscribing. */
  lemma UpgradeWithoutActiveIsSubscribe(c: Catalog, l: Ledger, u: UserId, planId: PlanId, closedAt: Time, now: Time)
    requires PlansExist(c, l) && !HasActive(l, u)
    ensures Upgrade(c, l, u, planId, closedAt, now) == Subscribe(c, l, u, planId, now)
  {
  }

  /** With an active record, subscribing is refused, while upgrading to any
      offered plan dearer than the current one goes through. */
  lemma SubscribeRefusesWhereUpgradeProceeds(c: Catalog, l: Ledger, u: UserId, i: nat, planId: PlanId, closedAt: Time, now: Time)
    requires PlansExist(c, l) && AtMostOneActive(l)
    requires i < |l| && IsActiveOf(l[i], u)
    requires Offered(c, planId) && c[planId].price > c[l[i].plan].price
    ensures Subscribe(c, l, u, planId, now) == Failure(AlreadySubscribed)
    ensures Upgrade(c, l, u, planId, closedAt, now).Success?
  {
  }

  // ---------------------------------------------------------------------
  // History order under a clock that does not run backwards
  // ---------------------------------------------------------------------

  /** Records were created with non-decreasing start instants. */
  ghost predicate StartedInOrder(s: seq<Record>) {
    forall i, j :: 0 <= i < j < |s| ==> s[i].start <= s[j].start
  }

  /** The instant at which a request would open a record. */
  function OpeningTime(a: Action): Time {
    match a
    case SubscribeTo(_, now) => now
    case UpgradeTo(_, _, now) => now
    case CancelAt(now) => now
  }

  /** A request served no earlier than every existing start keeps the starts in creation order. */
  lemma ApplyKeepsStartOrder(c: Catalog, l: Ledger, q: Request)
    requires PlansExist(c, l) && StartedInOrder(l)
    requires forall i :: 0 <= i < |l| ==> l[i].start <= OpeningTime(q.action)
    ensures StartedInOrder(Apply(c, l, q))
  {
  }

  /** Newest created first. */
  function Reverse(s: seq<Record>): (r: seq<Record>)
    ensures |r| == |s|
    ensures forall i :: 0 <= i < |s| ==> r[i] == s[|s| - 1 - i]
  {
    if s == [] then [] else [s[|s| - 1]] + Reverse(s[..|s| - 1])
  }

  lemma OwnedByStartsBounded(l: Ledger, u: UserId, bound: Time)
    requires forall i :: 0 <= i < |l| ==> l[i].start <= bound
    ensures forall k :: 0 <= k < |OwnedBy(l, u)| ==> OwnedBy(l, u)[k].start <= bound
  {
  }

  lemma {:induction false} OwnedByKeepsStartOrder(l: Ledger, u: UserId)
    requires StartedInOrder(l)
    ensures StartedInOrder(OwnedBy(l, u))
  {
    if l != [] {
      var last := |l| - 1;
      var front := l[..last];
      assert StartedInOrder(front);
      OwnedByKeepsStartOrder(front, u);
      OwnedByStartsBounded(front, u, l[last].start);
      var f := OwnedBy(front, u);
      assert OwnedBy(l, u) == f + (if l[last].user == u then [l[last]] else []);
    }
  }

  lemma {:induction false} OrderOfStartedInOrderIsReverse(s: seq<Record>)
    requires StartedInOrder(s)
    ensures OrderNewestFirst(s) == Reverse(s)
  {
    if s != [] {
      var last := |s| - 1;
      var front := s[..last];
      assert StartedInOrder(front);
      OrderOfStartedInOrderIsReverse(front);
      if front != [] {
        assert Reverse(front)[0] == front[last - 1];
      }
    }
  }

  /** With a clock that never runs backwards, the history lists the user's
      records in reverse order of creation. */
  lemma HistoryIsReverseCreation(l: Ledger, u: UserId)
    requires StartedInOrder(l)
    ensures History(l, u) == Reverse(OwnedBy(l, u))
  {
    OwnedByKeepsStartOrder(l, u);
    OrderOfStartedInOrderIsReverse(OwnedBy(l, u));
  }
}
