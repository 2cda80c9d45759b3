/**
  The two tables of the subscription application: the plan catalog and the
  per-user subscription records, with their field constraints, defaults and
  default ordering (subscription/models.py).
 */
module SubscriptionModels {
  import opened Wrappers

  type PlanId = int
  type UserId = int

  /** An instant, in whole seconds. */
  type Time = int

  const SecondsPerDay: int := 86400

  /** A price has two decimal places and at most ten digits in all, so as a
      count of cents its magnitude is below ten to the tenth. */
  const PriceLimit: int := 10_000_000_000

  const NameMaxLength: nat := 50

  /** The largest value a positive-integer column holds in the database's
      default integer range; model validation enforces it as a maximum. */
  const PositiveIntegerMax: int := 2147483647

  predicate PriceFits(cents: int) {
    -PriceLimit < cents < PriceLimit
  }

  type Cents = c: int | PriceFits(c)

  /** One row of the plan table. `durationDays` is a non-negative integer
      (a positive-integer field admits zero). */
  datatype Plan = Plan(name: string, price: Cents, durationDays: nat, active: bool)

  /** The plan table, keyed by primary key. */
  type Catalog = map<PlanId, Plan>

  /** The plan lookup `get(id=…, is_active=True)` succeeds. */
  predicate Offered(c: Catalog, id: PlanId) {
    id in c && c[id].active
  }

  /** No two plans share a name. */
  ghost predicate UniqueNames(c: Catalog) {
    forall p, q :: p in c && q in c && c[p].name == c[q].name ==> p == q
  }

  /** Every row of the catalog satisfies the field constraints of the plan table. */
  ghost predicate WellFormedCatalog(c: Catalog) {
    && UniqueNames(c)
    && forall p :: p in c ==> 0 < |c[p].name| <= NameMaxLength
  }

  /** What validating a new plan's fields can report, in field order. */
  datatype PlanFieldError =
    | NameBlank | NameTooLong | NameTaken | PriceTooManyDigits | DurationNegative | DurationTooLarge

  /** The validation errors for a new plan with these fields, in field order:
      name (required, at most 50 characters, unique), price (ten digits, two of
      them decimal), duration (between 0 and the column's maximum). A blank
      name stops the name's other validators, so it is never also reported
      as taken. */
  function PlanErrors(c: Catalog, name: string, price: int, durationDays: int): (errs: seq<PlanFieldError>)
    ensures NameBlank in errs <==> name == []
    ensures NameTooLong in errs <==> |name| > NameMaxLength
    ensures NameTaken in errs <==> name != [] && exists p :: p in c && c[p].name == name
    ensures PriceTooManyDigits in errs <==> !PriceFits(price)
    ensures DurationNegative in errs <==> durationDays < 0
    ensures DurationTooLarge in errs <==> durationDays > PositiveIntegerMax
    ensures errs == [] <==> && 0 < |name| <= NameMaxLength && (forall p :: p in c ==> c[p].name != name)
                            && PriceFits(price) && 0 <= durationDays <= PositiveIntegerMax
  {
    if name == [] then
      [NameBlank] + PriceAndDurationErrors(price, durationDays)
    else
      (if |name| > NameMaxLength then [NameTooLong] else [])
      + (if exists p :: p in c && c[p].name == name then [NameTaken] else [])
      + PriceAndDurationErrors(price, durationDays)
  }

  /** The errors of the price and duration fields, in that order. */
  function PriceAndDurationErrors(price: int, durationDays: int): (errs: seq<PlanFieldError>)
    ensures forall e :: e in errs ==> e in {PriceTooManyDigits, DurationNegative, DurationTooLarge}
    ensures PriceTooManyDigits in errs <==> !PriceFits(price)
    ensures DurationNegative in errs <==> durationDays < 0
    ensures DurationTooLarge in errs <==> durationDays > PositiveIntegerMax
  {
    (if PriceFits(price) then [] else [PriceTooManyDigits])
    + (if durationDays < 0 then [DurationNegative] else [])
    + (if durationDays > PositiveIntegerMax then [DurationTooLarge] else [])
  }

  /** A plan row built from validated fields; `is_active` defaults to true when not supplied. */
  function NewPlan(name: string, price: Cents, durationDays: nat, active: Option<bool>): (p: Plan)
    ensures active.None? ==> p.active
    ensures active.Some? ==> p.active == active.value
    ensures p.name == name && p.price == price && p.durationDays == durationDays
  {
    Plan(name, price, durationDays, active.GetOr(true))
  }

  /** One row of the subscription table. A record's position in the ledger is
      its primary key: rows are appended in creation order and never removed. */
  datatype Record = Record(user: UserId, plan: PlanId, start: Time, end: Time, active: bool)

  /** The whole subscription table, every user's records together. */
  type Ledger = seq<Record>

  /** A subscription row built with `start_date` and `is_active` left to their
      defaults when not supplied: the current instant and true. */
  function NewRecord(user: UserId, plan: PlanId, end: Time, start: Option<Time>, active: Option<bool>, now: Time): (r: Record)
    ensures start.None? ==> r.start == now
    ensures active.None? ==> r.active
    ensures start.Some? ==> r.start == start.value
    ensures active.Some? ==> r.active == active.value
    ensures r.user == user && r.plan == plan && r.end == end
  {
    Record(user, plan, start.GetOr(now), end, active.GetOr(true))
  }

  predicate IsActiveOf(r: Record, u: UserId) {
    r.user == u && r.active
  }

  /** The instant `days` whole days after `t`. */
  function DaysAfter(t: Time, days: nat): Time {
    t + days * SecondsPerDay
  }

  // ---------------------------------------------------------------------
  // Default ordering of the subscription table: most recent start first.
  // ---------------------------------------------------------------------

  ghost predicate NewestFirst(s: seq<Record>) {
    forall i, j :: 0 <= i < j < |s| ==> s[i].start >= s[j].start
  }

  /** Places `x` into a newest-first sequence, ahead of every record that
      started no later than it. */
  function InsertNewestFirst(x: Record, s: seq<Record>): (r: seq<Record>)
    requires NewestFirst(s)
    ensures NewestFirst(r)
    ensures multiset(r) == multiset(s) + multiset{x}
    ensures r[0] == x || (|s| > 0 && r[0] == s[0])
  {
    if s == [] || x.start >= s[0].start then
      [x] + s
    else
      var tail := InsertNewestFirst(x, s[1..]);
      assert s == [s[0]] + s[1..];
      [s[0]] + tail
  }

  /** The rows of `s` in the table's default order (`-start_date`); among
      rows with equal starts the later-created comes first. */
  function OrderNewestFirst(s: seq<Record>): (r: seq<Record>)
    ensures NewestFirst(r)
    ensures multiset(r) == multiset(s)
  {
    if s == [] then []
    else
      var last := |s| - 1;
      assert s == s[..last] + [s[last]];
      InsertNewestFirst(s[last], OrderNewestFirst(s[..last]))
  }
}
