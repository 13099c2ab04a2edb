/** The Flask optimisation service: the `/optimize-schedule` route, which builds
    a CP-SAT model with one boolean per (employee, product, day, hour) slot,
    posts "at most one product per employee per slot", solves it and turns the
    solution into two-hour schedule entries; and the request guards of the
    `/execute-optimization` route.

    The CP-SAT solver is an oracle `solve` that may return any status, but
    whenever it reports OPTIMAL or FEASIBLE its assignment gives every model
    variable 0 or 1 and satisfies every posted constraint. `datetime.now()` is
    the parameter `now`, in seconds of naive local time. */
module Scheduler {
  import opened Values

  const DAYS := 7           // range(7)
  const FIRST_HOUR := 8     // range(8, 18)
  const END_HOUR := 18
  const HOUR := 3600        // seconds
  const DAY := 86400        // seconds
  const ENTRY_LENGTH := 2 * HOUR

  /* ---------------------------------------------------------------- requests */

  /** An employee row of the request; only `employee_id` is read. */
  datatype EmployeeRow = EmployeeRow(employeeId: string)
  /** A product row of the request; only `product_code` is read. */
  datatype ProductRow = ProductRow(productCode: string)

  /** The JSON body of `/optimize-schedule`; `resources` and `constraints` are
      read from the request but play no part in the model. */
  datatype ScheduleRequest = ScheduleRequest(
    employees: seq<EmployeeRow>,
    products: seq<ProductRow>,
    resources: seq<Json>,
    constraints: seq<Json>)

  /** The `employee_id` of every employee row, in order. */
  function EmployeeIds(emps: seq<EmployeeRow>): seq<string>
  {
    if emps == [] then [] else [emps[0].employeeId] + EmployeeIds(emps[1..])
  }

  /** The `product_code` of every product row, in order. */
  function ProductCodes(prods: seq<ProductRow>): seq<string>
  {
    if prods == [] then [] else [prods[0].productCode] + ProductCodes(prods[1..])
  }

  /* ------------------------------------------------------------ the CP model */

  /** The key of one boolean decision variable of the `assignments` dict. */
  datatype VarKey = VarKey(employeeId: string, productCode: string, day: int, hour: int)

  /** A posted linear constraint `sum(terms) <= bound`; a term that occurs
      twice counts twice. */
  datatype LinearLe = LinearLe(terms: seq<VarKey>, bound: int)

  datatype CpModel = CpModel(vars: seq<VarKey>, constraints: seq<LinearLe>)

  datatype SolverStatus = Unknown | ModelInvalid | Feasible | Infeasible | Optimal

  /** What `solver.Solve(model)` and `solver.Value(var)` report. */
  datatype Solution = Solution(status: SolverStatus, value: map<VarKey, int>)

  /** `status == cp_model.OPTIMAL or status == cp_model.FEASIBLE` */
  predicate Solved(s: SolverStatus) {
    s == Optimal || s == Feasible
  }

  /** The value of a variable in an assignment, 0 for a key the assignment lacks. */
  function Val(value: map<VarKey, int>, k: VarKey): int {
    if k in value then value[k] else 0
  }

  function Sum(terms: seq<VarKey>, value: map<VarKey, int>): int {
    if terms == [] then 0 else Sum(terms[..|terms| - 1], value) + Val(value, terms[|terms| - 1])
  }

  /** The assignment gives each variable of the model 0 or 1 and meets every
      constraint. */
  ghost predicate Satisfies(m: CpModel, value: map<VarKey, int>) {
    && (forall k :: k in value <==> k in m.vars)
    && (forall k :: k in value ==> value[k] == 0 || value[k] == 1)
    && (forall c :: c in m.constraints ==> Sum(c.terms, value) <= c.bound)
  }

  /** The one thing the model assumes of CP-SAT. */
  ghost predicate SolverSound(m: CpModel, s: Solution) {
    Solved(s.status) ==> Satisfies(m, s.value)
  }

  /* ------------------------------------------- the variable grid, in loop order */

  predicate NoDup(s: seq<VarKey>) {
    forall i, j :: 0 <= i < j < |s| ==> s[i] != s[j]
  }

  /** `assignments[key] = ...` on the dict's key list: a key already present
      keeps its place, a new key goes to the end. */
  function Insert(keys: seq<VarKey>, k: VarKey): seq<VarKey> {
    if k in keys then keys else keys + [k]
  }

  /** Inserting keeps the keys distinct. */
  lemma InsertNoDup(keys: seq<VarKey>, k: VarKey)
    requires NoDup(keys)
    ensures NoDup(Insert(keys, k))
  {
    if k !in keys {
      var r := keys + [k];
      forall i, j | 0 <= i < j < |r| ensures r[i] != r[j] {
        if j == |keys| {
          assert r[i] == keys[i];
        }
      }
    }
  }

  /** The innermost loop, `for hour in range(h, 18)`, run on the key list `keys`.
      (The list is part of the measure only so that a literal hour does not
      let the verifier unroll the whole loop.) */
  function FillHours(keys: seq<VarKey>, e: string, p: string, d: int, h: int): seq<VarKey>
    decreases END_HOUR - h, keys
  {
    if h >= END_HOUR then keys else FillHours(Insert(keys, VarKey(e, p, d, h)), e, p, d, h + 1)
  }

  /** `for day in range(d, 7)` and the loops inside it. */
  function FillDays(keys: seq<VarKey>, e: string, p: string, d: int): seq<VarKey>
    decreases DAYS - d, keys
  {
    if d >= DAYS then keys else FillDays(FillHours(keys, e, p, d, FIRST_HOUR), e, p, d + 1)
  }

  /** `for prod in products[j:]` and the loops inside it. */
  function FillProducts(keys: seq<VarKey>, e: string, prods: seq<ProductRow>, j: nat): seq<VarKey>
    decreases |prods| - j
  {
    if j >= |prods| then keys else FillProducts(FillDays(keys, e, prods[j].productCode, 0), e, prods, j + 1)
  }

  /** `for emp in employees[i:]` and the loops inside it. */
  function FillEmployees(keys: seq<VarKey>, emps: seq<EmployeeRow>, prods: seq<ProductRow>, i: nat): seq<VarKey>
    decreases |emps| - i
  {
    if i >= |emps| then keys else FillEmployees(FillProducts(keys, emps[i].employeeId, prods, 0), emps, prods, i + 1)
  }

  /** The keys of `assignments` once the first group of loops is done, in the
      dict's iteration order. */
  function GridVariables(emps: seq<EmployeeRow>, prods: seq<ProductRow>): seq<VarKey> {
    FillEmployees([], emps, prods, 0)
  }

  /** The key names an employee and a product of the request, a day 0..6 and an
      hour 8..17. */
  predicate InGrid(k: VarKey, emps: seq<EmployeeRow>, prods: seq<ProductRow>) {
    && k.employeeId in EmployeeIds(emps) && k.productCode in ProductCodes(prods)
    && 0 <= k.day < DAYS && FIRST_HOUR <= k.hour < END_HOUR
  }

  lemma {:induction false} FillHoursKeys(keys: seq<VarKey>, e: string, p: string, d: int, h: int, k: VarKey)
    ensures k in FillHours(keys, e, p, d, h) <==>
      k in keys || (k.employeeId == e && k.productCode == p && k.day == d && h <= k.hour < END_HOUR)
    decreases END_HOUR - h
  {
    if h < END_HOUR {
      FillHoursKeys(Insert(keys, VarKey(e, p, d, h)), e, p, d, h + 1, k);
    }
  }

  lemma {:induction false} FillDaysKeys(keys: seq<VarKey>, e: string, p: string, d: int, k: VarKey)
    requires 0 <= d
    ensures k in FillDays(keys, e, p, d) <==>
      k in keys || (k.employeeId == e && k.productCode == p && d <= k.day < DAYS && FIRST_HOUR <= k.hour < END_HOUR)
    decreases DAYS - d
  {
    if d < DAYS {
      var mid := FillHours(keys, e, p, d, FIRST_HOUR);
      assert FillDays(keys, e, p, d) == FillDays(mid, e, p, d + 1);
      FillHoursKeys(keys, e, p, d, FIRST_HOUR, k);
      FillDaysKeys(mid, e, p, d + 1, k);
    }
  }

  lemma {:induction false} FillProductsKeys(keys: seq<VarKey>, e: string, prods: seq<ProductRow>, j: nat, k: VarKey)
    requires j <= |prods|
    ensures k in FillProducts(keys, e, prods, j) <==>
      k in keys || (k.employeeId == e && k.productCode in ProductCodes(prods[j..])
                    && 0 <= k.day < DAYS && FIRST_HOUR <= k.hour < END_HOUR)
    decreases |prods| - j
  {
    if j < |prods| {
      var p := prods[j].productCode;
      var mid := FillDays(keys, e, p, 0);
      assert FillProducts(keys, e, prods, j) == FillProducts(mid, e, prods, j + 1);
      FillDaysKeys(keys, e, p, 0, k);
      FillProductsKeys(mid, e, prods, j + 1, k);
      ProductCodesStep(prods, j, k.productCode);
    } else {
      assert FillProducts(keys, e, prods, j) == keys;
      assert prods[j..] == [];
    }
  }

  lemma {:induction false} FillEmployeesKeys(keys: seq<VarKey>, emps: seq<EmployeeRow>, prods: seq<ProductRow>, i: nat, k: VarKey)
    requires i <= |emps|
    ensures k in FillEmployees(keys, emps, prods, i) <==> k in keys || InGrid(k, emps[i..], prods)
    decreases |emps| - i
  {
    if i < |emps| {
      FillProductsKeys(keys, emps[i].employeeId, prods, 0, k);
      FillEmployeesKeys(FillProducts(keys, emps[i].employeeId, prods, 0), emps, prods, i + 1, k);
      EmployeeIdsStep(emps, i, k.employeeId);
      assert prods[0..] == prods;
    } else {
      assert emps[i..] == [];
    }
  }

  /** The product codes from position `j` on are the one at `j` and those after it. */
  lemma ProductCodesStep(prods: seq<ProductRow>, j: nat, c: string)
    requires j < |prods|
    ensures c in ProductCodes(prods[j..]) <==> c == prods[j].productCode || c in ProductCodes(prods[j + 1..])
  {
    assert prods[j..][1..] == prods[j + 1..];
  }

  /** The employee ids from position `i` on are the one at `i` and those after it. */
  lemma EmployeeIdsStep(emps: seq<EmployeeRow>, i: nat, e: string)
    requires i < |emps|
    ensures e in EmployeeIds(emps[i..]) <==> e == emps[i].employeeId || e in EmployeeIds(emps[i + 1..])
  {
    assert emps[i..][1..] == emps[i + 1..];
  }

  /** Each loop of the first group keeps the dict's keys distinct. */
  lemma {:induction false} FillHoursNoDup(keys: seq<VarKey>, e: string, p: string, d: int, h: int)
    requires NoDup(keys)
    ensures NoDup(FillHours(keys, e, p, d, h))
    decreases END_HOUR - h
  {
    if h < END_HOUR {
      InsertNoDup(keys, VarKey(e, p, d, h));
      FillHoursNoDup(Insert(keys, VarKey(e, p, d, h)), e, p, d, h + 1);
    }
  }

  lemma {:induction false} FillDaysNoDup(keys: seq<VarKey>, e: string, p: string, d: int)
    requires NoDup(keys)
    ensures NoDup(FillDays(keys, e, p, d))
    decreases DAYS - d
  {
    if d < DAYS {
      FillHoursNoDup(keys, e, p, d, FIRST_HOUR);
      FillDaysNoDup(FillHours(keys, e, p, d, FIRST_HOUR), e, p, d + 1);
    }
  }

  lemma {:induction false} FillProductsNoDup(keys: seq<VarKey>, e: string, prods: seq<ProductRow>, j: nat)
    requires NoDup(keys)
    ensures NoDup(FillProducts(keys, e, prods, j))
    decreases |prods| - j
  {
    if j < |prods| {
      FillDaysNoDup(keys, e, prods[j].productCode, 0);
      FillProductsNoDup(FillDays(keys, e, prods[j].productCode, 0), e, prods, j + 1);
    }
  }

  lemma {:induction false} FillEmployeesNoDup(keys: seq<VarKey>, emps: seq<EmployeeRow>, prods: seq<ProductRow>, i: nat)
    requires NoDup(keys)
    ensures NoDup(FillEmployees(keys, emps, prods, i))
    decreases |emps| - i
  {
    if i < |emps| {
      FillProductsNoDup(keys, emps[i].employeeId, prods, 0);
      FillEmployeesNoDup(FillProducts(keys, emps[i].employeeId, prods, 0), emps, prods, i + 1);
    }
  }

  /** The decision grid has exactly one variable per (employee_id,
      product_code, day 0..6, hour 8..17) of the request, and no other. */
  lemma GridExactlyOnePerSlot(emps: seq<EmployeeRow>, prods: seq<ProductRow>)
    ensures NoDup(GridVariables(emps, prods))
    ensures forall k :: k in GridVariables(emps, prods) <==> InGrid(k, emps, prods)
  {
    assert emps[0..] == emps;
    forall k ensures k in GridVariables(emps, prods) <==> InGrid(k, emps, prods) {
      FillEmployeesKeys([], emps, prods, 0, k);
    }
    FillEmployeesNoDup([], emps, prods, 0);
  }

  /* ------------------------------------------------ the posted constraints */

  /** `sum(assignments.get((e, prod, d, h), 0) for prod in products)`: one term
      per product row, so a repeated product code appears twice. */
  function SlotTerms(e: string, d: int, h: int, prods: seq<ProductRow>): seq<VarKey> {
    seq(|prods|, j requires 0 <= j < |prods| => VarKey(e, prods[j].productCode, d, h))
  }

  /** `model.Add(sum(...) <= 1)` for one (employee, day, hour). */
  function SlotConstraint(e: string, d: int, h: int, prods: seq<ProductRow>): LinearLe {
    LinearLe(SlotTerms(e, d, h, prods), 1)
  }

  /** `for hour in range(h, 18)` of the second group of loops, posting onto `posted`. */
  function PostHours(posted: seq<LinearLe>, e: string, d: int, h: int, prods: seq<ProductRow>): seq<LinearLe>
    decreases END_HOUR - h, posted
  {
    if h >= END_HOUR then posted else PostHours(posted + [SlotConstraint(e, d, h, prods)], e, d, h + 1, prods)
  }

  /** `for day in range(d, 7)` of the second group of loops. */
  function PostDays(posted: seq<LinearLe>, e: string, d: int, prods: seq<ProductRow>): seq<LinearLe>
    decreases DAYS - d, posted
  {
    if d >= DAYS then posted else PostDays(PostHours(posted, e, d, FIRST_HOUR, prods), e, d + 1, prods)
  }

  /** `for emp in employees[i:]` of the second group of loops. */
  function PostEmployees(posted: seq<LinearLe>, emps: seq<EmployeeRow>, prods: seq<ProductRow>, i: nat): seq<LinearLe>
    decreases |emps| - i
  {
    if i >= |emps| then posted else PostEmployees(PostDays(posted, emps[i].employeeId, 0, prods), emps, prods, i + 1)
  }

  /** Every constraint the second group of loops posts, in posting order. */
  function PostedConstraints(emps: seq<EmployeeRow>, prods: seq<ProductRow>): seq<LinearLe> {
    PostEmployees([], emps, prods, 0)
  }

  lemma {:induction false} PostHoursKeeps(posted: seq<LinearLe>, e: string, d: int, h: int, prods: seq<ProductRow>, c: LinearLe)
    requires c in posted
    ensures c in PostHours(posted, e, d, h, prods)
    decreases END_HOUR - h
  {
    if h < END_HOUR {
      PostHoursKeeps(posted + [SlotConstraint(e, d, h, prods)], e, d, h + 1, prods, c);
    }
  }

  lemma {:induction false} PostHoursHas(posted: seq<LinearLe>, e: string, d: int, h: int, prods: seq<ProductRow>, h': int)
    requires h <= h' < END_HOUR
    ensures SlotConstraint(e, d, h', prods) in PostHours(posted, e, d, h, prods)
    decreases END_HOUR - h
  {
    var next := posted + [SlotConstraint(e, d, h, prods)];
    if h' == h {
      PostHoursKeeps(next, e, d, h + 1, prods, SlotConstraint(e, d, h, prods));
    } else {
      PostHoursHas(next, e, d, h + 1, prods, h');
    }
  }

  lemma {:induction false} PostHoursFrom(posted: seq<LinearLe>, e: string, d: int, h: int, prods: seq<ProductRow>, c: LinearLe)
    returns (h': int)
    requires c in PostHours(posted, e, d, h, prods) && c !in posted
    ensures h <= h' < END_HOUR && c == SlotConstraint(e, d, h', prods)
    decreases END_HOUR - h
  {
    var next := posted + [SlotConstraint(e, d, h, prods)];
    if c in next {
      h' := h;
    } else {
      h' := PostHoursFrom(next, e, d, h + 1, prods, c);
    }
  }

  lemma {:induction false} PostDaysKeeps(posted: seq<LinearLe>, e: string, d: int, prods: seq<ProductRow>, c: LinearLe)
    requires c in posted
    ensures c in PostDays(posted, e, d, prods)
    decreases DAYS - d
  {
    if d < DAYS {
      PostHoursKeeps(posted, e, d, FIRST_HOUR, prods, c);
      PostDaysKeeps(PostHours(posted, e, d, FIRST_HOUR, prods), e, d + 1, prods, c);
    }
  }

  lemma {:induction false} PostDaysHas(posted: seq<LinearLe>, e: string, d: int, prods: seq<ProductRow>, d': int, h': int)
    requires d <= d' < DAYS && FIRST_HOUR <= h' < END_HOUR
    ensures SlotConstraint(e, d', h', prods) in PostDays(posted, e, d, prods)
    decreases DAYS - d
  {
    var next := PostHours(posted, e, d, FIRST_HOUR, prods);
    if d' == d {
      PostHoursHas(posted, e, d, FIRST_HOUR, prods, h');
      PostDaysKeeps(next, e, d + 1, prods, SlotConstraint(e, d', h', prods));
    } else {
      PostDaysHas(next, e, d + 1, prods, d', h');
    }
  }

  lemma {:induction false} PostDaysFrom(posted: seq<LinearLe>, e: string, d: int, prods: seq<ProductRow>, c: LinearLe)
    returns (d': int, h': int)
    requires c in PostDays(posted, e, d, prods) && c !in posted
    ensures d <= d' < DAYS && FIRST_HOUR <= h' < END_HOUR && c == SlotConstraint(e, d', h', prods)
    decreases DAYS - d
  {
    var next := PostHours(posted, e, d, FIRST_HOUR, prods);
    if c in next {
      d' := d;
      h' := PostHoursFrom(posted, e, d, FIRST_HOUR, prods, c);
    } else {
      d', h' := PostDaysFrom(next, e, d + 1, prods, c);
    }
  }

  lemma {:induction false} PostEmployeesKeeps(posted: seq<LinearLe>, emps: seq<EmployeeRow>, prods: seq<ProductRow>, i: nat, c: LinearLe)
    requires c in posted
    ensures c in PostEmployees(posted, emps, prods, i)
    decreases |emps| - i
  {
    if i < |emps| {
      PostDaysKeeps(posted, emps[i].employeeId, 0, prods, c);
      PostEmployeesKeeps(PostDays(posted, emps[i].employeeId, 0, prods), emps, prods, i + 1, c);
    }
  }

  lemma {:induction false} PostEmployeesHas(posted: seq<LinearLe>, emps: seq<EmployeeRow>, prods: seq<ProductRow>, i: nat,
                                            e: string, d: int, h: int)
    requires i <= |emps| && e in EmployeeIds(emps[i..])
    requires 0 <= d < DAYS && FIRST_HOUR <= h < END_HOUR
    ensures SlotConstraint(e, d, h, prods) in PostEmployees(posted, emps, prods, i)
    decreases |emps| - i
  {
    assert emps[i..][1..] == emps[i + 1..];
    var next := PostDays(posted, emps[i].employeeId, 0, prods);
    if e == emps[i].employeeId {
      PostDaysHas(posted, e, 0, prods, d, h);
      PostEmployeesKeeps(next, emps, prods, i + 1, SlotConstraint(e, d, h, prods));
    } else {
      PostEmployeesHas(next, emps, prods, i + 1, e, d, h);
    }
  }

  lemma {:induction false} PostEmployeesFrom(posted: seq<LinearLe>, emps: seq<EmployeeRow>, prods: seq<ProductRow>, i: nat, c: LinearLe)
    returns (e: string, d: int, h: int)
    requires i <= |emps|
    requires c in PostEmployees(posted, emps, prods, i) && c !in posted
    ensures e in EmployeeIds(emps[i..]) && 0 <= d < DAYS && FIRST_HOUR <= h < END_HOUR
    ensures c == SlotConstraint(e, d, h, prods)
    decreases |emps| - i
  {
    assert emps[i..][1..] == emps[i + 1..];
    var next := PostDays(posted, emps[i].employeeId, 0, prods);
    if c in next {
      e := emps[i].employeeId;
      d, h := PostDaysFrom(posted, e, 0, prods, c);
    } else {
      e, d, h := PostEmployeesFrom(next, emps, prods, i + 1, c);
    }
  }

  /** Every posted constraint is the slot rule of some employee of the
      request, day 0..6 and hour 8..17. */
  lemma PostedIsSlotRule(emps: seq<EmployeeRow>, prods: seq<ProductRow>, c: LinearLe)
    returns (e: string, d: int, h: int)
    requires c in PostedConstraints(emps, prods)
    ensures e in EmployeeIds(emps) && 0 <= d < DAYS && FIRST_HOUR <= h < END_HOUR
    ensures c == SlotConstraint(e, d, h, prods)
  {
    e, d, h := PostEmployeesFrom([], emps, prods, 0, c);
    assert emps[0..] == emps;
  }

  /** Every slot rule of an employee of the request is posted. */
  lemma SlotRulePosted(emps: seq<EmployeeRow>, prods: seq<ProductRow>, e: string, d: int, h: int)
    requires e in EmployeeIds(emps) && 0 <= d < DAYS && FIRST_HOUR <= h < END_HOUR
    ensures SlotConstraint(e, d, h, prods) in PostedConstraints(emps, prods)
  {
    assert emps[0..] == emps;
    PostEmployeesHas([], emps, prods, 0, e, d, h);
  }

  /** The model the route builds. */
  function GridModel(emps: seq<EmployeeRow>, prods: seq<ProductRow>): CpModel {
    CpModel(GridVariables(emps, prods), PostedConstraints(emps, prods))
  }

  /** Setting every variable to 0 satisfies the model, so the posted problem is
      never infeasible. */
  lemma AllZeroSatisfies(emps: seq<EmployeeRow>, prods: seq<ProductRow>)
    ensures Satisfies(GridModel(emps, prods), map k | k in GridVariables(emps, prods) :: 0)
  {
    var m := GridModel(emps, prods);
    var zero := map k | k in m.vars :: 0;
    forall c | c in m.constraints
      ensures Sum(c.terms, zero) <= c.bound
    {
      var e, d, h := PostedIsSlotRule(emps, prods, c);
      SumOfZeros(c.terms, zero);
    }
  }

  lemma {:induction false} SumOfZeros(terms: seq<VarKey>, value: map<VarKey, int>)
    requires forall k :: k in value ==> value[k] == 0
    ensures Sum(terms, value) == 0
  {
    if terms != [] {
      SumOfZeros(terms[..|terms| - 1], value);
    }
  }

  /** With no negative values, a sum holding two distinct positions each worth 1
      is at least 2. */
  lemma {:induction false} SumAtLeastTwo(terms: seq<VarKey>, value: map<VarKey, int>, i: nat, j: nat)
    requires forall k :: k in value ==> value[k] >= 0
    requires i < j < |terms|
    requires Val(value, terms[i]) == 1 && Val(value, terms[j]) == 1
    ensures Sum(terms, value) >= 2
  {
    var n := |terms| - 1;
    var init := terms[..n];
    if j < n {
      SumAtLeastTwo(init, value, i, j);
    } else {
      SumAtLeastOne(init, value, i);
    }
  }

  lemma {:induction false} SumAtLeastOne(terms: seq<VarKey>, value: map<VarKey, int>, i: nat)
    requires forall k :: k in value ==> value[k] >= 0
    requires i < |terms|
    requires Val(value, terms[i]) == 1
    ensures Sum(terms, value) >= 1
  {
    var n := |terms| - 1;
    if i < n {
      SumAtLeastOne(terms[..n], value, i);
    } else {
      SumNonNegative(terms[..n], value);
    }
  }

  lemma {:induction false} SumNonNegative(terms: seq<VarKey>, value: map<VarKey, int>)
    requires forall k :: k in value ==> value[k] >= 0
    ensures Sum(terms, value) >= 0
  {
    if terms != [] {
      SumNonNegative(terms[..|terms| - 1], value);
    }
  }

  /** A product code of the request sits at some position of the product list. */
  lemma {:induction false} ProductCodeAt(prods: seq<ProductRow>, p: string) returns (j: nat)
    requires p in ProductCodes(prods)
    ensures j < |prods| && prods[j].productCode == p
  {
    if prods[0].productCode == p {
      j := 0;
    } else {
      j := ProductCodeAt(prods[1..], p);
      j := j + 1;
    }
  }

  /** Two distinct product codes of the request both set to 1 in one slot make
      that slot's sum at least 2. */
  lemma SlotSumAtLeastTwo(prods: seq<ProductRow>, value: map<VarKey, int>,
                          e: string, d: int, h: int, p1: string, p2: string)
    requires forall k :: k in value ==> value[k] >= 0
    requires p1 != p2 && p1 in ProductCodes(prods) && p2 in ProductCodes(prods)
    requires Val(value, VarKey(e, p1, d, h)) == 1 && Val(value, VarKey(e, p2, d, h)) == 1
    ensures Sum(SlotTerms(e, d, h, prods), value) >= 2
  {
    var terms := SlotTerms(e, d, h, prods);
    var j1 := ProductCodeAt(prods, p1);
    var j2 := ProductCodeAt(prods, p2);
    assert terms[j1] == VarKey(e, p1, d, h);
    assert terms[j2] == VarKey(e, p2, d, h);
    if j1 < j2 {
      SumAtLeastTwo(terms, value, j1, j2);
    } else {
      SumAtLeastTwo(terms, value, j2, j1);
    }
  }

  /** In any assignment satisfying the model, an employee works on at most one
      product code in each (day, hour) slot. */
  lemma OneProductPerSlot(emps: seq<EmployeeRow>, prods: seq<ProductRow>, value: map<VarKey, int>,
                          e: string, d: int, h: int, p1: string, p2: string)
    requires Satisfies(GridModel(emps, prods), value)
    requires e in EmployeeIds(emps) && 0 <= d < DAYS && FIRST_HOUR <= h < END_HOUR
    requires p1 in ProductCodes(prods) && p2 in ProductCodes(prods)
    requires Val(value, VarKey(e, p1, d, h)) == 1 && Val(value, VarKey(e, p2, d, h)) == 1
    ensures p1 == p2
  {
    if p1 != p2 {
      var c := SlotConstraint(e, d, h, prods);
      SlotRulePosted(emps, prods, e, d, h);
      assert c in GridModel(emps, prods).constraints;
      assert Sum(c.terms, value) <= 1;
      assert forall k :: k in value ==> value[k] >= 0;
      SlotSumAtLeastTwo(prods, value, e, d, h, p1, p2);
    }
  }

  /* ---------------------------------------------------------- materialising */

  /** One entry of the returned `schedule`; `start`/`end` are seconds of naive
      local time (the source sends them as ISO-8601 strings). */
  datatype Entry = Entry(employeeId: string, productCode: string, start: int, end: int, status: string)

  /** `now.replace(hour=0, minute=0, second=0, microsecond=0)` */
  function Midnight(now: nat): nat {
    now - now % DAY
  }

  /** The entry for a variable set to 1: today at `hour`:00:00 plus `day`
      days, lasting two hours. */
  function EntryFor(k: VarKey, now: nat): Entry {
    var start := Midnight(now) + k.hour * HOUR + k.day * DAY;
    Entry(k.employeeId, k.productCode, start, start + ENTRY_LENGTH, "scheduled")
  }

  /** The variables whose value is 1, in dict order. */
  function Selected(vars: seq<VarKey>, value: map<VarKey, int>): (r: seq<VarKey>)
    ensures forall k :: k in r <==> k in vars && Val(value, k) == 1
    ensures NoDup(vars) ==> NoDup(r)
  {
    if vars == [] then []
    else
      var init := vars[..|vars| - 1];
      var k := vars[|vars| - 1];
      assert NoDup(vars) ==> k !in init;
      Selected(init, value) + (if Val(value, k) == 1 then [k] else [])
  }

  /** The schedule the materialising loop appends, one entry per selected variable. */
  function Materialised(vars: seq<VarKey>, value: map<VarKey, int>, now: nat): seq<Entry> {
    var sel := Selected(vars, value);
    seq(|sel|, i requires 0 <= i < |sel| => EntryFor(sel[i], now))
  }

  /** An entry as the route emits it: ids taken from the request, a start on the
      hour between 8:00 and 17:00 on one of the next seven days counted from
      `now`'s date, an end exactly two hours later, status `scheduled`. */
  predicate WellFormedEntry(x: Entry, req: ScheduleRequest, now: nat) {
    && x.employeeId in EmployeeIds(req.employees)
    && x.productCode in ProductCodes(req.products)
    && x.start % HOUR == 0
    && FIRST_HOUR <= (x.start % DAY) / HOUR < END_HOUR
    && 0 <= x.start / DAY - now / DAY < DAYS
    && x.end == x.start + ENTRY_LENGTH
    && x.status == "scheduled"
  }

  /** No two entries of a schedule give one employee the same start time. */
  predicate NoSharedStart(s: seq<Entry>) {
    forall i, j :: 0 <= i < j < |s| ==> !(s[i].employeeId == s[j].employeeId && s[i].start == s[j].start)
  }

  /** The start of an entry encodes its day and hour. */
  lemma EntryForTime(k: VarKey, now: nat)
    requires 0 <= k.day < DAYS && FIRST_HOUR <= k.hour < END_HOUR
    ensures EntryFor(k, now).start / DAY == now / DAY + k.day
    ensures EntryFor(k, now).start % DAY == k.hour * HOUR
    ensures EntryFor(k, now).start % HOUR == 0
  {
    var x := EntryFor(k, now);
    var q := now / DAY + k.day;
    assert Midnight(now) == (now / DAY) * DAY;
    assert x.start == q * DAY + k.hour * HOUR;
    assert 0 <= k.hour * HOUR < DAY;
    assert x.start == (q * 24 + k.hour) * HOUR;
  }

  lemma EntryForWellFormed(k: VarKey, req: ScheduleRequest, now: nat)
    requires InGrid(k, req.employees, req.products)
    ensures WellFormedEntry(EntryFor(k, now), req, now)
  {
    EntryForTime(k, now);
  }

  /** Entries of one employee with equal starts come from the same (day, hour). */
  lemma EntryForSameStart(k1: VarKey, k2: VarKey, now: nat)
    requires 0 <= k1.day < DAYS && FIRST_HOUR <= k1.hour < END_HOUR
    requires 0 <= k2.day < DAYS && FIRST_HOUR <= k2.hour < END_HOUR
    requires EntryFor(k1, now).start == EntryFor(k2, now).start
    ensures k1.day == k2.day && k1.hour == k2.hour
  {
    EntryForTime(k1, now);
    EntryForTime(k2, now);
  }

  /** Every entry of a solved grid is well formed, and no employee has two
      entries starting at the same time. Entries do last two hours while slots
      are one hour apart, so one employee's entries at h and h+1 overlap. */
  lemma MaterialisedProperties(req: ScheduleRequest, value: map<VarKey, int>, now: nat)
    requires Satisfies(GridModel(req.employees, req.products), value)
    ensures forall x :: x in Materialised(GridVariables(req.employees, req.products), value, now) ==>
      WellFormedEntry(x, req, now)
    ensures NoSharedStart(Materialised(GridVariables(req.employees, req.products), value, now))
  {
    var vars := GridVariables(req.employees, req.products);
    GridExactlyOnePerSlot(req.employees, req.products);
    var sel := Selected(vars, value);
    var s := Materialised(vars, value, now);
    forall x | x in s ensures WellFormedEntry(x, req, now) {
      var i :| 0 <= i < |s| && s[i] == x;
      assert sel[i] in sel;
      EntryForWellFormed(sel[i], req, now);
    }
    forall i, j | 0 <= i < j < |s|
      ensures !(s[i].employeeId == s[j].employeeId && s[i].start == s[j].start)
    {
      var k1, k2 := sel[i], sel[j];
      assert k1 in sel && k2 in sel;
      if s[i].employeeId == s[j].employeeId && s[i].start == s[j].start {
        EntryForSameStart(k1, k2, now);
        OneProductPerSlot(req.employees, req.products, value, k1.employeeId, k1.day, k1.hour,
                          k1.productCode, k2.productCode);
        assert false;
      }
    }
  }

  /* ------------------------------------------------------ the route itself */

  datatype ScheduleResponse =
    | Scheduled(schedule: seq<Entry>, solverStatus: SolverStatus)   // 200, success: true
    | Failed(httpStatus: int, error: string)                         // success: false / error

  /** The first group of loops: create one boolean per slot key. */
  method BuildVariables(emps: seq<EmployeeRow>, prods: seq<ProductRow>) returns (vars: seq<VarKey>)
    ensures vars == GridVariables(emps, prods)
  {
    vars := [];
    for i := 0 to |emps|
      invariant FillEmployees(vars, emps, prods, i) == GridVariables(emps, prods)
    {
      var e := emps[i].employeeId;
      ghost var atEmployee := vars;
      for j := 0 to |prods|
        invariant FillProducts(vars, e, prods, j) == FillProducts(atEmployee, e, prods, 0)
      {
        vars := AddWeek(vars, e, prods[j].productCode);
      }
    }
  }

  /** The two inner loops of the first group, for one (employee, product). */
  method AddWeek(keys: seq<VarKey>, e: string, p: string) returns (vars: seq<VarKey>)
    ensures vars == FillDays(keys, e, p, 0)
  {
    vars := keys;
    for day := 0 to DAYS
      invariant FillDays(vars, e, p, day) == FillDays(keys, e, p, 0)
    {
      vars := AddDay(vars, e, p, day);
    }
  }

  /** The innermost loop: `assignments[(e, p, day, hour)] = model.NewBoolVar(...)`
      for every hour of one day. */
  method AddDay(keys: seq<VarKey>, e: string, p: string, day: int) returns (vars: seq<VarKey>)
    ensures vars == FillHours(keys, e, p, day, FIRST_HOUR)
  {
    vars := keys;
    for hour := FIRST_HOUR to END_HOUR
      invariant FillHours(vars, e, p, day, hour) == FillHours(keys, e, p, day, FIRST_HOUR)
    {
      var key := VarKey(e, p, day, hour);
      ghost var before := vars;
      if key !in vars {
        vars := vars + [key];
      }
      assert vars == Insert(before, key);
    }
  }

  /** The second group of loops: one slot rule per (employee, day, hour). */
  method PostConstraints(emps: seq<EmployeeRow>, prods: seq<ProductRow>) returns (constraints: seq<LinearLe>)
    ensures constraints == PostedConstraints(emps, prods)
  {
    constraints := [];
    for i := 0 to |emps|
      invariant PostEmployees(constraints, emps, prods, i) == PostedConstraints(emps, prods)
    {
      var e := emps[i].employeeId;
      ghost var atEmployee := constraints;
      for day := 0 to DAYS
        invariant PostDays(constraints, e, day, prods) == PostDays(atEmployee, e, 0, prods)
      {
        constraints := PostDay(constraints, e, day, prods);
      }
    }
  }

  /** The innermost loop of the second group: one `model.Add` per hour of a day. */
  method PostDay(posted: seq<LinearLe>, e: string, day: int, prods: seq<ProductRow>) returns (constraints: seq<LinearLe>)
    ensures constraints == PostHours(posted, e, day, FIRST_HOUR, prods)
  {
    constraints := posted;
    for hour := FIRST_HOUR to END_HOUR
      invariant PostHours(constraints, e, day, hour, prods) == PostHours(posted, e, day, FIRST_HOUR, prods)
    {
      constraints := constraints + [LinearLe(SlotTerms(e, day, hour, prods), 1)];
    }
  }

  /** The last loop: one entry per variable whose value is 1, in dict order. */
  method Materialise(vars: seq<VarKey>, value: map<VarKey, int>, now: nat) returns (schedule: seq<Entry>)
    requires forall k :: k in vars ==> k in value
    ensures schedule == Materialised(vars, value, now)
  {
    schedule := [];
    for i := 0 to |vars|
      invariant schedule == Materialised(vars[..i], value, now)
    {
      var k := vars[i];
      assert vars[..i + 1][..i] == vars[..i];
      if value[k] == 1 {
        schedule := schedule + [EntryFor(k, now)];
      }
    }
    assert vars[..|vars|] == vars;
  }

  /** `optimize_schedule`: without OR-Tools it fails with 500 before building
      anything; otherwise it solves the grid model and returns the entries of
      the variables set to 1 if the solver reports OPTIMAL or FEASIBLE, and an
      empty schedule otherwise. */
  method OptimizeSchedule(req: ScheduleRequest, ortoolsAvailable: bool, now: nat, solve: CpModel -> Solution)
    returns (response: ScheduleResponse)
    requires forall m :: SolverSound(m, solve(m))
    ensures !ortoolsAvailable ==> response == Failed(500, "OR-Tools not available")
    ensures ortoolsAvailable ==>
      var sol := solve(GridModel(req.employees, req.products));
      response == Scheduled(
        if Solved(sol.status) then Materialised(GridVariables(req.employees, req.products), sol.value, now) else [],
        sol.status)
    ensures response.Scheduled? && response.schedule != [] ==> Solved(response.solverStatus)
    ensures response.Scheduled? ==> forall x :: x in response.schedule ==> WellFormedEntry(x, req, now)
    ensures response.Scheduled? ==> NoSharedStart(response.schedule)
  {
    if !ortoolsAvailable {
      return Failed(500, "OR-Tools not available");
    }
    var vars := BuildVariables(req.employees, req.products);
    var constraints := PostConstraints(req.employees, req.products);
    var model := CpModel(vars, constraints);
    var solution := solve(model);
    var schedule := [];
    if Solved(solution.status) {
      assert SolverSound(model, solution);
      schedule := Materialise(vars, solution.value, now);
      MaterialisedProperties(req, solution.value, now);
    }
    response := Scheduled(schedule, solution.status);
  }

  /* ------------------------------------------------- /execute-optimization */

  /** What running the submitted script does: it finishes (leaving a `result`
      global and printed output) or raises. */
  datatype ScriptOutcome =
    | Finished(result: Json, output: string)
    | Raised(error: string, traceback: string, output: string)

  datatype ExecuteResponse =
    | Rejected(httpStatus: int, error: string)
    | Executed(result: Json, output: string)                        // 200, success: true
    | ExecutionFailed(error: string, traceback: string, output: string)  // 500, success: false

  /** The guards of `execute_optimization`: an empty (or absent) script is
      refused with 400 before OR-Tools is looked at; a missing OR-Tools gives
      500; only then is the script run, on the request's `data`. */
  function ExecuteOptimization(script: string, inputData: Json, ortoolsAvailable: bool,
                               run: (string, Json) -> ScriptOutcome): (r: ExecuteResponse)
    ensures script == "" ==> r == Rejected(400, "No Python script provided")
    ensures script != "" && !ortoolsAvailable ==> r == Rejected(500, "OR-Tools not available on this server")
    ensures r.Executed? || r.ExecutionFailed? <==> script != "" && ortoolsAvailable
    ensures r.Executed? ==> run(script, inputData) == Finished(r.result, r.output)
    ensures r.ExecutionFailed? <==> script != "" && ortoolsAvailable && run(script, inputData).Raised?
    ensures r.ExecutionFailed? ==> run(script, inputData) == Raised(r.error, r.traceback, r.output)
  {
    if script == "" then Rejected(400, "No Python script provided")
    else if !ortoolsAvailable then Rejected(500, "OR-Tools not available on this server")
    else
      match run(script, inputData)
      case Finished(result, output) => Executed(result, output)
      case Raised(error, tb, output) => ExecutionFailed(error, tb, output)
  }
}
