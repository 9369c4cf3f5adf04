/**
 * The employee table of the music catalogue and the reporting structure it
 * holds: each employee may report to a manager, the chain of managers above
 * an employee never comes back to it, and the hierarchy under an employee is
 * listed root first, then each direct report's subtree in case-insensitive
 * last-name order.
 *
 * Acyclicity is witnessed by a ghost rank: a manager always ranks strictly
 * below each of its direct reports, so walking up a chain lowers the rank and
 * walking down raises it, up to a bound above every rank.
 */
module Employees {
  import opened Wrappers
  import opened Strings
  import ChinookDtos

  /** An employee row; `reportsTo` is the manager's id. */
  datatype Employee = Employee(firstName: string, lastName: string, title: Option<string>,
                               birthDate: Option<ChinookDtos.Timestamp>, hireDate: Option<ChinookDtos.Timestamp>,
                               address: Option<string>, city: Option<string>, state: Option<string>,
                               country: Option<string>, postalCode: Option<string>, phone: Option<string>,
                               fax: Option<string>, email: Option<string>, reportsTo: Option<int>)

  /**
   * The row after `updateEmployeeFromDto`: the thirteen data fields take the
   * record's values, nulls included; the manager is kept.
   */
  function FromDto(dto: ChinookDtos.EmployeeDto, reportsTo: Option<int>): (e: Employee)
    requires ChinookDtos.NewEmployeeDto(dto).Ok?
    ensures e.reportsTo == reportsTo && e.email == dto.email
    ensures Some(e.firstName) == dto.firstName && Some(e.lastName) == dto.lastName
    ensures !IsBlank(e.firstName) && !IsBlank(e.lastName)
  {
    Employee(dto.firstName.value, dto.lastName.value, dto.title, dto.birthDate, dto.hireDate, dto.address, dto.city,
             dto.state, dto.country, dto.postalCode, dto.phone, dto.fax, dto.email, reportsTo)
  }

  // ---- reporting chains ----

  /** Every manager exists and ranks below its direct reports. */
  ghost predicate Ranked(emps: map<int, Employee>, rank: map<int, nat>) {
    (forall k :: k in emps ==> k in rank)
    && (forall k :: k in emps && emps[k].reportsTo.Some? ==>
          emps[k].reportsTo.value in emps && rank[emps[k].reportsTo.value] < rank[k])
  }

  /** Whether `e` is `x` or one of the managers above it. */
  ghost predicate Reaches(emps: map<int, Employee>, rank: map<int, nat>, x: int, e: int)
    requires Ranked(emps, rank) && x in emps
    decreases rank[x]
  {
    x == e || (emps[x].reportsTo.Some? && Reaches(emps, rank, emps[x].reportsTo.value, e))
  }

  /** Everything above an employee ranks at most as high as it. */
  lemma {:induction false} ReachesRank(emps: map<int, Employee>, rank: map<int, nat>, x: int, e: int)
    requires Ranked(emps, rank) && x in emps && e in emps && Reaches(emps, rank, x, e)
    ensures rank[e] <= rank[x]
    ensures x != e ==> rank[e] < rank[x]
    decreases rank[x]
  {
    if x != e {
      ReachesRank(emps, rank, emps[x].reportsTo.value, e);
    }
  }

  /** No chain of managers comes back to where it started: an employee is never above its own manager. */
  lemma NoCycle(emps: map<int, Employee>, rank: map<int, nat>, x: int)
    requires Ranked(emps, rank) && x in emps && emps[x].reportsTo.Some?
    ensures !Reaches(emps, rank, emps[x].reportsTo.value, x)
  {
    if Reaches(emps, rank, emps[x].reportsTo.value, x) {
      ReachesRank(emps, rank, emps[x].reportsTo.value, x);
    }
  }

  /** Being above is transitive. */
  lemma {:induction false} ReachesTrans(emps: map<int, Employee>, rank: map<int, nat>, x: int, y: int, z: int)
    requires Ranked(emps, rank) && x in emps && y in emps
    requires Reaches(emps, rank, x, y) && Reaches(emps, rank, y, z)
    ensures Reaches(emps, rank, x, z)
    decreases rank[x]
  {
    if x != y {
      ReachesTrans(emps, rank, emps[x].reportsTo.value, y, z);
    }
  }

  /** Two employees above the same one lie on one chain. */
  lemma {:induction false} ReachesComparable(emps: map<int, Employee>, rank: map<int, nat>, x: int, a: int, b: int)
    requires Ranked(emps, rank) && x in emps && a in emps && b in emps
    requires Reaches(emps, rank, x, a) && Reaches(emps, rank, x, b)
    ensures Reaches(emps, rank, a, b) || Reaches(emps, rank, b, a)
    decreases rank[x]
  {
    if x != a && x != b {
      ReachesComparable(emps, rank, emps[x].reportsTo.value, a, b);
    }
  }

  /** The direct reports of `m`. */
  function Subordinates(emps: map<int, Employee>, m: int): (s: set<int>)
    ensures forall k :: k in s <==> k in emps && emps[k].reportsTo == Some(m)
  {
    set k | k in emps && emps[k].reportsTo == Some(m)
  }

  /** Anyone strictly under `x` is in the subtree of one of its direct reports. */
  lemma {:induction false} BelowGoesThroughReport(emps: map<int, Employee>, rank: map<int, nat>, y: int, x: int)
    requires Ranked(emps, rank) && y in emps && y != x && Reaches(emps, rank, y, x)
    ensures exists c :: c in Subordinates(emps, x) && Reaches(emps, rank, y, c)
    decreases rank[y]
  {
    var p := emps[y].reportsTo.value;
    if p == x {
      assert y in Subordinates(emps, x) && Reaches(emps, rank, y, y);
    } else {
      BelowGoesThroughReport(emps, rank, p, x);
      var c :| c in Subordinates(emps, x) && Reaches(emps, rank, p, c);
      assert Reaches(emps, rank, y, c);
    }
  }

  /**
   * The new ranks after `e` starts reporting to `m`: e's whole subtree moves
   * up by `rank[m] + 1`, everyone else keeps their rank.
   */
  ghost function Shifted(emps: map<int, Employee>, rank: map<int, nat>, e: int, m: int): (rank': map<int, nat>)
    requires Ranked(emps, rank) && m in emps
    ensures forall k :: k in rank' <==> k in rank
  {
    map k | k in rank :: if k in emps && Reaches(emps, rank, k, e) then rank[k] + rank[m] + 1 else rank[k]
  }

  /**
   * Re-parenting `e` under a manager that is not in e's subtree keeps the
   * structure acyclic: the shifted ranks witness it.
   */
  lemma Reparent(emps: map<int, Employee>, rank: map<int, nat>, e: int, m: int)
    requires Ranked(emps, rank) && e in emps && m in emps && !Reaches(emps, rank, m, e)
    ensures Ranked(emps[e := emps[e].(reportsTo := Some(m))], Shifted(emps, rank, e, m))
  {
    var emps' := emps[e := emps[e].(reportsTo := Some(m))];
    var rank' := Shifted(emps, rank, e, m);
    forall k | k in emps' && emps'[k].reportsTo.Some?
      ensures emps'[k].reportsTo.value in emps' && rank'[emps'[k].reportsTo.value] < rank'[k]
    {
      var p := emps'[k].reportsTo.value;
      if k != e {
        assert p == emps[k].reportsTo.value;
        assert Reaches(emps, rank, p, e) ==> Reaches(emps, rank, k, e);
        assert Reaches(emps, rank, k, e) ==> Reaches(emps, rank, p, e);
      }
    }
  }

  /** Every employee ranks below the bound. */
  ghost predicate Bounded(emps: map<int, Employee>, rank: map<int, nat>, bound: nat) {
    forall k :: k in emps ==> k in rank && rank[k] < bound
  }

  /** The shifted ranks stay below the bound raised by the manager's rank. */
  lemma ReparentBounded(emps: map<int, Employee>, rank: map<int, nat>, bound: nat, e: int, m: int)
    requires Ranked(emps, rank) && Bounded(emps, rank, bound) && e in emps && m in emps
    ensures Bounded(emps[e := emps[e].(reportsTo := Some(m))], Shifted(emps, rank, e, m), bound + rank[m] + 1)
  {
  }

  /** A new employee without a manager keeps the ranks a witness, at rank 0. */
  lemma AddTopLevel(emps: map<int, Employee>, rank: map<int, nat>, bound: nat, id: int, row: Employee)
    requires Ranked(emps, rank) && Bounded(emps, rank, bound) && id !in emps && row.reportsTo.None?
    ensures Ranked(emps[id := row], rank[id := 0]) && Bounded(emps[id := row], rank[id := 0], bound + 1)
  {
    var emps', rank' := emps[id := row], rank[id := 0];
    forall k | k in emps' && emps'[k].reportsTo.Some?
      ensures emps'[k].reportsTo.value in emps' && k in rank' && emps'[k].reportsTo.value in rank'
              && rank'[emps'[k].reportsTo.value] < rank'[k]
    {
      var p := emps'[k].reportsTo.value;
      assert k in emps && k != id && emps[k] == emps'[k];
      assert p in emps && p != id && rank[p] < rank[k];
    }
  }

  // ---- the order of direct reports ----

  /**
   * `a` is listed no later than `b`: its last name comes first ignoring case.
   * The source's stable sort keeps the repository's order among equal last
   * names; the model, which has no repository order, breaks those ties by id.
   */
  predicate Before(emps: map<int, Employee>, a: int, b: int)
    requires a in emps && b in emps
  {
    LeIgnoreCase(emps[a].lastName, emps[b].lastName)
    && (LeIgnoreCase(emps[b].lastName, emps[a].lastName) ==> a <= b)
  }

  /** `m` is listed no later than any member of `s`. */
  predicate IsFirst(emps: map<int, Employee>, m: int, s: set<int>)
    requires m in emps && s <= emps.Keys
  {
    forall y {:trigger Before(emps, m, y)} :: y in s ==> Before(emps, m, y)
  }

  lemma {:induction false} LeIgnoreCaseRefl(a: string)
    ensures LeIgnoreCase(a, a)
    decreases |a|
  {
    if a != [] {
      LeIgnoreCaseRefl(a[1..]);
    }
  }

  /** Before is a total order on ids. */
  lemma BeforeOrder(emps: map<int, Employee>, a: int, b: int, c: int)
    requires a in emps && b in emps && c in emps
    ensures Before(emps, a, a)
    ensures Before(emps, a, b) || Before(emps, b, a)
    ensures Before(emps, a, b) && Before(emps, b, a) ==> a == b
    ensures Before(emps, a, b) && Before(emps, b, c) ==> Before(emps, a, c)
  {
    var la, lb, lc := emps[a].lastName, emps[b].lastName, emps[c].lastName;
    LeIgnoreCaseRefl(la);
    LeIgnoreCaseTotal(la, lb);
    if Before(emps, a, b) && Before(emps, b, c) {
      LeIgnoreCaseTrans(la, lb, lc);
      if LeIgnoreCase(lc, la) {
        LeIgnoreCaseTrans(lc, la, lb);
        LeIgnoreCaseTrans(lb, lc, la);
      }
    }
  }

  /** Every non-empty set of employees has a first member. */
  lemma {:induction false} FirstExists(emps: map<int, Employee>, s: set<int>)
    requires s <= emps.Keys && s != {}
    ensures exists m :: m in s && IsFirst(emps, m, s)
    decreases |s|
  {
    if forall y :: y !in s {
      assert false;
    }
    var z :| z in s;
    if s == {z} {
      BeforeOrder(emps, z, z, z);
      assert IsFirst(emps, z, s);
    } else {
      FirstExists(emps, s - {z});
      var m :| m in s - {z} && IsFirst(emps, m, s - {z});
      BeforeOrder(emps, m, z, z);
      if Before(emps, m, z) {
        BeforeOrder(emps, m, m, m);
        assert IsFirst(emps, m, s);
      } else {
        forall y | y in s
          ensures Before(emps, z, y)
        {
          BeforeOrder(emps, z, m, y);
        }
      }
    }
  }

  /** The first member of a set is unique. */
  lemma FirstUnique(emps: map<int, Employee>, s: set<int>)
    requires s <= emps.Keys
    ensures forall m1, m2 :: m1 in s && m2 in s && IsFirst(emps, m1, s) && IsFirst(emps, m2, s) ==> m1 == m2
  {
    forall m1, m2 | m1 in s && m2 in s && IsFirst(emps, m1, s) && IsFirst(emps, m2, s)
      ensures m1 == m2
    {
      BeforeOrder(emps, m1, m2, m2);
    }
  }

  /** The member of a non-empty set listed first. */
  function FirstOf(emps: map<int, Employee>, s: set<int>): (m: int)
    requires s <= emps.Keys && s != {}
    ensures m in s && IsFirst(emps, m, s)
  {
    FirstExists(emps, s);
    FirstUnique(emps, s);
    var m :| m in s && IsFirst(emps, m, s);
    m
  }

  /**
   * The members of `s`, each exactly once, in Before order: the stream
   * `sorted` with the last-name comparator, with ties among equal last names
   * broken by id where the source keeps the repository's order.
   */
  function Sorted(emps: map<int, Employee>, s: set<int>): (xs: seq<int>)
    requires s <= emps.Keys
    ensures forall y :: y in xs <==> y in s
    ensures |xs| == |s|
    ensures Distinct(xs)
    decreases |s|
  {
    if s == {} then []
    else
      var m := FirstOf(emps, s);
      var rest := Sorted(emps, s - {m});
      assert forall j :: 0 <= j < |rest| ==> ([m] + rest)[j + 1] == rest[j];
      [m] + rest
  }

  /** Every entry of `xs` is listed no later than those after it. */
  predicate InOrder(emps: map<int, Employee>, xs: seq<int>)
    requires forall y :: y in xs ==> y in emps
  {
    forall i, j :: 0 <= i < j < |xs| ==> Before(emps, xs[i], xs[j])
  }

  /** Each direct report is listed no later than those after it. */
  lemma {:induction false} SortedInOrder(emps: map<int, Employee>, s: set<int>)
    requires s <= emps.Keys
    ensures InOrder(emps, Sorted(emps, s))
    decreases |s|
  {
    if s != {} {
      var m := FirstOf(emps, s);
      var rest := Sorted(emps, s - {m});
      SortedInOrder(emps, s - {m});
      forall y | y in rest
        ensures y in emps && Before(emps, m, y)
      {
        assert y in s;
      }
      ConsInOrder(emps, m, rest);
    }
  }

  /** A first entry listed no later than every entry of an ordered rest keeps the order. */
  lemma ConsInOrder(emps: map<int, Employee>, m: int, rest: seq<int>)
    requires m in emps && forall y :: y in rest ==> y in emps && Before(emps, m, y)
    requires InOrder(emps, rest)
    ensures InOrder(emps, [m] + rest)
  {
    var xs := [m] + rest;
    forall i, j | 0 <= i < j < |xs|
      ensures Before(emps, xs[i], xs[j])
    {
      assert xs[j] == rest[j - 1];
      if i > 0 {
        assert xs[i] == rest[i - 1];
      }
    }
  }

  // ---- the hierarchy listing ----

  /** Every member of `xs` is a direct report of `p`. */
  predicate ReportsTo(emps: map<int, Employee>, xs: seq<int>, p: int) {
    forall i :: 0 <= i < |xs| ==> xs[i] in emps && emps[xs[i]].reportsTo == Some(p)
  }

  /** `getEmployeeHierarchy`'s list for `x`: x, then each direct report's subtree in Before order. */
  ghost function PreOrder(emps: map<int, Employee>, rank: map<int, nat>, bound: nat, x: int): seq<int>
    requires Ranked(emps, rank) && Bounded(emps, rank, bound) && x in emps
    decreases bound - rank[x], 1, 0
  {
    [x] + Forest(emps, rank, bound, x, Sorted(emps, Subordinates(emps, x)))
  }

  /** The subtrees of the direct reports `xs` of `p`, one after another. */
  ghost function Forest(emps: map<int, Employee>, rank: map<int, nat>, bound: nat, p: int, xs: seq<int>): seq<int>
    requires Ranked(emps, rank) && Bounded(emps, rank, bound) && p in emps
    requires ReportsTo(emps, xs, p)
    decreases bound - rank[p], 0, |xs|
  {
    if xs == [] then []
    else Forest(emps, rank, bound, p, xs[..|xs| - 1]) + PreOrder(emps, rank, bound, xs[|xs| - 1])
  }

  /** Adding a direct report at the end adds its subtree at the end. */
  lemma ForestSnoc(emps: map<int, Employee>, rank: map<int, nat>, bound: nat, p: int, xs: seq<int>, m: int)
    requires Ranked(emps, rank) && Bounded(emps, rank, bound) && p in emps
    requires ReportsTo(emps, xs, p) && m in emps && emps[m].reportsTo == Some(p)
    ensures ReportsTo(emps, xs + [m], p)
    ensures Forest(emps, rank, bound, p, xs + [m]) == Forest(emps, rank, bound, p, xs) + PreOrder(emps, rank, bound, m)
  {
    assert (xs + [m])[..|xs|] == xs;
  }

  /** Concatenation regroups; stated once so the listing proofs need not rediscover it. */
  lemma SeqAssoc(a: seq<int>, b: seq<int>, c: seq<int>)
    ensures a + (b + c) == a + b + c
  {
  }

  /** One step of listing the direct reports of `x` in order, after the first `i` of them. */
  lemma HierarchyStep(emps: map<int, Employee>, rank: map<int, nat>, bound: nat, x: int,
                      subs: seq<int>, i: int)
    requires Ranked(emps, rank) && Bounded(emps, rank, bound) && x in emps
    requires ReportsTo(emps, subs, x) && 0 <= i < |subs|
    ensures subs[i] in emps && subs[i] in rank && rank[x] < rank[subs[i]] < bound
    ensures ReportsTo(emps, subs[..i], x) && ReportsTo(emps, subs[..i + 1], x)
    ensures Forest(emps, rank, bound, x, subs[..i + 1])
            == Forest(emps, rank, bound, x, subs[..i]) + PreOrder(emps, rank, bound, subs[i])
  {
    assert emps[subs[i]].reportsTo == Some(x);
    assert subs[..i + 1] == subs[..i] + [subs[i]];
    ForestSnoc(emps, rank, bound, x, subs[..i], subs[i]);
  }

  /** The direct reports of `x`, listed in order, all report to it. */
  lemma SortedReports(emps: map<int, Employee>, x: int)
    ensures ReportsTo(emps, Sorted(emps, Subordinates(emps, x)), x)
  {
    var subs := Sorted(emps, Subordinates(emps, x));
    forall i | 0 <= i < |subs|
      ensures subs[i] in emps && emps[subs[i]].reportsTo == Some(x)
    {
      assert subs[i] in Subordinates(emps, x);
    }
  }

  /** The listing under `x` holds exactly x and the employees below it. */
  lemma {:induction false} PreOrderMembers(emps: map<int, Employee>, rank: map<int, nat>, bound: nat, x: int)
    requires Ranked(emps, rank) && Bounded(emps, rank, bound) && x in emps
    ensures forall y :: y in PreOrder(emps, rank, bound, x) <==> y in emps && Reaches(emps, rank, y, x)
    decreases bound - rank[x], 1, 0
  {
    var subs := Subordinates(emps, x);
    var xs := Sorted(emps, subs);
    SortedReports(emps, x);
    ForestMembers(emps, rank, bound, x, xs);
    var f := Forest(emps, rank, bound, x, xs);
    assert PreOrder(emps, rank, bound, x) == [x] + f;
    forall y | y in emps && Reaches(emps, rank, y, x)
      ensures y in PreOrder(emps, rank, bound, x)
    {
      if y != x {
        BelowGoesThroughReport(emps, rank, y, x);
        var c :| c in subs && Reaches(emps, rank, y, c);
        var i :| 0 <= i < |xs| && xs[i] == c;
        assert y in f;
      }
    }
    forall y | y in PreOrder(emps, rank, bound, x)
      ensures y in emps && Reaches(emps, rank, y, x)
    {
      if y != x {
        assert y in f;
        var i :| 0 <= i < |xs| && Reaches(emps, rank, y, xs[i]);
        assert emps[xs[i]].reportsTo == Some(x);
        assert Reaches(emps, rank, xs[i], x);
        ReachesTrans(emps, rank, y, xs[i], x);
      }
    }
  }

  /** The subtrees of `xs` hold exactly the employees at or below one of them. */
  lemma {:induction false} ForestMembers(emps: map<int, Employee>, rank: map<int, nat>, bound: nat, p: int, xs: seq<int>)
    requires Ranked(emps, rank) && Bounded(emps, rank, bound) && p in emps
    requires ReportsTo(emps, xs, p)
    ensures forall y :: y in Forest(emps, rank, bound, p, xs) <==>
                          y in emps && exists i :: 0 <= i < |xs| && Reaches(emps, rank, y, xs[i])
    decreases bound - rank[p], 0, |xs|
  {
    if xs != [] {
      var init, last := xs[..|xs| - 1], xs[|xs| - 1];
      assert ReportsTo(emps, init, p) by {
        forall i | 0 <= i < |init|
          ensures init[i] in emps && emps[init[i]].reportsTo == Some(p)
        {
          assert init[i] == xs[i];
        }
      }
      ForestMembers(emps, rank, bound, p, init);
      PreOrderMembers(emps, rank, bound, last);
      var whole := Forest(emps, rank, bound, p, xs);
      assert whole == Forest(emps, rank, bound, p, init) + PreOrder(emps, rank, bound, last);
      forall y | y in emps && exists i :: 0 <= i < |xs| && Reaches(emps, rank, y, xs[i])
        ensures y in whole
      {
        var i :| 0 <= i < |xs| && Reaches(emps, rank, y, xs[i]);
        if i < |xs| - 1 {
          assert init[i] == xs[i];
        }
      }
      forall y | y in whole
        ensures y in emps && exists i :: 0 <= i < |xs| && Reaches(emps, rank, y, xs[i])
      {
        if y in Forest(emps, rank, bound, p, init) {
          var i :| 0 <= i < |init| && Reaches(emps, rank, y, init[i]);
          assert xs[i] == init[i];
        } else {
          assert Reaches(emps, rank, y, xs[|xs| - 1]);
        }
      }
    }
  }

  /** No element of `xs` occurs twice. */
  predicate Distinct(xs: seq<int>) {
    forall i, j :: 0 <= i < j < |xs| ==> xs[i] != xs[j]
  }

  /** Two lists without repeats and without common elements make one without repeats. */
  lemma DistinctConcat(a: seq<int>, b: seq<int>)
    requires Distinct(a) && Distinct(b) && forall y :: y in a ==> y !in b
    ensures Distinct(a + b)
  {
    var f := a + b;
    forall i, j | 0 <= i < j < |f|
      ensures f[i] != f[j]
    {
      if j >= |a| {
        assert f[j] == b[j - |a|];
        if i < |a| {
          assert f[i] in a;
        }
      }
    }
  }

  /** No employee appears twice in a listing. */
  lemma {:induction false} PreOrderDistinct(emps: map<int, Employee>, rank: map<int, nat>, bound: nat, x: int)
    requires Ranked(emps, rank) && Bounded(emps, rank, bound) && x in emps
    ensures Distinct(PreOrder(emps, rank, bound, x))
    decreases bound - rank[x], 1, 0
  {
    var xs := Sorted(emps, Subordinates(emps, x));
    var f := Forest(emps, rank, bound, x, xs);
    ForestDistinct(emps, rank, bound, x, xs);
    ForestMembers(emps, rank, bound, x, xs);
    if x in f {
      var i :| 0 <= i < |xs| && Reaches(emps, rank, x, xs[i]);
      ReachesRank(emps, rank, x, xs[i]);
    }
    DistinctConcat([x], f);
  }

  /** Distinct direct reports have disjoint subtrees, so the forest lists nobody twice. */
  lemma {:induction false} ForestDistinct(emps: map<int, Employee>, rank: map<int, nat>, bound: nat, p: int, xs: seq<int>)
    requires Ranked(emps, rank) && Bounded(emps, rank, bound) && p in emps
    requires ReportsTo(emps, xs, p)
    requires Distinct(xs)
    ensures Distinct(Forest(emps, rank, bound, p, xs))
    decreases bound - rank[p], 0, |xs|
  {
    if xs != [] {
      var init, last := xs[..|xs| - 1], xs[|xs| - 1];
      var a := Forest(emps, rank, bound, p, init);
      var b := PreOrder(emps, rank, bound, last);
      ForestDistinct(emps, rank, bound, p, init);
      PreOrderDistinct(emps, rank, bound, last);
      ForestMembers(emps, rank, bound, p, init);
      PreOrderMembers(emps, rank, bound, last);
      forall y | y in a
        ensures y !in b
      {
        var i :| 0 <= i < |init| && Reaches(emps, rank, y, init[i]);
        SiblingsDisjoint(emps, rank, p, y, init[i], last);
      }
      DistinctConcat(a, b);
    }
  }

  /** Nobody is below two different direct reports of the same manager. */
  lemma SiblingsDisjoint(emps: map<int, Employee>, rank: map<int, nat>, p: int, y: int, c1: int, c2: int)
    requires Ranked(emps, rank) && y in emps && c1 in emps && c2 in emps && c1 != c2
    requires emps[c1].reportsTo == Some(p) && emps[c2].reportsTo == Some(p)
    ensures !(Reaches(emps, rank, y, c1) && Reaches(emps, rank, y, c2))
  {
    if Reaches(emps, rank, y, c1) && Reaches(emps, rank, y, c2) {
      ReachesComparable(emps, rank, y, c1, c2);
      if Reaches(emps, rank, c1, c2) {
        ReachesRank(emps, rank, p, c2);
      } else {
        ReachesRank(emps, rank, p, c1);
      }
    }
  }
}
