/**
 * The building blocks of the application's reports: list comprehensions that
 * filter rows, `sum(...)` over them, the `d[k] = d.get(k, 0.0) + v` accumulation
 * the dashboard and the budget page run over transactions, Python's `sorted()`
 * on text, and the `{b.category: b.amount for b in budgets}` comprehension.
 * Every fold here consumes its sequence from the front, one element at a time,
 * exactly as the loops do, so each is defined on a sequence by its last element.
 */
module Aggregation {
  import opened Wrappers
  import opened Records
  import opened Dict
  import opened Period

  function Amount(t: Transaction): real {
    t.amount
  }

  /** `[t for t in ts if t.user_id == uid]` (a query filtered by owner). */
  function OwnedBy(ts: seq<Transaction>, uid: int): seq<Transaction> {
    if ts == [] then []
    else if ts[|ts| - 1].userId == uid then OwnedBy(ts[..|ts| - 1], uid) + [ts[|ts| - 1]]
    else OwnedBy(ts[..|ts| - 1], uid)
  }

  /** `[t for t in ts if t.date.startswith(prefix)]`. */
  function DatedIn(ts: seq<Transaction>, prefix: string): seq<Transaction> {
    if ts == [] then []
    else if StartsWith(ts[|ts| - 1].date, prefix) then DatedIn(ts[..|ts| - 1], prefix) + [ts[|ts| - 1]]
    else DatedIn(ts[..|ts| - 1], prefix)
  }

  /** `[t for t in ts if t.type == kind]`. */
  function OfKind(ts: seq<Transaction>, kind: string): seq<Transaction> {
    if ts == [] then []
    else if ts[|ts| - 1].kind == kind then OfKind(ts[..|ts| - 1], kind) + [ts[|ts| - 1]]
    else OfKind(ts[..|ts| - 1], kind)
  }

  /** `Budget.query.filter_by(user_id=uid)`. */
  function BudgetsOf(bs: seq<Budget>, uid: int): seq<Budget> {
    if bs == [] then []
    else if bs[|bs| - 1].userId == uid then BudgetsOf(bs[..|bs| - 1], uid) + [bs[|bs| - 1]]
    else BudgetsOf(bs[..|bs| - 1], uid)
  }

  /** `Goal.query.filter_by(user_id=uid)`. */
  function GoalsOf(gs: seq<Goal>, uid: int): seq<Goal> {
    if gs == [] then []
    else if gs[|gs| - 1].userId == uid then GoalsOf(gs[..|gs| - 1], uid) + [gs[|gs| - 1]]
    else GoalsOf(gs[..|gs| - 1], uid)
  }

  /** `sum(val(t) for t in ts)`. */
  function SumOf(ts: seq<Transaction>, val: Transaction -> real): real {
    if ts == [] then 0.0 else SumOf(ts[..|ts| - 1], val) + val(ts[|ts| - 1])
  }

  /** The part of `SumOf(ts, val)` contributed by the rows whose key is `k`. */
  function KeyTotal(ts: seq<Transaction>, key: Transaction -> string, val: Transaction -> real, k: string): real {
    if ts == [] then 0.0
    else KeyTotal(ts[..|ts| - 1], key, val, k) + (if key(ts[|ts| - 1]) == k then val(ts[|ts| - 1]) else 0.0)
  }

  /** The key of every row, in row order. */
  function KeysSeen(ts: seq<Transaction>, key: Transaction -> string): seq<string> {
    if ts == [] then [] else KeysSeen(ts[..|ts| - 1], key) + [key(ts[|ts| - 1])]
  }

  /** The distinct elements of `ks`, each where it first occurs. */
  function FirstSeen(ks: seq<string>): seq<string> {
    if ks == [] then []
    else if ks[|ks| - 1] in FirstSeen(ks[..|ks| - 1]) then FirstSeen(ks[..|ks| - 1])
    else FirstSeen(ks[..|ks| - 1]) + [ks[|ks| - 1]]
  }

  /**
   * The dictionary the loop `for t in ts: d[key(t)] = d.get(key(t), 0.0) + val(t)`
   * builds from an empty one.
   */
  function Tally(ts: seq<Transaction>, key: Transaction -> string, val: Transaction -> real): Dict {
    if ts == [] then []
    else
      var d := Tally(ts[..|ts| - 1], key, val);
      var t := ts[|ts| - 1];
      Put(d, key(t), Get(d, key(t), 0.0) + val(t))
  }

  // ---------------------------------------------------------------------------
  // Filters

  /** A row survives `OwnedBy` exactly when it is in the table and belongs to `uid`. */
  lemma {:induction false} OwnedByMembers(ts: seq<Transaction>, uid: int, t: Transaction)
    ensures t in OwnedBy(ts, uid) <==> t in ts && t.userId == uid
  {
    if ts != [] {
      OwnedByMembers(ts[..|ts| - 1], uid, t);
      assert ts == ts[..|ts| - 1] + [ts[|ts| - 1]];
    }
  }

  /** A row survives `DatedIn` exactly when it is in the table and its date starts with the prefix. */
  lemma {:induction false} DatedInMembers(ts: seq<Transaction>, prefix: string, t: Transaction)
    ensures t in DatedIn(ts, prefix) <==> t in ts && StartsWith(t.date, prefix)
  {
    if ts != [] {
      DatedInMembers(ts[..|ts| - 1], prefix, t);
      assert ts == ts[..|ts| - 1] + [ts[|ts| - 1]];
    }
  }

  lemma {:induction false} BudgetsOfMembers(bs: seq<Budget>, uid: int, b: Budget)
    ensures b in BudgetsOf(bs, uid) <==> b in bs && b.userId == uid
  {
    if bs != [] {
      BudgetsOfMembers(bs[..|bs| - 1], uid, b);
      assert bs == bs[..|bs| - 1] + [bs[|bs| - 1]];
    }
  }

  lemma {:induction false} GoalsOfMembers(gs: seq<Goal>, uid: int, g: Goal)
    ensures g in GoalsOf(gs, uid) <==> g in gs && g.userId == uid
  {
    if gs != [] {
      GoalsOfMembers(gs[..|gs| - 1], uid, g);
      assert gs == gs[..|gs| - 1] + [gs[|gs| - 1]];
    }
  }

  /** A row survives `OfKind` exactly when it is in the table and has that type. */
  lemma {:induction false} OfKindMembers(ts: seq<Transaction>, kind: string, t: Transaction)
    ensures t in OfKind(ts, kind) <==> t in ts && t.kind == kind
  {
    if ts != [] {
      OfKindMembers(ts[..|ts| - 1], kind, t);
      assert ts == ts[..|ts| - 1] + [ts[|ts| - 1]];
    }
  }

  // ---------------------------------------------------------------------------
  // The accumulation loop

  /** A tally never holds a key twice. */
  lemma {:induction false} TallyDistinct(ts: seq<Transaction>, key: Transaction -> string, val: Transaction -> real)
    ensures DistinctKeys(Tally(ts, key, val))
  {
    if ts != [] {
      var d := Tally(ts[..|ts| - 1], key, val);
      var t := ts[|ts| - 1];
      TallyDistinct(ts[..|ts| - 1], key, val);
      PutDistinct(d, key(t), Get(d, key(t), 0.0) + val(t));
    }
  }

  /** The value a tally holds under `k` (0.0 when absent) is the total of the rows with key `k`. */
  lemma {:induction false} TallyGet(ts: seq<Transaction>, key: Transaction -> string, val: Transaction -> real, k: string)
    ensures Get(Tally(ts, key, val), k, 0.0) == KeyTotal(ts, key, val, k)
  {
    if ts != [] {
      var d := Tally(ts[..|ts| - 1], key, val);
      var t := ts[|ts| - 1];
      TallyGet(ts[..|ts| - 1], key, val, k);
      GetPut(d, key(t), Get(d, key(t), 0.0) + val(t), k, 0.0);
    }
  }

  /** Every row lands under exactly one key, so the values of a tally add up to the sum over all rows. */
  lemma {:induction false} TallyTotal(ts: seq<Transaction>, key: Transaction -> string, val: Transaction -> real)
    ensures Total(Tally(ts, key, val)) == SumOf(ts, val)
  {
    if ts != [] {
      var d := Tally(ts[..|ts| - 1], key, val);
      var t := ts[|ts| - 1];
      TallyTotal(ts[..|ts| - 1], key, val);
      TotalAccumulate(d, key(t), val(t));
    }
  }

  /** Two key functions that agree on every row build the same tally. */
  lemma {:induction false} TallyKeysAgree(ts: seq<Transaction>, k1: Transaction -> string, k2: Transaction -> string, val: Transaction -> real)
    requires forall t :: t in ts ==> k1(t) == k2(t)
    ensures Tally(ts, k1, val) == Tally(ts, k2, val)
  {
    if ts != [] {
      var pre, t := ts[..|ts| - 1], ts[|ts| - 1];
      assert forall u :: u in pre ==> u in ts;
      TallyKeysAgree(pre, k1, k2, val);
      assert t in ts;
      assert k1(t) == k2(t);
    }
  }

  /** With no negative amount, no key's total is negative. */
  lemma {:induction false} KeyTotalNonNegative(ts: seq<Transaction>, key: Transaction -> string, k: string)
    requires forall t :: t in ts ==> t.amount >= 0.0
    ensures KeyTotal(ts, key, Amount, k) >= 0.0
  {
    if ts != [] {
      assert ts[|ts| - 1] in ts;
      KeyTotalNonNegative(ts[..|ts| - 1], key, k);
    }
  }

  /** A budget map of non-negative limits holds no negative value. */
  lemma {:induction false} BudgetMapNonNegative(bs: seq<Budget>)
    requires forall b :: b in bs ==> b.amount >= 0.0
    ensures forall i :: 0 <= i < |BudgetMap(bs)| ==> BudgetMap(bs)[i].value >= 0.0
  {
    if bs != [] {
      assert bs[|bs| - 1] in bs;
      BudgetMapNonNegative(bs[..|bs| - 1]);
      PutNonNegative(BudgetMap(bs[..|bs| - 1]), bs[|bs| - 1].category, bs[|bs| - 1].amount);
    }
  }

  lemma {:induction false} PutNonNegative(d: Dict, k: string, v: real)
    requires v >= 0.0 && forall i :: 0 <= i < |d| ==> d[i].value >= 0.0
    ensures forall i :: 0 <= i < |Put(d, k, v)| ==> Put(d, k, v)[i].value >= 0.0
  {
    if d != [] && d[0].key != k {
      assert forall i :: 0 <= i < |d| - 1 ==> d[1..][i].value >= 0.0;
      PutNonNegative(d[1..], k, v);
      assert forall i :: 1 <= i < |Put(d, k, v)| ==> Put(d, k, v)[i] == Put(d[1..], k, v)[i - 1];
    }
  }

  /** With no negative goal balance, the savings are not negative. */
  lemma {:induction false} GoalsSavingsNonNegative(gs: seq<Goal>)
    requires forall g :: g in gs ==> g.current >= 0.0
    ensures GoalsSavings(gs) >= 0.0
  {
    if gs != [] {
      assert gs[|gs| - 1] in gs;
      GoalsSavingsNonNegative(gs[..|gs| - 1]);
    }
  }

  /** A reference for the user's savings: one pass over all goals, counting only the user's. */
  function UserSavings(gs: seq<Goal>, uid: int): real {
    if gs == [] then 0.0
    else UserSavings(gs[..|gs| - 1], uid) + (if gs[|gs| - 1].userId == uid then gs[|gs| - 1].current else 0.0)
  }

  /** Summing the user's goals gives the masked sum over the whole table. */
  lemma {:induction false} GoalsSavingsOfUser(gs: seq<Goal>, uid: int)
    ensures GoalsSavings(GoalsOf(gs, uid)) == UserSavings(gs, uid)
  {
    if gs != [] {
      var pre := gs[..|gs| - 1];
      var g := gs[|gs| - 1];
      GoalsSavingsOfUser(pre, uid);
      if g.userId == uid {
        var own := GoalsOf(pre, uid) + [g];
        assert own[..|own| - 1] == GoalsOf(pre, uid);
      }
    }
  }

  lemma {:induction false} HasKeyInKeys(d: Dict, k: string)
    ensures HasKey(d, k) <==> k in Keys(d)
  {
    if HasKey(d, k) {
      var i :| 0 <= i < |d| && d[i].key == k;
      assert Keys(d)[i] == k;
    }
    if k in Keys(d) {
      var i :| 0 <= i < |d| && Keys(d)[i] == k;
      assert d[i].key == k;
    }
  }

  /** The keys of a tally are the rows' keys in first-seen order. */
  lemma {:induction false} TallyKeys(ts: seq<Transaction>, key: Transaction -> string, val: Transaction -> real)
    ensures Keys(Tally(ts, key, val)) == FirstSeen(KeysSeen(ts, key))
  {
    if ts != [] {
      var d := Tally(ts[..|ts| - 1], key, val);
      var t := ts[|ts| - 1];
      var ks := KeysSeen(ts, key);
      TallyKeys(ts[..|ts| - 1], key, val);
      assert ks[..|ks| - 1] == KeysSeen(ts[..|ts| - 1], key);
      HasKeyInKeys(d, key(t));
      PutKeys(d, key(t), Get(d, key(t), 0.0) + val(t));
    }
  }

  /** `FirstSeen` keeps every element and repeats none. */
  lemma {:induction false} FirstSeenMembers(ks: seq<string>)
    ensures forall k :: k in FirstSeen(ks) <==> k in ks
    ensures forall i, j :: 0 <= i < j < |FirstSeen(ks)| ==> FirstSeen(ks)[i] != FirstSeen(ks)[j]
  {
    if ks != [] {
      FirstSeenMembers(ks[..|ks| - 1]);
      assert ks == ks[..|ks| - 1] + [ks[|ks| - 1]];
    }
  }

  lemma {:induction false} KeysSeenMembers(ts: seq<Transaction>, key: Transaction -> string, k: string)
    ensures k in KeysSeen(ts, key) <==> exists t :: t in ts && key(t) == k
  {
    if ts != [] {
      var p := ts[..|ts| - 1];
      KeysSeenMembers(p, key, k);
      assert ts == p + [ts[|ts| - 1]];
      if k in KeysSeen(p, key) {
        var t :| t in p && key(t) == k;
        assert t in ts;
      }
    }
  }

  /** A key is in the tally exactly when some row carries it. */
  lemma TallyHasKey(ts: seq<Transaction>, key: Transaction -> string, val: Transaction -> real, k: string)
    ensures HasKey(Tally(ts, key, val), k) <==> exists t :: t in ts && key(t) == k
  {
    TallyKeys(ts, key, val);
    FirstSeenMembers(KeysSeen(ts, key));
    KeysSeenMembers(ts, key, k);
    HasKeyInKeys(Tally(ts, key, val), k);
  }

  // ---------------------------------------------------------------------------
  // sorted()

  /** Python's `a <= b` on text: code point by code point, a proper prefix first. */
  predicate LexLessEq(a: string, b: string) {
    if a == [] then true
    else if b == [] then false
    else if a[0] != b[0] then a[0] < b[0]
    else LexLessEq(a[1..], b[1..])
  }

  lemma {:induction false} LexTotal(a: string, b: string)
    ensures LexLessEq(a, b) || LexLessEq(b, a)
  {
    if a != [] && b != [] && a[0] == b[0] {
      LexTotal(a[1..], b[1..]);
    }
  }

  lemma {:induction false} LexAntisymmetric(a: string, b: string)
    requires LexLessEq(a, b) && LexLessEq(b, a)
    ensures a == b
  {
    if a != [] && b != [] {
      LexAntisymmetric(a[1..], b[1..]);
      assert a == [a[0]] + a[1..] && b == [b[0]] + b[1..];
    }
  }

  lemma {:induction false} LexTransitive(a: string, b: string, c: string)
    requires LexLessEq(a, b) && LexLessEq(b, c)
    ensures LexLessEq(a, c)
  {
    if a != [] && b != [] && c != [] && a[0] == b[0] && b[0] == c[0] {
      LexTransitive(a[1..], b[1..], c[1..]);
    }
  }

  /** Each element is at most the next one. */
  predicate Sorted(s: seq<string>) {
    forall i :: 0 <= i < |s| - 1 ==> LexLessEq(s[i], s[i + 1])
  }

  /** Insert `x` before the first element it is at most. */
  function Insert(x: string, s: seq<string>): (r: seq<string>)
    ensures |r| == |s| + 1
    ensures r[0] == x || (s != [] && r[0] == s[0])
  {
    if s == [] || LexLessEq(x, s[0]) then [x] + s else [s[0]] + Insert(x, s[1..])
  }

  /** `sorted(s)` on text. */
  function SortStrings(s: seq<string>): seq<string> {
    if s == [] then [] else Insert(s[0], SortStrings(s[1..]))
  }

  lemma {:induction false} InsertSorted(x: string, s: seq<string>)
    requires Sorted(s)
    ensures Sorted(Insert(x, s))
  {
    if s != [] && !LexLessEq(x, s[0]) {
      LexTotal(x, s[0]);
      InsertSorted(x, s[1..]);
      var r := Insert(x, s[1..]);
      assert Insert(x, s) == [s[0]] + r;
      if s[1..] != [] {
        assert s[1..][0] == s[1];
      }
    }
  }

  lemma {:induction false} InsertPermutes(x: string, s: seq<string>)
    ensures multiset(Insert(x, s)) == multiset(s) + multiset{x}
  {
    if s != [] && !LexLessEq(x, s[0]) {
      InsertPermutes(x, s[1..]);
      assert s == [s[0]] + s[1..];
    }
  }

  /** `sorted` returns its input in ascending order. */
  lemma {:induction false} SortStringsSpec(s: seq<string>)
    ensures Sorted(SortStrings(s))
    ensures multiset(SortStrings(s)) == multiset(s)
  {
    if s != [] {
      SortStringsSpec(s[1..]);
      InsertSorted(s[0], SortStrings(s[1..]));
      InsertPermutes(s[0], SortStrings(s[1..]));
      assert s == [s[0]] + s[1..];
    }
  }

  /** Sorted in the adjacent sense means every earlier element is at most every later one. */
  lemma {:induction false} SortedPairwise(s: seq<string>, i: int, j: int)
    requires Sorted(s) && 0 <= i <= j < |s|
    ensures LexLessEq(s[i], s[j])
    decreases j - i
  {
    if i == j {
      LexRefl(s[i]);
    } else {
      SortedPairwise(s, i + 1, j);
      LexTransitive(s[i], s[i + 1], s[j]);
    }
  }

  lemma {:induction false} LexRefl(a: string)
    ensures LexLessEq(a, a)
  {
    if a != [] {
      LexRefl(a[1..]);
    }
  }

  // ---------------------------------------------------------------------------
  // The budget map and goal savings

  /**
   * `{b.category: b.amount for b in budgets}`: each category keeps the position
   * of its first row and the amount of its last.
   */
  function BudgetMap(bs: seq<Budget>): Dict {
    if bs == [] then []
    else Put(BudgetMap(bs[..|bs| - 1]), bs[|bs| - 1].category, bs[|bs| - 1].amount)
  }

  /** `sum(g.current for g in goals)`. */
  function GoalsSavings(gs: seq<Goal>): real {
    if gs == [] then 0.0 else GoalsSavings(gs[..|gs| - 1]) + gs[|gs| - 1].current
  }

  /**
   * The amount the budget map gives a category is that of the last row with
   * this category; a category no row names is absent.
   */
  lemma {:induction false} BudgetMapGet(bs: seq<Budget>, k: string, default: real)
    ensures DistinctKeys(BudgetMap(bs))
    ensures Get(BudgetMap(bs), k, default) == LastAmount(bs, k, default)
  {
    if bs != [] {
      var b := bs[|bs| - 1];
      BudgetMapGet(bs[..|bs| - 1], k, default);
      PutDistinct(BudgetMap(bs[..|bs| - 1]), b.category, b.amount);
      GetPut(BudgetMap(bs[..|bs| - 1]), b.category, b.amount, k, default);
    }
  }

  /** The amount of the last row for category `k`, read from the end. */
  function LastAmount(bs: seq<Budget>, k: string, default: real): real {
    if bs == [] then default
    else if bs[|bs| - 1].category == k then bs[|bs| - 1].amount
    else LastAmount(bs[..|bs| - 1], k, default)
  }

  /** With one row per category, the budget map's total is the sum of all limits. */
  lemma {:induction false} BudgetMapTotal(bs: seq<Budget>)
    requires forall i, j :: 0 <= i < j < |bs| ==> bs[i].category != bs[j].category
    ensures Total(BudgetMap(bs)) == SumLimits(bs)
  {
    if bs != [] {
      var p := bs[..|bs| - 1];
      var b := bs[|bs| - 1];
      BudgetMapTotal(p);
      assert !HasKey(BudgetMap(p), b.category) by {
        BudgetMapKeys(p, b.category);
        forall c | c in p ensures c.category != b.category {
          var i :| 0 <= i < |p| && p[i] == c;
          assert bs[i] == c;
        }
      }
      PutShape(BudgetMap(p), b.category, b.amount);
      TotalAppend(BudgetMap(p), Entry(b.category, b.amount));
    }
  }

  /** `sum(b.amount for b in bs)`. */
  function SumLimits(bs: seq<Budget>): real {
    if bs == [] then 0.0 else SumLimits(bs[..|bs| - 1]) + bs[|bs| - 1].amount
  }

  lemma {:induction false} BudgetMapKeys(bs: seq<Budget>, k: string)
    ensures HasKey(BudgetMap(bs), k) <==> exists b :: b in bs && b.category == k
  {
    if bs != [] {
      var p := bs[..|bs| - 1];
      var b := bs[|bs| - 1];
      BudgetMapKeys(p, k);
      PutHasKey(BudgetMap(p), b.category, b.amount, k);
      assert bs == p + [b];
    }
  }

  /** After `d[k] = v` the keys are those before plus `k`. */
  lemma PutHasKey(d: Dict, k: string, v: real, q: string)
    ensures HasKey(Put(d, k, v), q) <==> q == k || HasKey(d, q)
  {
    PutKeys(d, k, v);
    HasKeyInKeys(d, q);
    HasKeyInKeys(Put(d, k, v), q);
  }

  lemma {:induction false} TotalAppend(d: Dict, e: Entry)
    ensures Total(d + [e]) == Total(d) + e.value
  {
    if d != [] {
      TotalAppend(d[1..], e);
      assert (d + [e])[1..] == d[1..] + [e];
    }
  }
}
