/** The payment-plan language: plans wait for witnesses, and each satisfying witness reduces them. */
module FinPlans {
  import opened Base

  datatype Witness = TimeWitness(dt: int) | SignatureWitness

  datatype Payment = Payment(tokens: int, to: Pubkey)

  /** Waiting for a time at or after `dt` attested by `key`, or for `key`'s signature. */
  datatype Condition = AtTime(dt: int, key: Pubkey) | SignedBy(key: Pubkey)

  datatype FinPlan =
    | Pay(payment: Payment)
    | After(cond: Condition, payment: Payment)
    | Or(cond0: Condition, payment0: Payment, cond1: Condition, payment1: Payment)
    | And(first: Condition, second: Condition, payment: Payment)

  predicate Satisfied(c: Condition, w: Witness, from: Pubkey) {
    match (c, w)
    case (SignedBy(key), SignatureWitness) => key == from
    case (AtTime(dt, key), TimeWitness(now)) => key == from && dt <= now
    case _ => false
  }

  function FinalPayment(p: FinPlan): Option<Payment> {
    if p.Pay? then Some(p.payment) else None
  }

  /** The plan spends exactly `n` whichever way it is reduced. */
  predicate Verify(p: FinPlan, n: int) {
    match p
    case Pay(x) => x.tokens == n
    case After(_, x) => x.tokens == n
    case And(_, _, x) => x.tokens == n
    case Or(_, x, _, y) => x.tokens == n && y.tokens == n
  }

  function ApplyWitness(p: FinPlan, w: Witness, from: Pubkey): FinPlan {
    match p
    case Pay(_) => p
    case After(c, x) => if Satisfied(c, w, from) then Pay(x) else p
    case Or(c0, x0, c1, x1) =>
      if Satisfied(c0, w, from) then Pay(x0) else if Satisfied(c1, w, from) then Pay(x1) else p
    case And(c0, c1, x) =>
      if Satisfied(c0, w, from) then After(c1, x) else if Satisfied(c1, w, from) then After(c0, x) else p
  }

  /** How many witnesses a plan still needs at least. */
  function Rank(p: FinPlan): nat {
    match p case Pay(_) => 0 case After(_, _) => 1 case Or(_, _, _, _) => 1 case And(_, _, _) => 2
  }

  /** A witness either leaves the plan alone or brings it strictly closer to paying; the amount never moves. */
  lemma WitnessReduces(p: FinPlan, w: Witness, from: Pubkey)
    ensures var p' := ApplyWitness(p, w, from);
      (p' == p || Rank(p') < Rank(p)) && forall n :: Verify(p, n) ==> Verify(p', n)
  {
  }

  // ---- Whole histories ---------------------------------------------------------------------------

  /** A witness and the key that sent it. */
  type Testimony = (Witness, Pubkey)

  function Reduce(p: FinPlan, hist: seq<Testimony>): FinPlan
    decreases |hist|
  {
    if hist == [] then p else Reduce(ApplyWitness(p, hist[0].0, hist[0].1), hist[1..])
  }

  predicate Meets(c: Condition, t: Testimony) {
    Satisfied(c, t.0, t.1)
  }

  /** The history holds what the plan asked for before paying `x`. */
  ghost predicate Justified(p: FinPlan, hist: seq<Testimony>, x: Payment) {
    match p
    case Pay(y) => x == y
    case After(c, y) => x == y && exists i :: 0 <= i < |hist| && Meets(c, hist[i])
    case Or(c0, x0, c1, x1) =>
      exists i :: 0 <= i < |hist| && ((x == x0 && Meets(c0, hist[i])) || (x == x1 && Meets(c1, hist[i])))
    case And(c0, c1, y) =>
      x == y && exists i, j :: 0 <= i < |hist| && 0 <= j < |hist| && i != j && Meets(c0, hist[i]) && Meets(c1, hist[j])
  }

  lemma {:induction false} PaidStays(p: FinPlan, hist: seq<Testimony>)
    requires p.Pay?
    ensures Reduce(p, hist) == p
  {
    if hist != [] {
      PaidStays(p, hist[1..]);
    }
  }

  /**
   * Witness soundness: a plan comes to pay only what its own payments say, and only after a history
   * holding a satisfying witness from each key it named: two separate ones for both conditions.
   */
  lemma {:induction false} WitnessSoundness(p: FinPlan, hist: seq<Testimony>)
    requires Reduce(p, hist).Pay?
    ensures Justified(p, hist, Reduce(p, hist).payment)
    decreases |hist|
  {
    if hist != [] {
      var p' := ApplyWitness(p, hist[0].0, hist[0].1);
      var rest := hist[1..];
      WitnessSoundness(p', rest);
      assert forall i :: 0 <= i < |rest| ==> hist[i + 1] == rest[i];
      if p' == p {
        Later(p, hist, Reduce(p, hist).payment);
      } else {
        match p
        case After(c, x) => PaidStays(p', rest); assert Meets(c, hist[0]);
        case Or(c0, x0, c1, x1) => PaidStays(p', rest); assert Meets(c0, hist[0]) || Meets(c1, hist[0]);
        case And(c0, c1, x) =>
          var k :| 0 <= k < |rest| && Meets(p'.cond, rest[k]);
          assert Meets(p'.cond, hist[k + 1]);
          assert Meets(if Meets(c0, hist[0]) then c0 else c1, hist[0]);
      }
    }
  }

  /** Testimony added in front does not spoil a justification. */
  lemma Later(p: FinPlan, hist: seq<Testimony>, x: Payment)
    requires hist != [] && Justified(p, hist[1..], x)
    ensures Justified(p, hist, x)
  {
    var rest := hist[1..];
    match p
    case Pay(_) =>
    case After(c, _) =>
      var i :| 0 <= i < |rest| && Meets(c, rest[i]);
      assert Meets(c, hist[i + 1]);
    case Or(c0, x0, c1, x1) =>
      var i :| 0 <= i < |rest| && ((x == x0 && Meets(c0, rest[i])) || (x == x1 && Meets(c1, rest[i])));
      assert (x == x0 && Meets(c0, hist[i + 1])) || (x == x1 && Meets(c1, hist[i + 1]));
    case And(c0, c1, _) =>
      var i, j :| 0 <= i < |rest| && 0 <= j < |rest| && i != j && Meets(c0, rest[i]) && Meets(c1, rest[j]);
      assert Meets(c0, hist[i + 1]) && Meets(c1, hist[j + 1]);
  }

  /** One satisfying witness is enough for a plan waiting on one condition. */
  lemma {:induction false} AfterComplete(c: Condition, x: Payment, hist: seq<Testimony>, i: nat)
    requires i < |hist| && Meets(c, hist[i])
    ensures Reduce(After(c, x), hist) == Pay(x)
  {
    if Meets(c, hist[0]) {
      PaidStays(Pay(x), hist[1..]);
    } else {
      AfterComplete(c, x, hist[1..], i - 1);
    }
  }

  /** A plan with two branches is settled by the first witness either one accepts, the first branch preferred. */
  lemma {:induction false} OrSettledByFirst(c0: Condition, x0: Payment, c1: Condition, x1: Payment, hist: seq<Testimony>, i: nat)
    requires i < |hist| && (Meets(c0, hist[i]) || Meets(c1, hist[i]))
    requires forall j :: 0 <= j < i ==> !Meets(c0, hist[j]) && !Meets(c1, hist[j])
    ensures Reduce(Or(c0, x0, c1, x1), hist) == Pay(if Meets(c0, hist[i]) then x0 else x1)
  {
    if i == 0 {
      PaidStays(Pay(if Meets(c0, hist[0]) then x0 else x1), hist[1..]);
    } else {
      assert !Meets(c0, hist[0]) && !Meets(c1, hist[0]);
      var rest := hist[1..];
      assert forall j :: 0 <= j < i - 1 ==> rest[j] == hist[j + 1];
      OrSettledByFirst(c0, x0, c1, x1, rest, i - 1);
    }
  }

  /** Two times from one key, the earlier listed first: one late witness is spent on the earlier condition. */
  predicate NestedTimes(c0: Condition, c1: Condition) {
    c0.AtTime? && c1.AtTime? && c0.key == c1.key && c0.dt < c1.dt
  }

  lemma {:induction false} AndPays(c0: Condition, c1: Condition, x: Payment, hist: seq<Testimony>, i: nat, j: nat)
    requires !NestedTimes(c0, c1)
    requires i < |hist| && j < |hist| && i != j && Meets(c0, hist[i]) && Meets(c1, hist[j])
    ensures Reduce(And(c0, c1, x), hist) == Pay(x)
  {
    var rest := hist[1..];
    if Meets(c0, hist[0]) {
      if j > 0 {
        AfterComplete(c1, x, rest, j - 1);
      } else {
        assert Meets(c1, hist[i]);
        AfterComplete(c1, x, rest, i - 1);
      }
    } else if Meets(c1, hist[0]) {
      AfterComplete(c0, x, rest, i - 1);
    } else {
      AndPays(c0, c1, x, rest, i - 1, j - 1);
    }
  }

  /**
   * Completeness of the two-condition plan: it pays on every history with two separate satisfying
   * witnesses, exactly when its conditions are not two times of one key with the earlier first.
   */
  lemma {:induction false} AndCompleteness(c0: Condition, c1: Condition, x: Payment)
    ensures (forall hist: seq<Testimony> :: Justified(And(c0, c1, x), hist, x) ==> Reduce(And(c0, c1, x), hist) == Pay(x))
      <==> !NestedTimes(c0, c1)
  {
    var p := And(c0, c1, x);
    if NestedTimes(c0, c1) {
      var late, early := (TimeWitness(c1.dt), c0.key), (TimeWitness(c0.dt), c0.key);
      var hist := [late, early];
      assert Meets(c1, hist[0]) && Meets(c0, hist[1]);
      assert Justified(p, hist, x);
      assert hist[1..] == [early] && [early][1..] == [];
      assert Reduce(p, hist) == Reduce(After(c1, x), [early]) == Reduce(After(c1, x), []);
    } else {
      forall hist: seq<Testimony> | Justified(p, hist, x) ensures Reduce(p, hist) == Pay(x) {
        var i, j :| 0 <= i < |hist| && 0 <= j < |hist| && i != j && Meets(c0, hist[i]) && Meets(c1, hist[j]);
        AndPays(c0, c1, x, hist, i, j);
      }
    }
  }

  /** One more testimony at the end is one more reduction of what was left. */
  lemma {:induction false} ReduceSnoc(p: FinPlan, hist: seq<Testimony>, t: Testimony)
    ensures Reduce(p, hist + [t]) == ApplyWitness(Reduce(p, hist), t.0, t.1)
    decreases |hist|
  {
    if hist == [] {
      assert [t][1..] == [] && hist + [t] == [t];
      assert Reduce(p, [t]) == Reduce(ApplyWitness(p, t.0, t.1), []);
    } else {
      ReduceSnoc(ApplyWitness(p, hist[0].0, hist[0].1), hist[1..], t);
      assert (hist + [t])[1..] == hist[1..] + [t];
    }
  }

  lemma {:induction false} ReduceKeepsAmount(p: FinPlan, hist: seq<Testimony>, n: int)
    requires Verify(p, n)
    ensures Verify(Reduce(p, hist), n)
    decreases |hist|
  {
    if hist != [] {
      ReduceKeepsAmount(ApplyWitness(p, hist[0].0, hist[0].1), hist[1..], n);
    }
  }
}
