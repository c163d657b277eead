/** The buy-only planning loop as `OrderPlanner.cs` writes it: identical to
    `Scan` for buying, except that the exchange's Euro balance is charged the
    planned crypto amount instead of its Euro cost. */
module SnapshotFinding {
  import opened Model
  import opened SidePolicy
  import opened CandidateList
  import opened OrderPlanner

  function SnapshotScan(cs: seq<Candidate>, remaining: real, balances: seq<real>): ScanOutcome
    requires Scannable(Buying, cs, |balances|)
    decreases |cs|
  {
    if cs == [] then ScanOutcome([], remaining, balances)
    else
      var c := cs[0];
      assert c in cs;
      assert forall d :: d in cs[1..] ==> d in cs;
      var fill := Fillable(Buying, c, remaining, balances[c.exchange]);
      if fill <= 0.0 then SnapshotScan(cs[1..], remaining, balances)
      else
        var remaining' := remaining - fill;
        var balances' := balances[c.exchange := balances[c.exchange] - fill];
        var p := PlannedOrderOf(Buying, c, fill);
        if remaining' <= 0.0 then ScanOutcome([p], remaining', balances')
        else
          var rest := SnapshotScan(cs[1..], remaining', balances');
          ScanOutcome([p] + rest.planned, rest.remaining, rest.balances)
  }

  /** On the limited-balance buy scenario the snapshot plans 1.496 more at 250 on
      ex1 after the first unit: the orders it plans on ex1 cost 624 Euro against
      ex1's 375 Euro, while ex1's balance cell drops only by 2.496, to 372.504. */
  lemma SnapshotOverdrawsEuro()
    ensures SnapshotScan([Candidate(0, "ex1", 1, 1.0, 250.0), Candidate(0, "ex1", 2, 2.0, 250.0), Candidate(1, "ex2", 3, 3.0, 500.0)],
                         4.0, [375.0, 10000.0]).planned
      == [PlannedOrder("ex1", 1, Buy, 1.0, 250.0), PlannedOrder("ex1", 2, Buy, 1.496, 250.0), PlannedOrder("ex2", 3, Buy, 1.504, 500.0)]
    ensures SnapshotScan([Candidate(0, "ex1", 1, 1.0, 250.0), Candidate(0, "ex1", 2, 2.0, 250.0), Candidate(1, "ex2", 3, 3.0, 500.0)],
                         4.0, [375.0, 10000.0]).balances
      == [372.504, 9998.496]
    ensures Charged(Buying, [PlannedOrder("ex1", 1, Buy, 1.0, 250.0), PlannedOrder("ex1", 2, Buy, 1.496, 250.0), PlannedOrder("ex2", 3, Buy, 1.504, 500.0)], "ex1")
      == 624.0 > 375.0
  {
    var a, b, c := Candidate(0, "ex1", 1, 1.0, 250.0), Candidate(0, "ex1", 2, 2.0, 250.0), Candidate(1, "ex2", 3, 3.0, 500.0);
    assert [a, b, c][1..] == [b, c] && [b, c][1..] == [c];
    assert Fillable(Buying, a, 4.0, 375.0) == 1.0;
    assert Fillable(Buying, b, 3.0, 374.0) == 1.496;
    assert Fillable(Buying, c, 1.504, 10000.0) == 1.504;
    assert [375.0, 10000.0][0 := 375.0 - 1.0] == [374.0, 10000.0];
    assert [374.0, 10000.0][0 := 374.0 - 1.496] == [372.504, 10000.0];
    assert [372.504, 10000.0][1 := 10000.0 - 1.504] == [372.504, 9998.496];
    assert SnapshotScan([c], 1.504, [372.504, 10000.0])
      == ScanOutcome([PlannedOrder("ex2", 3, Buy, 1.504, 500.0)], 0.0, [372.504, 9998.496]);
    assert SnapshotScan([b, c], 3.0, [374.0, 10000.0])
      == ScanOutcome([PlannedOrder("ex1", 2, Buy, 1.496, 250.0), PlannedOrder("ex2", 3, Buy, 1.504, 500.0)], 0.0, [372.504, 9998.496]);
    var ps := [PlannedOrder("ex1", 1, Buy, 1.0, 250.0), PlannedOrder("ex1", 2, Buy, 1.496, 250.0), PlannedOrder("ex2", 3, Buy, 1.504, 500.0)];
    assert ps[1..][1..] == [ps[2]] && ps[1..][1..][1..] == [];
  }
}
