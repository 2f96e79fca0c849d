/** The withdrawal ledger, in exact arithmetic: amounts are stored in cents, requests and revenue are not. */
module Withdrawals {
  import opened Common

  datatype Status = Pending | Approved | Paid | Rejected

  datatype Withdrawal = Withdrawal(organizer: UserId, cents: int, status: Status)

  datatype Error = InvalidAmount | InsufficientBalance | NotFound

  const MINIMUM: real := 10000.0

  // `GetPlatformFeePercent`.
  function FeePercent(configured: real): real {
    if configured <= 0.0 then 5.0 else configured
  }

  function NetRevenue(gross: real, configured: real): (net: real)
    ensures net >= 0.0
  {
    var fee := gross * (FeePercent(configured) / 100.0);
    if gross - fee < 0.0 then 0.0 else gross - fee
  }

  // `%.2f`: the nearest cent, ties to the even one.
  function Cents(amount: real): (cents: int)
    ensures amount * 100.0 - 0.5 <= cents as real <= amount * 100.0 + 0.5
  {
    var floor := (amount * 100.0).Floor;
    var rest := amount * 100.0 - floor as real;
    if rest < 0.5 || (rest == 0.5 && floor % 2 == 0) then floor else floor + 1
  }

  predicate Deducts(status: Status) {
    !status.Rejected?
  }

  // SUM over the organizer's PENDING, APPROVED and PAID withdrawals.
  function Deducted(table: seq<Withdrawal>, organizer: UserId): int {
    if table == [] then 0
    else
      var w := table[|table| - 1];
      Deducted(table[..|table| - 1], organizer) + (if w.organizer == organizer && Deducts(w.status) then w.cents else 0)
  }

  function AvailableBalance(table: seq<Withdrawal>, organizer: UserId, gross: real, configured: real): (available: real)
    ensures available >= 0.0
  {
    var left := NetRevenue(gross, configured) - Deducted(table, organizer) as real / 100.0;
    if left < 0.0 then 0.0 else left
  }

  // `RequestWithdrawal`.
  function Request(table: seq<Withdrawal>, organizer: UserId, amount: real, gross: real, configured: real)
    : (seq<Withdrawal>, Option<Error>)
  {
    if amount < MINIMUM then (table, Some(InvalidAmount))
    else if amount > AvailableBalance(table, organizer, gross, configured) then (table, Some(InsufficientBalance))
    else (table + [Withdrawal(organizer, Cents(amount), Pending)], None)
  }

  // `AdminUpdateWithdrawalStatus`.
  function Decide(table: seq<Withdrawal>, id: nat, status: Status): (seq<Withdrawal>, Option<Error>) {
    if id >= |table| then (table, Some(NotFound))
    else (table[id := table[id].(status := status)], None)
  }

  class WithdrawalService {
    var table: seq<Withdrawal>
    var configuredFee: real

    constructor (fee: real)
      ensures table == [] && configuredFee == fee
    {
      table, configuredFee := [], fee;
    }

    // GetWithdrawnSummaryByOrganizer: one pass over the rows.
    method WithdrawnSummary(organizer: UserId) returns (deducted: int)
      ensures deducted == Deducted(table, organizer)
    {
      deducted := 0;
      for i := 0 to |table|
        invariant deducted == Deducted(table[..i], organizer)
      {
        if table[i].organizer == organizer && !table[i].status.Rejected? { deducted := deducted + table[i].cents; }
        assert table[..i + 1][..i] == table[..i];
      }
      assert table[..|table|] == table;
    }

    method RequestWithdrawal(organizer: UserId, amount: real, gross: real) returns (error: Option<Error>)
      modifies this`table
      ensures (table, error) == Request(old(table), organizer, amount, gross, configuredFee)
    {
      if amount < MINIMUM { return Some(InvalidAmount); }
      var fee := FeePercent(configuredFee);
      var net := gross - gross * (fee / 100.0);
      if net < 0.0 { net := 0.0; }
      assert net == NetRevenue(gross, configuredFee);
      var deducted := WithdrawnSummary(organizer);
      var available := net - deducted as real / 100.0;
      if available < 0.0 { available := 0.0; }
      assert available == AvailableBalance(table, organizer, gross, configuredFee);
      if amount > available { return Some(InsufficientBalance); }
      table := table + [Withdrawal(organizer, Cents(amount), Pending)];
      return None;
    }

    method AdminUpdateWithdrawalStatus(id: nat, status: Status) returns (error: Option<Error>)
      modifies this`table
      ensures (table, error) == Decide(old(table), id, status)
    {
      if id >= |table| { return Some(NotFound); }
      table := table[id := table[id].(status := status)];
      return None;
    }
  }

  // ---- the bound ----

  /** No organizer's live withdrawals exceed net revenue by more than half a cent. */
  ghost predicate Covered(table: seq<Withdrawal>, organizer: UserId, net: real) {
    Deducted(table, organizer) as real <= net * 100.0 + 0.5
  }

  lemma {:induction false} DeductedUpdate(table: seq<Withdrawal>, id: nat, w: Withdrawal, organizer: UserId)
    requires id < |table|
    ensures Deducted(table[id := w], organizer) == Deducted(table, organizer)
              - (if table[id].organizer == organizer && Deducts(table[id].status) then table[id].cents else 0)
              + (if w.organizer == organizer && Deducts(w.status) then w.cents else 0)
  {
    var last := |table| - 1;
    if id < last {
      assert table[id := w][..last] == table[..last][id := w];
      DeductedUpdate(table[..last], id, w, organizer);
    } else {
      assert table[id := w][..last] == table[..last];
    }
  }

  lemma MoreGrossMoreNet(gross: real, gross': real, configured: real)
    requires 0.0 <= gross <= gross'
    ensures NetRevenue(gross, configured) <= NetRevenue(gross', configured)
  {
    Kept(gross, gross', FeePercent(configured) / 100.0);
  }

  // What is left after a share of `f` grows with the whole, or is nothing at all.
  lemma Kept(x: real, y: real, f: real)
    requires 0.0 <= x <= y
    ensures x - x * f <= y - y * f || x - x * f <= 0.0
  {
    if f <= 1.0 {
      assert (y - x) * (1.0 - f) >= 0.0;
      assert (y - x) * (1.0 - f) == (y - y * f) - (x - x * f);
    } else {
      assert x * (f - 1.0) >= 0.0;
      assert x * (f - 1.0) == x * f - x;
    }
  }

  /** A granted request exceeds the balance it was checked against by the rounding of this one request at
      most, whatever earlier roundings left. */
  lemma RequestKeeps(table: seq<Withdrawal>, o: UserId, organizer: UserId, amount: real, gross: real, configured: real)
    requires Covered(table, organizer, NetRevenue(gross, configured))
    ensures Covered(Request(table, o, amount, gross, configured).0, organizer, NetRevenue(gross, configured))
  {
    var (table', error) := Request(table, o, amount, gross, configured);
    if error.None? {
      assert table'[..|table|] == table;
      if o == organizer {
        assert amount <= NetRevenue(gross, configured) - Deducted(table, organizer) as real / 100.0;
      }
    }
  }

  /** A request is granted exactly when it reaches the minimum and, with all live withdrawals, stays within
      net revenue; it then adds its stored amount to what is deducted for this organizer and nobody else. */
  lemma GrantedIff(table: seq<Withdrawal>, o: UserId, organizer: UserId,
      amount: real, gross: real, configured: real)
    ensures var (table', error) := Request(table, o, amount, gross, configured);
            && (error.None? <==> MINIMUM <= amount
                                 && Deducted(table, o) as real + amount * 100.0
                                    <= NetRevenue(gross, configured) * 100.0)
            && (error.Some? ==> table' == table)
            && Deducted(table', organizer)
               == Deducted(table, organizer) + (if error.None? && o == organizer then Cents(amount) else 0)
  {
    var (table', error) := Request(table, o, amount, gross, configured);
    if error.None? { assert table'[..|table|] == table; }
  }

  /** The answer to a request and what it stores: too little, too much, or one more PENDING withdrawal of the
      asking organizer behind all the others. */
  lemma RequestAnswer(table: seq<Withdrawal>, o: UserId, amount: real, gross: real, configured: real)
    ensures var (table', error) := Request(table, o, amount, gross, configured);
            var covered := Deducted(table, o) as real + amount * 100.0 <= NetRevenue(gross, configured) * 100.0;
            && (error == Some(InvalidAmount) <==> amount < 10000.0)
            && (error == Some(InsufficientBalance) <==> amount >= 10000.0 && !covered)
            && (error == None <==> amount >= 10000.0 && covered)
            && table' == if error == None then table + [Withdrawal(o, Cents(amount), Pending)] else table
  {
  }

  /** Of a share of 5 percent, or the configured one if it is positive, the rest is left to the organizer. */
  lemma NetOf(gross: real, configured: real)
    requires gross >= 0.0
    ensures var percent := if configured > 0.0 then configured else 5.0;
            NetRevenue(gross, configured) * 100.0 == if percent <= 100.0 then gross * (100.0 - percent) else 0.0
  {
    var percent := FeePercent(configured);
    assert gross * (percent / 100.0) == gross * percent / 100.0;
    if percent <= 100.0 {
      assert gross * (100.0 - percent) >= 0.0;
    } else {
      assert gross * (percent - 100.0) >= 0.0;
    }
  }

  /** What is stored is the nearest cent: the amount itself if it has two decimals, and of two cents that are
      equally near the even one. */
  lemma NearestCent(amount: real, k: int)
    ensures amount * 100.0 == k as real ==> Cents(amount) == k
    ensures amount * 100.0 == k as real + 0.5 ==> Cents(amount) == if k % 2 == 0 then k else k + 1
    ensures k as real - 0.5 < amount * 100.0 < k as real + 0.5 ==> Cents(amount) == k
  {
  }

  /** A decision stores its status in that one withdrawal, whatever it was before, and touches nothing else of
      it and no other. */
  lemma DecisionStores(table: seq<Withdrawal>, id: nat, status: Status)
    ensures var (table', error) := Decide(table, id, status);
            && (error == Some(NotFound) <==> id >= |table|) && (error == None <==> id < |table|)
            && |table'| == |table|
            && forall i :: 0 <= i < |table| ==>
                 table'[i] == Withdrawal(table[i].organizer, table[i].cents,
                                         if i == id then status else table[i].status)
  {
  }

  /** A decision that takes a withdrawal out of REJECTED. */
  predicate Revives(table: seq<Withdrawal>, id: nat, status: Status) {
    id < |table| && table[id].status.Rejected? && !status.Rejected?
  }

  /** A decision raises an organizer's deductions exactly when it takes that organizer's withdrawal out of
      REJECTED; nothing checks the balance then. */
  lemma DecisionRaisesIff(table: seq<Withdrawal>, id: nat, status: Status, organizer: UserId)
    requires forall i :: 0 <= i < |table| ==> table[i].cents > 0
    ensures Deducted(Decide(table, id, status).0, organizer) > Deducted(table, organizer)
            <==> Revives(table, id, status) && table[id].organizer == organizer
  {
    if id < |table| { DeductedUpdate(table, id, table[id].(status := status), organizer); }
  }

  /** A decision keeps the half-cent bound of an organizer if and only if it revives none of that organizer's
      withdrawals, or one that the balance before the decision covers up to the half cent. */
  lemma DecisionCoveredIff(table: seq<Withdrawal>, id: nat, status: Status, organizer: UserId,
      gross: real, configured: real)
    requires forall i :: 0 <= i < |table| ==> table[i].cents > 0
    requires Covered(table, organizer, NetRevenue(gross, configured))
    ensures Covered(Decide(table, id, status).0, organizer, NetRevenue(gross, configured)) <==>
            (Revives(table, id, status) && table[id].organizer == organizer ==>
               table[id].cents as real / 100.0 <= AvailableBalance(table, organizer, gross, configured) + 0.005)
  {
    if id < |table| { DeductedUpdate(table, id, table[id].(status := status), organizer); }
  }

  // The platform's life: revenue comes in per organizer, requests and decisions come one after another.
  datatype Step =
    | Earn(organizer: UserId, amount: real)
    | Ask(organizer: UserId, amount: real)
    | Rule(id: nat, status: Status)

  datatype Books = Books(table: seq<Withdrawal>, gross: map<UserId, real>)

  function Gross(b: Books, organizer: UserId): real {
    if organizer in b.gross then b.gross[organizer] else 0.0
  }

  function Next(b: Books, step: Step, configured: real): Books {
    match step
    case Earn(o, amount) =>
      if amount > 0.0 then b.(gross := b.gross[o := Gross(b, o) + amount]) else b
    case Ask(o, amount) => b.(table := Request(b.table, o, amount, Gross(b, o), configured).0)
    case Rule(id, status) => b.(table := Decide(b.table, id, status).0)
  }

  /** Revenue is what has come in for an organizer; requests and decisions do not touch it. */
  lemma GrossAfter(b: Books, step: Step, configured: real, o: UserId)
    ensures Gross(Next(b, step, configured), o) == Gross(b, o) +
            if step.Earn? && step.organizer == o && step.amount > 0.0 then step.amount else 0.0
  {
  }

  function Exec(b: Books, run: seq<Step>, configured: real): Books
    decreases |run|
  {
    if run == [] then b else Exec(Next(b, run[0], configured), run[1..], configured)
  }

  /** Every decision of the run that takes a withdrawal out of REJECTED finds it covered by the balance. */
  ghost predicate RevivesCovered(b: Books, run: seq<Step>, configured: real)
    decreases |run|
  {
    run == [] || (StepCovered(b, run[0], configured)
                  && RevivesCovered(Next(b, run[0], configured), run[1..], configured))
  }

  predicate StepCovered(b: Books, step: Step, configured: real) {
    step.Rule? && Revives(b.table, step.id, step.status) ==>
      var w := b.table[step.id];
      w.cents as real / 100.0 <= AvailableBalance(b.table, w.organizer, Gross(b, w.organizer), configured) + 0.005
  }

  ghost predicate Sound(b: Books, configured: real) {
    && (forall i :: 0 <= i < |b.table| ==> b.table[i].cents > 0)
    && (forall o: UserId :: Gross(b, o) >= 0.0 && Covered(b.table, o, NetRevenue(Gross(b, o), configured)))
  }

  lemma StepSoundFor(b: Books, step: Step, o: UserId, configured: real)
    requires Sound(b, configured)
    ensures var b' := Next(b, step, configured);
            && Gross(b', o) >= 0.0
            && (Covered(b'.table, o, NetRevenue(Gross(b', o), configured)) <==>
                (step.Rule? && Revives(b.table, step.id, step.status) && b.table[step.id].organizer == o
                 ==> StepCovered(b, step, configured)))
  {
    var b' := Next(b, step, configured);
    assert Gross(b, o) >= 0.0 && Covered(b.table, o, NetRevenue(Gross(b, o), configured));
    match step
    case Earn(p, amount) => MoreGrossMoreNet(Gross(b, o), Gross(b', o), configured);
    case Ask(p, amount) =>
      if p == o { RequestKeeps(b.table, p, o, amount, Gross(b, o), configured); }
      else { assert b'.table != b.table ==> b'.table[..|b.table|] == b.table; }
    case Rule(id, status) => DecisionCoveredIff(b.table, id, status, o, Gross(b, o), configured);
  }

  /** A step keeps every organizer's bound if and only if it revives no withdrawal that the balance before
      it does not cover. */
  lemma StepSound(b: Books, step: Step, configured: real)
    requires Sound(b, configured)
    ensures Sound(Next(b, step, configured), configured) <==> StepCovered(b, step, configured)
  {
    var b' := Next(b, step, configured);
    forall o: UserId { StepSoundFor(b, step, o, configured); }
    if step.Rule? && Revives(b.table, step.id, step.status) {
      var o := b.table[step.id].organizer;
      assert Sound(b', configured) ==> Covered(b'.table, o, NetRevenue(Gross(b', o), configured));
    }
  }

  /** Rounding does not accumulate: over any run in which no withdrawal leaves REJECTED unless the balance
      covers it, PENDING, APPROVED and PAID withdrawals together never exceed net revenue by more than half a
      cent. */
  lemma {:induction false} NeverOverdrawn(b: Books, run: seq<Step>, configured: real)
    requires Sound(b, configured) && RevivesCovered(b, run, configured)
    ensures forall o: UserId :: var end := Exec(b, run, configured);
              Deducted(end.table, o) as real / 100.0 <= NetRevenue(Gross(end, o), configured) + 0.005
    decreases |run|
  {
    if run == [] {
      forall o: UserId ensures Deducted(b.table, o) as real / 100.0 <= NetRevenue(Gross(b, o), configured) + 0.005 {
        assert Covered(b.table, o, NetRevenue(Gross(b, o), configured));
      }
    } else {
      StepSound(b, run[0], configured);
      NeverOverdrawn(Next(b, run[0], configured), run[1..], configured);
    }
  }

  lemma EmptyBooksSound(configured: real)
    ensures Sound(Books([], map[]), configured)
  {
  }

  /** In particular over any such run of the platform from its start. */
  lemma NeverOverdrawnFromStart(run: seq<Step>, configured: real)
    requires RevivesCovered(Books([], map[]), run, configured)
    ensures forall o: UserId :: var end := Exec(Books([], map[]), run, configured);
              Deducted(end.table, o) as real / 100.0 <= NetRevenue(Gross(end, o), configured) + 0.005
  {
    EmptyBooksSound(configured);
    NeverOverdrawn(Books([], map[]), run, configured);
  }

  /** The half cent is reached: net revenue 10000.015 is granted as 10000.02. */
  lemma HalfCentIsTight()
    ensures NetRevenue(20000.03, 50.0) == 10000.015
    ensures Request([], 1, 10000.015, 20000.03, 50.0) == ([Withdrawal(1, 1000002, Pending)], None)
  {
    assert 20000.03 * (50.0 / 100.0) == 10000.015;
    assert 10000.015 * 100.0 == 1000001.5;
    assert (1000001.5 as real).Floor == 1000001;
    assert Cents(10000.015) == 1000002;
    assert AvailableBalance([], 1, 20000.03, 50.0) == 10000.015;
    assert [] + [Withdrawal(1, 1000002, Pending)] == [Withdrawal(1, 1000002, Pending)];
  }

  /** A rejected request is granted again from elsewhere and then revived: twice the net revenue is due. */
  lemma RevivalOverdraws()
    ensures var b := Books([Withdrawal(1, 1000000, Rejected)], map[1 := 20000.0]);
            && Sound(b, 50.0)
            && var run := [Ask(1, 10000.0), Rule(0, Approved)];
               Deducted(Exec(b, run, 50.0).table, 1) == 2000000 && NetRevenue(20000.0, 50.0) == 10000.0
  {
    var b := Books([Withdrawal(1, 1000000, Rejected)], map[1 := 20000.0]);
    assert 20000.0 * (50.0 / 100.0) == 10000.0;
    assert (10000.0 * 100.0).Floor == 1000000;
    assert b.table[..0] == [];
    assert forall o: UserId :: Deducted(b.table, o) == 0;
    var b1 := Next(b, Ask(1, 10000.0), 50.0);
    assert b1.table == [Withdrawal(1, 1000000, Rejected), Withdrawal(1, 1000000, Pending)];
    var b2 := Next(b1, Rule(0, Approved), 50.0);
    assert b2.table == [Withdrawal(1, 1000000, Approved), Withdrawal(1, 1000000, Pending)];
    assert b2.table[..1] == [Withdrawal(1, 1000000, Approved)] && b2.table[..1][..0] == [];
    var run := [Ask(1, 10000.0), Rule(0, Approved)];
    assert run[1..] == [Rule(0, Approved)] && run[1..][1..] == [];
    assert Exec(b, run, 50.0) == Exec(b1, run[1..], 50.0) == Exec(b2, [], 50.0);
  }
}
