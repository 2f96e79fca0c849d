/** Concurrent `CreateOrder` calls that share one idempotency key, interleaved at every call to Redis and
    to the database. */
module Idempotency {
  import opened Common

  datatype Token = Absent | Processing | Done(order: OrderId)

  datatype Answer = Busy | Failed | Replayed(order: OrderId) | Created(order: OrderId)

  // Where one call is.
  datatype Call =
    | Start
    | Checked                      // GET found no key
    | Owner                        // SETNX succeeded
    | Inserted(order: OrderId)     // the order row is there and PENDING
    | Aborted                      // the order row, if any, is CANCELLED again
    | Answered(answer: Answer)

  // `live`: for every order created under the key, whether it has not been cancelled by its own call.
  datatype State = State(token: Token, live: seq<bool>, calls: seq<Call>)

  // `Expire` is the key running out of its lifetime; the others are steps of one call.
  datatype Action = Look | Claim | Refuse | InsertOrder | FailItem | DropKey | Record | Expire

  function With(s: State, i: nat, c: Call): State
    requires i < |s.calls|
  {
    s.(calls := s.calls[i := c])
  }

  function Next(s: State, i: nat, a: Action): State {
    if a.Expire? then s.(token := Absent)
    else if i >= |s.calls| then s
    else match (s.calls[i], a)
      case (Start, Look) =>
        With(s, i, match s.token
                   case Absent => Checked
                   case Processing => Answered(Busy)
                   case Done(o) => Answered(Replayed(o)))
      case (Checked, Claim) =>
        if s.token.Absent? then With(s, i, Owner).(token := Processing) else With(s, i, Answered(Busy))
      // Ticket-type checks, the reservation or the first INSERT fail.
      case (Owner, Refuse) => With(s, i, Aborted)
      case (Owner, InsertOrder) => With(s, i, Inserted(|s.live|)).(live := s.live + [true])
      case (Inserted(o), FailItem) =>
        With(s, i, Aborted).(live := if o < |s.live| then s.live[o := false] else s.live)
      case (Aborted, DropKey) => With(s, i, Answered(Failed)).(token := Absent)
      case (Inserted(o), Record) => With(s, i, Answered(Created(o))).(token := Done(o))
      case _ => s
  }

  type Run = seq<(nat, Action)>

  function Exec(s: State, run: Run): State
    decreases |run|
  {
    if run == [] then s else Exec(Next(s, run[0].0, run[0].1), run[1..])
  }

  // A call between its SETNX and the SET or DEL that ends its ownership.
  predicate Owns(c: Call) {
    c.Owner? || c.Inserted? || c.Aborted?
  }

  predicate HasOrder(c: Call) {
    c.Answered? && (c.answer.Created? || c.answer.Replayed?)
  }

  /** One owner exactly while the key says PROCESSING, and one live order at most: the owner's, or the one
      the key answers with. */
  ghost predicate Inv(s: State) {
    && (forall i, j :: 0 <= i < j < |s.calls| ==> !(Owns(s.calls[i]) && Owns(s.calls[j])))
    && (forall i :: 0 <= i < |s.calls| && Owns(s.calls[i]) ==> s.token.Processing?)
    && (s.token.Processing? ==> exists i :: 0 <= i < |s.calls| && Owns(s.calls[i]))
    && (forall i :: 0 <= i < |s.calls| && s.calls[i].Inserted? ==>
          s.calls[i].order < |s.live| && s.live[s.calls[i].order])
    && (s.token.Done? ==> s.token.order < |s.live| && s.live[s.token.order])
    && (forall o: OrderId :: o < |s.live| && s.live[o] ==>
          s.token == Done(o) || exists i :: 0 <= i < |s.calls| && s.calls[i] == Inserted(o))
    && (forall i :: 0 <= i < |s.calls| && HasOrder(s.calls[i]) ==> s.token == Done(s.calls[i].answer.order))
  }

  // The slot of one call is replaced and every other call is where it was.
  lemma Moved(s: State, i: nat, a: Action)
    requires i < |s.calls| && !a.Expire?
    ensures var s' := Next(s, i, a);
            |s'.calls| == |s.calls| && forall j :: 0 <= j < |s.calls| && j != i ==> s'.calls[j] == s.calls[j]
  {
  }

  // A call that owns nothing moves on, and key and orders stay as they are.
  lemma QuietMove(s: State, i: nat, c: Call)
    requires Inv(s) && i < |s.calls| && !Owns(s.calls[i]) && !Owns(c)
    requires HasOrder(c) ==> s.token == Done(c.answer.order)
    ensures Inv(With(s, i, c))
  {
    var s' := With(s, i, c);
    if s.token.Processing? {
      var k :| 0 <= k < |s.calls| && Owns(s.calls[k]);
      assert Owns(s'.calls[k]);
    }
    forall o: OrderId | o < |s.live| && s.live[o] && s.token != Done(o)
      ensures exists k :: 0 <= k < |s'.calls| && s'.calls[k] == Inserted(o)
    {
      var k :| 0 <= k < |s.calls| && s.calls[k] == Inserted(o);
      assert s'.calls[k] == Inserted(o);
    }
  }

  // A free key has no owner and no live order, so whoever claims it is alone.
  lemma ClaimMove(s: State, i: nat)
    requires Inv(s) && i < |s.calls| && s.token.Absent?
    ensures Inv(With(s, i, Owner).(token := Processing))
  {
    var s' := With(s, i, Owner).(token := Processing);
    assert Owns(s'.calls[i]);
    forall k | 0 <= k < |s.calls| ensures !Owns(s.calls[k]) && !HasOrder(s.calls[k]) {}
  }

  // A step of a call that owns nothing, unless it claims the key, moves only that call.
  lemma VisitorStep(s: State, i: nat, a: Action)
    requires Inv(s) && !a.Expire? && i < |s.calls| && !Owns(s.calls[i])
    ensures Inv(Next(s, i, a))
    ensures !s.token.Absent? ==> Next(s, i, a).token == s.token
  {
    if s.calls[i].Checked? && a.Claim? && s.token.Absent? {
      ClaimMove(s, i);
    } else if s.calls[i].Start? || s.calls[i].Checked? {
      QuietMove(s, i, Next(s, i, a).calls[i]);
      assert With(s, i, s.calls[i]) == s;
    }
  }

  lemma OwnerStep(s: State, i: nat, a: Action)
    requires Inv(s) && !a.Expire? && i < |s.calls| && Owns(s.calls[i])
    ensures Inv(Next(s, i, a))
  {
    var s' := Next(s, i, a);
    Moved(s, i, a);
    assert forall j :: 0 <= j < |s.calls| && j != i ==> !Owns(s.calls[j]);
    assert Owns(s'.calls[i]) || !s'.token.Processing?;
    forall o: OrderId | o < |s'.live| && s'.live[o] && s'.token != Done(o)
      ensures s'.calls[i] == Inserted(o)
    {
      if o < |s.live| && s.live[o] {
        var k :| 0 <= k < |s.calls| && s.calls[k] == Inserted(o);
        assert k == i;
      }
    }
  }

  /** Every step keeps the invariant, and nobody but the owner ever removes or replaces the key. */
  lemma StepKeeps(s: State, i: nat, a: Action)
    requires Inv(s) && !a.Expire?
    ensures Inv(Next(s, i, a))
    ensures Next(s, i, a).token != s.token && !s.token.Absent? ==> i < |s.calls| && Owns(s.calls[i])
  {
    if i < |s.calls| {
      if Owns(s.calls[i]) { OwnerStep(s, i, a); } else { VisitorStep(s, i, a); }
    }
  }

  ghost predicate WithinLifetime(run: Run) {
    forall k :: 0 <= k < |run| ==> !run[k].1.Expire?
  }

  lemma {:induction false} RunKeeps(s: State, run: Run)
    requires Inv(s) && WithinLifetime(run)
    ensures Inv(Exec(s, run))
    decreases |run|
  {
    if run != [] {
      StepKeeps(s, run[0].0, run[0].1);
      RunKeeps(Next(s, run[0].0, run[0].1), run[1..]);
    }
  }

  // Any number of calls, none of which has looked at the key yet.
  function NewKey(n: nat): State {
    State(Absent, [], seq(n, _ => Start))
  }

  /** Any number of calls with one key, in any interleaving within its lifetime: never two owners, never two
      live orders, and every call that is answered with an order is answered with the same live one. */
  lemma AtMostOneOrder(n: nat, run: Run)
    requires WithinLifetime(run)
    ensures var s := Exec(NewKey(n), run);
            && (forall i, j :: 0 <= i < j < |s.calls| ==> !(Owns(s.calls[i]) && Owns(s.calls[j])))
            && (forall o: OrderId, p: OrderId :: o < |s.live| && p < |s.live| && s.live[o] && s.live[p] ==> o == p)
            && (forall i :: 0 <= i < |s.calls| && HasOrder(s.calls[i]) ==>
                  s.token == Done(s.calls[i].answer.order)
                  && s.calls[i].answer.order < |s.live| && s.live[s.calls[i].answer.order])
  {
    assert Inv(NewKey(n));
    RunKeeps(NewKey(n), run);
    var s := Exec(NewKey(n), run);
    forall o: OrderId, p: OrderId | o < |s.live| && p < |s.live| && s.live[o] && s.live[p] ensures o == p {
      OneLiveOrder(s, o, p);
    }
  }

  lemma OneLiveOrder(s: State, o: OrderId, p: OrderId)
    requires Inv(s) && o < |s.live| && p < |s.live| && s.live[o] && s.live[p]
    ensures o == p
  {
  }

  // ---- one call alone ----

  function Calling(i: nat, actions: seq<Action>): (run: Run)
    ensures |run| == |actions|
  {
    seq(|actions|, k requires 0 <= k < |actions| => (i, actions[k]))
  }

  lemma CallOn(s: State, i: nat, first: Action, rest: seq<Action>)
    ensures Exec(s, Calling(i, [first] + rest)) == Exec(Next(s, i, first), Calling(i, rest))
  {
    assert Calling(i, [first] + rest)[1..] == Calling(i, rest);
  }

  lemma CallFour(s: State, i: nat, a: Action, b: Action, c: Action, d: Action)
    ensures Exec(s, Calling(i, [a, b, c, d])) == Next(Next(Next(Next(s, i, a), i, b), i, c), i, d)
  {
    CallOn(s, i, a, [b, c, d]);
    CallOn(Next(s, i, a), i, b, [c, d]);
    CallOn(Next(Next(s, i, a), i, b), i, c, [d]);
    CallOn(Next(Next(Next(s, i, a), i, b), i, c), i, d, []);
    assert [a] + [b, c, d] == [a, b, c, d] && [b] + [c, d] == [b, c, d] && [c] + [d] == [c, d] && [d] + [] == [d];
  }

  lemma ClaimAlone(s: State, i: nat)
    requires i < |s.calls| && s.calls[i].Start? && s.token.Absent?
    ensures Next(Next(s, i, Look), i, Claim) == With(s, i, Owner).(token := Processing)
  {
    var s1 := Next(s, i, Look);
    assert s1 == With(s, i, Checked);
    assert s.calls[i := Checked][i := Owner] == s.calls[i := Owner];
  }

  lemma OwnerCreates(s: State, i: nat)
    requires i < |s.calls| && s.calls[i].Owner?
    ensures Next(Next(s, i, InsertOrder), i, Record) ==
            State(Done(|s.live|), s.live + [true], s.calls[i := Answered(Created(|s.live|))])
  {
    var s1 := Next(s, i, InsertOrder);
    assert s1 == State(s.token, s.live + [true], s.calls[i := Inserted(|s.live|)]);
    assert s.calls[i := Inserted(|s.live|)][i := Answered(Created(|s.live|))]
        == s.calls[i := Answered(Created(|s.live|))];
  }

  lemma OwnerRefused(s: State, i: nat)
    requires i < |s.calls| && s.calls[i].Owner?
    ensures Next(Next(s, i, Refuse), i, DropKey) == State(Absent, s.live, s.calls[i := Answered(Failed)])
  {
    var s1 := Next(s, i, Refuse);
    assert s1 == With(s, i, Aborted);
    assert s.calls[i := Aborted][i := Answered(Failed)] == s.calls[i := Answered(Failed)];
  }

  lemma OwnerFails(s: State, i: nat)
    requires i < |s.calls| && s.calls[i].Owner?
    ensures Next(Next(Next(s, i, InsertOrder), i, FailItem), i, DropKey) ==
            State(Absent, s.live + [false], s.calls[i := Answered(Failed)])
  {
    var s1 := Next(s, i, InsertOrder);
    var s2 := Next(s1, i, FailItem);
    assert s1 == State(s.token, s.live + [true], s.calls[i := Inserted(|s.live|)]);
    assert (s.live + [true])[|s.live| := false] == s.live + [false];
    assert s.calls[i := Inserted(|s.live|)][i := Aborted] == s.calls[i := Aborted];
    assert s2 == State(s.token, s.live + [false], s.calls[i := Aborted]);
    assert s.calls[i := Aborted][i := Answered(Failed)] == s.calls[i := Answered(Failed)];
  }

  lemma OwnerAnswered(s: State, i: nat, c: Call)
    requires i < |s.calls|
    ensures With(s, i, Owner).calls[i := c] == s.calls[i := c]
  {
  }

  /** A call that finds a free key and is not disturbed creates one order, answers with it and records it. */
  lemma AloneCreates(s: State, i: nat)
    requires i < |s.calls| && s.calls[i].Start? && s.token.Absent?
    ensures Exec(s, Calling(i, [Look, Claim, InsertOrder, Record])) ==
            State(Done(|s.live|), s.live + [true], s.calls[i := Answered(Created(|s.live|))])
  {
    CallFour(s, i, Look, Claim, InsertOrder, Record);
    ClaimAlone(s, i);
    OwnerCreates(With(s, i, Owner).(token := Processing), i);
    OwnerAnswered(s, i, Answered(Created(|s.live|)));
  }

  /** If it is refused on the way, it leaves everything as it was and the key free. */
  lemma AloneRefused(s: State, i: nat)
    requires i < |s.calls| && s.calls[i].Start? && s.token.Absent?
    ensures Exec(s, Calling(i, [Look, Claim, Refuse, DropKey])) == s.(calls := s.calls[i := Answered(Failed)])
  {
    CallFour(s, i, Look, Claim, Refuse, DropKey);
    ClaimAlone(s, i);
    OwnerRefused(With(s, i, Owner).(token := Processing), i);
    OwnerAnswered(s, i, Answered(Failed));
  }

  /** If its item cannot be inserted, the order it leaves is cancelled and the key is free. */
  lemma AloneFails(s: State, i: nat)
    requires i < |s.calls| && s.calls[i].Start? && s.token.Absent?
    ensures Exec(s, Calling(i, [Look, Claim, InsertOrder, FailItem, DropKey])) ==
            State(Absent, s.live + [false], s.calls[i := Answered(Failed)])
  {
    var rest := [Claim, InsertOrder, FailItem, DropKey];
    CallOn(s, i, Look, rest);
    CallFour(Next(s, i, Look), i, Claim, InsertOrder, FailItem, DropKey);
    assert [Look] + rest == [Look, Claim, InsertOrder, FailItem, DropKey];
    ClaimAlone(s, i);
    OwnerFails(With(s, i, Owner).(token := Processing), i);
    OwnerAnswered(s, i, Answered(Failed));
  }

  /** A call that meets a used key ends there: it is given the recorded order or told to wait, and told to wait
      in any case if it had found no key before. */
  lemma LateCallEnds(s: State, i: nat)
    requires i < |s.calls| && !s.token.Absent?
    ensures s.calls[i].Start? ==>
              var answer := if s.token == Processing then Busy else Replayed(s.token.order);
              Next(s, i, Look) == s.(calls := s.calls[i := Answered(answer)])
    ensures s.calls[i].Checked? ==> Next(s, i, Claim) == s.(calls := s.calls[i := Answered(Busy)])
  {
  }

  /** The end of a key's lifetime keeps the protocol exactly when the key is not in use: it forgets an order
      that is answered, as much as an owner at work. */
  lemma ExpiryKeepsIff(s: State, i: nat)
    requires Inv(s)
    ensures Inv(Next(s, i, Expire)) <==> s.token.Absent?
  {
    var s' := Next(s, i, Expire);
    if s.token.Done? {
      assert forall k :: 0 <= k < |s.calls| ==> !Owns(s.calls[k]);
      assert s'.live[s.token.order];
    }
  }

  /** If PROCESSING runs out while its owner still works, a second call becomes an owner too and creates a
      second order. */
  lemma ExpiryBreaksIt()
    ensures var s := State(Processing, [true], [Inserted(0), Checked]);
            Inv(s)
    ensures var s := State(Processing, [true], [Inserted(0), Checked]);
            var s' := Next(Next(Next(s, 0, Expire), 1, Claim), 1, InsertOrder);
            s'.calls == [Inserted(0), Inserted(1)] && s'.live == [true, true]
  {
    var s := State(Processing, [true], [Inserted(0), Checked]);
    assert Owns(s.calls[0]) && s.calls[0] == Inserted(0);
    var s1 := Next(s, 0, Expire);
    var s2 := Next(s1, 1, Claim);
    assert s1 == State(Absent, [true], [Inserted(0), Checked]);
    assert s2 == State(Processing, [true], [Inserted(0), Owner]);
  }
}
