/** `ReserveTicketStock` and `ReleaseTicketStock` of one ticket type, run by any number of callers in any number
    of processes and interleaved at every call to Redis and to event-service. */
module ReserveRace {
  import opened Common
  import Inventory

  // Where one caller is.
  datatype Caller =
    | Idle
    | Missed(n: Quantity)                 // the first script found no key
    | Loaded(n: Quantity, avail: nat)     // the row was read, the key is not yet written
    | Joined(n: Quantity)                 // waits for the result of another caller's load
    | Again(n: Quantity)                  // the key was written, the script is tried once more
    | Taken(n: Quantity)                  // the script took the stock, the row is not yet incremented
    | Holding(n: Quantity)                // reserved
    | Returning(n: Quantity)              // the script gave the stock back, the row is not yet decremented

  // `process`: where each caller runs; `loading`: the processes whose single flight has a load under way.
  datatype State = State(
    counter: Option<int>, quantity: nat, sold: nat, process: seq<nat>, loading: set<nat>, callers: seq<Caller>)

  datatype Action = Reserve(n: Quantity) | Read | Join | Store | Retry | Book | GiveBack | Unbook

  function With(s: State, i: nat, c: Caller): State
    requires i < |s.callers|
  {
    s.(callers := s.callers[i := c])
  }

  // Both tries of `reserveStockLua`: where the caller goes when the key is there.
  function Script(s: State, i: nat, n: Quantity): State
    requires i < |s.callers| && s.counter.Some?
  {
    if s.counter.value >= n then With(s, i, Taken(n)).(counter := Some(s.counter.value - n))
    else With(s, i, Idle)
  }

  function ProcessOf(s: State, i: nat): nat {
    if i < |s.process| then s.process[i] else 0
  }

  // What the row has left.
  function Left(s: State): nat {
    if s.quantity < s.sold then 0 else s.quantity - s.sold
  }

  // A load ends: its number goes to the caller that ran it and to all that joined it in the same process.
  function Wake(c: Caller, avail: nat): Caller {
    if c.Loaded? || c.Joined? then (if avail < c.n then Idle else Again(c.n)) else c
  }

  function Woken(s: State, p: nat, avail: nat): (callers: seq<Caller>)
    ensures |callers| == |s.callers|
    ensures forall k :: 0 <= k < |callers| ==>
              callers[k] == if ProcessOf(s, k) == p then Wake(s.callers[k], avail) else s.callers[k]
  {
    seq(|s.callers|, k requires 0 <= k < |s.callers| =>
      if ProcessOf(s, k) == p then Wake(s.callers[k], avail) else s.callers[k])
  }

  // One atomic call of one caller; a call that is not its turn changes nothing.
  function Next(s: State, i: nat, a: Action): State {
    if i >= |s.callers| then s
    else match (s.callers[i], a)
      case (Idle, Reserve(n)) => if s.counter.None? then With(s, i, Missed(n)) else Script(s, i, n)
      // The single flight of a process: one load at a time, shared by those who come meanwhile.
      case (Missed(n), Read) =>
        if ProcessOf(s, i) in s.loading then s
        else With(s, i, Loaded(n, Left(s))).(loading := s.loading + {ProcessOf(s, i)})
      case (Missed(n), Join) => if ProcessOf(s, i) in s.loading then With(s, i, Joined(n)) else s
      case (Loaded(_, avail), Store) =>
        var p := ProcessOf(s, i);
        s.(counter := Some(avail), loading := s.loading - {p}, callers := Woken(s, p, avail))
      case (Again(n), Retry) => if s.counter.None? then With(s, i, Idle) else Script(s, i, n)
      // The guarded increment, whose failure is ignored.
      case (Taken(n), Book) =>
        With(s, i, Holding(n)).(sold := if s.quantity - s.sold >= n then s.sold + n else s.sold)
      case (Holding(n), GiveBack) =>
        With(s, i, Returning(n)).(counter := if s.counter.Some? then Some(s.counter.value + n) else None)
      case (Returning(n), Unbook) => With(s, i, Idle).(sold := if s.sold >= n then s.sold - n else s.sold)
      case _ => s
  }

  type Run = seq<(nat, Action)>

  function Exec(s: State, run: Run): State
    decreases |run|
  {
    if run == [] then s else Exec(Next(s, run[0].0, run[0].1), run[1..])
  }

  datatype Kind = Out | Unbooked | Unreturned

  function Weight(k: Kind, c: Caller): nat {
    match (k, c)
    case (Out, Taken(n)) => n
    case (Out, Holding(n)) => n
    case (Unbooked, Taken(n)) => n
    case (Unreturned, Returning(n)) => n
    case _ => 0
  }

  function Sum(k: Kind, callers: seq<Caller>): nat {
    if callers == [] then 0 else Sum(k, callers[..|callers| - 1]) + Weight(k, callers[|callers| - 1])
  }

  lemma {:induction false} SumUpdate(k: Kind, callers: seq<Caller>, i: nat, c: Caller)
    requires i < |callers|
    ensures Sum(k, callers[i := c]) == Sum(k, callers) - Weight(k, callers[i]) + Weight(k, c)
    ensures Weight(k, callers[i]) <= Sum(k, callers)
  {
    var last := |callers| - 1;
    if i < last {
      assert callers[i := c][..last] == callers[..last][i := c];
      SumUpdate(k, callers[..last], i, c);
    } else {
      assert callers[i := c][..last] == callers[..last];
    }
  }

  /** The key is there, holds no negative stock, and nobody is on the load path. */
  ghost predicate Warm(s: State) {
    && s.counter.Some? && s.counter.value >= 0
    && forall i :: 0 <= i < |s.callers| ==>
         !s.callers[i].Missed? && !s.callers[i].Loaded? && !s.callers[i].Joined? && !s.callers[i].Again?
  }

  lemma WarmStep(s: State, i: nat, a: Action)
    requires Warm(s)
    ensures var s' := Next(s, i, a);
            Warm(s') && s'.counter.value + Sum(Out, s'.callers) == s.counter.value + Sum(Out, s.callers)
  {
    if i < |s.callers| {
      var c := s.callers[i];
      var s' := Next(s, i, a);
      SumUpdate(Out, s.callers, i, s'.callers[i]);
      assert s'.callers == s.callers[i := s'.callers[i]];
    }
  }

  /** Under every interleaving from a pre-warmed key: the key stays, is never loaded over, never goes
      negative, and what was taken out is what is missing from it. */
  lemma {:induction false} WarmKeyConserves(s: State, run: Run)
    requires Warm(s)
    ensures var s' := Exec(s, run);
            Warm(s') && s'.counter.value + Sum(Out, s'.callers) == s.counter.value + Sum(Out, s.callers)
    decreases |run|
  {
    if run != [] {
      WarmStep(s, run[0].0, run[0].1);
      WarmKeyConserves(Next(s, run[0].0, run[0].1), run[1..]);
    }
  }

  /** From a key warmed to the whole quota, reservations in hand never exceed the quota. */
  lemma WarmKeyNeverOversells(s: State, run: Run)
    requires Warm(s) && s.counter.value + Sum(Out, s.callers) <= s.quantity
    ensures Sum(Out, Exec(s, run).callers) <= s.quantity
  {
    WarmKeyConserves(s, run);
  }

  /** What is in hand and what the key still offers stay within the quota. */
  ghost predicate Safe(s: State) {
    && Sum(Out, s.callers) <= s.quantity
    && (s.counter.Some? ==> 0 <= s.counter.value && s.counter.value + Sum(Out, s.callers) <= s.quantity)
  }

  /** A load is under way in some process. */
  predicate Loading(s: State) {
    exists k | 0 <= k < |s.callers| :: s.callers[k].Loaded?
  }

  /** A caller that missed the key reads the row although the key is there by now, or although another process
      is loading it already. */
  predicate LateRead(s: State, i: nat, a: Action) {
    && i < |s.callers| && s.callers[i].Missed? && a.Read? && ProcessOf(s, i) !in s.loading
    && (s.counter.Some? || Loading(s))
  }

  /** While the key is missing, at most one load is under way, the row counts what is out, and the number
      the load brings leaves room for it; once the key is there, nobody loads. */
  ghost predicate LoadsSound(s: State) {
    && Safe(s)
    && (s.counter.None? ==> Sum(Out, s.callers) + Sum(Unreturned, s.callers) <= s.sold)
    && (forall i :: 0 <= i < |s.callers| && s.callers[i].Loaded? ==>
          s.counter.None? && s.callers[i].avail + Sum(Out, s.callers) <= s.quantity)
    && (forall i, j :: 0 <= i < j < |s.callers| ==> !(s.callers[i].Loaded? && s.callers[j].Loaded?))
  }

  lemma {:induction false} SumWoken(callers: seq<Caller>, woken: seq<Caller>, avail: nat)
    requires |woken| == |callers|
    requires forall k :: 0 <= k < |callers| ==> woken[k] == callers[k] || woken[k] == Wake(callers[k], avail)
    ensures Sum(Out, woken) == Sum(Out, callers)
  {
    if callers != [] { SumWoken(callers[..|callers| - 1], woken[..|callers| - 1], avail); }
  }

  // Every call but a store moves one caller.
  lemma OneCallerMoves(s: State, i: nat, a: Action)
    requires i < |s.callers| && !(s.callers[i].Loaded? && a.Store?)
    ensures var s' := Next(s, i, a);
            && |s'.callers| == |s.callers| && s'.callers == s.callers[i := s'.callers[i]]
            && s'.quantity == s.quantity && (s'.counter.Some? <==> s.counter.Some?)
            && (s'.callers[i].Loaded? && !s.callers[i].Loaded? <==>
                  s.callers[i].Missed? && a.Read? && ProcessOf(s, i) !in s.loading)
            && (s'.callers[i].Loaded? && !s.callers[i].Loaded? ==> s'.callers[i].avail == Left(s))
            && (s'.callers[i].Loaded? && s.callers[i].Loaded? ==> s'.callers[i] == s.callers[i])
  {
  }

  // With the key there, it moves stock between that caller and the key.
  lemma StockMoves(s: State, i: nat, a: Action)
    requires i < |s.callers| && !(s.callers[i].Loaded? && a.Store?) && s.counter.Some? && 0 <= s.counter.value
    ensures var s' := Next(s, i, a);
            0 <= s'.counter.value
            && s'.counter.value + Weight(Out, s'.callers[i]) == s.counter.value + Weight(Out, s.callers[i])
  {
  }

  // Without it nobody takes anything, and the row gives up what is given back.
  lemma RowMoves(s: State, i: nat, a: Action)
    requires i < |s.callers| && s.counter.None? && !(s.callers[i].Loaded? && a.Store?)
    requires s.callers[i].Returning? ==> s.callers[i].n <= s.sold
    ensures var s', c, c' := Next(s, i, a), s.callers[i], Next(s, i, a).callers[i];
            && Weight(Out, c') <= Weight(Out, c)
            && Weight(Out, c') + Weight(Unreturned, c') - Weight(Out, c) - Weight(Unreturned, c) <= s'.sold - s.sold
  {
  }

  lemma KeyThereSound(s: State, i: nat, a: Action)
    requires LoadsSound(s) && s.counter.Some? && i < |s.callers| && !(s.callers[i].Loaded? && a.Store?)
    ensures LoadsSound(Next(s, i, a)) <==> !LateRead(s, i, a)
  {
    OneCallerMoves(s, i, a);
    SumUpdate(Out, s.callers, i, Next(s, i, a).callers[i]);
    StockMoves(s, i, a);
  }

  lemma KeyMissingSound(s: State, i: nat, a: Action)
    requires LoadsSound(s) && s.counter.None? && i < |s.callers| && !(s.callers[i].Loaded? && a.Store?)
    ensures LoadsSound(Next(s, i, a)) <==> !LateRead(s, i, a)
  {
    OneCallerMoves(s, i, a);
    SumUpdate(Out, s.callers, i, Next(s, i, a).callers[i]);
    SumUpdate(Unreturned, s.callers, i, Next(s, i, a).callers[i]);
    RowMoves(s, i, a);
    if LateRead(s, i, a) {
      var k :| 0 <= k < |s.callers| && s.callers[k].Loaded?;
      assert Next(s, i, a).callers[k].Loaded? && Next(s, i, a).callers[i].Loaded?;
    }
  }

  lemma StoreSound(s: State, i: nat)
    requires LoadsSound(s) && i < |s.callers| && s.callers[i].Loaded?
    ensures LoadsSound(Next(s, i, Store))
  {
    SumWoken(s.callers, Next(s, i, Store).callers, s.callers[i].avail);
  }

  /** The load path stays sound across a call if and only if the call is not a late read. Within one process a
      caller rules that out by looking for the key once more before it reads the row; the single flight does
      not rule it out between processes. */
  lemma LoadsKeptIff(s: State, i: nat, a: Action)
    requires LoadsSound(s)
    ensures LoadsSound(Next(s, i, a)) <==> !LateRead(s, i, a)
  {
    if i < |s.callers| {
      if s.callers[i].Loaded? && a.Store? { StoreSound(s, i); }
      else if s.counter.Some? { KeyThereSound(s, i, a); }
      else { KeyMissingSound(s, i, a); }
    }
  }

  // No call of the run is a late read.
  predicate ReadsEarly(s: State, run: Run)
    decreases |run|
  {
    run == [] || (!LateRead(s, run[0].0, run[0].1) && ReadsEarly(Next(s, run[0].0, run[0].1), run[1..]))
  }

  /** So a key that is missing at first is loaded without overselling, whatever the interleaving and in however
      many processes, as long as nobody reads the row once the key is there or a load is under way. */
  lemma {:induction false} EarlyReadsNeverOversell(s: State, run: Run)
    requires LoadsSound(s) && ReadsEarly(s, run)
    ensures Safe(Exec(s, run))
    decreases |run|
  {
    if run != [] {
      LoadsKeptIff(s, run[0].0, run[0].1);
      EarlyReadsNeverOversell(Next(s, run[0].0, run[0].1), run[1..]);
    }
  }

  // Callers hold what the row counts, nothing is half done, and the key is missing.
  lemma ColdStartIsSound(s: State)
    requires s.counter.None? && s.sold <= s.quantity
    requires Sum(Out, s.callers) + Sum(Unreturned, s.callers) <= s.sold
    requires forall i :: 0 <= i < |s.callers| ==> !s.callers[i].Loaded?
    ensures LoadsSound(s)
  {
  }

  lemma ExecTwo(s: State, a: (nat, Action), b: (nat, Action))
    ensures Exec(s, [a, b]) == Next(Next(s, a.0, a.1), b.0, b.1)
  {
    assert [a, b][1..] == [b];
    assert Exec(Next(s, a.0, a.1), [b]) == Next(Next(s, a.0, a.1), b.0, b.1);
  }

  lemma ExecThree(s: State, a: (nat, Action), b: (nat, Action), c: (nat, Action))
    ensures Exec(s, [a, b, c]) == Next(Next(Next(s, a.0, a.1), b.0, b.1), c.0, c.1)
  {
    assert [a, b, c][1..] == [b, c] && [b, c][1..] == [c];
    assert Exec(Next(Next(s, a.0, a.1), b.0, b.1), [c]) == Next(Next(Next(s, a.0, a.1), b.0, b.1), c.0, c.1);
  }

  // Somebody takes stock, then a load that was under way ends.
  lemma TakeThenStore(s: State, i: nat, j: nat, m: Quantity)
    requires i < |s.callers| && j < |s.callers| && s.callers[i].Loaded? && s.callers[j].Idle?
    requires s.counter.Some? && m <= s.counter.value
    ensures var s' := Next(Next(s, j, Reserve(m)), i, Store);
            s'.counter == Some(s.callers[i].avail) && Sum(Out, s'.callers) == Sum(Out, s.callers) + m
            && s'.quantity == s.quantity
  {
    var s2 := Next(s, j, Reserve(m));
    SumUpdate(Out, s.callers, j, Taken(m));
    SumWoken(s2.callers, Next(s2, i, Store).callers, s.callers[i].avail);
  }

  /** And one late read is enough to oversell, from every state in which the key holds stock and the row
      counts no more than what is out: somebody reserves between the read and the store. */
  lemma LateReadOversells(s: State, i: nat, j: nat, m: Quantity)
    requires i < |s.callers| && j < |s.callers| && LateRead(s, i, Read) && s.callers[j].Idle?
    requires s.counter.Some? && m <= s.counter.value && s.sold <= Sum(Out, s.callers)
    ensures !Safe(Exec(s, [(i, Read), (j, Reserve(m)), (i, Store)]))
  {
    ExecThree(s, (i, Read), (j, Reserve(m)), (i, Store));
    SumUpdate(Out, s.callers, i, Next(s, i, Read).callers[i]);
    TakeThenStore(Next(s, i, Read), i, j, m);
  }

  // Two processes read the row for the same missing key.
  lemma BothRead(s: State, i: nat, k: nat)
    requires i < |s.callers| && k < |s.callers| && i != k && s.callers[i].Missed? && s.callers[k].Missed?
    requires ProcessOf(s, i) != ProcessOf(s, k) && ProcessOf(s, i) !in s.loading && ProcessOf(s, k) !in s.loading
    ensures var s2 := Next(Next(s, i, Read), k, Read);
            && s2 == s.(callers := s2.callers, loading := s2.loading) && |s2.callers| == |s.callers|
            && s2.callers[i] == Loaded(s.callers[i].n, Left(s)) && s2.callers[k] == Loaded(s.callers[k].n, Left(s))
            && (forall x :: 0 <= x < |s.callers| && x != i && x != k ==> s2.callers[x] == s.callers[x])
            && Sum(Out, s2.callers) == Sum(Out, s.callers)
  {
    var s1 := Next(s, i, Read);
    SumUpdate(Out, s.callers, i, Loaded(s.callers[i].n, Left(s)));
    SumUpdate(Out, s1.callers, k, Loaded(s.callers[k].n, Left(s)));
  }

  // One of them stores what it read, and the other is none the wiser.
  lemma OneStores(s: State, i: nat, k: nat, j: nat)
    requires i < |s.callers| && k < |s.callers| && j < |s.callers| && s.callers[i].Loaded? && s.callers[j].Idle?
    requires ProcessOf(s, i) != ProcessOf(s, k)
    ensures var s' := Next(s, i, Store);
            && s'.counter == Some(s.callers[i].avail) && s'.quantity == s.quantity && |s'.callers| == |s.callers|
            && s'.callers[k] == s.callers[k] && s'.callers[j] == Idle && Sum(Out, s'.callers) == Sum(Out, s.callers)
  {
    SumWoken(s.callers, Next(s, i, Store).callers, s.callers[i].avail);
  }

  /** Nor does it take a key that is there: of two processes that miss it, each reads the row before the other
      stores, somebody takes stock from the first store, and the second store puts it back on offer. */
  lemma SecondProcessOversells(s: State, i: nat, k: nat, j: nat, m: Quantity)
    requires i < |s.callers| && k < |s.callers| && j < |s.callers| && i != k && s.callers[j].Idle?
    requires s.counter.None? && s.callers[i].Missed? && s.callers[k].Missed?
    requires ProcessOf(s, i) != ProcessOf(s, k) && ProcessOf(s, i) !in s.loading && ProcessOf(s, k) !in s.loading
    requires m <= Left(s) && s.sold <= Sum(Out, s.callers)
    ensures LateRead(Next(s, i, Read), k, Read)
    ensures !Safe(Exec(s, [(i, Read), (k, Read)] + [(i, Store), (j, Reserve(m)), (k, Store)]))
  {
    var first: Run, second: Run := [(i, Read), (k, Read)], [(i, Store), (j, Reserve(m)), (k, Store)];
    var s2 := Next(Next(s, i, Read), k, Read);
    assert Next(s, i, Read).callers[i].Loaded?;
    BothRead(s, i, k);
    OneStores(s2, i, k, j);
    TakeThenStore(Next(s2, i, Store), k, j, m);
    ExecAppend(s, first, second);
    ExecTwo(s, (i, Read), (k, Read));
    ExecThree(s2, (i, Store), (j, Reserve(m)), (k, Store));
  }

  /** Such a run from a missing key: two callers find none. The second reads the row after the first has taken
      its stock from the key and before it has incremented the row, and writes the old number back: both get
      the whole quota. */
  lemma ColdKeyOversells(n: Quantity)
    ensures var s := State(None, n, 0, [0, 0], {}, [Idle, Idle]);
            var run: Run := [(0, Reserve(n)), (1, Reserve(n)), (0, Read), (0, Store), (0, Retry)]
                            + ([(1, Read), (1, Store), (1, Retry)] + [(0, Book), (1, Book)]);
            Exec(s, run).callers == [Holding(n), Holding(n)]
  {
    var s0 := State(None, n, 0, [0, 0], {}, [Idle, Idle]);
    var s5 := State(Some(0), n, 0, [0, 0], {}, [Taken(n), Missed(n)]);
    var s8 := State(Some(0), n, 0, [0, 0], {}, [Taken(n), Taken(n)]);
    var a: Run := [(0, Reserve(n)), (1, Reserve(n)), (0, Read), (0, Store), (0, Retry)];
    var b: Run, c: Run := [(1, Read), (1, Store), (1, Retry)], [(0, Book), (1, Book)];
    FirstHalf(n);
    SecondHalf(n);
    ExecAppend(s0, a, b + c);
    ExecAppend(s5, b, c);
    ExecTwo(s8, (0, Book), (1, Book));
  }

  lemma ExecAppend(s: State, a: Run, b: Run)
    ensures Exec(s, a + b) == Exec(Exec(s, a), b)
  {
    ExecSplit(s, a + b, |a|);
    assert (a + b)[..|a|] == a && (a + b)[|a|..] == b;
  }

  lemma {:induction false} ExecSplit(s: State, run: Run, k: nat)
    requires k <= |run|
    ensures Exec(s, run) == Exec(Exec(s, run[..k]), run[k..])
    decreases k
  {
    if k == 0 {
      assert run[0..] == run;
    } else {
      assert run[..k][1..] == run[1..][..k - 1] && run[1..][k - 1..] == run[k..];
      ExecSplit(Next(s, run[0].0, run[0].1), run[1..], k - 1);
    }
  }

  lemma FirstHalf(n: Quantity)
    ensures Exec(State(None, n, 0, [0, 0], {}, [Idle, Idle]),
                 [(0, Reserve(n)), (1, Reserve(n)), (0, Read), (0, Store), (0, Retry)])
            == State(Some(0), n, 0, [0, 0], {}, [Taken(n), Missed(n)])
  {
    var s0 := State(None, n, 0, [0, 0], {}, [Idle, Idle]);
    var s1 := Next(s0, 0, Reserve(n));
    var s2 := Next(s1, 1, Reserve(n));
    var s3 := Next(s2, 0, Read);
    var s4 := Next(s3, 0, Store);
    var s5 := Next(s4, 0, Retry);
    assert s5 == State(Some(0), n, 0, [0, 0], {}, [Taken(n), Missed(n)]);
    assert Exec(s4, [(0, Retry)]) == Exec(s5, []);
    assert Exec(s3, [(0, Store), (0, Retry)]) == Exec(s4, [(0, Retry)]);
    assert Exec(s2, [(0, Read), (0, Store), (0, Retry)]) == Exec(s3, [(0, Store), (0, Retry)]);
    assert Exec(s1, [(1, Reserve(n)), (0, Read), (0, Store), (0, Retry)])
        == Exec(s2, [(0, Read), (0, Store), (0, Retry)]);
  }

  lemma SecondHalf(n: Quantity)
    ensures Exec(State(Some(0), n, 0, [0, 0], {}, [Taken(n), Missed(n)]), [(1, Read), (1, Store), (1, Retry)])
            == State(Some(0), n, 0, [0, 0], {}, [Taken(n), Taken(n)])
  {
    ExecThree(State(Some(0), n, 0, [0, 0], {}, [Taken(n), Missed(n)]), (1, Read), (1, Store), (1, Retry));
  }

  // ---- the row behind a warm key ----

  /** Row and key agree up to the calls that are half done. */
  ghost predicate Ledger(s: State) {
    && Warm(s)
    && s.counter.value + Sum(Out, s.callers) == s.quantity
    && s.sold + Sum(Unbooked, s.callers) == Sum(Out, s.callers) + Sum(Unreturned, s.callers)
  }

  /** The guarded increment is refused. */
  predicate Refused(s: State, i: nat, a: Action) {
    i < |s.callers| && s.callers[i].Taken? && a.Book? && s.quantity - s.sold < s.callers[i].n
  }

  /** That happens exactly while more is on its way back to the row than the key and other reservations on
      their way to it leave room for. */
  lemma RefusedIff(s: State, i: nat)
    requires Ledger(s) && i < |s.callers| && s.callers[i].Taken?
    ensures Refused(s, i, Book) <==>
            s.counter.value + Sum(Unbooked, s.callers) < s.callers[i].n + Sum(Unreturned, s.callers)
  {
  }

  lemma SumsMove(s: State, i: nat, a: Action, k: Kind)
    requires Warm(s) && i < |s.callers|
    ensures |Next(s, i, a).callers| == |s.callers|
    ensures Sum(k, Next(s, i, a).callers) ==
            Sum(k, s.callers) - Weight(k, s.callers[i]) + Weight(k, Next(s, i, a).callers[i])
    ensures Weight(k, s.callers[i]) <= Sum(k, s.callers)
  {
    var s' := Next(s, i, a);
    SumUpdate(k, s.callers, i, s'.callers[i]);
    assert s'.callers == s.callers[i := s'.callers[i]];
  }

  // Booked minus what is on its way, for one caller.
  function Net(c: Caller): int {
    Weight(Out, c) + Weight(Unreturned, c) - Weight(Unbooked, c)
  }

  // What one call does to `sold`, and to what its caller accounts for.
  lemma SoldMoves(s: State, i: nat, a: Action)
    requires i < |s.callers| && Warm(s)
    requires s.callers[i].Returning? ==> s.sold >= s.callers[i].n
    ensures var s', c := Next(s, i, a), s.callers[i];
            && s'.quantity == s.quantity
            && s'.sold - s.sold == Net(s'.callers[i]) - Net(c)
                 - (if c.Taken? && a.Book? && s.quantity - s.sold < c.n then c.n else 0)
  {
    match s.callers[i]
    case Taken(_) =>
    case Holding(_) =>
    case Returning(_) =>
    case _ =>
  }

  /** Row and key go on agreeing after a call exactly when it is not an increment that the row refuses. */
  lemma LedgerKeptIff(s: State, i: nat, a: Action)
    requires Ledger(s)
    ensures Ledger(Next(s, i, a)) <==> !Refused(s, i, a)
  {
    if i < |s.callers| {
      WarmStep(s, i, a);
      SumsMove(s, i, a, Out);
      SumsMove(s, i, a, Unbooked);
      SumsMove(s, i, a, Unreturned);
      OutCoversUnbooked(s.callers);
      SoldMoves(s, i, a);
    }
  }

  lemma {:induction false} OutCoversUnbooked(callers: seq<Caller>)
    ensures Sum(Unbooked, callers) <= Sum(Out, callers)
  {
    if callers != [] { OutCoversUnbooked(callers[..|callers| - 1]); }
  }

  /** With no release half done, the increment behind an accepted script never lacks inventory. */
  lemma IncrementNeverLacks(s: State, i: nat)
    requires Ledger(s) && i < |s.callers| && s.callers[i].Taken? && Sum(Unreturned, s.callers) == 0
    ensures s.quantity - s.sold >= s.callers[i].n && Ledger(Next(s, i, Book))
  {
    SumUpdate(Unbooked, s.callers, i, Idle);
    LedgerKeptIff(s, i, Book);
  }

  /** A release gives stock back to Redis before it gives it back to the row: a reservation in between is
      never counted as sold. */
  lemma HalfDoneReleaseHidesSale(n: Quantity)
    ensures var s := State(Some(n), n, n, [0, 0], {}, [Returning(n), Idle]);
            && Ledger(s)
            && Refused(Next(s, 1, Reserve(n)), 1, Book)
            && var s' := Next(Next(Next(s, 1, Reserve(n)), 1, Book), 0, Unbook);
               s'.callers == [Idle, Holding(n)] && s'.sold == 0
  {
    var s := State(Some(n), n, n, [0, 0], {}, [Returning(n), Idle]);
    var t := Next(s, 1, Reserve(n));
    forall k: Kind ensures Sum(k, s.callers) == Weight(k, Returning(n)) + Weight(k, Idle)
                   ensures Sum(k, t.callers) == Weight(k, Returning(n)) + Weight(k, Taken(n)) {
      SumPair(k, s.callers[0], s.callers[1]);
      SumPair(k, t.callers[0], t.callers[1]);
      assert s.callers == [s.callers[0], s.callers[1]] && t.callers == [t.callers[0], t.callers[1]];
    }
  }

  lemma SumPair(k: Kind, a: Caller, b: Caller)
    ensures Sum(k, [a, b]) == Weight(k, a) + Weight(k, b)
  {
    assert [a, b][..1] == [a] && [a][..0] == [];
    assert Sum(k, [a]) == Sum(k, []) + Weight(k, a);
    assert Sum(k, [a, b]) == Sum(k, [a]) + Weight(k, b);
  }

  // ---- the organizer's writes of a warm key ----

  // A call of ticket-service, or event-service sets the quota and writes what the row then has left to the key;
  // a pre-warm writes with the quota as it is.
  datatype Move = Call(caller: nat, action: Action) | Write(quantity: nat)

  function Moved(s: State, m: Move): State {
    match m
    case Call(i, a) => Next(s, i, a)
    case Write(quantity) =>
      var s1 := s.(quantity := quantity);
      s1.(counter := Some(Left(s1)))
  }

  /** A write of a quota that covers `sold` keeps what is on offer and in hand within the quota if and only if
      no more is on its way to the row than on its way back, and keeps key and row in agreement if and only if
      it is the same. */
  lemma WriteKeptIff(s: State, quantity: nat)
    requires Ledger(s) && s.sold <= quantity
    ensures Safe(Moved(s, Write(quantity))) <==> Sum(Unbooked, s.callers) <= Sum(Unreturned, s.callers)
    ensures Ledger(Moved(s, Write(quantity))) <==> Sum(Unbooked, s.callers) == Sum(Unreturned, s.callers)
  {
    OutCoversUnbooked(s.callers);
  }

  /** No increment is refused, and a write finds nothing half done and covers `sold`. */
  ghost predicate Quiet(s: State, m: Move) {
    match m
    case Call(i, a) => !Refused(s, i, a)
    case Write(quantity) => s.sold <= quantity && Sum(Unbooked, s.callers) == Sum(Unreturned, s.callers)
  }

  function MovedBy(s: State, moves: seq<Move>): State
    decreases |moves|
  {
    if moves == [] then s else MovedBy(Moved(s, moves[0]), moves[1..])
  }

  ghost predicate AllQuiet(s: State, moves: seq<Move>)
    decreases |moves|
  {
    moves == [] || (Quiet(s, moves[0]) && AllQuiet(Moved(s, moves[0]), moves[1..]))
  }

  /** Over every run of calls and writes that are quiet, key and row agree, and reservations in hand stay within
      the quota as it is by then. */
  lemma {:induction false} QuietWritesKeepLedger(s: State, moves: seq<Move>)
    requires Ledger(s) && AllQuiet(s, moves)
    ensures Ledger(MovedBy(s, moves)) && Sum(Out, MovedBy(s, moves).callers) <= MovedBy(s, moves).quantity
    decreases |moves|
  {
    if moves != [] {
      match moves[0] {
        case Call(i, a) => LedgerKeptIff(s, i, a);
        case Write(quantity) => WriteKeptIff(s, quantity);
      }
      QuietWritesKeepLedger(Moved(s, moves[0]), moves[1..]);
    }
  }

  /** A quota edit, or a pre-warm, between a script and its increment puts on offer again what the script took:
      both callers get the whole quota. */
  lemma WriteBetweenOversells(n: Quantity)
    ensures var s := State(Some(0), n, 0, [0, 0], {}, [Taken(n), Idle]);
            && Ledger(s) && s.sold <= n
            && MovedBy(s, [Write(n), Call(1, Reserve(n))]).callers == [Taken(n), Taken(n)]
  {
    var s := State(Some(0), n, 0, [0, 0], {}, [Taken(n), Idle]);
    forall k: Kind ensures Sum(k, s.callers) == Weight(k, Taken(n)) + Weight(k, Idle) {
      SumPair(k, s.callers[0], s.callers[1]);
      assert s.callers == [s.callers[0], s.callers[1]];
    }
    var moves := [Write(n), Call(1, Reserve(n))];
    assert moves[1..] == [Call(1, Reserve(n))] && moves[1..][1..] == [];
    assert MovedBy(s, moves) == MovedBy(Moved(s, Write(n)), moves[1..])
        == MovedBy(Moved(Moved(s, Write(n)), Call(1, Reserve(n))), []);
  }

  // ---- one caller alone ----

  // The key and the row are those of type `t`, which is on sale.
  ghost predicate Mirrors(s: State, st: Inventory.Stock, t: TypeId, now: Time) {
    && t in st.rows && st.rows[t].quantity == s.quantity && st.rows[t].sold == s.sold
    && Inventory.OnSale(st.rows[t], now) && st.rows[t].published
    && s.counter == if t in st.counter then Some(st.counter[t]) else None
  }

  // Nobody else in the process of caller `i` is on the load path.
  predicate LoadsAlone(s: State, i: nat) {
    && ProcessOf(s, i) !in s.loading
    && forall k | 0 <= k < |s.callers| && k != i && ProcessOf(s, k) == ProcessOf(s, i) ::
         !s.callers[k].Loaded? && !s.callers[k].Joined?
  }

  function Reserving(i: nat, n: Quantity): Run {
    [(i, Reserve(n)), (i, Read), (i, Store)] + [(i, Retry), (i, Book)]
  }

  // The key is missing: the load, up to the second try.
  lemma LoadAlone(s: State, i: nat, n: Quantity)
    requires i < |s.callers| && s.callers[i].Idle? && s.counter.None? && LoadsAlone(s, i)
    ensures Next(Next(Next(s, i, Reserve(n)), i, Read), i, Store) ==
            s.(counter := Some(Left(s)), callers := s.callers[i := if Left(s) < n then Idle else Again(n)])
  {
    var s1 := Next(s, i, Reserve(n));
    var s2 := Next(s1, i, Read);
    assert s1 == With(s, i, Missed(n));
    assert s2.callers[i] == Loaded(n, Left(s)) && s2.loading - {ProcessOf(s, i)} == s.loading;
    assert Next(s2, i, Store).callers == s.callers[i := if Left(s) < n then Idle else Again(n)];
  }

  // What such a call leads to, in terms of what the key offers or would be loaded with.
  function Alone(s: State, i: nat, n: Quantity): State
    requires i < |s.callers|
  {
    var offer := if s.counter.Some? then s.counter.value else Left(s);
    if n <= offer
    then s.(counter := Some(offer - n), callers := s.callers[i := Holding(n)],
            sold := if s.quantity - s.sold >= n then s.sold + n else s.sold)
    else s.(counter := Some(offer))
  }

  lemma ExecReserving(s: State, i: nat, n: Quantity)
    ensures Exec(s, Reserving(i, n)) ==
            Next(Next(Next(Next(Next(s, i, Reserve(n)), i, Read), i, Store), i, Retry), i, Book)
  {
    ExecAppend(s, [(i, Reserve(n)), (i, Read), (i, Store)], [(i, Retry), (i, Book)]);
    ExecThree(s, (i, Reserve(n)), (i, Read), (i, Store));
    ExecTwo(Next(Next(Next(s, i, Reserve(n)), i, Read), i, Store), (i, Retry), (i, Book));
  }

  lemma ColdAlone(s: State, i: nat, n: Quantity)
    requires i < |s.callers| && s.callers[i].Idle? && s.counter.None? && LoadsAlone(s, i)
    ensures Exec(s, Reserving(i, n)) == Alone(s, i, n)
  {
    var s3 := s.(counter := Some(Left(s)), callers := s.callers[i := if Left(s) < n then Idle else Again(n)]);
    ExecReserving(s, i, n);
    LoadAlone(s, i, n);
    AgainAlone(s3, i, n);
    assert s.callers[i := Idle] == s.callers;
    assert s.callers[i := Again(n)][i := Holding(n)] == s.callers[i := Holding(n)];
  }

  lemma WarmAlone(s: State, i: nat, n: Quantity)
    requires i < |s.callers| && s.callers[i].Idle? && s.counter.Some?
    ensures Exec(s, Reserving(i, n)) == Alone(s, i, n)
  {
    ExecReserving(s, i, n);
    var s1 := Next(s, i, Reserve(n));
    if n <= s.counter.value {
      assert s1 == With(s, i, Taken(n)).(counter := Some(s.counter.value - n));
      assert Next(Next(Next(s1, i, Read), i, Store), i, Retry) == s1;
      assert s.callers[i := Taken(n)][i := Holding(n)] == s.callers[i := Holding(n)];
    } else {
      assert With(s, i, Idle) == s;
    }
  }

  // The second try, with the key there.
  lemma AgainAlone(s: State, i: nat, n: Quantity)
    requires i < |s.callers| && s.counter.Some?
    ensures s.callers[i] == Again(n) && n <= s.counter.value ==>
              Next(Next(s, i, Retry), i, Book) ==
              s.(counter := Some(s.counter.value - n), callers := s.callers[i := Holding(n)],
                 sold := if s.quantity - s.sold >= n then s.sold + n else s.sold)
    ensures s.callers[i] == Idle ==> Next(Next(s, i, Retry), i, Book) == s
  {
    assert s.callers[i := Taken(n)][i := Holding(n)] == s.callers[i := Holding(n)];
  }

  /** The second try is the last: it takes what the key offers, or gives up, and never loads again. */
  lemma SecondTryIsLast(s: State, i: nat, n: Quantity)
    requires i < |s.callers| && s.callers[i] == Again(n)
    ensures var granted := s.counter.Some? && n <= s.counter.value;
            Next(s, i, Retry) ==
            s.(callers := s.callers[i := if granted then Taken(n) else Idle],
               counter := if granted then Some(s.counter.value - n) else s.counter)
  {
  }

  /** A call that nobody interrupts is the atomic reservation, on a present and on a missing key: it ends
      holding its tickets exactly when that is granted, and key and row are as after it. */
  lemma AloneIsAtomic(s: State, i: nat, n: Quantity, st: Inventory.Stock, t: TypeId, now: Time)
    requires i < |s.callers| && s.callers[i].Idle? && Mirrors(s, st, t, now)
    requires s.counter.None? ==> LoadsAlone(s, i)
    ensures var s', (st', r) := Exec(s, Reserving(i, n)), Inventory.Reserve(st, t, n, now);
            Mirrors(s', st', t, now)
            && s'.callers == if r == Inventory.Reserved then s.callers[i := Holding(n)] else s.callers
  {
    if s.counter.None? { ColdAlone(s, i, n); } else { WarmAlone(s, i, n); }
  }

  /** So is a release. */
  lemma ReleaseAloneIsAtomic(s: State, i: nat, n: Quantity, st: Inventory.Stock, t: TypeId, now: Time)
    requires i < |s.callers| && s.callers[i] == Holding(n) && Mirrors(s, st, t, now)
    ensures var s' := Exec(s, [(i, GiveBack), (i, Unbook)]);
            Mirrors(s', Inventory.Release(st, t, n), t, now) && s'.callers == s.callers[i := Idle]
  {
    ExecTwo(s, (i, GiveBack), (i, Unbook));
  }

  /** A caller that joins the load of another in its process gets that load's number with it, and both try
      again or give up by it. */
  lemma JoinedShareLoad(s: State, i: nat, k: nat)
    requires i < |s.callers| && k < |s.callers| && i != k && s.callers[i].Loaded? && s.callers[k].Missed?
    requires ProcessOf(s, k) == ProcessOf(s, i) && ProcessOf(s, i) in s.loading
    ensures var s', avail := Exec(s, [(k, Join), (i, Store)]), s.callers[i].avail;
            && |s'.callers| == |s.callers| && s'.counter == Some(avail) && ProcessOf(s, i) !in s'.loading
            && s'.callers[i] == (if avail < s.callers[i].n then Idle else Again(s.callers[i].n))
            && s'.callers[k] == (if avail < s.callers[k].n then Idle else Again(s.callers[k].n))
  {
    ExecTwo(s, (k, Join), (i, Store));
  }
}
