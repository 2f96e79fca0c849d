/** Gate admission: the local replica of gate-service, its scans, and the messages between it and
    ticket-service, which may be lost, repeated and reordered. */
module Gate {
  import opened Common

  type TicketId = nat
  // A ticket code and a ticket id are both UUID strings, so a scanned input is tried as either.
  type Code = nat

  datatype Central = Central(event: EventId, code: Code, used: bool)

  datatype LocalStatus = Active | CheckedIn | Used

  datatype Local = Local(event: EventId, code: Code, status: LocalStatus)

  // A ticket as a `ticket.created` message or an answer of ticket-service describes it.
  datatype Copy = Copy(id: TicketId, event: EventId, code: Code, used: bool)

  datatype Scan = Scan(input: Code, gate: Option<EventId>)

  // ---- the statements of gate.sql ----

  predicate Closed(row: Local) {
    row.status.CheckedIn? || row.status.Used?
  }

  function StatusOf(c: Copy): LocalStatus {
    if c.used then Used else Active
  }

  // INSERT fails on the primary key and on the unique code.
  ghost predicate Inserts(local: map<TicketId, Local>, c: Copy) {
    c.id !in local && forall id :: id in local ==> local[id].code != c.code
  }

  // The guarded UPDATE.
  function Guarded(local: map<TicketId, Local>, id: TicketId, status: LocalStatus): map<TicketId, Local> {
    if id in local && !Closed(local[id]) then local[id := local[id].(status := status)] else local
  }

  ghost function Synced(local: map<TicketId, Local>, c: Copy): map<TicketId, Local> {
    if Inserts(local, c) then local[c.id := Local(c.event, c.code, StatusOf(c))]
    else Guarded(local, c.id, StatusOf(c))
  }

  // By code first, and by id if no code matches.
  ghost function FindLocal(local: map<TicketId, Local>, input: Code): Option<TicketId> {
    if exists id :: id in local && local[id].code == input then
      var id :| id in local && local[id].code == input; Some(id)
    else if input in local then Some(input)
    else None
  }

  ghost function FindCentral(central: map<TicketId, Central>, input: Code): Option<TicketId> {
    if exists id :: id in central && central[id].code == input then
      var id :| id in central && central[id].code == input; Some(id)
    else if input in central then Some(input)
    else None
  }

  function CopyOf(id: TicketId, t: Central): Copy {
    Copy(id, t.event, t.code, t.used)
  }

  // The local checks of `ScanTicket` before the guarded UPDATE.
  predicate Refused(row: Local, scan: Scan) {
    (scan.gate.Some? && scan.gate.value != row.event) || Closed(row)
  }

  // ---- the protocol: any number of scanners and consumers, one statement at a time ----

  datatype Caller =
    | Idle
    | Syncing(copy: Copy, andThen: Option<Scan>)    // about to INSERT
    | Updating(copy: Copy, andThen: Option<Scan>)   // the INSERT failed
    | Looking(scan: Scan)
    | Chosen(id: TicketId, scan: Scan)              // passed the checks, about to check in

  datatype Admission = Admission(id: TicketId, gate: Option<EventId>)

  datatype State = State(
    central: map<TicketId, Central>,
    local: map<TicketId, Local>,
    created: set<Copy>,
    scanned: set<(TicketId, Code)>,
    callers: seq<Caller>,
    admitted: seq<Admission>)

  // Messages stay deliverable, so they can come twice, late, out of order, or never.
  datatype Action =
    | Issue(id: TicketId, event: EventId, code: Code)
    | TakeCreated(caller: nat, copy: Copy)
    | Begin(caller: nat, scan: Scan, reached: bool)
    | Insert(caller: nat)
    | Update(caller: nat)
    | Look(caller: nat)
    | CheckIn(caller: nat)
    | TakeScanned(message: (TicketId, Code))

  function After(andThen: Option<Scan>): Caller {
    if andThen.Some? then Looking(andThen.value) else Idle
  }

  function With(s: State, i: nat, c: Caller): State {
    if i < |s.callers| then s.(callers := s.callers[i := c]) else s
  }

  predicate At(s: State, i: nat, c: Caller) {
    i < |s.callers| && s.callers[i] == c
  }

  // A scan begins: ticket-service is asked, if it can be reached, and may end the scan at once.
  ghost function Begun(central: map<TicketId, Central>, scan: Scan, reached: bool): Caller {
    var found := FindCentral(central, scan.input);
    if !reached || found.None? then Looking(scan)
    else
      var copy := CopyOf(found.value, central[found.value]);
      if scan.gate.Some? && copy.event != scan.gate.value then Idle else Syncing(copy, Some(scan))
  }

  ghost function Next(s: State, a: Action): State {
    match a
    case Issue(id, event, code) =>
      if id in s.central || (exists t :: t in s.central && s.central[t].code == code) then s
      else s.(central := s.central[id := Central(event, code, false)],
              created := s.created + {Copy(id, event, code, false)})
    case TakeCreated(i, copy) =>
      if At(s, i, Idle) && copy in s.created then With(s, i, Syncing(copy, None)) else s
    case Begin(i, scan, reached) =>
      if At(s, i, Idle) then With(s, i, Begun(s.central, scan, reached)) else s
    case Insert(i) =>
      if i < |s.callers| && s.callers[i].Syncing? then
        var c := s.callers[i];
        if Inserts(s.local, c.copy)
        then With(s, i, After(c.andThen)).(local := Synced(s.local, c.copy))
        else With(s, i, Updating(c.copy, c.andThen))
      else s
    case Update(i) =>
      if i < |s.callers| && s.callers[i].Updating? then
        var c := s.callers[i];
        With(s, i, After(c.andThen)).(local := Guarded(s.local, c.copy.id, StatusOf(c.copy)))
      else s
    case Look(i) =>
      if i < |s.callers| && s.callers[i].Looking? then
        var scan := s.callers[i].scan;
        var found := FindLocal(s.local, scan.input);
        With(s, i, if found.None? || Refused(s.local[found.value], scan) then Idle else Chosen(found.value, scan))
      else s
    case CheckIn(i) =>
      if i < |s.callers| && s.callers[i].Chosen? then
        var id := s.callers[i].id;
        if id in s.local && !Closed(s.local[id])
        then With(s, i, Idle).(
               local := Guarded(s.local, id, CheckedIn),
               scanned := s.scanned + {(id, s.local[id].code)},
               admitted := s.admitted + [Admission(id, s.callers[i].scan.gate)])
        else With(s, i, Idle)
      else s
    case TakeScanned(message) =>
      if message in s.scanned then s.(central := MarkUsed(s.central, message.1)) else s
  }

  // The consumer of ticket-service: the ticket with that code becomes USED, if there is one.
  ghost function MarkUsed(central: map<TicketId, Central>, code: Code): map<TicketId, Central> {
    if exists id :: id in central && central[id].code == code then
      var id :| id in central && central[id].code == code;
      central[id := central[id].(used := true)]
    else central
  }

  function Count(admitted: seq<Admission>, id: TicketId): nat {
    if admitted == [] then 0
    else Count(admitted[..|admitted| - 1], id) + (if admitted[|admitted| - 1].id == id then 1 else 0)
  }

  // ---- what every step keeps ----

  predicate In(local: map<TicketId, Local>, id: TicketId) {
    id in local && local[id].status.CheckedIn?
  }

  ghost predicate CopyOk(s: State, c: Copy) {
    && c.id in s.central && s.central[c.id].event == c.event && s.central[c.id].code == c.code
    && (c.used ==> In(s.local, c.id))
  }

  ghost predicate CallerOk(s: State, c: Caller) {
    match c
    case Syncing(copy, _) => CopyOk(s, copy)
    case Updating(copy, _) => CopyOk(s, copy)
    case Chosen(id, scan) => id in s.local && (scan.gate.Some? ==> scan.gate.value == s.local[id].event)
    case _ => true
  }

  ghost predicate CentralOk(s: State) {
    && (forall a, b :: a in s.central && b in s.central && s.central[a].code == s.central[b].code ==> a == b)
    && (forall id :: id in s.central && s.central[id].used ==> In(s.local, id))
  }

  ghost predicate LocalOk(s: State) {
    forall id :: id in s.local ==>
      && id in s.central && s.local[id].event == s.central[id].event && s.local[id].code == s.central[id].code
      && !s.local[id].status.Used?
  }

  ghost predicate MessagesOk(s: State) {
    && (forall c :: c in s.created ==> CopyOk(s, c))
    && (forall m :: m in s.scanned ==> In(s.local, m.0) && s.local[m.0].code == m.1)
  }

  ghost predicate CallersOk(s: State) {
    forall i :: 0 <= i < |s.callers| ==> CallerOk(s, s.callers[i])
  }

  ghost predicate LogOk(s: State) {
    && (forall id: TicketId :: Count(s.admitted, id) == if In(s.local, id) then 1 else 0)
    && (forall k :: 0 <= k < |s.admitted| ==> AdmissionOk(s, s.admitted[k]))
  }

  ghost predicate Inv(s: State) {
    CentralOk(s) && LocalOk(s) && MessagesOk(s) && CallersOk(s) && LogOk(s)
  }

  ghost predicate AdmissionOk(s: State, a: Admission) {
    a.id in s.central && (a.gate.Some? ==> a.gate.value == s.central[a.id].event)
  }

  // No ticket changes its event or code, no row disappears, and CHECKED_IN is never undone.
  ghost predicate Grows(s: State, s': State) {
    && (forall id :: id in s.central ==> && id in s'.central && s'.central[id].event == s.central[id].event
                                         && s'.central[id].code == s.central[id].code
                                         && (s.central[id].used ==> s'.central[id].used))
    && (forall id :: id in s.local ==> && id in s'.local && s'.local[id].event == s.local[id].event
                                       && s'.local[id].code == s.local[id].code
                                       && (s.local[id].status.CheckedIn? ==> s'.local[id].status.CheckedIn?))
  }

  // Growth keeps what copies, callers, messages and past admissions rely on.
  lemma GrowthKeeps(s: State, s': State)
    requires Inv(s) && Grows(s, s')
    ensures forall c :: c in s.created ==> CopyOk(s', c)
    ensures forall m :: m in s.scanned ==> In(s'.local, m.0) && s'.local[m.0].code == m.1
    ensures forall i :: 0 <= i < |s.callers| ==> CallerOk(s', s.callers[i])
    ensures forall k :: 0 <= k < |s.admitted| ==> AdmissionOk(s', s.admitted[k])
  {
    forall i | 0 <= i < |s.callers| ensures CallerOk(s', s.callers[i]) {
      assert CallerOk(s, s.callers[i]);
    }
    forall k | 0 <= k < |s.admitted| ensures AdmissionOk(s', s.admitted[k]) {
      assert AdmissionOk(s, s.admitted[k]);
    }
  }

  // A caller moves on and the replica changes without a check-in.
  lemma CallerStep(s: State, s': State, i: nat, c: Caller)
    requires Inv(s) && Grows(s, s') && i < |s.callers|
    requires s' == With(s, i, c).(local := s'.local)
    requires CentralOk(s') && LocalOk(s') && CallerOk(s', c)
    requires forall id: TicketId :: In(s'.local, id) <==> In(s.local, id)
    ensures Inv(s')
  {
    GrowthKeeps(s, s');
  }

  lemma GuardedRows(s: State, c: Copy)
    requires Inv(s) && CopyOk(s, c)
    ensures var s' := s.(local := Guarded(s.local, c.id, StatusOf(c)));
            LocalOk(s') && Grows(s, s') && forall id: TicketId :: In(s'.local, id) <==> In(s.local, id)
  {
    assert c.used ==> c.id in s.local && Closed(s.local[c.id]);
  }

  // A sync with a true copy opens no closed row and closes none.
  lemma SyncedRows(s: State, c: Copy, local: map<TicketId, Local>)
    requires Inv(s) && CopyOk(s, c)
    requires local == Synced(s.local, c) || local == Guarded(s.local, c.id, StatusOf(c))
    ensures LocalOk(s.(local := local)) && Grows(s, s.(local := local))
    ensures forall id: TicketId :: In(local, id) <==> In(s.local, id)
  {
    if local == Guarded(s.local, c.id, StatusOf(c)) { GuardedRows(s, c); }
  }

  lemma SyncKeeps(s: State, i: nat, c: Copy, andThen: Option<Scan>, s': State)
    requires Inv(s) && CopyOk(s, c) && i < |s.callers|
    requires s' == With(s, i, After(andThen)).(local := s'.local)
    requires s'.local == Synced(s.local, c) || s'.local == Guarded(s.local, c.id, StatusOf(c))
    ensures Inv(s') && Grows(s, s')
  {
    SyncedRows(s, c, s'.local);
    CallerStep(s, s', i, After(andThen));
  }

  lemma {:induction false} CountAppend(admitted: seq<Admission>, a: Admission, id: TicketId)
    ensures Count(admitted + [a], id) == Count(admitted, id) + (if a.id == id then 1 else 0)
  {
    assert (admitted + [a])[..|admitted|] == admitted;
  }

  // The row of an open ticket is closed: it grows, and only this ticket is newly in.
  lemma CheckInGrows(s: State, id: TicketId, s': State)
    requires Inv(s) && id in s.local && !Closed(s.local[id])
    requires s'.central == s.central && s'.local == Guarded(s.local, id, CheckedIn)
    ensures Grows(s, s') && CentralOk(s') && LocalOk(s')
    ensures forall t: TicketId :: In(s'.local, t) <==> In(s.local, t) || t == id
  {
  }

  // One more admission of a ticket that was not in: the counts still match the rows.
  lemma AdmitCounts(s: State, s': State, a: Admission)
    requires Inv(s) && a.id in s.local && !Closed(s.local[a.id])
    requires s'.local == Guarded(s.local, a.id, CheckedIn) && s'.admitted == s.admitted + [a]
    ensures forall t: TicketId :: Count(s'.admitted, t) == if In(s'.local, t) then 1 else 0
  {
    forall t: TicketId ensures Count(s'.admitted, t) == if In(s'.local, t) then 1 else 0 {
      CountAppend(s.admitted, a, t);
    }
  }

  // The replica grows by one check-in, which is logged and published.
  lemma AdmittedMessages(s: State, s': State, m: (TicketId, Code))
    requires Inv(s) && Grows(s, s') && s'.created == s.created && s'.scanned == s.scanned + {m}
    requires In(s'.local, m.0) && s'.local[m.0].code == m.1
    ensures MessagesOk(s')
  {
    GrowthKeeps(s, s');
  }

  lemma AdmittedLog(s: State, s': State, a: Admission)
    requires Inv(s) && Grows(s, s') && a.id in s.local && !Closed(s.local[a.id])
    requires s'.local == Guarded(s.local, a.id, CheckedIn) && s'.admitted == s.admitted + [a]
    requires AdmissionOk(s', a)
    ensures LogOk(s')
  {
    GrowthKeeps(s, s');
    AdmitCounts(s, s', a);
  }

  lemma AdmittedCallers(s: State, s': State, i: nat)
    requires Inv(s) && Grows(s, s') && i < |s.callers| && s'.callers == s.callers[i := Idle]
    ensures CallersOk(s')
  {
    GrowthKeeps(s, s');
  }

  lemma AdmitKeeps(s: State, i: nat)
    requires Inv(s) && i < |s.callers| && s.callers[i].Chosen?
    requires var id := s.callers[i].id; id in s.local && !Closed(s.local[id])
    ensures Inv(Next(s, CheckIn(i))) && Grows(s, Next(s, CheckIn(i)))
  {
    var s', id := Next(s, CheckIn(i)), s.callers[i].id;
    var admission := Admission(id, s.callers[i].scan.gate);
    assert CallerOk(s, s.callers[i]);
    CheckInGrows(s, id, s');
    AdmittedMessages(s, s', (id, s.local[id].code));
    AdmittedCallers(s, s', i);
    AdmittedLog(s, s', admission);
  }

  lemma CheckInKeeps(s: State, i: nat)
    requires Inv(s)
    ensures Inv(Next(s, CheckIn(i))) && Grows(s, Next(s, CheckIn(i)))
  {
    if i < |s.callers| && s.callers[i].Chosen? {
      var id := s.callers[i].id;
      if id in s.local && !Closed(s.local[id]) { AdmitKeeps(s, i); }
      else { CallerStep(s, Next(s, CheckIn(i)), i, Idle); }
    }
  }

  // Only the central table changes: what the replica and the log say still holds.
  lemma CentralStep(s: State, s': State)
    requires Inv(s) && Grows(s, s') && CentralOk(s') && LocalOk(s')
    requires s' == s.(central := s'.central, created := s'.created)
    requires forall c :: c in s'.created && c !in s.created ==> CopyOk(s', c)
    ensures Inv(s')
  {
    GrowthKeeps(s, s');
  }

  lemma MarkedTicket(s: State, m: (TicketId, Code))
    requires Inv(s) && m in s.scanned
    ensures m.0 in s.central && MarkUsed(s.central, m.1) == s.central[m.0 := s.central[m.0].(used := true)]
  {
    assert m.0 in s.local && s.central[m.0].code == m.1;
  }

  lemma ScannedKeeps(s: State, m: (TicketId, Code))
    requires Inv(s)
    ensures Inv(Next(s, TakeScanned(m))) && Grows(s, Next(s, TakeScanned(m)))
  {
    if m in s.scanned {
      MarkedTicket(s, m);
      CentralStep(s, Next(s, TakeScanned(m)));
    }
  }

  lemma IssueKeeps(s: State, id: TicketId, event: EventId, code: Code)
    requires Inv(s)
    ensures Inv(Next(s, Issue(id, event, code))) && Grows(s, Next(s, Issue(id, event, code)))
  {
    if id !in s.central && !(exists t :: t in s.central && s.central[t].code == code) {
      CentralStep(s, Next(s, Issue(id, event, code)));
    }
  }

  lemma LookKeeps(s: State, i: nat)
    requires Inv(s)
    ensures Inv(Next(s, Look(i))) && Grows(s, Next(s, Look(i)))
  {
    if i < |s.callers| && s.callers[i].Looking? {
      CallerStep(s, Next(s, Look(i)), i, Next(s, Look(i)).callers[i]);
    }
  }

  lemma BegunOk(s: State, scan: Scan, reached: bool)
    requires Inv(s)
    ensures CallerOk(s, Begun(s.central, scan, reached))
  {
  }

  lemma BeginKeeps(s: State, i: nat, scan: Scan, reached: bool)
    requires Inv(s)
    ensures Inv(Next(s, Begin(i, scan, reached))) && Grows(s, Next(s, Begin(i, scan, reached)))
  {
    if At(s, i, Idle) {
      BegunOk(s, scan, reached);
      CallerStep(s, Next(s, Begin(i, scan, reached)), i, Begun(s.central, scan, reached));
    }
  }

  lemma StepKeeps(s: State, a: Action)
    requires Inv(s)
    ensures Inv(Next(s, a)) && Grows(s, Next(s, a))
  {
    match a
    case Issue(id, event, code) => IssueKeeps(s, id, event, code);
    case TakeCreated(i, copy) =>
      if At(s, i, Idle) && copy in s.created { CallerStep(s, Next(s, a), i, Syncing(copy, None)); }
    case Begin(i, scan, reached) => BeginKeeps(s, i, scan, reached);
    case Insert(i) =>
      if i < |s.callers| && s.callers[i].Syncing? {
        var c := s.callers[i];
        assert CallerOk(s, c);
        if Inserts(s.local, c.copy) { SyncKeeps(s, i, c.copy, c.andThen, Next(s, a)); }
        else { CallerStep(s, Next(s, a), i, Updating(c.copy, c.andThen)); }
      }
    case Update(i) =>
      if i < |s.callers| && s.callers[i].Updating? {
        assert CallerOk(s, s.callers[i]);
        SyncKeeps(s, i, s.callers[i].copy, s.callers[i].andThen, Next(s, a));
      }
    case Look(i) => LookKeeps(s, i);
    case CheckIn(i) => CheckInKeeps(s, i);
    case TakeScanned(m) => ScannedKeeps(s, m);
  }

  ghost function Exec(s: State, run: seq<Action>): State
    decreases |run|
  {
    if run == [] then s else Exec(Next(s, run[0]), run[1..])
  }

  lemma {:induction false} RunKeeps(s: State, run: seq<Action>)
    requires Inv(s)
    ensures Inv(Exec(s, run)) && Grows(s, Exec(s, run))
    decreases |run|
  {
    if run != [] {
      StepKeeps(s, run[0]);
      RunKeeps(Next(s, run[0]), run[1..]);
    }
  }

  function NewGate(n: nat): State {
    State(map[], map[], {}, {}, seq(n, _ => Idle), [])
  }

  /** Every interleaving of scans, syncs and messages: each ticket is admitted at most once, and has been
      exactly when its row says CHECKED_IN; a gate that names its event admits only that event's tickets; and
      what ticket-service calls USED was checked in at a gate. */
  lemma AdmittedAtMostOnce(n: nat, run: seq<Action>)
    ensures var s := Exec(NewGate(n), run);
            && (forall id: TicketId :: Count(s.admitted, id) <= 1)
            && (forall id: TicketId :: Count(s.admitted, id) == 1 <==> In(s.local, id))
            && (forall k :: 0 <= k < |s.admitted| && s.admitted[k].gate.Some? ==>
                  s.admitted[k].id in s.central && s.central[s.admitted[k].id].event == s.admitted[k].gate.value)
            && (forall id :: id in s.central && s.central[id].used ==> In(s.local, id))
  {
    RunKeeps(NewGate(n), run);
    var s := Exec(NewGate(n), run);
    forall k | 0 <= k < |s.admitted| && s.admitted[k].gate.Some?
      ensures s.admitted[k].id in s.central && s.central[s.admitted[k].id].event == s.admitted[k].gate.value
    {
      assert AdmissionOk(s, s.admitted[k]);
    }
  }

  /** From any point of any run on, a check-in is never undone. */
  lemma CheckInIsFinal(n: nat, run: seq<Action>, more: seq<Action>, id: TicketId)
    requires In(Exec(NewGate(n), run).local, id)
    ensures In(Exec(Exec(NewGate(n), run), more).local, id)
  {
    RunKeeps(NewGate(n), run);
    RunKeeps(Exec(NewGate(n), run), more);
  }

  // ---- what a sync and a scan achieve ----

  // Nobody in the table has this id or this code.
  ghost predicate Unused(local: map<TicketId, Local>, id: TicketId, code: Code) {
    id !in local && forall t :: t in local ==> local[t].code != code
  }

  // The table has one more row, or the same rows with the status of one of them changed.
  ghost predicate OneMore(local: map<TicketId, Local>, local': map<TicketId, Local>, id: TicketId, row: Local) {
    local'.Keys == local.Keys + {id} && local'[id] == row && forall t :: t in local && t != id ==> local'[t] == local[t]
  }

  ghost predicate SameBut(
      local: map<TicketId, Local>, local': map<TicketId, Local>, id: TicketId, status: LocalStatus) {
    && local'.Keys == local.Keys
    && forall t :: t in local ==>
         local'[t] == Local(local[t].event, local[t].code,
                            if t == id && local[t].status == Active then status else local[t].status)
  }

  /** A copy whose id and code are both unused brings exactly one more row, with its event and code, and USED if
      and only if the copy is; a used id or code brings none, and an open row of that id takes the copy's status. */
  lemma SyncedIff(local: map<TicketId, Local>, c: Copy)
    ensures Unused(local, c.id, c.code) ==>
              OneMore(local, Synced(local, c), c.id, Local(c.event, c.code, if c.used then Used else Active))
    ensures !Unused(local, c.id, c.code) ==> SameBut(local, Synced(local, c), c.id, if c.used then Used else Active)
  {
  }

  ghost predicate UniqueCodes(local: map<TicketId, Local>) {
    forall a, b :: a in local && b in local && local[a].code == local[b].code ==> a == b
  }

  /** An input finds the row of that code, or the row of that id if there is no such code. */
  lemma FoundIff(local: map<TicketId, Local>, input: Code, id: TicketId)
    requires UniqueCodes(local)
    ensures FindLocal(local, input) == Some(id) <==>
            id in local
            && (local[id].code == input || (id == input && forall t :: t in local ==> local[t].code != input))
  {
  }

  // The issued ticket that an input names: by its code, or by its id if no ticket has that code.
  ghost predicate Named(central: map<TicketId, Central>, input: Code, id: TicketId) {
    id in central
    && (central[id].code == input || (id == input && forall t :: t in central ==> central[t].code != input))
  }

  function Scanning(i: nat, scan: Scan): seq<Action> {
    [Begin(i, scan, true), Insert(i), Update(i), Look(i), CheckIn(i)]
  }

  lemma ExecScanning(s: State, i: nat, scan: Scan)
    ensures Exec(s, Scanning(i, scan)) ==
            Next(Next(Next(Next(Next(s, Begin(i, scan, true)), Insert(i)), Update(i)), Look(i)), CheckIn(i))
  {
    var run := Scanning(i, scan);
    assert run[1..] == [Insert(i), Update(i), Look(i), CheckIn(i)];
    assert run[1..][1..] == [Update(i), Look(i), CheckIn(i)];
    assert run[1..][1..][1..] == [Look(i), CheckIn(i)];
    assert run[1..][1..][1..][1..] == [CheckIn(i)];
    assert run[1..][1..][1..][1..][1..] == [];
    var s1 := Next(s, Begin(i, scan, true));
    var s2 := Next(s1, Insert(i));
    var s3 := Next(s2, Update(i));
    assert Exec(s, run) == Exec(s1, run[1..]) == Exec(s2, run[1..][1..]) == Exec(s3, run[1..][1..][1..]);
    assert Exec(s3, [Look(i), CheckIn(i)]) == Exec(Next(s3, Look(i)), [CheckIn(i)]);
  }

  // The replica once the ticket has been fetched and synced, whichever of the two statements did it.
  ghost function Fetched(s: State, id: TicketId): map<TicketId, Local>
    requires id in s.central
  {
    if In(s.local, id) then s.local else s.local[id := Local(s.central[id].event, s.central[id].code, Active)]
  }

  lemma InsertOrUpdate(s: State, i: nat, scan: Scan, id: TicketId)
    requires Inv(s) && id in s.central && At(s, i, Syncing(CopyOf(id, s.central[id]), Some(scan)))
    ensures Next(Next(s, Insert(i)), Update(i)) == With(s, i, Looking(scan)).(local := Fetched(s, id))
  {
    var copy := CopyOf(id, s.central[id]);
    var s2 := Next(s, Insert(i));
    if id in s.local {
      assert s2 == With(s, i, Updating(copy, Some(scan)));
      assert s.callers[i := Updating(copy, Some(scan))][i := Looking(scan)] == s.callers[i := Looking(scan)];
      assert Guarded(s.local, id, StatusOf(copy)) == Fetched(s, id);
    } else {
      assert Inserts(s.local, copy);
      assert Next(s2, Update(i)) == s2;
    }
  }

  lemma FetchedRow(s: State, i: nat, scan: Scan, id: TicketId)
    requires Inv(s) && At(s, i, Idle) && Named(s.central, scan.input, id)
    requires scan.gate == None || scan.gate == Some(s.central[id].event)
    ensures Next(Next(Next(s, Begin(i, scan, true)), Insert(i)), Update(i))
         == With(s, i, Looking(scan)).(local := Fetched(s, id))
  {
    var s1, copy := Next(s, Begin(i, scan, true)), CopyOf(id, s.central[id]);
    FoundCentral(s, scan.input, id);
    BeginKeeps(s, i, scan, true);
    assert s1 == With(s, i, Syncing(copy, Some(scan)));
    InsertOrUpdate(s1, i, scan, id);
    assert s.callers[i := Syncing(copy, Some(scan))][i := Looking(scan)] == s.callers[i := Looking(scan)];
  }

  lemma FoundCentral(s: State, input: Code, id: TicketId)
    requires CentralOk(s)
    ensures FindCentral(s.central, input) == Some(id) <==> Named(s.central, input, id)
  {
  }

  // With the row there, it is what the input finds.
  lemma FoundRow(s: State, input: Code, id: TicketId)
    requires CentralOk(s) && LocalOk(s) && Named(s.central, input, id)
    ensures FindLocal(Fetched(s, id), input) == Some(id)
    ensures Fetched(s, id)[id].event == s.central[id].event && Fetched(s, id)[id].code == s.central[id].code
    ensures In(s.local, id) <==> Fetched(s, id)[id].status != Active
  {
    FoundIff(Fetched(s, id), input, id);
  }

  lemma LookThenCheckIn(s: State, i: nat, scan: Scan, id: TicketId)
    requires At(s, i, Looking(scan)) && FindLocal(s.local, scan.input) == Some(id) && id in s.local
    requires scan.gate == None || scan.gate == Some(s.local[id].event)
    ensures Next(Next(s, Look(i)), CheckIn(i)) ==
            if s.local[id].status == Active
            then With(s, i, Idle).(
                   local := s.local[id := s.local[id].(status := CheckedIn)],
                   scanned := s.scanned + {(id, s.local[id].code)},
                   admitted := s.admitted + [Admission(id, scan.gate)])
            else With(s, i, Idle)
  {
    var s1 := Next(s, Look(i));
    if s.local[id].status == Active {
      assert s1 == With(s, i, Chosen(id, scan));
      assert s.callers[i := Chosen(id, scan)][i := Idle] == s.callers[i := Idle];
    } else {
      assert s1 == With(s, i, Idle);
    }
  }

  // The gate allows the event: fetch, sync, look and check in.
  lemma AllowedScan(s: State, i: nat, scan: Scan, id: TicketId)
    requires Inv(s) && At(s, i, Idle) && Named(s.central, scan.input, id)
    requires scan.gate == None || scan.gate == Some(s.central[id].event)
    ensures Exec(s, Scanning(i, scan)) ==
            Next(Next(With(s, i, Looking(scan)).(local := Fetched(s, id)), Look(i)), CheckIn(i))
  {
    ExecScanning(s, i, scan);
    FetchedRow(s, i, scan, id);
  }

  lemma WrongGateScan(s: State, i: nat, scan: Scan, id: TicketId)
    requires Inv(s) && At(s, i, Idle) && Named(s.central, scan.input, id)
    requires scan.gate != None && scan.gate != Some(s.central[id].event)
    ensures Exec(s, Scanning(i, scan)) == s
  {
    ExecScanning(s, i, scan);
    FoundCentral(s, scan.input, id);
    assert s.callers[i := Idle] == s.callers;
    assert Next(s, Begin(i, scan, true)) == s;
  }

  lemma SecondScan(s: State, i: nat, scan: Scan, id: TicketId)
    requires Inv(s) && At(s, i, Idle) && Named(s.central, scan.input, id) && In(s.local, id)
    requires scan.gate == None || scan.gate == Some(s.central[id].event)
    ensures Exec(s, Scanning(i, scan)) == s
  {
    var looking := With(s, i, Looking(scan));
    AllowedScan(s, i, scan, id);
    FoundRow(s, scan.input, id);
    assert looking.(local := Fetched(s, id)) == looking;
    LookThenCheckIn(looking, i, scan, id);
    assert s.callers[i := Looking(scan)][i := Idle] == s.callers;
  }

  lemma FirstScan(s: State, i: nat, scan: Scan, id: TicketId)
    requires Inv(s) && At(s, i, Idle) && Named(s.central, scan.input, id) && !In(s.local, id)
    requires scan.gate == None || scan.gate == Some(s.central[id].event)
    ensures Exec(s, Scanning(i, scan)) ==
            s.(local := s.local[id := Local(s.central[id].event, s.central[id].code, CheckedIn)],
               scanned := s.scanned + {(id, s.central[id].code)},
               admitted := s.admitted + [Admission(id, scan.gate)])
  {
    AllowedScan(s, i, scan, id);
    FoundRow(s, scan.input, id);
    FoundOpen(s, Fetched(s, id), i, scan, id);
  }

  // The input finds an open row.
  lemma FoundOpen(s: State, local: map<TicketId, Local>, i: nat, scan: Scan, id: TicketId)
    requires At(s, i, Idle) && id in s.central && FindLocal(local, scan.input) == Some(id)
    requires local == s.local[id := Local(s.central[id].event, s.central[id].code, Active)]
    requires scan.gate == None || scan.gate == Some(s.central[id].event)
    ensures Next(Next(With(s, i, Looking(scan)).(local := local), Look(i)), CheckIn(i)) ==
            s.(local := s.local[id := Local(s.central[id].event, s.central[id].code, CheckedIn)],
               scanned := s.scanned + {(id, s.central[id].code)},
               admitted := s.admitted + [Admission(id, scan.gate)])
  {
    var row := Local(s.central[id].event, s.central[id].code, CheckedIn);
    LookThenCheckIn(With(s, i, Looking(scan)).(local := local), i, scan, id);
    assert s.callers[i := Looking(scan)][i := Idle] == s.callers;
    assert local[id := row] == s.local[id := row];
  }

  /** A caller that scans alone, with ticket-service reached, lets the named ticket in if and only if the gate
      allows its event and nobody is in with it. The row then says so, the check-in is logged and published,
      and nothing else changes. */
  lemma ScanAloneIff(s: State, i: nat, scan: Scan, id: TicketId)
    requires Inv(s) && At(s, i, Idle) && Named(s.central, scan.input, id)
    ensures var ticket := s.central[id];
            Exec(s, Scanning(i, scan)) ==
            if (scan.gate == None || scan.gate == Some(ticket.event)) && !In(s.local, id)
            then s.(local := s.local[id := Local(ticket.event, ticket.code, CheckedIn)],
                    scanned := s.scanned + {(id, ticket.code)},
                    admitted := s.admitted + [Admission(id, scan.gate)])
            else s
  {
    if scan.gate != None && scan.gate != Some(s.central[id].event) { WrongGateScan(s, i, scan, id); }
    else if In(s.local, id) { SecondScan(s, i, scan, id); }
    else { FirstScan(s, i, scan, id); }
  }

  /** An input that names no issued ticket lets nobody in, even alone. */
  lemma StrangerStaysOut(s: State, i: nat, scan: Scan)
    requires Inv(s) && At(s, i, Idle)
    requires scan.input !in s.central && forall t :: t in s.central ==> s.central[t].code != scan.input
    ensures Exec(s, Scanning(i, scan)) == s
  {
    ExecScanning(s, i, scan);
    var s1 := Next(s, Begin(i, scan, true));
    assert s1 == With(s, i, Looking(scan));
    assert FindLocal(s.local, scan.input).None?;
    assert s.callers[i := Looking(scan)][i := Idle] == s.callers;
  }

  /** A ticket is issued exactly if its id and its code are unused: it is then in the central table, not used, and
      announced; and nothing else changes. */
  lemma IssueIff(s: State, id: TicketId, event: EventId, code: Code)
    ensures Next(s, Issue(id, event, code)) ==
            if id !in s.central && forall t :: t in s.central ==> s.central[t].code != code
            then s.(central := s.central[id := Central(event, code, false)],
                    created := s.created + {Copy(id, event, code, false)})
            else s
  {
  }

  /** An announcement that a consumer takes alone brings the row of its ticket, or leaves the one there open or
      closed as it was, however old it is. */
  lemma AnnouncedArrives(s: State, i: nat, c: Copy)
    requires Inv(s) && At(s, i, Idle) && c in s.created && !c.used
    ensures Exec(s, [TakeCreated(i, c), Insert(i), Update(i)]) == s.(local := Fetched(s, c.id))
  {
    var s1 := With(s, i, Syncing(c, None));
    ExecThree(s, TakeCreated(i, c), Insert(i), Update(i));
    StepKeeps(s, TakeCreated(i, c));
    TakenArrives(s1, i, c);
    assert s.callers[i := Syncing(c, None)][i := Idle] == s.callers;
  }

  lemma ExecThree(s: State, a: Action, b: Action, c: Action)
    ensures Exec(s, [a, b, c]) == Next(Next(Next(s, a), b), c)
  {
    assert [a, b, c][1..] == [b, c] && [b, c][1..] == [c];
    assert Exec(Next(Next(s, a), b), [c]) == Next(Next(Next(s, a), b), c);
  }

  lemma TakenArrives(s: State, i: nat, c: Copy)
    requires Inv(s) && At(s, i, Syncing(c, None)) && !c.used
    ensures Next(Next(s, Insert(i)), Update(i)) == With(s, i, Idle).(local := Fetched(s, c.id))
  {
    var s2 := Next(s, Insert(i));
    assert CopyOk(s, c);
    if c.id in s.local {
      assert s2 == With(s, i, Updating(c, None));
      assert s.callers[i := Updating(c, None)][i := Idle] == s.callers[i := Idle];
      assert Guarded(s.local, c.id, Active) == Fetched(s, c.id);
    } else {
      assert Inserts(s.local, c);
      assert Next(s2, Update(i)) == s2;
    }
  }

  /** The message of a check-in makes exactly that ticket USED centrally, whenever and however often it comes. */
  lemma ScannedMarks(s: State, m: (TicketId, Code))
    requires Inv(s) && m in s.scanned
    ensures m.0 in s.central
    ensures Next(s, TakeScanned(m)) == s.(central := s.central[m.0 := s.central[m.0].(used := true)])
  {
    MarkedTicket(s, m);
  }

  // ---- gate-service as it runs ----

  datatype ScanError = WrongEvent | NotFound | AlreadyUsed

  class GateService {
    var local: map<TicketId, Local>
    var published: seq<(TicketId, Code)>

    // The UNIQUE constraint on `ticket_code`.
    ghost predicate Valid()
      reads this
    {
      UniqueCodes(local)
    }

    constructor ()
      ensures Valid() && local == map[] && published == []
    {
      local, published := map[], [];
    }

    method SyncTicket(c: Copy)
      requires Valid()
      modifies this`local
      ensures Valid()
      ensures local == Synced(old(local), c)
      ensures var status := if c.used then Used else Active;
              if Unused(old(local), c.id, c.code) then OneMore(old(local), local, c.id, Local(c.event, c.code, status))
              else SameBut(old(local), local, c.id, status)
    {
      SyncedIff(local, c);
      if c.id !in local && forall id | id in local :: local[id].code != c.code {
        local := local[c.id := Local(c.event, c.code, StatusOf(c))];
      } else if c.id in local && !Closed(local[c.id]) {
        local := local[c.id := local[c.id].(status := StatusOf(c))];
      }
    }

    method Lookup(input: Code) returns (found: Option<TicketId>)
      requires Valid()
      ensures found == FindLocal(local, input)
    {
      var ids := local.Keys;
      while ids != {}
        invariant ids <= local.Keys
        invariant forall id :: id in local && local[id].code == input ==> id in ids
        decreases |ids|
      {
        var id :| id in ids;
        if local[id].code == input { return Some(id); }
        ids := ids - {id};
      }
      return if input in local then Some(input) else None;
    }

    // `reply` is what ticket-service answered, if it was reached.
    method ScanTicket(scan: Scan, reply: Option<Copy>) returns (r: Result<(), ScanError>)
      requires Valid()
      modifies this
      ensures Valid()
      ensures reply.Some? && scan.gate.Some? && scan.gate.value != reply.value.event ==>
                r == Failure(WrongEvent) && local == old(local) && published == old(published)
      ensures !(reply.Some? && scan.gate.Some? && scan.gate.value != reply.value.event) ==>
                var synced := if reply.Some? then Synced(old(local), reply.value) else old(local);
                var found := FindLocal(synced, scan.input);
                && (r.Success? <==> found.Some? && !Refused(synced[found.value], scan))
                && (r.Success? ==> && local == synced[found.value := synced[found.value].(status := CheckedIn)]
                                   && published == old(published) + [(found.value, synced[found.value].code)])
                && (r.Failure? ==> && local == synced && published == old(published)
                                   && r.error == if found.None? then NotFound
                                                 else if scan.gate.Some? && scan.gate.value != synced[found.value].event
                                                 then WrongEvent else AlreadyUsed)
      ensures reply.Some? && !reply.value.used && reply.value.code == scan.input
              && (scan.gate == None || scan.gate == Some(reply.value.event))
              && Unused(old(local), reply.value.id, scan.input) ==>
                var c := reply.value;
                && r == Success(())
                && OneMore(old(local), local, c.id, Local(c.event, c.code, CheckedIn))
                && published == old(published) + [(c.id, c.code)]
    {
      if reply.Some? { SyncedIff(local, reply.value); }
      if reply.Some? {
        if scan.gate.Some? && reply.value.event != scan.gate.value { return Failure(WrongEvent); }
        SyncTicket(reply.value);
      }
      var found := Lookup(scan.input);
      if found.None? { return Failure(NotFound); }
      var row := local[found.value];
      if scan.gate.Some? && row.event != scan.gate.value { return Failure(WrongEvent); }
      if Closed(row) { return Failure(AlreadyUsed); }
      local := local[found.value := row.(status := CheckedIn)];
      published := published + [(found.value, row.code)];
      return Success(());
    }
  }
}
