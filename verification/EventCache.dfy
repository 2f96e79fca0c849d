/** The event cache of event-service against the service without it. */
module EventCache {
  import opened Common

  // The columns an organizer edits, apart from those the queries look at.
  type Details = nat
  type Slug = nat

  datatype Event = Event(
    id: EventId, organizer: UserId, slug: Slug, published: bool, startDate: Time, details: Details)

  // What a caller may name an event by: its id, in the canonical spelling 0 or another spelling that
  // parses to the same id, or its slug. Every name is its own cache key.
  datatype Name = Id(id: EventId, spelling: nat) | BySlug(slug: Slug)

  type Page = p: nat | 1 <= p witness 1

  datatype Listing = Listing(events: seq<Event>, total: nat)

  // ---- the queries ----

  // GetEventByID: the row's position, or the table's length.
  function IndexOf(table: seq<Event>, id: EventId): (i: nat)
    ensures i <= |table|
    ensures i < |table| ==> table[i].id == id
    ensures forall j :: 0 <= j < i ==> table[j].id != id
  {
    if table == [] || table[0].id == id then 0 else 1 + IndexOf(table[1..], id)
  }

  function IndexOfSlug(table: seq<Event>, slug: Slug): (i: nat)
    ensures i <= |table|
    ensures i < |table| ==> table[i].slug == slug
    ensures forall j :: 0 <= j < i ==> table[j].slug != slug
  {
    if table == [] || table[0].slug == slug then 0 else 1 + IndexOfSlug(table[1..], slug)
  }

  function Read(table: seq<Event>, name: Name): Option<Event> {
    var i := if name.Id? then IndexOf(table, name.id) else IndexOfSlug(table, name.slug);
    if i < |table| then Some(table[i]) else None
  }

  function Place(e: Event, sorted: seq<Event>): seq<Event> {
    if sorted == [] || e.startDate < sorted[0].startDate then [e] + sorted
    else [sorted[0]] + Place(e, sorted[1..])
  }

  // WHERE status = 'published' ORDER BY start_date.
  function PublishedByDate(table: seq<Event>): seq<Event> {
    if table == [] then []
    else
      var rest := PublishedByDate(table[..|table| - 1]);
      if table[|table| - 1].published then Place(table[|table| - 1], rest) else rest
  }

  function List(table: seq<Event>, page: Page, perPage: nat): Listing {
    var all := PublishedByDate(table);
    var from := Min((page - 1) * perPage, |all|);
    Listing(all[from..Min(from + perPage, |all|)], |all|)
  }

  // ---- the service without a cache ----

  datatype Answer = Found(event: Event) | NotFound | Listed(listing: Listing) | Refused | Done

  datatype Op =
    | Create(event: Event)
    | Update(name: Name, organizer: UserId, slug: Slug, published: bool, startDate: Time, details: Details)
    | Delete(name: Name, organizer: UserId)
    | Get(name: Name)
    | ListPage(page: Page, perPage: nat)
    | Lapse(name: Name)                       // a cache entry runs out
    | LapsePage(page: Page, perPage: nat)

  // The INSERT fails on a used id or slug.
  predicate Inserts(table: seq<Event>, e: Event) {
    IndexOf(table, e.id) == |table| && IndexOfSlug(table, e.slug) == |table|
  }

  // The row that `UPDATE ... WHERE id AND organizer_id` finds, if the name is an id at all.
  predicate Reaches(table: seq<Event>, name: Name, organizer: UserId) {
    name.Id? && IndexOf(table, name.id) < |table| && table[IndexOf(table, name.id)].organizer == organizer
  }

  // The new slug belongs to another row, and the UPDATE fails.
  predicate Conflicts(table: seq<Event>, id: EventId, slug: Slug) {
    exists j | 0 <= j < |table| :: table[j].slug == slug && table[j].id != id
  }

  // The row that an update changes.
  predicate Changes(table: seq<Event>, op: Op) {
    op.Update? && Reaches(table, op.name, op.organizer) && !Conflicts(table, op.name.id, op.slug)
  }

  function Edited(e: Event, op: Op): Event
    requires op.Update?
  {
    e.(slug := op.slug, published := op.published, startDate := op.startDate, details := op.details)
  }

  function Without(table: seq<Event>, id: EventId): (r: seq<Event>)
    ensures forall e :: e in r <==> e in table && e.id != id
  {
    if table == [] then []
    else (if table[0].id == id then [] else [table[0]]) + Without(table[1..], id)
  }

  function Plain(table: seq<Event>, op: Op): (seq<Event>, Answer) {
    match op
    case Create(e) => if Inserts(table, e) then (table + [e], Done) else (table, Refused)
    case Update(name, organizer, slug, _, _, _) =>
      if !Reaches(table, name, organizer) then (table, NotFound)
      else if Conflicts(table, name.id, slug) then (table, Refused)
      else (table[IndexOf(table, name.id) := Edited(table[IndexOf(table, name.id)], op)], Done)
    case Delete(name, organizer) =>
      if !name.Id? then (table, NotFound)
      else (if Reaches(table, name, organizer) then Without(table, name.id) else table, Done)
    case Get(name) => (table, if Read(table, name).Some? then Found(Read(table, name).value) else NotFound)
    case ListPage(page, perPage) => (table, Listed(List(table, page, perPage)))
    case Lapse(_) => (table, Done)
    case LapsePage(_, _) => (table, Done)
  }

  // ---- the service with its cache ----

  datatype Store = Store(table: seq<Event>, events: map<Name, Event>, pages: map<(Page, nat), Listing>)

  // `invalidateEventCache`: the key of the name as it was spelled, and every page.
  function Invalidate(st: Store, name: Option<Name>): Store {
    Store(st.table, if name.Some? then st.events - {name.value} else st.events, map[])
  }

  function Cached(st: Store, op: Op): (Store, Answer) {
    var (table, answer) := Plain(st.table, op);
    match op
    case Create(e) => (if answer.Done? then Invalidate(st.(table := table), None) else st, answer)
    case Update(name, _, _, _, _, _) =>
      (if answer.Done? then Invalidate(st.(table := table), Some(name)) else st, answer)
    case Delete(name, _) => (if answer.Done? then Invalidate(st.(table := table), Some(name)) else st, answer)
    case Get(name) =>
      if name in st.events then (st, Found(st.events[name]))
      else (if answer.Found? then st.(events := st.events[name := answer.event]) else st, answer)
    case ListPage(page, perPage) =>
      if (page, perPage) in st.pages then (st, Listed(st.pages[(page, perPage)]))
      else (st.(pages := st.pages[(page, perPage) := answer.listing]), answer)
    case Lapse(name) => (st.(events := st.events - {name}), answer)
    case LapsePage(page, perPage) => (st.(pages := st.pages - {(page, perPage)}), answer)
  }

  class EventService {
    var table: seq<Event>
    var events: map<Name, Event>
    var pages: map<(Page, nat), Listing>

    ghost function Value(): Store
      reads this
    {
      Store(table, events, pages)
    }

    constructor ()
      ensures Value() == Store([], map[], map[])
    {
      table, events, pages := [], map[], map[];
    }

    method InvalidateEventCache(name: Option<Name>)
      modifies this`events, this`pages
      ensures Value() == Invalidate(old(Value()), name)
    {
      if name.Some? { events := events - {name.value}; }
      while pages.Keys != {}
        invariant events == Invalidate(old(Value()), name).events
        decreases |pages.Keys|
      {
        var key :| key in pages.Keys;
        ghost var before := pages.Keys;
        pages := pages - {key};
        assert pages.Keys == before - {key};
      }
      assert pages == map[];
    }

    method GetEvent(name: Name) returns (answer: Answer)
      modifies this`events
      ensures (Value(), answer) == Cached(old(Value()), Get(name))
    {
      if name in events { return Found(events[name]); }
      var i := if name.Id? then IndexOf(table, name.id) else IndexOfSlug(table, name.slug);
      if i == |table| { return NotFound; }
      events := events[name := table[i]];
      return Found(table[i]);
    }

    method ListEvents(page: Page, perPage: nat) returns (answer: Answer)
      modifies this`pages
      ensures (Value(), answer) == Cached(old(Value()), ListPage(page, perPage))
    {
      if (page, perPage) in pages { return Listed(pages[(page, perPage)]); }
      var listing := List(table, page, perPage);
      pages := pages[(page, perPage) := listing];
      return Listed(listing);
    }

    method CreateEvent(e: Event) returns (answer: Answer)
      modifies this
      ensures (Value(), answer) == Cached(old(Value()), Create(e))
    {
      if IndexOf(table, e.id) < |table| || IndexOfSlug(table, e.slug) < |table| { return Refused; }
      table := table + [e];
      InvalidateEventCache(None);
      return Done;
    }

    method UpdateEvent(op: Op) returns (answer: Answer)
      requires op.Update?
      modifies this
      ensures (Value(), answer) == Cached(old(Value()), op)
    {
      if !op.name.Id? { return NotFound; }
      var i := IndexOf(table, op.name.id);
      if i == |table| || table[i].organizer != op.organizer { return NotFound; }
      if exists j | 0 <= j < |table| :: table[j].slug == op.slug && table[j].id != op.name.id { return Refused; }
      table := table[i := Edited(table[i], op)];
      InvalidateEventCache(Some(op.name));
      return Done;
    }

    method DeleteEvent(name: Name, organizer: UserId) returns (answer: Answer)
      modifies this
      ensures (Value(), answer) == Cached(old(Value()), Delete(name, organizer))
    {
      if !name.Id? { return NotFound; }
      var i := IndexOf(table, name.id);
      if i < |table| && table[i].organizer == organizer { table := Without(table, name.id); }
      InvalidateEventCache(Some(name));
      return Done;
    }
  }

  // ---- what the queries and the operations do ----

  ghost predicate Ascending(events: seq<Event>) {
    forall i, j :: 0 <= i < j < |events| ==> events[i].startDate <= events[j].startDate
  }

  lemma {:induction false} PlaceAdds(e: Event, sorted: seq<Event>)
    ensures multiset(Place(e, sorted)) == multiset(sorted) + multiset{e}
  {
    if sorted != [] && sorted[0].startDate <= e.startDate {
      assert sorted == [sorted[0]] + sorted[1..];
      PlaceAdds(e, sorted[1..]);
    }
  }

  lemma {:induction false} PlaceSorts(e: Event, sorted: seq<Event>)
    requires Ascending(sorted)
    ensures Ascending(Place(e, sorted)) && |Place(e, sorted)| == |sorted| + 1
    ensures Place(e, sorted)[0] == if sorted == [] || e.startDate < sorted[0].startDate then e else sorted[0]
  {
    if sorted != [] && sorted[0].startDate <= e.startDate { PlaceSorts(e, sorted[1..]); }
  }

  /** The listing query: every published event as often as it is in the table, no other, by ascending date. */
  lemma {:induction false} PublishedSorted(table: seq<Event>, e: Event)
    ensures Ascending(PublishedByDate(table))
    ensures multiset(PublishedByDate(table))[e] == if e.published then multiset(table)[e] else 0
  {
    if table != [] {
      var last := |table| - 1;
      assert table == table[..last] + [table[last]];
      PublishedSorted(table[..last], e);
      if table[last].published {
        PlaceSorts(table[last], PublishedByDate(table[..last]));
        PlaceAdds(table[last], PublishedByDate(table[..last]));
      }
    }
  }

  function FirstPages(table: seq<Event>, pages: nat, perPage: nat): seq<Event> {
    if pages == 0 then [] else FirstPages(table, pages - 1, perPage) + List(table, pages, perPage).events
  }

  /** The pages one after another are the listing from its start, each full up to the last, and every page says
      how many events there are. */
  lemma {:induction false} PagesInOrder(table: seq<Event>, pages: nat, perPage: nat)
    ensures FirstPages(table, pages, perPage) <= PublishedByDate(table)
    ensures |FirstPages(table, pages, perPage)| == Min(pages * perPage, |PublishedByDate(table)|)
    ensures pages >= 1 ==> List(table, pages, perPage).total == |PublishedByDate(table)|
  {
    if pages > 0 {
      PagesInOrder(table, pages - 1, perPage);
      assert pages * perPage == (pages - 1) * perPage + perPage;
    }
  }

  /** An event is created exactly if no row has its id or its slug, and then it is one more row. */
  lemma CreatedOnce(table: seq<Event>, e: Event)
    ensures var (table', answer) := Plain(table, Create(e));
            var clash := exists j :: 0 <= j < |table| && (table[j].id == e.id || table[j].slug == e.slug);
            && answer == (if clash then Refused else Done)
            && table' == if clash then table else table + [e]
  {
  }

  /** An organizer changes its own event and no other: the update keeps id and organizer and sets the rest,
      unless another event has the slug; whoever else asks is told there is no such event. */
  lemma OwnUpdatesOnly(table: seq<Event>, op: Op, i: nat)
    requires Unique(table) && i < |table| && op.Update? && op.name.Id? && op.name.id == table[i].id
    ensures var (table', answer), e := Plain(table, op), table[i];
            var taken := exists j :: 0 <= j < |table| && j != i && table[j].slug == op.slug;
            if op.organizer == e.organizer && !taken then
              answer == Done
              && table' == table[i := Event(e.id, e.organizer, op.slug, op.published, op.startDate, op.details)]
            else table' == table && answer == if op.organizer == e.organizer then Refused else NotFound
  {
    IndexOfIs(table, op.name.id, i);
    SlugTaken(table, i, op.slug);
  }

  lemma SlugTaken(table: seq<Event>, i: nat, slug: Slug)
    requires Unique(table) && i < |table|
    ensures Conflicts(table, table[i].id, slug) <==>
            exists j :: 0 <= j < |table| && j != i && table[j].slug == slug
  {
  }

  /** It deletes its own event and no other, and is told the same either way. */
  lemma OwnDeletesOnly(table: seq<Event>, op: Op, i: nat)
    requires Unique(table) && i < |table| && op.Delete? && op.name.Id? && op.name.id == table[i].id
    ensures Plain(table, op) ==
            (if op.organizer == table[i].organizer then table[..i] + table[i + 1..] else table, Done)
  {
    IndexOfIs(table, op.name.id, i);
    WithoutOne(table, i);
  }

  lemma {:induction false} WithoutNone(table: seq<Event>, id: EventId)
    requires forall j :: 0 <= j < |table| ==> table[j].id != id
    ensures Without(table, id) == table
  {
    if table != [] { WithoutNone(table[1..], id); }
  }

  lemma {:induction false} WithoutJoin(a: seq<Event>, b: seq<Event>, id: EventId)
    ensures Without(a + b, id) == Without(a, id) + Without(b, id)
  {
    if a == [] {
      assert a + b == b;
    } else {
      assert (a + b)[1..] == a[1..] + b;
      WithoutJoin(a[1..], b, id);
    }
  }

  lemma {:induction false} WithoutMiddle(before: seq<Event>, e: Event, behind: seq<Event>)
    requires forall j :: 0 <= j < |before| ==> before[j].id != e.id
    requires forall j :: 0 <= j < |behind| ==> behind[j].id != e.id
    ensures Without(before + [e] + behind, e.id) == before + behind
  {
    WithoutNone(before, e.id);
    WithoutNone(behind, e.id);
    WithoutJoin(before + [e], behind, e.id);
    WithoutJoin(before, [e], e.id);
    assert Without([e], e.id) == [] by { assert [e][1..] == []; }
    assert before + [] == before;
  }

  lemma {:induction false} WithoutOne(table: seq<Event>, i: nat)
    requires Unique(table) && i < |table|
    ensures Without(table, table[i].id) == table[..i] + table[i + 1..]
  {
    assert table == table[..i] + [table[i]] + table[i + 1..];
    WithoutMiddle(table[..i], table[i], table[i + 1..]);
  }

  /** A name that is no id, or the id of no row, reaches nothing. */
  lemma UnknownIsNotFound(table: seq<Event>, op: Op)
    requires op.Update? || op.Delete?
    requires op.name.Id? ==> forall j :: 0 <= j < |table| ==> table[j].id != op.name.id
    ensures Plain(table, op) == (table, if op.Delete? && op.name.Id? then Done else NotFound)
  {
  }

  /** The cache is used: a read that finds its event, and a list, is kept under its name and answered from there
      until it lapses or is invalidated, without a look at the table; and reads and lapses drop nothing else. */
  lemma ReadIsCached(st: Store, op: Op, table: seq<Event>)
    requires op.Get? || op.ListPage?
    ensures var (st', answer) := Cached(st, op);
            && (answer != NotFound ==> Cached(st'.(table := table), op) == (st'.(table := table), answer))
            && (forall name :: name in st.events ==> name in st'.events && st'.events[name] == st.events[name])
            && (forall key :: key in st.pages ==> key in st'.pages && st'.pages[key] == st.pages[key])
  {
  }

  /** What lapses is gone from the cache, and nothing else is. */
  lemma LapseDropsOne(st: Store, op: Op)
    requires op.Lapse? || op.LapsePage?
    ensures var st' := Cached(st, op).0;
            && st'.table == st.table
            && (forall name :: name in st'.events <==> name in st.events && !(op.Lapse? && op.name == name))
            && (forall key :: key in st'.pages <==>
                  key in st.pages && !(op.LapsePage? && key == (op.page, op.perPage)))
  {
  }

  /** A change that is refused or finds nothing leaves the cache alone; one that is done empties the pages. */
  lemma ChangeEmptiesPages(st: Store, op: Op)
    requires op.Create? || op.Update? || op.Delete?
    ensures var (st', answer) := Cached(st, op);
            && (answer != Done ==> st' == st)
            && (answer == Done ==>
                  st'.pages == map[] && st'.events == if op.Create? then st.events else st.events - {op.name})
  {
  }

  // ---- coherence ----

  lemma IndexOfIs(table: seq<Event>, id: EventId, i: nat)
    requires i <= |table| && (i < |table| ==> table[i].id == id)
    requires forall j :: 0 <= j < i ==> table[j].id != id
    ensures IndexOf(table, id) == i
  {
  }

  lemma ReadAfterAppend(table: seq<Event>, e: Event, id: EventId, spelling: nat)
    requires IndexOf(table, e.id) == |table|
    ensures Read(table + [e], Id(id, spelling)) == if id == e.id then Some(e) else Read(table, Id(id, spelling))
  {
    IndexOfIs(table + [e], id, if IndexOf(table, id) < |table| || id == e.id then IndexOf(table, id) else |table| + 1);
  }

  lemma ReadAfterUpdate(table: seq<Event>, i: nat, e: Event, id: EventId, spelling: nat)
    requires i < |table| && IndexOf(table, table[i].id) == i && e.id == table[i].id
    ensures Read(table[i := e], Id(id, spelling)) == if id == e.id then Some(e) else Read(table, Id(id, spelling))
  {
    IndexOfIs(table[i := e], id, IndexOf(table, id));
  }

  lemma ReadStep(table: seq<Event>, id: EventId, spelling: nat)
    requires table != []
    ensures Read(table, Id(id, spelling)) ==
            if table[0].id == id then Some(table[0]) else Read(table[1..], Id(id, spelling))
  {
  }

  lemma {:induction false} ReadAfterDelete(table: seq<Event>, gone: EventId, id: EventId, spelling: nat)
    ensures Read(Without(table, gone), Id(id, spelling)) == if id == gone then None else Read(table, Id(id, spelling))
  {
    if table != [] {
      var rest := Without(table[1..], gone);
      ReadAfterDelete(table[1..], gone, id, spelling);
      ReadStep(table, id, spelling);
      if table[0].id != gone {
        assert Without(table, gone) == [table[0]] + rest;
        ReadStep([table[0]] + rest, id, spelling);
        assert ([table[0]] + rest)[1..] == rest;
      } else {
        assert Without(table, gone) == rest;
      }
    }
  }

  predicate Fresh(st: Store, name: Name) {
    name in st.events ==> Read(st.table, name) == Some(st.events[name])
  }

  /** What the cache holds under canonical ids, and every page it holds, is what the database would say. */
  ghost predicate Coherent(st: Store) {
    && (forall id: EventId :: Fresh(st, Id(id, 0)))
    && (forall key :: key in st.pages ==> st.pages[key] == List(st.table, key.0, key.1))
  }

  /** Events are updated and deleted under the canonical spelling of their id; reads may use any name. */
  predicate Canonical(op: Op) {
    (op.Update? || op.Delete?) && op.name.Id? ==> op.name.spelling == 0
  }

  // Reads by canonical id, and lists.
  predicate Checked(op: Op) {
    op.ListPage? || (op.Get? && op.name.Id? && op.name.spelling == 0)
  }

  /** What a read by id gives after any operation, in terms of what it gave before. */
  lemma ReadAfter(table: seq<Event>, op: Op, id: EventId, spelling: nat)
    ensures var before, after := Read(table, Id(id, spelling)), Read(Plain(table, op).0, Id(id, spelling));
            after == match op
              case Create(e) => if e.id == id && Inserts(table, e) then Some(e) else before
              case Update(name, _, _, _, _, _) =>
                if name.Id? && name.id == id && Changes(table, op)
                then Some(Edited(before.value, op)) else before
              case Delete(name, organizer) =>
                if name.Id? && name.id == id && Reaches(table, name, organizer) then None else before
              case _ => before
  {
    match op
    case Create(e) => if Inserts(table, e) { ReadAfterAppend(table, e, id, spelling); }
    case Update(name, _, _, _, _, _) =>
      if Changes(table, op) {
        var i := IndexOf(table, name.id);
        ReadAfterUpdate(table, i, Edited(table[i], op), id, spelling);
      }
    case Delete(name, organizer) =>
      if Reaches(table, name, organizer) { ReadAfterDelete(table, name.id, id, spelling); }
    case _ =>
  }

  lemma StepCoherent(st: Store, op: Op)
    requires Coherent(st) && Canonical(op)
    ensures Coherent(Cached(st, op).0) && Cached(st, op).0.table == Plain(st.table, op).0
    ensures Checked(op) ==> Cached(st, op).1 == Plain(st.table, op).1
  {
    var st' := Cached(st, op).0;
    if op.Get? && op.name.Id? && op.name.spelling == 0 { assert Fresh(st, op.name); }
    forall id: EventId ensures Fresh(st', Id(id, 0)) {
      assert Fresh(st, Id(id, 0));
      ReadAfter(st.table, op, id, 0);
    }
  }

  function Answers(st: Store, ops: seq<Op>): seq<Answer>
    decreases |ops|
  {
    if ops == [] then [] else [Cached(st, ops[0]).1] + Answers(Cached(st, ops[0]).0, ops[1..])
  }

  function PlainAnswers(table: seq<Event>, ops: seq<Op>): seq<Answer>
    decreases |ops|
  {
    if ops == [] then [] else [Plain(table, ops[0]).1] + PlainAnswers(Plain(table, ops[0]).0, ops[1..])
  }

  /** Over any run whose updates and deletes spell ids canonically, and however cache entries lapse, every
      read by canonical id and every list is answered as without the cache. */
  lemma {:induction false} CacheInvisible(st: Store, ops: seq<Op>)
    requires Coherent(st) && forall i :: 0 <= i < |ops| ==> Canonical(ops[i])
    ensures |Answers(st, ops)| == |PlainAnswers(st.table, ops)| == |ops|
    ensures forall i :: 0 <= i < |ops| && Checked(ops[i]) ==>
              Answers(st, ops)[i] == PlainAnswers(st.table, ops)[i]
    decreases |ops|
  {
    if ops != [] {
      StepCoherent(st, ops[0]);
      assert Canonical(ops[0]);
      CacheInvisible(Cached(st, ops[0]).0, ops[1..]);
      forall i | 0 <= i < |ops| && Checked(ops[i])
        ensures Answers(st, ops)[i] == PlainAnswers(st.table, ops)[i]
      {
        if i > 0 { assert ops[i] == ops[1..][i - 1]; }
      }
    }
  }

  // ---- every name, slugs included ----

  /** The UNIQUE constraints of the table. */
  ghost predicate Unique(table: seq<Event>) {
    forall i, j :: 0 <= i < j < |table| ==> table[i].id != table[j].id && table[i].slug != table[j].slug
  }

  predicate Names(name: Name, e: Event) {
    if name.Id? then name.id == e.id else name.slug == e.slug
  }

  /** A read under any name gives the one row of that name. */
  lemma ReadIff(table: seq<Event>, name: Name, e: Event)
    requires Unique(table)
    ensures Read(table, name) == Some(e) <==> e in table && Names(name, e)
  {
    var i := if name.Id? then IndexOf(table, name.id) else IndexOfSlug(table, name.slug);
    if e in table && Names(name, e) {
      var j :| 0 <= j < |table| && table[j] == e;
      assert i == j;
    }
  }

  lemma {:induction false} WithoutUnique(table: seq<Event>, id: EventId)
    requires Unique(table)
    ensures Unique(Without(table, id))
  {
    if table != [] {
      var rest := Without(table[1..], id);
      WithoutUnique(table[1..], id);
      forall e | e in rest ensures e.id != table[0].id && e.slug != table[0].slug {
        assert e in table[1..];
      }
    }
  }

  lemma PlainKeepsUnique(table: seq<Event>, op: Op)
    requires Unique(table)
    ensures Unique(Plain(table, op).0)
  {
    match op
    case Update(name, _, _, _, _, _) =>
      if Changes(table, op) {
        var i := IndexOf(table, name.id);
        forall j | 0 <= j < |table| && j != i ensures table[j].id != name.id && table[j].slug != op.slug {}
      }
    case Delete(name, _) => if name.Id? { WithoutUnique(table, name.id); }
    case _ =>
  }

  /** The row an operation takes away or replaces by a different one. */
  function Altered(table: seq<Event>, op: Op): Option<Event> {
    if op.Update? && Changes(table, op) then
      var row := table[IndexOf(table, op.name.id)];
      if Edited(row, op) == row then None else Some(row)
    else if op.Delete? && Reaches(table, op.name, op.organizer) then Some(table[IndexOf(table, op.name.id)])
    else None
  }

  // Which rows there are after an operation.
  lemma RowsAfter(table: seq<Event>, op: Op, e: Event)
    requires Unique(table)
    ensures var row := Altered(table, op);
            e in Plain(table, op).0 <==>
              || (e in table && Some(e) != row)
              || (op.Create? && Inserts(table, op.event) && e == op.event)
              || (row.Some? && op.Update? && e == Edited(row.value, op))
  {
    match op
    case Update(name, _, _, _, _, _) => if Changes(table, op) { RowsAfterUpdate(table, op, e); }
    case Delete(name, organizer) =>
      if Reaches(table, name, organizer) {
        var row := table[IndexOf(table, name.id)];
        assert e in table && e.id == name.id ==> e == row;
      }
    case _ =>
  }

  lemma RowsAfterUpdate(table: seq<Event>, op: Op, e: Event)
    requires Unique(table) && Changes(table, op)
    ensures var row := table[IndexOf(table, op.name.id)];
            e in Plain(table, op).0 <==> (e in table && e != row) || e == Edited(row, op)
  {
    var i := IndexOf(table, op.name.id);
    var table' := table[i := Edited(table[i], op)];
    assert table'[i] == Edited(table[i], op);
    if e in table && e != table[i] {
      var j :| 0 <= j < |table| && table[j] == e;
      assert table'[j] == e;
    }
  }

  /** The cache, whatever it holds and under whatever name, says what the database would. */
  ghost predicate AllFresh(st: Store) {
    && Unique(st.table)
    && (forall name: Name :: Fresh(st, name))
    && (forall key :: key in st.pages ==> st.pages[key] == List(st.table, key.0, key.1))
  }

  /** The event that an operation alters is cached under a name other than the one it is made with: another
      spelling of its id, or its slug. */
  ghost predicate HeldElsewhere(st: Store, op: Op) {
    var row := Altered(st.table, op);
    row.Some? && exists name :: name in st.events && name != op.name && Names(name, row.value)
  }

  lemma NamesAlone(table: seq<Event>, name: Name, e: Event, f: Event)
    requires Unique(table) && e in table && f in table && Names(name, e) && Names(name, f)
    ensures e == f
  {
    ReadIff(table, name, e);
    ReadIff(table, name, f);
  }

  // What a name that is cached goes on meaning.
  lemma FreshAfterIff(st: Store, op: Op, name: Name)
    requires AllFresh(st) && name in st.events && !((op.Update? || op.Delete?) && name == op.name)
    ensures Read(Plain(st.table, op).0, name) == Some(st.events[name]) <==>
            !(Altered(st.table, op).Some? && Names(name, Altered(st.table, op).value))
  {
    var e, table' := st.events[name], Plain(st.table, op).0;
    assert Fresh(st, name);
    ReadIff(st.table, name, e);
    PlainKeepsUnique(st.table, op);
    ReadIff(table', name, e);
    RowsAfter(st.table, op, e);
    var row := Altered(st.table, op);
    if row.Some? && Names(name, row.value) { NamesAlone(st.table, name, e, row.value); }
  }

  lemma CachedTable(st: Store, op: Op)
    ensures Cached(st, op).0.table == Plain(st.table, op).0
    ensures op.Get? && op.name in st.events && Fresh(st, op.name) ==> Cached(st, op).1 == Plain(st.table, op).1
    ensures !op.Get? && !op.ListPage? ==> Cached(st, op).1 == Plain(st.table, op).1
  {
  }

  // Whatever the operation put into the cache is fresh, and what it left there is what was there.
  lemma CachedNames(st: Store, op: Op, name: Name)
    requires name in Cached(st, op).0.events
    ensures || (op.Get? && name == op.name && Read(st.table, name) == Some(Cached(st, op).0.events[name]))
            || (name in st.events && Cached(st, op).0.events[name] == st.events[name])
  {
  }

  // Only a change that is made with a name takes that name out, and a lapse.
  lemma CachedKeeps(st: Store, op: Op, name: Name)
    requires name in st.events && !((op.Update? || op.Delete? || op.Lapse?) && name == op.name)
    ensures name in Cached(st, op).0.events && Cached(st, op).0.events[name] == st.events[name]
  {
  }

  lemma PagesAfter(st: Store, op: Op)
    requires forall key :: key in st.pages ==> st.pages[key] == List(st.table, key.0, key.1)
    ensures var st' := Cached(st, op).0;
            forall key :: key in st'.pages ==> st'.pages[key] == List(st'.table, key.0, key.1)
    ensures op.ListPage? ==> Cached(st, op).1 == Plain(st.table, op).1
  {
  }

  lemma NameFreshAfter(st: Store, op: Op, name: Name)
    requires AllFresh(st) && !HeldElsewhere(st, op)
    ensures Fresh(Cached(st, op).0, name)
  {
    CachedTable(st, op);
    if name in Cached(st, op).0.events {
      CachedNames(st, op, name);
      if name in st.events && !((op.Update? || op.Delete?) && name == op.name) {
        FreshAfterIff(st, op, name);
      } else if op.Update? || op.Delete? {
        UnalteredIfKept(st, op);
      }
    }
  }

  // The name a change is made with stays cached only if nothing was done.
  lemma UnalteredIfKept(st: Store, op: Op)
    requires (op.Update? || op.Delete?) && op.name in Cached(st, op).0.events
    ensures Cached(st, op).0 == st
  {
  }

  /** After an operation the cache is right under every name, slugs included, if and only if the operation
      altered no event that was cached under a name other than the one it was made with. */
  lemma FreshKeptIff(st: Store, op: Op)
    requires AllFresh(st)
    ensures AllFresh(Cached(st, op).0) <==> !HeldElsewhere(st, op)
  {
    var st' := Cached(st, op).0;
    CachedTable(st, op);
    PlainKeepsUnique(st.table, op);
    PagesAfter(st, op);
    if HeldElsewhere(st, op) {
      var name :| name in st.events && name != op.name && Names(name, Altered(st.table, op).value);
      FreshAfterIff(st, op, name);
      CachedKeeps(st, op, name);
      assert !Fresh(st', name);
    } else {
      forall name: Name { NameFreshAfter(st, op, name); }
    }
  }

  /** While the cache is right, every answer is that of the service without it. */
  lemma AnswersRight(st: Store, op: Op)
    requires AllFresh(st)
    ensures Cached(st, op).1 == Plain(st.table, op).1 && Cached(st, op).0.table == Plain(st.table, op).0
  {
    CachedTable(st, op);
    PagesAfter(st, op);
    if op.Get? { assert Fresh(st, op.name); }
  }

  // No operation of the run alters an event that is cached under another name.
  ghost predicate NeverHeldElsewhere(st: Store, ops: seq<Op>)
    decreases |ops|
  {
    ops == [] || (!HeldElsewhere(st, ops[0]) && NeverHeldElsewhere(Cached(st, ops[0]).0, ops[1..]))
  }

  /** Over any such run, whatever the names used, every single answer is the one given without the cache. */
  lemma {:induction false} CacheInvisibleUnderEveryName(st: Store, ops: seq<Op>)
    requires AllFresh(st) && NeverHeldElsewhere(st, ops)
    ensures Answers(st, ops) == PlainAnswers(st.table, ops)
    decreases |ops|
  {
    if ops != [] {
      AnswersRight(st, ops[0]);
      FreshKeptIff(st, ops[0]);
      CacheInvisibleUnderEveryName(Cached(st, ops[0]).0, ops[1..]);
    }
  }

  /** From any state with the event cached under another name, the very next read by that name is wrong. */
  lemma HeldElsewhereIsStale(st: Store, op: Op, name: Name)
    requires AllFresh(st) && Altered(st.table, op).Some?
    requires name in st.events && name != op.name && Names(name, Altered(st.table, op).value)
    ensures var row, st' := Altered(st.table, op).value, Cached(st, op).0;
            && Cached(st', Get(name)).1 == Found(row)
            && Plain(st'.table, Get(name)).1 != Found(row)
  {
    var row := Altered(st.table, op).value;
    assert Fresh(st, name);
    ReadIff(st.table, name, st.events[name]);
    NamesAlone(st.table, name, st.events[name], row);
    CachedTable(st, op);
    CachedKeeps(st, op, name);
    FreshAfterIff(st, op, name);
  }

  // One event, and what is left of it and of the cache when it is read by its slug, changed, and read again.
  function Concert(): Event {
    Event(1, 2, 5, true, 0, 7)
  }

  function ReadThen(op: Op): Store {
    Cached(Cached(Store([Concert()], map[], map[]), Get(BySlug(5))).0, op).0
  }

  /** Read by slug, then given a new title and with it a new slug: the old event is still read by the old slug,
      of which the table knows nothing any more. */
  lemma RenamedStillRead()
    ensures var st := ReadThen(Update(Id(1, 0), 2, 6, true, 0, 8));
            && st.table == [Event(1, 2, 6, true, 0, 8)]
            && Cached(st, Get(BySlug(5))).1 == Found(Concert())
            && Plain(st.table, Get(BySlug(5))).1 == NotFound
  {
  }

  /** Read by slug, then deleted: it is still read by its slug. */
  lemma DeletedStillRead()
    ensures var st := ReadThen(Delete(Id(1, 0), 2));
            && st.table == []
            && Cached(st, Get(BySlug(5))).1 == Found(Concert())
            && Plain(st.table, Get(BySlug(5))).1 == NotFound
  {
  }
}
