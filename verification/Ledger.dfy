/** The billing tables (internal/db/billing_repo.go:53-125) and the publishers in front of
    them (internal/billing/publisher.go:105-126).

    Events are delivered with faults, again and out of order. A billable event is a
    transaction over two tables, keyed by the event's id; free units are a single upsert. */
module Ledger {
  import opened Sums
  import opened Billing

  // ----- the two tables -------------------------------------------------------------

  datatype Usage = Usage(success: int, billable: int)

  /** A row of usage_daily: token and day. */
  type Slot = (string, string)

  datatype Tables = Tables(events: map<string, Event>, usage: map<Slot, Usage>)

  const EMPTY := Tables(map[], map[])

  function SlotOf(e: Event): Slot { (e.tokenKey, e.day) }

  /** INSERT ... ON CONFLICT (token_key, day) DO UPDATE. */
  function Upserted(usage: map<Slot, Usage>, slot: Slot, success: int, billable: int): map<Slot, Usage> {
    usage[slot := if slot in usage then Usage(usage[slot].success + success, usage[slot].billable + billable)
                  else Usage(success, billable)]
  }

  /** The step at which the database fails, if it gets that far. `LostAck` commits, but the
      answer never arrives. */
  datatype Fault = Fine | NoBegin | NoInsert | NoUpsert | NoCommit | LostAck

  function Recorded(t: Tables, e: Event): Tables {
    if e.id in t.events then t
    else Tables(t.events[e.id := e],
                Upserted(t.usage, SlotOf(e), e.successN, if e.billable then e.successN else 0))
  }

  /** The transaction of a billable event takes effect. The table refuses events without
      successes (migrations/001_init.sql:82). */
  predicate Commits(t: Tables, e: Event, fault: Fault) {
    && e.successN > 0
    && (fault == Fine || fault == LostAck || (fault == NoUpsert && e.id in t.events))
  }

  predicate FreeCommits(e: Event, fault: Fault) {
    e.successN > 0 && (fault == Fine || fault == LostAck)
  }

  datatype Delivery = Delivery(e: Event, fault: Fault)

  /** What publishing makes of the tables. */
  function Step(t: Tables, d: Delivery): Tables {
    if d.e.billable then if Commits(t, d.e, d.fault) then Recorded(t, d.e) else t
    else if FreeCommits(d.e, d.fault) then t.(usage := Upserted(t.usage, SlotOf(d.e), d.e.successN, 0))
    else t
  }

  class Postgres {
    var events: map<string, Event>
    var usage: map<Slot, Usage>

    constructor ()
      ensures Kept() == EMPTY
    {
      events, usage := map[], map[];
    }

    function Kept(): Tables
      reads this
    {
      Tables(events, usage)
    }

    /** One transaction: the event, and the usage of its day if the event is new. */
    method RecordBillableSuccess(e: Event, fault: Fault) returns (ok: bool)
      modifies this
      ensures Kept() == if Commits(old(Kept()), e, fault) then Recorded(old(Kept()), e) else old(Kept())
      ensures ok <==> Commits(old(Kept()), e, fault) && fault != LostAck
      ensures ok && e.id !in old(events) ==>
        var day := (e.tokenKey, e.day);
        && e.id in events && events[e.id] == e && day in usage
        && usage[day].success == e.successN + (if day in old(usage) then old(usage)[day].success else 0)
        && usage[day].billable == (if e.billable then e.successN else 0)
                                    + (if day in old(usage) then old(usage)[day].billable else 0)
    {
      if fault == NoBegin {
        return false;
      }
      var txEvents, txUsage := events, usage;
      if fault == NoInsert || e.successN <= 0 {
        return false;
      }
      var affected := 0;
      if e.id !in txEvents {
        txEvents := txEvents[e.id := e];
        affected := 1;
      }
      if affected > 0 {
        var billableN := 0;
        if e.billable {
          billableN := e.successN;
        }
        if fault == NoUpsert {
          return false;
        }
        txUsage := Upserted(txUsage, SlotOf(e), e.successN, billableN);
      }
      if fault == NoCommit {
        return false;
      }
      events, usage := txEvents, txUsage;
      return fault != LostAck;
    }

    method IncrUsageDaily(key: string, day: string, successN: int, billableN: int, fault: Fault) returns (ok: bool)
      modifies this`usage
      ensures usage == if (successN <= 0 && billableN <= 0) || !(fault == Fine || fault == LostAck) then old(usage)
                       else Upserted(old(usage), (key, day), successN, billableN)
      ensures ok <==> (successN <= 0 && billableN <= 0) || fault == Fine
    {
      if successN <= 0 && billableN <= 0 {
        return true;
      }
      if fault != Fine && fault != LostAck {
        return false;
      }
      usage := Upserted(usage, (key, day), successN, billableN);
      return fault == Fine;
    }

    method Publish(e: Event, fault: Fault) returns (ok: bool)
      modifies this
      ensures Kept() == Step(old(Kept()), Delivery(e, fault))
      ensures ok <==> Accepts(old(Kept()), Delivery(e, fault))
    {
      if e.billable {
        ok := RecordBillableSuccess(e, fault);
        return;
      }
      ok := IncrUsageDaily(e.tokenKey, e.day, e.successN, 0, fault);
    }
  }

  /** The publisher reports no error. */
  predicate Accepts(t: Tables, d: Delivery) {
    if d.e.billable then Commits(t, d.e, d.fault) && d.fault != LostAck
    else d.e.successN <= 0 || d.fault == Fine
  }

  // ----- several publishers ---------------------------------------------------------

  class Stream {
    var entries: seq<Event>

    constructor ()
      ensures entries == []
    {
      entries := [];
    }

    method Publish(e: Event, fault: Fault) returns (ok: bool)
      modifies this
      ensures entries == if fault == Fine || fault == LostAck then old(entries) + [e] else old(entries)
      ensures ok <==> fault == Fine
    {
      if fault == Fine || fault == LostAck {
        entries := entries + [e];
      }
      return fault == Fine;
    }
  }

  datatype Publisher = Log | ToStream(stream: Stream) | ToDatabase(db: Postgres)
  {
    ghost function Objects(): set<object> {
      match this case Log => {} case ToStream(stream) => {stream} case ToDatabase(db) => {db}
    }

    function Holds(): Held
      reads Objects()
    {
      match this
      case Log => Nothing
      case ToStream(stream) => Entries(stream.entries)
      case ToDatabase(db) => Accounts(db.Kept())
    }

    method Publish(e: Event, fault: Fault) returns (ok: bool)
      modifies Objects()
      ensures Holds() == Given(old(Holds()), Delivery(e, fault))
      ensures ok == Takes(old(Holds()), Delivery(e, fault))
    {
      match this
      case Log => ok := true;
      case ToStream(stream) => ok := stream.Publish(e, fault);
      case ToDatabase(db) => ok := db.Publish(e, fault);
    }
  }

  datatype Held = Nothing | Entries(entries: seq<Event>) | Accounts(tables: Tables)

  function Given(h: Held, d: Delivery): Held {
    match h
    case Nothing => h
    case Entries(entries) => if d.fault == Fine || d.fault == LostAck then Entries(entries + [d.e]) else h
    case Accounts(tables) => Accounts(Step(tables, d))
  }

  predicate Takes(h: Held, d: Delivery) {
    match h
    case Nothing => true
    case Entries(_) => d.fault == Fine
    case Accounts(tables) => Accepts(tables, d)
  }

  ghost predicate Apart(pubs: seq<Publisher>) {
    forall i, j :: 0 <= i < j < |pubs| ==> pubs[i].Objects() !! pubs[j].Objects()
  }

  ghost function AllObjects(pubs: seq<Publisher>): set<object> {
    set i, o | 0 <= i < |pubs| && o in pubs[i].Objects() :: o
  }

  /** Every publisher gets the event, whichever failed before; the first failure is the
      one reported. */
  method PublishToAll(pubs: seq<Publisher>, e: Event, faults: seq<Fault>) returns (firstErr: Option<nat>)
    requires |faults| == |pubs| && Apart(pubs)
    modifies AllObjects(pubs)
    ensures forall i :: 0 <= i < |pubs| && pubs[i].ToDatabase? ==>
      pubs[i].db.Kept() == Step(old(pubs[i].db.Kept()), Delivery(e, faults[i]))
    ensures forall i :: 0 <= i < |pubs| && pubs[i].ToStream? ==>
      pubs[i].stream.entries == old(pubs[i].stream.entries) + (if faults[i] in {Fine, LostAck} then [e] else [])
    ensures firstErr.Some? ==> firstErr.value < |pubs|
    ensures forall i :: 0 <= i < (if firstErr.Some? then firstErr.value else |pubs|) ==>
      && (pubs[i].ToStream? ==> faults[i] == Fine)
      && (pubs[i].ToDatabase? ==> Accepts(old(pubs[i].db.Kept()), Delivery(e, faults[i])))
    ensures firstErr.Some? ==>
      var i := firstErr.value;
      || (pubs[i].ToStream? && faults[i] != Fine)
      || (pubs[i].ToDatabase? && !Accepts(old(pubs[i].db.Kept()), Delivery(e, faults[i])))
  {
    hide Step, Accepts;
    firstErr := None;
    for i := 0 to |pubs|
      invariant forall j :: 0 <= j < i ==> pubs[j].Holds() == Given(old(pubs[j].Holds()), Delivery(e, faults[j]))
      invariant forall j :: i <= j < |pubs| ==> pubs[j].Holds() == old(pubs[j].Holds())
      invariant firstErr.Some? ==> firstErr.value < i
      invariant firstErr.Some? ==> !Takes(old(pubs[firstErr.value].Holds()), Delivery(e, faults[firstErr.value]))
      invariant forall j :: 0 <= j < (if firstErr.Some? then firstErr.value else i) ==>
        Takes(old(pubs[j].Holds()), Delivery(e, faults[j]))
    {
      var ok := pubs[i].Publish(e, faults[i]);
      if !ok && firstErr.None? {
        firstErr := Some(i);
      }
    }
  }

  /** The publishers of a configuration: whatever is chosen, a database is one of them, and
      if there is nothing else events are logged. */
  method NewPublishers(kind: string, redis: Stream?, db: Postgres?) returns (pubs: seq<Publisher>)
    ensures pubs != [] && Apart(pubs)
    ensures forall p :: p in pubs ==>
      p.Log? || (p.ToStream? && p.stream == redis) || (p.ToDatabase? && p.db == db)
    ensures db != null ==> ToDatabase(db) in pubs
    ensures redis != null && kind == "redis_stream" ==> ToStream(redis) in pubs
    ensures db == null && (redis == null || kind != "redis_stream") ==> pubs == [Log]
  {
    pubs := [];
    if kind == "redis_stream" {
      if redis != null {
        pubs := pubs + [ToStream(redis)];
      } else {
        pubs := pubs + [Log];
      }
    } else if kind == "postgres" {
      if db == null {
        pubs := pubs + [Log];
      }
    } else {
      pubs := pubs + [Log];
    }
    ghost var before := pubs;
    if db != null {
      pubs := pubs + [ToDatabase(db)];
      assert pubs[|before|] == ToDatabase(db);
    }
  }

  // ----- runs of deliveries ---------------------------------------------------------

  ghost function After(ds: seq<Delivery>): Tables {
    if ds == [] then EMPTY else Step(After(ds[..|ds| - 1]), ds[|ds| - 1])
  }

  /** What publisher `i` is given. */
  ghost function GivenTo(events: seq<Event>, faults: seq<seq<Fault>>, i: nat): seq<Delivery>
    requires |faults| == |events| && forall k :: 0 <= k < |faults| ==> i < |faults[k]|
  {
    seq(|events|, k requires 0 <= k < |events| => Delivery(events[k], faults[k][i]))
  }

  /** Events published one after the other to all publishers, whatever fails: each database
      among them is left as its deliveries say. */
  method PublishEach(pubs: seq<Publisher>, events: seq<Event>, faults: seq<seq<Fault>>)
    requires Apart(pubs) && |faults| == |events| && forall k :: 0 <= k < |faults| ==> |faults[k]| == |pubs|
    requires forall i :: 0 <= i < |pubs| && pubs[i].ToDatabase? ==> pubs[i].db.Kept() == EMPTY
    modifies AllObjects(pubs)
    ensures forall i :: 0 <= i < |pubs| && pubs[i].ToDatabase? ==>
      pubs[i].db.Kept() == After(GivenTo(events, faults, i))
  {
    for k := 0 to |events|
      invariant forall i :: 0 <= i < |pubs| && pubs[i].ToDatabase? ==>
        pubs[i].db.Kept() == After(GivenTo(events, faults, i)[..k])
    {
      var _ := PublishToAll(pubs, events[k], faults[k]);
      forall i | 0 <= i < |pubs| && pubs[i].ToDatabase?
        ensures pubs[i].db.Kept() == After(GivenTo(events, faults, i)[..k + 1])
      {
        AfterOneMore(GivenTo(events, faults, i), k);
      }
    }
    assert forall i :: 0 <= i < |pubs| ==> GivenTo(events, faults, i)[..|events|] == GivenTo(events, faults, i);
  }

  lemma {:induction false} AfterOneMore(ds: seq<Delivery>, k: nat)
    requires k < |ds|
    ensures After(ds[..k + 1]) == Step(After(ds[..k]), ds[k])
  {
    assert ds[..k + 1][..k] == ds[..k];
  }

  /** What a publisher accepts is in the tables, and without a fault it accepts. */
  lemma {:induction false} AcceptedIsWritten(t: Tables, d: Delivery)
    requires d.e.successN > 0
    ensures d.fault == Fine ==> Accepts(t, d)
    ensures Accepts(t, d) && d.e.billable ==> d.e.id in Step(t, d).events
    ensures Accepts(t, d) && !(d.e.billable && d.e.id in t.events) ==>
              SuccessCount(Step(t, d), SlotOf(d.e)) == SuccessCount(t, SlotOf(d.e)) + d.e.successN
    ensures Accepts(t, d) && d.e.billable && d.e.id in t.events ==> Step(t, d) == t
  {
  }

  /** Ids of billable events that some delivery has committed. */
  ghost function CommittedIds(ds: seq<Delivery>): set<string> {
    if ds == [] then {} else
    var before, d := ds[..|ds| - 1], ds[|ds| - 1];
    CommittedIds(before) + (if d.e.billable && Commits(After(before), d.e, d.fault) then {d.e.id} else {})
  }

  /** Free events, as often as they were committed. */
  ghost function CommittedFree(ds: seq<Delivery>): seq<Event> {
    if ds == [] then [] else
    var before, d := ds[..|ds| - 1], ds[|ds| - 1];
    CommittedFree(before) + (if !d.e.billable && FreeCommits(d.e, d.fault) then [d.e] else [])
  }

  function UnitsIn(e: Event, slot: Slot): int {
    if e.tokenKey == slot.0 && e.day == slot.1 then e.successN else 0
  }

  ghost function Units(events: seq<Event>, slot: Slot): int {
    if events == [] then 0 else Units(events[..|events| - 1], slot) + UnitsIn(events[|events| - 1], slot)
  }

  function StoredValues(events: map<string, Event>, slot: Slot): map<string, int> {
    map id | id in events :: UnitsIn(events[id], slot)
  }

  ghost function StoredUnits(events: map<string, Event>, slot: Slot): int {
    Total(StoredValues(events, slot))
  }

  function SuccessCount(t: Tables, slot: Slot): int {
    if slot in t.usage then t.usage[slot].success else 0
  }

  function BillableCount(t: Tables, slot: Slot): int {
    if slot in t.usage then t.usage[slot].billable else 0
  }

  // ----- the books balance ----------------------------------------------------------

  ghost predicate Balanced(t: Tables, free: seq<Event>, slot: Slot) {
    && BillableCount(t, slot) == StoredUnits(t.events, slot)
    && SuccessCount(t, slot) == StoredUnits(t.events, slot) + Units(free, slot)
  }

  /** A row exists for the days that have seen a stored event or free units, and no other. */
  ghost predicate Rows(t: Tables, free: seq<Event>, slot: Slot) {
    slot in t.usage <==>
      || (exists id :: id in t.events && SlotOf(t.events[id]) == slot)
      || (exists e :: e in free && SlotOf(e) == slot)
  }

  ghost predicate BillableOnly(t: Tables) {
    forall id :: id in t.events ==> t.events[id].billable && t.events[id].id == id && t.events[id].successN > 0
  }

  lemma {:induction false} StoredAdds(events: map<string, Event>, e: Event, slot: Slot)
    requires e.id !in events
    ensures StoredUnits(events[e.id := e], slot) == StoredUnits(events, slot) + UnitsIn(e, slot)
  {
    assert StoredValues(events[e.id := e], slot) == StoredValues(events, slot)[e.id := UnitsIn(e, slot)];
    TotalUpdate(StoredValues(events, slot), e.id, UnitsIn(e, slot));
  }

  lemma {:induction false} UnitsAdd(events: seq<Event>, e: Event, slot: Slot)
    ensures Units(events + [e], slot) == Units(events, slot) + UnitsIn(e, slot)
  {
    assert (events + [e])[..|events|] == events;
  }

  lemma {:induction false} RecordingBalances(t: Tables, e: Event, free: seq<Event>, slot: Slot)
    requires Balanced(t, free, slot) && Rows(t, free, slot) && e.billable && e.id !in t.events
    ensures Balanced(Recorded(t, e), free, slot) && Rows(Recorded(t, e), free, slot)
  {
    StoredAdds(t.events, e, slot);
    var u := Recorded(t, e);
    if SlotOf(e) == slot {
      assert u.events[e.id] == e;
    } else {
      assert forall id :: id in t.events ==> u.events[id] == t.events[id];
    }
  }

  lemma {:induction false} FreeBalances(t: Tables, e: Event, free: seq<Event>, slot: Slot)
    requires Balanced(t, free, slot) && Rows(t, free, slot)
    ensures var u := t.(usage := Upserted(t.usage, SlotOf(e), e.successN, 0));
            Balanced(u, free + [e], slot) && Rows(u, free + [e], slot)
  {
    UnitsAdd(free, e, slot);
    if SlotOf(e) == slot {
      assert e in free + [e];
    } else {
      assert forall x :: x in free + [e] && SlotOf(x) == slot ==> x in free;
      assert forall x :: x in free ==> x in free + [e];
    }
  }

  /** Whatever is delivered, however often, in whatever order and with whatever faults:
      billable_count is the sum of the stored events, and success_count is that plus the
      free units committed. */
  lemma {:induction false} LedgerBalances(ds: seq<Delivery>, slot: Slot)
    ensures BillableCount(After(ds), slot) == StoredUnits(After(ds).events, slot)
    ensures SuccessCount(After(ds), slot) == StoredUnits(After(ds).events, slot) + Units(CommittedFree(ds), slot)
    ensures Rows(After(ds), CommittedFree(ds), slot) && BillableOnly(After(ds))
    decreases |ds|
  {
    if ds != [] {
      var before, d := ds[..|ds| - 1], ds[|ds| - 1];
      LedgerBalances(before, slot);
      var t := After(before);
      if d.e.billable && Commits(t, d.e, d.fault) && d.e.id !in t.events {
        RecordingBalances(t, d.e, CommittedFree(before), slot);
        assert CommittedFree(ds) == CommittedFree(before);
      } else if !d.e.billable && FreeCommits(d.e, d.fault) {
        FreeBalances(t, d.e, CommittedFree(before), slot);
      } else {
        assert After(ds) == t && CommittedFree(ds) == CommittedFree(before);
      }
    }
  }

  // ----- only what was committed counts ---------------------------------------------

  /** Equal ids of billable events carry equal events. */
  ghost predicate Consistent(ds: seq<Delivery>, es: seq<Delivery>) {
    forall i, j :: 0 <= i < |ds| && 0 <= j < |es| ==> Agree(ds[i].e, es[j].e)
  }

  predicate Agree(e: Event, f: Event) {
    e.billable && f.billable && e.id == f.id ==> e == f
  }

  lemma {:induction false} StoredAreDelivered(ds: seq<Delivery>)
    ensures After(ds).events.Keys == CommittedIds(ds)
    ensures forall id :: id in After(ds).events ==>
              exists i :: 0 <= i < |ds| && ds[i].e.billable && ds[i].e.id == id && ds[i].e == After(ds).events[id]
    decreases |ds|
  {
    if ds != [] {
      var before, d := ds[..|ds| - 1], ds[|ds| - 1];
      StoredAreDelivered(before);
      forall id | id in After(ds).events
        ensures exists i :: 0 <= i < |ds| && ds[i].e.billable && ds[i].e.id == id && ds[i].e == After(ds).events[id]
      {
        if id in After(before).events {
          var i :| 0 <= i < |before| && before[i].e.billable && before[i].e.id == id
              && before[i].e == After(before).events[id];
          assert ds[i] == before[i];
        } else {
          assert ds[|ds| - 1] == d;
        }
      }
    }
  }

  lemma {:induction false} UnitsConcat(a: seq<Event>, b: seq<Event>, slot: Slot)
    ensures Units(a + b, slot) == Units(a, slot) + Units(b, slot)
    decreases |b|
  {
    if b == [] {
      assert a + b == a;
    } else {
      assert (a + b)[..|a + b| - 1] == a + b[..|b| - 1];
      UnitsConcat(a, b[..|b| - 1], slot);
    }
  }

  lemma {:induction false} UnitsWithout(b: seq<Event>, k: nat, slot: Slot)
    requires k < |b|
    ensures Units(b, slot) == Units(b[..k] + b[k + 1..], slot) + UnitsIn(b[k], slot)
  {
    UnitsConcat(b[..k], b[k + 1..], slot);
    UnitsAdd(b[..k], b[k], slot);
    UnitsConcat(b[..k] + [b[k]], b[k + 1..], slot);
    assert b == b[..k] + [b[k]] + b[k + 1..];
  }

  lemma {:induction false} UnitsAnyOrder(a: seq<Event>, b: seq<Event>, slot: Slot)
    requires multiset(a) == multiset(b)
    ensures Units(a, slot) == Units(b, slot)
    decreases |a|
  {
    if a == [] {
      assert |multiset(b)| == |b| == 0;
    } else {
      var rest, e := a[..|a| - 1], a[|a| - 1];
      assert a == rest + [e];
      assert e in multiset(b);
      var k :| 0 <= k < |b| && b[k] == e;
      assert b == b[..k] + [e] + b[k + 1..];
      assert multiset(rest) == multiset(a) - multiset{e};
      assert multiset(b[..k] + b[k + 1..]) == multiset(b) - multiset{e};
      UnitsAnyOrder(rest, b[..k] + b[k + 1..], slot);
      UnitsWithout(b, k, slot);
    }
  }

  lemma {:induction false} SameSlot(ds: seq<Delivery>, es: seq<Delivery>, slot: Slot)
    requires After(ds).events == After(es).events && multiset(CommittedFree(ds)) == multiset(CommittedFree(es))
    ensures slot in After(ds).usage <==> slot in After(es).usage
    ensures slot in After(ds).usage ==> After(ds).usage[slot] == After(es).usage[slot]
  {
    SameElements(CommittedFree(ds), CommittedFree(es));
    UnitsAnyOrder(CommittedFree(ds), CommittedFree(es), slot);
    hide After, CommittedFree, StoredUnits, Units, BillableOnly;
    LedgerBalances(ds, slot);
    LedgerBalances(es, slot);
  }

  lemma {:induction false} SameElements(a: seq<Event>, b: seq<Event>)
    requires multiset(a) == multiset(b)
    ensures forall e :: e in a <==> e in b
  {
    forall e ensures e in a <==> e in b {
      assert e in multiset(a) <==> e in multiset(b);
    }
  }

  /** Two sequences of deliveries that commit the same billable ids and, counted, the same
      free events leave the same tables: order, duplicates and rollbacks do not show. */
  lemma {:induction false} SameCommitsSameTables(ds: seq<Delivery>, es: seq<Delivery>)
    requires Consistent(ds, es)
    requires CommittedIds(ds) == CommittedIds(es) && multiset(CommittedFree(ds)) == multiset(CommittedFree(es))
    ensures After(ds) == After(es)
  {
    StoredAreDelivered(ds);
    StoredAreDelivered(es);
    forall id | id in After(ds).events
      ensures id in After(es).events && After(ds).events[id] == After(es).events[id]
    {
      assert id in CommittedIds(es);
    }
    assert After(ds).events.Keys == After(es).events.Keys;
    assert After(ds).events == After(es).events;
    forall slot: Slot
      ensures slot in After(ds).usage <==> slot in After(es).usage
      ensures slot in After(ds).usage ==> After(ds).usage[slot] == After(es).usage[slot]
    {
      SameSlot(ds, es, slot);
    }
    assert After(ds).usage == After(es).usage;
  }

  /** Delivering an event again is harmless exactly when it is billable: free units are
      counted once per delivery. */
  lemma {:induction false} RedeliveryIsHarmlessIff(t: Tables, e: Event)
    requires e.successN > 0
    ensures var d := Delivery(e, Fine); Step(Step(t, d), d) == Step(t, d) <==> e.billable
  {
    var d := Delivery(e, Fine);
    if !e.billable {
      assert SuccessCount(Step(Step(t, d), d), SlotOf(e)) == SuccessCount(Step(t, d), SlotOf(e)) + e.successN;
    }
  }

  // ----- from the gateway's events to the tables ------------------------------------

  function Once(events: seq<Event>): seq<Delivery> {
    seq(|events|, i requires 0 <= i < |events| => Delivery(events[i], Fine))
  }

  ghost function Billable(events: seq<Event>): set<string> {
    set i | 0 <= i < |events| && events[i].billable :: events[i].id
  }

  ghost function Kind(events: seq<Event>, billable: bool): seq<Event> {
    if events == [] then [] else
    var e := events[|events| - 1];
    Kind(events[..|events| - 1], billable) + (if e.billable == billable then [e] else [])
  }

  /** Events as the gateway creates them: with successes, and ids of their own. */
  ghost predicate Issued(events: seq<Event>) {
    && (forall i :: 0 <= i < |events| ==> events[i].successN > 0)
    && (forall i, j :: 0 <= i < j < |events| ==> events[i].id != events[j].id)
  }

  /** What holds after each of `events` has been delivered once, without a fault. */
  ghost predicate CountedOnce(t: Tables, ids: set<string>, free: seq<Event>, events: seq<Event>, slot: Slot) {
    && t.events.Keys == ids == Billable(events)
    && free == Kind(events, false)
    && StoredUnits(t.events, slot) == Units(Kind(events, true), slot)
  }

  lemma {:induction false} OneMoreCounted(t: Tables, ids: set<string>, free: seq<Event>, events: seq<Event>, e: Event,
                                          slot: Slot)
    requires Issued(events + [e]) && CountedOnce(t, ids, free, events, slot)
    ensures CountedOnce(Step(t, Delivery(e, Fine)), ids + (if e.billable then {e.id} else {}),
                        free + (if e.billable then [] else [e]), events + [e], slot)
  {
    var more := events + [e];
    assert more[..|more| - 1] == events && more[|events|] == e;
    BillableAdds(events, e);
    if e.billable {
      forall i | 0 <= i < |events|
        ensures events[i].id != e.id
      {
        assert more[i] == events[i];
      }
      assert e.id !in t.events;
      StoredAdds(t.events, e, slot);
      UnitsAdd(Kind(events, true), e, slot);
      assert Kind(more, false) == Kind(events, false);
    } else {
      assert Kind(more, true) == Kind(events, true);
    }
  }

  lemma {:induction false} DeliveredOnce(events: seq<Event>, slot: Slot)
    requires Issued(events)
    ensures CountedOnce(After(Once(events)), CommittedIds(Once(events)), CommittedFree(Once(events)), events, slot)
    decreases |events|
  {
    hide CountedOnce;
    if events == [] {
      NothingCounted(slot);
    } else {
      var before, e := events[..|events| - 1], events[|events| - 1];
      DeliveredOnce(before, slot);
      assert events == before + [e];
      var ds := Once(events);
      assert ds[..|ds| - 1] == Once(before) && ds[|ds| - 1] == Delivery(e, Fine);
      OneMoreCounted(After(Once(before)), CommittedIds(Once(before)), CommittedFree(Once(before)), before, e, slot);
    }
  }

  lemma {:induction false} NothingCounted(slot: Slot)
    ensures CountedOnce(After(Once([])), CommittedIds(Once([])), CommittedFree(Once([])), [], slot)
  {
    assert StoredValues(map[], slot) == map[];
  }

  lemma {:induction false} BillableAdds(events: seq<Event>, e: Event)
    ensures Billable(events + [e]) == Billable(events) + (if e.billable then {e.id} else {})
  {
    var more := events + [e];
    forall id
      ensures id in Billable(more) <==> id in Billable(events) + (if e.billable then {e.id} else {})
    {
      if id in Billable(events) {
        var i :| 0 <= i < |events| && events[i].billable && events[i].id == id;
        assert more[i] == events[i];
      }
      if e.billable && id == e.id {
        assert more[|events|] == e;
      }
    }
  }

  /** When every billable event of the gateway is committed at least once, and every free
      one exactly once, the tables count, for every token and day, exactly the successes of
      the gateway's events. */
  lemma {:induction false} TablesMatchEvents(events: seq<Event>, ds: seq<Delivery>, slot: Slot)
    requires Issued(events)
    requires forall i :: 0 <= i < |ds| ==> ds[i].e in events
    requires CommittedIds(ds) == Billable(events) && multiset(CommittedFree(ds)) == multiset(Kind(events, false))
    ensures BillableCount(After(ds), slot) == Units(Kind(events, true), slot)
    ensures SuccessCount(After(ds), slot) == Units(Kind(events, true), slot) + Units(Kind(events, false), slot)
  {
    DeliveredOnce(events, slot);
    LedgerBalances(Once(events), slot);
    IssuedAgree(events, ds);
    SameCommitsSameTables(ds, Once(events));
  }

  lemma {:induction false} IssuedAgree(events: seq<Event>, ds: seq<Delivery>)
    requires Issued(events) && forall i :: 0 <= i < |ds| ==> ds[i].e in events
    ensures Consistent(ds, Once(events))
  {
    forall i, j | 0 <= i < |ds| && 0 <= j < |Once(events)|
      ensures Agree(ds[i].e, Once(events)[j].e)
    {
      var k :| 0 <= k < |events| && events[k] == ds[i].e;
      if k < j { assert events[k].id != events[j].id; }
      if j < k { assert events[j].id != events[k].id; }
    }
  }
}
