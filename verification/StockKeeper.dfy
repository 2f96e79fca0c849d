/** The stock counters as the services update them: Lua scripts on the Redis key, guarded UPDATEs on the row. */
module StockKeeping {
  import opened Common
  import opened Inventory

  class StockKeeper {
    var counter: map<TypeId, int>
    var rows: map<TypeId, TicketType>

    ghost function Value(): Stock
      reads this
    {
      Stock(counter, rows)
    }

    constructor ()
      ensures Value() == Stock(map[], map[])
    {
      counter, rows := map[], map[];
    }

    // `reserveStockLua`: -1 for a missing key, 0 for too little stock, 1 when it took the stock.
    method ReserveScript(t: TypeId, n: Quantity) returns (code: int)
      modifies this`counter
      ensures code == if t !in old(counter) then -1 else if old(counter)[t] >= n then 1 else 0
      ensures code == 1 ==> counter == old(counter)[t := old(counter)[t] - n]
      ensures code != 1 ==> counter == old(counter)
    {
      if t !in counter { return -1; }
      var stock := counter[t];
      if stock >= n {
        counter := counter[t := stock - n];
        return 1;
      }
      return 0;
    }

    // `releaseStockLua`.
    method ReleaseScript(t: TypeId, n: Quantity)
      modifies this`counter
      ensures counter == if t in old(counter) then old(counter)[t := old(counter)[t] + n] else old(counter)
    {
      if t in counter { counter := counter[t := counter[t] + n]; }
    }

    // The event-service handler `ReserveTickets`, with the guarded UPDATE `IncrementTicketSold`.
    method ReserveTickets(t: TypeId, n: Quantity, now: Time) returns (ok: bool)
      modifies this`rows
      ensures ok == Grants(old(Value()), t, n, now)
      ensures Value() == Increment(old(Value()), t, n, now)
    {
      if t !in rows { return false; }
      var row := rows[t];
      if !row.isActive { return false; }
      if row.saleStart.Some? && now < row.saleStart.value { return false; }
      if row.saleEnd.Some? && now > row.saleEnd.value { return false; }
      if !row.published { return false; }
      if now > row.eventEnd { return false; }
      if row.quantity - row.sold >= n {
        rows := rows[t := row.(sold := row.sold + n)];
        return true;
      }
      return false;
    }

    // The event-service handler `ReleaseTickets`, with the guarded UPDATE `DecrementTicketSold`.
    method ReleaseTickets(t: TypeId, n: Quantity)
      modifies this`rows
      ensures Value() == Decrement(old(Value()), t, n)
    {
      if t in rows && rows[t].sold >= n {
        rows := rows[t := rows[t].(sold := rows[t].sold - n)];
      }
    }

    // The load inside the single flight: nothing is loaded for a type that is not on sale.
    method LoadStock(t: TypeId, now: Time) returns (loaded: Option<nat>)
      modifies this`counter
      ensures loaded == if t in rows && OnSale(rows[t], now) then Some(Available(rows[t])) else None
      ensures counter == if loaded.Some? then old(counter)[t := loaded.value] else old(counter)
    {
      if t !in rows { return None; }
      var row := rows[t];
      if row.saleEnd.Some? && now > row.saleEnd.value { return None; }
      if row.saleStart.Some? && now < row.saleStart.value { return None; }
      if now > row.eventEnd { return None; }
      if !row.isActive { return None; }
      var avail := row.quantity - row.sold;
      if avail < 0 { avail := 0; }
      counter := counter[t := avail];
      return Some(avail);
    }

    method ReserveTicketStock(t: TypeId, n: Quantity, now: Time) returns (r: Reservation)
      modifies this
      ensures (Value(), r) == Reserve(old(Value()), t, n, now)
    {
      var code := ReserveScript(t, n);
      if code == 1 {
        var _ := ReserveTickets(t, n, now);
        return Reserved;
      }
      if code == 0 { return SoldOut; }
      var loaded := LoadStock(t, now);
      if loaded.None? {
        var ok := ReserveTickets(t, n, now);
        return if ok then Reserved else Refused;
      }
      if loaded.value < n { return SoldOut; }
      var again := ReserveScript(t, n);
      if again == 1 {
        assert counter == old(counter)[t := loaded.value - n];
        var _ := ReserveTickets(t, n, now);
        return Reserved;
      }
      return SoldOut;
    }

    method ReleaseTicketStock(t: TypeId, n: Quantity)
      modifies this
      ensures Value() == Release(old(Value()), t, n)
    {
      ReleaseScript(t, n);
      ReleaseTickets(t, n);
    }

    // `listed` is the result of `ListTicketTypesByEvent`, in whatever order the rows come.
    method PrewarmTicketStock(e: EventId, listed: seq<TypeId>)
      requires forall t: TypeId :: t in listed <==> t in rows && rows[t].event == e && rows[t].isActive
      modifies this`counter
      ensures Value() == Prewarm(old(Value()), e)
    {
      for i := 0 to |listed|
        invariant forall t :: t in counter <==> t in old(counter) || t in listed[..i]
        invariant forall t :: t in counter ==>
          counter[t] == if t in listed[..i] then Available(rows[t]) else old(counter)[t]
      {
        assert listed[i] in listed;
        var avail := rows[listed[i]].quantity - rows[listed[i]].sold;
        if avail < 0 { avail := 0; }
        counter := counter[listed[i] := avail];
        assert listed[..i + 1] == listed[..i] + [listed[i]];
      }
      assert listed[..|listed|] == listed;
      assert counter == Prewarm(old(Value()), e).counter;
    }

    // `t` is the id the database gives the new row.
    method CreateTicketType(t: TypeId, row: TicketType, now: Time)
      modifies this
      ensures Value() == CreateType(old(Value()), t, row, now)
    {
      rows := rows[t := row.(sold := 0, isActive := true)];
      var avail := rows[t].quantity - rows[t].sold;
      if rows[t].saleEnd.Some? && now > rows[t].saleEnd.value { avail := 0; }
      if avail < 0 { avail := 0; }
      counter := counter[t := avail];
    }

    method DeleteTicketType(t: TypeId)
      modifies this`rows
      ensures Value() == DeleteType(old(Value()), t)
    {
      rows := rows - {t};
    }

    method UpdateTicketType(t: TypeId, quantity: nat, saleStart: Time, saleEnd: Time, now: Time) returns (ok: bool)
      modifies this
      ensures ok == (t in old(rows))
      ensures Value() == UpdateType(old(Value()), t, quantity, saleStart, saleEnd, now)
    {
      if t !in rows { return false; }
      var row := rows[t].(quantity := quantity, saleStart := Some(saleStart), saleEnd := Some(saleEnd));
      rows := rows[t := row];
      var avail := row.quantity - row.sold;
      if now > saleEnd { avail := 0; }
      if avail < 0 { avail := 0; }
      counter := counter[t := avail];
      return true;
    }
  }
}
