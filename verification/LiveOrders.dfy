/** The live order book of the UI and the updates it merges. */
module LiveOrders {
  import opened Wrappers

  const MAX_LIVE_ORDERS := 64

  datatype LiveOrder = LiveOrder(
    client: string, venue: string, symbol: string, side: string,
    qty: real, price: Option<real>, status: string,
    filledQty: real, avgPrice: real, tsMs: int, strategyId: string)

  type Book = seq<LiveOrder>

  predicate IsTerminal(status: string) {
    status in {"FILLED", "CANCELED", "REJECTED", "EXPIRED", "DENIED"}
  }

  // ── Matching ──

  datatype Key = ByClient(id: string) | ByVenue(id: string) | NoKey

  predicate Matches(o: LiveOrder, key: Key) {
    match key
    case ByClient(id) => o.client == id
    case ByVenue(id) => o.venue == id
    case NoKey => false
  }

  /** The first matching row, or the length of the book. */
  function Find(book: Book, key: Key): (i: nat)
    ensures i <= |book|
    ensures i < |book| ==> Matches(book[i], key)
    ensures forall j :: 0 <= j < i ==> !Matches(book[j], key)
  {
    if book == [] then 0
    else if Matches(book[0], key) then 0
    else 1 + Find(book[1..], key)
  }

  function SeedKey(seed: LiveOrder): Key {
    if seed.client != "" then ByClient(seed.client)
    else if seed.venue != "" then ByVenue(seed.venue)
    else NoKey
  }

  // ── Row merges ──

  function AdvanceFill(o: LiveOrder, qty: real, price: real): LiveOrder {
    if qty >= o.filledQty then o.(filledQty := qty, avgPrice := price) else o
  }

  function NonEmpty(update: string, known: string): string {
    if update != "" then update else known
  }

  function MergeEvent(o: LiveOrder, m: Message): LiveOrder
    requires m.Event?
  {
    AdvanceFill(o.(venue := NonEmpty(m.venue, o.venue),
                   strategyId := NonEmpty(m.strategyId, o.strategyId),
                   status := m.status, tsMs := m.tsMs), m.filledQty, m.avgPrice)
  }

  function MergeModify(o: LiveOrder, m: Message): LiveOrder
    requires m.Modify?
  {
    AdvanceFill(o.(venue := NonEmpty(m.venue, o.venue),
                   qty := if m.newQty.Some? then m.newQty.value else o.qty,
                   price := if m.newPrice.Some? then m.newPrice else o.price,
                   status := m.status, tsMs := m.tsMs), m.filledQty, m.avgPrice)
  }

  function MergeSeed(o: LiveOrder, seed: LiveOrder): LiveOrder {
    AdvanceFill(o.(status := if IsTerminal(o.status) then o.status else seed.status,
                   tsMs := seed.tsMs,
                   venue := NonEmpty(seed.venue, o.venue),
                   strategyId := NonEmpty(seed.strategyId, o.strategyId),
                   symbol := NonEmpty(o.symbol, seed.symbol),
                   side := NonEmpty(o.side, seed.side),
                   qty := if o.qty == 0.0 then seed.qty else o.qty,
                   price := if (seed.client != "" && seed.price.Some?) || o.price.None?
                            then seed.price else o.price),
                seed.filledQty, seed.avgPrice)
  }

  // ── The book ──

  datatype Message =
    | Upsert(order: LiveOrder)
    | Event(client: string, venue: string, status: string,
            filledQty: real, avgPrice: real, tsMs: int, strategyId: string)
    | Modify(client: string, venue: string, newQty: Option<real>, newPrice: Option<real>,
             status: string, filledQty: real, avgPrice: real, tsMs: int)
    | Seed(order: LiveOrder)

  function EventRow(m: Message): LiveOrder
    requires m.Event?
  {
    LiveOrder(m.client, m.venue, "", "", 0.0, None, m.status, m.filledQty, m.avgPrice, m.tsMs, m.strategyId)
  }

  function MessageKey(m: Message): Key {
    match m
    case Upsert(o) => ByClient(o.client)
    case Seed(o) => SeedKey(o)
    case Event(c, _, _, _, _, _, _) => ByClient(c)
    case Modify(c, _, _, _, _, _, _, _) => ByClient(c)
  }

  function MergeInto(o: LiveOrder, m: Message): LiveOrder {
    match m
    case Upsert(order) => order
    case Seed(order) => MergeSeed(o, order)
    case Event(_, _, _, _, _, _, _) => MergeEvent(o, m)
    case Modify(_, _, _, _, _, _, _, _) => MergeModify(o, m)
  }

  /** The row a message adds when it matches nothing; a modify adds none. */
  function NewRow(m: Message): Option<LiveOrder> {
    match m
    case Upsert(order) => Some(order)
    case Seed(order) => Some(order)
    case Event(_, _, _, _, _, _, _) => Some(EventRow(m))
    case Modify(_, _, _, _, _, _, _, _) => None
  }

  function Truncate<T>(rows: seq<T>): seq<T> {
    if |rows| <= MAX_LIVE_ORDERS then rows else rows[..MAX_LIVE_ORDERS]
  }

  function Deliver(book: Book, m: Message): Book {
    var i := Find(book, MessageKey(m));
    if i < |book| then book[i := MergeInto(book[i], m)]
    else if NewRow(m).Some? then Truncate([NewRow(m).value] + book)
    else book
  }

  function Run(book: Book, msgs: seq<Message>): Book {
    if msgs == [] then book
    else Deliver(Run(book, msgs[..|msgs| - 1]), msgs[|msgs| - 1])
  }

  class OrderBook {
    var orders: Book

    constructor ()
      ensures orders == []
    {
      orders := [];
    }

    /** `iter_mut().find`: walks the rows until the first match. */
    method FindFirst(key: Key) returns (i: nat)
      ensures i == Find(orders, key)
    {
      i := 0;
      while i < |orders| && !Matches(orders[i], key)
        invariant i <= |orders|
        invariant forall j :: 0 <= j < i ==> !Matches(orders[j], key)
      {
        i := i + 1;
      }
      FindUnique(orders, key, i);
    }

    method InsertFront(o: LiveOrder)
      modifies this
      ensures orders == Truncate([o] + old(orders))
    {
      orders := [o] + orders;
      if |orders| > MAX_LIVE_ORDERS {
        orders := orders[..MAX_LIVE_ORDERS];
      }
    }

    method UpsertFull(order: LiveOrder)
      modifies this
      ensures orders == Deliver(old(orders), Upsert(order))
    {
      var i := FindFirst(ByClient(order.client));
      if i < |orders| {
        orders := orders[i := order];
      } else {
        InsertFront(order);
      }
    }

    method ApplyEvent(client: string, venue: string, status: string,
                      filledQty: real, avgPrice: real, tsMs: int, strategyId: string)
      modifies this
      ensures orders == Deliver(old(orders), Event(client, venue, status, filledQty, avgPrice, tsMs, strategyId))
    {
      var i := FindFirst(ByClient(client));
      if i < |orders| {
        var existing := orders[i];
        if venue != "" {
          existing := existing.(venue := venue);
        }
        if strategyId != "" {
          existing := existing.(strategyId := strategyId);
        }
        existing := existing.(status := status);
        existing := AdvanceFill(existing, filledQty, avgPrice);
        existing := existing.(tsMs := tsMs);
        orders := orders[i := existing];
      } else {
        InsertFront(LiveOrder(client, venue, "", "", 0.0, None, status, filledQty, avgPrice, tsMs, strategyId));
      }
    }

    method ApplyModify(client: string, venue: string, newQty: Option<real>, newPrice: Option<real>,
                       status: string, filledQty: real, avgPrice: real, tsMs: int)
      modifies this
      ensures orders == Deliver(old(orders), Modify(client, venue, newQty, newPrice, status, filledQty, avgPrice, tsMs))
    {
      var i := FindFirst(ByClient(client));
      if i < |orders| {
        var existing := orders[i];
        if venue != "" {
          existing := existing.(venue := venue);
        }
        if newQty.Some? {
          existing := existing.(qty := newQty.value);
        }
        if newPrice.Some? {
          existing := existing.(price := newPrice);
        }
        existing := existing.(status := status);
        existing := AdvanceFill(existing, filledQty, avgPrice);
        existing := existing.(tsMs := tsMs);
        orders := orders[i := existing];
      }
    }

    method SeedWorking(seed: LiveOrder)
      modifies this
      ensures orders == Deliver(old(orders), Seed(seed))
    {
      var i := FindFirst(SeedKey(seed));
      if i < |orders| {
        var existing := RefreshDynamic(orders[i], seed);
        existing := FillStatic(existing, seed);
        orders := orders[i := existing];
      } else {
        InsertFront(seed);
      }
    }

    /** Status, fill, time and ids of a seeded row. */
    static method RefreshDynamic(o: LiveOrder, seed: LiveOrder) returns (existing: LiveOrder)
      ensures existing == AdvanceFill(
                o.(status := if IsTerminal(o.status) then o.status else seed.status, tsMs := seed.tsMs,
                   venue := NonEmpty(seed.venue, o.venue), strategyId := NonEmpty(seed.strategyId, o.strategyId)),
                seed.filledQty, seed.avgPrice)
    {
      existing := o;
      if !IsTerminal(existing.status) {
        existing := existing.(status := seed.status);
      }
      existing := AdvanceFill(existing, seed.filledQty, seed.avgPrice);
      existing := existing.(tsMs := seed.tsMs);
      if seed.venue != "" {
        existing := existing.(venue := seed.venue);
      }
      if seed.strategyId != "" {
        existing := existing.(strategyId := seed.strategyId);
      }
    }

    /** The static attributes of a seeded row, gap-filled only (price also on a client-id match). */
    static method FillStatic(o: LiveOrder, seed: LiveOrder) returns (existing: LiveOrder)
      ensures existing == o.(symbol := NonEmpty(o.symbol, seed.symbol), side := NonEmpty(o.side, seed.side),
                             qty := if o.qty == 0.0 then seed.qty else o.qty,
                             price := if (seed.client != "" && seed.price.Some?) || o.price.None?
                                      then seed.price else o.price)
    {
      existing := o;
      var keyCo := seed.client != "";
      if existing.symbol == "" {
        existing := existing.(symbol := seed.symbol);
      }
      if existing.side == "" {
        existing := existing.(side := seed.side);
      }
      if existing.qty == 0.0 {
        existing := existing.(qty := seed.qty);
      }
      if keyCo && seed.price.Some? {
        existing := existing.(price := seed.price);
      } else if existing.price.None? {
        existing := existing.(price := seed.price);
      }
    }

    /** The snapshot arm of the status updates: seeds row by row. */
    method SeedAll(seeds: seq<LiveOrder>)
      modifies this
      ensures orders == Run(old(orders), Seeds(seeds))
    {
      for i := 0 to |seeds|
        invariant orders == Run(old(orders), Seeds(seeds[..i]))
      {
        SeedWorking(seeds[i]);
        assert Seeds(seeds[..i + 1])[..i] == Seeds(seeds[..i]);
      }
      assert seeds[..|seeds|] == seeds;
    }
  }

  function Seeds(seeds: seq<LiveOrder>): (msgs: seq<Message>)
    ensures |msgs| == |seeds|
    ensures forall i :: 0 <= i < |seeds| ==> msgs[i] == Seed(seeds[i])
  {
    seq(|seeds|, i requires 0 <= i < |seeds| => Seed(seeds[i]))
  }

  /** `Find` is the only index with the contract of a first-match search. */
  lemma FindUnique(book: Book, key: Key, i: nat)
    requires i <= |book|
    requires i < |book| ==> Matches(book[i], key)
    requires forall j :: 0 <= j < i ==> !Matches(book[j], key)
    ensures i == Find(book, key)
  {
  }

  // ── What every update keeps ──

  ghost predicate UniqueClients(book: Book) {
    forall i, j :: 0 <= i < j < |book| && book[i].client != "" ==> book[i].client != book[j].client
  }

  lemma DeliverKeepsBook(book: Book, m: Message)
    requires UniqueClients(book) && |book| <= MAX_LIVE_ORDERS
    ensures UniqueClients(Deliver(book, m)) && |Deliver(book, m)| <= MAX_LIVE_ORDERS
  {
    var i := Find(book, MessageKey(m));
    if i < |book| {
      assert MergeInto(book[i], m).client == book[i].client;
    } else if NewRow(m).Some? {
      var o := NewRow(m).value;
      if o.client != "" {
        forall j | 0 <= j < |book| ensures book[j].client != o.client {
          assert !Matches(book[j], MessageKey(m));
        }
      }
      assert UniqueClients([o] + book);
    }
  }

  /** Whatever reaches the book, non-empty client ids stay unique and the cap holds. */
  lemma {:induction false} RunKeepsBook(book: Book, msgs: seq<Message>)
    requires UniqueClients(book) && |book| <= MAX_LIVE_ORDERS
    ensures UniqueClients(Run(book, msgs)) && |Run(book, msgs)| <= MAX_LIVE_ORDERS
  {
    if msgs != [] {
      RunKeepsBook(book, msgs[..|msgs| - 1]);
      DeliverKeepsBook(Run(book, msgs[..|msgs| - 1]), msgs[|msgs| - 1]);
    }
  }
}
