/** Fills of live orders do not depend on the order of delivery, where they can. */
module OrderFills {
  import opened Wrappers
  import opened LiveOrders

  // ── Reports ──

  /** One reported cumulative fill. */
  datatype Report = Report(qty: real, price: real)

  function ReportOf(m: Message): Report {
    match m
    case Upsert(o) => Report(o.filledQty, o.avgPrice)
    case Seed(o) => Report(o.filledQty, o.avgPrice)
    case Event(_, _, _, q, p, _, _) => Report(q, p)
    case Modify(_, _, _, _, _, q, p, _) => Report(q, p)
  }

  /** A merge advances the fill of a row to a report that is not below it, and keeps its id. */
  lemma MergeFill(o: LiveOrder, m: Message)
    requires !m.Upsert?
    ensures MergeInto(o, m).client == o.client
    ensures Report(MergeInto(o, m).filledQty, MergeInto(o, m).avgPrice)
            == if ReportOf(m).qty >= o.filledQty then ReportOf(m) else Report(o.filledQty, o.avgPrice)
  {
  }

  lemma NewRowFill(m: Message)
    requires NewRow(m).Some?
    ensures NewRow(m).value.client == ClientOf(m)
    ensures Report(NewRow(m).value.filledQty, NewRow(m).value.avgPrice) == ReportOf(m)
  {
  }

  // ── Confluence ──

  function ClientOf(m: Message): string {
    match m
    case Upsert(o) => o.client
    case Seed(o) => o.client
    case Event(c, _, _, _, _, _, _) => c
    case Modify(c, _, _, _, _, _, _, _) => c
  }

  /** The updates whose order of delivery cannot matter to fills, given the ids the book starts with. */
  predicate Mergeable(known: set<string>, m: Message) {
    || m.Event?
    || (m.Seed? && m.order.client != "")
    || (m.Modify? && m.client in known)
  }

  function Clients(book: Book): set<string> {
    set o | o in book :: o.client
  }

  function MessageClients(msgs: seq<Message>): set<string> {
    set m | m in msgs :: ClientOf(m)
  }

  /** The row updates for an id go to: the first one carrying it. */
  function RowOf(book: Book, id: string): (r: Option<LiveOrder>)
    ensures r.Some? ==> r.value in book && r.value.client == id
    ensures r.Some? <==> id in Clients(book)
  {
    var i := Find(book, ByClient(id));
    assert forall o :: o in book && o.client == id ==> i < |book|;
    if i < |book| then Some(book[i]) else None
  }

  /** Where client ids are unique, as in every book this program builds, it is the only one. */
  lemma RowOfIsOnly(book: Book, o: LiveOrder)
    requires UniqueClients(book) && o in book && o.client != ""
    ensures RowOf(book, o.client) == Some(o)
  {
    var k :| 0 <= k < |book| && book[k] == o;
    FindUnique(book, ByClient(o.client), k);
  }

  lemma RowOfUpdate(book: Book, i: nat, o: LiveOrder, id: string)
    requires i == Find(book, ByClient(o.client)) < |book|
    ensures RowOf(book[i := o], id) == if id == o.client then Some(o) else RowOf(book, id)
  {
    var j := Find(book, ByClient(id));
    if id == o.client {
      FindUnique(book[i := o], ByClient(id), i);
    } else {
      FindUnique(book[i := o], ByClient(id), j);
    }
  }

  lemma RowOfInsert(book: Book, o: LiveOrder, id: string)
    ensures RowOf([o] + book, id) == if id == o.client then Some(o) else RowOf(book, id)
  {
    if id == o.client {
      FindUnique([o] + book, ByClient(id), 0);
    } else {
      FindUnique([o] + book, ByClient(id), Find(book, ByClient(id)) + 1);
    }
  }

  /** `r` was reported for `client`: by its row at the start, or by a message. */
  ghost predicate Reported(start: Book, msgs: seq<Message>, client: string, r: Report) {
    || (var row := RowOf(start, client); row.Some? && r == Report(row.value.filledQty, row.value.avgPrice))
    || (exists m :: m in msgs && ClientOf(m) == client && r == ReportOf(m))
  }

  ghost predicate MaximalFill(start: Book, msgs: seq<Message>, o: LiveOrder) {
    && Reported(start, msgs, o.client, Report(o.filledQty, o.avgPrice))
    && forall r :: Reported(start, msgs, o.client, r) ==> r.qty <= o.filledQty
  }

  lemma ReportedExtends(start: Book, msgs: seq<Message>, m: Message, client: string, r: Report)
    ensures Reported(start, msgs + [m], client, r)
            <==> Reported(start, msgs, client, r) || (ClientOf(m) == client && r == ReportOf(m))
  {
    assert forall x :: x in msgs + [m] <==> x in msgs || x == m;
  }

  /** How many rows the messages can add. */
  function Newcomers(start: Book, msgs: seq<Message>): set<string> {
    MessageClients(msgs) - Clients(start)
  }

  ghost predicate RowComplete(start: Book, msgs: seq<Message>, book: Book, id: string) {
    && (id in Clients(book) <==> id in Clients(start) + MessageClients(msgs))
    && (id in Clients(book) ==> MaximalFill(start, msgs, RowOf(book, id).value))
  }

  /** Every id has a row, each with its maximal fill, and nothing was cut off. */
  ghost predicate Complete(start: Book, msgs: seq<Message>, book: Book) {
    && |book| == |start| + |Newcomers(start, msgs)|
    && forall id :: RowComplete(start, msgs, book, id)
  }

  lemma CompleteAtStart(start: Book)
    ensures Complete(start, [], start)
  {
    assert Newcomers(start, []) == {};
  }

  /**
   * From any book whatever, with room for the new ids: every id ends with one row that updates go
   * to, and it shows the maximal fill reported for that id.
   */
  lemma {:induction false} RunFills(start: Book, msgs: seq<Message>)
    requires forall m :: m in msgs ==> Mergeable(Clients(start), m)
    requires |start| + |Newcomers(start, msgs)| <= MAX_LIVE_ORDERS
    ensures Complete(start, msgs, Run(start, msgs))
  {
    if msgs == [] {
      CompleteAtStart(start);
    } else {
      hide Complete, Deliver;
      var init, m := msgs[..|msgs| - 1], msgs[|msgs| - 1];
      assert msgs == init + [m];
      NewcomersExtend(start, init, m);
      RunFills(start, init);
      RunFillsStep(start, init, m, Run(start, init));
    }
  }

  lemma MessageClientsExtend(msgs: seq<Message>, m: Message)
    ensures MessageClients(msgs + [m]) == MessageClients(msgs) + {ClientOf(m)}
  {
    assert forall x :: x in msgs + [m] <==> x in msgs || x == m;
  }

  lemma NewcomersExtend(start: Book, msgs: seq<Message>, m: Message)
    ensures var (c, before, after) := (ClientOf(m), Newcomers(start, msgs), Newcomers(start, msgs + [m]));
            |after| == if c in Clients(start) + MessageClients(msgs) then |before| else |before| + 1
  {
    MessageClientsExtend(msgs, m);
    hide Clients, MessageClients, ClientOf;
    OneMore(MessageClients(msgs), Clients(start), ClientOf(m));
  }

  lemma OneMore(a: set<string>, known: set<string>, c: string)
    ensures |a + {c} - known| == if c in known + a then |a - known| else |a - known| + 1
  {
    if c in known + a {
      assert a + {c} - known == a - known;
    } else {
      assert a + {c} - known == (a - known) + {c};
    }
  }

  lemma RunFillsStep(start: Book, msgs: seq<Message>, m: Message, book: Book)
    requires Mergeable(Clients(start), m) && Complete(start, msgs, book)
    requires |start| + |Newcomers(start, msgs + [m])| <= MAX_LIVE_ORDERS
    ensures Complete(start, msgs + [m], Deliver(book, m))
  {
    var i, c, next := Find(book, MessageKey(m)), ClientOf(m), Deliver(book, m);
    hide Newcomers, RowComplete, Clients, MessageClients, MergeInto;
    NewcomersExtend(start, msgs, m);
    assert RowComplete(start, msgs, book, c);
    RowCompleteClients(start, msgs, book, c);
    assert i < |book| <==> RowOf(book, c).Some?;
    forall id ensures RowComplete(start, msgs + [m], next, id) {
      assert RowComplete(start, msgs, book, id);
      if i < |book| {
        MergeFill(book[i], m);
        RowOfUpdate(book, i, MergeInto(book[i], m), id);
        RowAfterMerge(start, msgs, m, book, next, id);
      } else {
        NewRowFill(m);
        RowOfInsert(book, NewRow(m).value, id);
        RowAfterInsert(start, msgs, m, book, next, id);
      }
    }
  }

  lemma RowCompleteClients(start: Book, msgs: seq<Message>, book: Book, id: string)
    requires RowComplete(start, msgs, book, id)
    ensures RowOf(book, id).Some? <==> id in Clients(start) + MessageClients(msgs)
  {
  }

  /** A row's fill before and after one more report. */
  predicate FillAfter(before: LiveOrder, after: LiveOrder, r: Report) {
    Report(after.filledQty, after.avgPrice)
    == if r.qty >= before.filledQty then r else Report(before.filledQty, before.avgPrice)
  }

  /** What one more report of the id, or of another id, does to an id's row. */
  lemma RowAfterMerge(start: Book, msgs: seq<Message>, m: Message, book: Book, next: Book, id: string)
    requires RowComplete(start, msgs, book, id) && RowOf(book, ClientOf(m)).Some?
    requires id != ClientOf(m) ==> RowOf(next, id) == RowOf(book, id)
    requires id == ClientOf(m) ==>
               RowOf(next, id).Some? && FillAfter(RowOf(book, id).value, RowOf(next, id).value, ReportOf(m))
    ensures RowComplete(start, msgs + [m], next, id)
  {
    MessageClientsExtend(msgs, m);
    hide MessageClients, ReportOf;
    if RowOf(next, id).Some? {
      forall r ensures Reported(start, msgs + [m], id, r)
                       <==> Reported(start, msgs, id, r) || (ClientOf(m) == id && r == ReportOf(m)) {
        ReportedExtends(start, msgs, m, id, r);
      }
      hide Reported;
      assert MaximalFill(start, msgs, RowOf(book, id).value);
    }
  }

  lemma RowAfterInsert(start: Book, msgs: seq<Message>, m: Message, book: Book, next: Book, id: string)
    requires RowComplete(start, msgs, book, id)
    requires id != ClientOf(m) ==> RowOf(next, id) == RowOf(book, id)
    requires id == ClientOf(m) ==>
               && RowOf(book, id).None? && RowOf(next, id).Some?
               && Report(RowOf(next, id).value.filledQty, RowOf(next, id).value.avgPrice) == ReportOf(m)
    ensures RowComplete(start, msgs + [m], next, id)
  {
    MessageClientsExtend(msgs, m);
    if id == ClientOf(m) {
      NothingReported(start, msgs, id);
    }
    hide MessageClients, ReportOf;
    if RowOf(next, id).Some? {
      forall r ensures Reported(start, msgs + [m], id, r)
                       <==> Reported(start, msgs, id, r) || (ClientOf(m) == id && r == ReportOf(m)) {
        ReportedExtends(start, msgs, m, id, r);
      }
      hide Reported;
      assert id != ClientOf(m) ==> MaximalFill(start, msgs, RowOf(book, id).value);
    }
  }

  lemma NothingReported(start: Book, msgs: seq<Message>, client: string)
    requires client !in Clients(start) + MessageClients(msgs)
    ensures forall r :: !Reported(start, msgs, client, r)
  {
  }

  /** Equal reported quantities carry equal prices. */
  ghost predicate PricesAgree(start: Book, msgs: seq<Message>, client: string) {
    forall r, s :: Reported(start, msgs, client, r) && Reported(start, msgs, client, s) ==>
      (r.qty == s.qty ==> r.price == s.price)
  }

  /** The fills two books show for an id agree (rows present in both, or in neither). */
  ghost predicate SameFill(a: Book, b: Book, client: string) {
    var r, s := RowOf(a, client), RowOf(b, client);
    if r.Some? then s.Some? && r.value.filledQty == s.value.filledQty else s.None?
  }

  /**
   * From any book with room for the new ids, two deliveries of the same updates agree on every id
   * and every fill. They agree on the average price too when equal reported quantities carry equal
   * prices.
   */
  lemma FillConfluence(start: Book, first: seq<Message>, second: seq<Message>, id: string)
    requires multiset(first) == multiset(second)
    requires forall m :: m in first ==> Mergeable(Clients(start), m)
    requires |start| + |Newcomers(start, first)| <= MAX_LIVE_ORDERS
    ensures SameFill(Run(start, first), Run(start, second), id)
    ensures var r, s := RowOf(Run(start, first), id), RowOf(Run(start, second), id);
            r.Some? && PricesAgree(start, first, id) ==> r.value.avgPrice == s.value.avgPrice
  {
    SameContents(start, first, second);
    RunFills(start, first);
    RunFills(start, second);
    hide Run, Mergeable, Reported, Newcomers, Clients, MessageClients;
    var a, b := Run(start, first), Run(start, second);
    assert RowComplete(start, first, a, id) && RowComplete(start, second, b, id);
    SameReports(start, first, second, id);
  }

  lemma SameContents(start: Book, first: seq<Message>, second: seq<Message>)
    requires multiset(first) == multiset(second)
    ensures forall m :: m in first <==> m in second
    ensures MessageClients(first) == MessageClients(second) && Newcomers(start, first) == Newcomers(start, second)
  {
    assert forall m :: m in first <==> m in multiset(first);
    assert forall m :: m in second <==> m in multiset(second);
  }

  lemma SameReports(start: Book, first: seq<Message>, second: seq<Message>, id: string)
    requires forall m :: m in first <==> m in second
    ensures forall r :: Reported(start, first, id, r) <==> Reported(start, second, id, r)
  {
  }

  // ── Why the excluded updates are excluded ──

  /** An id no row of the book carries. */
  function FreshId(book: Book): (id: string)
    ensures id !in Clients(book) && id != ""
    ensures forall o :: o in book ==> |o.client| < |id|
  {
    if book == [] then "c"
    else
      var rest := FreshId(book[1..]);
      assert book == [book[0]] + book[1..];
      if |book[0].client| < |rest| then rest else book[0].client + "c"
  }

  /** An event that shows the delivery order of `m` to matter, when `m` is not mergeable. */
  function Witness(start: Book, m: Message): Message {
    match m
    case Upsert(o) => Event(o.client, "", "", o.filledQty + 1.0, 0.0, 0, "")
    case Seed(o) =>
      if o.venue != "" then Event(FreshId(start), o.venue, "", o.filledQty - 1.0, 0.0, 0, "")
      else Event("", "", "", o.filledQty + 1.0, 0.0, 0, "")
    case Modify(c, _, _, _, _, q, _, _) => Event(c, "", "", q - 1.0, 0.0, 0, "")
    case Event(_, _, _, _, _, _, _) => m
  }

  lemma RunOfTwo(start: Book, a: Message, b: Message)
    ensures Run(start, [a, b]) == Deliver(Deliver(start, a), b)
  {
    hide Deliver;
    assert [a, b][..1] == [a] && [a][..0] == [];
    assert Run(start, [a]) == Deliver(Run(start, []), a);
  }

  /**
   * The exact limit of order-insensitivity: from any book with room for two more rows, an update
   * commutes with every event, for every id, exactly when it is mergeable into that book.
   */
  lemma CommutesIffMergeable(start: Book, m: Message)
    requires |start| <= MAX_LIVE_ORDERS - 2
    ensures Mergeable(Clients(start), m)
            <==> forall e: Message, id: string :: e.Event? ==> SameFill(Run(start, [e, m]), Run(start, [m, e]), id)
  {
    hide Run, Deliver, SameFill, Clients, Witness;
    if Mergeable(Clients(start), m) {
      forall e: Message, id: string | e.Event? ensures SameFill(Run(start, [e, m]), Run(start, [m, e]), id) {
        CommutesWithEvents(start, e, m, id);
      }
    } else {
      NotMergeableDiffers(start, m);
    }
  }

  lemma CommutesWithEvents(start: Book, e: Message, m: Message, id: string)
    requires e.Event? && Mergeable(Clients(start), m) && |start| <= MAX_LIVE_ORDERS - 2
    ensures SameFill(Run(start, [e, m]), Run(start, [m, e]), id)
  {
    hide Mergeable, Run, Newcomers, SameFill, RowOf, Clients, MessageClients;
    NewcomersBounded(start, [e, m]);
    assert multiset([e, m]) == multiset([m, e]);
    EventsMerge(start, e);
    FillConfluence(start, [e, m], [m, e], id);
  }

  lemma EventsMerge(start: Book, e: Message)
    requires e.Event?
    ensures Mergeable(Clients(start), e)
  {
  }

  lemma {:induction false} NewcomersBounded(start: Book, msgs: seq<Message>)
    ensures |Newcomers(start, msgs)| <= |msgs|
  {
    if msgs == [] {
      NoNewcomers(start);
    } else {
      hide Newcomers, Clients, MessageClients;
      assert msgs == msgs[..|msgs| - 1] + [msgs[|msgs| - 1]];
      NewcomersBounded(start, msgs[..|msgs| - 1]);
      NewcomersExtend(start, msgs[..|msgs| - 1], msgs[|msgs| - 1]);
    }
  }

  lemma NoNewcomers(start: Book)
    ensures Newcomers(start, []) == {}
  {
  }

  lemma NotMergeableDiffers(start: Book, m: Message)
    requires !Mergeable(Clients(start), m) && |start| <= MAX_LIVE_ORDERS - 2
    ensures var e := Witness(start, m);
            e.Event? && !SameFill(Run(start, [e, m]), Run(start, [m, e]), ClientOf(e))
  {
    var e := Witness(start, m);
    RunOfTwo(start, e, m);
    RunOfTwo(start, m, e);
    hide Run;
    match m {
      case Upsert(o) => UpsertDiffers(start, o, e);
      case Modify(_, _, _, _, _, _, _, _) => UnheldModifyDiffers(start, m, e);
      case Seed(o) =>
        if o.venue != "" {
          VenueSeedDiffers(start, o, e);
        } else {
          KeylessSeedDiffers(start, o, e);
        }
      case Event(_, _, _, _, _, _, _) =>
    }
  }

  /** What a delivery keyed by client id leaves as that id's row, and that other ids keep theirs. */
  lemma RowAfterDelivery(book: Book, m: Message, id: string)
    requires !m.Seed? && |book| < MAX_LIVE_ORDERS
    ensures RowOf(Deliver(book, m), id) ==
            if id != ClientOf(m) then RowOf(book, id)
            else if RowOf(book, id).Some? then Some(MergeInto(RowOf(book, id).value, m))
            else NewRow(m)
    ensures |Deliver(book, m)| <= |book| + 1
  {
    var i := Find(book, MessageKey(m));
    assert i < |book| <==> RowOf(book, ClientOf(m)).Some?;
    if i < |book| {
      RowOfUpdate(book, i, MergeInto(book[i], m), id);
    } else if NewRow(m).Some? {
      RowOfInsert(book, NewRow(m).value, id);
    }
  }

  lemma UpsertDiffers(start: Book, o: LiveOrder, e: Message)
    requires |start| <= MAX_LIVE_ORDERS - 2 && e == Witness(start, Upsert(o))
    ensures !SameFill(Deliver(Deliver(start, e), Upsert(o)), Deliver(Deliver(start, Upsert(o)), e), o.client)
  {
    hide Deliver, RowOf;
    RowAfterDelivery(start, e, o.client);
    RowAfterDelivery(Deliver(start, e), Upsert(o), o.client);
    RowAfterDelivery(start, Upsert(o), o.client);
    RowAfterDelivery(Deliver(start, Upsert(o)), e, o.client);
  }

  lemma UnheldModifyDiffers(start: Book, m: Message, e: Message)
    requires |start| <= MAX_LIVE_ORDERS - 2 && e == Witness(start, m)
    requires m.Modify? && m.client !in Clients(start)
    ensures !SameFill(Deliver(Deliver(start, e), m), Deliver(Deliver(start, m), e), m.client)
  {
    hide Deliver;
    assert RowOf(start, m.client).None?;
    hide RowOf;
    RowAfterDelivery(start, e, m.client);
    RowAfterDelivery(Deliver(start, e), m, m.client);
    RowAfterDelivery(start, m, m.client);
    RowAfterDelivery(Deliver(start, m), e, m.client);
  }

  /** Seen after the event, the seed finds the event's row by its venue id; seen before, it cannot. */
  lemma VenueSeedDiffers(start: Book, o: LiveOrder, e: Message)
    requires |start| <= MAX_LIVE_ORDERS - 2 && e == Witness(start, Seed(o))
    requires o.client == "" && o.venue != ""
    ensures !SameFill(Deliver(Deliver(start, e), Seed(o)), Deliver(Deliver(start, Seed(o)), e), e.client)
  {
    var id := FreshId(start);
    var row := EventRow(e);
    assert Deliver(start, e) == [row] + start by {
      assert RowOf(start, id).None?;
    }
    var em := Deliver([row] + start, Seed(o));
    assert em == ([row] + start)[0 := MergeSeed(row, o)] by {
      FindUnique([row] + start, ByVenue(o.venue), 0);
    }
    assert RowOf(em, id) == Some(em[0]) by {
      FindUnique(em, ByClient(id), 0);
    }
    SeedKeepsAbsent(start, o, id);
    RowAfterDelivery(Deliver(start, Seed(o)), e, id);
  }

  lemma SeedKeepsAbsent(book: Book, o: LiveOrder, id: string)
    requires id !in Clients(book) && o.client != id && |book| < MAX_LIVE_ORDERS
    ensures RowOf(Deliver(book, Seed(o)), id).None? && |Deliver(book, Seed(o))| <= |book| + 1
  {
    var i := Find(book, SeedKey(o));
    if i < |book| {
      assert book[i] in book && MergeSeed(book[i], o).client == book[i].client;
      hide MergeSeed;
      assert forall x :: x in book[i := MergeSeed(book[i], o)] ==> x in book || x == MergeSeed(book[i], o);
    }
  }

  /** Seen after the event, the seed is the first row without a client id; seen before, the event merges into it. */
  lemma KeylessSeedDiffers(start: Book, o: LiveOrder, e: Message)
    requires |start| <= MAX_LIVE_ORDERS - 2 && e == Witness(start, Seed(o))
    requires o.client == "" && o.venue == ""
    ensures !SameFill(Deliver(Deliver(start, e), Seed(o)), Deliver(Deliver(start, Seed(o)), e), "")
  {
    RowAfterDelivery(start, e, "");
    var book := Deliver(start, e);
    assert Deliver(book, Seed(o)) == [o] + book && Deliver(start, Seed(o)) == [o] + start;
    RowOfInsert(book, o, "");
    RowOfInsert(start, o, "");
    hide Deliver, RowOf;
    RowAfterDelivery([o] + start, e, "");
  }
}
