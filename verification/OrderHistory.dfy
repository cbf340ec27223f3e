/** What each retained row of the live book shows, read off the updates it has heard. */
module OrderHistory {
  import opened Wrappers
  import opened LiveOrders
  import opened OrderFills

  // ── Rows with their history ──

  /** A row, the updates it has heard since it was inserted or replaced, and how many rows were inserted before it. */
  datatype Tracked = Tracked(order: LiveOrder, heard: seq<Message>, born: nat)

  datatype Ledger = Ledger(rows: seq<Tracked>, inserted: nat)

  const BLANK := Ledger([], 0)

  function Rows(rows: seq<Tracked>): (book: Book)
    ensures |book| == |rows|
    ensures forall i :: 0 <= i < |rows| ==> book[i] == rows[i].order
  {
    seq(|rows|, i requires 0 <= i < |rows| => rows[i].order)
  }

  function Track(l: Ledger, m: Message): Ledger {
    var i := Find(Rows(l.rows), MessageKey(m));
    if i < |l.rows| then
      var t := l.rows[i];
      l.(rows := l.rows[i := Tracked(MergeInto(t.order, m), if m.Upsert? then [m] else t.heard + [m], t.born)])
    else if NewRow(m).Some? then
      Ledger(Truncate([Tracked(NewRow(m).value, [m], l.inserted)] + l.rows), l.inserted + 1)
    else l
  }

  function TrackRun(msgs: seq<Message>): Ledger {
    if msgs == [] then BLANK
    else Track(TrackRun(msgs[..|msgs| - 1]), msgs[|msgs| - 1])
  }

  // ── What one update reports ──

  function StatusOf(m: Message): string {
    match m
    case Upsert(o) => o.status
    case Seed(o) => o.status
    case Event(_, _, status, _, _, _, _) => status
    case Modify(_, _, _, _, status, _, _, _) => status
  }

  function TimeOf(m: Message): int {
    match m
    case Upsert(o) => o.tsMs
    case Seed(o) => o.tsMs
    case Event(_, _, _, _, _, tsMs, _) => tsMs
    case Modify(_, _, _, _, _, _, _, tsMs) => tsMs
  }

  function VenueOf(m: Message): string {
    match m
    case Upsert(o) => o.venue
    case Seed(o) => o.venue
    case Event(_, venue, _, _, _, _, _) => venue
    case Modify(_, venue, _, _, _, _, _, _) => venue
  }

  /** A modify carries no strategy, and only full orders carry a symbol and a side. */
  function StrategyOf(m: Message): string {
    match m
    case Upsert(o) => o.strategyId
    case Seed(o) => o.strategyId
    case Event(_, _, _, _, _, _, strategyId) => strategyId
    case Modify(_, _, _, _, _, _, _, _) => ""
  }

  function SymbolOf(m: Message): string {
    match m
    case Upsert(o) => o.symbol
    case Seed(o) => o.symbol
    case Event(_, _, _, _, _, _, _) => ""
    case Modify(_, _, _, _, _, _, _, _) => ""
  }

  function SideOf(m: Message): string {
    match m
    case Upsert(o) => o.side
    case Seed(o) => o.side
    case Event(_, _, _, _, _, _, _) => ""
    case Modify(_, _, _, _, _, _, _, _) => ""
  }

  function Texts(heard: seq<Message>, of: Message -> string): (r: seq<string>)
    ensures |r| == |heard|
    ensures forall k :: 0 <= k < |heard| ==> r[k] == of(heard[k])
  {
    seq(|heard|, k requires 0 <= k < |heard| => of(heard[k]))
  }

  /** `x` is the last non-empty text, or empty if there is none. */
  ghost predicate LastNonEmpty(x: string, xs: seq<string>) {
    if x == "" then forall k :: 0 <= k < |xs| ==> xs[k] == ""
    else exists k :: 0 <= k < |xs| && xs[k] == x && forall j :: k < j < |xs| ==> xs[j] == ""
  }

  /** `x` is the first non-empty text, or empty if there is none. */
  ghost predicate FirstNonEmpty(x: string, xs: seq<string>) {
    if x == "" then forall k :: 0 <= k < |xs| ==> xs[k] == ""
    else exists k :: 0 <= k < |xs| && xs[k] == x && forall j :: 0 <= j < k ==> xs[j] == ""
  }

  lemma LastExtends(x: string, xs: seq<string>, y: string)
    requires LastNonEmpty(x, xs)
    ensures LastNonEmpty(if y != "" then y else x, xs + [y])
  {
    var ys := xs + [y];
    if y != "" {
      assert ys[|xs|] == y;
    } else if x != "" {
      var k :| 0 <= k < |xs| && xs[k] == x && forall j :: k < j < |xs| ==> xs[j] == "";
      assert ys[k] == x;
    }
  }

  lemma FirstExtends(x: string, xs: seq<string>, y: string)
    requires FirstNonEmpty(x, xs)
    ensures FirstNonEmpty(if x != "" then x else y, xs + [y])
  {
    var ys := xs + [y];
    if x != "" {
      var k :| 0 <= k < |xs| && xs[k] == x && forall j :: 0 <= j < k ==> xs[j] == "";
      assert ys[k] == x;
    } else if y != "" {
      assert ys[|xs|] == y;
    }
  }

  lemma TextsExtend(heard: seq<Message>, m: Message, of: Message -> string)
    ensures Texts(heard + [m], of) == Texts(heard, of) + [of(m)]
  {
  }

  // ── What a row shows ──

  predicate Terminal(status: string) {
    status in {"FILLED", "CANCELED", "REJECTED", "EXPIRED", "DENIED"}
  }

  /**
   * The status comes from update `k`. From `i` on only seeds followed, none of them after a terminal
   * status; and `k` is the last update of all unless its status is terminal.
   */
  predicate StatusFrom(status: string, heard: seq<Message>, i: nat, k: nat) {
    && i <= k < |heard| && status == StatusOf(heard[k])
    && (i == 0 || !heard[i].Seed?)
    && (forall j :: i < j < |heard| ==> heard[j].Seed?)
    && (forall j :: i <= j < k ==> !Terminal(StatusOf(heard[j])))
    && (k == |heard| - 1 || Terminal(status))
  }

  ghost predicate ShowsStatus(status: string, heard: seq<Message>) {
    exists i: nat, k: nat :: StatusFrom(status, heard, i, k)
  }

  lemma StatusExtends(status: string, heard: seq<Message>, m: Message)
    requires ShowsStatus(status, heard)
    ensures ShowsStatus(if m.Seed? && Terminal(status) then status else StatusOf(m), heard + [m])
  {
    var i: nat, k: nat :| StatusFrom(status, heard, i, k);
    var n, more := |heard|, heard + [m];
    if !m.Seed? {
      assert StatusFrom(StatusOf(m), more, n, n);
    } else if Terminal(status) {
      assert StatusFrom(status, more, i, k);
    } else {
      assert StatusFrom(StatusOf(m), more, i, n);
    }
  }

  /** The quantity a row starts with, or a modify sets. */
  predicate SetsQty(heard: seq<Message>, i: nat)
    requires i < |heard|
  {
    i == 0 || (heard[i].Modify? && heard[i].newQty.Some?)
  }

  function QtyOf(m: Message): real {
    match m
    case Upsert(o) => o.qty
    case Seed(o) => o.qty
    case Event(_, _, _, _, _, _, _) => 0.0
    case Modify(_, _, newQty, _, _, _, _, _) => if newQty.Some? then newQty.value else 0.0
  }

  /** Zero until a seed after `i` has a quantity; then the first such. */
  ghost predicate FirstSeededQty(qty: real, heard: seq<Message>, i: nat) {
    if qty == 0.0 then forall j :: i < j < |heard| && heard[j].Seed? ==> heard[j].order.qty == 0.0
    else
      exists k :: i < k < |heard| && heard[k].Seed? && heard[k].order.qty == qty
                  && forall j :: i < j < k && heard[j].Seed? ==> heard[j].order.qty == 0.0
  }

  /** The quantity was last set by `i`, and seeds have filled it in if that was zero. */
  ghost predicate QtyFrom(qty: real, heard: seq<Message>, i: nat) {
    && i < |heard| && SetsQty(heard, i) && (forall j :: i < j < |heard| ==> !SetsQty(heard, j))
    && if QtyOf(heard[i]) != 0.0 then qty == QtyOf(heard[i]) else FirstSeededQty(qty, heard, i)
  }

  lemma QtyExtends(qty: real, heard: seq<Message>, m: Message, i: nat) returns (i': nat)
    requires QtyFrom(qty, heard, i)
    ensures QtyFrom(if m.Modify? && m.newQty.Some? then m.newQty.value
                    else if m.Seed? && qty == 0.0 then m.order.qty else qty, heard + [m], i')
  {
    var n, more := |heard|, heard + [m];
    if m.Modify? && m.newQty.Some? {
      i' := n;
    } else {
      i' := i;
      assert forall j :: 0 <= j < n ==> (SetsQty(more, j) <==> SetsQty(heard, j));
      assert forall j :: i < j < n ==> more[j] == heard[j];
      if QtyOf(heard[i]) == 0.0 && qty == 0.0 && m.Seed? && m.order.qty != 0.0 {
        assert more[n].Seed? && more[n].order.qty == m.order.qty;
      } else if QtyOf(heard[i]) == 0.0 && qty != 0.0 {
        var k :| i < k < n && heard[k].Seed? && heard[k].order.qty == qty
                 && forall j :: i < j < k && heard[j].Seed? ==> heard[j].order.qty == 0.0;
        assert more[k].Seed? && more[k].order.qty == qty;
      }
    }
  }

  /** The price a row starts with, or a modify or a seed with a client id sets. */
  predicate SetsPrice(heard: seq<Message>, i: nat)
    requires i < |heard|
  {
    || i == 0
    || (heard[i].Modify? && heard[i].newPrice.Some?)
    || (heard[i].Seed? && heard[i].order.client != "" && heard[i].order.price.Some?)
  }

  function PriceOf(m: Message): Option<real> {
    match m
    case Upsert(o) => o.price
    case Seed(o) => o.price
    case Event(_, _, _, _, _, _, _) => None
    case Modify(_, _, _, newPrice, _, _, _, _) => newPrice
  }

  /** None until a seed after `i` has a price; then the first such. */
  ghost predicate FirstSeededPrice(price: Option<real>, heard: seq<Message>, i: nat) {
    if price.None? then forall j :: i < j < |heard| && heard[j].Seed? ==> heard[j].order.price.None?
    else
      exists k :: i < k < |heard| && heard[k].Seed? && heard[k].order.price == price
                  && forall j :: i < j < k && heard[j].Seed? ==> heard[j].order.price.None?
  }

  ghost predicate PriceFrom(price: Option<real>, heard: seq<Message>, i: nat) {
    && i < |heard| && SetsPrice(heard, i) && (forall j :: i < j < |heard| ==> !SetsPrice(heard, j))
    && if PriceOf(heard[i]).Some? then price == PriceOf(heard[i]) else FirstSeededPrice(price, heard, i)
  }

  lemma PriceExtends(price: Option<real>, heard: seq<Message>, m: Message, i: nat) returns (i': nat)
    requires PriceFrom(price, heard, i)
    ensures PriceFrom(if m.Modify? && m.newPrice.Some? then m.newPrice
                      else if m.Seed? && ((m.order.client != "" && m.order.price.Some?) || price.None?)
                      then m.order.price else price, heard + [m], i')
  {
    var n, more := |heard|, heard + [m];
    if (m.Modify? && m.newPrice.Some?) || (m.Seed? && m.order.client != "" && m.order.price.Some?) {
      i' := n;
    } else {
      i' := i;
      assert forall j :: 0 <= j < n ==> (SetsPrice(more, j) <==> SetsPrice(heard, j));
      assert forall j :: i < j < n ==> more[j] == heard[j];
      if PriceOf(heard[i]).None? && price.None? && m.Seed? && m.order.price.Some? {
        assert more[n].Seed? && more[n].order.price == m.order.price;
      } else if PriceOf(heard[i]).None? && price.Some? {
        var k :| i < k < n && heard[k].Seed? && heard[k].order.price == price
                 && forall j :: i < j < k && heard[j].Seed? ==> heard[j].order.price.None?;
        assert more[k].Seed? && more[k].order.price == price;
      }
    }
  }

  /** `fill` is the largest report, and the last one attaining it. */
  ghost predicate LatestMaximum(fill: Report, heard: seq<Message>) {
    exists k :: 0 <= k < |heard| && ReportOf(heard[k]) == fill
                && (forall j :: 0 <= j < |heard| ==> ReportOf(heard[j]).qty <= fill.qty)
                && (forall j :: k < j < |heard| ==> ReportOf(heard[j]).qty < fill.qty)
  }

  lemma LatestMaximumExtends(fill: Report, heard: seq<Message>, m: Message)
    requires LatestMaximum(fill, heard)
    ensures LatestMaximum(if ReportOf(m).qty >= fill.qty then ReportOf(m) else fill, heard + [m])
  {
    hide ReportOf;
    var k :| 0 <= k < |heard| && ReportOf(heard[k]) == fill
             && (forall j :: 0 <= j < |heard| ==> ReportOf(heard[j]).qty <= fill.qty)
             && (forall j :: k < j < |heard| ==> ReportOf(heard[j]).qty < fill.qty);
    assert ReportOf((heard + [m])[k]) == fill && ReportOf((heard + [m])[|heard|]) == ReportOf(m);
  }

  // ── Every field of every row ──

  /** Ids, tags and times: what an update leaves empty does not clear what is known. */
  ghost predicate ShowsTags(o: LiveOrder, heard: seq<Message>) {
    && heard != [] && !heard[0].Modify? && o.client == ClientOf(heard[0])
    && o.tsMs == TimeOf(heard[|heard| - 1])
    && LastNonEmpty(o.venue, Texts(heard, VenueOf))
    && LastNonEmpty(o.strategyId, Texts(heard, StrategyOf))
    && FirstNonEmpty(o.symbol, Texts(heard, SymbolOf))
    && FirstNonEmpty(o.side, Texts(heard, SideOf))
  }

  /** Status, quantity, price and fill. */
  ghost predicate ShowsTerms(o: LiveOrder, heard: seq<Message>) {
    && ShowsStatus(o.status, heard)
    && (exists i: nat :: QtyFrom(o.qty, heard, i))
    && (exists i: nat :: PriceFrom(o.price, heard, i))
    && LatestMaximum(Report(o.filledQty, o.avgPrice), heard)
  }

  ghost predicate Explained(rows: seq<Tracked>) {
    forall t :: t in rows ==> ShowsTags(t.order, t.heard) && ShowsTerms(t.order, t.heard)
  }

  /** The newest 64 rows ever inserted, newest first. */
  ghost predicate NewestFirst(l: Ledger) {
    && |l.rows| == (if l.inserted < 64 then l.inserted else 64)
    && forall i :: 0 <= i < |l.rows| ==> l.rows[i].born == l.inserted - 1 - i
  }

  lemma MergedTags(o: LiveOrder, m: Message)
    requires !m.Upsert?
    ensures var r := MergeInto(o, m);
            && r.client == o.client && r.tsMs == TimeOf(m)
            && r.venue == (if VenueOf(m) != "" then VenueOf(m) else o.venue)
            && r.strategyId == (if StrategyOf(m) != "" then StrategyOf(m) else o.strategyId)
            && r.symbol == (if o.symbol != "" then o.symbol else SymbolOf(m))
            && r.side == (if o.side != "" then o.side else SideOf(m))
  {
  }

  lemma MergeTags(o: LiveOrder, heard: seq<Message>, m: Message)
    requires ShowsTags(o, heard) && !m.Upsert?
    ensures ShowsTags(MergeInto(o, m), heard + [m])
  {
    MergedTags(o, m);
    hide MergeInto, TimeOf, VenueOf, StrategyOf, SymbolOf, SideOf, LastNonEmpty, FirstNonEmpty;
    TextsExtend(heard, m, VenueOf);
    TextsExtend(heard, m, StrategyOf);
    TextsExtend(heard, m, SymbolOf);
    TextsExtend(heard, m, SideOf);
    LastExtends(o.venue, Texts(heard, VenueOf), VenueOf(m));
    LastExtends(o.strategyId, Texts(heard, StrategyOf), StrategyOf(m));
    FirstExtends(o.symbol, Texts(heard, SymbolOf), SymbolOf(m));
    FirstExtends(o.side, Texts(heard, SideOf), SideOf(m));
  }

  /** What a merge does to the terms of a row, written out. */
  lemma MergedTerms(o: LiveOrder, m: Message)
    requires !m.Upsert?
    ensures var r := MergeInto(o, m);
            && r.status == (if m.Seed? && Terminal(o.status) then o.status else StatusOf(m))
            && r.qty == (if m.Modify? && m.newQty.Some? then m.newQty.value
                         else if m.Seed? && o.qty == 0.0 then m.order.qty else o.qty)
            && r.price == (if m.Modify? && m.newPrice.Some? then m.newPrice
                           else if m.Seed? && ((m.order.client != "" && m.order.price.Some?) || o.price.None?)
                           then m.order.price else o.price)
  {
  }

  lemma MergeTerms(o: LiveOrder, heard: seq<Message>, m: Message)
    requires ShowsTerms(o, heard) && !m.Upsert?
    ensures ShowsTerms(MergeInto(o, m), heard + [m])
  {
    MergeFill(o, m);
    MergedTerms(o, m);
    StatusExtends(o.status, heard, m);
    LatestMaximumExtends(Report(o.filledQty, o.avgPrice), heard, m);
    hide MergeInto, StatusOf, ReportOf, ShowsStatus, LatestMaximum, QtyFrom, PriceFrom, Terminal;
    var i: nat :| QtyFrom(o.qty, heard, i);
    var i' := QtyExtends(o.qty, heard, m, i);
    var j: nat :| PriceFrom(o.price, heard, j);
    var j' := PriceExtends(o.price, heard, m, j);
  }

  lemma FirstUpdate(m: Message)
    requires NewRow(m).Some?
    ensures ShowsTags(NewRow(m).value, [m]) && ShowsTerms(NewRow(m).value, [m])
  {
    var o, h := NewRow(m).value, [m];
    assert h[0] == m;
    assert Texts(h, VenueOf)[0] == o.venue && Texts(h, StrategyOf)[0] == o.strategyId;
    assert Texts(h, SymbolOf)[0] == o.symbol && Texts(h, SideOf)[0] == o.side;
    assert StatusFrom(o.status, h, 0, 0);
    assert QtyFrom(o.qty, h, 0) && PriceFrom(o.price, h, 0);
    assert ReportOf(h[0]) == Report(o.filledQty, o.avgPrice);
  }

  lemma RowsUpdated(rows: seq<Tracked>, i: nat, t: Tracked)
    requires i < |rows| && Explained(rows) && ShowsTags(t.order, t.heard) && ShowsTerms(t.order, t.heard)
    ensures Explained(rows[i := t]) && Rows(rows[i := t]) == Rows(rows)[i := t.order]
  {
    hide ShowsTags, ShowsTerms;
  }

  lemma RowsInserted(rows: seq<Tracked>, t: Tracked)
    requires Explained(rows) && ShowsTags(t.order, t.heard) && ShowsTerms(t.order, t.heard)
    ensures Explained(Truncate([t] + rows)) && Rows(Truncate([t] + rows)) == Truncate([t.order] + Rows(rows))
  {
    hide ShowsTags, ShowsTerms;
  }

  lemma TrackStep(l: Ledger, m: Message)
    requires Explained(l.rows) && NewestFirst(l)
    ensures Explained(Track(l, m).rows) && NewestFirst(Track(l, m))
    ensures Rows(Track(l, m).rows) == Deliver(Rows(l.rows), m)
  {
    hide MergeInto, NewRow, ShowsTags, ShowsTerms, MessageKey;
    var i := Find(Rows(l.rows), MessageKey(m));
    if i < |l.rows| {
      var t := l.rows[i];
      assert t in l.rows;
      var heard := if m.Upsert? then [m] else t.heard + [m];
      if m.Upsert? {
        UpsertReplaces(t.order, m);
        FirstUpdate(m);
      } else {
        MergeTags(t.order, t.heard, m);
        MergeTerms(t.order, t.heard, m);
      }
      RowsUpdated(l.rows, i, Tracked(MergeInto(t.order, m), heard, t.born));
    } else if NewRow(m).Some? {
      FirstUpdate(m);
      RowsInserted(l.rows, Tracked(NewRow(m).value, [m], l.inserted));
    }
  }

  lemma UpsertReplaces(o: LiveOrder, m: Message)
    requires m.Upsert?
    ensures NewRow(m) == Some(m.order) && MergeInto(o, m) == m.order
  {
  }

  /**
   * Over any interleaving of every kind of update, evictions included: the book is the newest 64
   * rows, newest first, and each field of each row is the one its history calls for.
   */
  lemma {:induction false} RowsReadHistory(msgs: seq<Message>)
    ensures Rows(TrackRun(msgs).rows) == Run([], msgs)
    ensures Explained(TrackRun(msgs).rows) && NewestFirst(TrackRun(msgs))
  {
    if msgs != [] {
      RowsReadHistory(msgs[..|msgs| - 1]);
      TrackStep(TrackRun(msgs[..|msgs| - 1]), msgs[|msgs| - 1]);
    }
  }

  // ── Which row an update reaches ──

  /** The update names the row: by client id, or for a seed without one by venue id. */
  predicate Names(m: Message, o: LiveOrder) {
    match m
    case Upsert(x) => o.client == x.client
    case Event(client, _, _, _, _, _, _) => o.client == client
    case Modify(client, _, _, _, _, _, _, _) => o.client == client
    case Seed(x) => if x.client != "" then o.client == x.client else x.venue != "" && o.venue == x.venue
  }

  /** An update reaches the first row it names, and only that row. */
  lemma ReachesFirstNamed(book: Book, m: Message, i: nat)
    requires i < |book| && Names(m, book[i]) && forall j :: 0 <= j < i ==> !Names(m, book[j])
    ensures var after := Deliver(book, m);
            |after| == |book| && forall j :: 0 <= j < |book| && j != i ==> after[j] == book[j]
  {
    FindUnique(book, MessageKey(m), i);
  }

  /** One that names no row is a new row in front of the others, the oldest making room; a modify is dropped. */
  lemma InsertsInFront(book: Book, m: Message)
    requires forall o :: o in book ==> !Names(m, o)
    ensures m.Modify? ==> Deliver(book, m) == book
    ensures !m.Modify? ==>
              var after := Deliver(book, m);
              && |after| == (if |book| < 64 then |book| + 1 else 64)
              && (forall i :: 0 < i < |after| ==> after[i] == book[i - 1])
              && after[0] == match m
                             case Upsert(o) => o
                             case Seed(o) => o
                             case Event(client, venue, status, qty, price, tsMs, strategyId) =>
                               LiveOrder(client, venue, "", "", 0.0, None, status, qty, price, tsMs, strategyId)
  {
    assert forall j :: 0 <= j < |book| ==> book[j] in book;
    FindUnique(book, MessageKey(m), |book|);
  }

  // ── Seeds and terminal rows ──

  /** Every row still there has moved by `shift`, and kept its id, and its status if that was terminal. */
  ghost predicate KeepsTerminal(before: Book, after: Book, shift: nat) {
    forall i :: 0 <= i < |before| && i + shift < |after| ==>
      && after[i + shift].client == before[i].client
      && (Terminal(before[i].status) ==> after[i + shift].status == before[i].status)
  }

  /** Some row of the book is named by the update. */
  predicate Reaches(book: Book, m: Message) {
    exists o :: o in book && Names(m, o)
  }

  /** How many of the seeds name no row when they arrive, and so are inserted in front. */
  function Inserted(book: Book, seeds: seq<LiveOrder>): nat {
    if seeds == [] then 0
    else
      var init, seed := seeds[..|seeds| - 1], seeds[|seeds| - 1];
      var now := Run(book, Seeds(init));
      Inserted(book, init) + if Reaches(now, Seed(seed)) then 0 else 1
  }

  lemma SeedKeepsTerminal(book: Book, seed: LiveOrder)
    ensures var shift := if Reaches(book, Seed(seed)) then 0 else 1;
            && KeepsTerminal(book, Deliver(book, Seed(seed)), shift)
            && |Deliver(book, Seed(seed))| <= |book| + shift
  {
    var m := Seed(seed);
    var i := Find(book, MessageKey(m));
    if i < |book| {
      assert book[i] in book && Names(m, book[i]);
      MergedTerms(book[i], m);
      MergedTags(book[i], m);
    } else {
      forall o | o in book ensures !Names(m, o) {
        var j :| 0 <= j < |book| && book[j] == o;
        assert !Matches(book[j], MessageKey(m));
      }
    }
  }

  /** No run of seeds moves any row of any book off a terminal status. */
  lemma {:induction false} SeedsKeepTerminal(book: Book, seeds: seq<LiveOrder>)
    ensures KeepsTerminal(book, Run(book, Seeds(seeds)), Inserted(book, seeds))
  {
    hide Deliver, Reaches, KeepsTerminal;
    if seeds == [] {
      NothingSeeded(book);
    } else {
      var init, seed := seeds[..|seeds| - 1], seeds[|seeds| - 1];
      assert Seeds(seeds)[..|seeds| - 1] == Seeds(init);
      var now := Run(book, Seeds(init));
      SeedsKeepTerminal(book, init);
      SeedKeepsTerminal(now, seed);
      KeepsTerminalTwice(book, now, Deliver(now, Seed(seed)), Inserted(book, init),
                         if Reaches(now, Seed(seed)) then 0 else 1);
    }
  }

  lemma NothingSeeded(book: Book)
    ensures KeepsTerminal(book, book, 0)
  {
  }

  lemma KeepsTerminalTwice(a: Book, b: Book, c: Book, first: nat, second: nat)
    requires KeepsTerminal(a, b, first) && KeepsTerminal(b, c, second) && |c| <= |b| + second
    ensures KeepsTerminal(a, c, first + second)
  {
    forall i | 0 <= i < |a| && i + (first + second) < |c|
      ensures c[i + (first + second)].client == a[i].client
      ensures Terminal(a[i].status) ==> c[i + (first + second)].status == a[i].status
    {
      var j := i + first;
      assert b[i + first] == b[j] && c[j + second] == c[i + (first + second)];
    }
  }

  /** The row a seed reaches takes the seed's status unless its own is terminal. */
  lemma SeedRefreshesStatus(book: Book, seed: LiveOrder, i: nat)
    requires i < |book| && Names(Seed(seed), book[i]) && forall j :: 0 <= j < i ==> !Names(Seed(seed), book[j])
    ensures i < |Deliver(book, Seed(seed))|
    ensures Deliver(book, Seed(seed))[i].status
            == if book[i].status in {"FILLED", "CANCELED", "REJECTED", "EXPIRED", "DENIED"} then book[i].status
               else seed.status
  {
    FindUnique(book, MessageKey(Seed(seed)), i);
    MergedTerms(book[i], Seed(seed));
  }
}
