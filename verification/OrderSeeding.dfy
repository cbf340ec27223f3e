/** Seeding the live book from a `GetOrders` snapshot, and reconciling against it. */
module OrderSeeding {
  import opened Wrappers
  import opened LiveOrders

  // ── The snapshot ──

  /** A venue row is kept unless a facade row already carries its venue id. */
  function NewVenueRows(known: set<string>, rows: seq<LiveOrder>): seq<LiveOrder> {
    if rows == [] then []
    else if rows[0].venue !in known then [rows[0]] + NewVenueRows(known, rows[1..])
    else NewVenueRows(known, rows[1..])
  }

  function FacadeVenueIds(facade: seq<LiveOrder>): set<string> {
    set o | o in facade && o.venue != "" :: o.venue
  }

  /** The `GetOrders` handler: facade rows first, then the venue rows it does not know. */
  method MergeSnapshot(facade: seq<LiveOrder>, venueRows: seq<LiveOrder>) returns (merged: seq<LiveOrder>)
    ensures merged == facade + NewVenueRows(FacadeVenueIds(facade), venueRows)
    ensures FacadeRows(facade) && VenueRows(venueRows) ==>
              Snapshot(facade, NewVenueRows(FacadeVenueIds(facade), venueRows))
  {
    var known := FacadeVenueIds(facade);
    merged := facade;
    for i := 0 to |venueRows|
      invariant merged + NewVenueRows(known, venueRows[i..]) == facade + NewVenueRows(known, venueRows)
    {
      if venueRows[i].venue !in known {
        merged := merged + [venueRows[i]];
      }
      assert venueRows[i..][1..] == venueRows[i + 1..];
    }
    if VenueRows(venueRows) {
      NewVenueRowsShape(known, venueRows);
      var kept := NewVenueRows(known, venueRows);
      forall c, v | c in facade && v in kept && c.venue != "" ensures c.venue != v.venue {
        assert c.venue in known;
      }
    }
  }

  ghost predicate FacadeRows(facade: seq<LiveOrder>) {
    && (forall i :: 0 <= i < |facade| ==> facade[i].client != "")
    && (forall i, j :: 0 <= i < j < |facade| ==> facade[i].client != facade[j].client)
  }

  /** Venue rows carry no client id; those that carry a venue id carry distinct ones. */
  ghost predicate VenueRows(rows: seq<LiveOrder>) {
    && (forall i :: 0 <= i < |rows| ==> rows[i].client == "")
    && (forall i, j :: 0 <= i < j < |rows| && rows[i].venue != "" ==> rows[i].venue != rows[j].venue)
  }

  ghost predicate Snapshot(facade: seq<LiveOrder>, venueOnly: seq<LiveOrder>) {
    && FacadeRows(facade) && VenueRows(venueOnly)
    && (forall c, v :: c in facade && v in venueOnly && c.venue != "" ==> c.venue != v.venue)
  }

  lemma {:induction false} NewVenueRowsAre(known: set<string>, rows: seq<LiveOrder>, o: LiveOrder)
    ensures o in NewVenueRows(known, rows) <==> o in rows && o.venue !in known
  {
    if rows != [] {
      assert rows == [rows[0]] + rows[1..];
      NewVenueRowsAre(known, rows[1..], o);
    }
  }

  lemma {:induction false} KeptFrom(known: set<string>, rows: seq<LiveOrder>, from: nat) returns (at: seq<nat>)
    requires from <= |rows|
    ensures |at| == |NewVenueRows(known, rows[from..])|
    ensures forall k :: 0 <= k < |at| ==>
              from <= at[k] < |rows| && NewVenueRows(known, rows[from..])[k] == rows[at[k]]
    ensures forall k, l :: 0 <= k < l < |at| ==> at[k] < at[l]
    ensures forall i :: from <= i < |rows| ==> (i in at <==> rows[i].venue !in known)
    decreases |rows| - from
  {
    if from == |rows| {
      at := [];
    } else {
      assert rows[from..][1..] == rows[from + 1..];
      var rest := KeptFrom(known, rows, from + 1);
      at := if rows[from].venue !in known then [from] + rest else rest;
    }
  }

  /** The venue rows kept, in order: those without a venue id, and those no facade row carries the id of. */
  lemma KeptInOrder(facade: seq<LiveOrder>, rows: seq<LiveOrder>) returns (at: seq<nat>)
    ensures |at| == |NewVenueRows(FacadeVenueIds(facade), rows)|
    ensures forall k :: 0 <= k < |at| ==> at[k] < |rows| && NewVenueRows(FacadeVenueIds(facade), rows)[k] == rows[at[k]]
    ensures forall k, l :: 0 <= k < l < |at| ==> at[k] < at[l]
    ensures forall i :: 0 <= i < |rows| ==>
              (i in at <==> rows[i].venue == "" || forall c :: c in facade ==> c.venue != rows[i].venue)
  {
    at := KeptFrom(FacadeVenueIds(facade), rows, 0);
    assert rows[0..] == rows;
  }

  lemma VenueRowsCons(o: LiveOrder, rows: seq<LiveOrder>)
    ensures VenueRows([o] + rows) <==>
            o.client == "" && VenueRows(rows) && (o.venue != "" ==> forall r :: r in rows ==> r.venue != o.venue)
  {
    var all := [o] + rows;
    assert all[0] == o && forall i :: 0 <= i < |rows| ==> all[i + 1] == rows[i];
    if VenueRows(all) {
      assert forall i :: 0 <= i < |rows| ==> rows[i] == all[i + 1];
    }
  }

  /** Rows of the shape the venue reports keep it when the known ones are left out. */
  lemma {:induction false} NewVenueRowsShape(known: set<string>, rows: seq<LiveOrder>)
    requires VenueRows(rows)
    ensures VenueRows(NewVenueRows(known, rows))
    ensures forall o :: o in NewVenueRows(known, rows) <==> o in rows && o.venue !in known
  {
    forall o ensures o in NewVenueRows(known, rows) <==> o in rows && o.venue !in known {
      NewVenueRowsAre(known, rows, o);
    }
    if rows != [] {
      hide VenueRows;
      assert rows == [rows[0]] + rows[1..];
      VenueRowsCons(rows[0], rows[1..]);
      NewVenueRowsShape(known, rows[1..]);
      VenueRowsCons(rows[0], NewVenueRows(known, rows[1..]));
    } else {
      assert NewVenueRows(known, rows) == [];
    }
  }

  // ── Seeding without the cap ──

  function Put(book: Book, seed: LiveOrder): Book {
    var i := Find(book, SeedKey(seed));
    if i < |book| then book[i := MergeSeed(book[i], seed)] else [seed] + book
  }

  function PutAll(book: Book, seeds: seq<LiveOrder>): Book {
    if seeds == [] then book
    else Put(PutAll(book, seeds[..|seeds| - 1]), seeds[|seeds| - 1])
  }

  lemma {:induction false} PutAllGrows(book: Book, seeds: seq<LiveOrder>)
    ensures |book| <= |PutAll(book, seeds)|
  {
    if seeds != [] {
      PutAllGrows(book, seeds[..|seeds| - 1]);
    }
  }

  lemma {:induction false} PutAllConcat(book: Book, a: seq<LiveOrder>, b: seq<LiveOrder>)
    ensures PutAll(book, a + b) == PutAll(PutAll(book, a), b)
  {
    if b == [] {
      assert a + b == a;
    } else {
      PutAllConcat(book, a, b[..|b| - 1]);
      assert (a + b)[..|a + b| - 1] == a + b[..|b| - 1];
    }
  }

  /** The cap plays no part while the seeded book fits. */
  lemma {:induction false} SeedsWithinCap(book: Book, seeds: seq<LiveOrder>)
    requires |PutAll(book, seeds)| <= MAX_LIVE_ORDERS
    ensures Run(book, Seeds(seeds)) == PutAll(book, seeds)
  {
    if seeds != [] {
      var init := seeds[..|seeds| - 1];
      assert Seeds(seeds)[..|seeds| - 1] == Seeds(init);
      assert |PutAll(book, init)| <= |PutAll(book, seeds)|;
      SeedsWithinCap(book, init);
    }
  }

  // ── Row algebra ──

  predicate Absorbs(o: LiveOrder, seed: LiveOrder) {
    MergeSeed(o, seed) == o
  }

  lemma MergeTwice(o: LiveOrder, seed: LiveOrder)
    ensures Absorbs(MergeSeed(o, seed), seed)
    ensures MergeSeed(o, seed).client == o.client
    ensures MergeSeed(o, seed).venue == NonEmpty(seed.venue, o.venue)
  {
  }

  /** A row hit by a facade row and then by a venue row settles after one round. */
  lemma MergeRound(o: LiveOrder, c: LiveOrder, v: LiveOrder)
    requires c.client != "" && v.client == "" && v.venue != "" && o.venue == v.venue && c.venue != v.venue
    requires Absorbs(o, c)
    ensures c.venue == ""
    ensures MergeSeed(MergeSeed(MergeSeed(o, v), c), v) == MergeSeed(o, v)
  {
    var r := MergeSeed(o, v);
    var x := MergeSeed(r, c);
    assert AdvanceFill(x, v.filledQty, v.avgPrice).filledQty == r.filledQty;
    assert AdvanceFill(x, v.filledQty, v.avgPrice).avgPrice == r.avgPrice;
    assert x.venue == r.venue && x.symbol == r.symbol && x.side == r.side;
  }

  // ── First-match search under seeding ──

  /** Seeding `t` moves no other key's first match, except by one place when it inserts. */
  lemma FindAfterPut(book: Book, t: LiveOrder, key: Key)
    requires !Matches(t, key)
    requires Find(book, SeedKey(t)) < |book| ==>
               (Matches(MergeSeed(book[Find(book, SeedKey(t))], t), key)
                <==> Matches(book[Find(book, SeedKey(t))], key))
    ensures Find(Put(book, t), key) == Find(book, key) + |Put(book, t)| - |book|
  {
    var i, shift := Find(book, SeedKey(t)), |Put(book, t)| - |book|;
    FindUnique(Put(book, t), key, Find(book, key) + shift);
  }

  /** Books that agree on ids agree on every search. */
  ghost predicate SameIds(a: Book, b: Book) {
    |a| == |b| && forall k :: 0 <= k < |a| ==> a[k].client == b[k].client && a[k].venue == b[k].venue
  }

  lemma FindSameIds(a: Book, b: Book, key: Key)
    requires SameIds(a, b)
    ensures Find(a, key) == Find(b, key)
  {
    FindUnique(b, key, Find(a, key));
  }

  // ── The first seeding leaves a settled book ──

  ghost predicate Settled(book: Book, seed: LiveOrder) {
    var i := Find(book, SeedKey(seed));
    i < |book| && Absorbs(book[i], seed)
  }

  lemma PutSettles(book: Book, seed: LiveOrder)
    requires SeedKey(seed) != NoKey
    ensures Settled(Put(book, seed), seed)
  {
    var i := Find(book, SeedKey(seed));
    if i < |book| {
      MergeTwice(book[i], seed);
      FindUnique(Put(book, seed), SeedKey(seed), i);
    } else {
      FindUnique(Put(book, seed), SeedKey(seed), 0);
    }
  }

  lemma {:induction false} FacadeSettles(book: Book, facade: seq<LiveOrder>)
    requires FacadeRows(facade)
    ensures forall c :: c in facade ==> Settled(PutAll(book, facade), c)
  {
    if facade != [] {
      var init, t := facade[..|facade| - 1], facade[|facade| - 1];
      FacadeSettles(book, init);
      var b := PutAll(book, init);
      PutSettles(b, t);
      forall c | c in init ensures Settled(Put(b, t), c) {
        SettledElsewhere(b, t, c);
      }
    }
  }

  /** Seeding `t` unsettles no row found by another key. */
  lemma SettledElsewhere(book: Book, t: LiveOrder, seed: LiveOrder)
    requires Settled(book, seed) && SeedKey(t) != NoKey
    requires (t.client != "" && seed.client != "" && t.client != seed.client)
             || (t.client == "" == seed.client && t.venue != seed.venue)
    ensures Settled(Put(book, t), seed)
  {
    var i := Find(book, SeedKey(t));
    if i < |book| {
      MergeTwice(book[i], t);
    }
    FindAfterPut(book, t, SeedKey(seed));
  }

  /** What one seed of the snapshot hits, a later venue row may move it off; re-merging brings it back. */
  ghost predicate Recovers(book: Book, c: LiveOrder, done: seq<LiveOrder>) {
    var i := Find(book, SeedKey(c));
    && i < |book|
    && (c.venue != "" ==> c.venue == book[i].venue)
    && (Absorbs(book[i], c)
        || exists v :: v in done && Find(book, SeedKey(v)) == i && MergeSeed(MergeSeed(book[i], c), v) == book[i])
  }

  ghost predicate Keyed(rows: seq<LiveOrder>) {
    forall v :: v in rows ==> v.venue != ""
  }

  lemma {:induction false} VenueSettles(book: Book, facade: seq<LiveOrder>, venueOnly: seq<LiveOrder>)
    requires Snapshot(facade, venueOnly) && Keyed(venueOnly)
    requires forall c :: c in facade ==> Settled(book, c)
    ensures forall v :: v in venueOnly ==> Settled(PutAll(book, venueOnly), v)
    ensures forall c :: c in facade ==> Recovers(PutAll(book, venueOnly), c, venueOnly)
  {
    if venueOnly == [] {
      forall c | c in facade ensures Recovers(book, c, venueOnly) {
        var o := book[Find(book, SeedKey(c))];
        MergeTwice(o, c);
      }
    } else {
      var init, t := venueOnly[..|venueOnly| - 1], venueOnly[|venueOnly| - 1];
      assert venueOnly == init + [t];
      VenueSettles(book, facade, init);
      var b := PutAll(book, init);
      assert Put(b, t) == PutAll(book, venueOnly);
      PutSettles(b, t);
      forall v | v in init ensures Settled(Put(b, t), v) {
        SettledElsewhere(b, t, v);
      }
      forall c | c in facade ensures Recovers(Put(b, t), c, venueOnly) {
        RecoversAfterPut(b, c, init, t);
      }
    }
  }

  lemma RecoversAfterPut(b: Book, c: LiveOrder, done: seq<LiveOrder>, t: LiveOrder)
    requires c.client != "" && t.client == "" && t.venue != "" && c.venue != t.venue
    requires forall v :: v in done ==> v.client == "" && v.venue != "" && v.venue != t.venue
    requires Recovers(b, c, done)
    ensures Recovers(Put(b, t), c, done + [t])
  {
    var b', i, h := Put(b, t), Find(b, SeedKey(c)), Find(b, SeedKey(t));
    if h < |b| {
      MergeTwice(b[h], t);
    }
    FindAfterPut(b, t, SeedKey(c));
    var i' := Find(b', SeedKey(c));
    assert t in done + [t];
    if h < |b| && h == i {
      assert Absorbs(b[i], c);
      MergeRound(b[i], c, t);
      PutSettles(b, t);
      FindUnique(b', SeedKey(t), h);
      assert MergeSeed(MergeSeed(b'[i'], c), t) == b'[i'];
    } else {
      assert b'[i'] == b[i];
      if !Absorbs(b[i], c) {
        var v :| v in done && Find(b, SeedKey(v)) == i && MergeSeed(MergeSeed(b[i], c), v) == b[i];
        FindAfterPut(b, t, SeedKey(v));
        assert v in done + [t];
      }
    }
  }

  // ── The second seeding returns to the same book ──

  /** Row `k` of `x` is already as in `goal`, or the venue row that hits it will make it so. */
  ghost predicate Restored(goal: Book, x: Book, pending: seq<LiveOrder>, k: nat)
    requires SameIds(goal, x) && k < |goal|
  {
    x[k] == goal[k] || exists v :: v in pending && Find(goal, SeedKey(v)) == k && MergeSeed(x[k], v) == goal[k]
  }

  ghost predicate AllRestored(goal: Book, x: Book, pending: seq<LiveOrder>) {
    SameIds(goal, x) && forall k :: 0 <= k < |goal| ==> Restored(goal, x, pending, k)
  }

  /** Re-seeding the facade rows: rows of the facade rows still to come are untouched. */
  lemma {:induction false} FacadeAgain(goal: Book, facade: seq<LiveOrder>, venueOnly: seq<LiveOrder>)
    requires Snapshot(facade, venueOnly)
    requires forall c :: c in facade ==> Recovers(goal, c, venueOnly)
    ensures AllRestored(goal, PutAll(goal, facade), venueOnly)
    ensures forall k :: 0 <= k < |goal| && (forall c :: c in facade ==> c.client != goal[k].client) ==>
              PutAll(goal, facade)[k] == goal[k]
  {
    if facade != [] {
      var init, t := facade[..|facade| - 1], facade[|facade| - 1];
      assert facade == init + [t];
      FacadeAgain(goal, init, venueOnly);
      var x, h := PutAll(goal, init), Find(goal, SeedKey(t));
      FindSameIds(x, goal, SeedKey(t));
      assert t in facade;
      assert forall c :: c in init ==> c.client != goal[h].client;
      assert x[h] == goal[h];
      RestoredStep(goal, x, venueOnly, t);
    }
  }

  lemma RestoredStep(goal: Book, x: Book, venueOnly: seq<LiveOrder>, t: LiveOrder)
    requires Recovers(goal, t, venueOnly) && AllRestored(goal, x, venueOnly)
    requires Find(x, SeedKey(t)) == Find(goal, SeedKey(t))
    requires x[Find(goal, SeedKey(t))] == goal[Find(goal, SeedKey(t))]
    ensures AllRestored(goal, Put(x, t), venueOnly)
    ensures Put(x, t) == x[Find(goal, SeedKey(t)) := MergeSeed(goal[Find(goal, SeedKey(t))], t)]
  {
    var h := Find(goal, SeedKey(t));
    var y := x[h := MergeSeed(goal[h], t)];
    MergeTwice(goal[h], t);
    forall k | 0 <= k < |goal| ensures Restored(goal, y, venueOnly, k) {
      assert Restored(goal, x, venueOnly, k);
    }
  }

  lemma {:induction false} VenueAgain(goal: Book, x: Book, venueOnly: seq<LiveOrder>)
    requires VenueRows(venueOnly) && Keyed(venueOnly)
    requires forall v :: v in venueOnly ==> Settled(goal, v)
    requires AllRestored(goal, x, venueOnly)
    ensures PutAll(x, venueOnly) == goal
    decreases |venueOnly|
  {
    hide MergeSeed, Find;
    if venueOnly == [] {
      forall k | 0 <= k < |goal| ensures x[k] == goal[k] {
        assert Restored(goal, x, venueOnly, k);
      }
    } else {
      var t, rest := venueOnly[0], venueOnly[1..];
      var h := Find(goal, SeedKey(t));
      FindSameIds(x, goal, SeedKey(t));
      assert t in venueOnly && venueOnly == [t] + rest;
      MergeTwice(x[h], t);
      assert Restored(goal, x, venueOnly, h);
      forall k | 0 <= k < |goal| ensures Restored(goal, Put(x, t), rest, k) {
        assert Restored(goal, x, venueOnly, k);
      }
      VenueAgain(goal, Put(x, t), rest);
      PutAllConcat(x, [t], rest);
      assert [t][..0] == [] && PutAll(x, [t]) == Put(PutAll(x, []), t);
    }
  }

  lemma PutTwice(book: Book, facade: seq<LiveOrder>, venueOnly: seq<LiveOrder>)
    requires Snapshot(facade, venueOnly) && Keyed(venueOnly)
    ensures PutAll(PutAll(book, facade + venueOnly), facade + venueOnly) == PutAll(book, facade + venueOnly)
  {
    PutAllConcat(book, facade, venueOnly);
    var goal := PutAll(book, facade + venueOnly);
    FacadeSettles(book, facade);
    VenueSettles(PutAll(book, facade), facade, venueOnly);
    FacadeAgain(goal, facade, venueOnly);
    VenueAgain(goal, PutAll(goal, facade), venueOnly);
    PutAllConcat(goal, facade, venueOnly);
  }

  /** A row without any id is inserted at every seeding. */
  lemma {:induction false} KeylessGrows(book: Book, seeds: seq<LiveOrder>, k: nat)
    requires k < |seeds| && SeedKey(seeds[k]) == NoKey
    ensures |PutAll(book, seeds)| > |book|
  {
    var init := seeds[..|seeds| - 1];
    if k < |init| {
      KeylessGrows(book, init, k);
    } else {
      PutAllGrows(book, init);
    }
  }

  lemma PutTwiceIff(book: Book, facade: seq<LiveOrder>, venueOnly: seq<LiveOrder>)
    requires Snapshot(facade, venueOnly)
    ensures PutAll(PutAll(book, facade + venueOnly), facade + venueOnly) == PutAll(book, facade + venueOnly)
            <==> Keyed(venueOnly)
  {
    if Keyed(venueOnly) {
      PutTwice(book, facade, venueOnly);
    } else {
      var k :| 0 <= k < |venueOnly| && venueOnly[k].venue == "";
      KeylessGrows(PutAll(book, facade + venueOnly), facade + venueOnly, |facade| + k);
    }
  }

  /**
   * For a snapshot as `GetOrders` builds it and a book that stays within the cap, seeding twice
   * equals seeding once exactly when every venue row carries a venue id.
   */
  lemma SeedTwiceIff(book: Book, facade: seq<LiveOrder>, venueOnly: seq<LiveOrder>, once: Book)
    requires Snapshot(facade, venueOnly)
    requires |PutAll(PutAll(book, facade + venueOnly), facade + venueOnly)| <= MAX_LIVE_ORDERS
    requires once == Run(book, Seeds(facade + venueOnly))
    ensures Run(once, Seeds(facade + venueOnly)) == once <==> Keyed(venueOnly)
  {
    var snapshot := facade + venueOnly;
    PutAllGrows(PutAll(book, snapshot), snapshot);
    SeedsWithinCap(book, snapshot);
    SeedsWithinCap(once, snapshot);
    PutTwiceIff(book, facade, venueOnly);
  }

  // ── Reconcile ──

  datatype UnknownOrder = UnknownOrder(client: string, symbol: string, status: string)

  function ReportRow(o: LiveOrder): UnknownOrder {
    UnknownOrder(o.client, o.symbol, o.status)
  }

  /** Working on the UI side, and not among the non-empty ids the backend tracks. */
  predicate Orphan(o: LiveOrder, ids: seq<string>) {
    !IsTerminal(o.status) && (o.client == "" || o.client !in ids)
  }

  /** An order that still works, and without an id or with one the list does not have. */
  predicate Unlisted(o: LiveOrder, ids: seq<string>) {
    && o.status !in {"FILLED", "CANCELED", "REJECTED", "EXPIRED", "DENIED"}
    && (o.client == "" || forall id :: id in ids ==> id != o.client)
  }

  lemma OrphanIs(o: LiveOrder, ids: seq<string>)
    ensures Orphan(o, ids) <==> Unlisted(o, ids)
  {
  }

  /** `at` lists exactly the positions of such orders, ascending. */
  ghost predicate OrphanPositions(book: Book, ids: seq<string>, at: seq<nat>) {
    && (forall k :: 0 <= k < |at| ==> at[k] < |book| && Unlisted(book[at[k]], ids))
    && (forall k, l :: 0 <= k < l < |at| ==> at[k] < at[l])
    && (forall i :: 0 <= i < |book| && Unlisted(book[i], ids) ==> i in at)
  }

  function Orphans(book: Book, ids: seq<string>): seq<UnknownOrder> {
    if book == [] then []
    else
      var last := book[|book| - 1];
      Orphans(book[..|book| - 1], ids) + if Orphan(last, ids) then [ReportRow(last)] else []
  }

  /** `at` lists the positions of the orphans, and `rows` are their reports. */
  ghost predicate ReportsAt(book: Book, ids: seq<string>, rows: seq<UnknownOrder>, at: seq<nat>) {
    && OrphanPositions(book, ids, at) && |rows| == |at|
    && forall k :: 0 <= k < |at| ==>
         rows[k] == UnknownOrder(book[at[k]].client, book[at[k]].symbol, book[at[k]].status)
  }

  /** The orphans are reported in book order: one for each of their positions, and for no other. */
  lemma {:induction false} OrphansInBookOrder(book: Book, ids: seq<string>) returns (at: seq<nat>)
    ensures ReportsAt(book, ids, Orphans(book, ids), at)
  {
    if book == [] {
      at := [];
    } else {
      hide Orphan, ReportsAt;
      var n := |book| - 1;
      var before := OrphansInBookOrder(book[..n], ids);
      at := before + if Orphan(book[n], ids) then [n] else [];
      ReportsExtend(book, ids, Orphans(book[..n], ids), before);
    }
  }

  lemma ReportsExtend(book: Book, ids: seq<string>, rows: seq<UnknownOrder>, before: seq<nat>)
    requires book != [] && ReportsAt(book[..|book| - 1], ids, rows, before)
    ensures var n := |book| - 1;
            var (more, last) := (if Orphan(book[n], ids) then [ReportRow(book[n])] else [],
                                 if Orphan(book[n], ids) then [n] else []);
            ReportsAt(book, ids, rows + more, before + last)
  {
    PositionsExtend(book, ids, before);
    hide Orphan, OrphanPositions;
  }

  lemma PositionsExtend(book: Book, ids: seq<string>, before: seq<nat>)
    requires book != [] && OrphanPositions(book[..|book| - 1], ids, before)
    ensures forall k :: 0 <= k < |before| ==> before[k] < |book| - 1
    ensures OrphanPositions(book, ids, before + if Orphan(book[|book| - 1], ids) then [|book| - 1] else [])
  {
    hide Orphan, Unlisted;
    var n := |book| - 1;
    OrphanIs(book[n], ids);
    if Orphan(book[n], ids) {
      assert n in [n];
    }
  }

  method ReconcileUnknownOrders(book: Book, ids: seq<string>) returns (unknown: seq<UnknownOrder>)
    ensures unknown == Orphans(book, ids)
  {
    var backendIds := set id | id in ids && id != "" :: id;
    unknown := [];
    for i := 0 to |book|
      invariant unknown == Orphans(book[..i], ids)
    {
      assert book[..i + 1][..i] == book[..i];
      if !IsTerminal(book[i].status) && book[i].client !in backendIds {
        unknown := unknown + [ReportRow(book[i])];
      }
    }
    assert book[..|book|] == book;
  }

  function ReconcileIdsForSeed(seeded: seq<LiveOrder>, reconcile: bool): (r: Option<seq<string>>)
    ensures r.Some? <==> reconcile
  {
    if reconcile then Some(NonEmptyIds(seeded)) else None
  }

  function NonEmptyIds(rows: seq<LiveOrder>): (ids: seq<string>)
    ensures forall id :: id in ids <==> id != "" && exists o :: o in rows && o.client == id
  {
    if rows == [] then []
    else
      var rest := NonEmptyIds(rows[1..]);
      assert rows == [rows[0]] + rows[1..];
      if rows[0].client != "" then [rows[0].client] + rest else rest
  }

  /** A row no seed matches survives seeding unchanged. */
  lemma {:induction false} UnmatchedRowStays(book: Book, seeds: seq<LiveOrder>, o: LiveOrder)
    requires o in book
    requires forall s :: s in seeds ==> !Matches(o, SeedKey(s))
    ensures o in PutAll(book, seeds)
  {
    hide MergeSeed, SeedKey;
    if seeds != [] {
      var init := seeds[..|seeds| - 1];
      UnmatchedRowStays(book, init, o);
      var b := PutAll(book, init);
      var k :| 0 <= k < |b| && b[k] == o;
      var i := Find(b, SeedKey(seeds[|seeds| - 1]));
      assert if i < |b| then PutAll(book, seeds)[k] == o else PutAll(book, seeds)[k + 1] == o;
    }
  }

  /** Some row of the snapshot would be matched with `o`. */
  ghost predicate Mentioned(snapshot: seq<LiveOrder>, o: LiveOrder) {
    exists s :: s in snapshot && Matches(o, SeedKey(s))
  }

  /**
   * Reconciling right after seeding from the same snapshot: rows of the facade are never flagged,
   * rows without a client id always are while they work, and every working row of the old book
   * that the snapshot does not mention is still there and flagged.
   */
  lemma ReconcileAfterSeed(book: Book, snapshot: seq<LiveOrder>, seeded: Book, ids: seq<string>)
    requires |PutAll(book, snapshot)| <= MAX_LIVE_ORDERS
    requires seeded == Run(book, Seeds(snapshot)) && Some(ids) == ReconcileIdsForSeed(snapshot, true)
    ensures forall o :: Orphan(o, ids) <==>
              && o.status !in {"FILLED", "CANCELED", "REJECTED", "EXPIRED", "DENIED"}
              && (o.client == "" || forall s :: s in snapshot ==> s.client != o.client)
    ensures forall o :: o in book && !Mentioned(snapshot, o) ==> o in seeded
    ensures forall o :: o in book && !Mentioned(snapshot, o) && !IsTerminal(o.status) ==> Orphan(o, ids)
  {
    SeedsWithinCap(book, snapshot);
    forall o | o in book && !Mentioned(snapshot, o) ensures o in seeded {
      UnmatchedRowStays(book, snapshot, o);
    }
    forall o | o in book && !Mentioned(snapshot, o) && o.client != ""
      ensures forall s :: s in snapshot ==> s.client != o.client {
      assert forall s :: s in snapshot && s.client == o.client ==> Matches(o, SeedKey(s));
    }
  }

  // ── The order arms of the status updates ──

  datatype StatusUpdate =
    | OrderSeeded(order: LiveOrder)
    | OrderStatusUpdated(client: string, venue: string, status: string, filledQty: real, avgPrice: real, tsMs: int)
    | OrderModified(client: string, venue: string, newQty: Option<real>, newPrice: Option<real>,
                    status: string, filledQty: real, avgPrice: real, tsMs: int)
    | OrdersSeeded(orders: seq<LiveOrder>)
    | OrdersReconciled(backendIds: seq<string>)

  class OrderPanel {
    const book: OrderBook
    var unknown: seq<UnknownOrder>
    var feedback: Option<string>

    constructor (book: OrderBook)
      ensures this.book == book && unknown == [] && feedback == None
    {
      this.book := book;
      unknown, feedback := [], None;
    }

    method Apply(u: StatusUpdate)
      modifies this, book
      ensures match u
              case OrderSeeded(o) => book.orders == Run(old(book.orders), [Upsert(o)])
              case OrderStatusUpdated(c, v, s, q, p, t) =>
                book.orders == Run(old(book.orders), [Event(c, v, s, q, p, t, "")])
              case OrderModified(c, v, nq, np, s, q, p, t) =>
                book.orders == Run(old(book.orders), [Modify(c, v, nq, np, s, q, p, t)])
              case OrdersSeeded(orders) => book.orders == Run(old(book.orders), Seeds(orders))
              case OrdersReconciled(_) => book.orders == old(book.orders)
      ensures feedback == if u.OrderSeeded? || u.OrderModified? then None else old(feedback)
      ensures unknown == if u.OrdersReconciled? then Orphans(book.orders, u.backendIds) else old(unknown)
    {
      ghost var before := book.orders;
      match u {
        case OrderSeeded(o) =>
          book.UpsertFull(o);
          feedback := None;
          RunOne(before, Upsert(o));
        case OrderStatusUpdated(c, v, s, q, p, t) =>
          book.ApplyEvent(c, v, s, q, p, t, "");
          RunOne(before, Event(c, v, s, q, p, t, ""));
        case OrderModified(c, v, nq, np, s, q, p, t) =>
          book.ApplyModify(c, v, nq, np, s, q, p, t);
          feedback := None;
          RunOne(before, Modify(c, v, nq, np, s, q, p, t));
        case OrdersSeeded(orders) =>
          book.SeedAll(orders);
        case OrdersReconciled(ids) =>
          unknown := ReconcileUnknownOrders(book.orders, ids);
      }
    }
  }

  lemma RunOne(book: Book, m: Message)
    ensures Run(book, [m]) == Deliver(book, m)
  {
    assert [m][..0] == [];
  }
}
