/**
 * The option chain: a table of instrument snapshots keyed by instrument name, updated in
 * place by the feed, copied out as a snapshot and summarised by a statistics fold. The
 * read/write lock is left out (single owner) and the clock is a parameter `now`, in
 * milliseconds since the epoch.
 */
module ArbChain {
  import opened Wrappers
  import opened ArbModel
  import opened Numbers

  /** Quotes at most this old count as fresh in the statistics (10 seconds). */
  const FRESH_HORIZON_MS: int := 10_000

  type Table = map<string, InstrumentSnapshot>

  /** Every entry is stored under its own instrument's name. */
  ghost predicate Keyed(m: Table) {
    forall k :: k in m ==> m[k].instrument.instrumentName == k
  }

  /** The snapshot a newly seen instrument starts with: no levels, index 0, no book. */
  function NewSnapshot(instrument: Instrument, now: int): (s: InstrumentSnapshot)
    ensures s.instrument == instrument && s.orderBook == None
    ensures s.quote.bestBid == None && s.quote.bestAsk == None
    ensures s.quote.markIv == None && s.quote.bidIv == None && s.quote.askIv == None
    ensures s.quote.interestRate == None
    ensures s.quote.timestamp == now && s.quote.indexPrice == 0.0
  {
    InstrumentSnapshot(instrument, Quote(None, None, None, None, None, None, now, 0.0), None)
  }

  /** `upsert_instrument` on the table. */
  function Upsert(m: Table, instrument: Instrument, now: int): (r: Table)
    ensures r.Keys == m.Keys + {instrument.instrumentName}
    ensures forall k :: k in m && k != instrument.instrumentName ==> r[k] == m[k]
    ensures instrument.instrumentName in m ==>
      r[instrument.instrumentName] == m[instrument.instrumentName].(instrument := instrument)
    ensures instrument.instrumentName !in m ==>
      r[instrument.instrumentName] == NewSnapshot(instrument, now)
  {
    var name := instrument.instrumentName;
    if name in m then m[name := m[name].(instrument := instrument)]
    else m[name := NewSnapshot(instrument, now)]
  }

  /** `update_quote` on the table: only a known entry's quote changes. */
  function SetQuote(m: Table, name: string, quote: Quote): (r: Table)
    ensures r.Keys == m.Keys
    ensures forall k :: k in m && k != name ==> r[k] == m[k]
    ensures name in m ==> r[name] == m[name].(quote := quote)
    ensures name !in m ==> r == m
  {
    if name in m then m[name := m[name].(quote := quote)] else m
  }

  /** `update_order_book` on the table: only a known entry gets the book. */
  function SetOrderBook(m: Table, name: string, book: OrderBook): (r: Table)
    ensures r.Keys == m.Keys
    ensures forall k :: k in m && k != name ==> r[k] == m[k]
    ensures name in m ==> r[name] == m[name].(orderBook := Some(book))
    ensures name !in m ==> r == m
  {
    if name in m then m[name := m[name].(orderBook := Some(book))] else m
  }

  /** The three updates keep every entry under its own name. */
  lemma UpdatesKeepKeyed(m: Table, instrument: Instrument, now: int, name: string, quote: Quote, book: OrderBook)
    requires Keyed(m)
    ensures Keyed(Upsert(m, instrument, now))
    ensures Keyed(SetQuote(m, name, quote))
    ensures Keyed(SetOrderBook(m, name, book))
  {
  }

  /** Upserting the same instrument twice is the same as upserting it once. */
  lemma UpsertIdempotent(m: Table, instrument: Instrument, now: int, later: int)
    ensures Upsert(Upsert(m, instrument, now), instrument, later) == Upsert(m, instrument, now)
  {
  }

  /** An upsert keeps the quote and book the feed already delivered for a known name. */
  lemma UpsertKeepsMarketData(m: Table, instrument: Instrument, now: int)
    requires instrument.instrumentName in m
    ensures var s := Upsert(m, instrument, now)[instrument.instrumentName];
      s.quote == m[instrument.instrumentName].quote
      && s.orderBook == m[instrument.instrumentName].orderBook
  {
  }

  // ---------------------------------------------------------------- statistics

  datatype ChainStats = ChainStats(
    instrumentCount: nat,
    instrumentsWithQuotes: nat,
    instrumentsFresh10s: nat,
    bidLevels: nat,
    askLevels: nat)

  predicate HasQuote(s: InstrumentSnapshot) {
    s.quote.bestBid.Some? || s.quote.bestAsk.Some?
  }

  predicate HasBid(s: InstrumentSnapshot) {
    s.quote.bestBid.Some?
  }

  predicate HasAsk(s: InstrumentSnapshot) {
    s.quote.bestAsk.Some?
  }

  predicate IsFresh(s: InstrumentSnapshot, now: int) {
    now - s.quote.timestamp <= FRESH_HORIZON_MS
  }

  /** How many entries of the table satisfy `p`. */
  function CountWhere(m: Table, p: InstrumentSnapshot -> bool): nat {
    |set k | k in m && p(m[k])|
  }

  lemma CountMonotone(m: Table, p: InstrumentSnapshot -> bool, q: InstrumentSnapshot -> bool)
    requires forall s :: p(s) ==> q(s)
    ensures CountWhere(m, p) <= CountWhere(m, q) <= |m|
  {
    var a := set k | k in m && p(m[k]);
    var b := set k | k in m && q(m[k]);
    assert a <= b;
    SubsetCard(a, b);
    SubsetCard(b, m.Keys);
  }

  /** `OptionChain::stats`: the counts the fold over the stored snapshots produces. */
  function StatsOf(m: Table, now: int): (st: ChainStats)
    ensures st.instrumentCount == |m|
    ensures st.bidLevels <= st.instrumentsWithQuotes <= st.instrumentCount
    ensures st.askLevels <= st.instrumentsWithQuotes
    ensures st.instrumentsFresh10s <= st.instrumentCount
  {
    var withQuotes := CountWhere(m, HasQuote);
    var freshCount := CountWhere(m, (s: InstrumentSnapshot) => IsFresh(s, now));
    var bids := CountWhere(m, HasBid);
    var asks := CountWhere(m, HasAsk);
    CountMonotone(m, HasBid, HasQuote);
    CountMonotone(m, HasAsk, HasQuote);
    CountMonotone(m, (s: InstrumentSnapshot) => IsFresh(s, now), (s: InstrumentSnapshot) => true);
    ChainStats(|m|, withQuotes, freshCount, bids, asks)
  }

  lemma CountInsert(m: Table, name: string, s: InstrumentSnapshot, p: InstrumentSnapshot -> bool)
    requires name !in m && !p(s)
    ensures CountWhere(m[name := s], p) == CountWhere(m, p)
  {
    var r := m[name := s];
    assert (set k | k in r && p(r[k])) == (set k | k in m && p(m[k]));
  }

  /** Inserting a new instrument adds one entry, with no levels, to the statistics. */
  lemma UpsertNewCounts(m: Table, instrument: Instrument, now: int)
    requires instrument.instrumentName !in m
    ensures var st := StatsOf(Upsert(m, instrument, now), now);
      st.instrumentCount == |m| + 1
      && st.instrumentsWithQuotes == StatsOf(m, now).instrumentsWithQuotes
      && st.bidLevels == StatsOf(m, now).bidLevels
      && st.askLevels == StatsOf(m, now).askLevels
  {
    var s := NewSnapshot(instrument, now);
    var name := instrument.instrumentName;
    assert Upsert(m, instrument, now) == m[name := s];
    CountInsert(m, name, s, HasQuote);
    CountInsert(m, name, s, HasBid);
    CountInsert(m, name, s, HasAsk);
  }

  // ---------------------------------------------------------------- the shared table

  class OptionChain {
    var entries: Table

    ghost predicate Valid()
      reads this
    {
      Keyed(entries)
    }

    constructor ()
      ensures Valid() && entries == map[]
    {
      entries := map[];
    }

    method UpsertInstrument(instrument: Instrument, now: int)
      requires Valid()
      modifies this
      ensures Valid() && entries == Upsert(old(entries), instrument, now)
    {
      var name := instrument.instrumentName;
      if name in entries {
        entries := entries[name := entries[name].(instrument := instrument)];
      } else {
        entries := entries[name := NewSnapshot(instrument, now)];
      }
    }

    method UpdateQuote(name: string, quote: Quote)
      requires Valid()
      modifies this
      ensures Valid() && entries == SetQuote(old(entries), name, quote)
    {
      if name in entries {
        entries := entries[name := entries[name].(quote := quote)];
      }
    }

    method UpdateOrderBook(name: string, book: OrderBook)
      requires Valid()
      modifies this
      ensures Valid() && entries == SetOrderBook(old(entries), name, book)
    {
      if name in entries {
        entries := entries[name := entries[name].(orderBook := Some(book))];
      }
    }

    /**
     * `OptionChain::snapshot`: every stored entry exactly once, in the table's
     * (unspecified) iteration order, stamped with `now`.
     */
    method Snapshot(now: int) returns (snap: ChainSnapshot)
      requires Valid()
      ensures snap.timestamp == now
      ensures |snap.instruments| == |entries|
      ensures forall i :: 0 <= i < |snap.instruments| ==>
        snap.instruments[i].instrument.instrumentName in entries
        && entries[snap.instruments[i].instrument.instrumentName] == snap.instruments[i]
      ensures forall i, j :: 0 <= i < j < |snap.instruments| ==>
        snap.instruments[i].instrument.instrumentName != snap.instruments[j].instrument.instrumentName
      ensures forall k :: k in entries ==> entries[k] in snap.instruments
    {
      var remaining := entries.Keys;
      var out: seq<InstrumentSnapshot> := [];
      while remaining != {}
        invariant remaining <= entries.Keys
        invariant |out| + |remaining| == |entries|
        invariant forall i :: 0 <= i < |out| ==>
          out[i].instrument.instrumentName in entries
          && out[i].instrument.instrumentName !in remaining
          && entries[out[i].instrument.instrumentName] == out[i]
        invariant forall i, j :: 0 <= i < j < |out| ==>
          out[i].instrument.instrumentName != out[j].instrument.instrumentName
        invariant forall k :: k in entries && k !in remaining ==> entries[k] in out
        decreases |remaining|
      {
        var k :| k in remaining;
        out := out + [entries[k]];
        remaining := remaining - {k};
      }
      snap := ChainSnapshot(now, out);
    }

    /** `OptionChain::stats` at time `now`. */
    function Stats(now: int): (st: ChainStats)
      reads this
      ensures st == StatsOf(entries, now)
      ensures st.instrumentCount == |entries|
    {
      StatsOf(entries, now)
    }
  }
}
