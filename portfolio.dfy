/**
 * The transaction ledger behind the portfolio: BUY and SELL transactions,
 * the per-symbol average-cost book that the active holdings are derived
 * from, the realized profit over a date window, adding and deleting
 * transactions, and the normalisation of rows imported from a spreadsheet.
 */
module Portfolio {
  import opened Basics
  import opened Stock
  import opened Sorting
  import opened Text

  /** The transaction type; a type other than BUY and SELL is carried but ignored. */
  datatype TxKind = Buy | Sell | OtherKind

  /** One ledger entry (its generated id is not modelled). */
  datatype Transaction = Transaction(symbol: string, kind: TxKind, shares: real, price: real, date: Date)

  /** The book kept per symbol while the transactions are replayed. */
  datatype Position = Position(shares: real, totalCost: real, realizedPL: real)

  const Empty := Position(0.0, 0.0, 0.0)

  /** The average cost per share, 0 while no shares are held. */
  function AvgCost(p: Position): real {
    if p.shares > 0.0 then p.totalCost / p.shares else 0.0
  }

  /** What a SELL of `t` realizes against the position `p`: proceeds less cost basis. */
  function SellGain(p: Position, t: Transaction): real {
    t.shares * t.price - t.shares * AvgCost(p)
  }

  /** The effect of one transaction on its symbol's position. */
  function Apply(p: Position, t: Transaction): Position {
    match t.kind
    case Buy => Position(p.shares + t.shares, p.totalCost + t.shares * t.price, p.realizedPL)
    case Sell => Position(p.shares - t.shares, p.totalCost - t.shares * AvgCost(p), p.realizedPL + SellGain(p, t))
    case OtherKind => p
  }

  /** The position of `sym` after replaying `txs` in order from an empty book. */
  function Replay(txs: seq<Transaction>, sym: string): Position {
    if txs == [] then Empty
    else
      var p := Replay(txs[..|txs| - 1], sym);
      var t := txs[|txs| - 1];
      if t.symbol == sym then Apply(p, t) else p
  }

  /** The symbols of `txs`, each once, in order of first appearance. */
  function SymbolsOf(txs: seq<Transaction>): (syms: seq<string>)
    ensures forall i, j :: 0 <= i < j < |syms| ==> syms[i] != syms[j]
  {
    if txs == [] then []
    else
      var syms := SymbolsOf(txs[..|txs| - 1]);
      if txs[|txs| - 1].symbol in syms then syms else syms + [txs[|txs| - 1].symbol]
  }

  /** `stockDataMap[sym]?.price || 0`. */
  function PriceOf(quotes: map<string, StockData>, sym: string): real {
    if sym in quotes then quotes[sym].price else 0.0
  }

  /** The holding shown for `sym`. */
  function HoldingOf(sym: string, txs: seq<Transaction>, quotes: map<string, StockData>): Holding {
    var p := Replay(txs, sym);
    Holding(sym, p.shares, AvgCost(p), PriceOf(quotes, sym))
  }

  /** The holdings of those of `syms` whose position holds shares, in the order of `syms`. */
  function ActiveOf(syms: seq<string>, txs: seq<Transaction>, quotes: map<string, StockData>): seq<Holding> {
    if syms == [] then []
    else
      var sym := syms[|syms| - 1];
      ActiveOf(syms[..|syms| - 1], txs, quotes)
      + (if Replay(txs, sym).shares > 0.0 then [HoldingOf(sym, txs, quotes)] else [])
  }

  /** The active holdings derived from the ledger. */
  function Holdings(txs: seq<Transaction>, quotes: map<string, StockData>): seq<Holding> {
    ActiveOf(SymbolsOf(txs), txs, quotes)
  }

  /** The `holdings` derivation: one pass that updates a per-symbol book, then the filter. */
  method DeriveHoldings(txs: seq<Transaction>, quotes: map<string, StockData>) returns (hs: seq<Holding>)
    ensures hs == Holdings(txs, quotes)
  {
    var book: map<string, Position> := map[];
    var order: seq<string> := [];
    for i := 0 to |txs|
      invariant order == SymbolsOf(txs[..i])
      invariant forall s :: s in book <==> s in order
      invariant forall s :: s in book ==> book[s] == Replay(txs[..i], s)
    {
      assert txs[..i + 1][..i] == txs[..i];
      var t := txs[i];
      if t.symbol !in book {
        ReplayOfUnseen(txs[..i], t.symbol);
        book := book[t.symbol := Empty];
        order := order + [t.symbol];
      }
      book := book[t.symbol := Apply(book[t.symbol], t)];
    }
    assert txs[..|txs|] == txs;

    hs := [];
    for k := 0 to |order|
      invariant hs == ActiveOf(order[..k], txs, quotes)
    {
      assert order[..k + 1][..k] == order[..k];
      var p := book[order[k]];
      if p.shares > 0.0 {
        hs := hs + [Holding(order[k], p.shares, p.totalCost / p.shares, PriceOf(quotes, order[k]))];
      }
    }
    assert order[..|order|] == order;
  }

  /** A symbol without transactions has an empty position. */
  lemma {:induction false} ReplayOfUnseen(txs: seq<Transaction>, sym: string)
    requires sym !in SymbolsOf(txs)
    ensures Replay(txs, sym) == Empty
  {
    if txs != [] {
      ReplayOfUnseen(txs[..|txs| - 1], sym);
    }
  }

  /** Every holding listed comes from one of the symbols. */
  lemma {:induction false} ActiveOfFromSymbols(syms: seq<string>, txs: seq<Transaction>, quotes: map<string, StockData>)
    ensures forall k :: 0 <= k < |ActiveOf(syms, txs, quotes)| ==> ActiveOf(syms, txs, quotes)[k].symbol in syms
  {
    if syms != [] {
      var init, sym := syms[..|syms| - 1], syms[|syms| - 1];
      ActiveOfFromSymbols(init, txs, quotes);
      var a0, a := ActiveOf(init, txs, quotes), ActiveOf(syms, txs, quotes);
      assert syms == init + [sym];
      forall k | 0 <= k < |a| ensures a[k].symbol in syms {
        if k < |a0| {
          assert a[k] == a0[k];
        }
      }
    }
  }

  /** Every symbol whose position holds shares is listed. */
  lemma {:induction false} ActiveOfCovers(syms: seq<string>, txs: seq<Transaction>, quotes: map<string, StockData>, s: string)
    requires s in syms && Replay(txs, s).shares > 0.0
    ensures exists k :: 0 <= k < |ActiveOf(syms, txs, quotes)| && ActiveOf(syms, txs, quotes)[k].symbol == s
  {
    var init, sym := syms[..|syms| - 1], syms[|syms| - 1];
    var a0, a := ActiveOf(init, txs, quotes), ActiveOf(syms, txs, quotes);
    assert syms == init + [sym];
    if s == sym {
      assert a == a0 + [HoldingOf(sym, txs, quotes)];
      assert a[|a0|].symbol == s;
    } else {
      ActiveOfCovers(init, txs, quotes, s);
      var k :| 0 <= k < |a0| && a0[k].symbol == s;
      assert a[k] == a0[k];
    }
  }

  /** Distinct symbols give holdings with distinct symbols. */
  lemma {:induction false} ActiveOfDistinct(syms: seq<string>, txs: seq<Transaction>, quotes: map<string, StockData>)
    requires forall i, j :: 0 <= i < j < |syms| ==> syms[i] != syms[j]
    ensures forall k, j :: 0 <= k < j < |ActiveOf(syms, txs, quotes)| ==>
              ActiveOf(syms, txs, quotes)[k].symbol != ActiveOf(syms, txs, quotes)[j].symbol
  {
    if syms != [] {
      var init, sym := syms[..|syms| - 1], syms[|syms| - 1];
      ActiveOfDistinct(init, txs, quotes);
      ActiveOfFromSymbols(init, txs, quotes);
      var a0, a := ActiveOf(init, txs, quotes), ActiveOf(syms, txs, quotes);
      assert syms == init + [sym];
      assert sym !in init;
      forall k, j | 0 <= k < j < |a| ensures a[k].symbol != a[j].symbol {
        if j < |a0| {
          assert a[k] == a0[k] && a[j] == a0[j];
        } else {
          assert a[k] == a0[k] && a0[k].symbol in init;
          assert a[j].symbol == sym;
        }
      }
    }
  }

  /**
   * The derived holdings are exactly the symbols whose position holds
   * shares, each once, with its shares, its average cost and the quoted
   * price.
   */
  lemma HoldingsAreActivePositions(txs: seq<Transaction>, quotes: map<string, StockData>, sym: string)
    ensures (exists k :: 0 <= k < |Holdings(txs, quotes)| && Holdings(txs, quotes)[k].symbol == sym)
            <==> Replay(txs, sym).shares > 0.0
    ensures forall k :: 0 <= k < |Holdings(txs, quotes)| && Holdings(txs, quotes)[k].symbol == sym ==>
              var p := Replay(txs, sym);
              Holdings(txs, quotes)[k] == Holding(sym, p.shares, p.totalCost / p.shares, PriceOf(quotes, sym))
    ensures forall k, j :: 0 <= k < j < |Holdings(txs, quotes)| ==>
              Holdings(txs, quotes)[k].symbol != Holdings(txs, quotes)[j].symbol
  {
    var syms := SymbolsOf(txs);
    ActiveOfFromSymbols(syms, txs, quotes);
    ActiveOfDistinct(syms, txs, quotes);
    if Replay(txs, sym).shares > 0.0 && sym in syms {
      ActiveOfCovers(syms, txs, quotes, sym);
    }
    var a := Holdings(txs, quotes);
    if sym !in syms {
      ReplayOfUnseen(txs, sym);
    }
    if exists k :: 0 <= k < |a| && a[k].symbol == sym {
      var k :| 0 <= k < |a| && a[k].symbol == sym;
      ActiveOfHoldsShares(syms, txs, quotes, k);
    }
    forall k | 0 <= k < |a| && a[k].symbol == sym
      ensures a[k] == Holding(sym, Replay(txs, sym).shares, Replay(txs, sym).totalCost / Replay(txs, sym).shares,
                              PriceOf(quotes, sym))
    {
      ActiveOfHoldsShares(syms, txs, quotes, k);
    }
  }

  lemma {:induction false} ActiveOfHoldsShares(syms: seq<string>, txs: seq<Transaction>,
                                               quotes: map<string, StockData>, k: nat)
    requires k < |ActiveOf(syms, txs, quotes)|
    ensures Replay(txs, ActiveOf(syms, txs, quotes)[k].symbol).shares > 0.0
    ensures ActiveOf(syms, txs, quotes)[k] == HoldingOf(ActiveOf(syms, txs, quotes)[k].symbol, txs, quotes)
  {
    var init, sym := syms[..|syms| - 1], syms[|syms| - 1];
    var a0 := ActiveOf(init, txs, quotes);
    if k < |a0| {
      ActiveOfHoldsShares(init, txs, quotes, k);
    }
  }

  /** A symbol's position depends on that symbol's transactions only. */
  lemma {:induction false} ReplayOwnTransactions(txs: seq<Transaction>, sym: string)
    ensures Replay(txs, sym) == Replay(OfSymbol(txs, sym), sym)
  {
    if txs != [] {
      var init, t := txs[..|txs| - 1], txs[|txs| - 1];
      ReplayOwnTransactions(init, sym);
      var o := OfSymbol(init, sym);
      assert txs == init + [t];
      if t.symbol == sym {
        var o' := o + [t];
        assert OfSymbol(txs, sym) == o';
        assert o'[..|o'| - 1] == o && o'[|o'| - 1] == t;
      } else {
        assert OfSymbol(txs, sym) == o;
      }
    }
  }

  /** The transactions of `sym`, in ledger order. */
  function OfSymbol(txs: seq<Transaction>, sym: string): (r: seq<Transaction>)
    ensures forall i :: 0 <= i < |r| ==> r[i].symbol == sym
  {
    if txs == [] then []
    else OfSymbol(txs[..|txs| - 1], sym) + (if txs[|txs| - 1].symbol == sym then [txs[|txs| - 1]] else [])
  }

  /**
   * A SELL that leaves shares in the position keeps its average cost: the
   * cost basis removed is exactly the sold shares at the average cost.
   */
  lemma SellKeepsAvgCost(p: Position, t: Transaction)
    requires t.kind == Sell && p.shares > 0.0 && p.shares - t.shares > 0.0
    ensures AvgCost(Apply(p, t)) == AvgCost(p)
  {
    var a := p.totalCost / p.shares;
    assert p.totalCost == a * p.shares;
    var q := Apply(p, t);
    assert q.totalCost == a * p.shares - t.shares * a;
    assert q.totalCost == a * (p.shares - t.shares);
  }

  /** Cash paid for the BUYs of `sym` in `txs`. */
  function Outlay(txs: seq<Transaction>, sym: string): real {
    if txs == [] then 0.0
    else
      var t := txs[|txs| - 1];
      Outlay(txs[..|txs| - 1], sym) + (if t.symbol == sym && t.kind == Buy then t.shares * t.price else 0.0)
  }

  /** Cash received for the SELLs of `sym` in `txs`. */
  function Proceeds(txs: seq<Transaction>, sym: string): real {
    if txs == [] then 0.0
    else
      var t := txs[|txs| - 1];
      Proceeds(txs[..|txs| - 1], sym) + (if t.symbol == sym && t.kind == Sell then t.shares * t.price else 0.0)
  }

  /**
   * Average-cost bookkeeping loses no money: the realized result is what
   * the SELLs brought in, less what the BUYs cost, plus the cost still held.
   */
  lemma {:induction false} RealizedCashIdentity(txs: seq<Transaction>, sym: string)
    ensures Replay(txs, sym).realizedPL == Proceeds(txs, sym) - Outlay(txs, sym) + Replay(txs, sym).totalCost
  {
    if txs != [] {
      var init, t := txs[..|txs| - 1], txs[|txs| - 1];
      RealizedCashIdentity(init, sym);
      var p := Replay(init, sym);
      if t.symbol == sym {
        assert Replay(txs, sym) == Apply(p, t);
        ApplyCashStep(p, t);
      } else {
        assert Replay(txs, sym) == p;
      }
    }
  }

  /** One transaction moves realized profit less held cost by the cash it moves. */
  lemma ApplyCashStep(p: Position, t: Transaction)
    ensures Apply(p, t).realizedPL - Apply(p, t).totalCost
            == p.realizedPL - p.totalCost
               + (if t.kind == Sell then t.shares * t.price else 0.0)
               - (if t.kind == Buy then t.shares * t.price else 0.0)
  {
    var costBasis := t.shares * AvgCost(p);
    var cash := t.shares * t.price;
    assert SellGain(p, t) == cash - costBasis;
  }

  /** A position that is never oversold keeps a non-negative cost, which is 0 once it is flat. */
  predicate Sound(p: Position) {
    p.shares >= 0.0 && p.totalCost >= 0.0 && (p.shares == 0.0 ==> p.totalCost == 0.0)
  }

  lemma ApplyKeepsSound(p: Position, t: Transaction)
    requires Sound(p) && t.shares >= 0.0 && t.price >= 0.0
    requires t.kind == Sell ==> t.shares <= p.shares
    ensures Sound(Apply(p, t))
  {
    if t.kind == Sell && p.shares > 0.0 {
      var a := p.totalCost / p.shares;
      assert a >= 0.0;
      assert p.totalCost == a * p.shares;
      assert p.totalCost - t.shares * a == a * (p.shares - t.shares);
    }
  }

  // ---------------------------------------------------------------------
  // Realized profit over a date window
  // ---------------------------------------------------------------------

  function DateKey(t: Transaction): int { t.date }

  /** Whether `t` is a SELL dated inside the window. */
  predicate SellInWindow(t: Transaction, start: Date, end: Date) {
    t.kind == Sell && start <= t.date <= end
  }

  /** The gains of the SELLs in the window, replaying `txs` in the order given. */
  function RealizedInWindow(txs: seq<Transaction>, start: Date, end: Date): real {
    if txs == [] then 0.0
    else
      var init, t := txs[..|txs| - 1], txs[|txs| - 1];
      RealizedInWindow(init, start, end)
      + (if SellInWindow(t, start, end) then SellGain(Replay(init, t.symbol), t) else 0.0)
  }

  /** `getRealizedPL`: the ledger replayed in date order, counting the SELLs in the window. */
  function RealizedPL(txs: seq<Transaction>, start: Date, end: Date): real {
    RealizedInWindow(SortByKey(txs, DateKey), start, end)
  }

  method GetRealizedPL(txs: seq<Transaction>, start: Date, end: Date) returns (realized: real)
    ensures realized == RealizedPL(txs, start, end)
  {
    var sorted := SortByKey(txs, DateKey);
    realized := 0.0;
    var book: map<string, Position> := map[];
    for i := 0 to |sorted|
      invariant realized == RealizedInWindow(sorted[..i], start, end)
      invariant forall s :: s in book ==> book[s] == Replay(sorted[..i], s)
      invariant forall s :: s !in book ==> Replay(sorted[..i], s) == Empty
    {
      var t := sorted[i];
      assert sorted[..i + 1] == sorted[..i] + [t];
      ReplayStep(sorted[..i], t, start, end);
      if t.symbol !in book {
        book := book[t.symbol := Empty];
      }
      var q, gain := SettleTransaction(book[t.symbol], t, start, end);
      realized := realized + gain;
      book := book[t.symbol := q];
    }
    assert sorted[..|sorted|] == sorted;
  }

  /**
   * One step of the replay: the new position of the transaction's symbol
   * and what it adds to the realized total.
   */
  method SettleTransaction(p: Position, t: Transaction, start: Date, end: Date) returns (q: Position, gain: real)
    ensures q == Apply(p, t)
    ensures gain == if SellInWindow(t, start, end) then SellGain(p, t) else 0.0
  {
    q, gain := p, 0.0;
    match t.kind {
      case Buy =>
        q := Position(p.shares + t.shares, p.totalCost + t.shares * t.price, p.realizedPL);
      case Sell =>
        var avgCost := if p.shares > 0.0 then p.totalCost / p.shares else 0.0;
        var costBasis := t.shares * avgCost;
        var proceed := t.shares * t.price;
        assert avgCost == AvgCost(p) && proceed - costBasis == SellGain(p, t);
        if start <= t.date && t.date <= end {
          gain := proceed - costBasis;
        }
        q := Position(p.shares - t.shares, p.totalCost - costBasis, p.realizedPL + (proceed - costBasis));
      case OtherKind =>
    }
  }

  /** Appending one transaction moves only its own symbol, and realizes its gain if it is a SELL in the window. */
  lemma ReplayStep(txs: seq<Transaction>, t: Transaction, start: Date, end: Date)
    ensures forall s :: Replay(txs + [t], s) == if s == t.symbol then Apply(Replay(txs, s), t) else Replay(txs, s)
    ensures RealizedInWindow(txs + [t], start, end) == RealizedInWindow(txs, start, end)
              + (if SellInWindow(t, start, end) then SellGain(Replay(txs, t.symbol), t) else 0.0)
  {
    assert (txs + [t])[..|txs|] == txs;
  }

  lemma {:induction false} NoSellsNothingRealized(txs: seq<Transaction>, start: Date, end: Date)
    requires forall i :: 0 <= i < |txs| ==> !SellInWindow(txs[i], start, end)
    ensures RealizedInWindow(txs, start, end) == 0.0
  {
    if txs != [] {
      NoSellsNothingRealized(txs[..|txs| - 1], start, end);
    }
  }

  /**
   * Nothing is realized in a window that holds no SELL; in particular in
   * an empty window (start after end).
   */
  lemma RealizedPLWithoutSells(txs: seq<Transaction>, start: Date, end: Date)
    requires (forall i :: 0 <= i < |txs| ==> !SellInWindow(txs[i], start, end)) || start > end
    ensures RealizedPL(txs, start, end) == 0.0
  {
    var sorted := SortByKey(txs, DateKey);
    SortByKeySortsAndPermutes(txs, DateKey);
    forall i | 0 <= i < |sorted| ensures !SellInWindow(sorted[i], start, end) {
      assert sorted[i] in multiset(txs);
    }
    NoSellsNothingRealized(sorted, start, end);
  }

  /**
   * For one symbol's transactions replayed in order, a window that covers
   * every date realizes exactly the ledger's realized result.
   */
  lemma {:induction false} WholeWindowMatchesLedger(txs: seq<Transaction>, sym: string, start: Date, end: Date)
    requires forall i :: 0 <= i < |txs| ==> txs[i].symbol == sym && start <= txs[i].date <= end
    ensures RealizedInWindow(txs, start, end) == Replay(txs, sym).realizedPL
  {
    if txs != [] {
      WholeWindowMatchesLedger(txs[..|txs| - 1], sym, start, end);
    }
  }

  /**
   * When one symbol's transactions were entered in date order, the realized
   * result over a window covering them all is the holdings book's.
   */
  lemma RealizedPLOfDatedLedger(txs: seq<Transaction>, sym: string, start: Date, end: Date)
    requires SortedBy(txs, DateKey)
    requires forall i :: 0 <= i < |txs| ==> txs[i].symbol == sym && start <= txs[i].date <= end
    ensures RealizedPL(txs, start, end) == Replay(txs, sym).realizedPL
  {
    SortByKeyOfSorted(txs, DateKey);
    WholeWindowMatchesLedger(txs, sym, start, end);
  }

  // ---------------------------------------------------------------------
  // Adding and deleting transactions
  // ---------------------------------------------------------------------

  /** The ledger and the quote records kept beside it. */
  datatype Ledger = Ledger(transactions: seq<Transaction>, quotes: map<string, StockData>)

  /**
   * `addTransaction`: `fetched` is what the data service answers for a
   * symbol without a quote record. A BUY of a symbol the service does not
   * know is refused; otherwise the transaction is appended and a fetched
   * record is kept.
   */
  function AddTransaction(l: Ledger, t: Transaction, fetched: Option<StockData>): (r: Option<Ledger>)
    ensures r.None? <==> t.symbol !in l.quotes && fetched.None? && t.kind == Buy
    ensures r.Some? ==> r.value.transactions == l.transactions + [t]
    ensures r.Some? ==> t.symbol in l.quotes ==> r.value.quotes == l.quotes
    ensures r.Some? ==> t.symbol !in l.quotes ==>
              r.value.quotes == if fetched.Some? then l.quotes[t.symbol := fetched.value] else l.quotes
  {
    if t.symbol in l.quotes then Some(Ledger(l.transactions + [t], l.quotes))
    else if fetched.None? && t.kind == Buy then None
    else if fetched.Some? then Some(Ledger(l.transactions + [t], l.quotes[t.symbol := fetched.value]))
    else Some(Ledger(l.transactions + [t], l.quotes))
  }

  /** An accepted transaction moves its own symbol's position by one step and no other. */
  lemma AddTransactionMovesOnePosition(l: Ledger, t: Transaction, fetched: Option<StockData>, sym: string)
    requires AddTransaction(l, t, fetched).Some?
    ensures Replay(AddTransaction(l, t, fetched).value.transactions, sym)
            == if sym == t.symbol then Apply(Replay(l.transactions, sym), t) else Replay(l.transactions, sym)
  {
    var txs := AddTransaction(l, t, fetched).value.transactions;
    assert txs[..|txs| - 1] == l.transactions;
  }

  /** `deleteHolding`: the transactions of every other symbol, in order. */
  function DeleteHolding(txs: seq<Transaction>, sym: string): (r: seq<Transaction>)
    ensures |r| <= |txs|
    ensures forall i :: 0 <= i < |r| ==> r[i].symbol != sym
  {
    if txs == [] then []
    else DeleteHolding(txs[..|txs| - 1], sym) + (if txs[|txs| - 1].symbol != sym then [txs[|txs| - 1]] else [])
  }

  /**
   * Deleting works piecewise: on a concatenation it deletes from each part and
   * keeps the parts in order, so the survivors of all symbols keep their
   * relative order.
   */
  lemma {:induction false} DeleteHoldingAppend(a: seq<Transaction>, b: seq<Transaction>, sym: string)
    ensures DeleteHolding(a + b, sym) == DeleteHolding(a, sym) + DeleteHolding(b, sym)
    decreases |b|
  {
    if b == [] {
      assert a + b == a;
    } else {
      var b0, t := b[..|b| - 1], b[|b| - 1];
      DeleteHoldingAppend(a, b0, sym);
      assert (a + b)[..|a + b| - 1] == a + b0;
      assert b[..|b| - 1] == b0;
    }
  }

  /** On one transaction, deleting keeps it exactly when it is of another symbol. */
  lemma DeleteHoldingSingle(t: Transaction, sym: string)
    ensures DeleteHolding([t], sym) == if t.symbol != sym then [t] else []
  {
    assert [t][..0] == [];
  }

  /** Every other symbol keeps all its transactions, in order. */
  lemma {:induction false} DeleteHoldingKeepsOthers(txs: seq<Transaction>, sym: string, s: string)
    requires s != sym
    ensures OfSymbol(DeleteHolding(txs, sym), s) == OfSymbol(txs, s)
  {
    if txs != [] {
      var init, t := txs[..|txs| - 1], txs[|txs| - 1];
      DeleteHoldingKeepsOthers(init, sym, s);
      var r0 := DeleteHolding(init, sym);
      if t.symbol != sym {
        var r := r0 + [t];
        assert r[..|r| - 1] == r0 && r[|r| - 1] == t;
      } else {
        assert DeleteHolding(txs, sym) == r0;
        assert OfSymbol(txs, s) == OfSymbol(init, s) + [];
      }
    }
  }

  /** Deleting a symbol empties its position and leaves every other position as it was. */
  lemma DeleteHoldingPositions(txs: seq<Transaction>, sym: string, s: string)
    ensures Replay(DeleteHolding(txs, sym), s) == if s == sym then Empty else Replay(txs, s)
  {
    var r := DeleteHolding(txs, sym);
    ReplayOwnTransactions(r, s);
    ReplayOwnTransactions(txs, s);
    if s == sym {
      NoneOfSymbol(r, sym);
    } else {
      DeleteHoldingKeepsOthers(txs, sym, s);
    }
  }

  lemma {:induction false} NoneOfSymbol(txs: seq<Transaction>, sym: string)
    requires forall i :: 0 <= i < |txs| ==> txs[i].symbol != sym
    ensures OfSymbol(txs, sym) == []
  {
    if txs != [] {
      NoneOfSymbol(txs[..|txs| - 1], sym);
    }
  }

  // ---------------------------------------------------------------------
  // Spreadsheet import
  // ---------------------------------------------------------------------

  /**
   * A spreadsheet row: each field may be given under its English or its
   * Chinese column name; `None` is a missing cell. Dates are taken as
   * already parsed.
   */
  datatype Row = Row(
    typeCell: Option<string>, typeCellZh: Option<string>,
    dateCell: Option<Date>, dateCellZh: Option<Date>,
    symbolCell: Option<string>, symbolCellZh: Option<string>,
    sharesCell: Option<real>, sharesCellZh: Option<real>,
    priceCell: Option<real>, priceCellZh: Option<real>)

  /** A text cell that JavaScript treats as true: present and not empty. */
  predicate Truthy(c: Option<string>) {
    c.Some? && c.value != ""
  }

  /** A numeric cell that JavaScript treats as true: present and not zero. */
  predicate TruthyNumber(c: Option<real>) {
    c.Some? && c.value != 0.0
  }

  /** `a || b || ''` on text cells. */
  function FirstText(a: Option<string>, b: Option<string>): string {
    if Truthy(a) then a.value else if Truthy(b) then b.value else ""
  }

  /** `a || b || 0` on numeric cells. */
  function FirstNumber(a: Option<real>, b: Option<real>): real {
    if TruthyNumber(a) then a.value else if TruthyNumber(b) then b.value else 0.0
  }

  /** SELL when the type reads 賣出 or upper-cases to SELL, else BUY. */
  function RowKind(row: Row): (k: TxKind)
    ensures k != OtherKind
  {
    var rowType := FirstText(row.typeCell, row.typeCellZh);
    if rowType == "賣出" || ToUpper(rowType) == "SELL" then Sell else Buy
  }

  /** `String(row.Symbol || row['股票代號'])` as written: a missing cell becomes "undefined". */
  function RowSymbolAsWritten(row: Row): string {
    if Truthy(row.symbolCell) then row.symbolCell.value
    else match row.symbolCellZh
      case None => "undefined"
      case Some(s) => s
  }

  /** The symbol a row names: the first non-empty symbol cell, or none. */
  function RowSymbol(row: Row): (s: string)
    ensures s != "" ==> (Truthy(row.symbolCell) && s == row.symbolCell.value)
                        || (Truthy(row.symbolCellZh) && s == row.symbolCellZh.value)
  {
    FirstText(row.symbolCell, row.symbolCellZh)
  }

  /** The date of a row; `today` replaces a missing date. */
  function RowDate(row: Row, today: Date): Date {
    if row.dateCell.Some? then row.dateCell.value
    else if row.dateCellZh.Some? then row.dateCellZh.value
    else today
  }

  /** The transaction a row stands for, with the corrected symbol. */
  function NormalizeRow(row: Row, today: Date): Transaction {
    Transaction(RowSymbol(row), RowKind(row), FirstNumber(row.sharesCell, row.sharesCellZh),
                FirstNumber(row.priceCell, row.priceCellZh), RowDate(row, today))
  }

  /** The transaction a row stands for as written, with `String(a || b)` as its symbol. */
  function NormalizeRowAsWritten(row: Row, today: Date): Transaction {
    Transaction(RowSymbolAsWritten(row), RowKind(row), FirstNumber(row.sharesCell, row.sharesCellZh),
                FirstNumber(row.priceCell, row.priceCellZh), RowDate(row, today))
  }

  /** The import filter: a symbol, a positive number of shares and a positive price. */
  predicate Importable(t: Transaction) {
    t.symbol != "" && t.shares > 0.0 && t.price > 0.0
  }

  /** The transactions an import produces, in row order. */
  function ImportRows(rows: seq<Row>, today: Date): (r: seq<Transaction>)
    ensures |r| <= |rows|
    ensures forall i :: 0 <= i < |r| ==> Importable(r[i]) && r[i].kind != OtherKind
  {
    if rows == [] then []
    else
      var t := NormalizeRow(rows[|rows| - 1], today);
      ImportRows(rows[..|rows| - 1], today) + (if Importable(t) then [t] else [])
  }

  /** The import as written, where a row without symbol cells gets the symbol "undefined". */
  function ImportRowsAsWritten(rows: seq<Row>, today: Date): (r: seq<Transaction>)
    ensures |r| <= |rows|
    ensures forall i :: 0 <= i < |r| ==> Importable(r[i]) && r[i].kind != OtherKind
  {
    if rows == [] then []
    else
      var t := NormalizeRowAsWritten(rows[|rows| - 1], today);
      ImportRowsAsWritten(rows[..|rows| - 1], today) + (if Importable(t) then [t] else [])
  }

  /** A row that names its symbol in some cell imports the same way as written and corrected. */
  predicate NamesSymbolCell(row: Row) {
    Truthy(row.symbolCell) || row.symbolCellZh.Some?
  }

  /** The two imports differ only on rows with neither symbol cell. */
  lemma {:induction false} ImportsAgreeOnNamedRows(rows: seq<Row>, today: Date)
    requires forall i :: 0 <= i < |rows| ==> NamesSymbolCell(rows[i])
    ensures ImportRowsAsWritten(rows, today) == ImportRows(rows, today)
  {
    if rows != [] {
      ImportsAgreeOnNamedRows(rows[..|rows| - 1], today);
      var row := rows[|rows| - 1];
      assert NamesSymbolCell(row);
      assert RowSymbolAsWritten(row) == RowSymbol(row);
    }
  }

  /**
   * As written, a row with neither symbol cell, 10 shares and price 50 is
   * imported as a transaction for "undefined"; the corrected import drops it.
   */
  lemma UndefinedRowIsImported(today: Date)
    ensures var row := Row(None, None, None, None, None, None, Some(10.0), None, Some(50.0), None);
            && ImportRowsAsWritten([row], today) == [Transaction("undefined", Buy, 10.0, 50.0, today)]
            && ImportRows([row], today) == []
  {
    var row := Row(None, None, None, None, None, None, Some(10.0), None, Some(50.0), None);
    assert [row][..0] == [];
    assert FirstText(row.typeCell, row.typeCellZh) == "";
    assert ToUpper("") == "";
  }

  /**
   * The import maps then filters row by row: on concatenated rows it imports
   * each part and keeps the parts in order, so row order and count survive.
   */
  lemma {:induction false} ImportRowsAppend(a: seq<Row>, b: seq<Row>, today: Date)
    ensures ImportRows(a + b, today) == ImportRows(a, today) + ImportRows(b, today)
    decreases |b|
  {
    if b == [] {
      assert a + b == a;
    } else {
      ImportRowsAppend(a, b[..|b| - 1], today);
      assert (a + b)[..|a + b| - 1] == a + b[..|b| - 1];
    }
  }

  /** One row imports as its normalisation when that passes the filter, else as nothing. */
  lemma ImportRowsSingle(row: Row, today: Date)
    ensures ImportRows([row], today) == if Importable(NormalizeRow(row, today)) then [NormalizeRow(row, today)] else []
  {
    assert [row][..0] == [];
  }

  /** The import as written also keeps row order and count. */
  lemma {:induction false} ImportRowsAsWrittenAppend(a: seq<Row>, b: seq<Row>, today: Date)
    ensures ImportRowsAsWritten(a + b, today) == ImportRowsAsWritten(a, today) + ImportRowsAsWritten(b, today)
    decreases |b|
  {
    if b == [] {
      assert a + b == a;
    } else {
      ImportRowsAsWrittenAppend(a, b[..|b| - 1], today);
      assert (a + b)[..|a + b| - 1] == a + b[..|b| - 1];
    }
  }

  lemma ImportRowsAsWrittenSingle(row: Row, today: Date)
    ensures ImportRowsAsWritten([row], today)
            == if Importable(NormalizeRowAsWritten(row, today)) then [NormalizeRowAsWritten(row, today)] else []
  {
    assert [row][..0] == [];
  }

  /** Exactly the importable rows are imported. */
  lemma {:induction false} ImportRowsKeepsImportable(rows: seq<Row>, today: Date, t: Transaction)
    ensures t in ImportRows(rows, today) <==>
            Importable(t) && exists i :: 0 <= i < |rows| && NormalizeRow(rows[i], today) == t
  {
    if rows != [] {
      var init := rows[..|rows| - 1];
      ImportRowsKeepsImportable(init, today, t);
      if exists i :: 0 <= i < |rows| && NormalizeRow(rows[i], today) == t {
        var i :| 0 <= i < |rows| && NormalizeRow(rows[i], today) == t;
        if i < |init| {
          assert init[i] == rows[i];
        }
      }
      if exists i :: 0 <= i < |init| && NormalizeRow(init[i], today) == t {
        var i :| 0 <= i < |init| && NormalizeRow(init[i], today) == t;
        assert rows[i] == init[i];
      }
    }
  }

  /** The type column accepts 賣出 and any spelling of SELL; anything else is a BUY. */
  lemma RowKindExamples(row: Row)
    requires row.typeCell == Some("sell") || row.typeCell == Some("Sell")
             || (row.typeCell == Some("") && row.typeCellZh == Some("賣出"))
    ensures RowKind(row) == Sell
  {
    if row.typeCell == Some("sell") || row.typeCell == Some("Sell") {
      assert ToUpper(row.typeCell.value) == "SELL";
    }
  }

  lemma RowKindBuyExamples(row: Row)
    requires row.typeCell == Some("買入") || (row.typeCell.None? && row.typeCellZh.None?)
    ensures RowKind(row) == Buy
  {
    var rowType := FirstText(row.typeCell, row.typeCellZh);
    assert |ToUpper(rowType)| == |rowType|;
    if row.typeCell == Some("買入") {
      assert rowType == "買入";
      assert ToUpper(rowType)[0] == UpperChar('買');
    }
  }

  /**
   * As written, a row with neither symbol cell becomes a transaction for
   * the symbol "undefined", which the filter keeps.
   */
  lemma MissingSymbolBecomesUndefined(row: Row)
    requires row.symbolCell.None? && row.symbolCellZh.None?
    ensures RowSymbolAsWritten(row) == "undefined" && RowSymbolAsWritten(row) != ""
    ensures RowSymbol(row) == ""
    ensures !Importable(NormalizeRow(row, 0))
  {
  }

  /** Every imported transaction's symbol was written in a symbol cell of its row. */
  lemma ImportedSymbolsComeFromCells(rows: seq<Row>, today: Date, k: nat)
    requires k < |ImportRows(rows, today)|
    ensures exists i :: 0 <= i < |rows| && NormalizeRow(rows[i], today) == ImportRows(rows, today)[k]
              && (Truthy(rows[i].symbolCell) || Truthy(rows[i].symbolCellZh))
  {
    var t := ImportRows(rows, today)[k];
    ImportRowsKeepsImportable(rows, today, t);
    var i :| 0 <= i < |rows| && NormalizeRow(rows[i], today) == t;
    assert RowSymbol(rows[i]) != "";
  }
}
