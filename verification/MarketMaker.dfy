/**
 The market-making strategy (strategy/market_maker_strategy.hpp). The top of the book is an
 argument, and so is the answer to "have 50 ms passed since the last quote?".
 */
module MarketMakers {
  import opened Events
  import opened EventQueues

  datatype Top = Top(bidPrice: real, bidQty: real, askPrice: real, askQty: real)

  /** The best level of each side. Left out are quantities that are each other's negative but not
      zero, where the imbalance of the source is infinite. */
  type TopOfBook = t: Top | t.bidQty + t.askQty != 0.0 || t.bidQty == 0.0 witness Top(0.0, 1.0, 0.0, 1.0)

  /** Is there an imbalance? With no quantity on either side it is 0/0, which no comparison with
      the last quotes tells apart from them, so nothing is quoted. */
  predicate Quotable(top: TopOfBook) {
    top.bidQty + top.askQty != 0.0
  }

  datatype MarketMaker = MarketMaker(position: real, lastBid: real, lastAsk: real, active: seq<nat>, nextId: nat)

  const FIRST_ID: nat := 1_000_000
  const STRATEGY: nat := 1
  const MAX_POSITION := 10.0
  const ALPHA := 0.01
  const TARGET_SPREAD := 2.0
  const LOT := 0.1

  const NEW_MAKER := MarketMaker(0.0, 0.0, 0.0, [], FIRST_ID)

  /** Both targets are shifted by the imbalance (with weight 1) and against the position. */
  function Shift(position: real, top: TopOfBook): real
    requires Quotable(top)
  {
    (top.bidQty - top.askQty) / (top.bidQty + top.askQty) - position * ALPHA
  }

  function Mid(top: TopOfBook): real {
    (top.bidPrice + top.askPrice) / 2.0
  }

  function Ceil(x: real): int {
    -((-x).Floor)
  }

  function QuoteDown(target: real, best: real): int {
    Min(target, best).Floor
  }

  function QuoteUp(target: real, best: real): int {
    Ceil(Max(target, best))
  }

  /** The quotes, on a tick of 1. */
  function BidQuote(position: real, top: TopOfBook): int
    requires Quotable(top)
  {
    QuoteDown(Mid(top) - TARGET_SPREAD / 2.0 + Shift(position, top), top.bidPrice)
  }

  function AskQuote(position: real, top: TopOfBook): int
    requires Quotable(top)
  {
    QuoteUp(Mid(top) + TARGET_SPREAD / 2.0 + Shift(position, top), top.askPrice)
  }

  function QuoteOrder(id: nat, side: Side, price: real): Order {
    Order(id, STRATEGY, side, Limit, price, LOT)
  }

  function Cancels(ids: seq<nat>): seq<Event> {
    if ids == [] then [] else Cancels(ids[..|ids| - 1]) + [CancelOrder(ids[|ids| - 1])]
  }

  predicate Requotes(m: MarketMaker, bid: real, ask: real) {
    Abs(bid - m.lastBid) > 0.01 || Abs(ask - m.lastAsk) > 0.01
  }

  /** `submit_order` */
  function Submitted(m: MarketMaker, side: Side, price: real): (MarketMaker, Event) {
    (m.(active := m.active + [m.nextId], nextId := m.nextId + 1), OrderRequest(QuoteOrder(m.nextId, side, price)))
  }

  function SubmitIf(allowed: bool, m: MarketMaker, side: Side, price: real): (MarketMaker, seq<Event>) {
    if allowed then var (m', e) := Submitted(m, side, price); (m', [e]) else (m, [])
  }

  /** Cancel everything active, then quote the sides the position allows. */
  function Requoted(m: MarketMaker, bid: real, ask: real): (MarketMaker, seq<Event>) {
    var (m1, e1) := SubmitIf(m.position < MAX_POSITION, m.(active := []), Buy, bid);
    var (m2, e2) := SubmitIf(m.position > -MAX_POSITION, m1, Sell, ask);
    (m2.(lastBid := bid, lastAsk := ask), Cancels(m.active) + e1 + e2)
  }

  /** `on_market_data`: the new state and the events sent, in order. */
  function OnBook(m: MarketMaker, top: Option<TopOfBook>, elapsed: bool): (MarketMaker, seq<Event>) {
    if top.None? || !elapsed || !Quotable(top.value) then (m, [])
    else
      var bid := BidQuote(m.position, top.value) as real;
      var ask := AskQuote(m.position, top.value) as real;
      if Requotes(m, bid, ask) then Requoted(m, bid, ask) else (m, [])
  }

  class MarketMakerStrategy {
    const queue: EventQueue
    var position: real
    var lastBid: real
    var lastAsk: real
    var active: seq<nat>
    var nextId: nat

    ghost function View(): MarketMaker
      reads this
    {
      MarketMaker(position, lastBid, lastAsk, active, nextId)
    }

    constructor (queue: EventQueue)
      ensures View() == NEW_MAKER && this.queue == queue
    {
      this.queue := queue;
      position, lastBid, lastAsk, active, nextId := 0.0, 0.0, 0.0, [], FIRST_ID;
    }

    method OnMarketData(top: Option<TopOfBook>, elapsed: bool)
      modifies this, queue
      ensures View() == OnBook(old(View()), top, elapsed).0
      ensures queue.View() == AfterPushes(old(queue.View()), OnBook(old(View()), top, elapsed).1)
    {
      if top.None? || !elapsed {
        return;
      }
      if top.value.bidQty + top.value.askQty == 0.0 {
        return;
      }
      var imbalance := (top.value.bidQty - top.value.askQty) / (top.value.bidQty + top.value.askQty);
      var mid := (top.value.bidPrice + top.value.askPrice) / 2.0;
      var shift := imbalance - position * ALPHA;
      var bid := QuoteDown(mid - TARGET_SPREAD / 2.0 + shift, top.value.bidPrice) as real;
      var ask := QuoteUp(mid + TARGET_SPREAD / 2.0 + shift, top.value.askPrice) as real;
      assert bid == BidQuote(position, top.value) as real && ask == AskQuote(position, top.value) as real;
      hide BidQuote, AskQuote, Requoted;
      if Abs(bid - lastBid) > 0.01 || Abs(ask - lastAsk) > 0.01 {
        Requote(bid, ask);
      }
    }

    method Requote(bid: real, ask: real)
      modifies this, queue
      ensures View() == Requoted(old(View()), bid, ask).0
      ensures queue.View() == AfterPushes(old(queue.View()), Requoted(old(View()), bid, ask).1)
    {
      ghost var q, cancels := queue.View(), Cancels(active);
      CancelAll();
      ghost var e1 := SubmitIf(position < MAX_POSITION, View(), Buy, bid).1;
      if position < MAX_POSITION {
        SubmitOrder(Buy, bid);
      }
      PushesSnoc(q, cancels, e1);
      ghost var e2 := SubmitIf(position > -MAX_POSITION, View(), Sell, ask).1;
      if position > -MAX_POSITION {
        SubmitOrder(Sell, ask);
      }
      PushesSnoc(q, cancels + e1, e2);
      lastBid, lastAsk := bid, ask;
    }

    method SubmitOrder(side: Side, price: real)
      modifies `active, `nextId, queue
      ensures View() == Submitted(old(View()), side, price).0
      ensures queue.View() == AfterPush(old(queue.View()), Submitted(old(View()), side, price).1)
    {
      var id := nextId;
      nextId := nextId + 1;
      active := active + [id];
      var _ := queue.Push(OrderRequest(QuoteOrder(id, side, price)));
    }

    method CancelAll()
      modifies `active, queue
      ensures View() == old(View()).(active := [])
      ensures queue.View() == AfterPushes(old(queue.View()), Cancels(old(active)))
    {
      var i := 0;
      while i < |active|
        invariant i <= |active| && active == old(active)
        invariant View() == old(View())
        invariant queue.View() == AfterPushes(old(queue.View()), Cancels(active[..i]))
      {
        assert active[..i + 1][..i] == active[..i];
        var _ := queue.Push(CancelOrder(active[i]));
        i := i + 1;
      }
      assert active[..i] == active;
      active := [];
    }

    method UpdatePosition(p: real)
      modifies `position
      ensures View() == old(View()).(position := p)
    {
      position := p;
    }
  }

  lemma PushesSnoc(q: Queue, es: seq<Event>, more: seq<Event>)
    requires |more| <= 1
    ensures AfterPushes(q, es + more) ==
            if more == [] then AfterPushes(q, es) else AfterPush(AfterPushes(q, es), more[0])
  {
    if more == [] {
      assert es + more == es;
    } else {
      assert (es + more)[..|es|] == es;
    }
  }

  // Quotes

  lemma QuotePair(low: real, high: real, bestBid: real, bestAsk: real)
    requires high - low >= 2.0
    ensures QuoteUp(high, bestAsk) - QuoteDown(low, bestBid) >= 2
    ensures QuoteDown(low, bestBid) as real <= bestBid && QuoteUp(high, bestAsk) as real >= bestAsk
  {
    assert (QuoteUp(high, bestAsk) - QuoteDown(low, bestBid)) as real >= 2.0;
  }

  /** Over any book, even a crossed one, and at any position: the quotes are at least 2 apart
      and never inside the book's own best prices. */
  lemma QuotesDoNotCross(position: real, top: TopOfBook)
    requires Quotable(top)
    ensures AskQuote(position, top) - BidQuote(position, top) >= 2
    ensures BidQuote(position, top) as real <= top.bidPrice
    ensures AskQuote(position, top) as real >= top.askPrice
  {
    hide Shift, Mid, QuoteDown, QuoteUp;
    var shift, mid := Shift(position, top), Mid(top);
    QuotePair(mid - TARGET_SPREAD / 2.0 + shift, mid + TARGET_SPREAD / 2.0 + shift, top.bidPrice, top.askPrice);
  }

  // Bookkeeping over whole runs

  datatype Turn = Turn(top: Option<TopOfBook>, elapsed: bool, position: real)

  /** A run of the strategy: the final state and everything it sent. */
  function Run(turns: seq<Turn>): (MarketMaker, seq<Event>) {
    if turns == [] then (NEW_MAKER, [])
    else
      var (m, es) := Run(turns[..|turns| - 1]);
      var t := turns[|turns| - 1];
      var (m', more) := OnBook(m.(position := t.position), t.top, t.elapsed);
      (m', es + more)
  }

  function CancelledIds(es: seq<Event>): seq<nat> {
    if es == [] then []
    else CancelledIds(es[..|es| - 1]) + if es[|es| - 1].CancelOrder? then [es[|es| - 1].id] else []
  }

  function RequestedIds(es: seq<Event>): seq<nat> {
    if es == [] then []
    else RequestedIds(es[..|es| - 1]) + if es[|es| - 1].OrderRequest? then [es[|es| - 1].order.id] else []
  }

  function IdRange(first: nat, next: nat): seq<nat>
    requires first <= next
  {
    seq(next - first, i requires 0 <= i => first + i)
  }

  lemma {:induction false} IdsAppend(a: seq<Event>, b: seq<Event>)
    ensures CancelledIds(a + b) == CancelledIds(a) + CancelledIds(b)
    ensures RequestedIds(a + b) == RequestedIds(a) + RequestedIds(b)
  {
    if b == [] {
      assert a + b == a;
    } else {
      assert (a + b)[..|a + b| - 1] == a + b[..|b| - 1];
      IdsAppend(a, b[..|b| - 1]);
    }
  }

  lemma {:induction false} IdsOfCancels(ids: seq<nat>)
    ensures CancelledIds(Cancels(ids)) == ids && RequestedIds(Cancels(ids)) == []
  {
    if ids != [] {
      var n := |ids| - 1;
      IdsOfCancels(ids[..n]);
      assert Cancels(ids)[..|Cancels(ids)| - 1] == Cancels(ids[..n]);
      assert ids == ids[..n] + [ids[n]];
    }
  }

  lemma RangeLength(first: nat, next: nat)
    requires first <= next
    ensures |IdRange(first, next)| == next - first
  {
  }

  lemma RangeExtends(first: nat, mid: nat, next: nat)
    requires first <= mid <= next
    ensures IdRange(first, mid) + IdRange(mid, next) == IdRange(first, next)
  {
  }

  lemma IdsOfSubmitIf(allowed: bool, m: MarketMaker, side: Side, price: real)
    ensures var (m', es) := SubmitIf(allowed, m, side, price);
            CancelledIds(es) == [] && m'.active == m.active + RequestedIds(es) &&
            m.nextId <= m'.nextId <= m.nextId + 1 && RequestedIds(es) == IdRange(m.nextId, m'.nextId)
  {
    var es := SubmitIf(allowed, m, side, price).1;
    if allowed {
      assert es[..0] == [];
    }
  }

  lemma IdsOfRequote(m: MarketMaker, bid: real, ask: real)
    ensures var (m', es) := Requoted(m, bid, ask);
            m.nextId <= m'.nextId <= m.nextId + 2 && RequestedIds(es) == IdRange(m.nextId, m'.nextId) &&
            CancelledIds(es) == m.active && m'.active == RequestedIds(es)
  {
    hide SubmitIf, IdRange, Cancels, CancelledIds, RequestedIds;
    var m0 := m.(active := []);
    var (m1, e1) := SubmitIf(m.position < MAX_POSITION, m0, Buy, bid);
    var (m2, e2) := SubmitIf(m.position > -MAX_POSITION, m1, Sell, ask);
    IdsOfCancels(m.active);
    IdsOfSubmitIf(m.position < MAX_POSITION, m0, Buy, bid);
    IdsOfSubmitIf(m.position > -MAX_POSITION, m1, Sell, ask);
    IdsAppend(Cancels(m.active), e1);
    IdsAppend(Cancels(m.active) + e1, e2);
    RangeExtends(m.nextId, m1.nextId, m2.nextId);
  }

  /** What one call sends: a cancel for each active id, then a request for each new one. */
  lemma IdsOfTurn(m: MarketMaker, top: Option<TopOfBook>, elapsed: bool)
    ensures var (m', es) := OnBook(m, top, elapsed);
            m.nextId <= m'.nextId <= m.nextId + 2 && RequestedIds(es) == IdRange(m.nextId, m'.nextId) &&
            ((CancelledIds(es) == [] && RequestedIds(es) == [] && m'.active == m.active) ||
             (CancelledIds(es) == m.active && m'.active == RequestedIds(es)))
  {
    if top.Some? && elapsed && Quotable(top.value) {
      var bid := BidQuote(m.position, top.value) as real;
      var ask := AskQuote(m.position, top.value) as real;
      hide BidQuote, AskQuote, Requoted;
      IdsOfRequote(m, bid, ask);
    }
  }

  /** Every id ever issued is either active, and at most two are, or has had exactly one cancel
      sent: the cancels in order, followed by the active ids, are exactly the ids issued. */
  lemma {:induction false} IdsAreAccountedFor(turns: seq<Turn>)
    ensures var (m, es) := Run(turns);
            m.nextId >= 1_000_000 && |m.active| <= 2 &&
            RequestedIds(es) == IdRange(1_000_000, m.nextId) &&
            CancelledIds(es) + m.active == IdRange(1_000_000, m.nextId)
  {
    if turns != [] {
      var before, t := turns[..|turns| - 1], turns[|turns| - 1];
      IdsAreAccountedFor(before);
      var (m, es) := Run(before);
      var more := OnBook(m.(position := t.position), t.top, t.elapsed).1;
      IdsOfTurn(m.(position := t.position), t.top, t.elapsed);
      RangeLength(m.nextId, Run(turns).0.nextId);
      hide OnBook, IdRange;
      IdsAppend(es, more);
      RangeExtends(FIRST_ID, m.nextId, Run(turns).0.nextId);
    }
  }

  // What is quoted, and when

  /** Is there something to quote on at this turn? */
  predicate Asked(t: Turn) {
    t.top.Some? && t.elapsed && t.top.value.bidQty + t.top.value.askQty != 0.0
  }

  /** The highest whole price that is at most `a` and at most `b`. */
  predicate HighestBelow(q: int, a: real, b: real) {
    q as real <= a && q as real <= b && ((q + 1) as real > a || (q + 1) as real > b)
  }

  /** The lowest whole price that is at least `a` and at least `b`. */
  predicate LowestAbove(q: int, a: real, b: real) {
    q as real >= a && q as real >= b && ((q - 1) as real < a || (q - 1) as real < b)
  }

  function Imbalance(book: TopOfBook): real
    requires book.bidQty + book.askQty != 0.0
  {
    (book.bidQty - book.askQty) / (book.bidQty + book.askQty)
  }

  /** The quotes of a turn: around the middle of the book, 1 to each side, moved up by the imbalance of
      the best quantities and down by a hundredth of the position, never inside the book's best prices. */
  predicate Quotes(t: Turn, bid: int, ask: int) {
    && Asked(t)
    && var book := t.top.value;
    && var fair := (book.bidPrice + book.askPrice) / 2.0 + Imbalance(book) - 0.01 * t.position;
    && HighestBelow(bid, fair - 1.0, book.bidPrice) && LowestAbove(ask, fair + 1.0, book.askPrice)
  }

  lemma DownIsHighest(target: real, best: real)
    ensures HighestBelow(QuoteDown(target, best), target, best)
  {
  }

  lemma UpIsLowest(target: real, best: real)
    ensures LowestAbove(QuoteUp(target, best), target, best)
  {
  }

  lemma TurnQuotes(t: Turn)
    requires Asked(t)
    ensures Quotes(t, BidQuote(t.position, t.top.value), AskQuote(t.position, t.top.value))
  {
    var book := t.top.value;
    var shift := Imbalance(book) - t.position * ALPHA;
    assert Shift(t.position, book) == shift;
    hide Shift, Imbalance;
    DownIsHighest(Mid(book) - 1.0 + shift, book.bidPrice);
    UpIsLowest(Mid(book) + 1.0 + shift, book.askPrice);
    hide QuoteDown, QuoteUp, HighestBelow, LowestAbove;
    var fair := (book.bidPrice + book.askPrice) / 2.0 + Imbalance(book) - 0.01 * t.position;
    assert fair - 1.0 == Mid(book) - 1.0 + shift && fair + 1.0 == Mid(book) + 1.0 + shift;
  }

  /** There is just one pair of quotes. */
  lemma QuotesAreUnique(t: Turn, bid: int, ask: int, bid': int, ask': int)
    requires Quotes(t, bid, ask) && Quotes(t, bid', ask')
    ensures bid == bid' && ask == ask'
  {
    hide Imbalance;
  }

  lemma MoreImbalance(b: real, a: real, b': real, a': real)
    requires 0.0 < b' <= b && 0.0 < a <= a'
    ensures (b' - a') / (b' + a') <= (b - a) / (b + a)
  {
    var x, y, s, s' := (b - a) / (b + a), (b' - a') / (b' + a'), b + a, b' + a';
    assert x * s == b - a && y * s' == b' - a';
    assert (x - y) * (s * s') == (x * s) * s' - (y * s') * s;
    assert (b - a) * s' - (b' - a') * s == 2.0 * (b * a' - b' * a);
    assert b * a' - b' * a == (b - b') * a' + b' * (a' - a);
    assert (b - b') * a' >= 0.0 && b' * (a' - a) >= 0.0;
    assert (x * s) * s' == (b - a) * s' && (y * s') * s == (b' - a') * s;
    NotNegative(x - y, s * s');
  }

  lemma NotNegative(x: real, d: real)
    requires d > 0.0 && x * d >= 0.0
    ensures x >= 0.0
  {
  }

  /** On the same best prices a larger position never raises a quote, and neither does less to buy or
      more to sell at them. */
  lemma QuotesLean(t: Turn, t': Turn, bid: int, ask: int, bid': int, ask': int)
    requires Quotes(t, bid, ask) && Quotes(t', bid', ask')
    requires var b, b' := t.top.value, t'.top.value;
             b.bidPrice == b'.bidPrice && b.askPrice == b'.askPrice && t.position <= t'.position &&
             0.0 < b'.bidQty <= b.bidQty && 0.0 < b.askQty <= b'.askQty
    ensures bid' <= bid && ask' <= ask
  {
    var b, b' := t.top.value, t'.top.value;
    MoreImbalance(b.bidQty, b.askQty, b'.bidQty, b'.askQty);
    assert Imbalance(b') <= Imbalance(b);
    hide Imbalance;
  }

  /** The last turn with something to quote on. */
  function LastAsked(turns: seq<Turn>): Option<Turn> {
    if turns == [] then None
    else if Asked(turns[|turns| - 1]) then Some(turns[|turns| - 1])
    else LastAsked(turns[..|turns| - 1])
  }

  /** These are the quotes of that turn, or both 0 before the first. */
  predicate Standing(turns: seq<Turn>, bid: int, ask: int) {
    match LastAsked(turns)
    case None => bid == 0 && ask == 0
    case Some(t) => Quotes(t, bid, ask)
  }

  /** The strategy remembers the quotes of the last turn with something to quote on, sent or not. */
  lemma {:induction false} RemembersQuotes(turns: seq<Turn>) returns (bid: int, ask: int)
    ensures Standing(turns, bid, ask)
    ensures Run(turns).0.lastBid == bid as real && Run(turns).0.lastAsk == ask as real
  {
    if turns == [] {
      bid, ask := 0, 0;
    } else {
      var before, t := turns[..|turns| - 1], turns[|turns| - 1];
      bid, ask := RemembersQuotes(before);
      hide Quotes;
      TurnSends(Run(before).0, t, bid, ask);
      if Asked(t) {
        TurnQuotes(t);
        bid, ask := BidQuote(t.position, t.top.value), AskQuote(t.position, t.top.value);
      }
      hide OnBook, BidQuote, AskQuote;
    }
  }

  lemma WholePricesDiffer(a: int, b: int)
    ensures Abs(a as real - b as real) > 0.01 <==> a != b
  {
  }

  /** One turn of a strategy whose last quotes were whole prices. */
  lemma TurnSends(m: MarketMaker, t: Turn, lastBid: int, lastAsk: int)
    requires m.lastBid == lastBid as real && m.lastAsk == lastAsk as real
    ensures var (m', sent) := OnBook(m.(position := t.position), t.top, t.elapsed);
            if !Asked(t) then sent == [] && m' == m.(position := t.position)
            else
              var bid, ask := BidQuote(t.position, t.top.value), AskQuote(t.position, t.top.value);
              m'.lastBid == bid as real && m'.lastAsk == ask as real &&
              sent ==
                if bid == lastBid && ask == lastAsk then []
                else Cancels(m.active) + QuoteRequests(m.nextId, t.position, bid, ask)
  {
    if Asked(t) {
      var bid, ask := BidQuote(t.position, t.top.value), AskQuote(t.position, t.top.value);
      WholePricesDiffer(bid, lastBid);
      WholePricesDiffer(ask, lastAsk);
      hide BidQuote, AskQuote, Cancels;
      RequotedSends(m.(position := t.position), bid, ask);
      hide Requoted;
    }
  }

  /** A buy of 0.1 unless the position is 10 or more, a sell unless it is -10 or less. */
  function QuoteRequests(nextId: nat, position: real, bid: int, ask: int): seq<Event> {
    (if position < 10.0 then [OrderRequest(Order(nextId, 1, Buy, Limit, bid as real, 0.1))] else []) +
    (if position > -10.0 then
       [OrderRequest(Order(if position < 10.0 then nextId + 1 else nextId, 1, Sell, Limit, ask as real, 0.1))]
     else [])
  }

  lemma RequotedSends(m: MarketMaker, bid: int, ask: int)
    ensures var (m', sent) := Requoted(m, bid as real, ask as real);
            m'.lastBid == bid as real && m'.lastAsk == ask as real &&
            sent == Cancels(m.active) + QuoteRequests(m.nextId, m.position, bid, ask)
  {
    hide Cancels;
  }

  /** What is sent at any turn of any run: nothing without a book to quote on, and nothing while the
      quotes are those of the last such turn; otherwise a cancel for each active order and new quotes,
      on the sides the position allows. */
  lemma {:induction false} MakerFollowsBook(turns: seq<Turn>, t: Turn, bid: int, ask: int)
    requires Asked(t) ==> Quotes(t, bid, ask)
    ensures var (m, es) := Run(turns);
            Run(turns + [t]).1 == es +
              if !Asked(t) || Standing(turns, bid, ask) then []
              else Cancels(m.active) + QuoteRequests(m.nextId, t.position, bid, ask)
  {
    var (m, es) := Run(turns);
    var lastBid, lastAsk := RemembersQuotes(turns);
    assert (turns + [t])[..|turns|] == turns;
    assert Run(turns + [t]).1 == es + OnBook(m.(position := t.position), t.top, t.elapsed).1;
    hide Run;
    TurnSends(m, t, lastBid, lastAsk);
    hide OnBook;
    if Asked(t) {
      TurnQuotes(t);
      QuotesAreUnique(t, bid, ask, BidQuote(t.position, t.top.value), AskQuote(t.position, t.top.value));
      hide BidQuote, AskQuote;
      StandingIsUnique(turns, lastBid, lastAsk, bid, ask);
    }
  }

  lemma StandingIsUnique(turns: seq<Turn>, bid: int, ask: int, bid': int, ask': int)
    requires Standing(turns, bid, ask)
    ensures Standing(turns, bid', ask') <==> bid' == bid && ask' == ask
  {
    if LastAsked(turns).Some? && Standing(turns, bid', ask') {
      QuotesAreUnique(LastAsked(turns).value, bid, ask, bid', ask');
    }
    hide Quotes;
  }
}
