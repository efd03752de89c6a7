/** The web pages whose data is still pending, and the requests for the messages that show them. */
module WebPages {
  import opened OrderedKeys
  import opened Options

  type Page = nat       // the address of a WebPageData
  type Channel = nat    // the address of a ChannelData
  type RequestId = nat
  type MsgId = int

  /** The message that findWebPageItem finds for a page; no channel stands for NoChannel. */
  datatype Item = Item(id: MsgId, channel: Option<Channel>)

  /** A request, and the pages for which it was sent, in the order of the messages. */
  datatype Sent = Sent(channel: Option<Channel>, ids: seq<MsgId>, pages: seq<Page>)

  /** The table of pages holds zero for a page that was not asked for yet; between the two passes of
      resolveWebPages it holds -1 for the messages without a channel and -index - 2 for those of the
      channel with that index. */
  type Table = map<Page, int>

  datatype State = State(table: Table, sent: map<RequestId, Sent>, next: RequestId)

  // ---------------------------------------------------------------- specification

  /** The pages that are due, have not been asked for and have a message. */
  function Picks(table: Table, pendingTill: map<Page, int>, item: Page -> Option<Item>, t: int): map<Page, Item> {
    map p | p in table && table[p] <= 0 && Till(pendingTill, p) <= t && item(p).Some? :: item(p).value
  }

  function Till(pendingTill: map<Page, int>, p: Page): (till: int)
    ensures p in pendingTill ==> till == pendingTill[p]
    ensures p !in pendingTill ==> till == 0
  {
    if p in pendingTill then pendingTill[p] else 0
  }

  /** Those of the pages that belong in the request for the channel. */
  function PagesFor(pages: seq<Page>, picks: map<Page, Item>, channel: Option<Channel>): seq<Page> {
    if pages == [] then []
    else
      var before := PagesFor(pages[..|pages| - 1], picks, channel);
      var p := pages[|pages| - 1];
      if p in picks && picks[p].channel == channel then before + [p] else before
  }

  lemma {:induction false} PagesForAre(pages: seq<Page>, picks: map<Page, Item>, channel: Option<Channel>)
    ensures forall p :: p in PagesFor(pages, picks, channel) <==>
            p in pages && p in picks && picks[p].channel == channel
  {
    if pages != [] {
      PagesForAre(pages[..|pages| - 1], picks, channel);
      assert pages == pages[..|pages| - 1] + [pages[|pages| - 1]];
    }
  }

  ghost predicate Matches(ids: seq<MsgId>, pages: seq<Page>, picks: map<Page, Item>) {
    |ids| == |pages| && forall i :: 0 <= i < |ids| ==> pages[i] in picks && ids[i] == picks[pages[i]].id
  }

  /** What was sent is one request for each channel, and one for no channel, that some picked page
      needs, and it lists the messages of exactly those pages in their order. */
  ghost predicate OneEach(sent: map<RequestId, Sent>, pages: seq<Page>, picks: map<Page, Item>) {
    && (forall r :: r in sent ==> sent[r].pages == PagesFor(pages, picks, sent[r].channel) && sent[r].pages != [])
    && (forall r :: r in sent ==> Matches(sent[r].ids, sent[r].pages, picks))
    && (forall r, q :: r in sent && q in sent && sent[r].channel == sent[q].channel ==> r == q)
  }

  /** The request that an entry of the table holds. */
  function RequestOf(value: int): RequestId {
    if value > 0 then value else 0
  }

  ghost predicate Serves(s: State, t: State, r: RequestId, item: Item) {
    s.next <= r && r in t.sent && t.sent[r].channel == item.channel
  }

  /** Every picked page holds the request that has its message, and the others hold what they held. */
  ghost predicate Resolved(s: State, t: State, picks: map<Page, Item>) {
    && t.table.Keys == s.table.Keys
    && (forall p :: p in s.table && p !in picks ==> t.table[p] == s.table[p])
    && (forall p :: p in picks ==> p in t.table && Serves(s, t, RequestOf(t.table[p]), picks[p]))
    && s.next <= t.next
    && (forall r :: r in s.sent ==> r in t.sent && t.sent[r] == s.sent[r])
    && (forall r :: r in t.sent && r !in s.sent ==> s.next <= r < t.next)
  }

  /** No placeholder is left, and a page that waits for a request is one of those it was sent for. */
  ghost predicate Inv(s: State) {
    && s.next > 0
    && (forall r :: r in s.sent ==> 0 < r < s.next)
    && (forall p :: p in s.table ==> s.table[p] >= 0)
    && (forall p :: p in s.table && s.table[p] > 0 ==>
         RequestOf(s.table[p]) in s.sent && p in s.sent[RequestOf(s.table[p])].pages)
  }

  function New(s: State, t: State): map<RequestId, Sent> {
    map r | r in t.sent && r !in s.sent :: t.sent[r]
  }

  /** In the order of the table, each once. */
  ghost predicate Rising(pages: seq<Page>) {
    forall i, j :: 0 <= i < j < |pages| ==> pages[i] < pages[j]
  }

  lemma {:induction false} PagesForRise(pages: seq<Page>, picks: map<Page, Item>, channel: Option<Channel>)
    requires Rising(pages)
    ensures Rising(PagesFor(pages, picks, channel))
  {
    if pages != [] {
      var n := |pages| - 1;
      var before := PagesFor(pages[..n], picks, channel);
      PagesForRise(pages[..n], picks, channel);
      PagesForAre(pages[..n], picks, channel);
      forall i | 0 <= i < |before| ensures before[i] < pages[n] {
        assert before[i] in pages[..n];
      }
    }
  }

  /** What resolveWebPages does, going through the pages of the table in the order of the table. */
  ghost predicate Passed(s: State, t: State, picks: map<Page, Item>, pages: seq<Page>) {
    && Inv(t)
    && Rising(pages) && (forall p :: p in pages <==> p in s.table)
    && Resolved(s, t, picks) && OneEach(New(s, t), pages, picks)
  }

  /** Each new request lists the message of each of its pages once, in the order of the table. */
  lemma EachListedOnce(s: State, t: State, picks: map<Page, Item>, pages: seq<Page>, r: RequestId)
    requires Passed(s, t, picks, pages) && r in t.sent && r !in s.sent
    ensures var request := t.sent[r];
            && Rising(request.pages) && |request.ids| == |request.pages|
            && (forall i :: 0 <= i < |request.ids| ==>
                  request.pages[i] in picks && request.ids[i] == picks[request.pages[i]].id)
            && (forall p :: p in request.pages <==> p in s.table && p in picks && picks[p].channel == request.channel)
  {
    assert r in New(s, t);
    PagesForRise(pages, picks, t.sent[r].channel);
    PagesForAre(pages, picks, t.sent[r].channel);
  }

  lemma ResolvedKeeps(s: State, t: State, picks: map<Page, Item>, pages: seq<Page>)
    requires Inv(s) && Resolved(s, t, picks) && OneEach(New(s, t), pages, picks)
             && (forall p :: p in pages <==> p in s.table)
    ensures Inv(t)
  {
    forall p | p in t.table && t.table[p] > 0
      ensures RequestOf(t.table[p]) in t.sent && p in t.sent[RequestOf(t.table[p])].pages
    {
      if p in picks {
        var r := RequestOf(t.table[p]);
        PagesForAre(pages, picks, picks[p].channel);
        assert r in New(s, t);
      }
    }
  }

  /** An answer: its pages leave the table, and they are no longer pending. */
  function Answered(table: Table, req: RequestId): Table {
    map p | p in table && table[p] != req :: table[p]
  }

  /** The pages that are not in `rest` have been gone through. */
  ghost predicate Answering(was: Table, till: map<Page, int>, req: RequestId, rest: set<Page>,
                            table: Table, pendingTill: map<Page, int>, notified: seq<Page>) {
    && rest <= table.Keys
    && (forall p :: p in table <==> p in was && (p in rest || was[p] != req))
    && (forall p :: p in table ==> table[p] == was[p])
    && (forall p :: p in notified <==> p !in rest && p in was && was[p] == req && Till(till, p) > 0)
    && (forall p :: Till(pendingTill, p) == if p in notified then -1 else Till(till, p))
  }

  lemma AnsweringFrom(table: Table, till: map<Page, int>, req: RequestId)
    ensures Answering(table, till, req, table.Keys, table, till, [])
  {
  }

  lemma AnsweringMore(was: Table, till: map<Page, int>, req: RequestId, rest: set<Page>,
                      table: Table, pendingTill: map<Page, int>, notified: seq<Page>, page: Page)
    requires Answering(was, till, req, rest, table, pendingTill, notified) && page in rest
    ensures page in table
    ensures var answered := table[page] == req;
            var told := answered && Till(pendingTill, page) > 0;
            Answering(was, till, req, rest - {page}, if answered then table - {page} else table,
                      if told then pendingTill[page := -1] else pendingTill,
                      if told then notified + [page] else notified)
  {
  }

  lemma AnsweringDone(was: Table, till: map<Page, int>, req: RequestId,
                      table: Table, pendingTill: map<Page, int>, notified: seq<Page>)
    requires Answering(was, till, req, {}, table, pendingTill, notified)
    ensures table == Answered(was, req)
    ensures forall p :: p in notified <==> p in was && was[p] == req && Till(till, p) > 0
    ensures forall p :: Till(pendingTill, p) == if p in notified then -1 else Till(till, p)
  {
  }

  /** Every page that leaves is one for which exactly this request was sent, and no page is asked
      for in two requests of one pass. */
  lemma AnswerErasesItsPages(s: State, req: RequestId)
    requires Inv(s) && req > 0
    ensures Inv(s.(table := Answered(s.table, req)))
    ensures forall p :: p in s.table && p !in Answered(s.table, req) ==> req in s.sent && p in s.sent[req].pages
    ensures forall p :: p in Answered(s.table, req) <==> p in s.table && s.table[p] != req
  {
  }

  /** The requests of one pass have no page in common. */
  lemma RequestsAreDisjoint(sent: map<RequestId, Sent>, pages: seq<Page>, picks: map<Page, Item>,
                            r: RequestId, q: RequestId, p: Page)
    requires OneEach(sent, pages, picks) && r in sent && q in sent
    requires p in sent[r].pages && p in sent[q].pages
    ensures r == q
  {
    PagesForAre(pages, picks, sent[r].channel);
    PagesForAre(pages, picks, sent[q].channel);
  }

  // ---------------------------------------------------------------- the wrapper

  datatype IndexAndMessageIds = IndexAndMessageIds(index: nat, ids: seq<MsgId>)
  type ByChannel = map<Channel, IndexAndMessageIds>

  /** The first pass after some of the pages: the channels have the indices below their number, each
      its own, and a picked page holds the code of its channel. */
  ghost predicate Grouped(table: Table, was: Table, picks: map<Page, Item>, done: seq<Page>,
                          ids: seq<MsgId>, idsByChannel: ByChannel, channels: seq<Channel>)
  {
    && Numbered(idsByChannel, channels)
    && Listed(picks, done, ids, idsByChannel)
    && Coded(table, was, picks, done, idsByChannel)
  }

  ghost predicate Coded(table: Table, was: Table, picks: map<Page, Item>, done: seq<Page>, idsByChannel: ByChannel) {
    && table.Keys == was.Keys
    && forall p :: p in table ==>
         table[p] == if p in done && p in picks then Code(picks[p].channel, idsByChannel) else was[p]
  }

  /** A bijection between the channels and the indices below their number. */
  ghost predicate Numbered(idsByChannel: ByChannel, channels: seq<Channel>) {
    && |idsByChannel.Keys| == |channels|
    && (forall i :: 0 <= i < |channels| ==> channels[i] in idsByChannel && idsByChannel[channels[i]].index == i)
    && (forall c :: c in idsByChannel ==> idsByChannel[c].index < |channels| && channels[idsByChannel[c].index] == c)
  }

  ghost predicate Lists(picks: map<Page, Item>, done: seq<Page>, channel: Option<Channel>, ids: seq<MsgId>) {
    Matches(ids, PagesFor(done, picks, channel), picks)
  }

  ghost predicate Listed(picks: map<Page, Item>, done: seq<Page>, ids: seq<MsgId>, idsByChannel: ByChannel) {
    && Lists(picks, done, None, ids)
    && (forall c :: c in idsByChannel ==> idsByChannel[c].ids != [] && Lists(picks, done, Some(c), idsByChannel[c].ids))
    && (forall p :: p in done && p in picks && picks[p].channel.Some? ==> picks[p].channel.value in idsByChannel)
  }

  function Code(channel: Option<Channel>, idsByChannel: ByChannel): int {
    if channel.None? then -1
    else if channel.value in idsByChannel then -(idsByChannel[channel.value].index as int) - 2
    else 0
  }

  lemma ListsMore(picks: map<Page, Item>, done: seq<Page>, p: Page, channel: Option<Channel>, ids: seq<MsgId>)
    requires Lists(picks, done, channel, ids)
    ensures Lists(picks, done + [p], channel,
                  if p in picks && picks[p].channel == channel then ids + [picks[p].id] else ids)
  {
    assert (done + [p])[..|done|] == done;
  }

  ghost predicate Appended(idsByChannel: ByChannel, c: Channel, more: seq<MsgId>, ids: seq<MsgId>) {
    ids == (if c in idsByChannel then idsByChannel[c].ids else []) + more
  }

  /** The message of the page goes to the list of its channel. */
  lemma ListedMore(picks: map<Page, Item>, done: seq<Page>, p: Page, ids: seq<MsgId>, idsByChannel: ByChannel,
                   ids': seq<MsgId>, idsByChannel': ByChannel)
    requires Listed(picks, done, ids, idsByChannel)
    requires ids' == if p in picks && picks[p].channel.None? then ids + [picks[p].id] else ids
    requires forall c :: c in idsByChannel' <==> c in idsByChannel || (p in picks && picks[p].channel == Some(c))
    requires forall c :: c in idsByChannel' ==>
             Appended(idsByChannel, c, if p in picks && picks[p].channel == Some(c) then [picks[p].id] else [],
                      idsByChannel'[c].ids)
    ensures Listed(picks, done + [p], ids', idsByChannel')
  {
    ListsMore(picks, done, p, None, ids);
    forall c | c in idsByChannel'
      ensures idsByChannel'[c].ids != [] && Lists(picks, done + [p], Some(c), idsByChannel'[c].ids)
    {
      if c in idsByChannel {
        ListsMore(picks, done, p, Some(c), idsByChannel[c].ids);
      } else {
        NothingListed(picks, done, idsByChannel, c);
        ListsMore(picks, done, p, Some(c), []);
      }
    }
  }

  ghost predicate AppendedOne(idsByChannel: ByChannel, channel: Channel, id: MsgId, more: ByChannel) {
    && more.Keys == idsByChannel.Keys + {channel}
    && (forall c :: c in more ==> Appended(idsByChannel, c, if c == channel then [id] else [], more[c].ids))
    && (forall c :: c in idsByChannel ==> more[c].index == idsByChannel[c].index)
  }

  /** What the first pass does with a page for which it finds a message. */
  ghost predicate Picked(table: Table, before: Table, p: Page, item: Item,
                         ids: seq<MsgId>, idsByChannel: ByChannel,
                         ids': seq<MsgId>, idsByChannel': ByChannel)
  {
    && ids' == (if item.channel.None? then ids + [item.id] else ids)
    && (if item.channel.None? then idsByChannel' == idsByChannel
        else AppendedOne(idsByChannel, item.channel.value, item.id, idsByChannel'))
    && table == before[p := Code(item.channel, idsByChannel')]
  }

  lemma PickedPlain(before: Table, p: Page, item: Item, ids: seq<MsgId>, idsByChannel: ByChannel)
    requires item.channel.None?
    ensures Picked(before[p := -1], before, p, item, ids, idsByChannel, ids + [item.id], idsByChannel)
  {
  }

  lemma PickedForChannel(before: Table, p: Page, item: Item, ids: seq<MsgId>,
                         idsByChannel: ByChannel, more: ByChannel)
    requires item.channel.Some? && AppendedOne(idsByChannel, item.channel.value, item.id, more)
    ensures item.channel.value in more
    ensures Picked(before[p := -(more[item.channel.value].index as int) - 2], before, p, item, ids,
                   idsByChannel, ids, more)
  {
  }

  /** The walk over the table in its order: what is done is what is not left. */
  ghost predicate Walked(done: seq<Page>, rest: set<Page>, all: set<Page>) {
    && rest <= all && (forall p :: p in done <==> p in all && p !in rest)
    && Rising(done) && forall p, q :: p in done && q in rest ==> p < q
  }

  lemma WalkOn(done: seq<Page>, rest: set<Page>, all: set<Page>, page: Page)
    requires Walked(done, rest, all) && page in rest && forall q :: q in rest ==> page <= q
    ensures Walked(done + [page], rest - {page}, all) && page !in done
  {
    forall i | 0 <= i < |done| ensures done[i] < page {
      assert done[i] in done;
    }
  }

  lemma GroupedMore(table: Table, before: Table, was: Table, picks: map<Page, Item>, done: seq<Page>, p: Page,
                    ids: seq<MsgId>, idsByChannel: ByChannel, channels: seq<Channel>,
                    ids': seq<MsgId>, idsByChannel': ByChannel, channels': seq<Channel>)
    requires Grouped(before, was, picks, done, ids, idsByChannel, channels) && p in was && p !in done
    requires Numbered(idsByChannel', channels')
    requires if p in picks then Picked(table, before, p, picks[p], ids, idsByChannel, ids', idsByChannel')
             else table == before && ids' == ids && idsByChannel' == idsByChannel
    ensures Grouped(table, was, picks, done + [p], ids', idsByChannel', channels')
  {
    ListedMore(picks, done, p, ids, idsByChannel, ids', idsByChannel');
    CodedMore(before, was, picks, done, p, idsByChannel, idsByChannel');
  }

  lemma CodedMore(table: Table, was: Table, picks: map<Page, Item>, done: seq<Page>, p: Page,
                  idsByChannel: ByChannel, idsByChannel': ByChannel)
    requires Coded(table, was, picks, done, idsByChannel) && p in was && p !in done
    requires forall c :: c in idsByChannel ==> c in idsByChannel' && idsByChannel'[c].index == idsByChannel[c].index
    requires forall q :: q in done && q in picks && picks[q].channel.Some? ==> picks[q].channel.value in idsByChannel
    ensures p in picks ==> Coded(table[p := Code(picks[p].channel, idsByChannel')], was, picks, done + [p],
                               idsByChannel')
    ensures p !in picks ==> Coded(table, was, picks, done + [p], idsByChannel')
  {
  }

  lemma {:induction false} NothingListed(picks: map<Page, Item>, done: seq<Page>, idsByChannel: ByChannel, c: Channel)
    requires c !in idsByChannel
    requires forall p :: p in done && p in picks && picks[p].channel.Some? ==> picks[p].channel.value in idsByChannel
    ensures PagesFor(done, picks, Some(c)) == []
  {
    if done != [] { NothingListed(picks, done[..|done| - 1], idsByChannel, c); }
  }

  lemma NumberedMore(idsByChannel: ByChannel, channels: seq<Channel>, c: Channel, ids: seq<MsgId>)
    requires Numbered(idsByChannel, channels)
    ensures c !in idsByChannel ==>
            Numbered(idsByChannel[c := IndexAndMessageIds(|idsByChannel.Keys|, ids)], channels + [c])
    ensures c in idsByChannel ==> Numbered(idsByChannel[c := idsByChannel[c].(ids := ids)], channels)
  {
    if c in idsByChannel {
      assert idsByChannel[c := idsByChannel[c].(ids := ids)].Keys == idsByChannel.Keys;
    } else {
      assert idsByChannel[c := IndexAndMessageIds(|idsByChannel.Keys|, ids)].Keys == idsByChannel.Keys + {c};
    }
  }

  // ---------------------------------------------------------------- the timer

  /** A page that was not asked for yet and is not due. */
  predicate Later(value: int, till: int, t: int) {
    value <= 0 && till > t
  }

  /** The shorter of the times until a pass is needed, in seconds; no time stands for INT_MAX. */
  function Sooner(m: Option<int>, value: int, till: int, t: int): Option<int> {
    if Later(value, till, t) then Some(if m.None? || till - t < m.value then till - t else m.value) else m
  }

  /** The shortest time until one of the pages is due. */
  ghost predicate Soonest(m: Option<int>, table: Table, pendingTill: map<Page, int>, pages: seq<Page>, t: int) {
    && (m.Some? ==> exists p :: p in pages && IsLater(table, pendingTill, p, t) && m.value == Till(pendingTill, p) - t)
    && (forall p :: p in pages && IsLater(table, pendingTill, p, t) ==> m.Some? && m.value <= Till(pendingTill, p) - t)
  }

  ghost predicate IsLater(table: Table, pendingTill: map<Page, int>, p: Page, t: int) {
    p in table && table[p] <= 0 && Till(pendingTill, p) > t
  }

  lemma SoonestMore(m: Option<int>, table: Table, pendingTill: map<Page, int>, pages: seq<Page>, t: int, page: Page)
    requires Soonest(m, table, pendingTill, pages, t) && page in table
    ensures Soonest(Sooner(m, table[page], Till(pendingTill, page), t), table, pendingTill, pages + [page], t)
  {
    var m' := Sooner(m, table[page], Till(pendingTill, page), t);
    if m'.Some? {
      if m' == m {
        var p :| p in pages && IsLater(table, pendingTill, p, t) && m.value == Till(pendingTill, p) - t;
        assert p in pages + [page];
      } else {
        assert page in pages + [page] && IsLater(table, pendingTill, page, t);
      }
    }
  }

  ghost predicate AllTimed(table: Table, missed: set<Page>, timer: Option<int>) {
    forall p :: p in table && table[p] == 0 && p !in missed ==> timer.Some?
  }

  lemma TimedSince(table: Table, missed: set<Page>, timer: Option<int>)
    ensures timer.Some? ==> AllTimed(table, missed, timer)
  {
  }

  lemma AnsweredIsTimed(table: Table, missed: set<Page>, timer: Option<int>, req: RequestId)
    requires AllTimed(table, missed, timer)
    ensures AllTimed(Answered(table, req), missed, timer)
  {
  }

  class ApiWrap {
    var pendingTill: map<Page, int>         // a field of each page; none stands for zero
    var webPagesPending: Table
    var timer: Option<int>                  // when the timer fires, in milliseconds, if it is active
    ghost var missed: set<Page>             // due in a pass that found no message for them
    var nextRequestId: RequestId
    ghost var sent: map<RequestId, Sent>

    ghost function Model(): State
      reads this
    {
      State(webPagesPending, sent, nextRequestId)
    }

    /** The timer is active as long as a page waits for a pass, unless a pass missed it. */
    ghost predicate Timed()
      reads this
    {
      AllTimed(webPagesPending, missed, timer)
    }

    constructor ()
      ensures Inv(Model()) && Timed() && webPagesPending == map[] && sent == map[] && timer == None
    {
      pendingTill, webPagesPending, nextRequestId, sent := map[], map[], 1, map[];
      timer, missed := None, {};
    }

    function PendingTill(p: Page): int
      reads this
    {
      Till(pendingTill, p)
    }

    /** The page waits, and the timer fires no later than a millisecond after the page is due, or
        after the moment of this call if it is due; it is put off by at most one millisecond. */
    method RequestWebPageDelayed(page: Page, t: int, now: int)
      requires Inv(Model()) && Timed()
      modifies this`webPagesPending, this`timer, this`missed
      ensures Inv(Model()) && Timed()
      ensures webPagesPending
              == if PendingTill(page) <= 0 then old(webPagesPending) else old(webPagesPending)[page := 0]
      ensures PendingTill(page) <= 0 ==> timer == old(timer) && missed == old(missed)
      ensures PendingTill(page) > 0 && old(timer).Some? ==>
                var due := now + (PendingTill(page) - t) * 1000;
                (timer == old(timer)) || (due <= old(timer).value) || (due <= now)
      ensures PendingTill(page) > 0 && old(timer).Some? && PendingTill(page) <= t ==> timer == Some(now + 1)
      ensures PendingTill(page) > 0 ==>
                && page !in missed && missed <= old(missed)
                && timer.Some? && (timer == old(timer) || timer.value > now)
                && timer.value <= now + (if PendingTill(page) > t then (PendingTill(page) - t) * 1000 else 0) + 1
                && (old(timer).Some? ==>
                      timer.value <= (if old(timer).value > now then old(timer).value else now) + 1)
    {
      if PendingTill(page) <= 0 { return; }
      webPagesPending := webPagesPending[page := 0];
      missed := missed - {page};
      var left := (PendingTill(page) - t) * 1000;
      if timer.None? || left <= RemainingTime(now) {
        timer := Some(now + (if left < 0 then 0 else left) + 1);
      }
    }

    function RemainingTime(now: int): int
      requires timer.Some?
      reads this
    {
      if timer.value > now then timer.value - now else 0
    }

    method ClearWebPageRequest(page: Page)
      requires Inv(Model()) && Timed()
      modifies this`webPagesPending, this`timer
      ensures Inv(Model()) && Timed() && webPagesPending == old(webPagesPending) - {page}
      ensures timer == if webPagesPending == map[] then None else old(timer)
    {
      webPagesPending := webPagesPending - {page};
      if webPagesPending == map[] && timer.Some? {
        timer := None;
      }
    }

    /** The end of gotWebPages; the result lists the pages that were told to update. */
    method GotWebPages(req: RequestId) returns (notified: seq<Page>)
      requires Inv(Model()) && Timed() && req > 0
      modifies this`webPagesPending, this`pendingTill
      ensures Inv(Model()) && Timed() && webPagesPending == Answered(old(webPagesPending), req)
      ensures forall p :: p in notified <==>
              p in old(webPagesPending) && old(webPagesPending)[p] == req && old(PendingTill(p)) > 0
      ensures forall p :: PendingTill(p) == if p in notified then -1 else old(PendingTill(p))
    {
      hide AllTimed, Answering;
      AnsweredIsTimed(webPagesPending, missed, timer, req);
      AnsweringFrom(webPagesPending, pendingTill, req);
      notified := [];
      ghost var was, till := webPagesPending, pendingTill;
      var rest: set<nat> := webPagesPending.Keys;
      while rest != {}
        invariant Answering(was, till, req, rest, webPagesPending, pendingTill, notified)
        decreases |rest|
      {
        var page: Page := Min(rest);
        AnsweringMore(was, till, req, rest, webPagesPending, pendingTill, notified, page);
        if webPagesPending[page] == req {
          if PendingTill(page) > 0 {
            pendingTill := pendingTill[page := -1];
            notified := notified + [page];
          }
          webPagesPending := webPagesPending - {page};
        }
        rest := rest - {page};
      }
      AnsweringDone(was, till, req, webPagesPending, pendingTill, notified);
      AnswerErasesItsPages(old(Model()), req);
    }

    /** The message goes to the list of its channel, which gets the next index if it is new. */
    method Append(idsByChannel: ByChannel, channel: Channel, id: MsgId, ghost channels: seq<Channel>)
      returns (more: ByChannel, ghost channels': seq<Channel>)
      requires Numbered(idsByChannel, channels)
      ensures Numbered(more, channels') && AppendedOne(idsByChannel, channel, id, more)
    {
      if channel !in idsByChannel {
        NumberedMore(idsByChannel, channels, channel, [id]);
        more, channels' := idsByChannel[channel := IndexAndMessageIds(|idsByChannel.Keys|, [id])], channels + [channel];
      } else {
        NumberedMore(idsByChannel, channels, channel, idsByChannel[channel].ids + [id]);
        var listed := idsByChannel[channel].(ids := idsByChannel[channel].ids + [id]);
        more, channels' := idsByChannel[channel := listed], channels;
      }
    }

    /** The first pass finds a message for the page. */
    method Collect(page: Page, item: Item, ids: seq<MsgId>, idsByChannel: ByChannel, ghost channels: seq<Channel>)
      returns (ids': seq<MsgId>, idsByChannel': ByChannel, ghost channels': seq<Channel>)
      requires page in webPagesPending && Numbered(idsByChannel, channels)
      modifies this`webPagesPending
      ensures Numbered(idsByChannel', channels')
      ensures Picked(webPagesPending, old(webPagesPending), page, item, ids, idsByChannel, ids', idsByChannel')
    {
      ids', idsByChannel', channels' := ids, idsByChannel, channels;
      if item.channel.None? {
        ids' := ids + [item.id];
        PickedPlain(webPagesPending, page, item, ids, idsByChannel);
        webPagesPending := webPagesPending[page := -1];
        return;
      }
      var channel := item.channel.value;
      idsByChannel', channels' := Append(idsByChannel, channel, item.id, channels);
      PickedForChannel(webPagesPending, page, item, ids, idsByChannel, idsByChannel');
      webPagesPending := webPagesPending[page := -(idsByChannel'[channel].index as int) - 2];
    }

    /** The first pass of resolveWebPages. */
    method CollectAll(item: Page -> Option<Item>, t: int)
      returns (ids: seq<MsgId>, idsByChannel: ByChannel, m: Option<int>,
               ghost channels: seq<Channel>, ghost done: seq<Page>)
      requires Inv(Model())
      modifies this`webPagesPending
      ensures Soonest(m, old(webPagesPending), pendingTill, done, t)
      ensures Walked(done, {}, old(webPagesPending).Keys) && InBounds(webPagesPending, |idsByChannel.Keys|)
      ensures Grouped(webPagesPending, old(webPagesPending), Picks(old(webPagesPending), pendingTill, item, t),
                      done, ids, idsByChannel, channels)
    {
      ids, idsByChannel, m, channels, done := [], map[], None, [], [];
      ghost var was := webPagesPending;
      ghost var picks := Picks(was, pendingTill, item, t);
      var rest: set<nat> := webPagesPending.Keys;
      while rest != {}
        invariant Walked(done, rest, was.Keys)
        invariant Grouped(webPagesPending, was, picks, done, ids, idsByChannel, channels)
        invariant Soonest(m, was, pendingTill, done, t)
        decreases |rest|
      {
        var page: Page := Min(rest);
        WalkOn(done, rest, was.Keys, page);
        SoonestMore(m, was, pendingTill, done, t, page);
        m := Sooner(m, webPagesPending[page], PendingTill(page), t);
        ids, idsByChannel, channels := CollectOne(page, item, t, ids, idsByChannel, was, picks, done, channels);
        done := done + [page];
        rest := rest - {page};
      }
      CodesAreInBounds(webPagesPending, was, picks, done, ids, idsByChannel, channels);
    }

    /** One turn of the first pass. */
    method CollectOne(page: Page, item: Page -> Option<Item>, t: int, ids: seq<MsgId>, idsByChannel: ByChannel,
                      ghost was: Table, ghost picks: map<Page, Item>, ghost done: seq<Page>,
                      ghost channels: seq<Channel>)
      returns (ids': seq<MsgId>, idsByChannel': ByChannel, ghost channels': seq<Channel>)
      requires page in was && page !in done && picks == Picks(was, pendingTill, item, t)
      requires Grouped(webPagesPending, was, picks, done, ids, idsByChannel, channels)
      modifies this`webPagesPending
      ensures Grouped(webPagesPending, was, picks, done + [page], ids', idsByChannel', channels')
    {
      ghost var before := webPagesPending;
      ids', idsByChannel', channels' := ids, idsByChannel, channels;
      assert before[page] == was[page];
      if webPagesPending[page] <= 0 && PendingTill(page) <= t {
        var found := item(page);
        if found.Some? {
          ids', idsByChannel', channels' := Collect(page, found.value, ids, idsByChannel, channels);
        }
      }
      GroupedMore(webPagesPending, before, was, picks, done, page,
                  ids, idsByChannel, channels, ids', idsByChannel', channels');
    }

    /** One request, added to those of the pass. */
    method Send(channel: Option<Channel>, ids: seq<MsgId>, ghost pass: Pass, ghost pages: seq<Page>,
                ghost picks: map<Page, Item>)
      returns (id: RequestId, ghost more: Pass)
      requires Going(pass, sent, nextRequestId) && OneEach(pass.news, pages, picks)
      requires ids != [] && Lists(picks, pages, channel, ids) && Unsent(pass.news, channel)
      modifies this`sent, this`nextRequestId
      ensures Going(more, sent, nextRequestId) && OneEach(more.news, pages, picks)
      ensures more == pass.(news := pass.news[id := Sent(channel, ids, PagesFor(pages, picks, channel))])
              && id !in pass.news
    {
      OneMoreEach(pass.news, pages, picks, nextRequestId, channel, ids);
      GoingOn(pass, sent, nextRequestId, Sent(channel, ids, PagesFor(pages, picks, channel)));
      id := nextRequestId;
      more := pass.(news := pass.news[id := Sent(channel, ids, PagesFor(pages, picks, channel))]);
      sent := sent[id := Sent(channel, ids, PagesFor(pages, picks, channel))];
      nextRequestId := nextRequestId + 1;
    }

    /** The requests that one pass sends. */
    method SendAll(ids: seq<MsgId>, idsByChannel: ByChannel, ghost channels: seq<Channel>,
                   ghost pages: seq<Page>, ghost picks: map<Page, Item>)
      returns (requestId: RequestId, reqsByIndex: seq<RequestId>, ghost pass: Pass)
      requires Numbered(idsByChannel, channels) && Listed(picks, pages, ids, idsByChannel)
      requires Going(Pass(sent, map[], nextRequestId), sent, nextRequestId)
      modifies this`sent, this`nextRequestId
      ensures Going(pass, sent, nextRequestId) && OneEach(pass.news, pages, picks)
      ensures pass.before == old(sent) && pass.from == old(nextRequestId)
      ensures Asked(pass.news, requestId, reqsByIndex, ids, idsByChannel, {})
    {
      requestId, pass := 0, Pass(sent, map[], nextRequestId);
      if ids != [] {
        requestId, pass := Send(None, ids, pass, pages, picks);
      }
      reqsByIndex, pass := SendForChannels(requestId, ids, idsByChannel, channels, pass, pages, picks);
    }

    method SendForChannels(requestId: RequestId, ids: seq<MsgId>, idsByChannel: ByChannel, ghost channels: seq<Channel>,
                           ghost pass: Pass, ghost pages: seq<Page>, ghost picks: map<Page, Item>)
      returns (reqsByIndex: seq<RequestId>, ghost more: Pass)
      requires Numbered(idsByChannel, channels) && Listed(picks, pages, ids, idsByChannel)
      requires Going(pass, sent, nextRequestId) && OneEach(pass.news, pages, picks)
      requires forall r :: r in pass.news ==> pass.news[r].channel.None?
      requires if ids == [] then requestId == 0 else SentFor(pass.news, requestId, None)
      modifies this`sent, this`nextRequestId
      ensures Going(more, sent, nextRequestId) && OneEach(more.news, pages, picks)
      ensures more.before == pass.before && more.from == pass.from
      ensures Asked(more.news, requestId, reqsByIndex, ids, idsByChannel, {})
    {
      more := pass;
      reqsByIndex := seq(|idsByChannel.Keys|, _ => 0);
      var rest: set<nat> := idsByChannel.Keys;
      while rest != {}
        invariant rest <= idsByChannel.Keys
        invariant Going(more, sent, nextRequestId) && OneEach(more.news, pages, picks)
        invariant more.before == pass.before && more.from == pass.from
        invariant NoneFor(more.news, rest)
        invariant Asked(more.news, requestId, reqsByIndex, ids, idsByChannel, rest)
        decreases |rest|
      {
        var channel: Channel := Min(rest);
        var data := idsByChannel[channel];
        ghost var was := more.news;
        UnsentFor(was, rest, channel);
        var id;
        id, more := Send(Some(channel), data.ids, more, pages, picks);
        AskedMore(was, requestId, reqsByIndex, ids, idsByChannel, channels, rest, channel, id, more.news[id]);
        reqsByIndex := reqsByIndex[data.index := id];
        rest := rest - {channel};
      }
    }

    /** The second pass of resolveWebPages. */
    method Assign(requestId: RequestId, reqsByIndex: seq<RequestId>)
      requires InBounds(webPagesPending, |reqsByIndex|)
      modifies this`webPagesPending
      ensures Assigned(webPagesPending, old(webPagesPending), requestId, reqsByIndex)
    {
      if requestId == 0 && reqsByIndex == [] { return; }
      ghost var was := webPagesPending;
      var rest: set<nat> := webPagesPending.Keys;
      while rest != {}
        invariant rest <= webPagesPending.Keys && webPagesPending.Keys == was.Keys
        invariant forall p :: p in was ==>
                  webPagesPending[p] == if p in rest then was[p] else Decoded(was[p], requestId, reqsByIndex)
        decreases |rest|
      {
        var page: Page := Min(rest);
        var pendingRequestId := webPagesPending[page];
        if pendingRequestId < 0 {
          if pendingRequestId == -1 {
            webPagesPending := webPagesPending[page := requestId];
          } else {
            webPagesPending := webPagesPending[page := reqsByIndex[-pendingRequestId - 2]];
          }
        }
        rest := rest - {page};
      }
    }

    /** The timer has fired: every page that is due and has a message is asked for, once, and the
        timer starts again for the first of those that are not due.  Those that are due and have no
        message are missed. */
    method ResolveWebPages(item: Page -> Option<Item>, t: int, now: int)
      returns (ghost pages: seq<Page>, m: Option<int>)
      requires Inv(Model())
      modifies this`webPagesPending, this`sent, this`nextRequestId, this`timer, this`missed
      ensures Passed(old(Model()), Model(), Picks(old(webPagesPending), pendingTill, item, t), pages)
      ensures Timed() && missed == Missed(webPagesPending, pendingTill, t)
      ensures Soonest(m, old(webPagesPending), pendingTill, pages, t)
      ensures timer == if m.None? then None else Some(now + m.value * 1000)
    {
      hide Passed, Soonest, Picks, Missed, AllTimed;
      timer := None;
      ghost var s := Model();
      pages, m := Resolve(item, t);
      StillTimed(s, Model(), Picks(s.table, pendingTill, item, t), pages, pendingTill, m, t);
      missed := Missed(webPagesPending, pendingTill, t);
      if m.Some? {
        timer := Some(now + m.value * 1000);
      }
      TimedSince(webPagesPending, missed, timer);
    }

    /** resolveWebPages up to its timer. */
    method Resolve(item: Page -> Option<Item>, t: int) returns (ghost pages: seq<Page>, m: Option<int>)
      requires Inv(Model())
      modifies this`webPagesPending, this`sent, this`nextRequestId
      ensures Passed(old(Model()), Model(), Picks(old(webPagesPending), pendingTill, item, t), pages)
      ensures Soonest(m, old(webPagesPending), pendingTill, pages, t)
    {
      hide Soonest;
      ghost var s := Model();
      ghost var picks := Picks(webPagesPending, pendingTill, item, t);
      var ids, idsByChannel;
      ghost var channels;
      ids, idsByChannel, m, channels, pages := CollectAll(item, t);
      Request(ids, idsByChannel, channels, s, pages, picks);
    }

    /** The rest of resolveWebPages after its first pass. */
    method Request(ids: seq<MsgId>, idsByChannel: ByChannel, ghost channels: seq<Channel>,
                   ghost s: State, ghost pages: seq<Page>, ghost picks: map<Page, Item>)
      requires Inv(s) && sent == s.sent && nextRequestId == s.next
      requires Walked(pages, {}, s.table.Keys) && picks.Keys <= s.table.Keys
      requires Grouped(webPagesPending, s.table, picks, pages, ids, idsByChannel, channels)
               && InBounds(webPagesPending, |idsByChannel.Keys|)
      modifies this`webPagesPending, this`sent, this`nextRequestId
      ensures Passed(s, Model(), picks, pages)
    {
      ghost var coded := webPagesPending;
      var requestId, reqsByIndex;
      ghost var pass;
      requestId, reqsByIndex, pass := SendAll(ids, idsByChannel, channels, pages, picks);
      Assign(requestId, reqsByIndex);
      CodesAreResolved(coded, s, Model(), pass, picks, pages, ids, idsByChannel, channels, requestId, reqsByIndex);
    }
  }

  ghost function Missed(table: Table, pendingTill: map<Page, int>, t: int): set<Page> {
    set p | p in table && table[p] == 0 && Till(pendingTill, p) <= t
  }

  /** A page that a pass leaves waiting and does not miss is not due, so there is a time to wait. */
  lemma StillTimed(s: State, u: State, picks: map<Page, Item>, pages: seq<Page>, pendingTill: map<Page, int>,
                   m: Option<int>, t: int)
    requires Passed(s, u, picks, pages) && Soonest(m, s.table, pendingTill, pages, t)
    ensures m.Some? || AllTimed(u.table, Missed(u.table, pendingTill, t), None)
  {
    forall p | p in u.table && u.table[p] == 0 && p !in Missed(u.table, pendingTill, t) ensures m.Some? {
      assert Till(pendingTill, p) > t;
      assert p !in picks;
      assert IsLater(s.table, pendingTill, p, t) && p in pages;
    }
  }

  /** The pages that a pass misses are those that are due and have no message; after it every page that
      waits has the timer if and only if there is none of them, or the timer runs for another page. */
  lemma MissedAre(s: State, u: State, item: Page -> Option<Item>, pages: seq<Page>, pendingTill: map<Page, int>,
                  m: Option<int>, t: int)
    requires Inv(s) && Passed(s, u, Picks(s.table, pendingTill, item, t), pages)
    requires Soonest(m, s.table, pendingTill, pages, t)
    ensures forall p :: p in Missed(u.table, pendingTill, t) <==>
              p in s.table && s.table[p] == 0 && Till(pendingTill, p) <= t && item(p).None?
    ensures AllTimed(u.table, {}, m) <==> m.Some? || Missed(u.table, pendingTill, t) == {}
  {
    var picks := Picks(s.table, pendingTill, item, t);
    StillTimed(s, u, picks, pages, pendingTill, m, t);
    forall p | p in picks ensures u.table[p] > 0 {
      assert Serves(s, u, RequestOf(u.table[p]), picks[p]);
    }
  }

  ghost predicate InBounds(table: Table, n: nat) {
    forall p :: p in table ==> -(n as int) - 2 < table[p]
  }

  ghost predicate Assigned(table: Table, coded: Table, requestId: RequestId, reqsByIndex: seq<RequestId>)
    requires InBounds(coded, |reqsByIndex|)
  {
    && table.Keys == coded.Keys
    && forall p :: p in coded ==> table[p] == AssignedValue(coded[p], requestId, reqsByIndex)
  }

  /** The second pass is left out when nothing was sent. */
  function AssignedValue(value: int, requestId: RequestId, reqsByIndex: seq<RequestId>): int
    requires -(|reqsByIndex| as int) - 2 < value
  {
    if requestId != 0 || reqsByIndex != [] then Decoded(value, requestId, reqsByIndex) else value
  }

  /** The requests sent before and during one pass; `from` is the first id of the pass. */
  datatype Pass = Pass(before: map<RequestId, Sent>, news: map<RequestId, Sent>, from: RequestId)

  ghost predicate Going(pass: Pass, sent: map<RequestId, Sent>, next: RequestId) {
    && sent == pass.before + pass.news && 0 < pass.from <= next
    && (forall r :: r in pass.before ==> r < pass.from)
    && (forall r :: r in pass.news ==> pass.from <= r < next)
  }

  /** The request without a channel, and those of the channels that are not left, have been sent. */
  ghost predicate Asked(news: map<RequestId, Sent>, requestId: RequestId, reqsByIndex: seq<RequestId>,
                        ids: seq<MsgId>, idsByChannel: ByChannel, left: set<Channel>)
  {
    && |reqsByIndex| == |idsByChannel.Keys|
    && (if ids == [] then requestId == 0 else SentFor(news, requestId, None))
    && forall c :: c in idsByChannel && c !in left ==>
         idsByChannel[c].index < |reqsByIndex| && SentFor(news, reqsByIndex[idsByChannel[c].index], Some(c))
  }

  ghost predicate NoneFor(news: map<RequestId, Sent>, left: set<Channel>) {
    forall r :: r in news && news[r].channel.Some? ==> news[r].channel.value !in left
  }

  ghost predicate Unsent(news: map<RequestId, Sent>, channel: Option<Channel>) {
    forall q :: q in news ==> news[q].channel != channel
  }

  lemma UnsentFor(news: map<RequestId, Sent>, left: set<Channel>, c: Channel)
    requires NoneFor(news, left) && c in left
    ensures Unsent(news, Some(c))
  {
  }

  lemma GoingOn(pass: Pass, sent: map<RequestId, Sent>, next: RequestId, request: Sent)
    requires Going(pass, sent, next)
    ensures Going(pass.(news := pass.news[next := request]), sent[next := request], next + 1)
  {
    assert sent[next := request] == pass.before + pass.news[next := request];
  }

  lemma AskedMore(news: map<RequestId, Sent>, requestId: RequestId, reqsByIndex: seq<RequestId>,
                  ids: seq<MsgId>, idsByChannel: ByChannel, channels: seq<Channel>,
                  left: set<Channel>, c: Channel, r: RequestId, request: Sent)
    requires Asked(news, requestId, reqsByIndex, ids, idsByChannel, left) && Numbered(idsByChannel, channels)
    requires c in left && c in idsByChannel && r !in news && request.channel == Some(c) && NoneFor(news, left)
    ensures NoneFor(news[r := request], left - {c})
    ensures Asked(news[r := request], requestId, reqsByIndex[idsByChannel[c].index := r], ids, idsByChannel, left - {c})
  {
    var reqs := reqsByIndex[idsByChannel[c].index := r];
    forall d | d in idsByChannel && d !in left - {c}
      ensures SentFor(news[r := request], reqs[idsByChannel[d].index], Some(d))
    {
      if d != c {
        assert channels[idsByChannel[d].index] != channels[idsByChannel[c].index];
      }
    }
  }

  function Decoded(value: int, requestId: RequestId, reqsByIndex: seq<RequestId>): int
    requires -(|reqsByIndex| as int) - 2 < value
  {
    if value >= 0 then value else if value == -1 then requestId else reqsByIndex[-value - 2]
  }

  ghost predicate SentFor(sent: map<RequestId, Sent>, r: RequestId, channel: Option<Channel>) {
    r in sent && sent[r].channel == channel
  }

  lemma OneMoreEach(sent: map<RequestId, Sent>, pages: seq<Page>, picks: map<Page, Item>, r: RequestId,
                    channel: Option<Channel>, ids: seq<MsgId>)
    requires OneEach(sent, pages, picks) && r !in sent && Unsent(sent, channel)
    requires ids != [] && Lists(picks, pages, channel, ids)
    ensures OneEach(sent[r := Sent(channel, ids, PagesFor(pages, picks, channel))], pages, picks)
  {
  }

  /** -index - 2 always decodes to an index of a channel. */
  lemma CodesAreInBounds(table: Table, was: Table, picks: map<Page, Item>, pages: seq<Page>,
                         ids: seq<MsgId>, idsByChannel: ByChannel, channels: seq<Channel>)
    requires Grouped(table, was, picks, pages, ids, idsByChannel, channels)
    requires forall p :: p in was ==> was[p] >= 0
    ensures InBounds(table, |idsByChannel.Keys|)
  {
  }

  lemma CodesAreResolved(coded: Table, s: State, t: State, pass: Pass, picks: map<Page, Item>, pages: seq<Page>,
                         ids: seq<MsgId>, idsByChannel: ByChannel, channels: seq<Channel>,
                         requestId: RequestId, reqsByIndex: seq<RequestId>)
    requires Inv(s) && Grouped(coded, s.table, picks, pages, ids, idsByChannel, channels)
    requires Walked(pages, {}, s.table.Keys) && picks.Keys <= s.table.Keys
    requires Going(pass, t.sent, t.next) && pass.before == s.sent && pass.from == s.next
    requires Asked(pass.news, requestId, reqsByIndex, ids, idsByChannel, {}) && OneEach(pass.news, pages, picks)
    requires InBounds(coded, |reqsByIndex|) && Assigned(t.table, coded, requestId, reqsByIndex)
    ensures Passed(s, t, picks, pages)
  {
    forall p | p in picks ensures Serves(s, t, RequestOf(t.table[p]), picks[p]) {
      PickIsServed(coded, s, t, pass, picks, pages, ids, idsByChannel, channels, requestId, reqsByIndex, p);
    }
    forall p | p in s.table && p !in picks ensures t.table[p] == s.table[p] {
      assert coded[p] == s.table[p];
    }
    PassIsNew(s, t, pass);
    ResolvedKeeps(s, t, picks, pages);
  }

  lemma PassIsNew(s: State, t: State, pass: Pass)
    requires Inv(s) && Going(pass, t.sent, t.next) && pass.before == s.sent && pass.from == s.next
    ensures New(s, t) == pass.news
    ensures s.next <= t.next && (forall r :: r in s.sent ==> r in t.sent && t.sent[r] == s.sent[r])
    ensures forall r :: r in t.sent && r !in s.sent ==> s.next <= r < t.next
  {
  }

  lemma PickIsServed(coded: Table, s: State, t: State, pass: Pass, picks: map<Page, Item>, pages: seq<Page>,
                     ids: seq<MsgId>, idsByChannel: ByChannel, channels: seq<Channel>,
                     requestId: RequestId, reqsByIndex: seq<RequestId>, p: Page)
    requires Grouped(coded, s.table, picks, pages, ids, idsByChannel, channels)
    requires p in picks && p in pages && p in s.table && p in t.table
    requires Going(pass, t.sent, t.next) && pass.from == s.next
    requires Asked(pass.news, requestId, reqsByIndex, ids, idsByChannel, {})
    requires -(|reqsByIndex| as int) - 2 < coded[p]
    requires t.table[p] == AssignedValue(coded[p], requestId, reqsByIndex)
    ensures Serves(s, t, RequestOf(t.table[p]), picks[p])
  {
    assert coded[p] == Code(picks[p].channel, idsByChannel);
    if picks[p].channel.None? {
      NoneListed(picks, pages, p, ids);
      RequestIsServed(s, t, pass, requestId, picks[p]);
    } else {
      ChannelIsCoded(picks, pages, p, ids, idsByChannel);
      ChannelIsServed(s, t, pass, picks[p], requestId, reqsByIndex, ids, idsByChannel);
    }
  }

  lemma RequestIsServed(s: State, t: State, pass: Pass, r: RequestId, item: Item)
    requires Going(pass, t.sent, t.next) && pass.from == s.next && SentFor(pass.news, r, item.channel)
    ensures r > 0 && Serves(s, t, RequestOf(r), item)
  {
  }

  lemma ChannelIsServed(s: State, t: State, pass: Pass, item: Item, requestId: RequestId, reqsByIndex: seq<RequestId>,
                        ids: seq<MsgId>, idsByChannel: ByChannel)
    requires Going(pass, t.sent, t.next) && pass.from == s.next
    requires Asked(pass.news, requestId, reqsByIndex, ids, idsByChannel, {})
    requires item.channel.Some? && item.channel.value in idsByChannel
    ensures var code := -(idsByChannel[item.channel.value].index as int) - 2;
            && -(|reqsByIndex| as int) - 2 < code
            && Serves(s, t, RequestOf(AssignedValue(code, requestId, reqsByIndex)), item)
  {
    var index := idsByChannel[item.channel.value].index;
    assert SentFor(pass.news, reqsByIndex[index], item.channel);
    RequestIsServed(s, t, pass, reqsByIndex[index], item);
  }

  lemma ChannelIsCoded(picks: map<Page, Item>, pages: seq<Page>, p: Page, ids: seq<MsgId>, idsByChannel: ByChannel)
    requires Listed(picks, pages, ids, idsByChannel) && p in pages && p in picks && picks[p].channel.Some?
    ensures picks[p].channel.value in idsByChannel
    ensures Code(picks[p].channel, idsByChannel) == -(idsByChannel[picks[p].channel.value].index as int) - 2
  {
  }

  /** A picked page without a channel makes the list for no channel longer than empty. */
  lemma NoneListed(picks: map<Page, Item>, pages: seq<Page>, p: Page, ids: seq<MsgId>)
    requires Lists(picks, pages, None, ids) && p in pages && p in picks && picks[p].channel.None?
    ensures ids != []
  {
    PagesForAre(pages, picks, None);
    assert p in PagesFor(pages, picks, None);
  }
}
