/**
  The live event stream. Publishing is one locked step, which numbers and retains the event and notes who is
  subscribed, followed by one unlocked send per subscriber at any later time; every other operation is one locked
  step in between.
*/
module LiveHub {
  import opened Options

  datatype LiveEvent = LiveEvent(id: nat, kind: string, time: nat, text: string)

  /** A subscriber: where the stream stood when it joined, what it was replayed, and what it was offered since. */
  datatype Subscriber = Subscriber(
    after: nat, joined: nat, cleared: nat, replay: seq<LiveEvent>, left: Option<nat>, offered: seq<LiveEvent>)

  /** `log` and `cleared` only record history: every event ever published, and how many of them were published
      before the retained list was last cleared. */
  datatype Hub = Hub(
    limit: nat, nextID: nat, replay: seq<LiveEvent>, subscribers: map<nat, Subscriber>, pending: set<(nat, nat)>,
    log: seq<LiveEvent>, cleared: nat)

  function Limit(requested: int): (limit: nat)
    ensures limit > 0
  { if requested <= 0 then 200 else requested }

  function NewHub(requested: int): Hub { Hub(Limit(requested), 0, [], map[], {}, [], 0) }

  predicate Active(h: Hub, sub: nat) { sub in h.subscribers && h.subscribers[sub].left.None? }

  function Trimmed(xs: seq<LiveEvent>, limit: nat): seq<LiveEvent> {
    if |xs| > limit then xs[|xs|-limit..] else xs
  }

  function Numbered(h: Hub, e: LiveEvent, now: nat): LiveEvent {
    e.(id := h.nextID + 1, time := if e.time == 0 then now else e.time)
  }

  /** The retained events a cursor has not seen. */
  function After(xs: seq<LiveEvent>, cursor: nat): seq<LiveEvent> {
    if xs == [] then [] else After(xs[..|xs|-1], cursor) + if xs[|xs|-1].id > cursor then [xs[|xs|-1]] else []
  }

  datatype Event =
    | Publish(e: LiveEvent, now: nat)
    | Send(sub: nat, id: nat)
    | Subscribe(sub: nat, after: nat)
    | Unsubscribe(sub: nat)
    | ClearReplay

  /** A send happens once for each subscriber noted by its publication; a new subscriber is a new object. */
  predicate Enabled(h: Hub, e: Event) {
    match e
    case Send(sub, id) => (sub, id) in h.pending
    case Subscribe(sub, _) => sub !in h.subscribers
    case _ => true
  }

  function Find(xs: seq<LiveEvent>, id: nat): LiveEvent
    requires 1 <= id <= |xs|
  { xs[id-1] }

  function Step(h: Hub, e: Event): Hub {
    match e
    case Publish(e, now) =>
      if e.kind == "" then h
      else
        var x := Numbered(h, e, now);
        h.(nextID := h.nextID + 1, replay := Trimmed(h.replay + [x], h.limit), log := h.log + [x],
           pending := h.pending + set s | s in h.subscribers && Active(h, s) :: (s, x.id))
    case Send(sub, id) =>
      if (sub, id) in h.pending && sub in h.subscribers && 1 <= id <= |h.log| then
        h.(pending := h.pending - {(sub, id)},
           subscribers := h.subscribers[sub := h.subscribers[sub].(offered := h.subscribers[sub].offered + [Find(h.log, id)])])
      else h
    case Subscribe(sub, after) =>
      h.(subscribers := h.subscribers[sub := Subscriber(after, |h.log|, h.cleared, After(h.replay, after), None, [])])
    case Unsubscribe(sub) =>
      if Active(h, sub) then h.(subscribers := h.subscribers[sub := h.subscribers[sub].(left := Some(|h.log|))]) else h
    case ClearReplay => h.(replay := [], cleared := |h.log|)
  }

  function Run(requested: int, es: seq<Event>): Hub {
    if es == [] then NewHub(requested) else Step(Run(requested, es[..|es|-1]), es[|es|-1])
  }

  predicate LegalRun(requested: int, es: seq<Event>) {
    es != [] ==> LegalRun(requested, es[..|es|-1]) && Enabled(Run(requested, es[..|es|-1]), es[|es|-1])
  }

  // ---------- What stays true ----------

  /** The retained events: the last ones published since the last clear, at most `limit`. */
  function Retained(log: seq<LiveEvent>, cleared: nat, limit: nat): seq<LiveEvent>
    requires cleared <= |log|
  {
    log[if |log| - cleared > limit then |log| - limit else cleared..]
  }

  ghost predicate Consecutive(log: seq<LiveEvent>) { forall i :: 0 <= i < |log| ==> log[i].id == i + 1 }

  ghost predicate Retains(h: Hub) {
    && h.limit > 0 && h.nextID == |h.log| && Consecutive(h.log) && h.cleared <= |h.log|
    && h.replay == Retained(h.log, h.cleared, h.limit)
  }

  /** Where a subscription ends: at its end, or now. */
  function Until(h: Hub, s: Subscriber): nat { if s.left.Some? then s.left.value else |h.log| }

  predicate Between(i: nat, low: nat, high: nat) { low < i <= high }

  function Interval(low: nat, high: nat): set<nat> { set i: nat | 0 <= i <= high && Between(i, low, high) }

  function Ids(xs: seq<LiveEvent>): set<nat> { set e | e in xs :: e.id }

  ghost predicate OnceEach(xs: seq<LiveEvent>) { forall i, j :: 0 <= i < j < |xs| ==> xs[i].id != xs[j].id }

  function Waiting(h: Hub, sub: nat): set<nat> { set p | p in h.pending && p.0 == sub :: p.1 }

  ghost predicate Served(h: Hub, sub: nat, s: Subscriber) {
    && s.cleared <= s.joined <= Until(h, s) <= |h.log|
    && s.replay == After(Retained(h.log[..s.joined], s.cleared, h.limit), s.after)
    && OnceEach(s.offered) && Ids(s.offered) !! Waiting(h, sub)
    && Ids(s.offered) + Waiting(h, sub) == Interval(s.joined, Until(h, s))
    && forall e :: e in s.offered ==> 1 <= e.id <= |h.log| && e == Find(h.log, e.id)
  }

  ghost predicate Good(h: Hub) {
    && Retains(h)
    && (forall sub :: sub in h.subscribers ==> Served(h, sub, h.subscribers[sub]))
    && (forall p :: p in h.pending ==> p.0 in h.subscribers && 1 <= p.1 <= |h.log|)
  }

  lemma RetainedNext(log: seq<LiveEvent>, cleared: nat, limit: nat, x: LiveEvent)
    requires cleared <= |log| && limit > 0
    ensures Retained(log + [x], cleared, limit) == Trimmed(Retained(log, cleared, limit) + [x], limit)
  {
  }

  lemma PublishRetains(h: Hub, e: LiveEvent, now: nat)
    requires Retains(h)
    ensures Retains(Step(h, Publish(e, now)))
  {
    if e.kind != "" { RetainedNext(h.log, h.cleared, h.limit, Numbered(h, e, now)); }
  }

  lemma PublishServes(h: Hub, e: LiveEvent, now: nat, sub: nat)
    requires Good(h) && e.kind != "" && sub in h.subscribers
    ensures Served(Step(h, Publish(e, now)), sub, h.subscribers[sub])
  {
    var t, s := Step(h, Publish(e, now)), h.subscribers[sub];
    var n := |h.log|;
    assert Served(h, sub, s);
    assert t.log[..s.joined] == h.log[..s.joined];
    if s.left.None? {
      assert Waiting(t, sub) == Waiting(h, sub) + {n + 1};
      assert Interval(s.joined, n + 1) == Interval(s.joined, n) + {n + 1};
      assert n + 1 !in Interval(s.joined, n);
    } else {
      assert Waiting(t, sub) == Waiting(h, sub);
    }
    hide After, Retained, Interval, Waiting;
  }

  lemma PublishGood(h: Hub, e: LiveEvent, now: nat)
    requires Good(h)
    ensures Good(Step(h, Publish(e, now)))
  {
    if e.kind != "" {
      PublishRetains(h, e, now);
      forall sub | sub in h.subscribers ensures Served(Step(h, Publish(e, now)), sub, h.subscribers[sub]) {
        PublishServes(h, e, now, sub);
      }
      hide Served, Retains;
    }
  }

  lemma IdsNext(xs: seq<LiveEvent>, x: LiveEvent)
    ensures Ids(xs + [x]) == Ids(xs) + {x.id}
    ensures OnceEach(xs) && x.id !in Ids(xs) ==> OnceEach(xs + [x])
  {
    assert forall e :: e in xs + [x] <==> e in xs || e == x;
    forall i | 0 <= i < |xs| ensures xs[i].id in Ids(xs) {}
  }

  lemma WaitingAfterSend(h: Hub, sub: nat, id: nat)
    requires (sub, id) in h.pending && sub in h.subscribers && 1 <= id <= |h.log|
    ensures Waiting(Step(h, Send(sub, id)), sub) == Waiting(h, sub) - {id} && id in Waiting(h, sub)
  {
  }

  lemma OfferServes(h: Hub, sub: nat, id: nat)
    requires Good(h) && (sub, id) in h.pending
    ensures var t := Step(h, Send(sub, id)); sub in t.subscribers && Served(t, sub, t.subscribers[sub])
  {
    var t, s := Step(h, Send(sub, id)), h.subscribers[sub];
    var x := Find(h.log, id);
    assert Served(h, sub, s) && x.id == id;
    hide After, Retained, Interval, Waiting, Ids, OnceEach;
    WaitingAfterSend(h, sub, id);
    IdsNext(s.offered, x);
    hide Good;
  }

  lemma OtherServes(h: Hub, t: Hub, sub: nat, s: Subscriber)
    requires Served(h, sub, s) && t.log == h.log && t.limit == h.limit && Waiting(t, sub) == Waiting(h, sub)
    ensures Served(t, sub, s)
  {
    hide After, Retained, Interval, Waiting, Ids;
  }

  lemma SendGood(h: Hub, sub: nat, id: nat)
    requires Good(h) && (sub, id) in h.pending
    ensures Good(Step(h, Send(sub, id)))
  {
    var t := Step(h, Send(sub, id));
    OfferServes(h, sub, id);
    forall other | other in h.subscribers && other != sub ensures Served(t, other, t.subscribers[other]) {
      assert Waiting(t, other) == Waiting(h, other);
      OtherServes(h, t, other, h.subscribers[other]);
    }
    hide Served, Retains, Find;
    assert Retains(t) by { SameRetains(h, t); }
  }

  lemma SameRetains(h: Hub, t: Hub)
    requires Retains(h) && t.limit == h.limit && t.nextID == h.nextID && t.log == h.log && t.cleared == h.cleared && t.replay == h.replay
    ensures Retains(t)
  {
  }

  lemma SubscribeGood(h: Hub, sub: nat, after: nat)
    requires Good(h) && sub !in h.subscribers
    ensures Good(Step(h, Subscribe(sub, after)))
  {
    var t := Step(h, Subscribe(sub, after));
    var s := t.subscribers[sub];
    assert h.log[..|h.log|] == h.log;
    assert Waiting(t, sub) == {} && Interval(|h.log|, |h.log|) == {} && Ids([]) == {};
    assert Served(t, sub, s);
    forall other | other in h.subscribers ensures Served(t, other, t.subscribers[other]) {
      assert Waiting(t, other) == Waiting(h, other);
      OtherServes(h, t, other, h.subscribers[other]);
    }
    hide Served, Retains;
    assert Retains(t) by { SameRetains(h, t); }
  }

  lemma LeavingServes(h: Hub, sub: nat)
    requires Active(h, sub) && Served(h, sub, h.subscribers[sub])
    ensures var t := Step(h, Unsubscribe(sub)); sub in t.subscribers && Served(t, sub, t.subscribers[sub])
  {
    hide After, Retained, OnceEach, Ids, Interval;
    assert Waiting(Step(h, Unsubscribe(sub)), sub) == Waiting(h, sub);
  }

  lemma OtherStays(h: Hub, t: Hub, other: nat)
    requires Good(h) && other in h.subscribers
    requires t.log == h.log && t.limit == h.limit && t.pending == h.pending
    ensures Served(t, other, h.subscribers[other])
  {
    assert Waiting(t, other) == Waiting(h, other);
    OtherServes(h, t, other, h.subscribers[other]);
  }

  lemma UnsubscribeGood(h: Hub, sub: nat)
    requires Good(h)
    ensures Good(Step(h, Unsubscribe(sub)))
  {
    hide Served, Retains;
    if Active(h, sub) {
      var t := Step(h, Unsubscribe(sub));
      LeavingServes(h, sub);
      forall other | other in h.subscribers && other != sub ensures Served(t, other, t.subscribers[other]) {
        OtherStays(h, t, other);
      }
      SameRetains(h, t);
    }
  }

  lemma ClearGood(h: Hub)
    requires Good(h)
    ensures Good(Step(h, ClearReplay))
  {
    var t := Step(h, ClearReplay);
    forall sub | sub in h.subscribers ensures Served(t, sub, h.subscribers[sub]) {
      assert Waiting(t, sub) == Waiting(h, sub);
      OtherServes(h, t, sub, h.subscribers[sub]);
    }
    hide Served;
  }

  lemma {:induction false} AlwaysGood(requested: int, es: seq<Event>)
    requires LegalRun(requested, es)
    ensures Good(Run(requested, es))
  {
    if es != [] {
      hide Good, Step;
      var before, e := es[..|es|-1], es[|es|-1];
      var h := Run(requested, before);
      AlwaysGood(requested, before);
      match e
      case Publish(x, now) => PublishGood(h, x, now);
      case Send(sub, id) => SendGood(h, sub, id);
      case Subscribe(sub, after) => SubscribeGood(h, sub, after);
      case Unsubscribe(sub) => UnsubscribeGood(h, sub);
      case ClearReplay => ClearGood(h);
    }
  }

  // ---------- The promises ----------

  /** The retained list is always the last events published since it was last cleared, as many as fit the limit,
      with consecutive numbers. */
  lemma ReplayIsRecentHistory(requested: int, es: seq<Event>)
    requires LegalRun(requested, es)
    ensures var h, limit := Run(requested, es), if requested >= 1 then requested else 200;
            && h.cleared <= |h.log|
            && |h.replay| == (if |h.log| - h.cleared < limit then |h.log| - h.cleared else limit)
            && h.replay == h.log[|h.log|-|h.replay|..]
            && forall i :: 0 <= i < |h.replay| ==> h.replay[i].id == |h.log| - |h.replay| + i + 1
  {
    hide Run, LegalRun, Retains, Served;
    AlwaysGood(requested, es);
    LimitStays(requested, es);
    RetainsMeans(Run(requested, es));
  }

  lemma RetainsMeans(h: Hub)
    requires Retains(h)
    ensures h.cleared <= |h.log|
    ensures |h.replay| == if |h.log| - h.cleared < h.limit then |h.log| - h.cleared else h.limit
    ensures h.replay == h.log[|h.log|-|h.replay|..]
    ensures forall i :: 0 <= i < |h.replay| ==> h.replay[i].id == |h.log| - |h.replay| + i + 1
  {
    var first := |h.log| - |h.replay|;
    forall i | 0 <= i < |h.replay| ensures h.replay[i].id == first + i + 1 {
      assert h.replay[i] == h.log[first + i];
    }
  }

  lemma {:induction false} LimitStays(requested: int, es: seq<Event>)
    ensures Run(requested, es).limit == if requested >= 1 then requested else 200
  {
    if es != [] { LimitStays(requested, es[..|es|-1]); }
  }

  lemma {:induction false} AfterIs(xs: seq<LiveEvent>, cursor: nat)
    ensures forall e :: e in After(xs, cursor) <==> e in xs && e.id > cursor
  {
    if xs != [] {
      AfterIs(xs[..|xs|-1], cursor);
      assert xs == xs[..|xs|-1] + [xs[|xs|-1]];
    }
  }

  /** What a subscriber was replayed: the retained events past its cursor, all of them older than its subscription. */
  lemma ReplayedEvents(log: seq<LiveEvent>, s: Subscriber, limit: nat)
    requires Consecutive(log) && s.cleared <= s.joined <= |log|
    requires s.replay == After(Retained(log[..s.joined], s.cleared, limit), s.after)
    ensures forall e :: e in s.replay <==> e in Retained(log[..s.joined], s.cleared, limit) && e.id > s.after
    ensures forall e :: e in s.replay ==> e in log && e.id <= s.joined
  {
    var kept := Retained(log[..s.joined], s.cleared, limit);
    AfterIs(kept, s.after);
    hide After;
    forall e | e in kept ensures e in log && e.id <= s.joined {
      assert e in log[..s.joined];
      var i :| 0 <= i < s.joined && log[i] == e;
    }
  }

  /** No gap and no duplicate, however sends, publications, clears and other browsers interleave: the events a
      subscriber was replayed are exactly those retained when it joined and past its cursor, the events it was
      offered since together with those still to be sent to it are exactly the events published while it was
      subscribed, and no event is in both or in either twice. */
  lemma NoGapNoDuplicate(requested: int, es: seq<Event>, sub: nat)
    requires LegalRun(requested, es) && sub in Run(requested, es).subscribers
    ensures var h := Run(requested, es); var s := h.subscribers[sub];
            && s.cleared <= s.joined <= Until(h, s) <= |h.log|
            && (forall e :: e in s.replay <==> e in Retained(h.log[..s.joined], s.cleared, h.limit) && e.id > s.after)
            && OnceEach(s.offered) && Ids(s.offered) !! Waiting(h, sub)
            && Ids(s.offered) + Waiting(h, sub) == Interval(s.joined, Until(h, s))
            && Ids(s.replay) !! Ids(s.offered) + Waiting(h, sub)
            && forall e :: e in s.replay || e in s.offered ==> e in h.log
  {
    AlwaysGood(requested, es);
    hide Run;
    ServedMeans(Run(requested, es), sub);
    hide Served, Retains, Good;
  }

  lemma ServedMeans(h: Hub, sub: nat)
    requires Good(h) && sub in h.subscribers
    ensures var s := h.subscribers[sub];
            && s.cleared <= s.joined <= Until(h, s) <= |h.log|
            && (forall e :: e in s.replay <==> e in Retained(h.log[..s.joined], s.cleared, h.limit) && e.id > s.after)
            && OnceEach(s.offered) && Ids(s.offered) !! Waiting(h, sub)
            && Ids(s.offered) + Waiting(h, sub) == Interval(s.joined, Until(h, s))
            && Ids(s.replay) !! Ids(s.offered) + Waiting(h, sub)
            && forall e :: e in s.replay || e in s.offered ==> e in h.log
  {
    hide After, Retained, Waiting, OnceEach, Ids, Interval, Retains, Served;
    OfferedPart(h, sub, h.subscribers[sub]);
    ReplayPart(h, sub, h.subscribers[sub]);
  }

  lemma OfferedPart(h: Hub, sub: nat, s: Subscriber)
    requires Served(h, sub, s)
    ensures s.cleared <= s.joined <= Until(h, s) <= |h.log|
    ensures OnceEach(s.offered) && Ids(s.offered) !! Waiting(h, sub)
    ensures Ids(s.offered) + Waiting(h, sub) == Interval(s.joined, Until(h, s))
    ensures forall e :: e in s.offered ==> e in h.log
  {
    hide After, Retained, Waiting, OnceEach, Ids, Interval;
    forall e | e in s.offered ensures e in h.log { assert e == h.log[e.id-1]; }
  }

  lemma ReplayPart(h: Hub, sub: nat, s: Subscriber)
    requires Retains(h) && Served(h, sub, s)
    ensures forall e :: e in s.replay <==> e in Retained(h.log[..s.joined], s.cleared, h.limit) && e.id > s.after
    ensures forall e :: e in s.replay ==> e in h.log
    ensures Ids(s.replay) !! Interval(s.joined, Until(h, s))
  {
    hide After, Retained, Waiting, OnceEach, Ids, Interval;
    ReplayedEvents(h.log, s, h.limit);
    OlderThan(s.replay, s.joined, Until(h, s));
  }

  lemma OlderThan(xs: seq<LiveEvent>, joined: nat, until: nat)
    requires forall e :: e in xs ==> e.id <= joined
    ensures Ids(xs) !! Interval(joined, until)
  {
  }

  /** The events published, blank kinds left out, each at its own time or, without one, at the hub's. */
  function Published(es: seq<Event>): seq<LiveEvent> {
    if es == [] then []
    else
      var e := es[|es|-1];
      Published(es[..|es|-1]) + if e.Publish? && e.e.kind != "" then [if e.e.time == 0 then e.e.(time := e.now) else e.e] else []
  }

  /** The history the stream speaks of is what was published: the same events in the same order, numbered from 1. */
  lemma {:induction false} LogIsWhatWasPublished(requested: int, es: seq<Event>)
    requires LegalRun(requested, es)
    ensures var log := Run(requested, es).log;
            |log| == |Published(es)| && forall i :: 0 <= i < |log| ==> log[i] == Published(es)[i].(id := i + 1)
  {
    if es != [] {
      hide Step, Enabled, Numbered;
      var before, e := es[..|es|-1], es[|es|-1];
      LogIsWhatWasPublished(requested, before);
      NextIsLength(requested, before);
      LogNext(Run(requested, before), e);
    }
  }

  lemma NextIsLength(requested: int, es: seq<Event>)
    requires LegalRun(requested, es)
    ensures Run(requested, es).nextID == |Run(requested, es).log|
  {
    hide Run, LegalRun, Served;
    AlwaysGood(requested, es);
  }

  lemma LogNext(h: Hub, e: Event)
    ensures Step(h, e).log == h.log + if e.Publish? && e.e.kind != ""
                                      then [(if e.e.time == 0 then e.e.(time := e.now) else e.e).(id := h.nextID + 1)] else []
  {
    hide After, Trimmed;
  }

  // ---------- Order of delivery ----------

  ghost predicate Ascending(xs: seq<LiveEvent>) { forall i, j :: 0 <= i < j < |xs| ==> xs[i].id < xs[j].id }

  ghost predicate AllAscending(h: Hub) {
    forall sub :: sub in h.subscribers ==> Ascending(h.subscribers[sub].offered)
  }

  /** No send to a browser that is still subscribed is outstanding. */
  predicate Settled(h: Hub) { forall p :: p in h.pending ==> !Active(h, p.0) }

  predicate Starts(e: Event) { e.Publish? && e.e.kind != "" }

  /** Publications do not overlap: each finds the sends of the earlier ones to its own targets done. */
  predicate OnePublisher(requested: int, es: seq<Event>) {
    es != [] ==>
      OnePublisher(requested, es[..|es|-1]) && (Starts(es[|es|-1]) ==> Settled(Run(requested, es[..|es|-1])))
  }

  /** Every outstanding send carries the last event its subscriber is owed. */
  ghost predicate LastOwed(h: Hub) {
    forall p :: p in h.pending ==> p.0 in h.subscribers && p.1 == Until(h, h.subscribers[p.0])
  }

  lemma {:induction false} OnePublisherKeepsOrder(requested: int, es: seq<Event>)
    requires LegalRun(requested, es) && OnePublisher(requested, es)
    ensures LastOwed(Run(requested, es)) && AllAscending(Run(requested, es))
  {
    if es != [] {
      var before, e := es[..|es|-1], es[|es|-1];
      OnePublisherKeepsOrder(requested, before);
      AlwaysGood(requested, before);
      OrderStep(Run(requested, before), e);
      hide Step, Good, AllAscending, LastOwed, Settled;
    }
  }

  lemma OrderStep(h: Hub, e: Event)
    requires Good(h) && Enabled(h, e) && (Starts(e) ==> Settled(h))
    requires LastOwed(h) && AllAscending(h)
    ensures LastOwed(Step(h, e)) && AllAscending(Step(h, e))
  {
    hide Retained, After, Trimmed;
    if e.Send? {
      OfferedBefore(h, e.sub, e.id);
      hide Good;
    }
  }

  /** Whatever was offered to a subscriber precedes the last event it is owed. */
  lemma OfferedBefore(h: Hub, sub: nat, id: nat)
    requires Good(h) && (sub, id) in h.pending && sub in h.subscribers && id == Until(h, h.subscribers[sub])
    ensures forall x :: x in h.subscribers[sub].offered ==> x.id < id
  {
    var s := h.subscribers[sub];
    assert Served(h, sub, s);
    hide Retained, After;
    assert id in Waiting(h, sub);
    forall x | x in s.offered ensures x.id < id {
      assert x.id in Ids(s.offered);
      assert x.id in Interval(s.joined, Until(h, s));
    }
  }

  /** A publication that finds a send to a subscribed browser outstanding can overtake it: both sends can still be
      made, the new one first, and then the browser's offers are out of order. */
  lemma ConcurrentPublishersMayReorder(h: Hub, x: LiveEvent, now: nat, sub: nat, id: nat)
    requires Good(h) && (sub, id) in h.pending && Active(h, sub) && x.kind != ""
    ensures var h1 := Step(h, Publish(x, now)); var h2 := Step(h1, Send(sub, h1.nextID)); var h3 := Step(h2, Send(sub, id));
            Enabled(h1, Send(sub, h1.nextID)) && Enabled(h2, Send(sub, id)) && !AllAscending(h3)
  {
    hide Retained, After, Trimmed, Served;
    var h1 := Step(h, Publish(x, now));
    var latest := h1.nextID;
    assert (sub, latest) in h1.pending && id < latest;
    var h2 := Step(h1, Send(sub, latest));
    assert h2.subscribers[sub].offered == h.subscribers[sub].offered + [Find(h1.log, latest)];
    var h3 := Step(h2, Send(sub, id));
    var offered, n := h3.subscribers[sub].offered, |h.subscribers[sub].offered|;
    assert offered == h.subscribers[sub].offered + [Find(h1.log, latest), Find(h1.log, id)];
    assert offered[n].id == latest && offered[n+1].id == id;
  }

  predicate Sends(es: seq<Event>) { forall i :: 0 <= i < |es| ==> es[i].Send? }

  /** However the outstanding sends are interleaved after any beginning of the run, no browser is offered events out
      of order. */
  ghost predicate OrderedHowever(requested: int, es: seq<Event>) {
    forall i, ss :: 0 <= i <= |es| && Sends(ss) && LegalRun(requested, es[..i] + ss) ==> AllAscending(Run(requested, es[..i] + ss))
  }

  lemma {:induction false} OnePublisherPrefix(requested: int, es: seq<Event>, i: nat)
    requires OnePublisher(requested, es) && i <= |es|
    ensures OnePublisher(requested, es[..i])
  {
    if i < |es| {
      OnePublisherPrefix(requested, es[..|es|-1], i);
      assert es[..|es|-1][..i] == es[..i];
    } else {
      assert es[..i] == es;
    }
  }

  lemma {:induction false} SendsDoNotOverlap(requested: int, es: seq<Event>, ss: seq<Event>)
    requires OnePublisher(requested, es) && Sends(ss)
    ensures OnePublisher(requested, es + ss)
  {
    if ss == [] {
      assert es + ss == es;
    } else {
      SendsDoNotOverlap(requested, es, ss[..|ss|-1]);
      assert (es + ss)[..|es + ss|-1] == es + ss[..|ss|-1];
    }
  }

  /** A run whose publications overlap somewhere. */
  lemma {:induction false} Overlap(requested: int, es: seq<Event>) returns (i: nat, sub: nat, id: nat)
    requires LegalRun(requested, es) && !OnePublisher(requested, es)
    ensures i < |es| && Starts(es[i]) && LegalRun(requested, es[..i]) && LegalRun(requested, es[..i+1])
    ensures (sub, id) in Run(requested, es[..i]).pending && Active(Run(requested, es[..i]), sub)
  {
    hide Run, Enabled;
    var before := es[..|es|-1];
    if OnePublisher(requested, before) {
      assert !Settled(Run(requested, before));
      hide OnePublisher;
      var p :| p in Run(requested, before).pending && Active(Run(requested, before), p.0);
      i, sub, id := |es| - 1, p.0, p.1;
      assert es[..i+1] == es;
    } else {
      i, sub, id := Overlap(requested, before);
      hide OnePublisher, LegalRun;
      assert before[..i] == es[..i] && before[..i+1] == es[..i+1];
    }
  }

  lemma RunNext(requested: int, es: seq<Event>, e: Event)
    ensures Run(requested, es + [e]) == Step(Run(requested, es), e)
    ensures LegalRun(requested, es + [e]) <==> LegalRun(requested, es) && Enabled(Run(requested, es), e)
  {
    hide Step, Enabled;
    assert (es + [e])[..|es|] == es;
  }

  /** Browsers are certain to be offered events in order exactly when publications do not overlap. */
  lemma OrderedExactlyWithoutOverlap(requested: int, es: seq<Event>)
    requires LegalRun(requested, es)
    ensures OrderedHowever(requested, es) <==> OnePublisher(requested, es)
  {
    hide Run, LegalRun, Step, Enabled, AllAscending, OnePublisher, Good, LastOwed;
    if OnePublisher(requested, es) {
      forall i, ss | 0 <= i <= |es| && Sends(ss) && LegalRun(requested, es[..i] + ss)
        ensures AllAscending(Run(requested, es[..i] + ss))
      {
        OnePublisherPrefix(requested, es, i);
        SendsDoNotOverlap(requested, es[..i], ss);
        OnePublisherKeepsOrder(requested, es[..i] + ss);
      }
    } else {
      var i, sub, id := Overlap(requested, es);
      var before, e := es[..i], es[i];
      assert es[..i+1] == before + [e];
      AlwaysGood(requested, before);
      ConcurrentPublishersMayReorder(Run(requested, before), e.e, e.now, sub, id);
      RunNext(requested, before, e);
      var first, second := Send(sub, Run(requested, before + [e]).nextID), Send(sub, id);
      RunNext(requested, before + [e], first);
      RunNext(requested, before + [e] + [first], second);
      var ss := [first, second];
      assert es[..i+1] + ss == before + [e] + [first] + [second];
      assert e == Publish(e.e, e.now) && Sends(ss);
      assert LegalRun(requested, es[..i+1] + ss) && !AllAscending(Run(requested, es[..i+1] + ss));
    }
  }

  // ---------- The hub, updated in place ----------

  function SnapshotLimit(requested: int): nat { if requested <= 0 || requested > 500 then 100 else requested }

  function Newest(xs: seq<LiveEvent>, n: nat): seq<LiveEvent> { if |xs| > n then xs[|xs|-n..] else xs }

  /** A snapshot holds up to as many events as were asked for, if between 1 and 500, else up to 100. */
  lemma SnapshotLimits(requested: int, xs: seq<LiveEvent>)
    ensures var shown := |Newest(xs, SnapshotLimit(requested))|;
            shown == (if 1 <= requested <= 500 && requested < |xs| then requested
                      else if !(1 <= requested <= 500) && 100 < |xs| then 100 else |xs|)
  {
  }

  lemma {:induction false} AfterConcat(a: seq<LiveEvent>, b: seq<LiveEvent>, cursor: nat)
    ensures After(a + b, cursor) == After(a, cursor) + After(b, cursor)
  {
    if b == [] { assert a + b == a; }
    else {
      AfterConcat(a, b[..|b|-1], cursor);
      assert (a + b)[..|a + b|-1] == a + b[..|b|-1];
    }
  }

  function Reversed(xs: seq<LiveEvent>): (r: seq<LiveEvent>)
    ensures |r| == |xs| && forall i :: 0 <= i < |xs| ==> r[i] == xs[|xs|-1-i]
  {
    seq(|xs|, i requires 0 <= i < |xs| => xs[|xs|-1-i])
  }

  lemma ReversedNext(xs: seq<LiveEvent>, x: LiveEvent)
    ensures Reversed(xs + [x]) == [x] + Reversed(xs)
  {
  }

  lemma NothingAfter(cursor: nat)
    ensures After([], cursor) == [] && Reversed([]) == []
  {
  }

  lemma AfterFrom(xs: seq<LiveEvent>, i: nat, cursor: nat)
    requires i < |xs|
    ensures After(xs[i..], cursor) == (if xs[i].id > cursor then [xs[i]] else []) + After(xs[i+1..], cursor)
  {
    AfterConcat([xs[i]], xs[i+1..], cursor);
    assert [xs[i]] + xs[i+1..] == xs[i..];
    assert [xs[i]][..0] == [];
  }

  /** Enough was found from position `i` on, or everything was looked at. */
  lemma NewestAre(xs: seq<LiveEvent>, i: nat, cursor: nat, found: seq<LiveEvent>, limit: nat)
    requires i <= |xs| && Reversed(found) == After(xs[i..], cursor)
    requires |found| <= limit && (i == 0 || |found| == limit)
    ensures Reversed(found) == Newest(After(xs, cursor), limit)
  {
    AfterConcat(xs[..i], xs[i..], cursor);
    assert xs == xs[..i] + xs[i..];
    hide After;
    var all, tail := After(xs, cursor), After(xs[i..], cursor);
    assert all == After(xs[..i], cursor) + tail && |tail| == |found|;
    if i == 0 { NothingAfter(cursor); assert xs[..0] == []; }
    assert all[|all|-|tail|..] == tail;
  }

  /** The scan from the newest event backwards, until enough are found. */
  method CollectBackwards(all: seq<LiveEvent>, after: nat, limit: nat) returns (found: seq<LiveEvent>)
    ensures Reversed(found) == Newest(After(all, after), limit)
  {
    hide After, Reversed, Newest;
    found := [];
    var i := |all|;
    NothingAfter(after);
    assert all[|all|..] == [];
    while i > 0 && |found| < limit
      invariant 0 <= i <= |all| && |found| <= limit
      invariant Reversed(found) == After(all[i..], after)
    {
      i := i - 1;
      AfterFrom(all, i, after);
      if all[i].id > after {
        ReversedNext(found, all[i]);
        found := found + [all[i]];
      }
    }
    NewestAre(all, i, after, found, limit);
  }

  method ReverseInPlace(a: array<LiveEvent>)
    modifies a
    ensures a[..] == Reversed(old(a[..]))
  {
    var i, j := 0, a.Length - 1;
    while i < j
      invariant 0 <= i && i + j == a.Length - 1 && j >= -1
      invariant forall k :: 0 <= k < i ==> a[k] == old(a[a.Length-1-k]) && a[a.Length-1-k] == old(a[k])
      invariant forall k :: i <= k <= j ==> a[k] == old(a[k])
    {
      a[i], a[j] := a[j], a[i];
      i, j := i + 1, j - 1;
    }
  }

  class Stream {
    var nextID: nat
    var subscribers: set<nat>
    var replay: seq<LiveEvent>
    const replayLimit: nat

    constructor (requested: int)
      ensures nextID == 0 && subscribers == {} && replay == [] && replayLimit == Limit(requested)
    {
      nextID, subscribers, replay := 0, {}, [];
      replayLimit := Limit(requested);
    }

    /** Whether the object stands where the state machine does. */
    ghost predicate Matches(h: Hub) reads this {
      nextID == h.nextID && replay == h.replay && replayLimit == h.limit && subscribers == set s | s in h.subscribers && Active(h, s)
    }

    /** The locked part of a publication: the numbered event and whom it must be sent to. */
    method PublishLocked(event: LiveEvent, now: nat, ghost h: Hub) returns (published: Option<LiveEvent>, targets: set<nat>)
      requires Matches(h)
      modifies this
      ensures Matches(Step(h, Publish(event, now)))
      ensures published == if event.kind == "" then None else Some(Numbered(h, event, now))
      ensures event.kind != "" ==> targets == set s | s in h.subscribers && Active(h, s)
    {
      if event.kind == "" { return None, {}; }
      nextID := nextID + 1;
      var e := event.(id := nextID);
      if e.time == 0 { e := e.(time := now); }
      replay := replay + [e];
      if |replay| > replayLimit { replay := replay[|replay|-replayLimit..]; }
      assert forall s :: s in h.subscribers ==> Active(Step(h, Publish(event, now)), s) == Active(h, s);
      return Some(e), subscribers;
    }

    method Subscribe(sub: nat, after: nat, ghost h: Hub) returns (missed: seq<LiveEvent>)
      requires Matches(h) && sub !in h.subscribers
      modifies this
      ensures Matches(Step(h, Event.Subscribe(sub, after)))
      ensures missed == Step(h, Event.Subscribe(sub, after)).subscribers[sub].replay
    {
      subscribers := subscribers + {sub};
      missed := [];
      for i := 0 to |replay|
        invariant missed == After(replay[..i], after)
      {
        assert replay[..i+1][..i] == replay[..i];
        if replay[i].id > after { missed := missed + [replay[i]]; }
      }
      assert replay[..|replay|] == replay;
    }

    method Unsubscribe(sub: nat, ghost h: Hub)
      requires Matches(h)
      modifies this
      ensures Matches(Step(h, Event.Unsubscribe(sub)))
    {
      subscribers := subscribers - {sub};
    }

    method ClearReplay(ghost h: Hub)
      requires Matches(h)
      modifies this
      ensures Matches(Step(h, Event.ClearReplay))
    {
      replay := [];
      assert forall s :: s in h.subscribers ==> Active(Step(h, Event.ClearReplay), s) == Active(h, s);
    }

    /** The newest retained events past a cursor, oldest first. */
    method Snapshot(after: nat, requested: int) returns (out: array<LiveEvent>)
      ensures fresh(out) && out[..] == Newest(After(replay, after), SnapshotLimit(requested))
    {
      hide After, Newest, SnapshotLimit;
      var found := CollectBackwards(replay, after, SnapshotLimit(requested));
      out := new LiveEvent[|found|](k requires 0 <= k < |found| => found[k]);
      assert out[..] == found;
      ReverseInPlace(out);
    }
  }
}
