/** The coalescing broadcaster of web/app/lib/feature-flags-stream.ts. Between two awaits nothing interleaves, so an
    event is one uninterrupted stretch of code; the loop's exit test and its `.finally` are one stretch. */
module FeatureFlagsStream {
  type Subscriber = nat

  datatype Event =
    | Notification
    | FetchSucceeded
    | LoopFailed(reached: set<Subscriber>)   // the fetch rejected, or a callback threw after `reached` were called
    | Subscribe(who: Subscriber)
    | Unsubscribe(who: Subscriber)

  /** The fields of `BroadcasterState` that matter, and the history the claims are about: a clock of events, when the
      last notification came, when the fetch in flight began, who joined when, and for each subscriber the start of the
      fetch behind the last payload it was given. `failed` and `reached` describe how the last loop ended. */
  datatype View = View(subscribers: set<Subscriber>, inFlight: nat, queued: bool,
                       clock: nat, notice: nat, fetchStart: nat,
                       joined: map<Subscriber, nat>, received: map<Subscriber, nat>,
                       failed: bool, reached: set<Subscriber>)

  const Initially := View({}, 0, false, 0, 0, 0, map[], map[], false, {})

  function Delivered(received: map<Subscriber, nat>, to: set<Subscriber>, at: nat): map<Subscriber, nat> {
    map s | s in received.Keys + to :: if s in to then at else received[s]
  }

  /** One stretch of code. A fetch result with no loop in flight does not exist and changes nothing but the clock. */
  function Next(v: View, e: Event): View {
    var now := v.clock + 1;
    match e
    case Notification =>
      if v.inFlight > 0 then v.(clock := now, notice := now, queued := true)
      else v.(clock := now, notice := now, queued := false, fetchStart := now, inFlight := v.inFlight + 1)
    case FetchSucceeded =>
      if v.inFlight == 0 then v.(clock := now)
      else
        var d := v.(clock := now, received := Delivered(v.received, v.subscribers, v.fetchStart));
        if v.queued then d.(queued := false, fetchStart := now)
        else d.(inFlight := v.inFlight - 1, failed := false, reached := {})
    case LoopFailed(reached) =>
      if v.inFlight == 0 then v.(clock := now)
      else v.(clock := now, received := Delivered(v.received, reached * v.subscribers, v.fetchStart),
              inFlight := v.inFlight - 1, failed := true, reached := reached * v.subscribers)
    case Subscribe(who) =>
      v.(clock := now, subscribers := v.subscribers + {who},
         joined := if who in v.subscribers then v.joined else v.joined[who := now])
    case Unsubscribe(who) => v.(clock := now, subscribers := v.subscribers - {who})
  }

  function Run(es: seq<Event>): View {
    if es == [] then Initially else Next(Run(es[..|es| - 1]), es[|es| - 1])
  }

  /** Subscribed no later than the last notification. */
  predicate Present(v: View, s: Subscriber) {
    s in v.subscribers && s in v.joined && v.joined[s] <= v.notice
  }

  /** Has a payload whose fetch began at or after the last notification. */
  predicate Fresh(v: View, s: Subscriber) {
    s in v.received && v.notice <= v.received[s]
  }

  ghost predicate Inv(v: View) {
    && v.inFlight <= 1
    && v.notice <= v.clock && v.fetchStart <= v.clock
    && v.subscribers <= v.joined.Keys
    && (v.inFlight == 1 ==> (v.queued <==> v.fetchStart < v.notice))
    && (v.inFlight == 1 ==> forall s :: s in v.received ==> v.received[s] < v.fetchStart && v.received[s] < v.notice)
    && (v.inFlight == 0 ==> forall s :: s in v.received ==> v.received[s] <= v.clock)
    && (v.inFlight == 0 && !v.failed ==> forall s :: Present(v, s) ==> s in v.received && v.notice <= v.received[s])
    && (v.inFlight == 0 && v.failed ==> forall s :: Present(v, s) ==> (Fresh(v, s) <==> s in v.reached && !v.queued))
  }

  lemma NextKeepsInv(v: View, e: Event)
    requires Inv(v)
    ensures Inv(Next(v, e))
  {
    var w := Next(v, e);
    forall s | w.inFlight == 0 && w.failed && Present(w, s)
      ensures Fresh(w, s) <==> s in w.reached && !w.queued
    {
      assert Present(v, s);
    }
  }

  lemma {:induction false} InvAlways(es: seq<Event>)
    ensures Inv(Run(es))
  {
    if es != [] {
      InvAlways(es[..|es| - 1]);
      NextKeepsInv(Run(es[..|es| - 1]), es[|es| - 1]);
    }
  }

  /** Coalescing loses no update: at most one loop is ever in flight, and when none is and the last one did not fail,
      every subscriber present since the last notification holds a payload fetched at or after it. */
  lemma NoUpdateLost(es: seq<Event>)
    ensures Run(es).inFlight <= 1
    ensures Run(es).inFlight == 0 && !Run(es).failed ==> forall s :: Present(Run(es), s) ==> Fresh(Run(es), s)
  {
    InvAlways(es);
  }

  /** When the last loop failed, exactly these subscribers are still up to date: those its last round had already
      reached, provided no further notification was waiting. */
  lemma FreshAfterFailure(es: seq<Event>, s: Subscriber)
    requires Run(es).inFlight == 0 && Run(es).failed && Present(Run(es), s)
    ensures Fresh(Run(es), s) <==> s in Run(es).reached && !Run(es).queued
  {
    InvAlways(es);
  }

  /** Event `i` subscribes `s`, who has not unsubscribed since. */
  ghost predicate SubscribedAt(es: seq<Event>, s: Subscriber, i: nat) {
    i < |es| && es[i] == Subscribe(s) && forall j :: i < j < |es| ==> es[j] != Unsubscribe(s)
  }

  lemma SubscribedStep(es: seq<Event>, e: Event, s: Subscriber, i: nat)
    ensures SubscribedAt(es + [e], s, i)
            <==> (SubscribedAt(es, s, i) && e != Unsubscribe(s)) || (i == |es| && e == Subscribe(s))
  {
    var all := es + [e];
    assert all[|es|] == e && forall j :: 0 <= j < |es| ==> all[j] == es[j];
  }

  lemma NextSubscribers(v: View, e: Event, s: Subscriber)
    ensures
      var w := Next(v, e);
      && (s in w.subscribers <==> e == Subscribe(s) || (s in v.subscribers && e != Unsubscribe(s)))
      && (s in w.subscribers && s in v.subscribers && s in v.joined ==> s in w.joined && w.joined[s] == v.joined[s])
      && (e == Subscribe(s) && s !in v.subscribers ==> s in w.joined && w.joined[s] == v.clock + 1)
      && w.clock == v.clock + 1 && w.notice == if e.Notification? then v.clock + 1 else v.notice
  {
  }

  /** When the current subscription of `s` began, as the number of events up to and with it. */
  predicate SinceJoined(es: seq<Event>, s: Subscriber, at: nat) {
    && 0 < at <= |es| && es[at - 1] == Subscribe(s) && (forall j :: at <= j < |es| ==> es[j] != Unsubscribe(s))
    && forall j :: 0 <= j < at - 1 && es[j] == Subscribe(s) ==> exists l :: j < l < at && es[l] == Unsubscribe(s)
  }

  lemma SinceJoinedStep(es: seq<Event>, e: Event, s: Subscriber, at: nat)
    requires e != Unsubscribe(s) && SinceJoined(es, s, at)
    ensures SinceJoined(es + [e], s, at)
  {
    var all := es + [e];
    assert forall j :: 0 <= j < |es| ==> all[j] == es[j];
    forall j | 0 <= j < at - 1 && all[j] == Subscribe(s) ensures exists l :: j < l < at && all[l] == Unsubscribe(s) {
      var l :| j < l < at && es[l] == Unsubscribe(s);
      assert all[l] == Unsubscribe(s);
    }
  }

  lemma JoinsNow(es: seq<Event>, s: Subscriber)
    requires forall i :: !SubscribedAt(es, s, i)
    ensures SinceJoined(es + [Subscribe(s)], s, |es| + 1)
  {
    var all := es + [Subscribe(s)];
    assert all[|es|] == Subscribe(s) && forall j :: 0 <= j < |es| ==> all[j] == es[j];
    forall j | 0 <= j < |es| && all[j] == Subscribe(s)
      ensures exists l :: j < l < |es| + 1 && all[l] == Unsubscribe(s)
    {
      assert !SubscribedAt(es, s, j);
      var l :| j < l < |es| && es[l] == Unsubscribe(s);
      assert all[l] == Unsubscribe(s);
    }
  }

  ghost predicate Subscribed(es: seq<Event>, s: Subscriber) {
    exists i :: SubscribedAt(es, s, i)
  }

  /** Exactly those who have subscribed, and not unsubscribed since, are subscribed, from the moment they joined; others
      come and go without effect. The clock counts events, and the notice is that of the last notification. */
  lemma {:induction false} RunIsHistory(es: seq<Event>, s: Subscriber)
    ensures
      var v := Run(es);
      && (s in v.subscribers <==> Subscribed(es, s))
      && (s in v.subscribers ==> s in v.joined && SinceJoined(es, s, v.joined[s]))
      && v.clock == |es| && v.notice <= |es| && (v.notice > 0 ==> es[v.notice - 1] == Notification)
      && forall j :: v.notice <= j < |es| ==> es[j] != Notification
  {
    if es != [] {
      var before, e := es[..|es| - 1], es[|es| - 1];
      assert es == before + [e];
      RunIsHistory(before, s);
      NextSubscribers(Run(before), e, s);
      forall i
        ensures SubscribedAt(es, s, i)
                <==> (SubscribedAt(before, s, i) && e != Unsubscribe(s)) || (i == |before| && e == Subscribe(s))
      {
        SubscribedStep(before, e, s, i);
      }
      if s in Run(before).subscribers && e != Unsubscribe(s) {
        SinceJoinedStep(before, e, s, Run(before).joined[s]);
      } else if e == Subscribe(s) {
        assert SubscribedAt(es, s, |before|);
        JoinsNow(before, s);
      }
    }
  }

  /** A payload is given to subscribers only: to all of them when a fetch succeeds, and to those reached before a loop
      fails; and it is the one whose fetch is in flight. */
  lemma PayloadsGoToSubscribers(v: View, e: Event, s: Subscriber)
    ensures
      var given := v.inFlight > 0 && s in v.subscribers && (e.FetchSucceeded? || (e.LoopFailed? && s in e.reached));
      && (given ==> s in Next(v, e).received && Next(v, e).received[s] == v.fetchStart)
      && (!given ==> (s in Next(v, e).received <==> s in v.received)
                     && (s in v.received ==> Next(v, e).received[s] == v.received[s]))
  {
  }

  lemma RunSnoc(es: seq<Event>, e: Event)
    ensures Run(es + [e]) == Next(Run(es), e)
  {
    assert (es + [e])[..|es|] == es;
  }

  /** A failed fetch with a notification waiting: the broadcaster goes idle with the update lost. */
  lemma FailureLosesUpdate() returns (es: seq<Event>)
    ensures es == [Subscribe(0)] + [Notification] + [Notification] + [LoopFailed({})]
    ensures Run(es).inFlight == 0 && Run(es).queued && Present(Run(es), 0) && !Fresh(Run(es), 0)
  {
    var a := [Subscribe(0)];
    RunSnoc([], Subscribe(0));
    assert [] + a == a;
    var va := Initially.(clock := 1, subscribers := {0}, joined := map[0 := 1]);
    assert Run(a) == va;
    RunSnoc(a, Notification);
    var vb := va.(clock := 2, notice := 2, fetchStart := 2, inFlight := 1);
    assert Run(a + [Notification]) == vb;
    RunSnoc(a + [Notification], Notification);
    var vc := vb.(clock := 3, notice := 3, queued := true);
    assert Run(a + [Notification] + [Notification]) == vc;
    RunSnoc(a + [Notification] + [Notification], LoopFailed({}));
    es := a + [Notification] + [Notification] + [LoopFailed({})];
    assert Run(es) == vc.(clock := 4, inFlight := 0, failed := true);
  }

  class BroadcasterState {
    var subscribers: set<Subscriber>
    var broadcastPromise: bool      // whether there is one
    var broadcastQueued: bool
    ghost var view: View

    ghost predicate Valid()
      reads this
    {
      && Inv(view) && subscribers == view.subscribers && broadcastQueued == view.queued
      && broadcastPromise == (view.inFlight > 0)
    }

    constructor ()
      ensures Valid() && view == Initially
    {
      subscribers, broadcastPromise, broadcastQueued, view := {}, false, false, Initially;
    }

    /** The notification handler: `broadcastLatestPayload` up to its first await. */
    method OnNotification()
      requires Valid()
      modifies this
      ensures Valid() && view == Next(old(view), Notification)
    {
      NextKeepsInv(view, Notification);
      view := Next(view, Notification);
      if broadcastPromise {
        broadcastQueued := true;
        return;
      }
      broadcastPromise := true;
      broadcastQueued := false;
    }

    /** The fetch resolves: every current subscriber is called, then the loop goes round again or ends. */
    method OnPayload()
      requires Valid() && broadcastPromise
      modifies this
      ensures Valid() && view == Next(old(view), FetchSucceeded)
    {
      NextKeepsInv(view, FetchSucceeded);
      view := Next(view, FetchSucceeded);
      if broadcastQueued {
        broadcastQueued := false;
      } else {
        broadcastPromise := false;
      }
    }

    /** The fetch rejects or a callback throws: only `.finally` runs. */
    method OnFailure(reached: set<Subscriber>)
      requires Valid() && broadcastPromise
      modifies this
      ensures Valid() && view == Next(old(view), LoopFailed(reached))
    {
      NextKeepsInv(view, LoopFailed(reached));
      view := Next(view, LoopFailed(reached));
      broadcastPromise := false;
    }

    method AddSubscriber(who: Subscriber)
      requires Valid()
      modifies this
      ensures Valid() && view == Next(old(view), Subscribe(who))
    {
      NextKeepsInv(view, Subscribe(who));
      view := Next(view, Subscribe(who));
      subscribers := subscribers + {who};
    }

    method RemoveSubscriber(who: Subscriber)
      requires Valid()
      modifies this
      ensures Valid() && view == Next(old(view), Unsubscribe(who))
    {
      NextKeepsInv(view, Unsubscribe(who));
      view := Next(view, Unsubscribe(who));
      subscribers := subscribers - {who};
    }
  }
}
