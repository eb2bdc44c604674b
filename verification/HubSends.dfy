/** The hub with every send on its own (internal/notifications/hub.go): publications hold only the read
    lock, so any number of them interleave their sends, with each other and with readers; who subscribes
    or unsubscribes waits until none is under way. */
module HubSends {
  import opened Models
  import opened Hub

  type Tid = nat

  /** A publication under way: the channels still to be offered the event, in order. */
  datatype Publication = Publication(targets: seq<ChanId>, event: Event)

  datatype Sys = Sys(hub: State, pubs: seq<Publication>)

  datatype Action =
    | Joins(user: UserId)
    | Leaves(user: UserId, chan: ChanId)
    | Begin(users: seq<UserId>, event: Event)
    | Send(tid: Tid)
    | Take(chan: ChanId)

  predicate Quiet(pubs: seq<Publication>) {
    forall p <- pubs :: p.targets == []
  }

  /** Nobody else can change the lists while the read lock is held, so they are those of the start. */
  function Targets(subs: Subs, users: seq<UserId>): seq<ChanId> {
    if users == [] then []
    else Targets(subs, users[..|users| - 1]) + Registered(subs, users[|users| - 1])
  }

  function Next(s: Sys, a: Action): Sys {
    match a
    case Joins(user) => if Quiet(s.pubs) then s.(hub := Subscribed(s.hub, user)) else s
    case Leaves(user, c) => if Quiet(s.pubs) then s.(hub := Unsubscribed(s.hub, user, c)) else s
    case Begin(users, ev) => s.(pubs := s.pubs + [Publication(Targets(s.hub.subs, users), ev)])
    case Send(t) =>
      if t < |s.pubs| && s.pubs[t].targets != [] then
        var p := s.pubs[t];
        Sys(Offered(s.hub, p.targets[0], p.event), s.pubs[t := p.(targets := p.targets[1..])])
      else s
    case Take(c) => s.(hub := Taken(s.hub, c))
  }

  function Schedule(s: Sys, actions: seq<Action>): Sys {
    if actions == [] then s
    else Next(Schedule(s, actions[..|actions| - 1]), actions[|actions| - 1])
  }

  const START: Sys := Sys(State(map[], [], []), [])

  // ---- what is owed and what is pending -----------------------------------------------------

  /** How often an event was published to a channel's owner while the channel was subscribed. */
  ghost function Owed(actions: seq<Action>, c: ChanId, ev: Event): nat {
    if actions == [] then 0
    else
      var before, last := actions[..|actions| - 1], actions[|actions| - 1];
      Owed(before, c, ev) + OwedNow(Schedule(START, before), last, c, ev)
  }

  ghost function OwedNow(s: Sys, a: Action, c: ChanId, ev: Event): nat {
    if a.Begin? && a.event == ev && c < |s.hub.chans| && s.hub.chans[c].open then Mentions(a.users, s.hub.chans[c].owner)
    else 0
  }

  /** Of those, how many the publications under way have yet to send. */
  ghost function Pending(pubs: seq<Publication>, c: ChanId, ev: Event): nat {
    if pubs == [] then 0
    else Pending(pubs[..|pubs| - 1], c, ev) + Left(pubs[|pubs| - 1], c, ev)
  }

  ghost function Left(p: Publication, c: ChanId, ev: Event): nat {
    if p.event == ev then Mentions(p.targets, c) else 0
  }

  ghost function OffersTo(s: State, c: ChanId): seq<Event> {
    if c < |s.history| then Events(s.history[c].offers) else []
  }

  /** A send finds its channel open: sending on a closed one would panic. */
  ghost predicate AllOpen(s: Sys) {
    forall t, i :: 0 <= t < |s.pubs| && 0 <= i < |s.pubs[t].targets| ==>
      s.pubs[t].targets[i] < |s.hub.chans| && s.hub.chans[s.pubs[t].targets[i]].open
  }

  /** However publications, readers and subscribers interleave: no send meets a closed channel, and a
      channel is offered exactly what is owed to it, but for the sends still to come. */
  lemma {:induction false} EveryScheduleDelivers(actions: seq<Action>)
    ensures var s := Schedule(START, actions);
            && Inv(s.hub) && AllOpen(s)
            && forall c: ChanId, ev: Event ::
                 Mentions(OffersTo(s.hub, c), ev) + Pending(s.pubs, c, ev) == Owed(actions, c, ev)
  {
    if actions != [] {
      var before, a := actions[..|actions| - 1], actions[|actions| - 1];
      EveryScheduleDelivers(before);
      var s := Schedule(START, before);
      NextKeepsOpen(s, a);
      forall c: ChanId, ev: Event
        ensures Mentions(OffersTo(Next(s, a).hub, c), ev) + Pending(Next(s, a).pubs, c, ev) == Owed(actions, c, ev)
      {
        NextDelivers(s, a, c, ev);
      }
    }
  }

  lemma NextKeepsOpen(s: Sys, a: Action)
    requires Inv(s.hub) && AllOpen(s)
    ensures Inv(Next(s, a).hub) && AllOpen(Next(s, a))
  {
    match a {
      case Joins(user) => SubscribedKeepsInv(s.hub, user);
      case Leaves(user, c) => UnsubscribedKeepsInv(s.hub, user, c);
      case Begin(users, _) => TargetsAreOpen(s.hub, users);
      case Send(t) =>
        if t < |s.pubs| && s.pubs[t].targets != [] {
          OfferedKeepsInv(s.hub, s.pubs[t].targets[0], s.pubs[t].event);
          OfferedKeepsOpen(s, t);
        }
      case Take(c) => TakenKeepsInv(s.hub, c);
    }
  }

  lemma OfferedKeepsOpen(s: Sys, t: Tid)
    requires Inv(s.hub) && AllOpen(s) && t < |s.pubs| && s.pubs[t].targets != []
    ensures AllOpen(Next(s, Send(t)))
  {
    var hub' := Next(s, Send(t)).hub;
    assert forall c :: 0 <= c < |s.hub.chans| ==> hub'.chans[c].open == s.hub.chans[c].open;
    forall u, i | 0 <= u < |s.pubs| && 0 <= i < |Next(s, Send(t)).pubs[u].targets|
      ensures Next(s, Send(t)).pubs[u].targets[i] in s.pubs[u].targets
    {
    }
  }

  lemma {:induction false} TargetsAreOpen(s: State, users: seq<UserId>)
    requires Inv(s)
    ensures forall i :: 0 <= i < |Targets(s.subs, users)| ==>
              Targets(s.subs, users)[i] < |s.chans| && s.chans[Targets(s.subs, users)[i]].open
  {
    if users != [] {
      TargetsAreOpen(s, users[..|users| - 1]);
      var list := Registered(s.subs, users[|users| - 1]);
      forall i | 0 <= i < |list|
        ensures list[i] < |s.chans| && s.chans[list[i]].open
      {
        RegisteredIsOpen(s, users[|users| - 1], i);
      }
    }
  }

  lemma NextDelivers(s: Sys, a: Action, c: ChanId, ev: Event)
    requires Inv(s.hub) && AllOpen(s)
    ensures Mentions(OffersTo(Next(s, a).hub, c), ev) + Pending(Next(s, a).pubs, c, ev)
         == Mentions(OffersTo(s.hub, c), ev) + Pending(s.pubs, c, ev) + OwedNow(s, a, c, ev)
  {
    match a {
      case Joins(user) => OthersOfferNothing(s.hub, user, c, c);
      case Leaves(user, chan) => OthersOfferNothing(s.hub, user, chan, c);
      case Begin(users, event) => BeginsPending(s, users, event, c, ev);
      case Send(t) => if t < |s.pubs| && s.pubs[t].targets != [] { SendDelivers(s, t, c, ev); }
      case Take(chan) => OthersOfferNothing(s.hub, 0, chan, c);
    }
  }

  lemma OthersOfferNothing(s: State, user: UserId, chan: ChanId, c: ChanId)
    ensures OffersTo(Subscribed(s, user), c) == OffersTo(s, c)
    ensures OffersTo(Unsubscribed(s, user, chan), c) == OffersTo(s, c)
    ensures OffersTo(Taken(s, chan), c) == OffersTo(s, c)
  {
    assert Events([]) == [];
  }

  lemma SendDelivers(s: Sys, t: Tid, c: ChanId, ev: Event)
    requires Inv(s.hub) && AllOpen(s) && t < |s.pubs| && s.pubs[t].targets != []
    ensures Mentions(OffersTo(Next(s, Send(t)).hub, c), ev) + Pending(Next(s, Send(t)).pubs, c, ev)
         == Mentions(OffersTo(s.hub, c), ev) + Pending(s.pubs, c, ev)
  {
    OneMoreOffer(s.hub, s.pubs[t].targets[0], s.pubs[t].event, c, ev);
    OneLessPending(s.pubs, t, c, ev);
  }

  lemma BeginsPending(s: Sys, users: seq<UserId>, event: Event, c: ChanId, ev: Event)
    requires Inv(s.hub)
    ensures Pending(Next(s, Begin(users, event)).pubs, c, ev)
         == Pending(s.pubs, c, ev) + OwedNow(s, Begin(users, event), c, ev)
  {
    var p := Publication(Targets(s.hub.subs, users), event);
    TargetsMention(s.hub, users, c);
    assert (s.pubs + [p])[..|s.pubs|] == s.pubs;
  }

  lemma OneMoreOffer(s: State, d: ChanId, event: Event, c: ChanId, ev: Event)
    requires Inv(s) && d < |s.chans|
    ensures Mentions(OffersTo(Offered(s, d, event), c), ev)
         == Mentions(OffersTo(s, c), ev) + if d == c && event == ev then 1 else 0
  {
    OfferedKeepsInv(s, d, event);
    assert (OffersTo(s, c) + [event])[..|OffersTo(s, c)|] == OffersTo(s, c);
  }

  lemma {:induction false} TargetsMention(s: State, users: seq<UserId>, c: ChanId)
    requires Inv(s)
    ensures Mentions(Targets(s.subs, users), c)
         == if c < |s.chans| && s.chans[c].open then Mentions(users, s.chans[c].owner) else 0
  {
    if users != [] {
      var n := |users| - 1;
      TargetsMention(s, users[..n], c);
      RegisteredMention(s, users[n], c);
      MentionsAdd(Targets(s.subs, users[..n]), Registered(s.subs, users[n]), c);
    }
  }

  lemma {:induction false} MentionsAdd<T>(a: seq<T>, b: seq<T>, x: T)
    ensures Mentions(a + b, x) == Mentions(a, x) + Mentions(b, x)
  {
    if b == [] {
      assert a + b == a;
    } else {
      var n := |b| - 1;
      MentionsAdd(a, b[..n], x);
      assert (a + b)[..|a + b| - 1] == a + b[..n];
    }
  }

  /** After a send its publication has one event less to deliver, to the channel it was sent to. */
  lemma {:induction false} OneLessPending(pubs: seq<Publication>, t: Tid, c: ChanId, ev: Event)
    requires t < |pubs| && pubs[t].targets != []
    ensures var p := pubs[t];
            Pending(pubs, c, ev) == Pending(pubs[t := p.(targets := p.targets[1..])], c, ev)
                                    + if p.targets[0] == c && p.event == ev then 1 else 0
  {
    var n, p := |pubs| - 1, pubs[t];
    var pubs' := pubs[t := p.(targets := p.targets[1..])];
    if t == n {
      assert pubs'[..n] == pubs[..n];
      FirstIsMentioned(p.targets, c);
    } else {
      OneLessPending(pubs[..n], t, c, ev);
      assert pubs'[..n] == pubs[..n][t := p.(targets := p.targets[1..])];
    }
  }

  lemma FirstIsMentioned(list: seq<ChanId>, c: ChanId)
    requires list != []
    ensures Mentions(list, c) == Mentions(list[1..], c) + if list[0] == c then 1 else 0
  {
    assert list == [list[0]] + list[1..];
    MentionsAdd([list[0]], list[1..], c);
    assert [list[0]][..0] == [];
  }

  // ---- what a subscriber sees ------------------------------------------------------------------

  lemma {:induction false} NothingPending(pubs: seq<Publication>, c: ChanId, ev: Event)
    requires Quiet(pubs)
    ensures Pending(pubs, c, ev) == 0
  {
    if pubs != [] {
      assert pubs[|pubs| - 1].targets == [];
      NothingPending(pubs[..|pubs| - 1], c, ev);
    }
  }

  /** Once no publication is under way a subscriber has been offered exactly the events published to it,
      in the order of the sends; and what it received and still has buffered is a subsequence of the
      offers, all of them if and only if no send met a full buffer. */
  lemma SubscriberSeesOffers(actions: seq<Action>, c: ChanId)
    requires c < |Schedule(START, actions).hub.chans|
    ensures var s := Schedule(START, actions);
            && c < |s.hub.history|
            && (Quiet(s.pubs) ==> forall ev: Event :: Mentions(OffersTo(s.hub, c), ev) == Owed(actions, c, ev))
            && var seen := s.hub.history[c].taken + s.hub.chans[c].buffer;
            && IsSubsequence(seen, OffersTo(s.hub, c))
            && (seen != OffersTo(s.hub, c) <==>
                  exists i :: 0 <= i < |s.hub.history[c].offers| && s.hub.history[c].offers[i].backlog == 16)
  {
    EveryScheduleDelivers(actions);
    var s := Schedule(START, actions);
    if Quiet(s.pubs) {
      forall ev: Event
        ensures Mentions(OffersTo(s.hub, c), ev) == Owed(actions, c, ev)
      {
        NothingPending(s.pubs, c, ev);
      }
    }
    assert Delivers(s.hub.chans[c], s.hub.history[c]);
    KeptIsSubsequence(s.hub.history[c].offers);
  }

  // ---- a publication that nobody overlaps --------------------------------------------------------

  function Sends(t: Tid, n: nat): seq<Action> {
    if n == 0 then [] else Sends(t, n - 1) + [Send(t)]
  }

  lemma {:induction false} SendsOffer(s: Sys, t: Tid, n: nat)
    requires t < |s.pubs| && n <= |s.pubs[t].targets|
    ensures var p := s.pubs[t];
            Schedule(s, Sends(t, n))
            == Sys(OfferedAll(s.hub, p.targets[..n], p.event), s.pubs[t := p.(targets := p.targets[n..])])
  {
    var p := s.pubs[t];
    if n == 0 {
      assert p.targets[0..] == p.targets && s.pubs[t := p] == s.pubs;
    } else {
      SendsOffer(s, t, n - 1);
      assert Sends(t, n)[..|Sends(t, n)| - 1] == Sends(t, n - 1);
      OneMoreSent(s, t, n);
    }
  }

  lemma OneMoreSent(s: Sys, t: Tid, n: nat)
    requires t < |s.pubs| && 0 < n <= |s.pubs[t].targets|
    ensures var p := s.pubs[t];
            Next(Sys(OfferedAll(s.hub, p.targets[..n - 1], p.event), s.pubs[t := p.(targets := p.targets[n - 1..])]), Send(t))
            == Sys(OfferedAll(s.hub, p.targets[..n], p.event), s.pubs[t := p.(targets := p.targets[n..])])
  {
    var p := s.pubs[t];
    assert p.targets[..n][..n - 1] == p.targets[..n - 1];
    assert p.targets[n - 1..][1..] == p.targets[n..];
  }

  lemma {:induction false} OfferedToAll(s: State, subs: Subs, users: seq<UserId>, ev: Event)
    requires subs == s.subs
    ensures OfferedAll(s, Targets(subs, users), ev) == Broadcast(s, users, ev)
  {
    if users != [] {
      var n := |users| - 1;
      OfferedToAll(s, subs, users[..n], ev);
      OfferedInParts(s, Targets(subs, users[..n]), Registered(subs, users[n]), ev);
    }
  }

  lemma {:induction false} OfferedInParts(s: State, first: seq<ChanId>, rest: seq<ChanId>, ev: Event)
    ensures OfferedAll(s, first + rest, ev) == OfferedAll(OfferedAll(s, first, ev), rest, ev)
  {
    if rest == [] {
      assert first + rest == first;
    } else {
      var n := |rest| - 1;
      OfferedInParts(s, first, rest[..n], ev);
      assert (first + rest)[..|first + rest| - 1] == first + rest[..n];
    }
  }

  /** Its sends, one after the other, are the one step of Publish. */
  lemma PublishIsItsSends(s: Sys, users: seq<UserId>, ev: Event)
    ensures var begun := Next(s, Begin(users, ev));
            Schedule(begun, Sends(|s.pubs|, |Targets(s.hub.subs, users)|)).hub == Broadcast(s.hub, users, ev)
  {
    var targets := Targets(s.hub.subs, users);
    SendsOffer(Next(s, Begin(users, ev)), |s.pubs|, |targets|);
    assert targets[..|targets|] == targets;
    OfferedToAll(s.hub, s.hub.subs, users, ev);
  }
}
