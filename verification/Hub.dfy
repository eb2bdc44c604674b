/** The notification hub: per-user lists of bounded channels (internal/notifications/hub.go), each
    call one step; HubSends takes publications, which share the lock, apart. */
module Hub {
  import opened Models
  import opened Legs

  type Event = nat
  // Channels are compared by identity: a channel is its place in the order of allocation.
  type ChanId = nat

  const CAPACITY: nat := 16

  datatype Chan = Chan(owner: UserId, open: bool, buffer: seq<Event>)

  /** One non-blocking send: what was sent, and how many events were buffered just before. */
  datatype Offer = Offer(event: Event, backlog: nat) {
    predicate Kept() { backlog < CAPACITY }
  }

  /** What a channel has seen: every send to it, and what its reader has taken out. */
  datatype History = History(offers: seq<Offer>, taken: seq<Event>)

  type Subs = map<UserId, seq<ChanId>>

  datatype State = State(subs: Subs, chans: seq<Chan>, history: seq<History>)

  function Registered(subs: Subs, user: UserId): seq<ChanId> {
    if user in subs then subs[user] else []
  }

  // ---- the operations -------------------------------------------------------------------

  function Subscribed(s: State, user: UserId): State {
    State(s.subs[user := Registered(s.subs, user) + [|s.chans|]], s.chans + [Chan(user, true, [])],
          s.history + [History([], [])])
  }

  function IndexOf(list: seq<ChanId>, c: ChanId): (i: nat)
    ensures i <= |list| && c !in list[..i] && (i < |list| ==> list[i] == c)
  {
    if list == [] then 0
    else
      var i := IndexOf(list[..|list| - 1], c);
      assert list == list[..|list| - 1] + [list[|list| - 1]];
      if i < |list| - 1 || list[|list| - 1] == c then i else |list|
  }

  /** The closure Subscribe returns: it is bound to one user and one channel. */
  function Unsubscribed(s: State, user: UserId, c: ChanId): State {
    var list := Registered(s.subs, user);
    var i := IndexOf(list, c);
    if i < |list| && c < |s.chans| then
      s.(subs := s.subs[user := list[..i] + list[i + 1..]], chans := s.chans[c := s.chans[c].(open := false)])
    else s
  }

  function Offered(s: State, c: ChanId, ev: Event): State {
    if c < |s.chans| && c < |s.history| then
      var ch := s.chans[c];
      var o := Offer(ev, |ch.buffer|);
      s.(chans := s.chans[c := ch.(buffer := if o.Kept() then ch.buffer + [ev] else ch.buffer)],
         history := s.history[c := s.history[c].(offers := s.history[c].offers + [o])])
    else s
  }

  function OfferedAll(s: State, list: seq<ChanId>, ev: Event): State {
    if list == [] then s else Offered(OfferedAll(s, list[..|list| - 1], ev), list[|list| - 1], ev)
  }

  function Broadcast(s: State, users: seq<UserId>, ev: Event): State {
    if users == [] then s
    else OfferedAll(Broadcast(s, users[..|users| - 1], ev), Registered(s.subs, users[|users| - 1]), ev)
  }

  /** A reader takes the oldest buffered event; a closed channel still gives up its buffer. */
  function Taken(s: State, c: ChanId): State {
    if c < |s.chans| && c < |s.history| && s.chans[c].buffer != [] then
      s.(chans := s.chans[c := s.chans[c].(buffer := s.chans[c].buffer[1..])],
         history := s.history[c := s.history[c].(taken := s.history[c].taken + [s.chans[c].buffer[0]])])
    else s
  }

  // ---- what every operation keeps --------------------------------------------------------

  function Events(offers: seq<Offer>): (es: seq<Event>)
    ensures |es| == |offers|
  {
    if offers == [] then [] else Events(offers[..|offers| - 1]) + [offers[|offers| - 1].event]
  }

  function KeptEvents(offers: seq<Offer>): seq<Event> {
    if offers == [] then []
    else KeptEvents(offers[..|offers| - 1]) + if offers[|offers| - 1].Kept() then [offers[|offers| - 1].event] else []
  }

  /** The registered channels are exactly the open ones, each once and under its owner. */
  ghost predicate Registry(subs: Subs, chans: seq<Chan>) {
    && (forall u :: u in subs ==> Distinct(subs[u]))
    && (forall u, i :: u in subs && 0 <= i < |subs[u]| ==>
          subs[u][i] < |chans| && chans[subs[u][i]].open && chans[subs[u][i]].owner == u)
    && (forall c :: 0 <= c < |chans| && chans[c].open ==> c in Registered(subs, chans[c].owner))
  }

  /** Nothing kept is lost or reordered, and nothing is dropped but at a full buffer. */
  ghost predicate Delivers(ch: Chan, h: History) {
    && KeptEvents(h.offers) == h.taken + ch.buffer
    && |ch.buffer| <= CAPACITY
    && forall i :: 0 <= i < |h.offers| ==> h.offers[i].backlog <= CAPACITY
  }

  ghost predicate Inv(s: State) {
    && |s.history| == |s.chans|
    && Registry(s.subs, s.chans)
    && forall c :: 0 <= c < |s.chans| ==> Delivers(s.chans[c], s.history[c])
  }

  lemma SubscribedKeepsInv(s: State, user: UserId)
    requires Inv(s)
    ensures Inv(Subscribed(s, user))
  {
    var list, s' := Registered(s.subs, user), Subscribed(s, user);
    assert forall i :: 0 <= i < |list| ==> list[i] < |s.chans|;
    forall c | 0 <= c < |s'.chans| && s'.chans[c].open
      ensures c in Registered(s'.subs, s'.chans[c].owner)
    {
      if c < |s.chans| {
        assert c in Registered(s.subs, s.chans[c].owner);
      } else {
        assert s'.subs[user][|list|] == c;
      }
    }
  }

  /** It removes exactly its own channel, keeps the others in order, and does nothing the second time. */
  lemma UnsubscribedRemovesOne(s: State, user: UserId, c: ChanId)
    requires Inv(s)
    ensures var s' := Unsubscribed(s, user, c);
            && Registered(s'.subs, user) == Without(Registered(s.subs, user), c)
            && (forall u :: u != user ==> Registered(s'.subs, u) == Registered(s.subs, u))
            && Unsubscribed(s', user, c) == s'
  {
    var list := Registered(s.subs, user);
    var i := IndexOf(list, c);
    if i < |list| {
      RegisteredIsOpen(s, user, i);
      WithoutAt(list, i);
      NoIndex(Without(list, c), c);
    } else {
      assert list[..|list|] == list;
      WithoutAbsent(list, c);
    }
  }

  lemma NoIndex(list: seq<ChanId>, c: ChanId)
    requires c !in list
    ensures IndexOf(list, c) == |list|
  {
  }

  lemma RegisteredIsOpen(s: State, user: UserId, i: nat)
    requires Inv(s) && i < |Registered(s.subs, user)|
    ensures user in s.subs && Distinct(s.subs[user])
    ensures var c := Registered(s.subs, user)[i]; c < |s.chans| && s.chans[c].open
  {
  }

  /** The elements of a list other than c, in order. */
  function Without(list: seq<ChanId>, c: ChanId): (rest: seq<ChanId>)
    ensures c !in rest
  {
    if list == [] then []
    else
      Without(list[..|list| - 1], c) + if list[|list| - 1] == c then [] else [list[|list| - 1]]
  }

  lemma {:induction false} WithoutAbsent(list: seq<ChanId>, c: ChanId)
    requires c !in list
    ensures Without(list, c) == list
  {
    if list != [] {
      WithoutAbsent(list[..|list| - 1], c);
      assert list == list[..|list| - 1] + [list[|list| - 1]];
    }
  }

  lemma {:induction false} WithoutAt(list: seq<ChanId>, i: nat)
    requires Distinct(list) && i < |list|
    ensures Without(list, list[i]) == list[..i] + list[i + 1..]
  {
    var n := |list| - 1;
    if i == n {
      WithoutAbsent(list[..n], list[n]);
    } else {
      WithoutAt(list[..n], i);
      assert list[..n][..i] == list[..i];
      assert list[..n][i + 1..] + [list[n]] == list[i + 1..];
    }
  }

  lemma UnsubscribedKeepsInv(s: State, user: UserId, c: ChanId)
    requires Inv(s)
    ensures Inv(Unsubscribed(s, user, c))
  {
    var list := Registered(s.subs, user);
    var i := IndexOf(list, c);
    if i < |list| && c < |s.chans| {
      SplicedRegistry(s.subs, s.chans, user, i);
    }
  }

  lemma Spliced(list: seq<ChanId>, i: nat)
    requires Distinct(list) && i < |list|
    ensures Distinct(list[..i] + list[i + 1..])
    ensures forall x :: x in list[..i] + list[i + 1..] <==> x in list && x != list[i]
  {
    var rest := list[..i] + list[i + 1..];
    assert forall j :: 0 <= j < |rest| ==> rest[j] == list[if j < i then j else j + 1];
    forall x | x in list && x != list[i]
      ensures x in rest
    {
      var j :| 0 <= j < |list| && list[j] == x;
      assert rest[if j < i then j else j - 1] == x;
    }
  }

  lemma SplicedRegistry(subs: Subs, chans: seq<Chan>, user: UserId, i: nat)
    requires Registry(subs, chans) && user in subs && i < |subs[user]|
    ensures var c := subs[user][i];
            Registry(subs[user := subs[user][..i] + subs[user][i + 1..]], chans[c := chans[c].(open := false)])
  {
    var list := subs[user];
    var c, rest := list[i], list[..i] + list[i + 1..];
    var subs', chans' := subs[user := rest], chans[c := chans[c].(open := false)];
    Spliced(list, i);
    forall u, j | u in subs' && 0 <= j < |subs'[u]|
      ensures subs'[u][j] < |chans'| && chans'[subs'[u][j]].open && chans'[subs'[u][j]].owner == u
    {
      assert subs'[u][j] in subs[u];
      var k :| 0 <= k < |subs[u]| && subs[u][k] == subs'[u][j];
      assert chans[subs[u][k]].owner == u;
    }
    forall d | 0 <= d < |chans'| && chans'[d].open
      ensures d in Registered(subs', chans'[d].owner)
    {
      assert d in Registered(subs, chans[d].owner);
    }
  }

  lemma OfferedKeepsInv(s: State, c: ChanId, ev: Event)
    requires Inv(s) && c < |s.chans|
    ensures Inv(Offered(s, c, ev))
    ensures Offered(s, c, ev).subs == s.subs && |Offered(s, c, ev).chans| == |s.chans|
    ensures Events(Offered(s, c, ev).history[c].offers) == Events(s.history[c].offers) + [ev]
    ensures forall d :: 0 <= d < |s.chans| ==> Offered(s, c, ev).chans[d].(buffer := []) == s.chans[d].(buffer := [])
    ensures forall d :: 0 <= d < |s.chans| && d != c ==> Offered(s, c, ev).history[d] == s.history[d]
  {
    var offers, o := s.history[c].offers, Offer(ev, |s.chans[c].buffer|);
    assert (offers + [o])[..|offers|] == offers;
    assert Delivers(s.chans[c], s.history[c]);
  }

  lemma TakenKeepsInv(s: State, c: ChanId)
    requires Inv(s)
    ensures Inv(Taken(s, c))
  {
    if c < |s.chans| && s.chans[c].buffer != [] {
      var b := s.chans[c].buffer;
      assert Delivers(s.chans[c], s.history[c]);
      assert b == [b[0]] + b[1..];
    }
  }

  // ---- publishing to many -----------------------------------------------------------------

  function Repeat(ev: Event, n: nat): seq<Event> {
    if n == 0 then [] else Repeat(ev, n - 1) + [ev]
  }

  lemma {:induction false} RepeatAdds(ev: Event, m: nat, n: nat)
    ensures Repeat(ev, m + n) == Repeat(ev, m) + Repeat(ev, n)
  {
    if n > 0 {
      RepeatAdds(ev, m, n - 1);
    }
  }

  ghost function Mentions<T>(list: seq<T>, x: T): nat {
    if list == [] then 0 else Mentions(list[..|list| - 1], x) + if list[|list| - 1] == x then 1 else 0
  }

  lemma {:induction false} MentionedOnce(list: seq<ChanId>, c: ChanId)
    requires Distinct(list)
    ensures Mentions(list, c) == if c in list then 1 else 0
  {
    if list != [] {
      var n := |list| - 1;
      MentionedOnce(list[..n], c);
      assert list == list[..n] + [list[n]];
    }
  }

  /** From s to s' only sends happened; to channel c, these. */
  ghost predicate OnlySends(s: State, s': State, c: ChanId, sent: seq<Event>) {
    && Inv(s')
    && s'.subs == s.subs && |s'.chans| == |s.chans|
    && (forall d :: 0 <= d < |s.chans| ==> s'.chans[d].(buffer := []) == s.chans[d].(buffer := []))
    && (c < |s.chans| && c < |s.history| ==> Events(s'.history[c].offers) == Events(s.history[c].offers) + sent)
  }

  lemma {:induction false} OfferedAllSends(s: State, list: seq<ChanId>, ev: Event, c: ChanId)
    requires Inv(s) && forall i :: 0 <= i < |list| ==> list[i] < |s.chans|
    ensures OnlySends(s, OfferedAll(s, list, ev), c, Repeat(ev, Mentions(list, c)))
  {
    if list != [] {
      var n := |list| - 1;
      OfferedAllSends(s, list[..n], ev, c);
      OfferedKeepsInv(OfferedAll(s, list[..n], ev), list[n], ev);
    }
  }

  lemma SendsAddUp(s: State, s1: State, s2: State, c: ChanId, first: seq<Event>, rest: seq<Event>)
    requires |s.chans| == |s.history| && OnlySends(s, s1, c, first) && OnlySends(s1, s2, c, rest)
    ensures OnlySends(s, s2, c, first + rest)
  {
    if c < |s.chans| {
      assert Events(s.history[c].offers) + first + rest == Events(s.history[c].offers) + (first + rest);
    }
  }

  /** A user's list mentions a channel once if it is open and the user's, otherwise not at all. */
  lemma RegisteredMention(s: State, user: UserId, c: ChanId)
    requires Inv(s)
    ensures Mentions(Registered(s.subs, user), c)
         == if c < |s.chans| && s.chans[c].open && s.chans[c].owner == user then 1 else 0
  {
    var list := Registered(s.subs, user);
    if user in s.subs {
      MentionedOnce(list, c);
      if c in list {
        var i :| 0 <= i < |list| && list[i] == c;
        assert s.chans[s.subs[user][i]].owner == user;
      }
    }
  }

  /** Every open channel of a listed user is offered the event, once per mention of the user, and no
      other channel is. */
  lemma {:induction false} BroadcastSends(s: State, users: seq<UserId>, ev: Event, c: ChanId)
    requires Inv(s)
    ensures OnlySends(s, Broadcast(s, users, ev), c, DueNow(s.chans, users, ev, c))
  {
    if users != [] {
      var n := |users| - 1;
      BroadcastSends(s, users[..n], ev, c);
      var before, list := Broadcast(s, users[..n], ev), Registered(s.subs, users[n]);
      OfferedAllSends(before, list, ev, c);
      RegisteredMention(s, users[n], c);
      SendsAddUp(s, before, Broadcast(s, users, ev), c, DueNow(s.chans, users[..n], ev, c), Repeat(ev, Mentions(list, c)));
      if c < |s.chans| && s.chans[c].open {
        RepeatAdds(ev, Mentions(users[..n], s.chans[c].owner), Mentions(list, c));
      }
    }
  }

  /** What one publication owes to a channel. */
  ghost function DueNow(chans: seq<Chan>, users: seq<UserId>, ev: Event, c: ChanId): seq<Event> {
    if c < |chans| && chans[c].open then Repeat(ev, Mentions(users, chans[c].owner)) else []
  }

  // ---- runs ----------------------------------------------------------------------------------

  datatype Step =
    | Subscribe(user: UserId)
    | Unsubscribe(user: UserId, chan: ChanId)
    | Publish(users: seq<UserId>, event: Event)
    | Take(chan: ChanId)

  function Do(s: State, step: Step): State {
    match step
    case Subscribe(user) => Subscribed(s, user)
    case Unsubscribe(user, c) => Unsubscribed(s, user, c)
    case Publish(users, ev) => Broadcast(s, users, ev)
    case Take(c) => Taken(s, c)
  }

  function Run(steps: seq<Step>): State {
    if steps == [] then State(map[], [], []) else Do(Run(steps[..|steps| - 1]), steps[|steps| - 1])
  }

  /** The events published to a channel's owner between its subscription and its unsubscription. */
  ghost function Due(steps: seq<Step>, c: ChanId): seq<Event> {
    if steps == [] then []
    else
      var before, last := steps[..|steps| - 1], steps[|steps| - 1];
      if last.Publish? then Due(before, c) + DueNow(Run(before).chans, last.users, last.event, c)
      else Due(before, c)
  }

  /** Registered channels are the open ones, each once; and a channel is offered precisely what is
      due to it, in order. */
  lemma {:induction false} EveryRunDelivers(steps: seq<Step>)
    ensures var s := Run(steps);
            && Inv(s)
            && (forall c :: 0 <= c < |s.chans| ==> Events(s.history[c].offers) == Due(steps, c))
            && (forall c: nat :: c >= |s.chans| ==> Due(steps, c) == [])
  {
    if steps != [] {
      var before, last := steps[..|steps| - 1], steps[|steps| - 1];
      EveryRunDelivers(before);
      var s, s' := Run(before), Run(steps);
      match last {
        case Subscribe(user) => SubscribedKeepsInv(s, user);
        case Unsubscribe(user, c) => UnsubscribedKeepsInv(s, user, c);
        case Take(c) => TakenKeepsInv(s, c);
        case Publish(users, ev) =>
          BroadcastSends(s, users, ev, 0);
          forall c | 0 <= c < |s'.chans|
            ensures Events(s'.history[c].offers) == Due(steps, c)
          {
            BroadcastSends(s, users, ev, c);
          }
      }
    }
  }

  ghost predicate IsSubsequence(a: seq<Event>, b: seq<Event>) {
    if a == [] then true
    else if b == [] then false
    else
      || (a[|a| - 1] == b[|b| - 1] && IsSubsequence(a[..|a| - 1], b[..|b| - 1]))
      || IsSubsequence(a, b[..|b| - 1])
  }

  lemma {:induction false} KeptIsSubsequence(offers: seq<Offer>)
    ensures IsSubsequence(KeptEvents(offers), Events(offers))
    ensures |KeptEvents(offers)| <= |offers|
    ensures KeptEvents(offers) == Events(offers) <==> forall i :: 0 <= i < |offers| ==> offers[i].Kept()
  {
    if offers != [] {
      var n := |offers| - 1;
      KeptIsSubsequence(offers[..n]);
      var kept, all := KeptEvents(offers[..n]), Events(offers[..n]);
      assert (kept + [offers[n].event])[..|kept|] == kept;
      assert (all + [offers[n].event])[..|all|] == all;
      assert kept + [] == kept;
      assert forall i :: 0 <= i < n ==> offers[..n][i] == offers[i];
    }
  }

  /** What a subscriber has received and still has buffered is, in order, a subsequence of what was
      published to its user since it subscribed; all of it if and only if no send met a full buffer. */
  lemma SubscriberSeesSubsequence(steps: seq<Step>, c: ChanId)
    requires c < |Run(steps).chans|
    ensures var s := Run(steps);
            && c < |s.history|
            && IsSubsequence(s.history[c].taken + s.chans[c].buffer, Due(steps, c))
            && (s.history[c].taken + s.chans[c].buffer != Due(steps, c) <==>
                  exists i :: 0 <= i < |s.history[c].offers| && s.history[c].offers[i].backlog == 16)
  {
    EveryRunDelivers(steps);
    var s := Run(steps);
    assert Delivers(s.chans[c], s.history[c]);
    KeptIsSubsequence(s.history[c].offers);
  }

  // ---- the hub -----------------------------------------------------------------------------------

  class Hub {
    var subs: Subs
    var chans: seq<Chan>
    ghost var history: seq<History>

    ghost function View(): State
      reads this
    {
      State(subs, chans, history)
    }

    ghost predicate Valid()
      reads this
    {
      Inv(View())
    }

    constructor ()
      ensures Valid() && View() == State(map[], [], [])
    {
      subs, chans, history := map[], [], [];
    }

    method Subscribe(user: UserId) returns (ch: ChanId)
      requires Valid()
      modifies this
      ensures Valid() && View() == Subscribed(old(View()), user)
      ensures ch == |old(chans)| && Registered(subs, user) == Registered(old(subs), user) + [ch]
    {
      SubscribedKeepsInv(View(), user);
      ch := |chans|;
      chans := chans + [Chan(user, true, [])];
      history := history + [History([], [])];
      subs := subs[user := Registered(subs, user) + [ch]];
    }

    method Unsubscribe(user: UserId, ch: ChanId)
      requires Valid()
      modifies this
      ensures Valid() && View() == Unsubscribed(old(View()), user, ch)
    {
      ghost var s := View();
      UnsubscribedKeepsInv(s, user, ch);
      var list := Registered(subs, user);
      for i := 0 to |list|
        invariant View() == s
        invariant ch !in list[..i]
      {
        if list[i] == ch {
          RegisteredIsOpen(s, user, i);
          UnsubscribedAt(s, user, ch, i);
          subs := subs[user := list[..i] + list[i + 1..]];
          Close(ch);
          return;
        }
        assert list[..i + 1] == list[..i] + [list[i]];
      }
      assert list[..|list|] == list;
      assert IndexOf(list, ch) == |list|;
    }

    static lemma UnsubscribedAt(s: State, user: UserId, c: ChanId, i: nat)
      requires i < |Registered(s.subs, user)| && Registered(s.subs, user)[i] == c && c < |s.chans|
      requires c !in Registered(s.subs, user)[..i]
      ensures var list := Registered(s.subs, user);
              Unsubscribed(s, user, c)
              == s.(subs := s.subs[user := list[..i] + list[i + 1..]], chans := s.chans[c := s.chans[c].(open := false)])
    {
      FirstIndex(Registered(s.subs, user), c, i);
    }

    static lemma FirstIndex(list: seq<ChanId>, c: ChanId, i: nat)
      requires i < |list| && list[i] == c && c !in list[..i]
      ensures IndexOf(list, c) == i
    {
      var j := IndexOf(list, c);
      forall m | 0 <= m < i
        ensures list[m] != c
      {
        assert list[m] in list[..i];
      }
      forall m | 0 <= m < j
        ensures list[m] != c
      {
        assert list[m] in list[..j];
      }
    }

    /** Closing a channel twice would panic. */
    method Close(ch: ChanId)
      requires ch < |chans| && chans[ch].open
      modifies this`chans
      ensures chans == old(chans)[ch := old(chans)[ch].(open := false)]
    {
      chans := chans[ch := chans[ch].(open := false)];
    }

    /** A non-blocking send; on a closed channel it would panic. */
    method Send(ch: ChanId, ev: Event)
      requires ch < |chans| == |history| && chans[ch].open
      modifies this`chans, this`history
      ensures View() == Offered(old(View()), ch, ev)
    {
      var c := chans[ch];
      history := history[ch := history[ch].(offers := history[ch].offers + [Offer(ev, |c.buffer|)])];
      if |c.buffer| < CAPACITY {
        chans := chans[ch := c.(buffer := c.buffer + [ev])];
      }
      assert View().chans == Offered(old(View()), ch, ev).chans;
    }

    method Publish(userIDs: seq<UserId>, ev: Event)
      requires Valid()
      modifies this`chans, this`history
      ensures Valid() && View() == Broadcast(old(View()), userIDs, ev)
    {
      ghost var s := View();
      for i := 0 to |userIDs|
        invariant View() == Broadcast(s, userIDs[..i], ev)
      {
        BroadcastKeepsInv(s, userIDs[..i], ev);
        ghost var before := View();
        var list := Registered(subs, userIDs[i]);
        for j := 0 to |list|
          invariant View() == OfferedAll(before, list[..j], ev)
        {
          SendIsNext(before, userIDs[i], j, ev);
          Send(list[j], ev);
        }
        assert list[..|list|] == list;
        assert userIDs[..i + 1][..i] == userIDs[..i];
      }
      assert userIDs[..|userIDs|] == userIDs;
      BroadcastKeepsInv(s, userIDs, ev);
    }

    static lemma BroadcastKeepsInv(s: State, users: seq<UserId>, ev: Event)
      requires Inv(s)
      ensures Inv(Broadcast(s, users, ev)) && Broadcast(s, users, ev).subs == s.subs
    {
      BroadcastSends(s, users, ev, 0);
    }

    /** In the middle of a list the next channel is open: its owner is still subscribed. */
    static lemma SendIsNext(s: State, user: UserId, j: nat, ev: Event)
      requires Inv(s) && j < |Registered(s.subs, user)|
      ensures var list := Registered(s.subs, user);
              var now := OfferedAll(s, list[..j], ev);
              && list[j] < |now.chans| == |now.history| && now.chans[list[j]].open
              && Offered(now, list[j], ev) == OfferedAll(s, list[..j + 1], ev)
    {
      var list := Registered(s.subs, user);
      OfferedAllSends(s, list[..j], ev, 0);
      assert list[..j + 1][..j] == list[..j];
      assert OfferedAll(s, list[..j], ev).chans[list[j]].(buffer := []) == s.chans[list[j]].(buffer := []);
    }

    method Receive(ch: ChanId) returns (ev: Option<Event>)
      requires Valid()
      modifies this`chans, this`history
      ensures Valid() && View() == Taken(old(View()), ch)
      ensures ev == if ch < |old(chans)| && old(chans)[ch].buffer != [] then Some(old(chans)[ch].buffer[0]) else None
    {
      TakenKeepsInv(View(), ch);
      if ch >= |chans| || chans[ch].buffer == [] {
        return None;
      }
      ev := Some(chans[ch].buffer[0]);
      history := history[ch := history[ch].(taken := history[ch].taken + [chans[ch].buffer[0]])];
      chans := chans[ch := chans[ch].(buffer := chans[ch].buffer[1..])];
    }

    method Count(user: UserId) returns (n: nat)
      requires Valid()
      ensures n == |set c | 0 <= c < |chans| && chans[c].open && chans[c].owner == user|
    {
      CountsOpen(subs, chans, user);
      n := |Registered(subs, user)|;
    }

    static lemma CountsOpen(subs: Subs, chans: seq<Chan>, user: UserId)
      requires Registry(subs, chans)
      ensures |Registered(subs, user)| == |set c | 0 <= c < |chans| && chans[c].open && chans[c].owner == user|
    {
      var list := Registered(subs, user);
      assert (set c | 0 <= c < |chans| && chans[c].open && chans[c].owner == user) == Elements(list);
    }

    static ghost function Elements(list: seq<ChanId>): (cs: set<ChanId>)
      ensures forall c :: c in cs <==> c in list
      ensures Distinct(list) ==> |cs| == |list|
    {
      if list == [] then {}
      else
        assert list == list[..|list| - 1] + [list[|list| - 1]];
        Elements(list[..|list| - 1]) + {list[|list| - 1]}
    }
  }
}
