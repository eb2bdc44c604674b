/** The dashboard's route fetches: two at a time, a FIFO queue for the rest, one request per pair of
    places, results cached (dashboard/src/api/routing.ts). Code between two awaits is one step. */
module RouteScheduler {
  import opened Models

  datatype Location = Location(latitude: real, longitude: real)

  // A route, or none when it cannot be determined.
  type Route = Option<nat>

  type Key = (Location, Location)
  type RequestId = nat

  const MAX_CONCURRENT: nat := 2

  /** The life of a request: queued for a slot, holding one, settled with a result, and that result
      put in the cache. */
  datatype Phase = Waiting | Running | Settled(result: Route) | Cached(result: Route) {
    predicate Unfinished() { Waiting? || Running? }
  }

  datatype Request = Request(key: Key, phase: Phase)

  datatype State = State(
    active: int,
    queue: seq<RequestId>,
    cache: map<Key, Route>,
    inflight: map<Key, RequestId>,
    requests: seq<Request>)

  /** What a caller gets: a value at once, or the promise of a request. */
  datatype Answer = Now(route: Route) | Promise(request: RequestId)

  function Abs(x: real): real {
    if x < 0.0 then -x else x
  }

  predicate IsSamePlace(from: Location, to: Location) {
    Abs(from.latitude - to.latitude) < 0.0001 && Abs(from.longitude - to.longitude) < 0.0001
  }

  // ---- the steps ------------------------------------------------------------------------

  /** Starting a request runs it as far as its first await: to a slot, or into the queue. */
  function Started(s: State, k: Key): State {
    var r := |s.requests|;
    var t := s.(inflight := s.inflight[k := r]);
    if s.active < MAX_CONCURRENT then t.(active := s.active + 1, requests := s.requests + [Request(k, Running)])
    else t.(queue := s.queue + [r], requests := s.requests + [Request(k, Waiting)])
  }

  function AnswerTo(s: State, from: Location, to: Location): Answer {
    var k := (from, to);
    if IsSamePlace(from, to) then Now(None)
    else if k in s.cache then Now(s.cache[k])
    else if k in s.inflight then Promise(s.inflight[k])
    else Promise(|s.requests|)
  }

  function Fetched(s: State, from: Location, to: Location): State {
    var k := (from, to);
    if IsSamePlace(from, to) || k in s.cache || k in s.inflight then s else Started(s, k)
  }

  predicate HoldsSlot(s: State, r: RequestId) {
    r < |s.requests| && s.requests[r].phase == Running
  }

  function SetPhase(requests: seq<Request>, r: RequestId, phase: Phase): seq<Request> {
    if r < |requests| then requests[r := requests[r].(phase := phase)] else requests
  }

  /** The fetch of a request ends, well or badly: its slot goes to the first waiter, if any. */
  function Finished(s: State, r: RequestId, result: Route): State {
    if !HoldsSlot(s, r) then s
    else
      var settled := SetPhase(s.requests, r, Settled(result));
      var t := s.(inflight := s.inflight - {s.requests[r].key});
      if s.queue == [] then t.(active := s.active - 1, requests := settled)
      else t.(queue := s.queue[1..], requests := SetPhase(settled, s.queue[0], Running))
  }

  /** The `then` of a settled request. */
  function Remembered(s: State, r: RequestId): State {
    if r < |s.requests| && s.requests[r].phase.Settled? then
      var result := s.requests[r].phase.result;
      s.(cache := s.cache[s.requests[r].key := result], requests := SetPhase(s.requests, r, Cached(result)))
    else s
  }

  datatype Step =
    | Fetch(from: Location, to: Location)
    | Finish(request: RequestId, result: Route)
    | Remember(request: RequestId)

  function Do(s: State, step: Step): State {
    match step
    case Fetch(from, to) => Fetched(s, from, to)
    case Finish(r, result) => Finished(s, r, result)
    case Remember(r) => Remembered(s, r)
  }

  function Run(s: State, steps: seq<Step>): State {
    if steps == [] then s else Do(Run(s, steps[..|steps| - 1]), steps[|steps| - 1])
  }

  const IDLE: State := State(0, [], map[], map[], [])

  // ---- what every step keeps -----------------------------------------------------------------

  ghost function Slots(requests: seq<Request>): nat {
    if requests == [] then 0
    else Slots(requests[..|requests| - 1]) + if requests[|requests| - 1].phase == Running then 1 else 0
  }

  lemma {:induction false} PhaseChangesSlots(requests: seq<Request>, r: RequestId, phase: Phase)
    requires r < |requests|
    ensures Slots(SetPhase(requests, r, phase))
         == Slots(requests) - (if requests[r].phase == Running then 1 else 0) + if phase == Running then 1 else 0
  {
    var n := |requests| - 1;
    if r == n {
      assert SetPhase(requests, r, phase)[..n] == requests[..n];
    } else {
      PhaseChangesSlots(requests[..n], r, phase);
      assert SetPhase(requests, r, phase)[..n] == SetPhase(requests[..n], r, phase);
    }
  }

  lemma RequestAdded(requests: seq<Request>, q: Request)
    ensures Slots(requests + [q]) == Slots(requests) + if q.phase == Running then 1 else 0
  {
    assert (requests + [q])[..|requests|] == requests;
  }

  /** The counter tells the truth, and nobody waits while a slot is free. */
  ghost predicate SlotsOk(active: int, queue: seq<RequestId>, requests: seq<Request>) {
    && active == Slots(requests)
    && active <= MAX_CONCURRENT
    && (queue != [] ==> active == MAX_CONCURRENT)
  }

  /** The queue is the waiting requests, in order of arrival. */
  ghost predicate QueueOk(queue: seq<RequestId>, requests: seq<Request>) {
    && OnlyWaiters(queue, requests)
    && (forall i, j :: 0 <= i < j < |queue| ==> queue[i] < queue[j])
    && EveryWaiter(queue, requests)
  }

  ghost predicate OnlyWaiters(queue: seq<RequestId>, requests: seq<Request>) {
    forall i :: 0 <= i < |queue| ==> queue[i] < |requests| && requests[queue[i]].phase == Waiting
  }

  ghost predicate EveryWaiter(queue: seq<RequestId>, requests: seq<Request>) {
    forall r :: 0 <= r < |requests| && requests[r].phase == Waiting ==> r in queue
  }

  /** The table of requests in flight is the unfinished ones, one per key. */
  ghost predicate InflightOk(inflight: map<Key, RequestId>, requests: seq<Request>) {
    && (forall k :: k in inflight ==>
          && inflight[k] < |requests|
          && requests[inflight[k]].key == k && requests[inflight[k]].phase.Unfinished())
    && (forall r :: 0 <= r < |requests| && requests[r].phase.Unfinished() ==>
          requests[r].key in inflight && inflight[requests[r].key] == r)
  }

  ghost predicate CacheOk(cache: map<Key, Route>, requests: seq<Request>) {
    forall k :: k in cache ==> FoundOut(requests, k, cache[k])
  }

  ghost predicate FoundOut(requests: seq<Request>, k: Key, route: Route) {
    exists r :: 0 <= r < |requests| && requests[r] == Request(k, Cached(route))
  }

  ghost predicate Inv(s: State) {
    && SlotsOk(s.active, s.queue, s.requests)
    && QueueOk(s.queue, s.requests)
    && InflightOk(s.inflight, s.requests)
    && CacheOk(s.cache, s.requests)
  }

  /** At all times: `active` is the number of requests holding a slot and at most two; a waiter means
      both slots are taken; the queue is in order of arrival; `inflight` is the unfinished requests,
      one per key; every cached value came from a finished request for its key. */
  lemma EveryRunIsFair(steps: seq<Step>)
    ensures Inv(Run(IDLE, steps))
  {
    RunKeepsInv(IDLE, steps);
  }

  lemma StepKeepsInv(s: State, step: Step)
    requires Inv(s)
    ensures Inv(Do(s, step))
  {
    match step {
      case Fetch(from, to) => FetchedKeepsInv(s, from, to);
      case Finish(r, result) => FinishedKeepsInv(s, r, result);
      case Remember(r) => RememberedKeepsInv(s, r);
    }
  }

  lemma {:induction false} RunKeepsInv(s: State, steps: seq<Step>)
    requires Inv(s)
    ensures Inv(Run(s, steps))
  {
    if steps != [] {
      RunKeepsInv(s, steps[..|steps| - 1]);
      StepKeepsInv(Run(s, steps[..|steps| - 1]), steps[|steps| - 1]);
    }
  }

  lemma FetchedKeepsInv(s: State, from: Location, to: Location)
    requires Inv(s)
    ensures Inv(Fetched(s, from, to))
  {
    if Fetched(s, from, to) != s {
      StartedKeepsInv(s, (from, to));
    }
  }

  lemma StartedKeepsInv(s: State, k: Key)
    requires Inv(s) && k !in s.inflight
    ensures Inv(Started(s, k))
  {
    var q := Request(k, if s.active < MAX_CONCURRENT then Running else Waiting);
    RequestAdded(s.requests, q);
    InflightGrows(s.inflight, s.requests, q);
    CacheSurvives(s.cache, s.requests, s.requests + [q]);
    QueueGrows(s.queue, s.requests, q);
  }

  lemma QueueGrows(queue: seq<RequestId>, requests: seq<Request>, q: Request)
    requires QueueOk(queue, requests)
    ensures QueueOk(if q.phase == Waiting then queue + [|requests|] else queue, requests + [q])
  {
    WaiterAdded(queue, requests, q);
  }

  lemma WaiterAdded(queue: seq<RequestId>, requests: seq<Request>, q: Request)
    requires EveryWaiter(queue, requests)
    ensures EveryWaiter(if q.phase == Waiting then queue + [|requests|] else queue, requests + [q])
  {
    forall r | 0 <= r < |requests + [q]| && (requests + [q])[r].phase == Waiting
      ensures r in if q.phase == Waiting then queue + [|requests|] else queue
    {
      assert r < |requests| ==> requests[r].phase == Waiting;
    }
  }

  lemma InflightGrows(inflight: map<Key, RequestId>, requests: seq<Request>, q: Request)
    requires InflightOk(inflight, requests) && q.key !in inflight && q.phase.Unfinished()
    ensures InflightOk(inflight[q.key := |requests|], requests + [q])
  {
  }

  lemma CacheSurvives(cache: map<Key, Route>, requests: seq<Request>, requests': seq<Request>)
    requires CacheOk(cache, requests) && |requests| <= |requests'|
    requires forall r :: 0 <= r < |requests| && requests[r].phase.Cached? ==> requests'[r] == requests[r]
    ensures CacheOk(cache, requests')
  {
    forall k | k in cache
      ensures FoundOut(requests', k, cache[k])
    {
      assert FoundOut(requests, k, cache[k]);
      var r :| 0 <= r < |requests| && requests[r] == Request(k, Cached(cache[k]));
      assert requests'[r] == requests[r];
    }
  }

  lemma FinishedKeepsInv(s: State, r: RequestId, result: Route)
    requires Inv(s)
    ensures Inv(Finished(s, r, result))
  {
    if HoldsSlot(s, r) {
      var settled := SetPhase(s.requests, r, Settled(result));
      SettledKeeps(s.inflight, s.cache, s.requests, r, result);
      PhaseChangesSlots(s.requests, r, Settled(result));
      assert QueueOk(s.queue, settled);
      if s.queue != [] {
        HeadRuns(s.queue, s.inflight - {s.requests[r].key}, s.cache, settled);
      }
    }
  }

  /** One request gives up its slot ... */
  lemma SettledKeeps(inflight: map<Key, RequestId>, cache: map<Key, Route>, requests: seq<Request>, r: RequestId,
                     result: Route)
    requires r < |requests| && requests[r].phase == Running
    requires InflightOk(inflight, requests) && CacheOk(cache, requests)
    ensures var settled := SetPhase(requests, r, Settled(result));
            InflightOk(inflight - {requests[r].key}, settled) && CacheOk(cache, settled)
  {
    CacheSurvives(cache, requests, SetPhase(requests, r, Settled(result)));
  }

  /** ... and the head of the queue takes it. */
  lemma HeadRuns(queue: seq<RequestId>, inflight: map<Key, RequestId>, cache: map<Key, Route>, requests: seq<Request>)
    requires queue != [] && QueueOk(queue, requests) && InflightOk(inflight, requests) && CacheOk(cache, requests)
    ensures var requests' := SetPhase(requests, queue[0], Running);
            && Slots(requests') == Slots(requests) + 1
            && QueueOk(queue[1..], requests') && InflightOk(inflight, requests') && CacheOk(cache, requests')
  {
    PhaseChangesSlots(requests, queue[0], Running);
    CacheSurvives(cache, requests, SetPhase(requests, queue[0], Running));
    HeadIsInflight(queue, inflight, requests);
    HeadLeaves(queue, requests);
  }

  lemma HeadIsInflight(queue: seq<RequestId>, inflight: map<Key, RequestId>, requests: seq<Request>)
    requires queue != [] && OnlyWaiters(queue, requests) && InflightOk(inflight, requests)
    ensures InflightOk(inflight, SetPhase(requests, queue[0], Running))
  {
  }

  lemma HeadLeaves(queue: seq<RequestId>, requests: seq<Request>)
    requires queue != [] && queue[0] < |requests| && EveryWaiter(queue, requests)
    ensures EveryWaiter(queue[1..], SetPhase(requests, queue[0], Running))
  {
    assert queue == [queue[0]] + queue[1..];
  }

  lemma RememberedKeepsInv(s: State, r: RequestId)
    requires Inv(s)
    ensures Inv(Remembered(s, r))
  {
    var s' := Remembered(s, r);
    if s' != s {
      PhaseChangesSlots(s.requests, r, s'.requests[r].phase);
      var k := s.requests[r].key;
      CacheSurvives(s.cache, s.requests, s'.requests);
      assert s'.requests[r] == Request(k, Cached(s'.cache[k]));
      assert FoundOut(s'.requests, k, s'.cache[k]);
    }
  }

  /** A promise handed out is that of an unfinished request for the very places asked about. */
  lemma PromiseIsForKey(steps: seq<Step>, from: Location, to: Location)
    requires AnswerTo(Run(IDLE, steps), from, to).Promise?
    ensures var s := Run(IDLE, steps);
            var r := AnswerTo(s, from, to).request;
            var s' := Fetched(s, from, to);
            r < |s'.requests| && s'.requests[r].key == (from, to) && s'.requests[r].phase.Unfinished()
  {
    EveryRunIsFair(steps);
  }

  /** Nothing to route between places less than 0.0001 degrees apart; what is cached is answered at
      once; what is in flight is shared; else a new request, with a slot if fewer than two are taken. */
  lemma FetchAnswers(s: State, from: Location, to: Location)
    ensures var a, s', k := AnswerTo(s, from, to), Fetched(s, from, to), (from, to);
            var near := && -0.0001 < from.latitude - to.latitude < 0.0001
                        && -0.0001 < from.longitude - to.longitude < 0.0001;
            if near then a == Now(None) && s' == s
            else if k in s.cache then a == Now(s.cache[k]) && s' == s
            else if k in s.inflight then a == Promise(s.inflight[k]) && s' == s
            else
              && a == Promise(|s.requests|)
              && s'.cache == s.cache && s'.inflight == s.inflight[k := |s.requests|]
              && s'.requests == s.requests + [Request(k, if s.active < 2 then Running else Waiting)]
              && s'.active == (if s.active < 2 then s.active + 1 else s.active)
              && s'.queue == if s.active < 2 then s.queue else s.queue + [|s.requests|]
  {
  }

  // ---- what is in the cache ------------------------------------------------------------------------

  /** Step i ended a request for these places, with this result. */
  ghost predicate FetchedAt(steps: seq<Step>, i: nat, k: Key, route: Route)
    requires i < |steps|
  {
    var s := Run(IDLE, steps[..i]);
    && steps[i].Finish? && steps[i].result == route
    && steps[i].request < |s.requests| && s.requests[steps[i].request] == Request(k, Running)
  }

  ghost predicate WasFetched(steps: seq<Step>, k: Key, route: Route) {
    exists i: nat :: i < |steps| && FetchedAt(steps, i, k, route)
  }

  /** A caller is answered at once with nothing, or with what a fetch between these places gave. */
  lemma CachedAnswersWereFetched(steps: seq<Step>, from: Location, to: Location)
    requires AnswerTo(Run(IDLE, steps), from, to).Now?
    ensures var route := AnswerTo(Run(IDLE, steps), from, to).route;
            IsSamePlace(from, to) || WasFetched(steps, (from, to), route)
  {
    EveryRunIsFair(steps);
    EveryResultWasFetched(steps);
    var s, k := Run(IDLE, steps), (from, to);
    if !IsSamePlace(from, to) {
      assert FoundOut(s.requests, k, s.cache[k]);
      var r :| 0 <= r < |s.requests| && s.requests[r] == Request(k, Cached(s.cache[k]));
      assert HasResult(s.requests[r]);
    }
  }

  predicate HasResult(q: Request) {
    q.phase.Settled? || q.phase.Cached?
  }

  lemma {:induction false} EveryResultWasFetched(steps: seq<Step>)
    ensures forall r :: 0 <= r < |Run(IDLE, steps).requests| && HasResult(Run(IDLE, steps).requests[r]) ==>
              WasFetched(steps, Run(IDLE, steps).requests[r].key, Run(IDLE, steps).requests[r].phase.result)
  {
    if steps != [] {
      var before, last := steps[..|steps| - 1], steps[|steps| - 1];
      var s, s' := Run(IDLE, before), Run(IDLE, steps);
      EveryResultWasFetched(before);
      forall r | 0 <= r < |s'.requests| && HasResult(s'.requests[r])
        ensures WasFetched(steps, s'.requests[r].key, s'.requests[r].phase.result)
      {
        RunKeepsInv(IDLE, before);
        ResultIsOldOrFetched(s, last, r);
        if r < |s.requests| && HasResult(s.requests[r]) {
          var i: nat :| i < |before| && FetchedAt(before, i, s.requests[r].key, s.requests[r].phase.result);
          assert steps[..i] == before[..i];
          assert FetchedAt(steps, i, s.requests[r].key, s.requests[r].phase.result);
        } else {
          assert steps[..|before|] == before;
          assert FetchedAt(steps, |before|, s'.requests[r].key, s'.requests[r].phase.result);
        }
      }
    }
  }

  lemma ResultIsOldOrFetched(s: State, step: Step, r: RequestId)
    requires QueueOk(s.queue, s.requests) && r < |Do(s, step).requests| && HasResult(Do(s, step).requests[r])
    ensures var q := Do(s, step).requests[r];
            && r < |s.requests| && q.key == s.requests[r].key
            && if HasResult(s.requests[r]) then q.phase.result == s.requests[r].phase.result
               else step.Finish? && step.request == r && step.result == q.phase.result && s.requests[r].phase == Running
  {
  }

  // ---- first come, first served ------------------------------------------------------------------

  /** How many slots are given up over these steps. */
  function Releases(s: State, steps: seq<Step>): nat {
    if steps == [] then 0
    else
      var before, last := steps[..|steps| - 1], steps[|steps| - 1];
      Releases(s, before) + if last.Finish? && HoldsSlot(Run(s, before), last.request) then 1 else 0
  }

  /** Where the waiter that was at position k is after n releases: n places further up, or through. */
  ghost predicate InTurn(s: State, r: RequestId, k: nat, n: nat) {
    if n <= k then k - n < |s.queue| && s.queue[k - n] == r
    else r < |s.requests| && s.requests[r].phase != Waiting
  }

  /** The waiter at position k is admitted by the (k + 1)-th release from now: until then it is in
      the queue, each release moving it up one place; from then on it no longer waits. */
  lemma {:induction false} AdmittedInTurn(s: State, steps: seq<Step>, k: nat)
    requires Inv(s) && k < |s.queue|
    ensures InTurn(Run(s, steps), s.queue[k], k, Releases(s, steps))
  {
    if steps != [] {
      var before, last := steps[..|steps| - 1], steps[|steps| - 1];
      AdmittedInTurn(s, before, k);
      RunKeepsInv(s, before);
      StepInTurn(Run(s, before), last, s.queue[k], k, Releases(s, before));
    }
  }

  lemma StepInTurn(s: State, step: Step, r: RequestId, k: nat, n: nat)
    requires QueueOk(s.queue, s.requests) && InTurn(s, r, k, n)
    ensures InTurn(Do(s, step), r, k, n + if step.Finish? && HoldsSlot(s, step.request) then 1 else 0)
  {
    if n <= k {
      OnePlaceUp(s, step, k - n);
    } else {
      OnceAdmitted(s, step, r);
    }
  }

  lemma OnePlaceUp(s: State, step: Step, i: nat)
    requires QueueOk(s.queue, s.requests) && i < |s.queue|
    ensures var s' := Do(s, step);
            if step.Finish? && HoldsSlot(s, step.request) then
              if i == 0 then s.queue[0] < |s'.requests| && s'.requests[s.queue[0]].phase != Waiting
              else i - 1 < |s'.queue| && s'.queue[i - 1] == s.queue[i]
            else i < |s'.queue| && s'.queue[i] == s.queue[i]
  {
  }

  lemma OnceAdmitted(s: State, step: Step, r: RequestId)
    requires r < |s.requests| && s.requests[r].phase != Waiting
    ensures r < |Do(s, step).requests| && Do(s, step).requests[r].phase != Waiting
  {
  }

  /** No wakeup is lost: while anybody waits, two requests hold a slot, and whichever of them ends
      first hands its slot to the head of the queue. */
  lemma WaitersAreWoken(steps: seq<Step>, r: RequestId, result: Route)
    requires var s := Run(IDLE, steps); s.queue != [] && HoldsSlot(s, r)
    ensures var s := Run(IDLE, steps);
            && Slots(s.requests) == 2
            && HoldsSlot(Finished(s, r, result), s.queue[0])
            && Slots(Finished(s, r, result).requests) == 2
  {
    EveryRunIsFair(steps);
    FinishedKeepsInv(Run(IDLE, steps), r, result);
  }

  // ---- the module's own functions -----------------------------------------------------------------

  class Scheduler {
    var active: int
    var queue: seq<RequestId>
    var cache: map<Key, Route>
    var inflight: map<Key, RequestId>
    // The promises handed out, by order of creation.
    var requests: seq<Request>

    ghost function View(): State
      reads this
    {
      State(active, queue, cache, inflight, requests)
    }

    constructor ()
      ensures View() == IDLE && Inv(View())
    {
      active, queue, cache, inflight, requests := 0, [], map[], map[], [];
    }

    /** Resolved at once when a slot is free; else the resolver goes to the back of the queue. */
    method Acquire(r: RequestId) returns (resolved: bool)
      modifies this`active, this`queue
      ensures resolved <==> old(active) < MAX_CONCURRENT
      ensures active == if resolved then old(active) + 1 else old(active)
      ensures queue == if resolved then old(queue) else old(queue) + [r]
    {
      if active < MAX_CONCURRENT {
        active := active + 1;
        return true;
      }
      queue := queue + [r];
      return false;
    }

    /** Gives up a slot; the resolver at the head of the queue, if any, takes one. */
    method Release()
      modifies this`active, this`queue, this`requests
      ensures if old(queue) == [] then active == old(active) - 1 && queue == [] && requests == old(requests)
              else
                && active == old(active) && queue == old(queue)[1..]
                && requests == SetPhase(old(requests), old(queue)[0], Running)
    {
      active := active - 1;
      if queue != [] {
        var head := queue[0];
        queue := queue[1..];
        active := active + 1;
        requests := SetPhase(requests, head, Running);
      }
    }

    method FetchRoute(from: Location, to: Location) returns (a: Answer)
      modifies this
      ensures View() == Fetched(old(View()), from, to)
      ensures a == AnswerTo(old(View()), from, to)
    {
      if IsSamePlace(from, to) {
        return Now(None);
      }
      var k := (from, to);
      if k in cache {
        return Now(cache[k]);
      }
      if k in inflight {
        return Promise(inflight[k]);
      }
      var r := |requests|;
      var resolved := Acquire(r);
      requests := requests + [Request(k, if resolved then Running else Waiting)];
      inflight := inflight[k := r];
      return Promise(r);
    }

    /** What runs after the fetch, whatever its end: the finally block. */
    method Settle(r: RequestId, result: Route)
      requires HoldsSlot(View(), r)
      modifies this
      ensures View() == Finished(old(View()), r, result)
    {
      var k := requests[r].key;
      requests := SetPhase(requests, r, Settled(result));
      Release();
      inflight := inflight - {k};
    }

    method CacheResult(r: RequestId)
      requires r < |requests| && requests[r].phase.Settled?
      modifies this`cache, this`requests
      ensures View() == Remembered(old(View()), r)
    {
      var result := requests[r].phase.result;
      cache := cache[requests[r].key := result];
      requests := SetPhase(requests, r, Cached(result));
    }
  }
}
