/**
 The worker's message listener over time. Inbound messages are dispatched in
 arrival order; a request whose handler returned a promise waits until the
 event loop delivers that promise's settlement, so replies may leave in a
 different order from the requests. Requests are named by arrival index,
 since message ids are the caller's and need not be unique.
 */
module EventLoop {

  import opened Wrappers
  import opened JsValues
  import opened Dispatcher

  /** What each handler call does, by the arrival index of the request it
      serves and the function reference called. A handler may keep state
      between calls, so one payload can meet different outcomes in different
      requests; since dispatch happens in arrival order, the index determines
      the call. */
  type Calls = (nat, nat, Value) -> Outcome

  /** The handler behaviour in force for the call made for request `r`. */
  function CallAt(calls: Calls, r: nat): Behaviour {
    (k: nat, v: Value) => calls(r, k, v)
  }

  /** A message event on the worker, or the settlement of the promise the
      handler of the given request returned. */
  datatype Event = Arrive(msg: Inbound) | Settle(request: nat)

  /** A posted reply, tagged with the arrival index of its request. */
  datatype Sent = Sent(request: nat, post: Post)

  /** Messages received so far, requests waiting on a promise (with how
      their promise ends), and the replies posted in order. */
  datatype Loop = Loop(arrived: seq<Inbound>, waiting: map<nat, Settlement>, sent: seq<Sent>)

  /** How many posted replies answer request `r`. */
  function Count(sent: seq<Sent>, r: nat): nat {
    if sent == [] then 0
    else Count(sent[..|sent| - 1], r) + (if sent[|sent| - 1].request == r then 1 else 0)
  }

  /** One event. An arrival is dispatched at once; a settlement of a waiting
      request posts its reply and ends the wait. A promise that never settles
      keeps its request waiting, and a settlement of a request that is not
      waiting changes nothing (a promise settles at most once). */
  function Step(cfg: Config, calls: Calls, s: Loop, e: Event): Loop {
    match e
    case Arrive(msg) =>
      var r := |s.arrived|;
      (match OnIncoming(cfg, CallAt(calls, r), msg)
       case Now(p) => Loop(s.arrived + [msg], s.waiting, s.sent + [Sent(r, p)])
       case Later(_, st) => Loop(s.arrived + [msg], s.waiting[r := st], s.sent))
    case Settle(r) =>
      if r in s.waiting && r < |s.arrived| then
        match OnSettled(s.arrived[r].id, s.waiting[r])
        case Some(p) => Loop(s.arrived, s.waiting - {r}, s.sent + [Sent(r, p)])
        case None => s
      else s
  }

  /** A waiting request is one whose handler returned a promise, and the
      settlement held is that promise's. */
  ghost predicate WaitingAreDeferred(cfg: Config, calls: Calls, s: Loop) {
    forall r :: r in s.waiting ==>
      r < |s.arrived| && OnIncoming(cfg, CallAt(calls, r), s.arrived[r]) == Later(s.arrived[r].id, s.waiting[r])
  }

  /** Each posted reply is the one its own request produces on its own,
      whatever else is in flight. */
  ghost predicate SentAreEventual(cfg: Config, calls: Calls, s: Loop) {
    forall i :: 0 <= i < |s.sent| ==>
      s.sent[i].request < |s.arrived| && Eventual(cfg, CallAt(calls, s.sent[i].request), s.arrived[s.sent[i].request]) == Some(s.sent[i].post)
  }

  /** Every request so far is answered exactly once or is still waiting,
      never both. */
  ghost predicate AnsweredOnce(s: Loop) {
    forall r :: 0 <= r < |s.arrived| ==> Count(s.sent, r) == if r in s.waiting then 0 else 1
  }

  ghost predicate Consistent(cfg: Config, calls: Calls, s: Loop) {
    WaitingAreDeferred(cfg, calls, s) && SentAreEventual(cfg, calls, s) && AnsweredOnce(s)
  }

  lemma {:induction false} CountAppend(sent: seq<Sent>, x: Sent, r: nat)
    ensures Count(sent + [x], r) == Count(sent, r) + (if x.request == r then 1 else 0)
  {
    assert (sent + [x])[..|sent|] == sent;
  }

  lemma {:induction false} CountAbsent(sent: seq<Sent>, r: nat)
    requires forall i :: 0 <= i < |sent| ==> sent[i].request != r
    ensures Count(sent, r) == 0
  {
    if sent != [] {
      CountAbsent(sent[..|sent| - 1], r);
    }
  }

  lemma ArriveKeepsWaiting(cfg: Config, calls: Calls, s: Loop, msg: Inbound)
    requires WaitingAreDeferred(cfg, calls, s)
    ensures WaitingAreDeferred(cfg, calls, Step(cfg, calls, s, Arrive(msg)))
  {
    var t := Step(cfg, calls, s, Arrive(msg));
    var n := |s.arrived|;
    assert t.arrived == s.arrived + [msg];
    match OnIncoming(cfg, CallAt(calls, n), msg) {
      case Now(p) =>
        assert t.waiting == s.waiting;
      case Later(id, st) =>
        assert id == msg.id;
        assert t.waiting == s.waiting[n := st];
    }
    forall r | r in t.waiting
      ensures r < |t.arrived| && OnIncoming(cfg, CallAt(calls, r), t.arrived[r]) == Later(t.arrived[r].id, t.waiting[r])
    {
      if r != n {
        assert t.arrived[r] == s.arrived[r];
      }
    }
  }

  lemma ArriveKeepsSent(cfg: Config, calls: Calls, s: Loop, msg: Inbound)
    requires SentAreEventual(cfg, calls, s)
    ensures SentAreEventual(cfg, calls, Step(cfg, calls, s, Arrive(msg)))
  {
    var t := Step(cfg, calls, s, Arrive(msg));
    var n := |s.arrived|;
    assert t.arrived == s.arrived + [msg];
    match OnIncoming(cfg, CallAt(calls, n), msg) {
      case Now(p) =>
        assert t.sent == s.sent + [Sent(n, p)];
        assert Eventual(cfg, CallAt(calls, n), msg) == Some(p);
      case Later(id, st) =>
        assert t.sent == s.sent;
    }
    forall i | 0 <= i < |t.sent|
      ensures t.sent[i].request < |t.arrived|
      ensures Eventual(cfg, CallAt(calls, t.sent[i].request), t.arrived[t.sent[i].request]) == Some(t.sent[i].post)
    {
      if i < |s.sent| {
        assert t.sent[i] == s.sent[i];
        assert t.arrived[s.sent[i].request] == s.arrived[s.sent[i].request];
      }
    }
  }

  lemma ArriveKeepsCounts(cfg: Config, calls: Calls, s: Loop, msg: Inbound)
    requires AnsweredOnce(s)
    requires forall r :: r in s.waiting ==> r < |s.arrived|
    requires forall i :: 0 <= i < |s.sent| ==> s.sent[i].request < |s.arrived|
    ensures AnsweredOnce(Step(cfg, calls, s, Arrive(msg)))
  {
    var t := Step(cfg, calls, s, Arrive(msg));
    var n := |s.arrived|;
    assert |t.arrived| == n + 1;
    assert n !in s.waiting;
    CountAbsent(s.sent, n);
    match OnIncoming(cfg, CallAt(calls, n), msg) {
      case Now(p) =>
        assert t.sent == s.sent + [Sent(n, p)] && t.waiting == s.waiting;
        forall r | 0 <= r < |t.arrived|
          ensures Count(t.sent, r) == if r in t.waiting then 0 else 1
        {
          CountAppend(s.sent, Sent(n, p), r);
        }
      case Later(id, st) =>
        assert t.sent == s.sent && t.waiting == s.waiting[n := st];
    }
  }

  lemma ArriveKeepsConsistent(cfg: Config, calls: Calls, s: Loop, msg: Inbound)
    requires Consistent(cfg, calls, s)
    ensures Consistent(cfg, calls, Step(cfg, calls, s, Arrive(msg)))
  {
    ArriveKeepsWaiting(cfg, calls, s, msg);
    ArriveKeepsSent(cfg, calls, s, msg);
    ArriveKeepsCounts(cfg, calls, s, msg);
  }

  lemma SettleKeepsConsistent(cfg: Config, calls: Calls, s: Loop, r0: nat)
    requires Consistent(cfg, calls, s)
    ensures Consistent(cfg, calls, Step(cfg, calls, s, Settle(r0)))
  {
    var t := Step(cfg, calls, s, Settle(r0));
    if r0 in s.waiting && r0 < |s.arrived| {
      match OnSettled(s.arrived[r0].id, s.waiting[r0]) {
        case Some(p) =>
          assert t.sent == s.sent + [Sent(r0, p)] && t.waiting == s.waiting - {r0} && t.arrived == s.arrived;
          assert Eventual(cfg, CallAt(calls, r0), s.arrived[r0]) == Some(p);
          forall r | 0 <= r < |t.arrived|
            ensures Count(t.sent, r) == if r in t.waiting then 0 else 1
          {
            CountAppend(s.sent, Sent(r0, p), r);
          }
        case None =>
      }
    }
  }

  lemma StepKeepsConsistent(cfg: Config, calls: Calls, s: Loop, e: Event)
    requires Consistent(cfg, calls, s)
    ensures Consistent(cfg, calls, Step(cfg, calls, s, e))
  {
    match e {
      case Arrive(msg) => ArriveKeepsConsistent(cfg, calls, s, msg);
      case Settle(r0) => SettleKeepsConsistent(cfg, calls, s, r0);
    }
  }

  /** The loop after a sequence of events, starting from no messages. */
  function Run(cfg: Config, calls: Calls, events: seq<Event>): (s: Loop)
    ensures Consistent(cfg, calls, s)
    decreases |events|
  {
    if events == [] then Loop([], map[], [])
    else
      var before := Run(cfg, calls, events[..|events| - 1]);
      StepKeepsConsistent(cfg, calls, before, events[|events| - 1]);
      Step(cfg, calls, before, events[|events| - 1])
  }

  /** Replies already posted stay posted, in order, whatever happens later. */
  lemma {:induction false} CountGrows(a: seq<Sent>, b: seq<Sent>, r: nat)
    requires a <= b
    ensures Count(a, r) <= Count(b, r)
    decreases |b|
  {
    if |a| < |b| {
      assert a <= b[..|b| - 1];
      CountGrows(a, b[..|b| - 1], r);
    } else {
      assert a == b;
    }
  }

  /** Running more events only appends: received messages and posted replies
      of an earlier point are prefixes of those of a later one. */
  lemma {:induction false} RunExtends(cfg: Config, calls: Calls, events: seq<Event>, k: nat)
    requires k <= |events|
    ensures Run(cfg, calls, events[..k]).arrived <= Run(cfg, calls, events).arrived
    ensures Run(cfg, calls, events[..k]).sent <= Run(cfg, calls, events).sent
    decreases |events|
  {
    if k == |events| {
      assert events[..k] == events;
    } else {
      var front := events[..|events| - 1];
      assert events[..k] == front[..k];
      RunExtends(cfg, calls, front, k);
    }
  }

  /** In any loop the invariant holds of (every loop `Run` reaches), a
      request whose handler's promise never settles has no reply and is
      still waiting. */
  lemma NeverSettledNeverAnswered(cfg: Config, calls: Calls, s: Loop, r: nat)
    requires Consistent(cfg, calls, s)
    requires r < |s.arrived| && Eventual(cfg, CallAt(calls, r), s.arrived[r]).None?
    ensures Count(s.sent, r) == 0 && r in s.waiting
  {
    forall i | 0 <= i < |s.sent|
      ensures s.sent[i].request != r
    {
      assert Eventual(cfg, CallAt(calls, s.sent[i].request), s.arrived[s.sent[i].request]) == Some(s.sent[i].post);
    }
    CountAbsent(s.sent, r);
  }

  /** Delivering the settlement of a request whose promise settles leaves
      that request answered exactly once and no longer waiting, whether it
      was waiting before or had been answered already. */
  lemma SettleAnswers(cfg: Config, calls: Calls, s: Loop, r: nat)
    requires Consistent(cfg, calls, s)
    requires r < |s.arrived| && Eventual(cfg, CallAt(calls, r), s.arrived[r]).Some?
    ensures var t := Step(cfg, calls, s, Settle(r));
      r < |t.arrived| && r !in t.waiting && Count(t.sent, r) == 1
  {
  }

  /** Once the event loop has delivered a settlement for a received request
      whose promise settles, that request has exactly one reply from then on
      (which `Run` guarantees is the reply its own outcome determines). */
  lemma SettledAnsweredOnce(cfg: Config, calls: Calls, events: seq<Event>, j: nat)
    requires j < |events| && events[j].Settle?
    requires events[j].request < |Run(cfg, calls, events[..j]).arrived|
    requires Eventual(cfg, CallAt(calls, events[j].request), Run(cfg, calls, events[..j]).arrived[events[j].request]).Some?
    ensures var s := Run(cfg, calls, events); var r := events[j].request;
      r < |s.arrived| && r !in s.waiting && Count(s.sent, r) == 1
  {
    var r := events[j].request;
    var before := Run(cfg, calls, events[..j]);
    var after := Run(cfg, calls, events[..j + 1]);
    var s := Run(cfg, calls, events);
    assert events[..j + 1][..j] == events[..j];
    assert after == Step(cfg, calls, before, Settle(r));
    SettleAnswers(cfg, calls, before, r);
    RunExtends(cfg, calls, events, j + 1);
    CountGrows(after.sent, s.sent, r);
  }

  /** A handler that answers payload 1 with a promise and echoes anything else. */
  function SlowOnOne(r: nat, k: nat, v: Value): Outcome {
    if v == Num(1) then Deferred(Fulfilled(Str("slow"))) else Returned(v)
  }

  /** Replies can leave out of arrival order: a deferred first request is
      answered after an immediate second one. */
  lemma RepliesMayOvertake()
    ensures var cfg := Default(Fn(0));
      var s1 := Step(cfg, SlowOnOne, Loop([], map[], []), Arrive(Inbound(Num(1), Num(1), None)));
      var s2 := Step(cfg, SlowOnOne, s1, Arrive(Inbound(Num(2), Num(2), None)));
      Step(cfg, SlowOnOne, s2, Settle(0)).sent
        == [Sent(1, Post(None, Success(Num(2), Num(2)))), Sent(0, Post(None, Success(Num(1), Str("slow"))))]
  {
    var cfg := Default(Fn(0));
    var m1, m2 := Inbound(Num(1), Num(1), None), Inbound(Num(2), Num(2), None);
    var s1 := Loop([m1], map[0 := Fulfilled(Str("slow"))], []);
    var s2 := Loop([m1, m2], map[0 := Fulfilled(Str("slow"))], [Sent(1, Post(None, Success(Num(2), Num(2))))]);
    assert Step(cfg, SlowOnOne, Loop([], map[], []), Arrive(m1)) == s1 by {
      assert CallAt(SlowOnOne, 0)(0, Num(1)) == SlowOnOne(0, 0, Num(1)) == Deferred(Fulfilled(Str("slow")));
      assert OnIncoming(cfg, CallAt(SlowOnOne, 0), m1) == Later(Num(1), Fulfilled(Str("slow")));
    }
    assert Step(cfg, SlowOnOne, s1, Arrive(m2)) == s2 by {
      assert CallAt(SlowOnOne, 1)(0, Num(2)) == SlowOnOne(1, 0, Num(2)) == Returned(Num(2));
      assert OnIncoming(cfg, CallAt(SlowOnOne, 1), m2) == Now(Post(None, Success(Num(2), Num(2))));
    }
    assert Step(cfg, SlowOnOne, s2, Settle(0)).sent == s2.sent + [Sent(0, Post(None, Success(Num(1), Str("slow"))))];
  }
}
