/**
 * The reactor's fixed service order and the send-audio drain it runs on each
 * SendAudio wake.
 */
module Reactor {
  import opened Types

  /** Number of event flags a wake services. */
  const EventCount: nat := 13

  /** The order in which one wake services its flags: the event serviced at position `k`. */
  function EventOfRank(k: nat): Event
    requires k < EventCount
  {
    match k
    case 0 => Event.Error
    case 1 => Event.NetworkConnected
    case 2 => Event.NetworkDisconnected
    case 3 => Event.ActivationDone
    case 4 => Event.StateChanged
    case 5 => Event.ToggleChat
    case 6 => Event.StartListening
    case 7 => Event.StopListening
    case 8 => Event.SendAudio
    case 9 => Event.WakeWordDetected
    case 10 => Event.VadChange
    case 11 => Event.Schedule
    case _ => Event.ClockTick
  }

  /** Position of an event in the service order. */
  function Rank(e: Event): (r: nat)
    ensures r < EventCount && EventOfRank(r) == e
  {
    match e
    case Error => 0
    case NetworkConnected => 1
    case NetworkDisconnected => 2
    case ActivationDone => 3
    case StateChanged => 4
    case ToggleChat => 5
    case StartListening => 6
    case StopListening => 7
    case SendAudio => 8
    case WakeWordDetected => 9
    case VadChange => 10
    case Schedule => 11
    case ClockTick => 12
  }

  /** The service order lists every event exactly once. */
  lemma RankOfEvent(k: nat)
    requires k < EventCount
    ensures Rank(EventOfRank(k)) == k
  {
  }

  /** The one-element sequence of `e` if it is pending, else nothing. */
  function Pick(e: Event, p: set<Event>): seq<Event>
  {
    if e in p then [e] else []
  }

  /** The pending flags among the first `n` of the service order, in that order. */
  function Serviced(n: nat, p: set<Event>): seq<Event>
    requires n <= EventCount
  {
    if n == 0 then [] else Serviced(n - 1, p) + Pick(EventOfRank(n - 1), p)
  }

  /** The first `n` positions of the order service exactly the pending flags of rank below `n`, by increasing rank. */
  lemma {:induction false} ServicedOrder(n: nat, p: set<Event>)
    requires n <= EventCount
    ensures forall e :: e in Serviced(n, p) <==> e in p && Rank(e) < n
    ensures forall i, j :: 0 <= i < j < |Serviced(n, p)| ==> Rank(Serviced(n, p)[i]) < Rank(Serviced(n, p)[j])
    ensures forall i :: 0 <= i < |Serviced(n, p)| ==> Rank(Serviced(n, p)[i]) < n
  {
    if n > 0 {
      ServicedOrder(n - 1, p);
      RankOfEvent(n - 1);
    }
  }

  /** Servicing the pending flag of rank `k` extends the serviced sequence by that flag. */
  lemma ServicedTake(s0: seq<Event>, v: seq<Event>, k: nat, p: set<Event>)
    requires k < EventCount && EventOfRank(k) in p && v == s0 + Serviced(k, p)
    ensures v + [EventOfRank(k)] == s0 + Serviced(k + 1, p)
  {
    assert Serviced(k + 1, p) == Serviced(k, p) + [EventOfRank(k)];
  }

  /** A flag that is not pending adds nothing at its position. */
  lemma ServicedSkip(k: nat, p: set<Event>)
    requires k < EventCount && EventOfRank(k) !in p
    ensures Serviced(k + 1, p) == Serviced(k, p)
  {
    assert Serviced(k + 1, p) == Serviced(k, p) + [];
  }

  /**
   * A whole wake services each pending flag exactly once, no flag that is not pending,
   * in increasing rank.
   */
  lemma WakeOrder(p: set<Event>)
    ensures forall e :: e in Serviced(EventCount, p) <==> e in p
    ensures forall i, j :: 0 <= i < j < |Serviced(EventCount, p)| ==>
      Rank(Serviced(EventCount, p)[i]) < Rank(Serviced(EventCount, p)[j])
    ensures |Serviced(EventCount, p)| == |p|
  {
    ServicedOrder(EventCount, p);
    NoDuplicatesCardinality(Serviced(EventCount, p), p);
  }

  /** A sequence with strictly increasing ranks lists the set of its elements once each. */
  lemma {:induction false} NoDuplicatesCardinality(r: seq<Event>, p: set<Event>)
    requires forall e :: e in r <==> e in p
    requires forall i, j :: 0 <= i < j < |r| ==> Rank(r[i]) < Rank(r[j])
    ensures |r| == |p|
  {
    if r == [] {
      assert p == {};
    } else {
      var x := r[0];
      var rest := r[1..];
      assert forall i :: 0 <= i < |rest| ==> Rank(x) < Rank(rest[i]) by {
        forall i | 0 <= i < |rest| ensures Rank(x) < Rank(rest[i]) { assert rest[i] == r[i + 1]; }
      }
      assert x !in rest;
      forall i, j | 0 <= i < j < |rest| ensures Rank(rest[i]) < Rank(rest[j]) {
        assert rest[i] == r[i + 1] && rest[j] == r[j + 1];
      }
      assert forall e :: e in rest <==> e in p - {x} by {
        assert r == [x] + rest;
      }
      NoDuplicatesCardinality(rest, p - {x});
    }
  }

  /**
   * The SendAudio service: pop packets from the audio send queue and hand each to the
   * protocol until the protocol declines one or the queue is empty; with no protocol the
   * popped packets are dropped. Returns how many packets were popped and which were offered.
   */
  method DrainSendQueue(queue: seq<Packet>, protocolPresent: bool, accepts: nat -> bool)
    returns (popped: nat, offered: seq<Packet>)
    ensures popped <= |queue|
    ensures !protocolPresent ==> popped == |queue| && offered == []
    ensures protocolPresent ==> offered == queue[..popped]
    ensures protocolPresent ==> forall j :: 0 <= j && j + 1 < popped ==> accepts(j)
    ensures protocolPresent && popped < |queue| ==> 0 < popped && !accepts(popped - 1)
  {
    popped, offered := 0, [];
    while popped < |queue|
      invariant popped <= |queue|
      invariant offered == if protocolPresent then queue[..popped] else []
      invariant protocolPresent ==> forall j :: 0 <= j < popped ==> accepts(j)
    {
      var packet := queue[popped];
      popped := popped + 1;
      if protocolPresent {
        offered := offered + [packet];
        if !accepts(popped - 1) {
          break;
        }
      }
    }
  }
}
