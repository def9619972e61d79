/**
 * Waiting for the wireless interface to get an address while a testing
 * configuration is loaded: one query, then at most `MAX_CHECKS` re-queries,
 * each after one second of sleep.
 */
module NetworkReadiness {
  import opened Wrappers
  import opened Json
  import opened Trace

  /** The counter bound of the wait loop. */
  const MAX_CHECKS: nat := 20

  /** One interface record reported by `is_interface_up`, a dict that may carry `addr`. */
  type Interface = map<string, Value>

  /** One answer of `is_interface_up("wlan0")`: `None` or a list of records. */
  type Answer = Option<seq<Interface>>

  /**
   * The records of the `k`-th query (`is_interface_up(...) or []`); queries past
   * the end of the scripted answers report nothing.
   */
  function Interfaces(answers: seq<Answer>, k: nat): seq<Interface> {
    if k < |answers| && answers[k].Some? then answers[k].value else []
  }

  /** The interface record reports an address: it has a truthy `addr` entry. */
  predicate HasAddress(i: Interface) {
    "addr" in i && Truthy(i["addr"])
  }

  /** One answer of the readiness query counts as ready when some record in it reports an address. */
  predicate AnyAddress(interfaces: seq<Interface>) {
    exists j :: 0 <= j < |interfaces| && HasAddress(interfaces[j])
  }

  /**
   * The value of `checks` when the wait loop stops, when it has already made
   * `from` re-queries: the first query index from `from` on that reports an
   * address, or `MAX_CHECKS` if none before it does.
   */
  function ChecksTaken(answers: seq<Answer>, from: nat): (r: nat)
    requires from <= MAX_CHECKS
    ensures from <= r <= MAX_CHECKS
    ensures r < MAX_CHECKS ==> AnyAddress(Interfaces(answers, r))
    ensures forall j :: from <= j < r ==> !AnyAddress(Interfaces(answers, j))
    decreases MAX_CHECKS - from
  {
    if AnyAddress(Interfaces(answers, from)) || from == MAX_CHECKS then from
    else ChecksTaken(answers, from + 1)
  }

  /** The sleeps and re-queries of `checks` rounds of the loop. */
  function Polls(checks: nat): seq<Event> {
    if checks == 0 then [] else Polls(checks - 1) + [Slept, QueriedInterface]
  }

  /** Everything the wait does when it stops after `checks` re-queries. */
  function WaitEvents(checks: nat): seq<Event> {
    [QueriedInterface] + Polls(checks)
  }

  /** The wait loop of `run`; it times out exactly when `checks` reaches `MAX_CHECKS`. */
  method WaitForInterface(answers: seq<Answer>) returns (checks: nat, events: seq<Event>)
    ensures checks == ChecksTaken(answers, 0)
    ensures events == WaitEvents(checks)
  {
    checks := 0;
    var interfaces := Interfaces(answers, 0);
    events := [QueriedInterface];
    while !AnyAddress(interfaces) && checks < MAX_CHECKS
      invariant checks <= MAX_CHECKS
      invariant interfaces == Interfaces(answers, checks)
      invariant ChecksTaken(answers, checks) == ChecksTaken(answers, 0)
      invariant events == WaitEvents(checks)
      decreases MAX_CHECKS - checks
    {
      checks := checks + 1;
      interfaces := Interfaces(answers, checks);
      events := events + [Slept, QueriedInterface];
    }
  }

  function Count(events: seq<Event>, e: Event): nat {
    if events == [] then 0 else (if events[0] == e then 1 else 0) + Count(events[1..], e)
  }

  lemma {:induction false} CountAppend(a: seq<Event>, b: seq<Event>, e: Event)
    ensures Count(a + b, e) == Count(a, e) + Count(b, e)
  {
    if a == [] {
      assert a + b == b;
    } else {
      assert (a + b)[1..] == a[1..] + b;
      CountAppend(a[1..], b, e);
    }
  }

  /** A wait that stops after `checks` re-queries asks the interface `checks + 1` times and sleeps `checks` times. */
  lemma {:induction false} QueriesAndSleeps(checks: nat)
    ensures Count(WaitEvents(checks), QueriedInterface) == checks + 1
    ensures Count(WaitEvents(checks), Slept) == checks
  {
    if checks > 0 {
      QueriesAndSleeps(checks - 1);
      CountAppend(WaitEvents(checks - 1), [Slept, QueriedInterface], QueriedInterface);
      CountAppend(WaitEvents(checks - 1), [Slept, QueriedInterface], Slept);
      assert WaitEvents(checks) == WaitEvents(checks - 1) + [Slept, QueriedInterface];
    }
  }

  /** The wait stops early on the first query that reports an address. */
  lemma ReadyOnFirstAddress(answers: seq<Answer>, k: nat)
    requires k < MAX_CHECKS && AnyAddress(Interfaces(answers, k))
    requires forall j :: 0 <= j < k ==> !AnyAddress(Interfaces(answers, j))
    ensures ChecksTaken(answers, 0) == k
  {
  }

  /**
   * The wait times out when the first `MAX_CHECKS` queries report no address,
   * even if the last query, the `MAX_CHECKS + 1`-th, does.
   */
  lemma TimesOutDespiteLastAnswer()
    ensures var ready: Answer := Some([map["addr" := Str("192.168.4.1")]]);
            var answers := seq(MAX_CHECKS, _ => None) + [ready];
            AnyAddress(Interfaces(answers, MAX_CHECKS)) && ChecksTaken(answers, 0) == MAX_CHECKS
  {
    var ready: Answer := Some([map["addr" := Str("192.168.4.1")]]);
    var answers := seq(MAX_CHECKS, _ => None) + [ready];
    assert HasAddress(Interfaces(answers, MAX_CHECKS)[0]);
    assert forall j :: 0 <= j < MAX_CHECKS ==> Interfaces(answers, j) == [];
  }
}
