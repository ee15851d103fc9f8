/** Counting events of one kind in a trace, so that contracts can say
    "exactly once" and "never". */
module Trace {
  import opened Model

  datatype Kind =
    | KLogged | KBuildDirectives | KCollected | KIngested | KHook(hook: Hook)
    | KListLoaded | KExtracted | KListWritten | KShallowList | KBackend | KDirectivesBackend

  function KindOf(e: Event): Kind {
    match e
    case Logged(_) => KLogged
    case BuildDirectivesCollected(_) => KBuildDirectives
    case IncludesCollected(_) => KCollected
    case IncludesIngested(_, _) => KIngested
    case HookFired(h, _) => KHook(h)
    case ListLoaded(_) => KListLoaded
    case IncludesExtracted(_, _, _) => KExtracted
    case ListWritten(_, _) => KListWritten
    case ShallowListInvoked(_) => KShallowList
    case BackendCalled(_, _, _, _, _, _) => KBackend
    case DirectivesBackendCalled(_, _, _) => KDirectivesBackend
  }

  /** Number of events of kind `k` in `es`. */
  function Count(es: seq<Event>, k: Kind): (n: nat)
    ensures n <= |es|
  {
    if es == [] then 0
    else (if KindOf(es[0]) == k then 1 else 0) + Count(es[1..], k)
  }

  lemma {:induction false} CountConcat(a: seq<Event>, b: seq<Event>, k: Kind)
    ensures Count(a + b, k) == Count(a, k) + Count(b, k)
  {
    if a == [] {
      assert a + b == b;
    } else {
      assert (a + b)[1..] == a[1..] + b;
      CountConcat(a[1..], b, k);
    }
  }

  lemma CountCons(e: Event, es: seq<Event>, k: Kind)
    ensures Count([e] + es, k) == (if KindOf(e) == k then 1 else 0) + Count(es, k)
  {
    assert ([e] + es)[1..] == es;
  }

  /** No event of kind `k` is counted exactly when none occurs. */
  lemma {:induction false} CountZero(es: seq<Event>, k: Kind)
    ensures Count(es, k) == 0 <==> forall i :: 0 <= i < |es| ==> KindOf(es[i]) != k
  {
    if es != [] {
      CountZero(es[1..], k);
      assert forall i :: 1 <= i < |es| ==> es[i] == es[1..][i - 1];
    }
  }

  /** Index of the first event of kind `k`, |es| when there is none. */
  function FirstOf(es: seq<Event>, k: Kind): (i: nat)
    ensures i <= |es|
    ensures i < |es| ==> KindOf(es[i]) == k
  {
    if es == [] then 0
    else if KindOf(es[0]) == k then 0
    else 1 + FirstOf(es[1..], k)
  }

  lemma FirstCons(e: Event, es: seq<Event>, k: Kind)
    ensures FirstOf([e] + es, k) == if KindOf(e) == k then 0 else 1 + FirstOf(es, k)
  {
    assert ([e] + es)[1..] == es;
  }

  /** Regrouping a trace that grew event by event into the events of one call. */
  lemma RegroupShort(before: seq<Event>, first: Event, middle: seq<Event>)
    ensures before + [first] + middle == before + ([first] + middle)
  {
  }

  lemma RegroupLong(before: seq<Event>, first: Event, middle: seq<Event>, x: Event, y: Event)
    ensures before + [first] + middle + [x] + [y] == before + ([first] + middle + [x, y])
  {
  }

  /** The first event of a kind that a prefix lacks is found after that prefix. */
  lemma {:induction false} FirstAfterPrefix(a: seq<Event>, b: seq<Event>, k: Kind)
    requires Count(a, k) == 0
    ensures FirstOf(a + b, k) == |a| + FirstOf(b, k)
  {
    if a != [] {
      assert (a + b)[1..] == a[1..] + b;
      assert KindOf(a[0]) != k;
      FirstAfterPrefix(a[1..], b, k);
    } else {
      assert a + b == b;
    }
  }

  /** An event of kind `k` found in a prefix is found at the same place after extending it. */
  lemma {:induction false} FirstInPrefix(a: seq<Event>, b: seq<Event>, k: Kind)
    requires FirstOf(a, k) < |a|
    ensures FirstOf(a + b, k) == FirstOf(a, k)
  {
    assert (a + b)[0] == a[0];
    if KindOf(a[0]) != k {
      assert (a + b)[1..] == a[1..] + b;
      FirstInPrefix(a[1..], b, k);
    }
  }

  /** Searching past a leading event of another kind, into a part that holds kind `k`. */
  lemma FoundAfterLead(x: Event, middle: seq<Event>, tail: seq<Event>, k: Kind)
    requires KindOf(x) != k && FirstOf(middle, k) < |middle|
    ensures FirstOf([x] + middle + tail, k) == 1 + FirstOf(middle, k)
  {
    assert [x] + middle + tail == [x] + (middle + tail);
    FirstCons(x, middle + tail, k);
    FirstInPrefix(middle, tail, k);
  }

  /** Counting and searching in a trace of two events. */
  lemma TwoEvents(x: Event, y: Event, k: Kind)
    ensures Count([x] + [y], k) == (if KindOf(x) == k then 1 else 0) + (if KindOf(y) == k then 1 else 0)
    ensures FirstOf([x] + [y], k) == if KindOf(x) == k then 0 else if KindOf(y) == k then 1 else 2
  {
    assert [y] == [y] + [];
    CountCons(x, [y], k);
    CountCons(y, [], k);
    FirstCons(x, [y], k);
    FirstCons(y, [], k);
  }

  /** Counting and searching past a leading event and a part free of kind `k`. */
  lemma {:induction false} Framed(x: Event, middle: seq<Event>, tail: seq<Event>, k: Kind)
    requires Count(middle, k) == 0
    ensures Count([x] + middle + tail, k) == (if KindOf(x) == k then 1 else 0) + Count(tail, k)
    ensures KindOf(x) != k ==> FirstOf([x] + middle + tail, k) == 1 + |middle| + FirstOf(tail, k)
  {
    CountConcat([x], middle, k);
    CountConcat([x] + middle, tail, k);
    CountCons(x, [], k);
    if KindOf(x) != k {
      CountCons(x, middle, k);
      FirstAfterPrefix([x] + middle, tail, k);
    }
  }

  /** Counting and searching in the trace of a call: a leading event, a part
      free of kind `k`, and two closing events. */
  lemma CallTrace(x: Event, middle: seq<Event>, y: Event, z: Event, k: Kind)
    requires Count(middle, k) == 0
    ensures var es := [x] + middle + ([y] + [z]);
      && |es| == |middle| + 3
      && Count(es, k) == (if KindOf(x) == k then 1 else 0) + (if KindOf(y) == k then 1 else 0)
                         + (if KindOf(z) == k then 1 else 0)
      && FirstOf(es, k) == if KindOf(x) == k then 0
                           else if KindOf(y) == k then |middle| + 1
                           else if KindOf(z) == k then |middle| + 2
                           else |es|
  {
    Framed(x, middle, [y] + [z], k);
    TwoEvents(y, z, k);
    if KindOf(x) == k {
      FirstCons(x, middle + ([y] + [z]), k);
      assert [x] + middle + ([y] + [z]) == [x] + (middle + ([y] + [z]));
    }
  }

}
