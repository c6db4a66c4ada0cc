/** The "notify if the value changed enough, or if it has been too long"
    rule of the periodic handlers of the observable battery and CPU
    temperature resources. Each periodic call increments `interval_counter`;
    a call notifies the observers when the value moved by at least CHANGE
    and at least INTERVAL_MIN calls have passed, or when INTERVAL_MAX calls
    have passed. A notifying call restarts the counter and remembers the
    value it reported. */
module Observe {
  import opened CInt
  import ContentFormat

  const INTERVAL_MIN: int := 5
  /** `MAX_AGE - 1`: notify before the cached representation expires. */
  const INTERVAL_MAX: int := ContentFormat.MAX_AGE - 1
  const CHANGE: int := 0

  /** The two statics of a periodic handler. */
  datatype Observer = Observer(intervalCounter: int, valueOld: int)

  /** `interval_counter = INTERVAL_MIN` and the resource's initial old value. */
  function Initial(valueOld0: int): (r: Observer)
  {
    Observer(INTERVAL_MIN, valueOld0)
  }

  /** `abs(value - value_old) >= CHANGE`. */
  predicate ChangedEnough(value: int, valueOld: int)
  {
    Abs(value - valueOld) >= CHANGE
  }

  /** The notify test, for the already incremented counter. */
  predicate NotifyDue(counter: int, value: int, valueOld: int)
  {
    (ChangedEnough(value, valueOld) && counter >= INTERVAL_MIN) || counter >= INTERVAL_MAX
  }

  datatype Outcome = Outcome(next: Observer, notify: bool)

  /** One periodic call that reads `value`. It notifies exactly when the test
      holds for the incremented counter; then the counter restarts at 0 and
      the old value becomes `value`, otherwise the counter has grown by one
      and the old value is kept. As CHANGE is 0 every value has changed
      enough, so a call notifies exactly when the incremented counter has
      reached INTERVAL_MIN. A counter below INTERVAL_MAX stays below it. */
  function Step(s: Observer, value: int): (o: Outcome)
    ensures o.notify <==> NotifyDue(s.intervalCounter + 1, value, s.valueOld)
    ensures o.notify <==> s.intervalCounter + 1 >= INTERVAL_MIN
    ensures o.notify ==> o.next.intervalCounter == 0 && o.next.valueOld == value
    ensures !o.notify ==> o.next.intervalCounter == s.intervalCounter + 1
    ensures o.next.valueOld != s.valueOld ==> o.notify
    ensures 0 <= s.intervalCounter < INTERVAL_MAX ==> 0 <= o.next.intervalCounter < INTERVAL_MAX
  {
    var counter := s.intervalCounter + 1;
    if NotifyDue(counter, value, s.valueOld) then Outcome(Observer(0, value), true)
    else Outcome(Observer(counter, s.valueOld), false)
  }

  /** The observer after a series of periodic calls, and which calls notified. */
  datatype History = History(final: Observer, notified: seq<bool>)

  /** The periodic calls reading `values`, in order. */
  function Run(s: Observer, values: seq<int>): (h: History)
    ensures |h.notified| == |values|
    decreases |values|
  {
    if values == [] then History(s, [])
    else
      var o := Step(s, values[0]);
      var rest := Run(o.next, values[1..]);
      History(rest.final, [o.notify] + rest.notified)
  }

  /** From a counter below INTERVAL_MIN, call i notifies exactly when the
      counter it increments reaches a multiple of INTERVAL_MIN. */
  lemma {:induction false} RunFromRestart(s: Observer, values: seq<int>)
    requires 0 <= s.intervalCounter < INTERVAL_MIN
    ensures forall i :: 0 <= i < |values| ==>
      (Run(s, values).notified[i] <==> (s.intervalCounter + 1 + i) % INTERVAL_MIN == 0)
    decreases |values|
  {
    if values != [] {
      var o := Step(s, values[0]);
      var c := s.intervalCounter;
      assert o.next.intervalCounter == (c + 1) % INTERVAL_MIN;
      RunFromRestart(o.next, values[1..]);
      forall i | 0 <= i < |values|
        ensures Run(s, values).notified[i] <==> (c + 1 + i) % INTERVAL_MIN == 0
      {
        if i > 0 {
          assert Run(s, values).notified[i] == Run(o.next, values[1..]).notified[i - 1];
          assert ((c + 1) % INTERVAL_MIN + 1 + (i - 1)) % INTERVAL_MIN == (c + 1 + i) % INTERVAL_MIN;
        }
      }
    }
  }

  /** From the initial state the first periodic call notifies, and after it
      every INTERVAL_MIN-th call: call i notifies exactly when i is a multiple
      of INTERVAL_MIN. */
  lemma NotifiesEveryIntervalMin(valueOld0: int, values: seq<int>)
    ensures forall i :: 0 <= i < |values| ==>
      (Run(Initial(valueOld0), values).notified[i] <==> i % INTERVAL_MIN == 0)
  {
    if values != [] {
      var s := Initial(valueOld0);
      var o := Step(s, values[0]);
      assert o.notify && o.next.intervalCounter == 0;
      RunFromRestart(o.next, values[1..]);
      forall i | 0 < i < |values|
        ensures Run(s, values).notified[i] <==> i % INTERVAL_MIN == 0
      {
        assert Run(s, values).notified[i] == Run(o.next, values[1..]).notified[i - 1];
      }
    }
  }

  /** After a series of calls the old value is the value read by the last
      notifying call, or the initial old value when no call notified. */
  lemma {:induction false} OldValueIsLastNotified(s: Observer, values: seq<int>)
    ensures (forall i :: 0 <= i < |values| ==> !Run(s, values).notified[i]) ==>
      Run(s, values).final.valueOld == s.valueOld
    ensures forall i :: 0 <= i < |values| ==>
      (Run(s, values).notified[i] && (forall j :: i < j < |values| ==> !Run(s, values).notified[j])) ==>
      Run(s, values).final.valueOld == values[i]
    decreases |values|
  {
    if values != [] {
      var o := Step(s, values[0]);
      var rest := Run(o.next, values[1..]);
      var h := Run(s, values);
      OldValueIsLastNotified(o.next, values[1..]);
      assert h.final == rest.final;
      assert forall j :: 0 < j < |values| ==> h.notified[j] == rest.notified[j - 1];
      if forall i :: 0 <= i < |values| ==> !h.notified[i] {
        assert !o.notify by { assert h.notified[0] == o.notify; }
        forall j | 0 <= j < |values[1..]| ensures !rest.notified[j] {
          assert h.notified[j + 1] == rest.notified[j];
        }
      }
      forall i | 0 <= i < |values| && h.notified[i] &&
        (forall j :: i < j < |values| ==> !h.notified[j])
        ensures h.final.valueOld == values[i]
      {
        if i == 0 {
          assert o.notify by { assert h.notified[0] == o.notify; }
          forall j | 0 <= j < |values[1..]| ensures !rest.notified[j] {
            assert h.notified[j + 1] == rest.notified[j];
          }
        } else {
          assert rest.notified[i - 1];
          assert values[i] == values[1..][i - 1];
          forall j | i - 1 < j < |values[1..]| ensures !rest.notified[j] {
            assert h.notified[j + 1] == rest.notified[j];
          }
        }
      }
    }
  }
}
