/** The fixed-window rate table, against the whole history of calls. */
module Limiter {

  datatype Call = Call(subject: string, at: int, accepted: bool)

  /** The start of the window `at` falls into. */
  function Window(at: int, width: int): (start: int)
    requires width > 0
    ensures start <= at < start + width
  {
    at - at % width
  }

  lemma {:induction false} Grows(a: int, b: int, width: int)
    requires width > 0 && a < b
    ensures width * a + width <= width * b
    decreases b - a
  {
    assert width * b == width * (b - 1) + width;
    if a < b - 1 {
      Grows(a, b - 1, width);
    }
  }

  /** The window is the multiple of the width at or below the instant. */
  lemma WindowIs(at: int, q: int, width: int)
    requires width > 0 && width * q <= at < width * q + width
    ensures Window(at, width) == width * q
  {
    var p := at / width;
    assert at == width * p + at % width;
    if p < q {
      Grows(p, q, width);
    }
    if q < p {
      Grows(q, p, width);
    }
  }

  lemma WindowQuotient(at: int, width: int) returns (q: int)
    requires width > 0
    ensures Window(at, width) == width * q
  {
    q := at / width;
  }

  /** Calls of a subject in one window. */
  function Calls(history: seq<Call>, subject: string, start: int, width: int): nat
    requires width > 0
  {
    if history == [] then 0
    else
      var last := history[|history| - 1];
      Calls(history[..|history| - 1], subject, start, width) +
      if last.subject == subject && Window(last.at, width) == start then 1 else 0
  }

  /** Accepted calls of a subject from `from` on, before `until`. */
  function Accepted(history: seq<Call>, subject: string, from: int, until: int): nat
  {
    if history == [] then 0
    else
      var last := history[|history| - 1];
      Accepted(history[..|history| - 1], subject, from, until) +
      if last.subject == subject && last.accepted && from <= last.at < until then 1 else 0
  }

  /** The clock never goes back. */
  ghost predicate Forward(history: seq<Call>)
  {
    forall i, j :: 0 <= i < j < |history| ==> history[i].at <= history[j].at
  }

  /** Every call was accepted exactly while its window's calls, itself included, kept to the limit. */
  ghost predicate Ruled(history: seq<Call>, limit: int, width: int)
    requires width > 0
  {
    forall i :: 0 <= i < |history| ==>
      (history[i].accepted <==>
        Calls(history[..i + 1], history[i].subject, Window(history[i].at, width), width) <= limit)
  }

  type Windows = map<(string, int), nat>

  function CountOf(windows: Windows, subject: string, start: int): nat
  {
    if (subject, start) in windows then windows[(subject, start)] else 0
  }

  /** Pruning keeps two windows back: from there on the table counts every call. */
  ghost predicate Counts(windows: Windows, history: seq<Call>, width: int)
    requires width > 0
  {
    && (history == [] ==> windows == map[])
    && (history != [] ==>
          forall subject, start :: start >= Window(history[|history| - 1].at, width) - 2 * width ==>
            CountOf(windows, subject, start) == Calls(history, subject, start, width))
  }

  lemma CallsSnoc(history: seq<Call>, call: Call, width: int)
    requires width > 0
    ensures forall subject, start ::
      Calls(history + [call], subject, start, width) ==
      Calls(history, subject, start, width) + (if call.subject == subject && Window(call.at, width) == start then 1 else 0)
  {
    assert (history + [call])[..|history|] == history;
  }

  lemma LaterWindow(a: int, b: int, width: int)
    requires width > 0 && a <= b
    ensures Window(a, width) <= Window(b, width)
    ensures Window(a, width) < Window(b, width) ==> Window(a, width) + width <= Window(b, width)
  {
    var p := WindowQuotient(a, width);
    var q := WindowQuotient(b, width);
    if p > q {
      Grows(q, p, width);
    } else if p < q {
      Grows(p, q, width);
    }
  }

  class RateLimiter {
    const limit: int
    const width: int
    var windows: Windows
    ghost var history: seq<Call>

    ghost predicate Valid()
      reads this
    {
      width > 0 && Forward(history) && Ruled(history, limit, width) && Counts(windows, history, width)
    }

    constructor (limit: int, width: int)
      requires width > 0
      ensures Valid() && history == [] && this.limit == limit && this.width == width
    {
      this.limit, this.width, windows, history := limit, width, map[], [];
    }

    method CheckRate(subject: string, now: int) returns (accepted: bool)
      requires Valid() && (history != [] ==> history[|history| - 1].at <= now)
      modifies this
      ensures Valid() && history == old(history) + [Call(subject, now, accepted)]
      ensures accepted <==> Calls(history, subject, Window(now, width), width) <= limit
    {
      hide Window, Counts, Ruled, Calls, Forward, Bumped;
      var start := now - now % width;
      WindowOf(now, width);
      var count := if (subject, start) in windows then windows[(subject, start)] + 1 else 1;
      windows := windows[(subject, start) := count];
      windows := map key | key in windows && key.1 >= start - width * 2 :: windows[key];
      BumpedIs(old(windows), windows, subject, start, count);
      accepted := count <= limit;
      ghost var call := Call(subject, now, accepted);
      CallsSnoc(history, call, width);
      CountedBefore(old(windows), history, subject, now, width);
      StillCounts(old(windows), history, call, width);
      StillRuled(history, call, limit, width);
      history := history + [call];
    }

    lemma BumpedIs(before: Windows, after: Windows, subject: string, start: int, count: nat)
      requires count == if (subject, start) in before then before[(subject, start)] + 1 else 1
      requires after == map key | key in before[(subject, start) := count] && key.1 >= start - width * 2 ::
                          before[(subject, start) := count][key]
      ensures after == Bumped(before, subject, start, width) && count == CountOf(before, subject, start) + 1
    {
    }
  }

  lemma WindowOf(at: int, width: int)
    requires width > 0
    ensures at - at % width == Window(at, width)
  {
  }

  function Bumped(windows: Windows, subject: string, start: int, width: int): Windows
  {
    var bumped := windows[(subject, start) := CountOf(windows, subject, start) + 1];
    map key | key in bumped && key.1 >= start - width * 2 :: bumped[key]
  }

  lemma CountedBefore(windows: Windows, history: seq<Call>, subject: string, now: int, width: int)
    requires width > 0 && Counts(windows, history, width) && Forward(history)
    requires history != [] ==> history[|history| - 1].at <= now
    ensures CountOf(windows, subject, Window(now, width)) == Calls(history, subject, Window(now, width), width)
  {
    if history != [] {
      LaterWindow(history[|history| - 1].at, now, width);
    }
  }

  lemma StillCounts(windows: Windows, history: seq<Call>, call: Call, width: int)
    requires width > 0 && Counts(windows, history, width) && Forward(history)
    requires history != [] ==> history[|history| - 1].at <= call.at
    ensures Counts(Bumped(windows, call.subject, Window(call.at, width), width), history + [call], width)
  {
    hide Window;
    var start := Window(call.at, width);
    CallsSnoc(history, call, width);
    forall subject, s | s >= start - 2 * width
      ensures CountOf(Bumped(windows, call.subject, start, width), subject, s) == Calls(history + [call], subject, s, width)
    {
      if history != [] {
        LaterWindow(history[|history| - 1].at, call.at, width);
        assert CountOf(windows, subject, s) == Calls(history, subject, s, width);
      }
    }
  }

  lemma StillRuled(history: seq<Call>, call: Call, limit: int, width: int)
    requires width > 0 && Ruled(history, limit, width) && Forward(history)
    requires history != [] ==> history[|history| - 1].at <= call.at
    requires call.accepted <==> Calls(history + [call], call.subject, Window(call.at, width), width) <= limit
    ensures Ruled(history + [call], limit, width) && Forward(history + [call])
  {
    hide Window, Calls;
    var longer := history + [call];
    forall i | 0 <= i < |longer|
      ensures longer[i].accepted <==> Calls(longer[..i + 1], longer[i].subject, Window(longer[i].at, width), width) <= limit
    {
      SnocPrefix(history, call, i);
      if i < |history| {
        assert history[i].accepted <==> Calls(history[..i + 1], history[i].subject, Window(history[i].at, width), width) <= limit;
      }
    }
  }

  lemma SnocPrefix(history: seq<Call>, call: Call, i: nat)
    requires i <= |history|
    ensures (history + [call])[..i + 1] == if i < |history| then history[..i + 1] else history + [call]
  {
  }

  // ---------------------------------------------------------------- how much gets through

  /** In an aligned window exactly the first `limit` calls of a subject get through. */
  lemma {:induction false} FirstCallsGetThrough(history: seq<Call>, subject: string, start: int, limit: nat, width: int)
    requires width > 0 && Ruled(history, limit, width) && Window(start, width) == start
    ensures var calls := Calls(history, subject, start, width);
      Accepted(history, subject, start, start + width) == if calls <= limit then calls else limit
  {
    if history != [] {
      var init, last := history[..|history| - 1], history[|history| - 1];
      RuledPrefix(history, limit, width);
      FirstCallsGetThrough(init, subject, start, limit, width);
      assert history[..|history|] == history;
      InWindow(last.at, start, width);
    }
  }

  lemma RuledPrefix(history: seq<Call>, limit: int, width: int)
    requires width > 0 && history != [] && Ruled(history, limit, width)
    ensures Ruled(history[..|history| - 1], limit, width)
    ensures var last := history[|history| - 1];
      last.accepted <==> Calls(history, last.subject, Window(last.at, width), width) <= limit
  {
    var init := history[..|history| - 1];
    assert history[..|history| - 1 + 1] == history;
    forall i | 0 <= i < |init|
      ensures init[i].accepted <==> Calls(init[..i + 1], init[i].subject, Window(init[i].at, width), width) <= limit
    {
      assert init[..i + 1] == history[..i + 1] && init[i] == history[i];
    }
  }

  lemma InWindow(at: int, start: int, width: int)
    requires width > 0 && Window(start, width) == start
    ensures Window(at, width) == start <==> start <= at < start + width
  {
    if start <= at < start + width {
      var q := WindowQuotient(start, width);
      WindowIs(at, q, width);
    }
  }

  /** Any stretch of one window's length lies in two windows. */
  lemma {:induction false} AcceptedSplit(history: seq<Call>, subject: string, from: int, mid: int, until: int)
    requires from <= mid <= until
    ensures Accepted(history, subject, from, until) == Accepted(history, subject, from, mid) + Accepted(history, subject, mid, until)
  {
    if history != [] {
      AcceptedSplit(history[..|history| - 1], subject, from, mid, until);
    }
  }

  lemma {:induction false} AcceptedInside(history: seq<Call>, subject: string, from: int, until: int, from': int, until': int)
    requires from' <= from && until <= until'
    ensures Accepted(history, subject, from, until) <= Accepted(history, subject, from', until')
  {
    if history != [] {
      AcceptedInside(history[..|history| - 1], subject, from, until, from', until');
    }
  }

  /** At most twice the limit gets through in any stretch as long as a window. */
  lemma AtMostTwiceTheLimit(history: seq<Call>, subject: string, from: int, limit: nat, width: int)
    requires width > 0 && Ruled(history, limit, width)
    ensures Accepted(history, subject, from, from + width) <= 2 * limit
  {
    var start := Window(from, width);
    var next := start + width;
    NextWindow(from, width);
    AcceptedSplit(history, subject, from, next, from + width);
    AcceptedInside(history, subject, from, next, start, next);
    AcceptedInside(history, subject, next, from + width, next, next + width);
    FirstCallsGetThrough(history, subject, start, limit, width);
    FirstCallsGetThrough(history, subject, next, limit, width);
  }

  lemma NextWindow(at: int, width: int)
    requires width > 0
    ensures Window(Window(at, width), width) == Window(at, width)
    ensures Window(Window(at, width) + width, width) == Window(at, width) + width
  {
    var q := WindowQuotient(at, width);
    WindowIs(width * q, q, width);
    assert width * (q + 1) == width * q + width;
    WindowIs(width * q + width, q + 1, width);
  }
}
