/** The per-address contribution limiter: windows anchored at the first contribution that opens them. */
module RateLimiter {
  import opened Common

  datatype Limit = Limit(maxAmount: int, seconds: nat)

  /** `RateLimitTimestamp` and `RateLimitAmount` of one address; an anchor of 0 means no window was opened yet. */
  datatype Window = Window(anchor: nat, amount: int)

  const NO_WINDOW := Window(0, 0)

  datatype Entry = Entry(amount: int, time: nat)

  predicate Active(l: Limit) { l.maxAmount > 0 && l.seconds > 0 }

  /** `now.saturating_sub(anchor) < window_seconds`, for an open window. */
  predicate InWindow(l: Limit, w: Window, now: nat) {
    w.anchor > 0 && Max(now - w.anchor, 0) < l.seconds
  }

  /** The window after a contribution, or None when the limiter refuses it. */
  function Admit(l: Limit, w: Window, e: Entry): Option<Window> {
    if !Active(l) then Some(w)
    else if InWindow(l, w, e.time) then
      if w.amount + e.amount > l.maxAmount then None else Some(Window(w.anchor, w.amount + e.amount))
    else
      if e.amount > l.maxAmount then None else Some(Window(e.time, e.amount))
  }

  // ---------- Runs of admitted contributions ----------

  function Amounts(es: seq<Entry>): int {
    if es == [] then 0 else es[0].amount + Amounts(es[1..])
  }

  predicate Admitted(l: Limit, w: Window, es: seq<Entry>)
    decreases |es|
  {
    es == [] || (Admit(l, w, es[0]).Some? && Admitted(l, Admit(l, w, es[0]).value, es[1..]))
  }

  function WindowAfter(l: Limit, w: Window, es: seq<Entry>): Window
    requires Admitted(l, w, es)
    decreases |es|
  {
    if es == [] then w else WindowAfter(l, Admit(l, w, es[0]).value, es[1..])
  }

  /** Positive amounts at positive ledger times that never decrease, the first not before the open window. */
  predicate Timely(w: Window, es: seq<Entry>) {
    && (forall i :: 0 <= i < |es| ==> es[i].amount > 0 && es[i].time > 0 && w.anchor <= es[i].time)
    && (forall i, j :: 0 <= i < j < |es| ==> es[i].time <= es[j].time)
  }

  /** The window that the entry at `i` meets. */
  function WindowBefore(l: Limit, w: Window, es: seq<Entry>, i: nat): Window
    requires Admitted(l, w, es) && i <= |es|
    decreases i
  {
    if i == 0 then w else WindowBefore(l, Admit(l, w, es[0]).value, es[1..], i - 1)
  }

  lemma {:induction false} AdmittedPrefix(l: Limit, w: Window, es: seq<Entry>, n: nat)
    requires Admitted(l, w, es) && n <= |es|
    ensures Admitted(l, w, es[..n])
    decreases n
  {
    if n > 0 {
      assert es[..n][1..] == es[1..][..n - 1];
      AdmittedPrefix(l, Admit(l, w, es[0]).value, es[1..], n - 1);
    }
  }

  predicate AllInWindow(l: Limit, w: Window, es: seq<Entry>) {
    forall i :: 0 <= i < |es| ==> InWindow(l, w, es[i].time)
  }

  /** Every entry is at `end` or earlier. */
  predicate Until(es: seq<Entry>, end: int) {
    forall i :: 0 <= i < |es| ==> es[i].time <= end
  }

  /** From the entry at `i` to the one before `j` no more than `span` passes. */
  predicate Within(es: seq<Entry>, i: nat, j: nat, span: int) {
    i < j <= |es| && es[j - 1].time - es[i].time <= span
  }

  /** The entry at `i` finds no open window, so it anchors a new one. */
  predicate OpensWindow(l: Limit, w: Window, es: seq<Entry>, i: nat)
    requires Admitted(l, w, es)
  {
    i < |es| && !InWindow(l, WindowBefore(l, w, es, i), es[i].time)
  }

  /** Contributions that all fall into the open window add up, with what it already holds, to at most the maximum. */
  lemma {:induction false} OneWindow(l: Limit, w: Window, es: seq<Entry>)
    requires Active(l) && w.anchor > 0 && w.amount <= l.maxAmount
    requires Timely(w, es) && Admitted(l, w, es)
    requires AllInWindow(l, w, es)
    ensures w.amount + Amounts(es) <= l.maxAmount
    ensures WindowAfter(l, w, es) == Window(w.anchor, w.amount + Amounts(es))
    decreases |es|
  {
    if es != [] {
      OneWindow(l, Admit(l, w, es[0]).value, es[1..]);
    }
  }

  /** Up to twice the window length past the anchor, at most one further window can open. */
  lemma {:induction false} TwoWindows(l: Limit, w: Window, es: seq<Entry>)
    requires Active(l) && w.anchor > 0 && 0 <= w.amount <= l.maxAmount
    requires Timely(w, es) && Admitted(l, w, es)
    requires Until(es, w.anchor + 2 * l.seconds - 1)
    ensures w.amount + Amounts(es) <= 2 * l.maxAmount
    decreases |es|
  {
    if es != [] {
      var next := Admit(l, w, es[0]).value;
      if InWindow(l, w, es[0].time) {
        TwoWindows(l, next, es[1..]);
      } else {
        OneWindow(l, next, es[1..]);
      }
    }
  }

  /**
   * Any admitted contributions of one address that lie within `seconds` of each other add up to at most twice
   * the maximum, whatever window was open before.
   */
  lemma {:induction false} IntervalBound(l: Limit, w: Window, es: seq<Entry>)
    requires Active(l) && 0 <= w.amount && Timely(w, es) && Admitted(l, w, es)
    requires es != [] ==> Within(es, 0, |es|, l.seconds)
    ensures Amounts(es) <= 2 * l.maxAmount
  {
    if es != [] {
      TwoWindows(l, Admit(l, w, es[0]).value, es[1..]);
    }
  }

  /** What is left of a run after its first entry, and its stretches. */
  lemma {:induction false} TimelyTail(l: Limit, w: Window, es: seq<Entry>, i: nat, j: nat, span: int)
    requires Active(l) && 0 <= w.amount && Timely(w, es) && Admitted(l, w, es)
    requires 0 < i && Within(es, i, j, span)
    ensures var next := Admit(l, w, es[0]).value;
      0 <= next.amount && Timely(next, es[1..]) && Admitted(l, next, es[1..])
    ensures Within(es[1..], i - 1, j - 1, span) && es[1..][i - 1..j - 1] == es[i..j]
  {
  }

  /** The same for any stretch of a longer run. */
  lemma {:induction false} StretchBound(l: Limit, w: Window, es: seq<Entry>, i: nat, j: nat)
    requires Active(l) && 0 <= w.amount && Timely(w, es) && Admitted(l, w, es)
    requires Within(es, i, j, l.seconds)
    ensures Amounts(es[i..j]) <= 2 * l.maxAmount
    decreases i
  {
    if i == 0 {
      AdmittedPrefix(l, w, es, j);
      IntervalBound(l, w, es[..j]);
      assert es[..j] == es[0..j];
    } else {
      TimelyTail(l, w, es, i, j, l.seconds);
      StretchBound(l, Admit(l, w, es[0]).value, es[1..], i - 1, j - 1);
    }
  }

  lemma {:induction false} FirstWindowBound(l: Limit, w: Window, es: seq<Entry>, j: nat)
    requires Active(l) && 0 <= w.amount && Timely(w, es) && Admitted(l, w, es)
    requires Within(es, 0, j, l.seconds - 1) && OpensWindow(l, w, es, 0)
    ensures Amounts(es[0..j]) <= l.maxAmount
  {
    AdmittedPrefix(l, w, es, j);
    var stretch := es[0..j];
    assert es[..j] == stretch && stretch[0] == es[0];
    OneWindow(l, Admit(l, w, es[0]).value, stretch[1..]);
  }

  /** Within one anchored window (the entry that opens it and all that falls inside) the sum is at most the maximum. */
  lemma {:induction false} AnchoredWindowBound(l: Limit, w: Window, es: seq<Entry>, i: nat, j: nat)
    requires Active(l) && 0 <= w.amount && Timely(w, es) && Admitted(l, w, es)
    requires Within(es, i, j, l.seconds - 1) && OpensWindow(l, w, es, i)
    ensures Amounts(es[i..j]) <= l.maxAmount
    decreases i
  {
    if i == 0 {
      FirstWindowBound(l, w, es, j);
    } else {
      TimelyTail(l, w, es, i, j, l.seconds - 1);
      AnchoredWindowBound(l, Admit(l, w, es[0]).value, es[1..], i - 1, j - 1);
    }
  }

  // ---------- Exactly what is admitted ----------

  /**
   * Which entry opened the window that a run ends in, from the times alone: the last one stays in the window of the
   * run before it when less than `seconds` passed since that was opened. -1 stands for the window `w` at the start.
   */
  function Opener(l: Limit, w: Window, es: seq<Entry>): int
    decreases |es|
  {
    if es == [] then -1
    else
      var n := |es| - 1;
      var o := Opener(l, w, es[..n]);
      var anchor := if 0 <= o < n then es[o].time else w.anchor;
      if anchor != 0 && es[n].time < anchor + l.seconds then o else n
  }

  /** The amounts in that window, the last one included. */
  function InItsWindow(l: Limit, w: Window, es: seq<Entry>): int {
    var o := Opener(l, w, es);
    if 0 <= o < |es| then Amounts(es[o..]) else w.amount + Amounts(es)
  }

  predicate FillsNoWindow(l: Limit, w: Window, es: seq<Entry>) {
    forall n :: 1 <= n <= |es| ==> InItsWindow(l, w, es[..n]) <= l.maxAmount
  }

  lemma {:induction false} OpenerInRange(l: Limit, w: Window, es: seq<Entry>)
    ensures -1 <= Opener(l, w, es) < |es|
    decreases |es|
  {
    if es != [] { OpenerInRange(l, w, es[..|es| - 1]); }
  }

  lemma {:induction false} AmountsAppend(es: seq<Entry>, e: Entry)
    ensures Amounts(es + [e]) == Amounts(es) + e.amount
    decreases |es|
  {
    if es == [] {
      assert Amounts([e]) == e.amount + Amounts([]);
    } else {
      assert (es + [e])[1..] == es[1..] + [e];
      AmountsAppend(es[1..], e);
    }
  }

  lemma {:induction false} AdmittedAppend(l: Limit, w: Window, es: seq<Entry>, e: Entry)
    ensures Admitted(l, w, es + [e]) <==> Admitted(l, w, es) && Admit(l, WindowAfter(l, w, es), e).Some?
    ensures Admitted(l, w, es + [e]) ==> WindowAfter(l, w, es + [e]) == Admit(l, WindowAfter(l, w, es), e).value
    decreases |es|
  {
    var all := es + [e];
    if es == [] {
      assert all[1..] == [];
    } else {
      assert all[1..] == es[1..] + [e] && all[0] == es[0];
      if Admit(l, w, es[0]).Some? {
        AdmittedAppend(l, Admit(l, w, es[0]).value, es[1..], e);
      }
    }
  }

  /** The time the window of a run was opened at. */
  function OpenedAt(l: Limit, w: Window, es: seq<Entry>): nat {
    var o := Opener(l, w, es);
    if 0 <= o < |es| then es[o].time else w.anchor
  }

  /** The next entry stays in the window of the run before it, or opens its own. */
  lemma {:induction false} NextOpener(l: Limit, w: Window, es: seq<Entry>, e: Entry)
    ensures var anchor, all := OpenedAt(l, w, es), es + [e];
      if anchor != 0 && e.time < anchor + l.seconds then
        && Opener(l, w, all) == Opener(l, w, es) && OpenedAt(l, w, all) == anchor
        && InItsWindow(l, w, all) == InItsWindow(l, w, es) + e.amount
      else OpenedAt(l, w, all) == e.time && InItsWindow(l, w, all) == e.amount
  {
    var all, o := es + [e], Opener(l, w, es);
    OpenerInRange(l, w, es);
    assert all[..|es|] == es && all[|es|] == e;
    if OpenedAt(l, w, es) != 0 && e.time < OpenedAt(l, w, es) + l.seconds {
      assert Opener(l, w, all) == o;
      if 0 <= o {
        assert all[o] == es[o] && all[o..] == es[o..] + [e];
        AmountsAppend(es[o..], e);
      } else {
        AmountsAppend(es, e);
      }
    } else {
      assert Opener(l, w, all) == |es| && all[|es|..] == [e];
      assert Amounts([e]) == e.amount + Amounts([]);
    }
  }

  lemma {:induction false} OpenedEarlier(l: Limit, w: Window, es: seq<Entry>, e: Entry)
    requires Timely(w, es + [e])
    ensures OpenedAt(l, w, es) <= e.time && 0 < e.time
  {
    var all, o := es + [e], Opener(l, w, es);
    OpenerInRange(l, w, es);
    assert all[|es|] == e;
    if 0 <= o { assert all[o] == es[o]; }
  }

  lemma {:induction false} AdmitInNumbers(l: Limit, w: Window, e: Entry)
    requires Active(l) && w.anchor <= e.time
    ensures var inside := w.anchor != 0 && e.time < w.anchor + l.seconds;
      var after := if inside then Window(w.anchor, w.amount + e.amount) else Window(e.time, e.amount);
      Admit(l, w, e) == if after.amount <= l.maxAmount then Some(after) else None
  {
  }

  /** What the limiter stores after an admitted run is that window: when it was opened, and what it holds. */
  lemma {:induction false} WindowIsItsOpener(l: Limit, w: Window, es: seq<Entry>, e: Entry)
    requires Active(l) && Timely(w, es + [e])
    ensures var next := Admit(l, Window(OpenedAt(l, w, es), InItsWindow(l, w, es)), e);
      && (next.Some? <==> InItsWindow(l, w, es + [e]) <= l.maxAmount)
      && (next.Some? ==> next.value == Window(OpenedAt(l, w, es + [e]), InItsWindow(l, w, es + [e])))
  {
    NextOpener(l, w, es, e);
    OpenedEarlier(l, w, es, e);
    AdmitInNumbers(l, Window(OpenedAt(l, w, es), InItsWindow(l, w, es)), e);
  }

  lemma {:induction false} OneMoreFillsNoWindow(l: Limit, w: Window, es: seq<Entry>)
    requires es != []
    ensures var es' := es[..|es| - 1];
      FillsNoWindow(l, w, es) <==> FillsNoWindow(l, w, es') && InItsWindow(l, w, es) <= l.maxAmount
  {
    var es' := es[..|es| - 1];
    assert es[..|es|] == es;
    assert forall n :: 1 <= n <= |es'| ==> es'[..n] == es[..n];
  }

  lemma {:induction false} TimelyPrefix(w: Window, es: seq<Entry>, n: nat)
    requires Timely(w, es) && n <= |es|
    ensures Timely(w, es[..n])
  {
  }

  /**
   * The limiter admits a run of contributions if and only if after each of them the amounts in its window, counted
   * from the entry that opened it, are within the maximum: nothing more is admitted, and nothing less.
   */
  lemma {:induction false} AdmittedIff(l: Limit, w: Window, es: seq<Entry>)
    requires Active(l) && Timely(w, es)
    ensures Admitted(l, w, es) <==> FillsNoWindow(l, w, es)
    ensures Admitted(l, w, es) ==> WindowAfter(l, w, es) == Window(OpenedAt(l, w, es), InItsWindow(l, w, es))
    decreases |es|
  {
    if es != [] {
      var es', e := es[..|es| - 1], es[|es| - 1];
      assert es == es' + [e];
      TimelyPrefix(w, es, |es| - 1);
      AdmittedIff(l, w, es');
      AdmittedAppend(l, w, es', e);
      OneMoreFillsNoWindow(l, w, es);
      if Admitted(l, w, es') { WindowIsItsOpener(l, w, es', e); }
    }
  }

  lemma {:induction false} TimelyAppend(w: Window, es: seq<Entry>, e: Entry)
    requires Timely(w, es) && Until(es, e.time) && 0 < e.amount && 0 < e.time && w.anchor <= e.time
    ensures Timely(w, es + [e])
  {
  }

  /**
   * One more contribution after an admitted run: admitted if and only if, within the window, everything since its
   * opening adds up with it to at most the maximum, and, once that is over, its own amount does.
   */
  lemma {:induction false} NextAdmittedIff(l: Limit, w: Window, es: seq<Entry>, e: Entry)
    requires Active(l) && Timely(w, es) && Admitted(l, w, es)
    requires Until(es, e.time) && 0 < e.amount && 0 < e.time && w.anchor <= e.time
    ensures var o := Opener(l, w, es); var anchor := OpenedAt(l, w, es);
      var since := if 0 <= o < |es| then Amounts(es[o..]) else w.amount + Amounts(es);
      Admit(l, WindowAfter(l, w, es), e).Some?
      <==> (if anchor != 0 && e.time < anchor + l.seconds then since else 0) + e.amount <= l.maxAmount
  {
    TimelyAppend(w, es, e);
    AdmittedIff(l, w, es);
    NextOpener(l, w, es, e);
    WindowIsItsOpener(l, w, es, e);
  }

  /**
   * The bound is sharp, and the limit is not the rolling window its documentation describes: under every active
   * limit an address can put in the maximum at some time and again exactly one window length later.
   */
  lemma {:induction false} WindowsAreNotRolling(l: Limit, start: nat)
    requires Active(l) && 0 < start
    ensures var es := [Entry(l.maxAmount, start), Entry(l.maxAmount, start + l.seconds)];
      && Timely(NO_WINDOW, es) && Admitted(l, NO_WINDOW, es)
      && es[1].time == es[0].time + l.seconds && Amounts(es) == 2 * l.maxAmount
  {
    var es := [Entry(l.maxAmount, start), Entry(l.maxAmount, start + l.seconds)];
    assert es[1..][1..] == [];
    assert Amounts(es[1..]) == l.maxAmount + Amounts([]);
    var w := Admit(l, NO_WINDOW, es[0]).value;
    assert Admitted(l, Admit(l, w, es[1]).value, []);
    assert Admitted(l, w, es[1..]);
  }

  /** At ledger time 0 the anchor is indistinguishable from "no window", so nothing is limited; hence positive times. */
  lemma {:induction false} TimeZeroIsUnlimited(l: Limit, n: nat)
    requires Active(l)
    ensures Admitted(l, NO_WINDOW, seq(n, _ => Entry(l.maxAmount, 0)))
    ensures Amounts(seq(n, _ => Entry(l.maxAmount, 0))) == n * l.maxAmount
  {
    FullAtZero(l, NO_WINDOW, n);
  }

  lemma {:induction false} FullAtZero(l: Limit, w: Window, n: nat)
    requires Active(l) && w.anchor == 0
    decreases n
    ensures Admitted(l, w, seq(n, _ => Entry(l.maxAmount, 0)))
    ensures Amounts(seq(n, _ => Entry(l.maxAmount, 0))) == n * l.maxAmount
  {
    var es := seq(n, _ => Entry(l.maxAmount, 0));
    if n > 0 {
      assert es[1..] == seq(n - 1, _ => Entry(l.maxAmount, 0));
      FullAtZero(l, Admit(l, w, es[0]).value, n - 1);
    }
  }
}
