/** src/components/TipPanel.jsx: the history of the last five tips, the
    visibility flag set by a new tip, and the two classifications of a tip's
    severity (card class and icon). */
module TipPanel {
  import opened Wrappers
  import opened ClientApp

  const HistoryLimit: nat := 5

  /** `[tip, ...prev].slice(0, 5)`. */
  function PushHistory(tip: CurrentTip, prev: seq<CurrentTip>): (h: seq<CurrentTip>)
    ensures |h| == if |prev| < HistoryLimit then |prev| + 1 else HistoryLimit
    ensures h[0] == tip
    ensures h[1..] == prev[..|h| - 1]
  {
    var newHistory := [tip] + prev;
    var h := newHistory[..if |newHistory| < HistoryLimit then |newHistory| else HistoryLimit];
    assert h[1..] == prev[..|h| - 1];
    h
  }

  /** The first (at most) five elements. */
  function Recent(s: seq<CurrentTip>): (r: seq<CurrentTip>)
    ensures |r| <= HistoryLimit
  {
    if |s| <= HistoryLimit then s else s[..HistoryLimit]
  }

  function Reversed(s: seq<CurrentTip>): (r: seq<CurrentTip>)
    ensures |r| == |s|
  {
    if s == [] then [] else Reversed(s[1..]) + [s[0]]
  }

  /** The history after the tips `ts` arrive one after the other. */
  function PushAll(prev: seq<CurrentTip>, ts: seq<CurrentTip>): seq<CurrentTip>
    decreases |ts|
  {
    if ts == [] then prev else PushAll(PushHistory(ts[0], prev), ts[1..])
  }

  lemma RecentCons(t: CurrentTip, s: seq<CurrentTip>)
    ensures PushHistory(t, s) == Recent([t] + s)
  {
  }

  /** Starting from a history of at most five, the history after the tips
      `ts` is the five most recent of all tips, newest first. */
  lemma {:induction false} PushAllIsRecent(prev: seq<CurrentTip>, ts: seq<CurrentTip>)
    requires |prev| <= HistoryLimit
    ensures PushAll(prev, ts) == Recent(Reversed(ts) + prev)
    decreases |ts|
  {
    if ts == [] {
      assert Reversed(ts) + prev == prev;
    } else {
      var t, rest := ts[0], ts[1..];
      var next := PushHistory(t, prev);
      assert PushAll(prev, ts) == PushAll(next, rest);
      RecentCons(t, prev);
      PushAllIsRecent(next, rest);
      RecentAppend(Reversed(rest), [t] + prev);
      assert Reversed(ts) == Reversed(rest) + [t];
      assert Reversed(rest) + ([t] + prev) == Reversed(ts) + prev;
    }
  }

  /** Cutting the tail to five first does not change the first five. */
  lemma RecentAppend(a: seq<CurrentTip>, b: seq<CurrentTip>)
    ensures Recent(a + Recent(b)) == Recent(a + b)
  {
  }

  /** `getSeverityClass`. */
  function SeverityClass(severity: string): (c: string)
    ensures c == "tip-warning" <==> severity == "warning"
    ensures c == "tip-alert" <==> severity == "alert"
    ensures c == "tip-normal" <==> severity != "warning" && severity != "alert"
  {
    match severity
    case "warning" => "tip-warning"
    case "alert" => "tip-alert"
    case _ => "tip-normal"
  }

  /** The icons `renderIcon` draws, with their colour classes. */
  datatype Icon = ExclamationTriangle | ExclamationCircle | Lightbulb {
    function ColourClass(): (c: string)
      ensures c == "text-yellow-500" <==> this == ExclamationTriangle
      ensures c == "text-red-500" <==> this == ExclamationCircle
      ensures c == "text-blue-500" <==> this == Lightbulb
    {
      match this
      case ExclamationTriangle => "text-yellow-500"
      case ExclamationCircle => "text-red-500"
      case Lightbulb => "text-blue-500"
    }
  }

  /** `renderIcon`. */
  function IconFor(severity: string): (i: Icon)
    ensures i == ExclamationTriangle <==> severity == "warning"
    ensures i == ExclamationCircle <==> severity == "alert"
    ensures i == Lightbulb <==> severity != "warning" && severity != "alert"
  {
    match severity
    case "warning" => ExclamationTriangle
    case "alert" => ExclamationCircle
    case _ => Lightbulb
  }

  /** The card class and the icon split the severities the same way. */
  lemma IconAgreesWithClass(severity: string)
    ensures SeverityClass(severity) == "tip-warning" <==> IconFor(severity) == ExclamationTriangle
    ensures SeverityClass(severity) == "tip-alert" <==> IconFor(severity) == ExclamationCircle
    ensures SeverityClass(severity) == "tip-normal" <==> IconFor(severity) == Lightbulb
  {
  }

  /** The component's state. */
  class TipPanelState {
    var isVisible: bool
    var tipHistory: seq<CurrentTip>

    ghost predicate Valid()
      reads this
    {
      |tipHistory| <= HistoryLimit
    }

    constructor ()
      ensures Valid()
      ensures !isVisible && tipHistory == []
    {
      isVisible := false;
      tipHistory := [];
    }

    /** The effect run when the `tip` prop changes: a tip makes the panel
        visible and enters the history; no tip changes nothing. */
    method OnTipChanged(tip: Option<CurrentTip>)
      requires Valid()
      modifies this
      ensures Valid()
      ensures tip.None? ==> isVisible == old(isVisible) && tipHistory == old(tipHistory)
      ensures tip.Some? ==> isVisible && tipHistory == PushHistory(tip.value, old(tipHistory))
    {
      if tip.Some? {
        isVisible := true;
        tipHistory := PushHistory(tip.value, tipHistory);
      }
    }

    /** The 10-second timer a tip starts has fired: the card fades out and
        the history stays. */
    method OnHideTimer()
      requires Valid()
      modifies this
      ensures Valid()
      ensures !isVisible && tipHistory == old(tipHistory)
    {
      isVisible := false;
    }
  }
}
