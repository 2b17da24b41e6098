/**
 * Browser-side helpers of the dashboard (backend/ui/static/js/dashboard.js):
 * the sliding window of chart points, the spinner shown on a button while
 * an action runs, and the text of the toast that reports the action's end.
 * Timers, fetch, and Chart.js drawing are outside the model.
 */
module Dashboard {
  import opened Wrappers

  /** A chart keeps only the last 20 points. */
  const MaxPoints: nat := 20

  /** One push onto a series, followed by one shift when `trim` is set. */
  function Slide<T>(s: seq<T>, x: T, trim: bool): seq<T>
  {
    if trim then (s + [x])[1..] else s + [x]
  }

  /** Pushing onto a series whose length decides its own trimming. */
  function Window<T>(s: seq<T>, x: T): seq<T>
  {
    Slide(s, x, |s| + 1 > MaxPoints)
  }

  /** The chart data a Chart.js line chart holds: x labels and one dataset's values. */
  class Chart {
    var labels: seq<string>
    var data: seq<real>

    constructor ()
      ensures labels == [] && data == []
    {
      labels := [];
      data := [];
    }

    /**
     * `addPoint`: push the label and the value; when there are more than 20
     * labels, shift the oldest label and the oldest value.
     */
    method AddPoint(timeLabel: string, value: real)
      modifies this
      ensures labels == Window(old(labels), timeLabel)
      ensures data == Slide(old(data), value, |old(labels)| + 1 > MaxPoints)
      ensures |old(labels)| == |old(data)| ==> |labels| == |data| && data == Window(old(data), value)
    {
      labels := labels + [timeLabel];
      data := data + [value];
      if |labels| > MaxPoints {
        labels := labels[1..];
        data := data[1..];
      }
    }
  }

  /** One point added to a series of at most 20: the new length is min(old + 1, 20), the new value last. */
  lemma WindowShape<T>(s: seq<T>, x: T)
    requires |s| <= MaxPoints
    ensures |Window(s, x)| == if |s| + 1 <= MaxPoints then |s| + 1 else MaxPoints
    ensures Window(s, x)[|Window(s, x)| - 1] == x
    ensures |s| == MaxPoints ==> Window(s, x) == s[1..] + [x]
    ensures |s| < MaxPoints ==> Window(s, x) == s + [x]
  {
  }

  /** Several points pushed one after another, in order. */
  function PushAll<T>(s: seq<T>, xs: seq<T>): seq<T>
    decreases |xs|
  {
    if xs == [] then s else PushAll(Window(s, xs[0]), xs[1..])
  }

  /** The last `n` elements of `s` (all of them when there are fewer). */
  function Last<T>(s: seq<T>, n: nat): (r: seq<T>)
    ensures |r| == if |s| <= n then |s| else n
  {
    if |s| <= n then s else s[|s| - n..]
  }

  /**
   * Starting from at most 20 points, the chart always shows exactly the 20
   * most recent points (all of them while there are fewer), oldest first.
   */
  lemma {:induction false} PushAllKeepsLastPoints<T>(s: seq<T>, xs: seq<T>)
    requires |s| <= MaxPoints
    ensures PushAll(s, xs) == Last(s + xs, MaxPoints)
    decreases |xs|
  {
    if xs != [] {
      var w := Window(s, xs[0]);
      WindowIsLast(s, xs[0]);
      PushAllKeepsLastPoints(w, xs[1..]);
      LastAppend(s + [xs[0]], xs[1..], MaxPoints);
      assert s + [xs[0]] + xs[1..] == s + xs;
    }
  }

  /** From at most 20 points, one push keeps the last 20 of the extended series. */
  lemma WindowIsLast<T>(s: seq<T>, x: T)
    requires |s| <= MaxPoints
    ensures |Window(s, x)| <= MaxPoints
    ensures Window(s, x) == Last(s + [x], MaxPoints)
  {
    if |s| == MaxPoints {
      assert (s + [x])[1..] == (s + [x])[|s + [x]| - MaxPoints..];
    }
  }

  lemma LastAppend<T>(a: seq<T>, b: seq<T>, n: nat)
    ensures Last(Last(a, n) + b, n) == Last(a + b, n)
  {
    if |a| > n {
      var k := |a| - n;
      assert Last(a, n) + b == (a + b)[k..];
    }
  }

  /** The HTML a spinner appends to a button's label. */
  const SpinnerMarkup: string := " <span class=\"spinner\"></span>"

  /** A button's visible HTML and its `data-original` attribute (None once deleted). */
  class Button {
    var innerHTML: string
    var original: Option<string>

    constructor (html: string)
      ensures innerHTML == html && original == None
    {
      innerHTML := html;
      original := None;
    }

    /** `showSpinner`: remember the label, then append the spinner. */
    method ShowSpinner()
      modifies this
      ensures original == Some(old(innerHTML))
      ensures innerHTML == old(innerHTML) + SpinnerMarkup
    {
      original := Some(innerHTML);
      innerHTML := innerHTML + SpinnerMarkup;
    }

    /**
     * `hideSpinner`: when a non-empty original is saved (a truthy dataset
     * value), restore it and delete it; otherwise do nothing.
     */
    method HideSpinner()
      modifies this
      ensures old(original).Some? && old(original).value != "" ==>
                innerHTML == old(original).value && original == None
      ensures !(old(original).Some? && old(original).value != "") ==>
                innerHTML == old(innerHTML) && original == old(original)
    {
      if original.Some? && original.value != "" {
        innerHTML := original.value;
        original := None;
      }
    }
  }

  /** The button's state as a value, for reasoning about sequences of the two helpers. */
  datatype ButtonState = ButtonState(html: string, original: Option<string>)

  function Shown(b: ButtonState): ButtonState
  {
    ButtonState(b.html + SpinnerMarkup, Some(b.html))
  }

  function Hidden(b: ButtonState): ButtonState
  {
    if b.original.Some? && b.original.value != "" then ButtonState(b.original.value, None) else b
  }

  /**
   * Show then hide restores a non-empty label exactly and clears the saved
   * copy; hiding is idempotent; on an empty label the spinner stays.
   */
  lemma SpinnerRoundTrip(b: ButtonState)
    ensures b.html != "" ==> Hidden(Shown(b)) == ButtonState(b.html, None)
    ensures Hidden(Hidden(b)) == Hidden(b)
    ensures b.original.None? ==> Hidden(b) == b
    ensures b.html == "" ==> Hidden(Shown(b)).html == SpinnerMarkup
  {
  }

  /** Which kind of action button was pressed. */
  datatype Action = AgentAction(agent: string, action: string) | SystemAction(action: string)

  /** The JSON reply to an action request: its `status` and `message` fields, when present as strings. */
  datatype Reply = Reply(status: Option<string>, message: Option<string>)

  /** How the request ended: a parsed reply, or a rejected `fetch` or `res.json()`. */
  datatype Outcome = Answered(reply: Reply) | RequestFailed

  const ErrorPrefix: string := "Error: "

  /** The text shown while the request runs. */
  function RunningText(a: Action): string
  {
    match a
    case AgentAction(agent, action) => "Running " + action + " on " + agent + "..."
    case SystemAction(action) => "Running: " + action + "..."
  }

  /** The text shown when the action completed. */
  function CompletedText(a: Action): string
  {
    match a
    case AgentAction(agent, action) => agent + " " + action + " completed"
    case SystemAction(action) => action + " completed successfully"
  }

  /** The text of the catch block. */
  function FailedText(a: Action): string
  {
    match a
    case AgentAction(_, _) => "Action failed"
    case SystemAction(_) => "System action failed"
  }

  /** `data.message || "Unknown failure"`: a missing or empty message falls back to the default. */
  function FailureDetail(r: Reply): string
  {
    if r.message.Some? && r.message.value != "" then r.message.value else "Unknown failure"
  }

  /** The toast text once a reply has been parsed. */
  function ToastText(a: Action, r: Reply): (t: string)
    ensures r.status == Some("ok") ==> t == CompletedText(a)
    ensures r.status != Some("ok") ==> |t| > |ErrorPrefix| && t[..|ErrorPrefix|] == ErrorPrefix
  {
    if r.status == Some("ok") then CompletedText(a) else ErrorPrefix + FailureDetail(r)
  }

  /** The detail of an error toast can be read back: the message when there is one, otherwise the default. */
  lemma ErrorToastCarriesMessage(a: Action, r: Reply)
    requires r.status != Some("ok")
    ensures ToastText(a, r)[|ErrorPrefix|..] == FailureDetail(r)
    ensures r.message.Some? && r.message.value != "" ==> ToastText(a, r)[|ErrorPrefix|..] == r.message.value
    ensures r.message.None? ==> ToastText(a, r)[|ErrorPrefix|..] == "Unknown failure"
  {
  }

  /** What the user sees once an action has run: the toast's text and the clicked button. */
  datatype Screen = Screen(toast: string, button: ButtonState)

  /**
   * `agentAction` and `systemAction` as written. After a reply, the toast
   * shows its text and the clicked button is restored. On a failed request
   * the catch block calls `hideSpinner(event.target)`; `event` is the global
   * `window.event`, which no longer holds the click once the function has
   * resumed after an `await`, so that line throws and the rest of the block
   * never runs: the running text and the spinner stay.
   */
  function ActionOutcomeAsWritten(a: Action, b: ButtonState, o: Outcome): Screen
  {
    match o
    case Answered(r) => Screen(ToastText(a, r), Hidden(Shown(b)))
    case RequestFailed => Screen(RunningText(a), Shown(b))
  }

  /** The action with the catch block hiding the spinner of the clicked button it already holds. */
  function ActionOutcome(a: Action, b: ButtonState, o: Outcome): Screen
  {
    match o
    case Answered(r) => Screen(ToastText(a, r), Hidden(Shown(b)))
    case RequestFailed => Screen(FailedText(a), Hidden(Shown(b)))
  }

  /** The input that shows it: as written, a failed request leaves the running text and the spinner. */
  lemma FailedRequestKeepsSpinner(a: Action, b: ButtonState)
    ensures ActionOutcomeAsWritten(a, b, RequestFailed).toast == RunningText(a)
    ensures ActionOutcomeAsWritten(a, b, RequestFailed).button.html == b.html + SpinnerMarkup
    ensures ActionOutcomeAsWritten(a, b, RequestFailed).button.original == Some(b.html)
    ensures ActionOutcome(a, b, RequestFailed).toast == FailedText(a)
    ensures b.html != "" ==> ActionOutcome(a, b, RequestFailed).button == ButtonState(b.html, None)
  {
    SpinnerRoundTrip(b);
  }

  /**
   * Once the action has run, the toast no longer says it is running and a
   * labelled button is back to its label; after a reply this is also what
   * the code as written shows.
   */
  lemma ActionOutcomeSettles(a: Action, b: ButtonState, o: Outcome)
    ensures ActionOutcome(a, b, o).toast != RunningText(a)
    ensures b.html != "" ==> ActionOutcome(a, b, o).button == ButtonState(b.html, None)
    ensures o.Answered? ==> ActionOutcome(a, b, o) == ActionOutcomeAsWritten(a, b, o)
    ensures o.Answered? ==> ActionOutcome(a, b, o).toast == ToastText(a, o.reply)
    ensures o.RequestFailed? ==> ActionOutcome(a, b, o).toast == FailedText(a)
  {
    SpinnerRoundTrip(b);
    var run := RunningText(a);
    var t := ActionOutcome(a, b, o).toast;
    assert run[0] == 'R' && run[|run| - 1] == '.';
    match o
    case RequestFailed =>
      assert t[0] != 'R';
    case Answered(r) =>
      if r.status == Some("ok") {
        assert t[|t| - 1] != '.';
      } else {
        assert t[0] == 'E';
      }
  }

  /**
   * One action on the clicked button, as the corrected handlers run it:
   * show the spinner and the running text, then, whatever the outcome, set
   * the final text and hide the spinner.
   */
  method RunAction(btn: Button, a: Action, o: Outcome) returns (toast: string)
    modifies btn
    ensures Screen(toast, ButtonState(btn.innerHTML, btn.original)) ==
            ActionOutcome(a, ButtonState(old(btn.innerHTML), old(btn.original)), o)
  {
    btn.ShowSpinner();
    toast := RunningText(a);
    match o
    case Answered(r) =>
      toast := ToastText(a, r);
      btn.HideSpinner();
    case RequestFailed =>
      btn.HideSpinner();
      toast := FailedText(a);
  }
}
