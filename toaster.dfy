/** The toast renderer: it shows the severity and message it is given, and
    keeps an `open` flag that a non-empty toast sets and that every close
    except a click-away clears. */
module ToasterView {
  import opened Common
  import opened ClientTypes

  /** The snackbar closes itself with reason 'timeout' after this long. */
  const AutoHideDurationMs: nat := 5000
  const ClickAwayReason: string := "clickaway"
  const TimeoutReason: string := "timeout"

  /** What reaches the toaster: a new toast from its provider, or a close
      request with the reason the snackbar or the alert gives (none for the
      alert's close button). */
  datatype ToasterEvent = ToastChanged(toast: Toast) | Close(reason: Option<string>)

  function OpenStep(open: bool, e: ToasterEvent): bool {
    match e
    case ToastChanged(t) => if t.message != "" then true else open
    case Close(reason) => if reason == Some(ClickAwayReason) then open else false
  }

  function OpenRun(open: bool, es: seq<ToasterEvent>): bool
    decreases |es|
  {
    if |es| == 0 then open else OpenRun(OpenStep(open, es[0]), es[1..])
  }

  /** Reference definition of the flag: the last event that decides
      anything wins; a non-empty toast opens, a close other than a
      click-away closes, and the other events decide nothing. */
  function LastDecision(es: seq<ToasterEvent>): Option<bool>
    decreases |es|
  {
    if |es| == 0 then None
    else
      match es[|es| - 1]
      case ToastChanged(t) => if t.message != "" then Some(true) else LastDecision(es[..|es| - 1])
      case Close(r) => if r != Some(ClickAwayReason) then Some(false) else LastDecision(es[..|es| - 1])
  }

  lemma {:induction false} OpenRunSnoc(open: bool, es: seq<ToasterEvent>, e: ToasterEvent)
    ensures OpenRun(open, es + [e]) == OpenStep(OpenRun(open, es), e)
    decreases |es|
  {
    if |es| == 0 {
      assert es + [e] == [e];
      assert [e][1..] == [];
    } else {
      assert (es + [e])[1..] == es[1..] + [e];
      OpenRunSnoc(OpenStep(open, es[0]), es[1..], e);
    }
  }

  /** The flag after any sequence of events is what the last deciding event
      says, or what it was if no event decides. */
  lemma {:induction false} OpenRunIsLastDecision(open: bool, es: seq<ToasterEvent>)
    ensures OpenRun(open, es) == LastDecision(es).GetOr(open)
    decreases |es|
  {
    if |es| > 0 {
      var init, last := es[..|es| - 1], es[|es| - 1];
      assert es == init + [last];
      OpenRunSnoc(open, init, last);
      OpenRunIsLastDecision(open, init);
    }
  }

  /** Click-aways and empty toasts never close an open toast. */
  lemma ClickAwayKeepsOpen(es: seq<ToasterEvent>)
    requires forall i :: 0 <= i < |es| ==> es[i] == Close(Some(ClickAwayReason)) || (es[i].ToastChanged? && es[i].toast.message == "")
    ensures OpenRun(true, es)
  {
    OpenRunIsLastDecision(true, es);
    NoDecision(es);
  }

  lemma {:induction false} NoDecision(es: seq<ToasterEvent>)
    requires forall i :: 0 <= i < |es| ==> es[i] == Close(Some(ClickAwayReason)) || (es[i].ToastChanged? && es[i].toast.message == "")
    ensures LastDecision(es) == None
    decreases |es|
  {
    if |es| > 0 {
      NoDecision(es[..|es| - 1]);
    }
  }

  class Toaster {
    var open: bool
    /** The severity and message handed to the alert, as given. */
    var shown: Toast

    /** Mounting: closed, then the effect runs once for the first toast. */
    constructor (initial: Toast)
      ensures shown == initial
      ensures open == OpenStep(false, ToastChanged(initial))
    {
      shown := initial;
      open := false;
      if initial.message != "" {
        open := true;
      }
    }

    /** A new toast from the provider: shown as given; the effect opens the
        snackbar when the message is non-empty. */
    method OnToastChange(t: Toast)
      modifies this
      ensures shown == t
      ensures open == OpenStep(old(open), ToastChanged(t))
    {
      shown := t;
      if t.message != "" {
        open := true;
      }
    }

    method HandleClose(reason: Option<string>)
      modifies this`open
      ensures open == OpenStep(old(open), Close(reason))
    {
      if reason == Some(ClickAwayReason) {
        return;
      }
      open := false;
    }

    /** The snackbar's auto-hide timer running out. */
    method AutoHide()
      modifies this`open
      ensures !open
    {
      HandleClose(Some(TimeoutReason));
    }
  }
}
