/** The toast context: one toast slot, written by the window-wide
    'show-toast' listener and by the context's `setToast`, and rendered by a
    single toaster. */
module ToastContext {
  import opened Common
  import opened ClientTypes
  import ToasterView

  const InitialToast: Toast := Toast(Success, "")

  /** What reaches the provider: a 'show-toast' window event, a write
      through the context, or the provider's teardown. */
  datatype ProviderEvent = WindowToast(detail: Toast) | ContextWrite(toast: Toast) | Teardown

  datatype ProviderState = ProviderState(toast: Toast, mounted: bool)

  /** Once torn down, the listener is removed and the slot no longer
      changes. */
  function ProviderStep(s: ProviderState, e: ProviderEvent): ProviderState {
    match e
    case WindowToast(d) => if s.mounted then s.(toast := d) else s
    case ContextWrite(t) => if s.mounted then s.(toast := t) else s
    case Teardown => s.(mounted := false)
  }

  function ProviderRun(s: ProviderState, es: seq<ProviderEvent>): ProviderState
    decreases |es|
  {
    if |es| == 0 then s else ProviderRun(ProviderStep(s, es[0]), es[1..])
  }

  /** Reference definition: the toast of the last write, by either route. */
  function LastWrite(es: seq<ProviderEvent>): Option<Toast>
    decreases |es|
  {
    if |es| == 0 then None
    else
      match es[|es| - 1]
      case WindowToast(d) => Some(d)
      case ContextWrite(t) => Some(t)
      case Teardown => LastWrite(es[..|es| - 1])
  }

  lemma {:induction false} ProviderRunSnoc(s: ProviderState, es: seq<ProviderEvent>, e: ProviderEvent)
    ensures ProviderRun(s, es + [e]) == ProviderStep(ProviderRun(s, es), e)
    decreases |es|
  {
    if |es| == 0 {
      assert es + [e] == [e];
      assert [e][1..] == [];
    } else {
      assert (es + [e])[1..] == es[1..] + [e];
      ProviderRunSnoc(ProviderStep(s, es[0]), es[1..], e);
    }
  }

  /** While mounted, the slot holds exactly the last toast written, whichever
      route wrote it; with no write it keeps its value. */
  lemma {:induction false} LastWriteWins(s: ProviderState, es: seq<ProviderEvent>)
    requires s.mounted
    requires forall i :: 0 <= i < |es| ==> !es[i].Teardown?
    ensures ProviderRun(s, es) == s.(toast := LastWrite(es).GetOr(s.toast))
    decreases |es|
  {
    if |es| > 0 {
      var init, last := es[..|es| - 1], es[|es| - 1];
      assert es == init + [last];
      ProviderRunSnoc(s, init, last);
      LastWriteWins(s, init);
    }
  }

  /** After teardown nothing changes the slot any more. */
  lemma {:induction false} NothingAfterTeardown(s: ProviderState, es: seq<ProviderEvent>)
    requires !s.mounted
    ensures ProviderRun(s, es) == s
    decreases |es|
  {
    if |es| > 0 {
      NothingAfterTeardown(ProviderStep(s, es[0]), es[1..]);
    }
  }

  class ToastProvider {
    var toast: Toast
    var mounted: bool
    const toaster: ToasterView.Toaster

    function State(): ProviderState
      reads this
    {
      ProviderState(toast, mounted)
    }

    /** Mounting: the initial toast, the listener registered, and the
        toaster rendered closed. */
    constructor ()
      ensures State() == ProviderState(InitialToast, true)
      ensures fresh(toaster) && toaster.shown == InitialToast && !toaster.open
    {
      toast := InitialToast;
      mounted := true;
      toaster := new ToasterView.Toaster(InitialToast);
    }

    /** A 'show-toast' window event: the slot takes the event's severity and
        message, and the toaster is handed the new toast. */
    method OnShowToast(detail: Toast)
      modifies this, toaster
      ensures State() == ProviderStep(old(State()), WindowToast(detail))
      ensures old(mounted) ==> toaster.shown == detail
                               && toaster.open == ToasterView.OpenStep(old(toaster.open), ToasterView.ToastChanged(detail))
      ensures !old(mounted) ==> unchanged(toaster)
    {
      if mounted {
        toast := Toast(detail.severity, detail.message);
        toaster.OnToastChange(toast);
      }
    }

    /** The context's `setToast`: the same single slot. */
    method SetToast(t: Toast)
      modifies this, toaster
      ensures State() == ProviderStep(old(State()), ContextWrite(t))
      ensures old(mounted) ==> toaster.shown == t
                               && toaster.open == ToasterView.OpenStep(old(toaster.open), ToasterView.ToastChanged(t))
      ensures !old(mounted) ==> unchanged(toaster)
    {
      if mounted {
        toast := t;
        toaster.OnToastChange(toast);
      }
    }

    /** Teardown: the listener is removed. */
    method Unmount()
      modifies this`mounted
      ensures State() == ProviderStep(old(State()), Teardown)
    {
      mounted := false;
    }
  }
}
