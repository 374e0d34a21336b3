/**
 * `CuyGuide`, the guide character's dialog box: one dialog on screen at a
 * time, later ones wait in a FIFO queue.
 *
 * Drawing and tweens are left out. The hide tween's `onComplete` is the
 * explicit method `FinishHide`; `pendingHides` counts hide tweens started
 * and not yet finished. `onComplete` callbacks of button dialogs are opaque
 * identifiers.
 */
module CuyGuide {
  import opened Wrappers

  type CallbackId = nat

  /** The dialog on screen. */
  datatype Dialog = Dialog(text: string, withButton: bool, buttonText: string, onComplete: Option<CallbackId>)

  /** A waiting dialog, as pushed by `showDialog` or `showDialogWithButton`. */
  datatype QueuedDialog =
    | Plain(text: string, duration: int)
    | WithButton(text: string, buttonText: string, onComplete: Option<CallbackId>)

  /** One entry of `showDialogSequence`'s argument; `buttonText` may be missing. */
  datatype SequenceItem = SequenceItem(text: string, buttonText: Option<string>, onComplete: Option<CallbackId>)

  const DefaultButtonText: string := "Continuar"

  /**
   * `getDialogPosition`: the dialog's offset from the guide, 120 px to the
   * given side; any other value behaves like `"right"`.
   */
  function GetDialogPosition(position: string): (p: (int, int))
    ensures position == "left" ==> p == (-120, -50)
    ensures position == "top" ==> p == (0, -120)
    ensures position == "bottom" ==> p == (0, 120)
    ensures position != "left" && position != "top" && position != "bottom" ==> p == (120, -50)
  {
    var offset := 120;
    if position == "left" then (-offset, -50)
    else if position == "right" then (offset, -50)
    else if position == "top" then (0, -offset)
    else if position == "bottom" then (0, offset)
    else (offset, -50)
  }

  /** The four sides get four different places; an unknown side shares the right one. */
  lemma PositionsDistinct(unknown: string)
    requires unknown != "left" && unknown != "right" && unknown != "top" && unknown != "bottom"
    ensures GetDialogPosition(unknown) == GetDialogPosition("right")
    ensures |{GetDialogPosition("left"), GetDialogPosition("right"), GetDialogPosition("top"),
              GetDialogPosition("bottom")}| == 4
  {
    var s := {GetDialogPosition("left"), GetDialogPosition("right"), GetDialogPosition("top")};
    assert |{GetDialogPosition("left"), GetDialogPosition("right")}| == 2;
    assert |s| == 3;
  }

  /** The dialog `processQueue` shows for a queue entry. */
  function Shown(q: QueuedDialog): (d: Dialog)
    ensures d.text == q.text
    ensures d.withButton <==> q.WithButton?
    ensures q.WithButton? ==> d.buttonText == q.buttonText && d.onComplete == q.onComplete
  {
    match q
    case Plain(text, _) => Dialog(text, false, DefaultButtonText, None)
    case WithButton(text, buttonText, onComplete) => Dialog(text, true, buttonText, onComplete)
  }

  /** `dialog.buttonText || "Continuar"`. */
  function ButtonTextOr(buttonText: Option<string>): (t: string)
    ensures buttonText.Some? && buttonText.value != "" ==> t == buttonText.value
    ensures buttonText.None? || buttonText == Some("") ==> t == DefaultButtonText
  {
    if buttonText.None? || buttonText.value == "" then DefaultButtonText else buttonText.value
  }

  /** The queue entries `showDialogSequence` makes of its items. */
  function Queued(items: seq<SequenceItem>): (q: seq<QueuedDialog>)
    ensures |q| == |items|
    ensures forall i :: 0 <= i < |items| ==>
              q[i] == WithButton(items[i].text, ButtonTextOr(items[i].buttonText), items[i].onComplete)
  {
    seq(|items|, i requires 0 <= i < |items| => WithButton(items[i].text, ButtonTextOr(items[i].buttonText), items[i].onComplete))
  }

  class CuyGuide {
    const dialogPosition: string
    var currentDialog: Option<Dialog>
    var dialogQueue: seq<QueuedDialog>
    var isDialogActive: bool
    var pendingHides: nat

    /** A dialog is active exactly while one is on screen. */
    ghost predicate Consistent()
      reads this
    {
      isDialogActive <==> currentDialog.Some?
    }

    /** ... and nothing waits while no dialog is on screen. */
    ghost predicate Valid()
      reads this
    {
      && Consistent()
      && (dialogQueue != [] ==> isDialogActive)
    }

    /** `dialogPosition` defaults to `"right"`. */
    constructor (dialogPosition: Option<string>)
      ensures Valid()
      ensures this.dialogPosition == dialogPosition.GetOr("right")
      ensures currentDialog.None? && dialogQueue == [] && !isDialogActive && pendingHides == 0
    {
      this.dialogPosition := dialogPosition.GetOr("right");
      currentDialog := None;
      dialogQueue := [];
      isDialogActive := false;
      pendingHides := 0;
    }

    /**
     * `showDialog`: queue while a dialog is active, otherwise show. The
     * result says whether an auto-hide was scheduled (`duration > 0`);
     * `duration` defaults to 3000 ms.
     */
    method ShowDialog(text: string, duration: Option<int>) returns (autoHide: bool)
      requires Consistent()
      modifies this`currentDialog, this`dialogQueue, this`isDialogActive
      ensures Valid()
      ensures var d := duration.GetOr(3000);
        && (old(isDialogActive) ==>
              dialogQueue == old(dialogQueue) + [Plain(text, d)] && currentDialog == old(currentDialog) && !autoHide)
        && (!old(isDialogActive) ==>
              currentDialog == Some(Dialog(text, false, DefaultButtonText, None)) &&
              dialogQueue == old(dialogQueue) && (autoHide <==> d > 0))
      ensures isDialogActive
    {
      var d := duration.GetOr(3000);
      if isDialogActive {
        dialogQueue := dialogQueue + [Plain(text, d)];
        return false;
      }
      currentDialog := Some(Dialog(text, false, DefaultButtonText, None));
      isDialogActive := true;
      autoHide := d > 0;
    }

    /** `showDialogWithButton`: `buttonText` defaults to `"Continuar"` when missing. */
    method ShowDialogWithButton(text: string, buttonText: Option<string>, onComplete: Option<CallbackId>)
      requires Consistent()
      modifies this`currentDialog, this`dialogQueue, this`isDialogActive
      ensures Valid()
      ensures var b := buttonText.GetOr(DefaultButtonText);
        && (old(isDialogActive) ==>
              dialogQueue == old(dialogQueue) + [WithButton(text, b, onComplete)] && currentDialog == old(currentDialog))
        && (!old(isDialogActive) ==>
              currentDialog == Some(Dialog(text, true, b, onComplete)) && dialogQueue == old(dialogQueue))
      ensures isDialogActive
    {
      var b := buttonText.GetOr(DefaultButtonText);
      if isDialogActive {
        dialogQueue := dialogQueue + [WithButton(text, b, onComplete)];
        return;
      }
      currentDialog := Some(Dialog(text, true, b, onComplete));
      isDialogActive := true;
    }

    /** `hideDialog`: with a dialog on screen, start a hide tween; otherwise nothing. */
    method HideDialog()
      modifies this`pendingHides
      ensures pendingHides == if currentDialog.Some? then old(pendingHides) + 1 else old(pendingHides)
    {
      if currentDialog.None? {
        return;
      }
      pendingHides := pendingHides + 1;
    }

    /**
     * `processQueue`: show the head of the queue by its kind; `autoHide` says
     * whether showing it scheduled an auto-hide.
     */
    method ProcessQueue() returns (autoHide: bool)
      requires Consistent() && !isDialogActive
      modifies this`currentDialog, this`dialogQueue, this`isDialogActive
      ensures Valid()
      ensures old(dialogQueue) == [] ==> currentDialog.None? && !isDialogActive && dialogQueue == []
      ensures old(dialogQueue) != [] ==>
                currentDialog == Some(Shown(old(dialogQueue)[0])) && dialogQueue == old(dialogQueue)[1..]
      ensures autoHide <==> old(dialogQueue) != [] && old(dialogQueue)[0].Plain? && old(dialogQueue)[0].duration > 0
    {
      autoHide := false;
      if |dialogQueue| > 0 {
        var next := dialogQueue[0];
        dialogQueue := dialogQueue[1..];
        if next.WithButton? {
          ShowDialogWithButton(next.text, Some(next.buttonText), next.onComplete);
        } else {
          autoHide := ShowDialog(next.text, Some(next.duration));
        }
      }
    }

    /**
     * The hide tween's `onComplete`: drop the dialog, then show the next
     * queued one. With no dialog on screen (a second hide of the same dialog
     * and an empty queue) `this.currentDialog.destroy()` throws before any
     * change: `threw`. `autoHide` says whether the dialog taken from the
     * queue will hide itself.
     */
    method FinishHide() returns (threw: bool, autoHide: bool)
      requires Valid() && pendingHides > 0
      modifies this
      ensures Valid()
      ensures pendingHides == old(pendingHides) - 1
      ensures threw <==> old(currentDialog).None?
      ensures threw ==> currentDialog == old(currentDialog) && dialogQueue == old(dialogQueue) &&
                        isDialogActive == old(isDialogActive)
      ensures !threw && old(dialogQueue) == [] ==> currentDialog.None? && !isDialogActive && dialogQueue == []
      ensures !threw && old(dialogQueue) != [] ==>
                currentDialog == Some(Shown(old(dialogQueue)[0])) && dialogQueue == old(dialogQueue)[1..]
      ensures autoHide <==> !threw && old(dialogQueue) != [] && old(dialogQueue)[0].Plain? &&
                            old(dialogQueue)[0].duration > 0
    {
      pendingHides := pendingHides - 1;
      if currentDialog.None? {
        return true, false;
      }
      currentDialog := None;
      isDialogActive := false;
      threw := false;
      autoHide := ProcessQueue();
    }

    /** The button's `pointerdown`: hide, then run the dialog's callback. */
    method PressButton() returns (callback: Option<CallbackId>)
      requires currentDialog.Some? && currentDialog.value.withButton
      modifies this`pendingHides
      ensures pendingHides == old(pendingHides) + 1
      ensures callback == currentDialog.value.onComplete
    {
      HideDialog();
      callback := currentDialog.value.onComplete;
    }

    /**
     * `showDialogSequence`: every item becomes a button dialog; the first is
     * shown when nothing is active, the rest wait in order.
     */
    method ShowDialogSequence(items: seq<SequenceItem>)
      requires Valid()
      modifies this`currentDialog, this`dialogQueue, this`isDialogActive
      ensures Valid()
      ensures items == [] ==> currentDialog == old(currentDialog) && dialogQueue == old(dialogQueue) &&
                              isDialogActive == old(isDialogActive)
      ensures items != [] && old(isDialogActive) ==>
                currentDialog == old(currentDialog) && dialogQueue == old(dialogQueue) + Queued(items)
      ensures items != [] && !old(isDialogActive) ==>
                currentDialog == Some(Shown(Queued(items)[0])) && dialogQueue == Queued(items[1..])
    {
      for i := 0 to |items|
        invariant Valid()
        invariant i == 0 ==> currentDialog == old(currentDialog) && dialogQueue == old(dialogQueue) &&
                             isDialogActive == old(isDialogActive)
        invariant i > 0 ==> isDialogActive
        invariant i > 0 && old(isDialogActive) ==>
                    currentDialog == old(currentDialog) && dialogQueue == old(dialogQueue) + Queued(items[..i])
        invariant i > 0 && !old(isDialogActive) ==>
                    currentDialog == Some(Shown(Queued(items)[0])) && dialogQueue == Queued(items[1..i])
      {
        var item := items[i];
        var b := ButtonTextOr(item.buttonText);
        if i == 0 {
          ShowDialogWithButton(item.text, Some(b), item.onComplete);
        } else {
          assert Queued(items[..i + 1]) == Queued(items[..i]) + [WithButton(item.text, b, item.onComplete)];
          assert Queued(items[1..i + 1]) == Queued(items[1..i]) + [WithButton(item.text, b, item.onComplete)];
          dialogQueue := dialogQueue + [WithButton(item.text, b, item.onComplete)];
        }
      }
      if items != [] {
        assert items[..|items|] == items;
      }
    }

    /** `clearDialogs`: empty the queue, then hide what is on screen. */
    method ClearDialogs()
      requires Valid()
      modifies this`dialogQueue, this`pendingHides
      ensures dialogQueue == []
      ensures Valid()
      ensures pendingHides == if currentDialog.Some? then old(pendingHides) + 1 else old(pendingHides)
    {
      dialogQueue := [];
      HideDialog();
    }
  }

  /**
   * Clearing and letting the hide tween finish leaves the guide idle, however
   * many dialogs were waiting.
   */
  method ClearThenFinish(guide: CuyGuide) returns (threw: bool)
    requires guide.Valid() && guide.currentDialog.Some?
    modifies guide
    ensures !threw && guide.currentDialog.None? && !guide.isDialogActive && guide.dialogQueue == []
  {
    guide.ClearDialogs();
    var autoHide;
    threw, autoHide := guide.FinishHide();
  }

  /**
   * Two dialogs shown back to back: the second waits, and comes on screen
   * once the first has been hidden, with the default duration's auto-hide.
   */
  method ShownInOrder(guide: CuyGuide, first: string, second: string) returns (threw: bool, autoHide: bool)
    requires guide.Valid() && !guide.isDialogActive
    modifies guide
    ensures !threw && guide.currentDialog == Some(Dialog(second, false, DefaultButtonText, None))
    ensures guide.dialogQueue == []
    ensures autoHide
  {
    var _ := guide.ShowDialog(first, None);
    var _ := guide.ShowDialog(second, None);
    guide.HideDialog();
    threw, autoHide := guide.FinishHide();
  }
}
