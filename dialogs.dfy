/**
 * `src/components/providers/ui-provider.tsx`: the application's single modal
 * dialog. `showAlert` and `showConfirm` fill one slot (open flag, kind,
 * options, and the resolve function of the promise handed to the caller);
 * closing the dialog resolves whatever promise is in the slot.
 *
 * A promise is named by a caller number: the slot holds the number of the
 * caller whose promise it would resolve, and a close reports which caller was
 * resolved with which value. The 200 ms delay before resolving is left out.
 */
module Dialogs {

  import opened Common

  datatype DialogType = Alert | Confirm

  datatype Variant = Success | Error | Info | Warning

  datatype DialogOptions = DialogOptions(
    title: string,
    message: string,
    variant: Option<Variant>,
    confirmText: Option<string>,
    cancelText: Option<string>)

  /** The options the slot starts with: empty title and message, nothing else. */
  const BlankOptions := DialogOptions("", "", None, None, None)

  datatype Icon = Triangle | Check | InfoCircle

  datatype Colour = Red | Green | Amber | Blue | Slate

  /** The icon `getIcon` draws for a variant. */
  function IconOf(variant: Option<Variant>): (icon: Icon)
    ensures icon == Triangle <==> variant == Some(Error) || variant == Some(Warning)
    ensures icon == Check <==> variant == Some(Success)
  {
    match variant
    case Some(Error) => Triangle
    case Some(Success) => Check
    case Some(Warning) => Triangle
    case _ => InfoCircle
  }

  /** The colour of the icon: red, green, amber, or blue for info and no variant. */
  function IconColourOf(variant: Option<Variant>): (c: Colour)
    ensures c == Red <==> variant == Some(Error)
    ensures c == Green <==> variant == Some(Success)
    ensures c == Amber <==> variant == Some(Warning)
    ensures c == Blue <==> variant.None? || variant == Some(Info)
  {
    match variant
    case Some(Error) => Red
    case Some(Success) => Green
    case Some(Warning) => Amber
    case _ => Blue
  }

  /** The coloured strip along the top of the dialog: only error and success change it. */
  function StripOf(variant: Option<Variant>): (c: Colour)
    ensures c == Red <==> variant == Some(Error)
    ensures c == Green <==> variant == Some(Success)
    ensures c == Red || c == Green || c == Blue
  {
    if variant == Some(Error) then Red
    else if variant == Some(Success) then Green
    else Blue
  }

  /** The main button: red for error, green for success, dark slate otherwise. */
  function MainButtonOf(variant: Option<Variant>): (c: Colour)
    ensures c == Red <==> variant == Some(Error)
    ensures c == Green <==> variant == Some(Success)
    ensures c == Red || c == Green || c == Slate
  {
    if variant == Some(Error) then Red
    else if variant == Some(Success) then Green
    else Slate
  }

  /** A warning draws the same triangle as an error, but in amber and over the blue strip. */
  lemma WarningLooks()
    ensures IconOf(Some(Warning)) == IconOf(Some(Error)) == Triangle
    ensures IconColourOf(Some(Warning)) == Amber && StripOf(Some(Warning)) == Blue
    ensures MainButtonOf(Some(Warning)) == Slate
  {
  }

  /** `config.cancelText || 'Cancel'`. */
  function CancelLabel(options: DialogOptions): (text: string)
    ensures text != []
    ensures options.cancelText.Some? && options.cancelText.value != [] ==> text == options.cancelText.value
    ensures options.cancelText.None? || options.cancelText.value == [] ==> text == "Cancel"
  {
    OrElse(options.cancelText, "Cancel")
  }

  /** `config.confirmText || 'Okay'`. */
  function ConfirmLabel(options: DialogOptions): (text: string)
    ensures text != []
    ensures options.confirmText.Some? && options.confirmText.value != [] ==> text == options.confirmText.value
    ensures options.confirmText.None? || options.confirmText.value == [] ==> text == "Okay"
  {
    OrElse(options.confirmText, "Okay")
  }

  /** Labels fall back to "Cancel" and "Okay" exactly when none (or an empty one) is given. */
  lemma DefaultLabels(title: string, message: string, variant: Option<Variant>)
    ensures CancelLabel(DialogOptions(title, message, variant, None, None)) == "Cancel"
    ensures ConfirmLabel(DialogOptions(title, message, variant, None, None)) == "Okay"
    ensures CancelLabel(DialogOptions(title, message, variant, Some(""), Some(""))) == "Cancel"
    ensures ConfirmLabel(DialogOptions(title, message, variant, Some(""), Some(""))) == "Okay"
  {
  }

  /** The promise of caller `caller` settled with `result`. */
  datatype Resolution = Resolution(caller: nat, result: bool)

  /** The provider's dialog slot. */
  class UiProvider {

    var isOpen: bool
    var dialogType: DialogType
    var config: DialogOptions
    /**
     * Whose promise a close would resolve. `None` before the first request:
     * `useState` runs the function it is given as an initialiser, so the
     * initial resolver is `undefined`, not a no-op.
     */
    var resolver: Option<nat>

    constructor ()
      ensures !isOpen && dialogType == Alert && config == BlankOptions && resolver == None
    {
      isOpen := false;
      dialogType := Alert;
      config := BlankOptions;
      resolver := None;
    }

    /** `showAlert(options)` called by `caller`: the slot now answers to that caller only. */
    method ShowAlert(options: DialogOptions, caller: nat)
      modifies this
      ensures isOpen && dialogType == Alert && config == options && resolver == Some(caller)
    {
      resolver := Some(caller);
      config := options;
      dialogType := Alert;
      isOpen := true;
    }

    /** `showConfirm(options)` called by `caller`. */
    method ShowConfirm(options: DialogOptions, caller: nat)
      modifies this
      ensures isOpen && dialogType == Confirm && config == options && resolver == Some(caller)
    {
      resolver := Some(caller);
      config := options;
      dialogType := Confirm;
      isOpen := true;
    }

    /**
     * `handleClose(result)`: closes the dialog and settles the promise in the
     * slot with `result`. The slot keeps its kind, options and resolver.
     */
    method HandleClose(result: bool) returns (settled: Option<Resolution>)
      modifies this
      ensures !isOpen
      ensures dialogType == old(dialogType) && config == old(config) && resolver == old(resolver)
      ensures settled == if old(resolver).Some? then Some(Resolution(old(resolver).value, result)) else None
    {
      isOpen := false;
      settled := if resolver.Some? then Some(Resolution(resolver.value, result)) else None;
    }

    /** A click on the backdrop (drawn only while open) closes an alert with `true` and is ignored by a confirm. */
    method BackdropClick() returns (settled: Option<Resolution>)
      requires isOpen
      modifies this
      ensures old(dialogType) == Confirm ==> isOpen && settled == None
      ensures old(dialogType) == Alert ==> !isOpen && settled == if resolver.Some? then Some(Resolution(resolver.value, true)) else None
      ensures dialogType == old(dialogType) && config == old(config) && resolver == old(resolver)
    {
      settled := None;
      if dialogType == Alert {
        settled := HandleClose(true);
      }
    }

    /** The cancel button, drawn only for a confirm: settles with `false`. */
    method CancelClick() returns (settled: Option<Resolution>)
      requires isOpen && dialogType == Confirm
      modifies this
      ensures !isOpen && settled == if resolver.Some? then Some(Resolution(resolver.value, false)) else None
      ensures dialogType == old(dialogType) && config == old(config) && resolver == old(resolver)
    {
      settled := HandleClose(false);
    }

    /** The main button, drawn for both kinds: settles with `true`. */
    method MainClick() returns (settled: Option<Resolution>)
      requires isOpen
      modifies this
      ensures !isOpen && settled == if resolver.Some? then Some(Resolution(resolver.value, true)) else None
      ensures dialogType == old(dialogType) && config == old(config) && resolver == old(resolver)
    {
      settled := HandleClose(true);
    }
  }

  /**
   * Two dialogs requested before the first is closed: the second replaces the
   * first, and closing settles only the second caller's promise. The first
   * caller is never settled, whatever is clicked.
   */
  method OverwrittenCallerNeverSettled(ui: UiProvider, first: DialogOptions, second: DialogOptions,
                                       a: nat, b: nat, answer: bool)
    returns (settled: Option<Resolution>)
    requires a != b
    modifies ui
    ensures settled == Some(Resolution(b, answer))
    ensures settled.value.caller != a
    ensures !ui.isOpen && ui.resolver == Some(b)
  {
    ui.ShowConfirm(first, a);
    ui.ShowAlert(second, b);
    settled := ui.HandleClose(answer);
  }
}
