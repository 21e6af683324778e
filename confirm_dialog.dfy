/**
 * The confirmation dialog and its hook (src/components/ConfirmDialog.tsx):
 * the hook's `dialogState` record, which `showConfirm` and `hideConfirm`
 * overwrite, and the dialog's confirm button. Callbacks are named by
 * numbers; the confirm callbacks that run are recorded in order.
 */
module ConfirmDialogModel {
  import opened Wrappers

  datatype Variant = Default | Destructive | Warning | Info

  /** The options `showConfirm` takes. */
  datatype ConfirmOptions = ConfirmOptions(
    title: string,
    description: string,
    onConfirm: nat,
    variant: Option<Variant>,
    confirmText: Option<string>,
    cancelText: Option<string>,
    isLoading: Option<bool>
  )

  /** The hook's `dialogState`. */
  datatype DialogState = DialogState(
    isOpen: bool,
    title: string,
    description: string,
    onConfirm: Option<nat>,
    variant: Option<Variant>,
    confirmText: Option<string>,
    cancelText: Option<string>,
    isLoading: Option<bool>
  )

  const InitialState := DialogState(false, "", "", None, None, None, None, None)

  /** `{isOpen: true, ...options}`: the state is built from the options alone. */
  function Shown(o: ConfirmOptions): (s: DialogState)
    ensures s.isOpen && s.onConfirm == Some(o.onConfirm)
    ensures s.title == o.title && s.description == o.description && s.variant == o.variant
    ensures s.confirmText == o.confirmText && s.cancelText == o.cancelText && s.isLoading == o.isLoading
  {
    DialogState(true, o.title, o.description, Some(o.onConfirm), o.variant, o.confirmText, o.cancelText, o.isLoading)
  }

  /** `{...prev, isOpen: false, onConfirm: null}`. */
  function Hidden(prev: DialogState): (s: DialogState)
    ensures !s.isOpen && s.onConfirm.None?
    ensures s.(isOpen := prev.isOpen, onConfirm := prev.onConfirm) == prev
  {
    prev.(isOpen := false, onConfirm := None)
  }

  /** Hiding twice is hiding once, and hiding the initial state changes nothing. */
  lemma HiddenIdempotent(s: DialogState)
    ensures Hidden(Hidden(s)) == Hidden(s)
    ensures Hidden(InitialState) == InitialState
  {
  }

  /** The props the dialog renders with, the component's defaults filled in. */
  datatype DialogProps = DialogProps(
    isOpen: bool,
    title: string,
    description: string,
    confirmText: string,
    cancelText: string,
    variant: Variant,
    isLoading: bool
  )

  function PropsOf(s: DialogState): (p: DialogProps)
    ensures p.isOpen == s.isOpen && p.title == s.title && p.description == s.description
    ensures s.confirmText.None? ==> p.confirmText == "Confirm"
    ensures s.cancelText.None? ==> p.cancelText == "Cancel"
    ensures s.variant.None? ==> p.variant == Default
    ensures s.isLoading.None? ==> !p.isLoading
    ensures s.confirmText.Some? ==> p.confirmText == s.confirmText.value
    ensures s.cancelText.Some? ==> p.cancelText == s.cancelText.value
    ensures s.variant.Some? ==> p.variant == s.variant.value
    ensures s.isLoading.Some? ==> p.isLoading == s.isLoading.value
  {
    DialogProps(s.isOpen, s.title, s.description, s.confirmText.GetOr("Confirm"), s.cancelText.GetOr("Cancel"),
                s.variant.GetOr(Default), s.isLoading.GetOr(false))
  }

  /** The confirm button's text: "Processing..." while loading. */
  function ConfirmButtonText(p: DialogProps): (t: string)
    ensures p.isLoading ==> t == "Processing..."
    ensures !p.isLoading ==> t == p.confirmText
  {
    if p.isLoading then "Processing..." else p.confirmText
  }

  class ConfirmDialogHook {
    var state: DialogState
    /** The confirm callbacks that ran, oldest first. */
    var confirmed: seq<nat>

    constructor ()
      ensures state == InitialState && confirmed == []
    {
      state := InitialState;
      confirmed := [];
    }

    method ShowConfirm(o: ConfirmOptions)
      modifies this
      ensures state == Shown(o) && confirmed == old(confirmed)
    {
      state := Shown(o);
    }

    /** Also the dialog's `onClose`, run by the cancel button and by dismissing the dialog. */
    method HideConfirm()
      modifies this
      ensures state == Hidden(old(state)) && confirmed == old(confirmed)
    {
      state := Hidden(state);
    }

    /**
     * `handleConfirm`: the stored callback runs once (a no-op stands in when
     * none is stored), then the dialog closes.
     */
    method HandleConfirm()
      modifies this
      ensures confirmed == old(confirmed) + (if old(state).onConfirm.Some? then [old(state).onConfirm.value] else [])
      ensures state == Hidden(old(state))
    {
      if state.onConfirm.Some? {
        confirmed := confirmed + [state.onConfirm.value];
      }
      HideConfirm();
    }
  }
}
