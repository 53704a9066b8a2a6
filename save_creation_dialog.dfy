/**
 * The "Save to Gallery" dialog: its three pieces of state, the guard that enables
 * the Save button, and the save handler, which checks the title and the usable mark,
 * asks the backend to store the creation and resets the dialog only when that
 * succeeds. The thumbnail and the backend's answer are inputs; the request the
 * handler sends and the toast it shows are outputs.
 */
module SaveCreationDialog {
  import opened Wrappers
  import opened JsString
  import opened GenerationTypes
  import opened SettingsString

  /** The arguments of the backend's `saveCreationRecord`. */
  datatype SaveRequest = SaveRequest(title: string, creativeFreedom: bool, settings: string, thumbnailUrl: string)

  /** What a checkbox reports: ticked, cleared, or indeterminate. */
  datatype CheckedState = Checked | Unchecked | Indeterminate

  datatype Toast = ToastError(message: string) | ToastSuccess(message: string)

  const EnterTitleMessage: string := "Please enter a title"
  const MarkUsableMessage: string := "Please mark this creation as usable before saving"
  const SavedMessage: string := "Creation saved to gallery"
  const SaveFailedMessage: string := "Failed to save creation. Please ensure the creation is marked as usable."

  class Dialog {
    var open: bool
    var title: string
    var markedUsable: bool
    /** The save mutation's `isPending`; the dialog reads it but does not set it. */
    var savePending: bool

    constructor ()
      ensures !open && title == "" && !markedUsable && !savePending
    {
      open := false;
      title := "";
      markedUsable := false;
      savePending := false;
    }

    /** `canSave`: a non-blank title, the usable mark, and no save in flight. */
    predicate CanSave()
      reads this
    {
      Trim(title) != "" && markedUsable && !savePending
    }

    /** The title input's `onChange`. */
    method SetTitle(value: string)
      modifies this
      ensures title == value
      ensures open == old(open) && markedUsable == old(markedUsable) && savePending == old(savePending)
    {
      title := value;
    }

    /** The checkbox's `onCheckedChange`: only a ticked box marks the creation usable. */
    method SetMarkedUsable(checked: CheckedState)
      modifies this
      ensures markedUsable <==> checked == Checked
      ensures open == old(open) && title == old(title) && savePending == old(savePending)
    {
      markedUsable := checked == Checked;
    }

    /** `handleOpenChange(newOpen)`: closing also clears the title and the usable mark. */
    method HandleOpenChange(newOpen: bool)
      modifies this
      ensures open == newOpen && savePending == old(savePending)
      ensures newOpen ==> title == old(title) && markedUsable == old(markedUsable)
      ensures !newOpen ==> title == "" && !markedUsable && !CanSave()
    {
      open := newOpen;
      if !newOpen {
        title := "";
        markedUsable := false;
      }
    }

    /**
     * `handleSave()` for `run` and `references`. `thumbnail` is the outcome of the
     * thumbnail rendering (`None` when it throws) and `accepted` whether the backend
     * stores the record. A blank title or a missing usable mark stops it before any
     * request, with the state untouched; a failure after that leaves the state as it
     * was too; only a stored record closes and clears the dialog.
     */
    method HandleSave(run: GenerationRun, references: seq<ReferenceImage>, thumbnail: Option<string>, accepted: bool)
      returns (request: Option<SaveRequest>, toast: Toast)
      modifies this
      ensures Trim(old(title)) == "" ==>
                request == None && toast == ToastError(EnterTitleMessage) && unchanged(this)
      ensures Trim(old(title)) != "" && !old(markedUsable) ==>
                request == None && toast == ToastError(MarkUsableMessage) && unchanged(this)
      ensures request.Some? <==> Trim(old(title)) != "" && old(markedUsable) && thumbnail.Some?
      ensures request.Some? ==>
                request.value == SaveRequest(Trim(old(title)), run.creativeFreedom,
                                             GenerateSettingsString(run, references), thumbnail.value)
      ensures request.Some? && accepted ==>
                toast == ToastSuccess(SavedMessage) && !open && title == "" && !markedUsable
                && savePending == old(savePending) && !CanSave()
      ensures Trim(old(title)) != "" && old(markedUsable) && !(request.Some? && accepted) ==>
                toast == ToastError(SaveFailedMessage) && unchanged(this)
    {
      if Trim(title) == "" {
        return None, ToastError(EnterTitleMessage);
      }
      if !markedUsable {
        return None, ToastError(MarkUsableMessage);
      }
      var settings := GenerateSettingsString(run, references);
      if thumbnail.None? {
        return None, ToastError(SaveFailedMessage);
      }
      request := Some(SaveRequest(Trim(title), run.creativeFreedom, settings, thumbnail.value));
      if !accepted {
        return request, ToastError(SaveFailedMessage);
      }
      toast := ToastSuccess(SavedMessage);
      open := false;
      title := "";
      markedUsable := false;
    }

    /**
     * The title input's `onKeyDown`: Enter saves only when `canSave` holds; any other
     * key, or Enter while the guard fails, does nothing.
     */
    method HandleTitleKeyDown(key: string, run: GenerationRun, references: seq<ReferenceImage>,
                              thumbnail: Option<string>, accepted: bool)
      returns (request: Option<SaveRequest>, toast: Option<Toast>)
      modifies this
      ensures !(key == "Enter" && old(CanSave())) ==> request == None && toast == None && unchanged(this)
      ensures key == "Enter" && old(CanSave()) ==>
                toast.Some? && (request.Some? <==> thumbnail.Some?)
      ensures key == "Enter" && old(CanSave()) && request.Some? ==>
                request.value == SaveRequest(Trim(old(title)), run.creativeFreedom,
                                             GenerateSettingsString(run, references), thumbnail.value)
      ensures key == "Enter" && old(CanSave()) && thumbnail.Some? && accepted ==>
                toast == Some(ToastSuccess(SavedMessage)) && !open && title == "" && !markedUsable
                && savePending == old(savePending)
      ensures key == "Enter" && old(CanSave()) && !(thumbnail.Some? && accepted) ==>
                toast == Some(ToastError(SaveFailedMessage)) && unchanged(this)
    {
      if key == "Enter" && CanSave() {
        var shown;
        request, shown := HandleSave(run, references, thumbnail, accepted);
        toast := Some(shown);
      } else {
        request, toast := None, None;
      }
    }
  }
}
