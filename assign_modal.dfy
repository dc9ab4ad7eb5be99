/**
 * The assign-PM dialog: the alert being assigned (`currentAlertId`), the
 * three form fields, whether the dialog is shown, and the last toast message.
 * Submitting checks the PM first, then the deadline, and only then asks the
 * store to assign the alert.
 */
module AssignModal {
  import opened JsRuntime
  import opened Data

  const PickPmMessage: string := "請選擇 PM"
  const PickDeadlineMessage: string := "請選擇期限"

  /** The toast shown after a successful assignment. */
  function AssignedMessage(pm: string): (m: string)
    ensures |m| == |pm| + 5 && m[..5] == "已指派給 " && m[5..] == pm
  {
    "已指派給 " + pm
  }

  /** What a submit does with the form as filled in. */
  datatype FormCheck = MissingPm | MissingDeadline | Ready

  /** The PM is checked before the deadline; the note is optional. */
  function CheckForm(pm: string, deadline: string): (c: FormCheck)
    ensures c == MissingPm <==> pm == []
    ensures c == MissingDeadline <==> pm != [] && deadline == []
    ensures c == Ready <==> pm != [] && deadline != []
  {
    if pm == [] then MissingPm
    else if deadline == [] then MissingDeadline
    else Ready
  }

  class Modal {
    const store: Store
    /** `currentAlertId`: the alert being assigned, `null` when none is. */
    var currentAlertId: Option<string>
    var projectName: string
    /** The PM picker, the deadline picker and the note field. */
    var pm: string
    var deadline: string
    var note: string
    /** Whether the overlay is shown. */
    var visible: bool
    /** The last toast message, if any was shown. */
    var toast: Option<string>

    /** The page as loaded: no alert selected, the dialog hidden. */
    constructor (store: Store)
      ensures this.store == store
      ensures currentAlertId == None && !visible && toast == None
      ensures projectName == [] && pm == [] && deadline == [] && note == []
    {
      this.store := store;
      currentAlertId := None;
      projectName := [];
      pm := [];
      deadline := [];
      note := [];
      visible := false;
      toast := None;
    }

    /** `openAssignModal`: remember the alert, clear the form and show the dialog. */
    method OpenAssignModal(alertId: string, name: string)
      modifies this
      ensures currentAlertId == Some(alertId) && projectName == name
      ensures pm == [] && deadline == [] && note == []
      ensures visible
      ensures toast == old(toast)
    {
      currentAlertId := Some(alertId);
      projectName := name;
      pm := [];
      deadline := [];
      note := [];
      visible := true;
    }

    /** `closeModal`: hide the dialog and forget the alert; the form keeps its values. */
    method CloseModal()
      modifies this`visible, this`currentAlertId
      ensures !visible && currentAlertId == None
    {
      visible := false;
      currentAlertId := None;
    }

    /**
     * `handleAssignSubmit`. An empty PM, or else an empty deadline, only shows
     * a toast. Otherwise the store assigns the current alert with the trimmed
     * note; on success the dialog closes and the toast names the PM, and on
     * failure (no current alert, or an id the store does not hold) nothing
     * changes.
     */
    method HandleAssignSubmit() returns (success: bool)
      requires store.Valid()
      modifies this`visible, this`currentAlertId, this`toast, store`alerts
      ensures store.Valid()
      ensures CheckForm(pm, deadline) == MissingPm
              ==> !success && toast == Some(PickPmMessage)
                  && currentAlertId == old(currentAlertId) && visible == old(visible)
                  && store.alerts == old(store.alerts)
      ensures CheckForm(pm, deadline) == MissingDeadline
              ==> !success && toast == Some(PickDeadlineMessage)
                  && currentAlertId == old(currentAlertId) && visible == old(visible)
                  && store.alerts == old(store.alerts)
      ensures success <==> CheckForm(pm, deadline) == Ready && old(currentAlertId).Some?
                           && AlertIndex(old(store.alerts), old(currentAlertId).value).Some?
      ensures success ==> var k := AlertIndex(old(store.alerts), old(currentAlertId).value).value;
                          && store.alerts == AssignAt(old(store.alerts), k, pm, deadline, Some(Trim(note)))
                          && IsProjectAssigned(store.alerts, old(store.alerts)[k].projectId)
                          && currentAlertId == None && !visible
                          && toast == Some(AssignedMessage(pm))
      ensures CheckForm(pm, deadline) == Ready && !success
              ==> store.alerts == old(store.alerts) && currentAlertId == old(currentAlertId)
                  && visible == old(visible) && toast == old(toast)
    {
      match CheckForm(pm, deadline)
      case MissingPm =>
        toast := Some(PickPmMessage);
        return false;
      case MissingDeadline =>
        toast := Some(PickDeadlineMessage);
        return false;
      case Ready =>
        if currentAlertId.None? {
          // `find` compares every id against `null` and finds nothing.
          return false;
        }
        success := store.AssignAlert(currentAlertId.value, pm, deadline, Some(Trim(note)));
        if success {
          CloseModal();
          toast := Some(AssignedMessage(pm));
        }
    }
  }
}
