/**
 * The bills screen's "Add" action: it posts the typed message to the
 * reminder service and, when the service answers with the created reminder,
 * puts that reminder at the top of the list and clears the input.
 * The request's outcome is an input.
 */
module Bills {
  import opened Wrappers
  import opened JsString
  import opened ReminderGroups
  import ReminderRoutes

  /**
   * How the POST ended: a success status with the created reminder as the
   * reply; another status with a reply whose `error` field may be absent; or
   * an exception (no connection, or a reply that is not JSON) with its message.
   */
  datatype PostOutcome = Created(reminder: Reminder) | NotOk(error: Option<string>) | Threw(message: string)

  datatype Alert = Alert(title: string, message: string)

  /** `errData.error || 'Failed to add reminder'`: an absent or empty `error` falls back to the fixed text. */
  function FailureMessage(error: Option<string>): (m: string)
    ensures m != ""
    ensures error.Some? && error.value != "" ==> m == error.value
    ensures error.None? || error.value == "" ==> m == "Failed to add reminder"
  {
    if error.Some? && error.value != "" then error.value else "Failed to add reminder"
  }

  /** The screen's state: the list shown, the input, and whether a request is in flight. */
  class BillsScreen {
    var reminders: seq<Reminder>
    var newMessage: string
    var sending: bool

    constructor()
      ensures reminders == [] && newMessage == "" && !sending
    {
      reminders, newMessage, sending := [], "", false;
    }

    /**
     * `addReminder()`. A blank input only raises a validation alert. Otherwise
     * the untrimmed input is sent (`request`), `sending` is set for the
     * duration of the request (`sendingMeanwhile`) and cleared on every path,
     * and the list and input change only when the reminder was created.
     */
    method AddReminder(outcome: PostOutcome) returns (request: Option<string>, alert: Option<Alert>, ghost sendingMeanwhile: bool)
      modifies this
      ensures Trim(old(newMessage)) == "" ==>
        && request.None?
        && alert == Some(Alert("Validation", "Please enter a reminder message."))
        && reminders == old(reminders) && newMessage == old(newMessage) && sending == old(sending)
      ensures Trim(old(newMessage)) != "" ==>
        && request == Some(old(newMessage))
        && ReminderRoutes.HasMessage(ReminderRoutes.PostBody(request, None))
        && sendingMeanwhile && !sending
      ensures Trim(old(newMessage)) != "" && outcome.Created? ==>
        reminders == [outcome.reminder] + old(reminders) && newMessage == "" && alert.None?
      ensures Trim(old(newMessage)) != "" && outcome.NotOk? ==>
        reminders == old(reminders) && newMessage == old(newMessage)
        && alert == Some(Alert("Error", FailureMessage(outcome.error)))
      ensures Trim(old(newMessage)) != "" && outcome.Threw? ==>
        reminders == old(reminders) && newMessage == old(newMessage)
        && alert == Some(Alert("Error", outcome.message))
    {
      if Trim(newMessage) == "" {
        request, alert, sendingMeanwhile := None, Some(Alert("Validation", "Please enter a reminder message.")), false;
        return;
      }
      sending := true;
      request := Some(newMessage);
      sendingMeanwhile := sending;
      match outcome {
        case Created(added) =>
          reminders := [added] + reminders;
          newMessage := "";
          alert := None;
        case NotOk(error) =>
          alert := Some(Alert("Error", FailureMessage(error)));
        case Threw(message) =>
          alert := Some(Alert("Error", message));
      }
      sending := false;
    }
  }
}
