/**
 * The chat-style reminders screen: saving shows the trimmed text at the top
 * of the local list, clears the input, then posts the text to the reminder
 * service, whose failures are only logged.
 */
module Chat {
  import opened Wrappers
  import opened JsString
  import ReminderRoutes

  /** The screen's state: the texts saved so far, newest first, and the input. */
  class ChatScreen {
    var savedReminders: seq<string>
    var reminderText: string

    constructor()
      ensures savedReminders == [] && reminderText == ""
    {
      savedReminders, reminderText := [], "";
    }

    /**
     * `handleSaveReminder()`; `sent` is the message posted, if any. Whether
     * the service accepted it (`accepted`) changes nothing: the list was
     * updated before the request and a failure is swallowed.
     */
    method HandleSaveReminder(accepted: bool) returns (sent: Option<string>)
      modifies this
      ensures Trim(old(reminderText)) == "" ==>
        sent.None? && savedReminders == old(savedReminders) && reminderText == old(reminderText)
      ensures Trim(old(reminderText)) != "" ==>
        && sent == Some(Trim(old(reminderText)))
        && savedReminders == [Trim(old(reminderText))] + old(savedReminders)
        && reminderText == ""
      ensures sent.Some? ==> Trim(sent.value) == sent.value
      ensures sent.Some? ==> ReminderRoutes.HasMessage(ReminderRoutes.PostBody(sent, None))
    {
      var newText := Trim(reminderText);
      sent := None;
      if newText != "" {
        TrimIdempotent(reminderText);
        savedReminders := [newText] + savedReminders;
        reminderText := "";
        sent := Some(newText);
      }
    }
  }
}
