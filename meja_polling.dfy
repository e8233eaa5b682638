/** The older table screen that polls instead of streaming: every successful change bumps a
    refresh counter, and the effect keyed on that counter fetches the list again. Tables are
    addressed by their id here. */
module MejaPolling {
  import opened Wrappers
  import opened Js
  import opened MejaModel

  class PollingTablePanel {
    const token: Option<string>
    const username: Option<string>

    var mejas: seq<Meja>
    var formNomor: Scalar
    var selected: Option<Meja>
    var error: string
    var success: string
    /** `refreshKey`. */
    var refreshKey: nat
    /** The `refreshKey` the fetch effect last ran for; `None` before the first run. */
    var fetchedKey: Option<nat>
    var sent: seq<Request>

    ghost predicate Valid()
      reads this
    {
      fetchedKey.Some? ==> fetchedKey.value <= refreshKey
    }

    /** The effect `[token, refreshKey]` is due: it has never run, or the counter moved since. */
    predicate FetchDue()
      reads this
    {
      fetchedKey != Some(refreshKey)
    }

    constructor (token: Option<string>, username: Option<string>)
      ensures Valid() && FetchDue()
      ensures this.token == token && this.username == username
      ensures mejas == [] && formNomor == Str("") && selected.None? && error == "" && success == ""
      ensures refreshKey == 0 && fetchedKey.None? && sent == []
    {
      this.token, this.username := token, username;
      mejas, formNomor, selected, error, success := [], Str(""), None, "", "";
      refreshKey, fetchedKey, sent := 0, None, [];
    }

    /** The fetch effect, run on mount and after every change of `refreshKey`: the list on
        success, else the prefixed message and an empty list. */
    method FetchEffect(reply: Result<seq<Meja>>)
      requires Valid() && FetchDue()
      modifies this`mejas, this`error, this`sent, this`fetchedKey
      ensures Valid() && !FetchDue() && refreshKey == old(refreshKey)
      ensures sent == old(sent) + [FetchAll]
      ensures reply.Ok? ==> mejas == reply.value && error == ""
      ensures reply.Err? ==> mejas == [] && error == "Failed to fetch tables: " + reply.message
    {
      sent := sent + [FetchAll];
      fetchedKey := Some(refreshKey);
      match reply
      case Ok(data) =>
        mejas, error := data, "";
      case Err(msg) =>
        mejas, error := [], "Failed to fetch tables: " + msg;
    }

    /** `handleChange` on the number input. */
    method Change(value: string)
      requires Valid()
      modifies this`formNomor
      ensures Valid() && formNomor == Str(value)
    {
      formNomor := Str(value);
    }

    /** `handleSubmit`: an empty number is refused with no request; otherwise the selected table
        is updated by its id, or a new one is created; success resets the form and the
        selection and bumps the counter by one. */
    method Submit(reply: Reply)
      requires Valid()
      modifies this`error, this`success, this`sent, this`formNomor, this`selected, this`refreshKey
      ensures Valid()
      ensures !Truthy(old(formNomor)) ==>
                error == "Table number is required" && sent == old(sent) && success == old(success)
                && formNomor == old(formNomor) && selected == old(selected) && refreshKey == old(refreshKey)
      ensures Truthy(old(formNomor)) ==>
                sent == old(sent) + [if old(selected).Some? then UpdateMeja(old(selected).value.id, old(formNomor))
                                     else CreateMeja(old(formNomor))]
      ensures Truthy(old(formNomor)) && reply.Done? ==>
                error == "" && formNomor == Str("") && selected.None? && refreshKey == old(refreshKey) + 1
                && success == (if old(selected).Some? then "Table updated successfully" else "Table created successfully")
      ensures Truthy(old(formNomor)) && reply.Failed? ==>
                error == reply.message && success == "" && formNomor == old(formNomor)
                && selected == old(selected) && refreshKey == old(refreshKey)
    {
      if !Truthy(formNomor) {
        error := "Table number is required";
        return;
      }
      error, success := "", "";
      var wasEdit := selected.Some?;
      if wasEdit {
        sent := sent + [UpdateMeja(selected.value.id, formNomor)];
      } else {
        sent := sent + [CreateMeja(formNomor)];
      }
      match reply
      case Done =>
        success := if wasEdit then "Table updated successfully" else "Table created successfully";
        formNomor, selected := Str(""), None;
        refreshKey := refreshKey + 1;
      case Failed(msg) =>
        error := msg;
    }

    /** `handleDelete`: confirmation first; success bumps the counter. */
    method Delete(id: int, confirmed: bool, reply: Reply)
      requires Valid()
      modifies this`error, this`success, this`sent, this`refreshKey
      ensures Valid()
      ensures !confirmed ==> sent == old(sent) && error == old(error) && success == old(success)
                             && refreshKey == old(refreshKey)
      ensures confirmed ==> sent == old(sent) + [DeleteMeja(id)]
      ensures confirmed && reply.Done? ==>
                error == "" && success == "Table deleted successfully" && refreshKey == old(refreshKey) + 1
      ensures confirmed && reply.Failed? ==>
                error == reply.message && success == "" && refreshKey == old(refreshKey)
    {
      if !confirmed {
        return;
      }
      error, success := "", "";
      sent := sent + [DeleteMeja(id)];
      match reply
      case Done =>
        success := "Table deleted successfully";
        refreshKey := refreshKey + 1;
      case Failed(msg) =>
        error := msg;
    }

    /** `handleEdit`. */
    method Edit(m: Meja)
      requires Valid()
      modifies this`selected, this`formNomor
      ensures Valid() && selected == Some(m) && formNomor == Num(m.nomor)
    {
      selected, formNomor := Some(m), Num(m.nomor);
    }

    /** `handleCancel`. */
    method Cancel()
      requires Valid()
      modifies this`selected, this`formNomor
      ensures Valid() && selected.None? && formNomor == Str("")
    {
      selected, formNomor := None, Str("");
    }

    /** `handleAssignTable`: by id, no confirmation; success bumps the counter. */
    method Assign(id: int, reply: Reply)
      requires Valid()
      modifies this`error, this`success, this`sent, this`refreshKey
      ensures Valid()
      ensures sent == old(sent) + [AssignMeja(Some(id), username)]
      ensures reply.Done? ==>
                error == "" && success == "Table assigned successfully" && refreshKey == old(refreshKey) + 1
      ensures reply.Failed? ==> error == reply.message && success == "" && refreshKey == old(refreshKey)
    {
      error, success := "", "";
      sent := sent + [AssignMeja(Some(id), username)];
      match reply
      case Done =>
        success := "Table assigned successfully";
        refreshKey := refreshKey + 1;
      case Failed(msg) =>
        error := msg;
    }

    /** `handleCompleteOrder`: unlike the streaming screen, no confirmation is asked. */
    method Complete(id: int, reply: Reply)
      requires Valid()
      modifies this`error, this`success, this`sent, this`refreshKey
      ensures Valid()
      ensures sent == old(sent) + [CompleteOrder(id)]
      ensures reply.Done? ==>
                error == "" && success == "Order completed successfully" && refreshKey == old(refreshKey) + 1
      ensures reply.Failed? ==> error == reply.message && success == "" && refreshKey == old(refreshKey)
    {
      error, success := "", "";
      sent := sent + [CompleteOrder(id)];
      match reply
      case Done =>
        success := "Order completed successfully";
        refreshKey := refreshKey + 1;
      case Failed(msg) =>
        error := msg;
    }
  }

  /** The row rules of the polling screen: Delete is disabled only while loading (an occupied
      table can be deleted), Assign shows for a free table, Complete for the user's own. */
  predicate PollingDeleteDisabled(loading: bool, m: Meja) {
    loading
  }

  /** Unlike the streaming screen, the polling screen lets an occupied table be deleted. */
  lemma PollingAllowsDeletingOccupied(m: Meja)
    requires Occupied(m)
    ensures !PollingDeleteDisabled(false, m) && DeleteDisabled(false, m)
  {
  }

  /** A successful change followed by the effect gives one fetch more than the change alone:
      after the mount fetch, a successful delete makes the list reload, a failed one does not. */
  method DeleteThenRefetch(okDelete: bool) returns (log: seq<Request>)
    ensures log == if okDelete then [FetchAll, DeleteMeja(7), FetchAll] else [FetchAll, DeleteMeja(7)]
  {
    var p := new PollingTablePanel(Some("t"), Some("u"));
    p.FetchEffect(Ok([]));
    p.Delete(7, true, if okDelete then Done else Failed("gone"));
    if p.FetchDue() {
      p.FetchEffect(Ok([]));
    }
    log := p.sent;
  }
}
