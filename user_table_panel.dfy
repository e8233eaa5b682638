/** The customer's table panel: find the table the signed-in user sits at, join a table by
    number, and leave it (which completes the order). */
module UserTablePanel {
  import opened Wrappers
  import opened Text
  import opened Js
  import opened MejaModel
  import Session
  import StoredUser

  /** `allMejas.find(meja => meja.username === username)`: the first table the user sits at. */
  function FindSeated(mejas: seq<Meja>, username: Option<string>): (r: Option<Meja>)
    ensures r.None? <==> forall i :: 0 <= i < |mejas| ==> !SeatedBy(mejas[i], username)
    ensures r.Some? ==> exists i :: 0 <= i < |mejas| && mejas[i] == r.value && SeatedBy(mejas[i], username)
                                    && forall j :: 0 <= j < i ==> !SeatedBy(mejas[j], username)
  {
    if mejas == [] then None
    else if SeatedBy(mejas[0], username) then Some(mejas[0])
    else
      var r := FindSeated(mejas[1..], username);
      assert r.Some? ==> exists i :: 0 <= i < |mejas| - 1 && mejas[1..][i] == r.value && SeatedBy(mejas[1..][i], username)
                                     && forall j :: 0 <= j < i ==> !SeatedBy(mejas[1..][j], username);
      assert r.Some? ==> exists i :: 1 <= i < |mejas| && mejas[i] == r.value && SeatedBy(mejas[i], username)
                                     && forall j :: 1 <= j < i ==> !SeatedBy(mejas[j], username);
      r
  }

  /** The user sits at no more than one table when the server seats each user once: then the
      table found is the only one with that user. */
  lemma FindSeatedUnique(mejas: seq<Meja>, username: Option<string>, k: nat)
    requires k < |mejas| && SeatedBy(mejas[k], username)
    requires forall i, j :: 0 <= i < j < |mejas| && SeatedBy(mejas[i], username) ==> !SeatedBy(mejas[j], username)
    ensures FindSeated(mejas, username) == Some(mejas[k])
  {
    var r := FindSeated(mejas, username);
    var i :| 0 <= i < |mejas| && mejas[i] == r.value && SeatedBy(mejas[i], username)
             && forall j :: 0 <= j < i ==> !SeatedBy(mejas[j], username);
    if i < k {
      assert false;
    } else if k < i {
      assert false;
    }
  }

  function JoinedMessage(mejaNumber: string): string {
    "Successfully joined Table " + mejaNumber + "!"
  }

  class TablePanel {
    const token: Option<string>
    /** `userData?.username`. */
    const username: Option<string>

    var currentMeja: Option<Meja>
    var mejaNumber: string
    var error: string
    var success: string
    var checkingStatus: bool
    /** Status re-checks set to run 2000 ms after a join or a leave, not yet fired. */
    var pendingRechecks: nat
    var sent: seq<Request>

    constructor (token: Option<string>, username: Option<string>)
      ensures this.token == token && this.username == username
      ensures currentMeja.None? && mejaNumber == "" && error == "" && success == ""
      ensures checkingStatus && pendingRechecks == 0 && sent == []
    {
      this.token, this.username := token, username;
      currentMeja, mejaNumber, error, success := None, "", "", "";
      checkingStatus, pendingRechecks, sent := true, 0, [];
    }

    /** `checkCurrentMejaStatus`: on success the user's table (or none) and no error; on
        failure a fixed message and the current table kept. Checking ends either way. */
    method CheckStatus(reply: Result<seq<Meja>>)
      modifies this`currentMeja, this`error, this`checkingStatus, this`sent
      ensures sent == old(sent) + [FetchAll] && !checkingStatus
      ensures reply.Ok? ==> currentMeja == FindSeated(reply.value, username) && error == ""
      ensures reply.Err? ==> currentMeja == old(currentMeja) && error == "Failed to check your table status"
    {
      sent := sent + [FetchAll];
      match reply {
        case Ok(all) =>
          currentMeja, error := FindSeated(all, username), "";
        case Err(_) =>
          error := "Failed to check your table status";
      }
      checkingStatus := false;
    }

    /** Typing in the number field. */
    method ChangeNumber(value: string)
      modifies this`mejaNumber
      ensures mejaNumber == value
    {
      mejaNumber := value;
    }

    /** `handleJoinMeja`: an empty number is refused with no request; otherwise the user is
        seated at `parseInt(mejaNumber)`; success clears the field and arms one re-check; an
        empty error message falls back to a fixed one. */
    method Join(reply: Reply)
      modifies this`error, this`success, this`mejaNumber, this`pendingRechecks, this`sent
      ensures old(mejaNumber) == "" ==>
                error == "Please enter a table number" && sent == old(sent) && success == old(success)
                && pendingRechecks == old(pendingRechecks)
      ensures old(mejaNumber) != "" ==> sent == old(sent) + [AssignMeja(ParseInt(old(mejaNumber)), username)]
      ensures old(mejaNumber) != "" && reply.Done? ==>
                error == "" && success == JoinedMessage(old(mejaNumber)) && mejaNumber == ""
                && pendingRechecks == old(pendingRechecks) + 1
      ensures old(mejaNumber) != "" && reply.Failed? ==>
                success == "" && mejaNumber == old(mejaNumber) && pendingRechecks == old(pendingRechecks)
                && error == (if reply.message != "" then reply.message else "Failed to join table")
    {
      if mejaNumber == "" {
        error := "Please enter a table number";
        return;
      }
      error, success := "", "";
      sent := sent + [AssignMeja(ParseInt(mejaNumber), username)];
      match reply
      case Done =>
        success := JoinedMessage(mejaNumber);
        mejaNumber := "";
        pendingRechecks := pendingRechecks + 1;
      case Failed(msg) =>
        error := if msg != "" then msg else "Failed to join table";
    }

    /** `handleExitMeja`, offered only while the user has a table: nothing unless confirmed;
        otherwise the order of the current table is completed. */
    method Exit(confirmed: bool, reply: Reply)
      requires currentMeja.Some?
      modifies this`error, this`success, this`pendingRechecks, this`sent
      ensures !confirmed ==> sent == old(sent) && error == old(error) && success == old(success)
                             && pendingRechecks == old(pendingRechecks)
      ensures confirmed ==> sent == old(sent) + [CompleteOrder(old(currentMeja).value.nomor)]
      ensures confirmed && reply.Done? ==>
                error == "" && success == "Successfully left the table!" && pendingRechecks == old(pendingRechecks) + 1
      ensures confirmed && reply.Failed? ==>
                success == "" && pendingRechecks == old(pendingRechecks)
                && error == (if reply.message != "" then reply.message else "Failed to leave table")
    {
      if !confirmed {
        return;
      }
      error, success := "", "";
      sent := sent + [CompleteOrder(currentMeja.value.nomor)];
      match reply
      case Done =>
        success := "Successfully left the table!";
        pendingRechecks := pendingRechecks + 1;
      case Failed(msg) =>
        error := if msg != "" then msg else "Failed to leave table";
    }

    /** A re-check timer fires: the status is checked again and the success banner cleared. */
    method FireRecheck(reply: Result<seq<Meja>>)
      requires pendingRechecks > 0
      modifies this`currentMeja, this`error, this`checkingStatus, this`sent, this`success, this`pendingRechecks
      ensures pendingRechecks == old(pendingRechecks) - 1 && success == ""
      ensures sent == old(sent) + [FetchAll] && !checkingStatus
      ensures reply.Ok? ==> currentMeja == FindSeated(reply.value, username) && error == ""
      ensures reply.Err? ==> currentMeja == old(currentMeja) && error == "Failed to check your table status"
    {
      pendingRechecks := pendingRechecks - 1;
      CheckStatus(reply);
      success := "";
    }
  }

  /** The panel as it renders: `token` and `username` are read from browser storage first, and
      a stored user text that is not a JSON document throws before the panel exists. */
  method OpenFromStorage(st: Session.Storage) returns (r: Result<TablePanel>)
    ensures r.Ok? <==> StoredUser.StoredUsername(st).Ok?
    ensures r.Err? ==> r.message == StoredUser.StoredUsername(st).message
    ensures r.Ok? ==> fresh(r.value) && (r.value.token, r.value.username) == StoredUser.StoredUsername(st).value
                      && r.value.currentMeja.None? && r.value.mejaNumber == "" && r.value.error == ""
                      && r.value.success == "" && r.value.checkingStatus && r.value.pendingRechecks == 0
                      && r.value.sent == []
  {
    match StoredUser.StoredUsername(st) {
      case Err(e) => r := Err(e);
      case Ok(id) =>
        var p := new TablePanel(id.0, id.1);
        r := Ok(p);
    }
  }
}
