/** The admin table screen that follows the server's table stream (EventSource on
    `/meja/admin/stream`) and reconnects with a linear back-off. The routed screen and its
    line-shifted copy share this model; the copy takes `token` and `username` as props instead of
    reading them from browser storage. */
module MejaStream {
  import opened Wrappers
  import opened Text
  import opened Js
  import opened MejaModel
  import JsonData
  import Session
  import StoredUser

  const MaxReconnectAttempts: nat := 5
  const BackoffStep: nat := 2000

  datatype Status = Connected | Disconnected

  /** The delays of the reconnects scheduled since the last successful open, when the attempt
      counter stands at `n`: 2000, 4000, ..., 2000·n ms. */
  function Backoff(n: nat): (r: seq<nat>)
    ensures |r| == n
    ensures forall k :: 0 <= k < n ==> r[k] == BackoffStep * (k + 1)
  {
    if n == 0 then [] else Backoff(n - 1) + [BackoffStep * n]
  }

  /** The connection-error text shown while reconnecting after attempt `n`. */
  function ReconnectingMessage(n: int): string {
    "Connection lost. Reconnecting... (" + IntToString(n) + "/" + IntToString(MaxReconnectAttempts) + ")"
  }

  const GiveUpMessage := "Failed to connect to real-time updates. Please refresh the page."

  class LiveTablePanel {
    /** The token the screen holds; a new one re-runs the stream effect. */
    var token: Option<string>
    const username: Option<string>

    var mejas: seq<Meja>
    var formNomor: Scalar
    var selected: Option<Meja>
    var error: string
    var success: string
    var status: Status
    var lastUpdated: Option<int>
    /** Everything sent to the table service, oldest first. */
    var sent: seq<Request>

    /** `eventSourceRef.current`: the id of the last EventSource opened, if any. */
    var current: Option<nat>
    /** The EventSources opened and not yet closed. */
    var live: set<nat>
    /** Ids for the EventSources still to be opened. */
    var nextSource: nat
    /** `reconnectAttemptsRef.current`. */
    var attempts: nat
    /** The delays of the reconnect timers that are set and have not fired. */
    var timers: seq<nat>
    var mounted: bool
    /** The delays of the reconnects scheduled since the last successful open. */
    ghost var sinceOpen: seq<nat>

    ghost predicate Valid()
      reads this
    {
      && (current.None? ==> live == {})
      && (current.Some? ==> live <= {current.value} && current.value < nextSource)
      && attempts <= MaxReconnectAttempts
      && sinceOpen == Backoff(attempts)
    }

    /** At most one EventSource is open at any time. */
    lemma AtMostOneLive()
      requires Valid()
      ensures |live| <= 1
    {
      if current.Some? {
        assert live <= {current.value};
        assert live == {} || live == {current.value};
      }
    }

    /** Between two successful opens at most five reconnects are scheduled, the k-th after
        exactly 2000·k ms. */
    lemma ReconnectsSinceOpen()
      requires Valid()
      ensures |sinceOpen| <= MaxReconnectAttempts
      ensures forall k :: 0 <= k < |sinceOpen| ==> sinceOpen[k] == BackoffStep * (k + 1)
    {
    }

    /** The screen before its effect has run. */
    constructor (token: Option<string>, username: Option<string>)
      ensures Valid()
      ensures this.token == token && this.username == username
      ensures mejas == [] && formNomor == Str("") && selected.None? && error == "" && success == ""
      ensures status == Disconnected && lastUpdated.None? && sent == []
      ensures current.None? && live == {} && attempts == 0 && timers == [] && !mounted
    {
      this.token, this.username := token, username;
      mejas, formNomor, selected, error, success := [], Str(""), None, "", "";
      status, lastUpdated, sent := Disconnected, None, [];
      current, live, nextSource, attempts, timers, mounted := None, {}, 0, 0, [], false;
      sinceOpen := [];
    }

    /** `connectToMejaStream`: close the held source, then open a fresh one and hold it. */
    method Connect()
      requires Valid()
      modifies this`current, this`live, this`nextSource
      ensures Valid()
      ensures current == Some(old(nextSource)) && live == {old(nextSource)}
      ensures nextSource == old(nextSource) + 1
    {
      if current.Some? {
        live := live - {current.value};
      }
      current := Some(nextSource);
      live := {nextSource};
      nextSource := nextSource + 1;
    }

    /** A new `token` (the stream effect's only dependency) on a mounted screen re-runs the
        effect: the cleanup closes the held source and the effect connects again, so the old
        source is closed and exactly one new one is open. The same token re-runs nothing, and an
        unmounted screen runs no effect. */
    method ChangeToken(t: Option<string>)
      requires Valid()
      modifies this`token, this`current, this`live, this`nextSource
      ensures Valid() && token == t
      ensures mounted && t != old(token) ==>
                current == Some(old(nextSource)) && live == {old(nextSource)} && nextSource == old(nextSource) + 1
      ensures mounted && t != old(token) && old(current).Some? ==> old(current).value !in live
      ensures !(mounted && t != old(token)) ==>
                current == old(current) && live == old(live) && nextSource == old(nextSource)
    {
      var rerun := mounted && t != token;
      token := t;
      if rerun {
        if current.Some? {
          live := live - {current.value};
        }
        Connect();
      }
    }

    /** The effect on mount: connect. */
    method Mount()
      requires Valid() && !mounted
      modifies this`current, this`live, this`nextSource, this`mounted
      ensures Valid() && mounted
      ensures current == Some(old(nextSource)) && live == {old(nextSource)}
    {
      mounted := true;
      Connect();
    }

    /** `onopen` of the held source: connected, error cleared, attempts back to 0. */
    method OnOpen()
      requires Valid() && current.Some? && current.value in live
      modifies this`status, this`error, this`attempts, this`sinceOpen
      ensures Valid()
      ensures status == Connected && error == "" && attempts == 0
    {
      status, error, attempts := Connected, "", 0;
      sinceOpen := [];
    }

    /** A `meja-update` event of the held source. `payload` is what `JSON.parse` gives, `None`
        when it throws; `now` is the clock. A payload that cannot be parsed sets an error and
        leaves the list, the connection and the attempt counter as they were. */
    method OnMejaUpdate(payload: Option<seq<Meja>>, now: int)
      requires Valid() && current.Some? && current.value in live
      modifies this`mejas, this`lastUpdated, this`error
      ensures Valid()
      ensures payload.Some? ==> mejas == payload.value && lastUpdated == Some(now) && error == ""
      ensures payload.None? ==> mejas == old(mejas) && lastUpdated == old(lastUpdated)
                                && error == "Error processing real-time updates"
    {
      if payload.Some? {
        mejas, lastUpdated, error := payload.value, Some(now), "";
      } else {
        error := "Error processing real-time updates";
      }
    }

    /** `onerror` of the held source: disconnected and closed; below five attempts the counter
        goes up and exactly one reconnect is scheduled after 2000·counter ms, otherwise nothing
        is scheduled and the terminal message is shown. */
    method OnError()
      requires Valid() && current.Some? && current.value in live
      modifies this`status, this`live, this`attempts, this`error, this`timers, this`sinceOpen
      ensures Valid()
      ensures status == Disconnected && live == {}
      ensures old(attempts) < MaxReconnectAttempts ==>
                attempts == old(attempts) + 1 && timers == old(timers) + [BackoffStep * attempts]
                && error == ReconnectingMessage(attempts)
      ensures old(attempts) >= MaxReconnectAttempts ==>
                attempts == old(attempts) && timers == old(timers) && error == GiveUpMessage
    {
      status := Disconnected;
      live := live - {current.value};
      if attempts < MaxReconnectAttempts {
        attempts := attempts + 1;
        error := ReconnectingMessage(attempts);
        timers := timers + [BackoffStep * attempts];
        sinceOpen := sinceOpen + [BackoffStep * attempts];
      } else {
        error := GiveUpMessage;
      }
    }

    /** A pending reconnect timer fires: it is removed and `connectToMejaStream` runs, whether
        or not the screen is still mounted. */
    method FireTimer(i: nat)
      requires Valid() && i < |timers|
      modifies this`timers, this`current, this`live, this`nextSource
      ensures Valid()
      ensures timers == old(timers[..i] + timers[i + 1..])
      ensures current == Some(old(nextSource)) && live == {old(nextSource)}
    {
      timers := timers[..i] + timers[i + 1..];
      Connect();
    }

    /** The effect's cleanup, as written: close the held source. Pending timers stay set and
        the ref is not cleared. */
    method Unmount()
      requires Valid() && mounted
      modifies this`live, this`mounted
      ensures Valid() && !mounted
      ensures live == {} && timers == old(timers) && current == old(current)
    {
      if current.Some? {
        live := live - {current.value};
      }
      mounted := false;
    }

    /** The cleanup with the pending reconnect timers cleared as well. */
    method UnmountCancellingTimers()
      requires Valid() && mounted
      modifies this`live, this`mounted, this`timers
      ensures Valid() && !mounted
      ensures live == {} && timers == [] && current == old(current)
    {
      if current.Some? {
        live := live - {current.value};
      }
      timers := [];
      mounted := false;
    }

    /** `fetchMejas` (the manual refresh): the list on success, else the prefixed message and an
        empty list. */
    method FetchMejas(reply: Result<seq<Meja>>)
      requires Valid()
      modifies this`mejas, this`error, this`sent
      ensures Valid()
      ensures sent == old(sent) + [FetchAll]
      ensures reply.Ok? ==> mejas == reply.value && error == ""
      ensures reply.Err? ==> mejas == [] && error == "Failed to fetch tables: " + reply.message
    {
      sent := sent + [FetchAll];
      match reply
      case Ok(data) =>
        mejas, error := data, "";
      case Err(msg) =>
        mejas, error := [], "Failed to fetch tables: " + msg;
    }

    /** `handleChange` on the number input. */
    method Change(value: string)
      requires Valid()
      modifies this`formNomor
      ensures Valid() && formNomor == Str(value)
    {
      formNomor := Str(value);
    }

    /** `handleSubmit`: an empty number is refused with no request; otherwise the selected table
        is updated (keyed by its number) or a new one is created; on success the form and the
        selection are reset. The list itself changes only when the stream next reports. */
    method Submit(reply: Reply)
      requires Valid()
      modifies this`error, this`success, this`sent, this`formNomor, this`selected
      ensures Valid()
      ensures !Truthy(old(formNomor)) ==>
                error == "Table number is required" && sent == old(sent) && success == old(success)
                && formNomor == old(formNomor) && selected == old(selected)
      ensures Truthy(old(formNomor)) ==>
                sent == old(sent) + [if old(selected).Some? then UpdateMeja(old(selected).value.nomor, old(formNomor))
                                     else CreateMeja(old(formNomor))]
      ensures Truthy(old(formNomor)) && reply.Done? ==>
                error == "" && formNomor == Str("") && selected.None?
                && success == (if old(selected).Some? then "Table updated successfully" else "Table created successfully")
      ensures Truthy(old(formNomor)) && reply.Failed? ==>
                error == reply.message && success == "" && formNomor == old(formNomor) && selected == old(selected)
    {
      if !Truthy(formNomor) {
        error := "Table number is required";
        return;
      }
      error, success := "", "";
      var wasEdit := selected.Some?;
      if wasEdit {
        sent := sent + [UpdateMeja(selected.value.nomor, formNomor)];
      } else {
        sent := sent + [CreateMeja(formNomor)];
      }
      match reply
      case Done =>
        success := if wasEdit then "Table updated successfully" else "Table created successfully";
        formNomor, selected := Str(""), None;
      case Failed(msg) =>
        error := msg;
    }

    /** `handleDelete`: nothing at all unless the user confirms. */
    method Delete(nomor: int, confirmed: bool, reply: Reply)
      requires Valid()
      modifies this`error, this`success, this`sent
      ensures Valid()
      ensures !confirmed ==> sent == old(sent) && error == old(error) && success == old(success)
      ensures confirmed ==> sent == old(sent) + [DeleteMeja(nomor)]
      ensures confirmed && reply.Done? ==> error == "" && success == "Table deleted successfully"
      ensures confirmed && reply.Failed? ==> error == reply.message && success == ""
    {
      if !confirmed {
        return;
      }
      error, success := "", "";
      sent := sent + [DeleteMeja(nomor)];
      match reply
      case Done => success := "Table deleted successfully";
      case Failed(msg) => error := msg;
    }

    /** `handleEdit`: select the table and put its number in the form. */
    method Edit(m: Meja)
      requires Valid()
      modifies this`selected, this`formNomor
      ensures Valid() && selected == Some(m) && formNomor == Num(m.nomor)
    {
      selected, formNomor := Some(m), Num(m.nomor);
    }

    /** `handleCancel`. */
    method Cancel()
      requires Valid()
      modifies this`selected, this`formNomor
      ensures Valid() && selected.None? && formNomor == Str("")
    {
      selected, formNomor := None, Str("");
    }

    /** `handleAssignTable`: seat the signed-in user at the table, with no confirmation. */
    method Assign(nomor: int, reply: Reply)
      requires Valid()
      modifies this`error, this`success, this`sent
      ensures Valid()
      ensures sent == old(sent) + [AssignMeja(Some(nomor), username)]
      ensures reply.Done? ==> error == "" && success == "Table assigned successfully"
      ensures reply.Failed? ==> error == reply.message && success == ""
    {
      error, success := "", "";
      sent := sent + [AssignMeja(Some(nomor), username)];
      match reply
      case Done => success := "Table assigned successfully";
      case Failed(msg) => error := msg;
    }

    /** `handleCompleteOrder`: nothing at all unless the user confirms. */
    method Complete(nomor: int, confirmed: bool, reply: Reply)
      requires Valid()
      modifies this`error, this`success, this`sent
      ensures Valid()
      ensures !confirmed ==> sent == old(sent) && error == old(error) && success == old(success)
      ensures confirmed ==> sent == old(sent) + [CompleteOrder(nomor)]
      ensures confirmed && reply.Done? ==> error == "" && success == "Order completed successfully"
      ensures confirmed && reply.Failed? ==> error == reply.message && success == ""
    {
      if !confirmed {
        return;
      }
      error, success := "", "";
      sent := sent + [CompleteOrder(nomor)];
      match reply
      case Done => success := "Order completed successfully";
      case Failed(msg) => error := msg;
    }
  }

  /** The routed screen reads its token and user from browser storage before it renders:
      `JSON.parse` of a stored text that is not JSON throws, and a missing item parses to `null`,
      whose `.username` throws. The screen renders exactly when a non-null user document is
      stored, and then holds the stored token and that document's username. */
  function StoredIdentity(st: Session.Storage): (r: Result<(Option<string>, Option<string>)>)
    ensures r.Ok? <==> "userData" in st && st["userData"].Doc? && st["userData"].value != JsonData.JNull
    ensures "userData" in st && st["userData"].Text? ==> r == Err(JsonData.JsonSyntaxError)
    ensures "userData" !in st ==> r == Err(NullUsername)
    ensures r.Ok? ==> r.value == (StoredUser.StoredToken(st), StoredUser.UsernameOf(st["userData"].value))
  {
    match Session.ParseItem(Session.GetItem(st, "userData"))
    case Err(e) => Err(e)
    case Ok(user) =>
      if user.JNull? then Err(NullUsername) else Ok((StoredUser.StoredToken(st), StoredUser.UsernameOf(user)))
  }

  const NullUsername := "Cannot read properties of null (reading 'username')"

  /** The routed screen built from storage: it renders, with the stored identity, exactly when
      `StoredIdentity` succeeds. */
  method OpenFromStorage(st: Session.Storage) returns (r: Result<LiveTablePanel>)
    ensures r.Ok? <==> StoredIdentity(st).Ok?
    ensures r.Err? ==> r.message == StoredIdentity(st).message
    ensures r.Ok? ==> fresh(r.value) && r.value.Valid() && !r.value.mounted && r.value.sent == []
                      && (r.value.token, r.value.username) == StoredIdentity(st).value
  {
    match StoredIdentity(st) {
      case Err(e) => r := Err(e);
      case Ok(id) =>
        var p := new LiveTablePanel(id.0, id.1);
        r := Ok(p);
    }
  }

  /** After a sign-in has stored the token text and a user document with a text username, the
      table screen renders with exactly that token and username. */
  lemma SignedInStorageOpens(st: Session.Storage, token: string, name: string, fields: map<string, JsonData.Json>)
    requires "username" in fields && fields["username"] == JsonData.JStr(name)
    ensures StoredIdentity(st["authToken" := Session.Text(token)]["userData" := Session.Doc(JsonData.JObj(fields))])
            == Ok((Some(token), Some(name)))
  {
  }

  /** A closed-source screen, restarted by a pending timer after it was unmounted, holds a live
      connection nobody will ever close: the cleanup as written leaves the reconnect armed. */
  method UnmountLeavesReconnectArmed() returns (leaked: bool)
    ensures leaked
  {
    var p := new LiveTablePanel(Some("t"), Some("u"));
    p.Mount();
    p.OnError();
    p.Unmount();
    p.FireTimer(0);
    leaked := !p.mounted && p.live != {};
  }

  /** With the timers cleared on unmount, the same sequence leaves nothing to fire and no
      connection open. */
  method UnmountCancellingLeavesNothing() returns (quiet: bool)
    ensures quiet
  {
    var p := new LiveTablePanel(Some("t"), Some("u"));
    p.Mount();
    p.OnError();
    p.UnmountCancellingTimers();
    quiet := !p.mounted && p.live == {} && p.timers == [];
  }
}
