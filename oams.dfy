/**
  A model of the action-command protocol of the OAMS filament-spool driver
  (klippy/extras/oams.py).

  The driver keeps two action fields, the pending action (`action_status`) and the
  last result code (`action_status_code`), and sends enumerated commands to the
  microcontroller. Load and unload set the pending action, send one command and
  then poll until the notification handler clears the pending action; the
  follower command sends one command and answers at once.

  The pure part of this module states the protocol as functions over a
  `Snapshot` of the driver; the class `Driver` carries the same state in mutable
  fields, and each of its methods is proved to change that state exactly as the
  corresponding function says.
*/
module Oams {

  datatype Option<T> = None | Some(value: T)

  // Action identifiers carried by `oams_action_status` notifications.
  const STATUS_LOADING: int := 0
  const STATUS_UNLOADING: int := 1
  const STATUS_FORWARD_FOLLOWING: int := 2
  const STATUS_REVERSE_FOLLOWING: int := 3
  const STATUS_COASTING: int := 4
  const STATUS_STOPPED: int := 5

  // Result codes carried by `oams_action_status` notifications.
  const OP_CODE_SUCCESS: int := 0
  const OP_CODE_ERROR_UNSPECIFIED: int := 1
  const OP_CODE_ERROR_BUSY: int := 2

  // User-facing reply texts.
  const MSG_SPOOL_REQUIRED := "SPOOL index is required"
  const MSG_INVALID_SPOOL := "Invalid SPOOL index"
  const MSG_ENABLE_REQUIRED := "ENABLE is required"
  const MSG_DIRECTION_REQUIRED := "DIRECTION is required"
  // The load command really answers with this text on success.
  const MSG_SUCCESS := "Spool unloaded successfully"
  const MSG_BUSY := "OAMS is busy"
  const MSG_UNKNOWN := "Unknown error from OAMS"
  const MSG_FORWARD := "Follower enable in forward direction"
  const MSG_REVERSE := "Follower enable in reverse direction"
  const MSG_DISABLED := "Follower disabled"

  /** A command sent to the microcontroller. */
  datatype McuCommand =
    | LoadSpoolCmd(spool: int)                  // oams_cmd_load_spool spool=%c
    | UnloadSpoolCmd                            // oams_cmd_unload_spool
    | FollowerCmd(enable: int, direction: int)  // oams_cmd_follower enable=%c direction=%c

  /** One entry of the outgoing log: the command and the pending action at the moment it was sent. */
  datatype Sent = Sent(cmd: McuCommand, pending: Option<int>)

  /** An `oams_action_status` notification from the microcontroller. */
  datatype Notification = Notification(action: int, code: int)

  /** A reply shown to the user: `respond_info`, or `respond_error` for busy / unknown error. */
  datatype Reply = Info(msg: string) | BusyError(msg: string) | UnknownError(msg: string)

  /**
    How a command ends: an error raised before anything is waited for, a
    (possibly absent) reply, or still blocked in the wait loop because the
    given notifications ran out.
  */
  datatype CommandResult = Raised(msg: string) | Replied(reply: Option<Reply>) | StillWaiting

  /** The driver state the protocol reads and writes. */
  datatype Snapshot = Snapshot(status: Option<int>, code: Option<int>, sent: seq<Sent>)

  /** What a run of the wait loop leaves: the state, how many notifications it handled, and whether it ended. */
  datatype Waited = Waited(after: Snapshot, consumed: nat, done: bool)

  /** What a command leaves: the state, its result, and how many notifications its wait handled. */
  datatype Step = Step(after: Snapshot, result: CommandResult, consumed: nat)

  /** The notifications the handler acts on: actions LOADING and UNLOADING. */
  predicate IsCompletion(n: Notification) {
    n.action == STATUS_LOADING || n.action == STATUS_UNLOADING
  }

  /**
    The notification handler `_oams_action_status`. It does not compare the
    action with the pending one: a LOADING or UNLOADING notification always
    clears the pending action and records the code; any other action is only
    logged.
  */
  function Handle(s: Snapshot, n: Notification): (t: Snapshot)
    ensures IsCompletion(n) ==> t.status == None && t.code == Some(n.code)
    ensures !IsCompletion(n) ==> t == s
    ensures t.sent == s.sent
  {
    if n.action == STATUS_LOADING then s.(status := None, code := Some(n.code))
    else if n.action == STATUS_UNLOADING then s.(status := None, code := Some(n.code))
    else s
  }

  /**
    The wait loop `while action_status is not None`, fed with the notifications
    that arrive, in order. It ends exactly when some notification is a
    completion, right after the first one; spurious notifications never end it.
  */
  function Wait(s: Snapshot, ns: seq<Notification>): (r: Waited)
    decreases |ns|
    ensures r.consumed <= |ns| && r.after.sent == s.sent
    ensures r.done <==> r.after.status == None
    ensures s.status == None ==> r == Waited(s, 0, true)
    ensures s.status != None && r.done ==>
      0 < r.consumed && IsCompletion(ns[r.consumed - 1]) &&
      r.after.code == Some(ns[r.consumed - 1].code) &&
      forall j :: 0 <= j < r.consumed - 1 ==> !IsCompletion(ns[j])
    ensures !r.done <==> s.status != None && forall j :: 0 <= j < |ns| ==> !IsCompletion(ns[j])
    ensures !r.done ==> r == Waited(s, |ns|, false)
  {
    if s.status == None then Waited(s, 0, true)
    else if ns == [] then Waited(s, 0, false)
    else
      var w := Wait(Handle(s, ns[0]), ns[1..]);
      assert forall j :: 1 <= j < |ns| ==> ns[j] == ns[1..][j - 1];
      Waited(w.after, w.consumed + 1, w.done)
  }

  /** The reply after the wait, chosen by the recorded result code alone. */
  function ActionOutcome(code: Option<int>): (o: Reply)
    ensures o == Info(MSG_SUCCESS) <==> code == Some(OP_CODE_SUCCESS)
    ensures o == BusyError(MSG_BUSY) <==> code == Some(OP_CODE_ERROR_BUSY)
    ensures o == UnknownError(MSG_UNKNOWN) <==>
      code != Some(OP_CODE_SUCCESS) && code != Some(OP_CODE_ERROR_BUSY)
  {
    if code == Some(OP_CODE_SUCCESS) then Info(MSG_SUCCESS)
    else if code == Some(OP_CODE_ERROR_BUSY) then BusyError(MSG_BUSY)
    else UnknownError(MSG_UNKNOWN)
  }

  /** The reply of the follower command; there is none for an unlisted combination. */
  function FollowerReply(enable: int, direction: int): (r: Option<Reply>)
    ensures r == Some(Info(MSG_FORWARD)) <==> enable == 1 && direction == 0
    ensures r == Some(Info(MSG_REVERSE)) <==> enable == 1 && direction == 1
    ensures r == Some(Info(MSG_DISABLED)) <==> enable == 0
    ensures r == None <==> enable != 0 && !(enable == 1 && (direction == 0 || direction == 1))
  {
    if enable == 1 && direction == 0 then Some(Info(MSG_FORWARD))
    else if enable == 1 && direction == 1 then Some(Info(MSG_REVERSE))
    else if enable == 0 then Some(Info(MSG_DISABLED))
    else None
  }

  /** Sending a command appends it, with the current pending action, to the log. */
  function Send(s: Snapshot, c: McuCommand): (t: Snapshot)
    ensures t.status == s.status && t.code == s.code
    ensures t.sent == s.sent + [Sent(c, s.status)]
  {
    s.(sent := s.sent + [Sent(c, s.status)])
  }

  /** The part of load and unload after the send: wait, then reply according to the code. */
  function AwaitAction(s: Snapshot, ns: seq<Notification>): (r: Step)
    requires s.status != None
    ensures r.after.sent == s.sent && r.consumed <= |ns|
    ensures r.result == StillWaiting <==> forall j :: 0 <= j < |ns| ==> !IsCompletion(ns[j])
    ensures r.result == StillWaiting ==> r == Step(s, StillWaiting, |ns|)
    ensures r.result != StillWaiting ==>
      0 < r.consumed && IsCompletion(ns[r.consumed - 1]) &&
      (forall j :: 0 <= j < r.consumed - 1 ==> !IsCompletion(ns[j])) &&
      r.after.status == None && r.after.code == Some(ns[r.consumed - 1].code) &&
      r.result == Replied(Some(ActionOutcome(Some(ns[r.consumed - 1].code))))
  {
    var w := Wait(s, ns);
    Step(w.after, if w.done then Replied(Some(ActionOutcome(w.after.code))) else StillWaiting, w.consumed)
  }

  predicate ValidSpool(spool: int) {
    0 <= spool <= 3
  }

  /**
    `cmd_OAMS_LOAD_SPOOL`. The pending action is set to LOADING before the
    SPOOL parameter is checked, so a rejected load leaves it set although
    nothing is sent.
  */
  function LoadSpool(s: Snapshot, spool: Option<int>, ns: seq<Notification>): (r: Step)
    ensures spool == None ==>
      r == Step(s.(status := Some(STATUS_LOADING)), Raised(MSG_SPOOL_REQUIRED), 0)
    ensures spool != None && !ValidSpool(spool.value) ==>
      r == Step(s.(status := Some(STATUS_LOADING)), Raised(MSG_INVALID_SPOOL), 0)
    ensures spool != None && ValidSpool(spool.value) ==>
      !r.result.Raised? &&
      r.after.sent == s.sent + [Sent(LoadSpoolCmd(spool.value), Some(STATUS_LOADING))] &&
      (r.result == StillWaiting <==> forall j :: 0 <= j < |ns| ==> !IsCompletion(ns[j])) &&
      (r.result == StillWaiting ==>
         r.after.status == Some(STATUS_LOADING) && r.after.code == s.code &&
         r.consumed == |ns|) &&
      (r.result != StillWaiting ==>
         0 < r.consumed <= |ns| && IsCompletion(ns[r.consumed - 1]) &&
         (forall j :: 0 <= j < r.consumed - 1 ==> !IsCompletion(ns[j])) &&
         r.after.status == None && r.after.code == Some(ns[r.consumed - 1].code) &&
         r.result == Replied(Some(ActionOutcome(Some(ns[r.consumed - 1].code)))))
  {
    var s1 := s.(status := Some(STATUS_LOADING));
    if spool == None then Step(s1, Raised(MSG_SPOOL_REQUIRED), 0)
    else if spool.value < 0 || spool.value > 3 then Step(s1, Raised(MSG_INVALID_SPOOL), 0)
    else AwaitAction(Send(s1, LoadSpoolCmd(spool.value)), ns)
  }

  /** `cmd_OAMS_UNLOAD_SPOOL`: no parameters, so nothing is checked before the send. */
  function UnloadSpool(s: Snapshot, ns: seq<Notification>): (r: Step)
    ensures !r.result.Raised?
    ensures r.after.sent == s.sent + [Sent(UnloadSpoolCmd, Some(STATUS_UNLOADING))]
    ensures r.result == StillWaiting <==> forall j :: 0 <= j < |ns| ==> !IsCompletion(ns[j])
    ensures r.result == StillWaiting ==>
      r.after.status == Some(STATUS_UNLOADING) && r.after.code == s.code && r.consumed == |ns|
    ensures r.result != StillWaiting ==>
      0 < r.consumed <= |ns| && IsCompletion(ns[r.consumed - 1]) &&
      (forall j :: 0 <= j < r.consumed - 1 ==> !IsCompletion(ns[j])) &&
      r.after.status == None && r.after.code == Some(ns[r.consumed - 1].code) &&
      r.result == Replied(Some(ActionOutcome(Some(ns[r.consumed - 1].code))))
  {
    AwaitAction(Send(s.(status := Some(STATUS_UNLOADING)), UnloadSpoolCmd), ns)
  }

  /**
    `cmd_OAMS_FOLLOWER`: ENABLE, then DIRECTION must be present; the values are
    sent without range checks and the command does not wait or touch the
    action fields.
  */
  function Follower(s: Snapshot, enable: Option<int>, direction: Option<int>): (r: Step)
    ensures r.after.status == s.status && r.after.code == s.code && r.consumed == 0
    ensures enable == None ==> r.result == Raised(MSG_ENABLE_REQUIRED) && r.after.sent == s.sent
    ensures enable != None && direction == None ==>
      r.result == Raised(MSG_DIRECTION_REQUIRED) && r.after.sent == s.sent
    ensures enable != None && direction != None ==>
      r.after.sent == s.sent + [Sent(FollowerCmd(enable.value, direction.value), s.status)] &&
      r.result == Replied(FollowerReply(enable.value, direction.value))
  {
    if enable == None then Step(s, Raised(MSG_ENABLE_REQUIRED), 0)
    else if direction == None then Step(s, Raised(MSG_DIRECTION_REQUIRED), 0)
    else
      var e, d := enable.value, direction.value;
      Step(Send(s, FollowerCmd(e, d)), Replied(FollowerReply(e, d)), 0)
  }

  // ---------------------------------------------------------------------------
  // Properties relating several operations

  /** Which action is pending does not matter to the wait: only when it ends and with which code. */
  lemma WaitIgnoresPendingKind(s: Snapshot, t: Snapshot, ns: seq<Notification>)
    requires s.status != None && t.status != None
    requires s.code == t.code && s.sent == t.sent
    ensures Wait(s, ns).done == Wait(t, ns).done
    ensures Wait(s, ns).consumed == Wait(t, ns).consumed
    ensures Wait(s, ns).done ==> Wait(s, ns).after == Wait(t, ns).after
    ensures !Wait(s, ns).done ==> Wait(s, ns).after.code == Wait(t, ns).after.code
  {
  }

  /** Load (with a valid index) and unload end the same way on the same notifications. */
  lemma LoadAndUnloadAgree(s: Snapshot, spool: int, ns: seq<Notification>)
    requires ValidSpool(spool)
    ensures LoadSpool(s, Some(spool), ns).result == UnloadSpool(s, ns).result
    ensures LoadSpool(s, Some(spool), ns).consumed == UnloadSpool(s, ns).consumed
    ensures LoadSpool(s, Some(spool), ns).after.code == UnloadSpool(s, ns).after.code
  {
  }

  /** Notifications arriving after the one that ends the wait are not consumed by it. */
  lemma {:induction false} WaitStopsAtCompletion(s: Snapshot, ns: seq<Notification>, later: seq<Notification>)
    requires Wait(s, ns).done
    ensures Wait(s, ns + later) == Wait(s, ns)
    decreases |ns|
  {
    if s.status != None {
      assert ns != [];
      assert (ns + later)[1..] == ns[1..] + later;
      WaitStopsAtCompletion(Handle(s, ns[0]), ns[1..], later);
    }
  }

  /** An UNLOADING notification completes a pending load: the handler does not match actions. */
  lemma UnloadingNotificationEndsLoad(s: Snapshot, spool: int, code: int, rest: seq<Notification>)
    requires ValidSpool(spool)
    ensures LoadSpool(s, Some(spool), [Notification(STATUS_UNLOADING, code)] + rest) ==
      Step(Snapshot(None, Some(code), s.sent + [Sent(LoadSpoolCmd(spool), Some(STATUS_LOADING))]),
           Replied(Some(ActionOutcome(Some(code)))), 1)
  {
  }

  /** A handled LOADING or UNLOADING notification overwrites the code even when nothing is pending. */
  lemma LateNotificationOverwritesCode(s: Snapshot, n: Notification)
    requires s.status == None && IsCompletion(n)
    ensures Handle(s, n) == s.(code := Some(n.code))
  {
  }

  // ---------------------------------------------------------------------------
  // The driver object

  /** The `OAMS` object: its two action fields and the log of commands sent to the microcontroller. */
  class Driver {
    var actionStatus: Option<int>
    var actionStatusCode: Option<int>
    var sent: seq<Sent>

    function State(): Snapshot
      reads this
    {
      Snapshot(actionStatus, actionStatusCode, sent)
    }

    /** Both action fields start unset and nothing has been sent. */
    constructor ()
      ensures State() == Snapshot(None, None, [])
    {
      actionStatus := None;
      actionStatusCode := None;
      sent := [];
    }

    /** `_oams_action_status`, called for each notification from the microcontroller. */
    method OnActionStatus(n: Notification)
      modifies this
      ensures State() == Handle(old(State()), n)
    {
      if n.action == STATUS_LOADING {
        actionStatus := None;
        actionStatusCode := Some(n.code);
      } else if n.action == STATUS_UNLOADING {
        actionStatus := None;
        actionStatusCode := Some(n.code);
      }
    }

    /** Send one command to the microcontroller. */
    method SendCommand(c: McuCommand)
      modifies this`sent
      ensures State() == Send(old(State()), c)
    {
      sent := sent + [Sent(c, actionStatus)];
    }

    /**
      The polling loop: hand each incoming notification to the handler until
      the pending action is cleared or the notifications run out.
    */
    method WaitForAction(incoming: seq<Notification>) returns (done: bool, consumed: nat)
      modifies this
      ensures Waited(State(), consumed, done) == Wait(old(State()), incoming)
    {
      var i := 0;
      while actionStatus != None && i < |incoming|
        invariant 0 <= i <= |incoming|
        invariant var w := Wait(State(), incoming[i..]);
          Wait(old(State()), incoming) == w.(consumed := w.consumed + i)
        decreases |incoming| - i
      {
        assert incoming[i..][1..] == incoming[i + 1..];
        OnActionStatus(incoming[i]);
        i := i + 1;
      }
      done := actionStatus == None;
      consumed := i;
    }

    /** Reply according to the recorded result code. */
    method Respond() returns (r: CommandResult)
      ensures r == Replied(Some(ActionOutcome(actionStatusCode)))
    {
      if actionStatusCode == Some(OP_CODE_SUCCESS) {
        r := Replied(Some(Info(MSG_SUCCESS)));
      } else if actionStatusCode == Some(OP_CODE_ERROR_BUSY) {
        r := Replied(Some(BusyError(MSG_BUSY)));
      } else {
        r := Replied(Some(UnknownError(MSG_UNKNOWN)));
      }
    }

    /** `cmd_OAMS_LOAD_SPOOL`, with the notifications that arrive while it waits. */
    method CmdLoadSpool(spool: Option<int>, incoming: seq<Notification>) returns (r: CommandResult, consumed: nat)
      modifies this
      ensures Step(State(), r, consumed) == LoadSpool(old(State()), spool, incoming)
    {
      actionStatus := Some(STATUS_LOADING);
      if spool == None {
        return Raised(MSG_SPOOL_REQUIRED), 0;
      }
      var idx := spool.value;
      if idx < 0 || idx > 3 {
        return Raised(MSG_INVALID_SPOOL), 0;
      }
      SendCommand(LoadSpoolCmd(idx));
      var done;
      done, consumed := WaitForAction(incoming);
      if !done {
        return StillWaiting, consumed;
      }
      r := Respond();
    }

    /** `cmd_OAMS_UNLOAD_SPOOL`, with the notifications that arrive while it waits. */
    method CmdUnloadSpool(incoming: seq<Notification>) returns (r: CommandResult, consumed: nat)
      modifies this
      ensures Step(State(), r, consumed) == UnloadSpool(old(State()), incoming)
    {
      actionStatus := Some(STATUS_UNLOADING);
      SendCommand(UnloadSpoolCmd);
      var done;
      done, consumed := WaitForAction(incoming);
      if !done {
        return StillWaiting, consumed;
      }
      r := Respond();
    }

    /** `cmd_OAMS_FOLLOWER`: only the log may change. */
    method CmdFollower(enable: Option<int>, direction: Option<int>) returns (r: CommandResult)
      modifies this`sent
      ensures Step(State(), r, 0) == Follower(old(State()), enable, direction)
    {
      if enable == None {
        return Raised(MSG_ENABLE_REQUIRED);
      }
      var e := enable.value;
      if direction == None {
        return Raised(MSG_DIRECTION_REQUIRED);
      }
      var d := direction.value;
      SendCommand(FollowerCmd(e, d));
      if e == 1 && d == 0 {
        r := Replied(Some(Info(MSG_FORWARD)));
      } else if e == 1 && d == 1 {
        r := Replied(Some(Info(MSG_REVERSE)));
      } else if e == 0 {
        r := Replied(Some(Info(MSG_DISABLED)));
      } else {
        r := Replied(None);
      }
    }
  }
}
