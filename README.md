# OAMS action-command protocol

This project models the action-command protocol of the OAMS driver in
`klippy/extras/oams.py`. OAMS is a filament-spool management board attached
to a Klipper printer. The driver object has two action fields: `action_status` (no
action, LOADING = 0 or UNLOADING = 1) and `action_status_code` (the last result
code received). It has four operations:

- `OAMS_LOAD_SPOOL` sets the pending action to LOADING, checks the `SPOOL`
  parameter, sends `oams_cmd_load_spool`, then polls until the pending action
  is cleared.
- `OAMS_UNLOAD_SPOOL` sets the pending action to UNLOADING, sends
  `oams_cmd_unload_spool`, then polls the same way.
- `OAMS_FOLLOWER` checks that `ENABLE` and `DIRECTION` are present, sends
  `oams_cmd_follower`, and answers at once without waiting.
- The `oams_action_status` handler clears the pending action and records the
  code when the notification's action is 0 or 1. Any other action is only
  logged.

Everything is in `oams.dfy`, module `Oams`. The pure part states the protocol
as functions over a `Snapshot` (pending action, last code, log of sent
commands). The class `Oams.Driver` holds the same state in mutable fields.
Each of its methods is proved to leave exactly the state and result that the
matching function gives.

Modelling choices:

- Commands sent to the microcontroller form an append-only log. Each entry
  records the command and the pending action at the moment it was sent, so
  the order "set the status, then send" can be stated.
- Command parameters are `Option<int>`: `None` is a missing parameter.
- What the user sees is a `CommandResult`. It is an error raised before
  anything is sent or waited for (`Raised`), or a reply (`Replied`, holding an
  optional `Info`, `BusyError` or `UnknownError`), or `StillWaiting`.
- The wait loop has no timeout. It is modelled as consuming a given sequence
  of incoming notifications in order, each one passed to the handler. It stops
  right after the one that clears the pending action. If the sequence runs out
  first, the result is `StillWaiting`.

Behaviour of the code that the model keeps:

- The handler does not compare the notification's action with the pending
  one. An UNLOADING notification therefore completes a pending load, and a
  notification arriving with nothing pending still overwrites the code
  (lines 121-126).
- The pending action is set before `SPOOL` is validated. A rejected load
  therefore leaves LOADING pending although nothing was sent (lines 70-75).
- The success reply of the load command is the text
  "Spool unloaded successfully" (line 82). It is kept as written.

## Model

| member | source | states |
|---|---|---|
| `Oams.Handle` | klippy/extras/oams.py:119-128 | A LOADING or UNLOADING notification clears the pending action and records its code, whatever was pending (including nothing). Any other action leaves the state unchanged. |
| `Oams.Wait` | klippy/extras/oams.py:78-79 | The wait ends exactly when some notification has action 0 or 1, right after the first such one. The recorded code is that notification's code. Spurious notifications never end it. Without a completing notification the state is unchanged and every notification was consumed. If nothing is pending it returns at once. |
| `Oams.ActionOutcome` | klippy/extras/oams.py:81-86 | Code 0 gives the info reply "Spool unloaded successfully". Code 2 gives the busy error. Every other code, including 1 and an unset code, gives the unknown error. All three directions are if-and-only-if. |
| `Oams.FollowerReply` | klippy/extras/oams.py:111-116 | "disabled" iff enable = 0 (any direction). "forward" iff (1,0). "reverse" iff (1,1). No reply iff none of these holds. |
| `Oams.Send` | klippy/extras/oams.py:76 | Defines one log entry: sending appends the command together with the pending action at that moment, and leaves both action fields unchanged. It is the specification of `Oams.Driver.SendCommand`. |
| `Oams.AwaitAction` | klippy/extras/oams.py:78-86 | After the send: waits, then replies with the outcome of the completing notification's code. It stays waiting, with the state unchanged, iff no notification has action 0 or 1. |
| `Oams.LoadSpool` | klippy/extras/oams.py:69-86 | Missing SPOOL, or SPOOL outside 0..3, raises the matching error and sends nothing, yet leaves LOADING pending and the code unchanged. A valid SPOOL appends exactly one load command carrying that index, sent while LOADING is pending. It then stays waiting, with every notification consumed and the code unchanged, iff no notification has action 0 or 1. Otherwise it ends right after the first such notification, records its code and replies with that code's outcome. |
| `Oams.UnloadSpool` | klippy/extras/oams.py:90-100 | Never raises. Appends exactly one parameterless unload command, sent while UNLOADING is pending. It then stays waiting, with every notification consumed and the code unchanged, iff no notification has action 0 or 1. Otherwise it ends right after the first such notification, records its code and replies with that code's outcome. |
| `Oams.Follower` | klippy/extras/oams.py:103-116 | Missing ENABLE, then missing DIRECTION, raises before anything is sent. Otherwise appends exactly one `[enable, direction]` command, without range checks, and replies with `FollowerReply`. It never waits and never changes the action fields. |
| `Oams.WaitIgnoresPendingKind` | klippy/extras/oams.py:121-126 | Which action is pending does not affect whether the wait ends, how many notifications it consumes, or the code it leaves. When the wait ends, the whole state it leaves is the same too. |
| `Oams.LoadAndUnloadAgree` | klippy/extras/oams.py:78-100 | On the same notifications, a load with a valid index and an unload give the same result, consume the same number of notifications and record the same code. |
| `Oams.WaitStopsAtCompletion` | klippy/extras/oams.py:78-79 | Notifications after the completing one are not consumed by the wait and do not change its outcome. This holds under the one-notification-per-check assumption stated under "## Left out". |
| `Oams.UnloadingNotificationEndsLoad` | klippy/extras/oams.py:121-126 | A pending load is completed by an UNLOADING notification. The load replies with that notification's code, after consuming only that notification. |
| `Oams.LateNotificationOverwritesCode` | klippy/extras/oams.py:119-126 | With nothing pending, a notification with action 0 or 1 still overwrites the recorded code. |
| `Oams.Driver.constructor` | klippy/extras/oams.py:49-50 | Both action fields start unset and the log is empty. |
| `Oams.Driver.OnActionStatus` | klippy/extras/oams.py:119-128 | The handler method changes the fields exactly as `Handle` says. |
| `Oams.Driver.SendCommand` | klippy/extras/oams.py:76 | Sending appends one entry to the log and changes nothing else. |
| `Oams.Driver.WaitForAction` | klippy/extras/oams.py:78-79 | The polling loop leaves the state, the consumed count and the done flag that `Wait` gives. |
| `Oams.Driver.Respond` | klippy/extras/oams.py:81-86 | The reply chosen from the field `action_status_code` is `ActionOutcome` of that code. |
| `Oams.Driver.CmdLoadSpool` | klippy/extras/oams.py:69-86 | The load command method leaves the state and result that `LoadSpool` gives. |
| `Oams.Driver.CmdUnloadSpool` | klippy/extras/oams.py:90-100 | The unload command method leaves the state and result that `UnloadSpool` gives. |
| `Oams.Driver.CmdFollower` | klippy/extras/oams.py:103-116 | The follower command method may modify only the log. It leaves the log and the result that `Follower` gives. |

## Left out

- `float_to_u32` (lines 130-131): it reinterprets IEEE-754 single-precision bits through Python's `struct` module. That is floating point plus a foreign library.
- `_build_config` (lines 134-169): it depends on the float encoding and on Python's `%u` formatting of floats and booleans. The command lookups it also performs (lines 171-181) are registry plumbing. Only the three command shapes they name are kept, in `McuCommand`.
- The parsing of `f1s_hes_on` / `hub_hes_on` (lines 29, 31): it relies on Python's `float()` parser.
- Oams.Wait, Oams.WaitStopsAtCompletion: the loop is assumed to re-check `action_status` after every single notification, with the handler running atomically between two checks. In the code the loop re-checks only after each `reactor.pause` of 0.1 s (lines 78-79, 93-94). The handler is an MCU response callback (lines 40-42), so several notifications may be handled within one pause. A second completing notification would then overwrite the code, and the reply would use the last code. Several notifications per pause and other interleavings of the handler with a running command are not modelled.
- Timing: `reactor.pause` and `monotonic` (lines 79, 94) are cooperative-scheduler plumbing. They are replaced by a given sequence of incoming notifications. A wait that never ends is shown as `StillWaiting` once the sequence runs out.
- Registration with the MCU and the G-code layer, `add_object`, the `get_status` placeholder and logging (lines 23-25, 40-47, 54-66, 183-186) are host-framework I/O and registry. A spurious notification is modelled as "no state change". Its log line is not modelled.
- Parameter parsing: `gcmd.get_int` raising on a non-integer value belongs to the G-code layer. Parameters arrive already parsed, or as `None` when absent.
- Wire encoding: the `%c` byte encoding of command fields belongs to the transport. Values outside a byte are logged as the integers the driver passed.
- The constants `STATUS_FORWARD_FOLLOWING` through `STATUS_STOPPED` and `OP_CODE_ERROR_UNSPECIFIED` are declared with their values. The handler treats the first four as spurious actions, and the outcome mapping treats the last as an unknown error, so the model needs no further use of them.
