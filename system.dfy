/**
 * SystemController: a command name, lower-cased, is dispatched to sleep,
 * shutdown, restart or lock. Each of them first logs what it is about to do
 * and then invokes the host facility; an exception from the facility is
 * caught and logged with the command, and an unknown name is only logged.
 * Log lines and host effects share one ordered record.
 */
module SystemControl {
  import opened Common

  datatype Effect =
    | Logged(message: string)
    | SuspendRequested(hibernate: bool, forceCritical: bool, disableWakeEvent: bool)   // SetSuspendState
    | ProcessStarted(fileName: string, arguments: string)                              // Process.Start
    | WorkstationLocked                                                                // LockWorkStation

  predicate IsFacility(e: Effect) {
    !e.Logged?
  }

  predicate IsSystemCommand(name: string) {
    name == "sleep" || name == "shutdown" || name == "restart" || name == "lock"
  }

  /** The line each known command logs before acting. */
  function Announcement(name: string): string
    requires IsSystemCommand(name)
  {
    if name == "sleep" then "Putting system to sleep..."
    else if name == "shutdown" then "Shutting down system..."
    else if name == "restart" then "Restarting system..."
    else "Locking workstation..."
  }

  /** The host facility each known command invokes. */
  function Facility(name: string): Effect
    requires IsSystemCommand(name)
  {
    if name == "sleep" then SuspendRequested(false, true, true)
    else if name == "shutdown" then ProcessStarted("shutdown", "/s /t 0")
    else if name == "restart" then ProcessStarted("shutdown", "/r /t 0")
    else WorkstationLocked
  }

  const UnknownPrefix: string := "Unknown system command: "
  const ErrorPrefix: string := "Error executing system command '"

  function ErrorLine(command: string, message: string): string {
    ErrorPrefix + command + "': " + message
  }

  /**
   * What `ExecuteCommand(command)` records, when the facility call throws
   * an exception with message `fault.value` (or, for `None`, returns).
   */
  function CommandEffects(command: string, fault: Option<string>): seq<Effect> {
    var name := ToLower(command);
    if !IsSystemCommand(name) then [Logged(UnknownPrefix + command)]
    else if fault.None? then [Logged(Announcement(name)), Facility(name)]
    else [Logged(Announcement(name)), Logged(ErrorLine(command, fault.value))]
  }

  /** The message of the `NullReferenceException` that `ToLower` throws on a null command. */
  const NullReferenceMessage: string := "Object reference not set to an instance of an object."

  /**
   * `ExecuteCommand` on a possibly null command: null throws inside the try
   * block and is logged, with the null interpolated as the empty string.
   */
  function ExecuteEffects(command: Option<string>, fault: Option<string>): seq<Effect> {
    match command
    case None => [Logged(ErrorLine("", NullReferenceMessage))]
    case Some(c) => CommandEffects(c, fault)
  }

  /** A null command is contained: one error line and no facility effect. */
  lemma NullCommandContained(fault: Option<string>)
    ensures ExecuteEffects(None, fault) == [Logged(ErrorPrefix + "': " + NullReferenceMessage)]
    ensures forall e :: e in ExecuteEffects(None, fault) ==> !IsFacility(e)
  {
    assert ErrorPrefix + "" == ErrorPrefix;
  }

  /** An unknown command is one "Unknown system command" line and no power or lock effect. */
  lemma UnknownCommand(command: string, fault: Option<string>)
    requires !IsSystemCommand(ToLower(command))
    ensures CommandEffects(command, fault) == [Logged(UnknownPrefix + command)]
    ensures forall e :: e in CommandEffects(command, fault) ==> !IsFacility(e)
  {
  }

  /**
   * Log-then-act: every facility effect is preceded by a log line, there is
   * at most one facility effect, and it comes last.
   */
  lemma LogBeforeAct(command: string, fault: Option<string>)
    ensures |CommandEffects(command, fault)| >= 1 && CommandEffects(command, fault)[0].Logged?
    ensures forall i :: 0 <= i < |CommandEffects(command, fault)| && IsFacility(CommandEffects(command, fault)[i]) ==>
      i > 0 && CommandEffects(command, fault)[i - 1].Logged? && i == |CommandEffects(command, fault)| - 1
  {
  }

  /** Each known command, when its facility returns, invokes exactly its own facility. */
  lemma FacilityOfEachCommand(command: string)
    ensures ToLower(command) == "sleep" ==> CommandEffects(command, None)[1] == SuspendRequested(false, true, true)
    ensures ToLower(command) == "shutdown" ==> CommandEffects(command, None)[1] == ProcessStarted("shutdown", "/s /t 0")
    ensures ToLower(command) == "restart" ==> CommandEffects(command, None)[1] == ProcessStarted("shutdown", "/r /t 0")
    ensures ToLower(command) == "lock" ==> CommandEffects(command, None)[1] == WorkstationLocked
  {
  }

  /**
   * A facility that throws is contained: no facility effect is recorded and the
   * last line is the error line, which quotes the command as it was given.
   */
  lemma FaultIsContained(command: string, message: string)
    requires IsSystemCommand(ToLower(command))
    ensures forall e :: e in CommandEffects(command, Some(message)) ==> !IsFacility(e)
    ensures CommandEffects(command, Some(message))[1] == Logged(ErrorLine(command, message))
    ensures ErrorLine(command, message)[|ErrorPrefix|..|ErrorPrefix| + |command|] == command
  {
  }

  /** Names that differ only in letter case behave alike (when nothing throws). */
  lemma CaseInsensitive(c1: string, c2: string)
    requires ToLower(c1) == ToLower(c2) && IsSystemCommand(ToLower(c1))
    ensures CommandEffects(c1, None) == CommandEffects(c2, None)
  {
  }

  class SystemController {
    /** Log lines and host effects, in the order they happened. */
    var effects: seq<Effect>

    constructor ()
      ensures effects == []
    {
      effects := [];
    }

    /**
     * `ExecuteCommand(command)`, with `null` as `None`; `fault` is the message
     * of the exception the host facility throws, if it does. Nothing
     * propagates to the caller.
     */
    method ExecuteCommand(command: Option<string>, fault: Option<string>)
      modifies this
      ensures effects == old(effects) + ExecuteEffects(command, fault)
    {
      if command.None? {
        effects := effects + [Logged(ErrorLine("", NullReferenceMessage))];
        return;
      }
      var text := command.value;
      var thrown: Option<string> := None;
      var name := ToLower(text);
      if name == "sleep" {
        thrown := Sleep(fault);
      } else if name == "shutdown" {
        thrown := Shutdown(fault);
      } else if name == "restart" {
        thrown := Restart(fault);
      } else if name == "lock" {
        thrown := Lock(fault);
      } else {
        effects := effects + [Logged(UnknownPrefix + text)];
      }
      if thrown.Some? {
        effects := effects + [Logged(ErrorLine(text, thrown.value))];
      }
    }

    /** Logs, then asks the host facility for `effect`; returns what it threw. */
    method Invoke(announcement: string, effect: Effect, fault: Option<string>) returns (thrown: Option<string>)
      requires IsFacility(effect)
      modifies this
      ensures thrown == fault
      ensures effects == old(effects) + [Logged(announcement)] + (if fault.None? then [effect] else [])
    {
      effects := effects + [Logged(announcement)];
      if fault.None? {
        effects := effects + [effect];
      }
      thrown := fault;
    }

    /** `Sleep()`: logs, then `SetSuspendState(false, true, true)`. */
    method Sleep(fault: Option<string>) returns (thrown: Option<string>)
      modifies this
      ensures thrown == fault
      ensures effects == old(effects) + [Logged("Putting system to sleep...")]
        + (if fault.None? then [SuspendRequested(false, true, true)] else [])
    {
      thrown := Invoke("Putting system to sleep...", SuspendRequested(false, true, true), fault);
    }

    /** `Shutdown()`: logs, then starts `shutdown /s /t 0`. */
    method Shutdown(fault: Option<string>) returns (thrown: Option<string>)
      modifies this
      ensures thrown == fault
      ensures effects == old(effects) + [Logged("Shutting down system...")]
        + (if fault.None? then [ProcessStarted("shutdown", "/s /t 0")] else [])
    {
      thrown := Invoke("Shutting down system...", ProcessStarted("shutdown", "/s /t 0"), fault);
    }

    /** `Restart()`: logs, then starts `shutdown /r /t 0`. */
    method Restart(fault: Option<string>) returns (thrown: Option<string>)
      modifies this
      ensures thrown == fault
      ensures effects == old(effects) + [Logged("Restarting system...")]
        + (if fault.None? then [ProcessStarted("shutdown", "/r /t 0")] else [])
    {
      thrown := Invoke("Restarting system...", ProcessStarted("shutdown", "/r /t 0"), fault);
    }

    /** `Lock()`: logs, then `LockWorkStation()`. */
    method Lock(fault: Option<string>) returns (thrown: Option<string>)
      modifies this
      ensures thrown == fault
      ensures effects == old(effects) + [Logged("Locking workstation...")]
        + (if fault.None? then [WorkstationLocked] else [])
    {
      thrown := Invoke("Locking workstation...", WorkstationLocked, fault);
    }
  }
}
