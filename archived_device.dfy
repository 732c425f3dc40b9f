/** A device restored from an exported trace (src/devices/ArchivedDevice.tsx): it keeps
    the serial, title and OS it was exported with, renames live device types to their
    archived counterparts and holds the exported log entries until they are cleared. */
module ArchivedDevices {
  import opened Wrappers

  /** A device log entry is carried along unchanged; its fields play no part here. */
  type LogEntry = nat

  /** The device type an archive reports for a device of type `t`. */
  function ArchivedType(t: string): (r: string)
    ensures t == "emulator" <==> r == "archivedEmulator" && t != "archivedEmulator"
    ensures t == "physical" <==> r == "archivedPhysical" && t != "archivedPhysical"
    ensures t != "emulator" && t != "physical" ==> r == t
    ensures r != "emulator" && r != "physical"
  {
    if t == "emulator" then "archivedEmulator"
    else if t == "physical" then "archivedPhysical"
    else t
  }

  /** Archiving an archived type changes nothing. */
  lemma ArchivedTypeIdempotent(t: string)
    ensures ArchivedType(ArchivedType(t)) == ArchivedType(t)
  {
  }

  class ArchivedDevice {
    const serial: string
    const deviceType: string
    const title: string
    const os: string
    const isArchived: bool
    var logs: seq<LogEntry>

    constructor (serial: string, deviceType: string, title: string, os: string, logEntries: seq<LogEntry>)
      ensures this.serial == serial && this.title == title && this.os == os
      ensures this.deviceType == ArchivedType(deviceType)
      ensures isArchived
      ensures logs == logEntries
    {
      this.serial := serial;
      this.deviceType := ArchivedType(deviceType);
      this.title := title;
      this.os := os;
      this.isArchived := true;
      this.logs := logEntries;
    }

    /** `getLogs()`: the entries held now. */
    method GetLogs() returns (r: seq<LogEntry>)
      ensures r == logs
    {
      r := logs;
    }

    /** `clearLogs()`: no entries remain; nothing else changes. */
    method ClearLogs()
      modifies this`logs
      ensures logs == []
    {
      logs := [];
    }

    /** `spawnShell()`: an archive has no shell. */
    method SpawnShell() returns (r: Option<nat>)
      ensures r.None?
    {
      r := None;
    }
  }
}
