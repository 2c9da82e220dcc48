/**
 * RFIDsystem.py's scanner task: `scan_rfid` with the registry in the
 * SQLite table `rfid_tags` (uid UNIQUE), modelled as a uid -> label map.
 */
module RfidSystem {
  import opened Types
  import opened Text
  import opened Uid
  import opened Reader
  import opened Registry
  import Retry
  import Blocks
  import opened Scan

  /** The state `scan_rfid` keeps across iterations: `last_uid` and the table behind `cursor`. */
  class SystemScanner {
    var lastUid: Option<string>
    var table: Table

    /** `last_uid = None` when the task starts; the table holds whatever was enrolled before. */
    constructor (rows: Table)
      ensures lastUid == None && table == rows
    {
      lastUid := None;
      table := rows;
    }

    function Current(): Scan.State
      reads this
    {
      Scan.State(lastUid, table)
    }

    /** One iteration of the `while True` loop, lines 98-163. */
    method Step(mode: Mode, inp: Inputs) returns (report: Report)
      modifies this
      ensures (Current(), report) == Scan.Step(SqlTable, old(Current()), mode, inp)
    {
      var polled, pollCount, pollDelays := Retry.Perform(PollAttempts(inp.poll), Retry.MaxRetries, Retry.BaseDelayMs);
      var calls := PollTrace(inp.poll, pollCount);
      var sleeps := pollDelays;
      if polled.Raised? {
        // "RFID polling error": nothing else happens this iteration
        return Report(NoTag(polled.error), calls, sleeps + [PollIntervalMs]);
      }
      var raw := polled.value;
      var uidStr := Canonical(raw);
      if lastUid == Some(uidStr) {
        return Report(SameTag, calls, sleeps + [PollIntervalMs]);
      }
      ghost var s0 := Current();
      ghost var tags0 := table;
      assert Scan.PollRun(inp) == Retry.Run(polled, pollCount);
      Scan.StepDispatched(SqlTable, s0, mode, inp);
      lastUid := Some(uidStr);
      var event, moreCalls, moreSleeps;
      if mode == Read {
        var record := Lookup(table, uidStr);
        event := if record.Some? then Allowed(record.value) else Denied;
        moreCalls, moreSleeps := [], [PollIntervalMs];
      } else {
        event, moreCalls, moreSleeps := Enroll(uidStr, raw, inp);
      }
      assert Effect(table, event, moreCalls, moreSleeps) == Scan.Dispatch(SqlTable, tags0, uidStr, raw, mode, inp);
      report := Report(event, calls + moreCalls, sleeps + moreSleeps);
    }

    /** Write mode, lines 119-159: check, prompt, write the marker, insert. */
    method Enroll(uidStr: string, raw: seq<byte>, inp: Inputs) returns (event: Event, calls: seq<Call>, sleeps: seq<nat>)
      modifies this`table
      ensures Effect(table, event, calls, sleeps) == Scan.Enroll(SqlTable, old(table), uidStr, raw, inp)
    {
      var record := Lookup(table, uidStr);
      if record.Some? {
        return AlreadyEnrolled, [], [PollIntervalMs];
      }
      var name := Strip(inp.labelLine);
      if name == [] {
        // `continue`: the pause at the end of the loop body is skipped
        return EmptyLabel, [], [];
      }
      event, calls, sleeps := WriteMarker(uidStr, name, raw, inp);
    }

    /** The marker write and the record, lines 133-159: auth and write with retries, stop_crypto, then the registry. */
    method WriteMarker(uidStr: string, name: string, raw: seq<byte>, inp: Inputs)
      returns (event: Event, calls: seq<Call>, sleeps: seq<nat>)
      modifies this`table
      ensures Effect(table, event, calls, sleeps) == Scan.WriteMarker(SqlTable, old(table), uidStr, name, raw, inp)
    {
      var dataBytes := Blocks.SystemMarker();
      var authResult, authCount, authDelays := Retry.Perform(inp.auth, Retry.MaxRetries, Retry.BaseDelayMs);
      calls := Repeated(AuthKeyA(MarkerBlockNo, DefaultKey, raw), authCount);
      sleeps := authDelays;
      if authResult.Raised? {
        return AuthFailed(authResult.error), calls, sleeps + [PollIntervalMs];
      }
      var writeResult, writeCount, writeDelays := Retry.Perform(inp.write, Retry.MaxRetries, Retry.BaseDelayMs);
      calls := calls + Repeated(WriteBlock(MarkerBlockNo, dataBytes), writeCount);
      sleeps := sleeps + writeDelays + [PollIntervalMs];
      if writeResult.Raised? {
        return WriteFailed(writeResult.error), calls, sleeps;
      }
      // an exception from stop_crypto is only logged
      calls := calls + [StopCrypto];
      var stopFailed := inp.stopCryptoRaises;
      var (inserted, rows) := Insert(table, uidStr, name);
      table := rows;
      event := if inserted == Created then Enrolled(name, stopFailed) else InsertRejected;
    }

    /** The loop over a finite number of iterations, each with the mode current at its dispatch. */
    method Loop(cycles: seq<Cycle>) returns (reports: seq<Report>)
      modifies this
      ensures (Current(), reports) == Scan.Run(SqlTable, old(Current()), cycles)
    {
      reports := [];
      assert cycles[0..] == cycles;
      assert reports + Scan.Run(SqlTable, Current(), cycles).1 == Scan.Run(SqlTable, Current(), cycles).1;
      for i := 0 to |cycles|
        invariant Scan.Run(SqlTable, old(Current()), cycles)
                  == (Scan.Run(SqlTable, Current(), cycles[i..]).0, reports + Scan.Run(SqlTable, Current(), cycles[i..]).1)
      {
        assert cycles[i..][0] == cycles[i] && cycles[i..][1..] == cycles[i + 1..];
        Scan.RunUnfold(SqlTable, Current(), cycles[i..]);
        var report := Step(cycles[i].mode, cycles[i].inputs);
        ghost var rest := Scan.Run(SqlTable, Current(), cycles[i + 1..]);
        assert reports + ([report] + rest.1) == (reports + [report]) + rest.1;
        reports := reports + [report];
      }
      assert cycles[|cycles|..] == [];
      assert reports + [] == reports;
    }
  }
}
