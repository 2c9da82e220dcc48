/**
 * RFIDtest-nosql.py's scanner task: `scan_rfid` with the registry in the
 * in-memory dict `known_tags`.
 */
module RfidTestNoSql {
  import opened Types
  import opened Text
  import opened Uid
  import opened Reader
  import opened Registry
  import Retry
  import Blocks
  import opened Scan

  /** The state `scan_rfid` keeps across iterations: `last_uid` and the module-level `known_tags`. */
  class NoSqlScanner {
    var lastUid: Option<string>
    var knownTags: Table

    /** `known_tags = {}` at import time and `last_uid = None` when the task starts. */
    constructor ()
      ensures lastUid == None && knownTags == map[]
    {
      lastUid := None;
      knownTags := map[];
    }

    function Current(): Scan.State
      reads this
    {
      Scan.State(lastUid, knownTags)
    }

    /** One iteration of the `while True` loop, lines 80-124. */
    method Step(mode: Mode, inp: Inputs) returns (report: Report)
      modifies this
      ensures (Current(), report) == Scan.Step(MemoryDict, old(Current()), mode, inp)
    {
      var polled, pollCount, pollDelays := Retry.Perform(PollAttempts(inp.poll), Retry.MaxRetries, Retry.BaseDelayMs);
      var calls := PollTrace(inp.poll, pollCount);
      var sleeps := pollDelays;
      if polled.Raised? {
        return Report(NoTag(polled.error), calls, sleeps + [PollIntervalMs]);
      }
      var raw := polled.value;
      var uidStr := Canonical(raw);
      if lastUid == Some(uidStr) {
        return Report(SameTag, calls, sleeps + [PollIntervalMs]);
      }
      ghost var s0 := Current();
      ghost var tags0 := knownTags;
      assert Scan.PollRun(inp) == Retry.Run(polled, pollCount);
      Scan.StepDispatched(MemoryDict, s0, mode, inp);
      lastUid := Some(uidStr);
      var event, moreCalls, moreSleeps;
      if mode == Read {
        event := if uidStr in knownTags then Allowed(knownTags[uidStr]) else Denied;
        moreCalls, moreSleeps := [], [PollIntervalMs];
      } else {
        event, moreCalls, moreSleeps := Enroll(uidStr, raw, inp);
      }
      assert Effect(knownTags, event, moreCalls, moreSleeps) == Scan.Dispatch(MemoryDict, tags0, uidStr, raw, mode, inp);
      report := Report(event, calls + moreCalls, sleeps + moreSleeps);
    }

    /** Write mode, lines 94-121: check, prompt, write the marker, record. */
    method Enroll(uidStr: string, raw: seq<byte>, inp: Inputs) returns (event: Event, calls: seq<Call>, sleeps: seq<nat>)
      modifies this`knownTags
      ensures Effect(knownTags, event, calls, sleeps) == Scan.Enroll(MemoryDict, old(knownTags), uidStr, raw, inp)
    {
      if uidStr in knownTags {
        return AlreadyEnrolled, [], [PollIntervalMs];
      }
      var name := Strip(inp.labelLine);
      if name == [] {
        // `continue`: the pause at the end of the loop body is skipped
        return EmptyLabel, [], [];
      }
      event, calls, sleeps := WriteMarker(uidStr, name, raw, inp);
    }

    /** The marker write and the record, lines 105-121: auth and write with retries, stop_crypto, then the registry. */
    method WriteMarker(uidStr: string, name: string, raw: seq<byte>, inp: Inputs)
      returns (event: Event, calls: seq<Call>, sleeps: seq<nat>)
      modifies this`knownTags
      ensures Effect(knownTags, event, calls, sleeps) == Scan.WriteMarker(MemoryDict, old(knownTags), uidStr, name, raw, inp)
    {
      var dataBytes := Blocks.NoSqlMarker();
      var authResult, authCount, authDelays := Retry.Perform(inp.auth, Retry.MaxRetries, Retry.BaseDelayMs);
      calls := Repeated(AuthKeyA(MarkerBlockNo, DefaultKey, raw), authCount);
      sleeps := authDelays;
      if authResult.Raised? {
        return AuthFailed(authResult.error), calls, sleeps + [PollIntervalMs];
      }
      var writeResult, writeCount, writeDelays := Retry.Perform(inp.write, Retry.MaxRetries, Retry.BaseDelayMs);
      calls := calls + Repeated(WriteBlock(MarkerBlockNo, dataBytes), writeCount);
      sleeps := sleeps + writeDelays + [PollIntervalMs];
      if writeResult.Raised? {
        return WriteFailed(writeResult.error), calls, sleeps;
      }
      // an exception from stop_crypto is only logged
      calls := calls + [StopCrypto];
      var stopFailed := inp.stopCryptoRaises;
      knownTags := knownTags[uidStr := name];
      event := Enrolled(name, stopFailed);
    }

    /** The loop over a finite number of iterations, each with the mode current at its dispatch. */
    method Loop(cycles: seq<Cycle>) returns (reports: seq<Report>)
      modifies this
      ensures (Current(), reports) == Scan.Run(MemoryDict, old(Current()), cycles)
    {
      reports := [];
      assert cycles[0..] == cycles;
      assert reports + Scan.Run(MemoryDict, Current(), cycles).1 == Scan.Run(MemoryDict, Current(), cycles).1;
      for i := 0 to |cycles|
        invariant Scan.Run(MemoryDict, old(Current()), cycles)
                  == (Scan.Run(MemoryDict, Current(), cycles[i..]).0, reports + Scan.Run(MemoryDict, Current(), cycles[i..]).1)
      {
        assert cycles[i..][0] == cycles[i] && cycles[i..][1..] == cycles[i + 1..];
        Scan.RunUnfold(MemoryDict, Current(), cycles[i..]);
        var report := Step(cycles[i].mode, cycles[i].inputs);
        ghost var rest := Scan.Run(MemoryDict, Current(), cycles[i + 1..]);
        assert reports + ([report] + rest.1) == (reports + [report]) + rest.1;
        reports := reports + [report];
      }
      assert cycles[|cycles|..] == [];
      assert reports + [] == reports;
    }
  }
}
