/**
 * One iteration of `scan_rfid`'s `while True` loop, as a function of the
 * scanner's state (the last uid seen and the registry), the mode read at
 * dispatch time and the answers of the reader and the console. Both
 * scanner scripts run this step; they differ only in how the registry is
 * kept (`Backing`) and how the marker is padded.
 */
module Scan {
  import opened Types
  import opened Text
  import opened Uid
  import opened Reader
  import opened Registry
  import Retry
  import Blocks

  /** The pause at the end of every iteration, `asyncio.sleep(0.2)`. */
  const PollIntervalMs: nat := 200
  /** The block the enrollment marker is written to. */
  const MarkerBlockNo: nat := 8

  /** RFIDsystem.py keeps tags in an SQL table, RFIDtest-nosql.py in a dict. */
  datatype Backing = SqlTable | MemoryDict

  /** `last_uid` (None before the first tag) and the enrolled tags. */
  datatype State = State(lastUid: Option<string>, tags: Table)

  /**
   * The answers an iteration may consume: poll k's reader answers, the
   * label line typed at the prompt, and what auth and write call k did
   * (returned some status, which the code ignores, or raised), and whether
   * `stop_crypto()` raises.
   */
  datatype Inputs = Inputs(
    poll: nat -> PollAnswer,
    labelLine: string,
    auth: nat -> Attempt<bool, Fault>,
    write: nat -> Attempt<bool, Fault>,
    stopCryptoRaises: bool)

  /** What an iteration reports (the log line it writes). */
  datatype Event =
    | NoTag(fault: Fault)                               // polling failed after the retries
    | SameTag                                           // the uid equals `last_uid`
    | Allowed(tagLabel: string)                         // read mode, tag known
    | Denied                                            // read mode, tag unknown
    | AlreadyEnrolled                                   // write mode, tag known
    | EmptyLabel                                        // write mode, label blank after strip
    | AuthFailed(fault: Fault)                          // auth raised after the retries
    | WriteFailed(fault: Fault)                         // write raised after the retries
    | Enrolled(tagLabel: string, stopCryptoFailed: bool) // marker written, tag recorded
    | InsertRejected                                    // IntegrityError on insert

  /** The event, the reader calls in order, and every sleep requested in order (ms). */
  datatype Report = Report(event: Event, calls: seq<Call>, sleeps: seq<nat>)

  function Marker(b: Backing): seq<byte> {
    match b
    case SqlTable => Blocks.SystemMarker()
    case MemoryDict => Blocks.NoSqlMarker()
  }

  function PollRun(inp: Inputs): Retry.Run<seq<byte>, Fault> {
    Retry.Retried(PollAttempts(inp.poll), Retry.MaxRetries)
  }

  function AuthRun(inp: Inputs): Retry.Run<bool, Fault> {
    Retry.Retried(inp.auth, Retry.MaxRetries)
  }

  function WriteRun(inp: Inputs): Retry.Run<bool, Fault> {
    Retry.Retried(inp.write, Retry.MaxRetries)
  }

  /** The auth calls of an enrollment: one per attempt, block 8, the default key, the raw uid. */
  function AuthCalls(raw: seq<byte>, inp: Inputs): seq<Call> {
    Repeated(AuthKeyA(MarkerBlockNo, DefaultKey, raw), AuthRun(inp).calls)
  }

  /** The write calls of an enrollment: one per attempt, the marker to block 8. */
  function WriteCalls(b: Backing, inp: Inputs): seq<Call> {
    Repeated(WriteBlock(MarkerBlockNo, Marker(b)), WriteRun(inp).calls)
  }

  /** What dispatching a new tag does: the registry after it, the event, the calls and the sleeps. */
  datatype Effect = Effect(tags: Table, event: Event, calls: seq<Call>, sleeps: seq<nat>)

  /** The backoff sleeps of the auth and of the write retries. */
  function AuthSleeps(inp: Inputs): seq<nat> {
    Retry.Backoff(Retry.BaseDelayMs, AuthRun(inp).calls - 1)
  }

  function WriteSleeps(inp: Inputs): seq<nat> {
    Retry.Backoff(Retry.BaseDelayMs, WriteRun(inp).calls - 1)
  }

  /** Write mode, lines 120-159 of RFIDsystem.py and 95-121 of RFIDtest-nosql.py. */
  function Enroll(b: Backing, tags: Table, uid: string, raw: seq<byte>, inp: Inputs): Effect {
    if uid in tags then Effect(tags, AlreadyEnrolled, [], [PollIntervalMs])
    else
      var name := Strip(inp.labelLine);
      // `continue` skips the pause at the end of the loop body
      if name == [] then Effect(tags, EmptyLabel, [], [])
      else WriteMarker(b, tags, uid, name, raw, inp)
  }

  /** The retried auth and write of the marker, then recording the tag. */
  function WriteMarker(b: Backing, tags: Table, uid: string, name: string, raw: seq<byte>, inp: Inputs): Effect {
    if AuthRun(inp).result.Raised? then
      Effect(tags, AuthFailed(AuthRun(inp).result.error), AuthCalls(raw, inp), AuthSleeps(inp) + [PollIntervalMs])
    else
      var calls := AuthCalls(raw, inp) + WriteCalls(b, inp);
      var sleeps := AuthSleeps(inp) + WriteSleeps(inp) + [PollIntervalMs];
      if WriteRun(inp).result.Raised? then Effect(tags, WriteFailed(WriteRun(inp).result.error), calls, sleeps)
      else Record(b, tags, uid, name, inp.stopCryptoRaises, calls + [StopCrypto], sleeps)
  }

  /** After `stop_crypto()`: the SQL insert, or the dict assignment. */
  function Record(b: Backing, tags: Table, uid: string, name: string, stopCryptoFailed: bool,
                  calls: seq<Call>, sleeps: seq<nat>): Effect {
    match b
    case SqlTable =>
      var (res, t) := Insert(tags, uid, name);
      Effect(t, if res == Created then Enrolled(name, stopCryptoFailed) else InsertRejected, calls, sleeps)
    case MemoryDict =>
      Effect(Assign(tags, uid, name), Enrolled(name, stopCryptoFailed), calls, sleeps)
  }

  function Dispatch(b: Backing, tags: Table, uid: string, raw: seq<byte>, mode: Mode, inp: Inputs): Effect {
    match mode
    case Read =>
      var event := match Lookup(tags, uid) case Some(l) => Allowed(l) case None => Denied;
      Effect(tags, event, [], [PollIntervalMs])
    case Write => Enroll(b, tags, uid, raw, inp)
  }

  /** One iteration of the scanner loop. */
  function Step(b: Backing, s: State, mode: Mode, inp: Inputs): (State, Report) {
    var poll := PollRun(inp);
    var calls := PollTrace(inp.poll, poll.calls);
    var sleeps := Retry.Backoff(Retry.BaseDelayMs, poll.calls - 1);
    match poll.result
    case Raised(f) => (s, Report(NoTag(f), calls, sleeps + [PollIntervalMs]))
    case Returned(raw) =>
      var uid := Canonical(raw);
      if s.lastUid == Some(uid) then (s, Report(SameTag, calls, sleeps + [PollIntervalMs]))
      else
        var e := Dispatch(b, s.tags, uid, raw, mode, inp);
        (State(Some(uid), e.tags), Report(e.event, calls + e.calls, sleeps + e.sleeps))
  }

  // ---------------------------------------------------------------------
  // Detection and de-duplication
  // ---------------------------------------------------------------------

  predicate IsDispatch(e: Event) {
    !e.NoTag? && !e.SameTag?
  }

  /**
   * `last_uid` after an iteration: unchanged when polling failed, otherwise
   * the canonical uid just read. A repeated uid changes nothing and issues
   * no reader call beyond polling; a failed poll changes nothing either.
   */
  lemma DetectionState(b: Backing, s: State, mode: Mode, inp: Inputs)
    ensures var (s', r) := Step(b, s, mode, inp);
      match PollRun(inp).result
      case Raised(f) => s' == s && r.event == NoTag(f)
      case Returned(raw) =>
        s'.lastUid == Some(Canonical(raw))
        && (s.lastUid == Some(Canonical(raw)) ==>
              s' == s && r.event == SameTag && r.calls == PollTrace(inp.poll, PollRun(inp).calls))
        && (s.lastUid != Some(Canonical(raw)) ==> IsDispatch(r.event))
  {
    var poll := PollRun(inp);
    var calls := PollTrace(inp.poll, poll.calls);
    var sleeps := Retry.Backoff(Retry.BaseDelayMs, poll.calls - 1);
    match poll.result
    case Raised(f) =>
      assert Step(b, s, mode, inp) == (s, Report(NoTag(f), calls, sleeps + [PollIntervalMs]));
    case Returned(raw) =>
      if s.lastUid == Some(Canonical(raw)) {
        assert Step(b, s, mode, inp) == (s, Report(SameTag, calls, sleeps + [PollIntervalMs]));
      } else {
        StepDispatched(b, s, mode, inp);
        DispatchEvent(b, s.tags, Canonical(raw), raw, mode, inp);
      }
  }

  /** A dispatch never reports a missing or repeated tag. */
  lemma DispatchEvent(b: Backing, tags: Table, uid: string, raw: seq<byte>, mode: Mode, inp: Inputs)
    ensures IsDispatch(Dispatch(b, tags, uid, raw, mode, inp).event)
  {
    var name := Strip(inp.labelLine);
    if mode == Write && uid !in tags && name != [] {
      WriteMarkerEvent(b, tags, uid, name, raw, inp);
    }
  }

  lemma WriteMarkerEvent(b: Backing, tags: Table, uid: string, name: string, raw: seq<byte>, inp: Inputs)
    ensures IsDispatch(WriteMarker(b, tags, uid, name, raw, inp).event)
  {
  }

  /** After a tag has been read, the next iteration dispatches exactly when it reads a different uid. */
  lemma DispatchIffNewCard(b: Backing, s: State, mode: Mode, inp: Inputs, prev: seq<byte>, raw: seq<byte>)
    requires s.lastUid == Some(Canonical(prev))
    requires PollRun(inp).result == Returned(raw)
    ensures IsDispatch(Step(b, s, mode, inp).1.event) <==> raw != prev
  {
    DetectionState(b, s, mode, inp);
    CanonicalInjective(raw, prev);
  }

  // ---------------------------------------------------------------------
  // Read mode
  // ---------------------------------------------------------------------

  /** Read mode never changes the registry or writes to the card; a new tag is allowed with its label iff enrolled. */
  lemma ReadModeOnlyLooksUp(b: Backing, s: State, inp: Inputs)
    ensures var (s', r) := Step(b, s, Read, inp);
      s'.tags == s.tags
      && (forall c :: c in r.calls ==> c == Request || c == Anticoll)
      && (PollRun(inp).result.Returned? && s.lastUid != Some(Canonical(PollRun(inp).result.value)) ==>
            var uid := Canonical(PollRun(inp).result.value);
            r.event == (if uid in s.tags then Allowed(s.tags[uid]) else Denied))
  {
  }

  // ---------------------------------------------------------------------
  // Write mode
  // ---------------------------------------------------------------------

  /** The uid a step dispatched on, if it dispatched. */
  predicate IsNewTag(s: State, inp: Inputs) {
    PollRun(inp).result.Returned? && s.lastUid != Some(Canonical(PollRun(inp).result.value))
  }

  function NewUid(inp: Inputs): string
    requires PollRun(inp).result.Returned?
  {
    Canonical(PollRun(inp).result.value)
  }

  /** What a new tag's dispatch does to the registry, stated on one dispatch. */
  lemma DispatchTags(b: Backing, tags: Table, uid: string, raw: seq<byte>, mode: Mode, inp: Inputs)
    ensures var e := Dispatch(b, tags, uid, raw, mode, inp);
      var enrolls := mode == Write && uid !in tags && Strip(inp.labelLine) != []
        && AuthRun(inp).result.Returned? && WriteRun(inp).result.Returned?;
      (enrolls ==> e.tags == tags[uid := Strip(inp.labelLine)]
                   && e.event == Enrolled(Strip(inp.labelLine), inp.stopCryptoRaises))
      && (!enrolls ==> e.tags == tags)
  {
    if mode == Write {
      EnrollTags(b, tags, uid, raw, inp);
    }
  }

  lemma EnrollTags(b: Backing, tags: Table, uid: string, raw: seq<byte>, inp: Inputs)
    ensures var e := Enroll(b, tags, uid, raw, inp);
      var enrolls := uid !in tags && Strip(inp.labelLine) != []
        && AuthRun(inp).result.Returned? && WriteRun(inp).result.Returned?;
      (enrolls ==> e.tags == tags[uid := Strip(inp.labelLine)]
                   && e.event == Enrolled(Strip(inp.labelLine), inp.stopCryptoRaises))
      && (!enrolls ==> e.tags == tags)
  {
    var name := Strip(inp.labelLine);
    if uid !in tags && name != [] {
      assert Enroll(b, tags, uid, raw, inp) == WriteMarker(b, tags, uid, name, raw, inp);
      WriteMarkerTags(b, tags, uid, name, raw, inp);
    } else {
      assert Enroll(b, tags, uid, raw, inp).tags == tags;
    }
  }

  /** Marking a card records the tag exactly when both the auth and the write completed. */
  lemma WriteMarkerTags(b: Backing, tags: Table, uid: string, name: string, raw: seq<byte>, inp: Inputs)
    requires uid !in tags
    ensures var e := WriteMarker(b, tags, uid, name, raw, inp);
      var enrolls := AuthRun(inp).result.Returned? && WriteRun(inp).result.Returned?;
      (enrolls ==> e.tags == tags[uid := name] && e.event == Enrolled(name, inp.stopCryptoRaises))
      && (!enrolls ==> e.tags == tags)
  {
    if AuthRun(inp).result.Returned? && WriteRun(inp).result.Returned? {
      var calls := AuthCalls(raw, inp) + WriteCalls(b, inp);
      var sleeps := AuthSleeps(inp) + WriteSleeps(inp) + [PollIntervalMs];
      assert WriteMarker(b, tags, uid, name, raw, inp)
        == Record(b, tags, uid, name, inp.stopCryptoRaises, calls + [StopCrypto], sleeps);
      RecordTags(b, tags, uid, name, inp.stopCryptoRaises, calls + [StopCrypto], sleeps);
    }
  }

  /** Recording a fresh uid, in either backing, adds exactly that row and reports it. */
  lemma RecordTags(b: Backing, tags: Table, uid: string, name: string, stopCryptoFailed: bool,
                   calls: seq<Call>, sleeps: seq<nat>)
    requires uid !in tags
    ensures Record(b, tags, uid, name, stopCryptoFailed, calls, sleeps)
      == Effect(tags[uid := name], Enrolled(name, stopCryptoFailed), calls, sleeps)
  {
    InsertAgreesWithAssign(tags, uid, name);
  }

  /** The registry and the trace of a step that dispatched, in terms of that dispatch. */
  lemma StepDispatched(b: Backing, s: State, mode: Mode, inp: Inputs)
    requires IsNewTag(s, inp)
    ensures var e := Dispatch(b, s.tags, NewUid(inp), PollRun(inp).result.value, mode, inp);
      var (s', r) := Step(b, s, mode, inp);
      s' == State(Some(NewUid(inp)), e.tags) && r.event == e.event
      && r.calls == PollTrace(inp.poll, PollRun(inp).calls) + e.calls
      && r.sleeps == Retry.Backoff(Retry.BaseDelayMs, PollRun(inp).calls - 1) + e.sleeps
  {
    var poll := PollRun(inp);
    var raw := poll.result.value;
    var calls := PollTrace(inp.poll, poll.calls);
    var sleeps := Retry.Backoff(Retry.BaseDelayMs, poll.calls - 1);
    var e := Dispatch(b, s.tags, Canonical(raw), raw, mode, inp);
    assert Step(b, s, mode, inp) == (State(Some(Canonical(raw)), e.tags), Report(e.event, calls + e.calls, sleeps + e.sleeps));
  }

  /**
   * Enrollment is abandoned for an already enrolled uid and for a label
   * that is blank after `strip()`: no card write, no registry change, and an
   * abandoned blank label skips the end-of-loop pause.
   */
  lemma EnrollmentAbandoned(b: Backing, s: State, inp: Inputs)
    requires IsNewTag(s, inp)
    requires NewUid(inp) in s.tags || AllSpace(inp.labelLine)
    ensures var (s', r) := Step(b, s, Write, inp);
      s'.tags == s.tags
      && (forall c :: c in r.calls ==> c == Request || c == Anticoll)
      && r.event == (if NewUid(inp) in s.tags then AlreadyEnrolled else EmptyLabel)
      && (r.event == EmptyLabel ==> r.sleeps == Retry.Backoff(Retry.BaseDelayMs, PollRun(inp).calls - 1))
  {
    StripEmptyIffAllSpace(inp.labelLine);
    StepDispatched(b, s, Write, inp);
    var uid := NewUid(inp);
    var e := Dispatch(b, s.tags, uid, PollRun(inp).result.value, Write, inp);
    assert e == if uid in s.tags then Effect(s.tags, AlreadyEnrolled, [], [PollIntervalMs])
                else Effect(s.tags, EmptyLabel, [], []);
    var calls := PollTrace(inp.poll, PollRun(inp).calls);
    assert calls + [] == calls;
    var sleeps := Retry.Backoff(Retry.BaseDelayMs, PollRun(inp).calls - 1);
    assert sleeps + [] == sleeps;
  }

  /** The conditions under which an iteration enrolls a tag. */
  predicate EnrollsTag(s: State, mode: Mode, inp: Inputs) {
    mode == Write && IsNewTag(s, inp) && NewUid(inp) !in s.tags && !AllSpace(inp.labelLine)
    && AuthRun(inp).result.Returned? && WriteRun(inp).result.Returned?
  }

  /**
   * The registry changes exactly when a new, unenrolled uid came with a
   * non-blank label and both auth and write completed; it then gains just
   * that uid, mapped to the stripped label, whatever `stop_crypto()` did.
   */
  lemma EnrollmentOutcome(b: Backing, s: State, mode: Mode, inp: Inputs)
    ensures var (s', r) := Step(b, s, mode, inp);
      (s'.tags != s.tags <==> EnrollsTag(s, mode, inp))
      && (EnrollsTag(s, mode, inp) ==>
            s'.tags == s.tags[NewUid(inp) := Strip(inp.labelLine)]
            && r.event == Enrolled(Strip(inp.labelLine), inp.stopCryptoRaises))
  {
    StripEmptyIffAllSpace(inp.labelLine);
    if IsNewTag(s, inp) {
      var uid := NewUid(inp);
      StepDispatched(b, s, mode, inp);
      DispatchTags(b, s.tags, uid, PollRun(inp).result.value, mode, inp);
      if EnrollsTag(s, mode, inp) {
        assert uid in s.tags[uid := Strip(inp.labelLine)];
      }
    } else {
      DetectionState(b, s, mode, inp);
    }
  }

  /** Rows are never removed or overwritten, and at most the uid just read is added. */
  lemma TagsOnlyGrow(b: Backing, s: State, mode: Mode, inp: Inputs)
    ensures var s' := Step(b, s, mode, inp).0;
      (forall k :: k in s.tags ==> k in s'.tags && s'.tags[k] == s.tags[k])
      && (s'.tags.Keys != s.tags.Keys ==> IsNewTag(s, inp) && s'.tags.Keys == s.tags.Keys + {NewUid(inp)})
  {
    if IsNewTag(s, inp) {
      StepDispatched(b, s, mode, inp);
      DispatchTags(b, s.tags, NewUid(inp), PollRun(inp).result.value, mode, inp);
    } else {
      DetectionState(b, s, mode, inp);
    }
  }

  /** A failing `stop_crypto()` changes only the event's flag, never the state. */
  lemma StopCryptoIrrelevant(b: Backing, s: State, mode: Mode, inp: Inputs, raises: bool)
    ensures Step(b, s, mode, inp).0 == Step(b, s, mode, inp.(stopCryptoRaises := raises)).0
  {
    var inp' := inp.(stopCryptoRaises := raises);
    assert PollRun(inp') == PollRun(inp) && AuthRun(inp') == AuthRun(inp) && WriteRun(inp') == WriteRun(inp);
    if IsNewTag(s, inp) {
      var raw := PollRun(inp).result.value;
      StepDispatched(b, s, mode, inp);
      StepDispatched(b, s, mode, inp');
      DispatchTags(b, s.tags, NewUid(inp), raw, mode, inp);
      DispatchTags(b, s.tags, NewUid(inp), raw, mode, inp');
    } else {
      DetectionState(b, s, mode, inp);
      DetectionState(b, s, mode, inp');
    }
  }

  /** The scanner is the only writer, so the IntegrityError branch is never taken. */
  lemma NoInsertRejected(b: Backing, s: State, mode: Mode, inp: Inputs)
    ensures Step(b, s, mode, inp).1.event != InsertRejected
  {
    if IsNewTag(s, inp) {
      StepDispatched(b, s, mode, inp);
      DispatchEvent(b, s.tags, NewUid(inp), PollRun(inp).result.value, mode, inp);
      DispatchTags(b, s.tags, NewUid(inp), PollRun(inp).result.value, mode, inp);
      var name := Strip(inp.labelLine);
      if mode == Write && NewUid(inp) !in s.tags && name != [] {
        WriteMarkerNotRejected(b, s.tags, NewUid(inp), name, PollRun(inp).result.value, inp);
      }
    } else {
      DetectionState(b, s, mode, inp);
    }
  }

  lemma WriteMarkerNotRejected(b: Backing, tags: Table, uid: string, name: string, raw: seq<byte>, inp: Inputs)
    requires uid !in tags
    ensures WriteMarker(b, tags, uid, name, raw, inp).event != InsertRejected
  {
    WriteMarkerTags(b, tags, uid, name, raw, inp);
  }

  // ---------------------------------------------------------------------
  // Order of reader calls
  // ---------------------------------------------------------------------

  /** Polling calls come first, then authentication, then the marker write, then `stop_crypto`. */
  function Phase(c: Call): nat {
    match c
    case Request => 0
    case Anticoll => 0
    case SelectTag(_) => 0
    case AuthKeyA(_, _, _) => 1
    case WriteBlock(_, _) => 2
    case StopCrypto => 3
  }

  predicate InPhaseOrder(calls: seq<Call>) {
    forall i, j :: 0 <= i < j < |calls| ==> Phase(calls[i]) <= Phase(calls[j])
  }

  lemma PhaseOrderConcat(a: seq<Call>, b: seq<Call>, pa: nat, pb: nat)
    requires forall i :: 0 <= i < |a| ==> Phase(a[i]) <= pa
    requires forall j :: 0 <= j < |b| ==> pb <= Phase(b[j])
    requires pa <= pb && InPhaseOrder(a) && InPhaseOrder(b)
    ensures InPhaseOrder(a + b)
  {
    forall i, j | 0 <= i < j < |a + b| ensures Phase((a + b)[i]) <= Phase((a + b)[j]) {
      if j < |a| {
        assert (a + b)[i] == a[i] && (a + b)[j] == a[j];
      } else if i >= |a| {
        assert (a + b)[i] == b[i - |a|] && (a + b)[j] == b[j - |a|];
      } else {
        assert (a + b)[i] == a[i] && (a + b)[j] == b[j - |a|];
      }
    }
  }

  /** After polling, an enrollment issues nothing, or its auth calls, then its write calls, then `stop_crypto`. */
  lemma EnrollCallsShape(b: Backing, tags: Table, uid: string, raw: seq<byte>, inp: Inputs)
    ensures var e := Enroll(b, tags, uid, raw, inp);
      || e.calls == []
      || (e.calls == AuthCalls(raw, inp))
      || (e.calls == AuthCalls(raw, inp) + WriteCalls(b, inp) && AuthRun(inp).result.Returned?)
      || (e.calls == AuthCalls(raw, inp) + WriteCalls(b, inp) + [StopCrypto]
          && AuthRun(inp).result.Returned? && WriteRun(inp).result.Returned?)
  {
  }

  /** What each call after polling promises: not a polling call, fixed arguments, issued only once its predecessor completed. */
  predicate EnrollCallOk(b: Backing, raw: seq<byte>, inp: Inputs, c: Call) {
    1 <= Phase(c)
    && (c.AuthKeyA? ==> c == AuthKeyA(MarkerBlockNo, DefaultKey, raw))
    && (c.WriteBlock? ==> c == WriteBlock(MarkerBlockNo, Marker(b)) && AuthRun(inp).result.Returned?)
    && (c == StopCrypto ==> WriteRun(inp).result.Returned?)
  }

  /** What the enrollment part of a trace promises: phases in order, and every call as above. */
  predicate EnrollTraceOk(b: Backing, raw: seq<byte>, inp: Inputs, calls: seq<Call>) {
    InPhaseOrder(calls) && forall i :: 0 <= i < |calls| ==> EnrollCallOk(b, raw, inp, calls[i])
  }

  lemma TraceOkConcat(b: Backing, raw: seq<byte>, inp: Inputs, x: seq<Call>, y: seq<Call>, px: nat)
    requires EnrollTraceOk(b, raw, inp, x) && EnrollTraceOk(b, raw, inp, y)
    requires forall i :: 0 <= i < |x| ==> Phase(x[i]) <= px
    requires forall j :: 0 <= j < |y| ==> px <= Phase(y[j])
    ensures EnrollTraceOk(b, raw, inp, x + y)
  {
    PhaseOrderConcat(x, y, px, px);
    forall i | 0 <= i < |x + y| ensures EnrollCallOk(b, raw, inp, (x + y)[i]) {
      if i < |x| {
        assert (x + y)[i] == x[i];
      } else {
        assert (x + y)[i] == y[i - |x|];
      }
    }
  }

  lemma AuthOnlyOrdered(b: Backing, raw: seq<byte>, inp: Inputs)
    ensures EnrollTraceOk(b, raw, inp, AuthCalls(raw, inp))
    ensures forall i :: 0 <= i < |AuthCalls(raw, inp)| ==> Phase(AuthCalls(raw, inp)[i]) == 1
  {
  }

  lemma WritesOnlyOrdered(b: Backing, raw: seq<byte>, inp: Inputs)
    requires AuthRun(inp).result.Returned?
    ensures EnrollTraceOk(b, raw, inp, WriteCalls(b, inp))
    ensures forall i :: 0 <= i < |WriteCalls(b, inp)| ==> Phase(WriteCalls(b, inp)[i]) == 2
  {
  }

  lemma AuthWritesOrdered(b: Backing, raw: seq<byte>, inp: Inputs)
    requires AuthRun(inp).result.Returned?
    ensures EnrollTraceOk(b, raw, inp, AuthCalls(raw, inp) + WriteCalls(b, inp))
    ensures forall i :: 0 <= i < |AuthCalls(raw, inp) + WriteCalls(b, inp)| ==>
      Phase((AuthCalls(raw, inp) + WriteCalls(b, inp))[i]) <= 2
  {
    var x, y := AuthCalls(raw, inp), WriteCalls(b, inp);
    AuthOnlyOrdered(b, raw, inp);
    WritesOnlyOrdered(b, raw, inp);
    TraceOkConcat(b, raw, inp, x, y, 1);
    forall i | 0 <= i < |x + y| ensures Phase((x + y)[i]) <= 2 {
      if i < |x| { assert (x + y)[i] == x[i]; } else { assert (x + y)[i] == y[i - |x|]; }
    }
  }

  lemma FullEnrollOrdered(b: Backing, raw: seq<byte>, inp: Inputs)
    requires AuthRun(inp).result.Returned? && WriteRun(inp).result.Returned?
    ensures EnrollTraceOk(b, raw, inp, AuthCalls(raw, inp) + WriteCalls(b, inp) + [StopCrypto])
  {
    AuthWritesOrdered(b, raw, inp);
    TraceOkConcat(b, raw, inp, AuthCalls(raw, inp) + WriteCalls(b, inp), [StopCrypto], 2);
  }

  /** The calls an enrollment issues after polling are in phase order, each with its fixed arguments. */
  lemma EnrollCallsOrdered(b: Backing, tags: Table, uid: string, raw: seq<byte>, inp: Inputs)
    ensures EnrollTraceOk(b, raw, inp, Enroll(b, tags, uid, raw, inp).calls)
  {
    EnrollCallsShape(b, tags, uid, raw, inp);
    AuthOnlyOrdered(b, raw, inp);
    if AuthRun(inp).result.Returned? {
      AuthWritesOrdered(b, raw, inp);
      if WriteRun(inp).result.Returned? {
        FullEnrollOrdered(b, raw, inp);
      }
    }
  }

  /** Polling calls followed by an enrollment trace. */
  lemma PollThenEnroll(b: Backing, raw: seq<byte>, inp: Inputs, calls: seq<Call>, more: seq<Call>)
    requires forall i :: 0 <= i < |calls| ==> calls[i] == Request || calls[i] == Anticoll
    requires EnrollTraceOk(b, raw, inp, more)
    ensures InPhaseOrder(calls + more)
    ensures forall i :: 0 <= i < |calls + more| ==>
      (calls + more)[i] == Request || (calls + more)[i] == Anticoll || EnrollCallOk(b, raw, inp, (calls + more)[i])
  {
    PhaseOrderConcat(calls, more, 0, 0);
    forall i | 0 <= i < |calls + more|
      ensures (calls + more)[i] == Request || (calls + more)[i] == Anticoll || EnrollCallOk(b, raw, inp, (calls + more)[i])
    {
      if i < |calls| { assert (calls + more)[i] == calls[i]; }
      else { assert (calls + more)[i] == more[i - |calls|]; }
    }
  }

  /**
   * Every iteration issues its reader calls in the order poll, auth(block
   * 8, six 0xFF, raw uid), write(block 8, marker), stop_crypto. Anything but
   * request and anticoll is issued only for a new tag, a write only once
   * auth completed, and stop_crypto only once the write did.
   */
  lemma StepCallsOrdered(b: Backing, s: State, mode: Mode, inp: Inputs)
    ensures var r := Step(b, s, mode, inp).1;
      InPhaseOrder(r.calls)
      && forall i :: 0 <= i < |r.calls| ==>
           r.calls[i] == Request || r.calls[i] == Anticoll
           || (IsNewTag(s, inp) && EnrollCallOk(b, PollRun(inp).result.value, inp, r.calls[i]))
  {
    var calls := PollTrace(inp.poll, PollRun(inp).calls);
    if IsNewTag(s, inp) {
      var raw := PollRun(inp).result.value;
      var e := Dispatch(b, s.tags, NewUid(inp), raw, mode, inp);
      StepDispatched(b, s, mode, inp);
      if mode == Write {
        EnrollCallsOrdered(b, s.tags, NewUid(inp), raw, inp);
      }
      PollThenEnroll(b, raw, inp, calls, e.calls);
    } else {
      DetectionState(b, s, mode, inp);
      assert InPhaseOrder(calls);
    }
  }

  // ---------------------------------------------------------------------
  // The two scanner scripts agree
  // ---------------------------------------------------------------------

  /** The SQL-backed and the dict-backed scanner take the same step from every state on every input. */
  lemma BackingsAgree(s: State, mode: Mode, inp: Inputs)
    ensures Step(SqlTable, s, mode, inp) == Step(MemoryDict, s, mode, inp)
  {
    if IsNewTag(s, inp) {
      StepDispatched(SqlTable, s, mode, inp);
      StepDispatched(MemoryDict, s, mode, inp);
      if mode == Write {
        EnrollBackingsAgree(s.tags, NewUid(inp), PollRun(inp).result.value, inp);
      }
    } else {
      DetectionState(SqlTable, s, mode, inp);
      DetectionState(MemoryDict, s, mode, inp);
    }
  }

  /** Both backings enroll alike: the two markers are the same bytes and a fresh insert is an assignment. */
  lemma EnrollBackingsAgree(tags: Table, uid: string, raw: seq<byte>, inp: Inputs)
    ensures Enroll(SqlTable, tags, uid, raw, inp) == Enroll(MemoryDict, tags, uid, raw, inp)
  {
    Blocks.MarkerBytes();
    assert WriteCalls(SqlTable, inp) == WriteCalls(MemoryDict, inp);
    if uid !in tags {
      InsertAgreesWithAssign(tags, uid, Strip(inp.labelLine));
    }
  }

  // ---------------------------------------------------------------------
  // Many iterations
  // ---------------------------------------------------------------------

  /** The mode current when one iteration dispatches, and that iteration's answers. */
  datatype Cycle = Cycle(mode: Mode, inputs: Inputs)

  /** The scanner loop over a finite prefix of its iterations. */
  function Run(b: Backing, s: State, cycles: seq<Cycle>): (r: (State, seq<Report>))
    ensures |r.1| == |cycles|
    decreases |cycles|
  {
    if cycles == [] then (s, [])
    else
      var (s1, rep) := Step(b, s, cycles[0].mode, cycles[0].inputs);
      var (s2, reps) := Run(b, s1, cycles[1..]);
      (s2, [rep] + reps)
  }

  /** A run is its first step followed by the run from the state that step leaves. */
  lemma RunUnfold(b: Backing, s: State, cycles: seq<Cycle>)
    requires cycles != []
    ensures var (s1, rep) := Step(b, s, cycles[0].mode, cycles[0].inputs);
      Run(b, s, cycles) == (Run(b, s1, cycles[1..]).0, [rep] + Run(b, s1, cycles[1..]).1)
  {
  }

  function Dispatches(reps: seq<Report>): nat {
    if reps == [] then 0 else (if IsDispatch(reps[0].event) then 1 else 0) + Dispatches(reps[1..])
  }

  /** Every poll of this iteration that returns a uid returns `raw`. */
  predicate OnlyCard(inp: Inputs, raw: seq<byte>) {
    PollRun(inp).result.Returned? ==> PollRun(inp).result.value == raw
  }

  /**
   * A card left on the reader is dispatched at most once over any number
   * of iterations, and not at all if it was the last one seen. Failed polls
   * in between do not reset `last_uid`, so lifting the card and presenting
   * it again is not noticed either.
   */
  lemma {:induction false} OneDispatchPerPresentation(b: Backing, s: State, cycles: seq<Cycle>, raw: seq<byte>)
    requires forall i :: 0 <= i < |cycles| ==> OnlyCard(cycles[i].inputs, raw)
    ensures Dispatches(Run(b, s, cycles).1) <= (if s.lastUid == Some(Canonical(raw)) then 0 else 1)
    decreases |cycles|
  {
    if cycles != [] {
      var c := cycles[0];
      DetectionState(b, s, c.mode, c.inputs);
      var (s1, rep) := Step(b, s, c.mode, c.inputs);
      assert forall i :: 0 <= i < |cycles[1..]| ==> OnlyCard(cycles[1..][i].inputs, raw) by {
        forall i | 0 <= i < |cycles[1..]| ensures OnlyCard(cycles[1..][i].inputs, raw) {
          assert cycles[1..][i] == cycles[i + 1];
        }
      }
      OneDispatchPerPresentation(b, s1, cycles[1..], raw);
      var reps := Run(b, s, cycles).1;
      assert reps[0] == rep && reps[1..] == Run(b, s1, cycles[1..]).1;
    }
  }

  /** Over any run, enrolled rows are never removed or relabelled. */
  lemma {:induction false} RunKeepsRows(b: Backing, s: State, cycles: seq<Cycle>)
    ensures var s' := Run(b, s, cycles).0;
      forall k :: k in s.tags ==> k in s'.tags && s'.tags[k] == s.tags[k]
    decreases |cycles|
  {
    if cycles != [] {
      TagsOnlyGrow(b, s, cycles[0].mode, cycles[0].inputs);
      RunKeepsRows(b, Step(b, s, cycles[0].mode, cycles[0].inputs).0, cycles[1..]);
    }
  }
}
