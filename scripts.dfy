/**
 * RFIDCustomWriteKey.py and RFIDWrite.py: one guarded, straight-line
 * sequence of reader calls each. If `request()` and then `anticoll()`
 * report no error, the script selects the tag, authenticates the block
 * with key A = six 0xFF bytes, writes the block and stops crypto; any call
 * that raises ends the script there.
 */
module Scripts {
  import opened Types
  import opened Reader
  import Blocks

  /** The reader's answers: request's and anticoll's error flags, the uid, and which later calls raise. */
  datatype ScriptAnswers = ScriptAnswers(requestError: bool, anticollError: bool, uid: seq<byte>, raises: Call -> bool)

  /**
   * The calls the script issued, in order, and whether it reached its success
   * print (RFIDWrite.py:16, RFIDCustomWriteKey.py:29). A script that stops on a
   * request or anticoll error flag exits normally but does not reach that print.
   */
  datatype ScriptRun = ScriptRun(calls: seq<Call>, printedSuccess: bool)

  /** Issues `cmds` in order, stopping after the first call that raises. */
  function Issue(cmds: seq<Call>, raises: Call -> bool): (r: ScriptRun)
    ensures r.calls <= cmds
    ensures r.printedSuccess <==> forall i :: 0 <= i < |cmds| ==> !raises(cmds[i])
    ensures r.printedSuccess ==> r.calls == cmds
    ensures !r.printedSuccess ==> r.calls != [] && raises(r.calls[|r.calls| - 1])
    ensures forall i :: 0 <= i < |r.calls| - 1 ==> !raises(r.calls[i])
  {
    if cmds == [] then ScriptRun([], true)
    else if raises(cmds[0]) then ScriptRun([cmds[0]], false)
    else
      var rest := Issue(cmds[1..], raises);
      ScriptRun([cmds[0]] + rest.calls, rest.printedSuccess)
  }

  /** Every call the script can make, in the order it makes them. */
  function FullScript(block: nat, data: seq<byte>, uid: seq<byte>): seq<Call> {
    [Request, Anticoll, SelectTag(uid), AuthKeyA(block, DefaultKey, uid), WriteBlock(block, data), StopCrypto]
  }

  /** The calls after a tag has been detected. */
  function TagCalls(block: nat, data: seq<byte>, uid: seq<byte>): seq<Call> {
    [SelectTag(uid), AuthKeyA(block, DefaultKey, uid), WriteBlock(block, data), StopCrypto]
  }

  /** The shape both scripts share: the two guards, then select, auth, write and stop_crypto. */
  function GuardedWrite(block: nat, data: seq<byte>, a: ScriptAnswers): ScriptRun {
    if a.requestError then ScriptRun([Request], false)
    else if a.anticollError then ScriptRun([Request, Anticoll], false)
    else
      var r := Issue(TagCalls(block, data, a.uid), a.raises);
      ScriptRun([Request, Anticoll] + r.calls, r.printedSuccess)
  }

  /**
   * The script's calls are always a prefix of request, anticoll, select,
   * auth(block, six 0xFF), write(block, data), stop_crypto; nothing past
   * anticoll is issued unless both report no error; the write is issued
   * exactly when, beyond that, neither select nor auth raised; the script
   * reaches its success print exactly when no flag was set and no call raised.
   */
  lemma GuardedWriteCalls(block: nat, data: seq<byte>, a: ScriptAnswers)
    ensures GuardedWrite(block, data, a).calls <= FullScript(block, data, a.uid)
    ensures a.requestError ==> GuardedWrite(block, data, a).calls == [Request]
    ensures !a.requestError && a.anticollError ==> GuardedWrite(block, data, a).calls == [Request, Anticoll]
    ensures WriteBlock(block, data) in GuardedWrite(block, data, a).calls <==>
      !a.requestError && !a.anticollError
      && !a.raises(SelectTag(a.uid)) && !a.raises(AuthKeyA(block, DefaultKey, a.uid))
    ensures GuardedWrite(block, data, a).printedSuccess <==>
      !a.requestError && !a.anticollError
      && !a.raises(SelectTag(a.uid)) && !a.raises(AuthKeyA(block, DefaultKey, a.uid))
      && !a.raises(WriteBlock(block, data)) && !a.raises(StopCrypto)
  {
    if !a.requestError && !a.anticollError {
      IssueTagCalls(block, data, a.uid, a.raises);
    }
  }

  /** The calls after detection stop at the first of select, auth, write and stop_crypto that raises. */
  lemma IssueTagCalls(block: nat, data: seq<byte>, uid: seq<byte>, raises: Call -> bool)
    ensures var sel, auth, wr := SelectTag(uid), AuthKeyA(block, DefaultKey, uid), WriteBlock(block, data);
      Issue(TagCalls(block, data, uid), raises)
        == if raises(sel) then ScriptRun([sel], false)
           else if raises(auth) then ScriptRun([sel, auth], false)
           else if raises(wr) then ScriptRun([sel, auth, wr], false)
           else ScriptRun([sel, auth, wr, StopCrypto], !raises(StopCrypto))
  {
    var sel, auth, wr := SelectTag(uid), AuthKeyA(block, DefaultKey, uid), WriteBlock(block, data);
    assert [StopCrypto][1..] == [];
    var i4 := Issue([StopCrypto], raises);
    assert i4 == ScriptRun([StopCrypto], !raises(StopCrypto));
    assert [wr, StopCrypto][1..] == [StopCrypto];
    var i3 := Issue([wr, StopCrypto], raises);
    assert !raises(wr) ==> i3 == ScriptRun([wr] + i4.calls, i4.printedSuccess);
    assert [auth, wr, StopCrypto][1..] == [wr, StopCrypto];
    var i2 := Issue([auth, wr, StopCrypto], raises);
    assert !raises(auth) ==> i2 == ScriptRun([auth] + i3.calls, i3.printedSuccess);
    assert TagCalls(block, data, uid)[1..] == [auth, wr, StopCrypto];
  }

  /** The only write any run of the shape makes is the script's own block and data. */
  lemma OnlyItsWrite(block: nat, data: seq<byte>, a: ScriptAnswers)
    ensures forall c :: c in GuardedWrite(block, data, a).calls && c.WriteBlock? ==> c == WriteBlock(block, data)
    ensures (a.requestError || a.anticollError) ==>
      forall c :: c in GuardedWrite(block, data, a).calls ==> c == Request || c == Anticoll
  {
    GuardedWriteCalls(block, data, a);
    var r := GuardedWrite(block, data, a);
    var full := FullScript(block, data, a.uid);
    assert r.calls == full[..|r.calls|];
    forall c | c in r.calls && c.WriteBlock?
      ensures c == WriteBlock(block, data)
    {
      var k :| 0 <= k < |r.calls| && r.calls[k] == c;
      assert full[k] == c;
    }
  }

  /** RFIDCustomWriteKey.py: the new key and access bits written to block 7, the trailer of sector 1. */
  function SetCustomKey(a: ScriptAnswers): ScriptRun {
    GuardedWrite(7, Blocks.CustomTrailer(), a)
  }

  /** RFIDWrite.py: "HelloWorld!" written to block 8. */
  function WriteHelloWorld(a: ScriptAnswers): ScriptRun {
    GuardedWrite(8, Blocks.HelloBlock(), a)
  }

  /**
   * RFIDCustomWriteKey.py writes only its trailer (key A, access bits, key B)
   * and only to block 7, and only when request and anticoll reported no
   * error and select and the default-key auth of block 7 returned without raising
   * (their status is ignored);
   * on a detection error nothing but request and anticoll is issued.
   */
  lemma CustomKeyScript(a: ScriptAnswers)
    ensures SetCustomKey(a).calls <= FullScript(7, Blocks.CustomTrailer(), a.uid)
    ensures forall c :: c in SetCustomKey(a).calls && c.WriteBlock? ==>
      c == WriteBlock(7, Blocks.CustomTrailer())
      && !a.requestError && !a.anticollError
      && !a.raises(SelectTag(a.uid)) && !a.raises(AuthKeyA(7, DefaultKey, a.uid))
    ensures (a.requestError || a.anticollError) ==>
      forall c :: c in SetCustomKey(a).calls ==> c == Request || c == Anticoll
  {
    var data := Blocks.CustomTrailer();
    GuardedWriteCalls(7, data, a);
    OnlyItsWrite(7, data, a);
  }

  /**
   * RFIDWrite.py writes only its "HelloWorld!" block and only to block 8,
   * and only when request and anticoll reported no error and select and the
   * default-key auth of block 8 returned without raising
   * (their status is ignored); on a detection error nothing
   * but request and anticoll is issued.
   */
  lemma HelloWorldScript(a: ScriptAnswers)
    ensures WriteHelloWorld(a).calls <= FullScript(8, Blocks.HelloBlock(), a.uid)
    ensures forall c :: c in WriteHelloWorld(a).calls && c.WriteBlock? ==>
      c == WriteBlock(8, Blocks.HelloBlock())
      && !a.requestError && !a.anticollError
      && !a.raises(SelectTag(a.uid)) && !a.raises(AuthKeyA(8, DefaultKey, a.uid))
    ensures (a.requestError || a.anticollError) ==>
      forall c :: c in WriteHelloWorld(a).calls ==> c == Request || c == Anticoll
  {
    var data := Blocks.HelloBlock();
    GuardedWriteCalls(8, data, a);
    OnlyItsWrite(8, data, a);
  }
}
