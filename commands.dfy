/**
 * The body of `command_listener`: a console line, trimmed and lower-cased,
 * switches the mode on "enrollmode" (write) and "admode" (read); anything
 * else is logged as unknown and changes nothing.
 */
module Commands {
  import opened Types
  import opened Text

  const EnrollCommand: string := "enrollmode"
  const ReadCommand: string := "admode"

  /** `cmd.strip().lower()`. */
  function Normalize(line: string): string {
    Lower(Strip(line))
  }

  /** The mode a console line selects, or None for an unknown command. */
  function Parse(line: string): (r: Option<Mode>)
    ensures r == Some(Write) <==> Normalize(line) == EnrollCommand
    ensures r == Some(Read) <==> Normalize(line) == ReadCommand
  {
    var cmd := Normalize(line);
    if cmd == EnrollCommand then Some(Write)
    else if cmd == ReadCommand then Some(Read)
    else None
  }

  /** The mode after handling a line. */
  function Apply(mode: Mode, line: string): Mode {
    match Parse(line)
    case Some(m) => m
    case None => mode
  }

  predicate IsDecoration(pre: string, post: string) {
    AllSpace(pre) && AllSpace(post)
  }

  /**
   * Whatever whitespace surrounds it and however its ASCII letters are
   * cased, a spelling of "enrollmode" selects write mode and one of
   * "admode" selects read mode.
   */
  lemma CommandsIgnoreCaseAndSpace(pre: string, word: string, post: string)
    requires IsDecoration(pre, post)
    requires Lower(word) == EnrollCommand || Lower(word) == ReadCommand
    ensures Parse(pre + word + post) == Some(if Lower(word) == EnrollCommand then Write else Read)
  {
    assert |word| > 0;
    assert LowerChar(word[0]) == Lower(word)[0] && LowerChar(word[|word| - 1]) == Lower(word)[|word| - 1];
    StripPadded(pre, word, post);
  }

  /**
   * A word that lower-cases to a command is spelled in ASCII letters only,
   * each the command's letter or its capital. Python's `lower()` maps no
   * such word to anything else, so folding ASCII letters alone selects the
   * same mode as Python does.
   */
  lemma CommandSpellingIsAscii(s: string, w: string)
    requires w == EnrollCommand || w == ReadCommand
    requires Lower(s) == w
    ensures |s| == |w|
    ensures forall i :: 0 <= i < |s| ==> s[i] == w[i] || s[i] as int == w[i] as int - 32
  {
    forall i | 0 <= i < |s|
      ensures s[i] == w[i] || s[i] as int == w[i] as int - 32
    {
      assert LowerChar(s[i]) == w[i];
    }
  }

  /** An unknown command leaves the mode as it was; a known one sets it whatever it was. */
  lemma ApplyOutcome(mode: Mode, line: string)
    ensures Parse(line).None? ==> Apply(mode, line) == mode
    ensures Normalize(line) == EnrollCommand ==> Apply(mode, line) == Write
    ensures Normalize(line) == ReadCommand ==> Apply(mode, line) == Read
    ensures Normalize(line) != EnrollCommand && Normalize(line) != ReadCommand ==> Apply(mode, line) == mode
  {
  }

  /** "enroll mode", with a space inside, is not the enroll command. */
  lemma InnerSpaceIsUnknown()
    ensures Parse("enroll mode") == None
  {
    assert "enroll mode" == [] + "enroll mode" + [];
    StripPadded([], "enroll mode", []);
    assert |Normalize("enroll mode")| == 11;
  }

  /** " ADMODE\n", upper case with a leading blank and the newline, selects read mode. */
  lemma UpperCaseReadCommand()
    ensures Parse(" ADMODE\n") == Some(Read)
  {
    StripExample();
    LowerExample();
  }

  lemma StripExample()
    ensures Strip(" ADMODE\n") == "ADMODE"
  {
    var word := "ADMODE";
    assert " " + word + "\n" == " ADMODE\n";
    assert IsSpace(' ') && IsSpace('\n');
    StripPadded(" ", word, "\n");
  }

  lemma LowerExample()
    ensures Lower("ADMODE") == ReadCommand
  {
    var l := Lower("ADMODE");
    assert l[0] == 'a' && l[1] == 'd' && l[2] == 'm' && l[3] == 'o' && l[4] == 'd' && l[5] == 'e';
  }

  /** Holds `current_mode`; the command task is its only writer, the scanner reads it at dispatch. */
  class ModeController {
    var mode: Mode

    /** `current_mode = "read"` at import time. */
    constructor ()
      ensures mode == Read
    {
      mode := Read;
    }

    /** One pass of the listener loop over the line it read; returns whether the command was known. */
    method Handle(line: string) returns (known: bool)
      modifies this
      ensures known <==> Parse(line).Some?
      ensures mode == Apply(old(mode), line)
    {
      var cmd := Normalize(line);
      if cmd == EnrollCommand {
        mode := Write;
        known := true;
      } else if cmd == ReadCommand {
        mode := Read;
        known := true;
      } else {
        known := false;
      }
    }
  }
}
