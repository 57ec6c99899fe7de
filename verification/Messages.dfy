/** The text messages: src/concurrency/communicator.cpp:8-35 and the 100-byte payload of message.h. */
module Messages {
  import opened Common
  import opened Decimal
  import opened StringTools
  import opened TimeFormat

  const MSG_SIZE: nat := 100
  const CREATION_MSG: int := 1
  const TERMINATION_MSG: int := 2

  const NUL: char := '\0'

  function CreationText(pid: int, sleepDuration: string): string {
    "PID: " + ToString(pid) +
    if sleepDuration == "" then "" else " | Sleep duration: " + sleepDuration
  }

  function TerminationText(pid: int, sleepDuration: string, exitCode: int): string {
    "PID: " + ToString(pid) +
    if sleepDuration == "" then " | Exit code: " + ToString(exitCode)
    else " | Sleep duration: " + sleepDuration + " | Exit code: " + ToString(exitCode)
  }

  /** snprintf("%s") into char[MSG_SIZE], read back as a C string: cut at a NUL and at MSG_SIZE - 1. */
  function Payload(text: string): (p: string)
    ensures p <= text && |p| < MSG_SIZE && NUL !in p
    ensures p == text || |p| == MSG_SIZE - 1 || text[|p|] == NUL
  {
    var cut := text[..IndexOf(text, NUL)];
    if |cut| < MSG_SIZE then cut else cut[..MSG_SIZE - 1]
  }

  // ---------- the layout ----------

  /** A named value. */
  datatype Field = Field(name: string, value: string)

  /** Fields as "name: value", with " | " between them. */
  function Render(fields: seq<Field>): string {
    if fields == [] then ""
    else if |fields| == 1 then fields[0].name + ": " + fields[0].value
    else Render(fields[..|fields| - 1]) + " | " + fields[|fields| - 1].name + ": " + fields[|fields| - 1].value
  }

  /** A creation message gives the pid, and the duration unless it is empty. */
  lemma CreationTextIsRendered(pid: int, duration: string)
    ensures CreationText(pid, duration) == Render(
              if duration == "" then [Field("PID", ToString(pid))]
              else [Field("PID", ToString(pid)), Field("Sleep duration", duration)])
  {
    hide ToString, Render;
    var first := Field("PID", ToString(pid));
    var head := Render([first]);
    RenderOne(first);
    if duration == "" {
      assert head + "" == head;
    } else {
      RenderTwo(first, Field("Sleep duration", duration));
      Labels();
      Regroup(head, " | ", "Sleep duration", ": ", duration);
    }
  }

  /** A termination message gives the exit code after these. */
  lemma TerminationTextIsRendered(pid: int, duration: string, exitCode: int)
    ensures TerminationText(pid, duration, exitCode) == Render(
              if duration == "" then [Field("PID", ToString(pid)), Field("Exit code", ToString(exitCode))]
              else [Field("PID", ToString(pid)), Field("Sleep duration", duration),
                    Field("Exit code", ToString(exitCode))])
  {
    hide ToString, Render;
    var first, last := Field("PID", ToString(pid)), Field("Exit code", ToString(exitCode));
    var head, code := Render([first]), ToString(exitCode);
    RenderOne(first);
    Labels();
    if duration == "" {
      RenderTwo(first, last);
      Regroup(head, " | ", "Exit code", ": ", code);
    } else {
      var middle := Field("Sleep duration", duration);
      RenderTwo(first, middle);
      RenderThree(first, middle, last);
      Regroup(head, " | ", "Sleep duration", ": ", duration);
      WithCode(head, " | Sleep duration: ", duration, " | Exit code: ", code);
      Regroup(head + (" | Sleep duration: " + duration), " | ", "Exit code", ": ", code);
    }
  }

  lemma Labels()
    ensures " | " + "Sleep duration" + ": " == " | Sleep duration: "
    ensures " | " + "Exit code" + ": " == " | Exit code: "
  {
  }

  lemma Regroup(s: string, a: string, b: string, c: string, d: string)
    ensures s + a + b + c + d == s + (a + b + c + d)
  {
  }

  lemma WithCode(s: string, a: string, b: string, c: string, d: string)
    ensures s + (a + b) + (c + d) == s + (a + b + c + d)
  {
  }

  lemma RenderOne(a: Field)
    ensures Render([a]) == a.name + ": " + a.value
  {
  }

  lemma RenderTwo(a: Field, b: Field)
    ensures Render([a, b]) == Render([a]) + " | " + b.name + ": " + b.value
    ensures [a] + [b] == [a, b]
  {
    assert [a, b][..1] == [a];
  }

  lemma RenderThree(a: Field, b: Field, c: Field)
    ensures Render([a, b, c]) == Render([a, b]) + " | " + c.name + ": " + c.value
    ensures [a, b] + [c] == [a, b, c]
  {
    assert [a, b, c][..2] == [a, b];
  }

  /** What a listener makes of a payload: None for fewer than two tokens, else strToPid of the second. */
  function DecodePid(payload: string): Option<int> {
    var tokens := Split(payload, ' ');
    if |tokens| < 2 then None else Some(StrToPid(tokens[1]))
  }

  /** Every message has this shape: the pid is followed by nothing or by a blank. */
  ghost predicate CarriesPid(text: string, pid: int) {
    exists rest: string :: text == "PID: " + ToString(pid) + rest && (rest == "" || rest[0] == ' ')
  }

  lemma CreationTextCarriesPid(pid: int, duration: string)
    ensures CarriesPid(CreationText(pid, duration), pid)
  {
    hide ToString;
    var rest := if duration == "" then "" else " | Sleep duration: " + duration;
    assert CreationText(pid, duration) == "PID: " + ToString(pid) + rest;
  }

  lemma TerminationTextCarriesPid(pid: int, duration: string, exitCode: int)
    ensures CarriesPid(TerminationText(pid, duration, exitCode), pid)
  {
    hide ToString;
    var rest := if duration == "" then " | Exit code: " + ToString(exitCode)
                else " | Sleep duration: " + duration + " | Exit code: " + ToString(exitCode);
    assert TerminationText(pid, duration, exitCode) == "PID: " + ToString(pid) + rest;
  }

  lemma PayloadCarriesPid(text: string, pid: int)
    requires IsInt32(pid) && CarriesPid(text, pid)
    ensures CarriesPid(Payload(text), pid)
  {
    hide ToString;
    var rest: string :| text == "PID: " + ToString(pid) + rest && (rest == "" || rest[0] == ' ');
    var head := "PID: " + ToString(pid);
    ToStringLength(pid);
    ToStringCharacters(pid, NUL);
    assert NUL !in head;
    var p := Payload(text);
    assert |head| <= |p| by {
      var k := IndexOf(text, NUL);
      assert forall i :: 0 <= i < |head| ==> text[i] == head[i];
      assert k < |text| ==> k >= |head|;
    }
    assert p[..|head|] == head;
    assert p == head + p[|head|..];
    assert |p| > |head| ==> p[|head|] == text[|head|] == rest[0];
  }

  lemma SplitNumeral(numeral: string, rest: string)
    requires numeral != "" && ' ' !in numeral
    requires rest == "" || rest[0] == ' '
    ensures |Split(numeral + rest, ' ')| > 0 && Split(numeral + rest, ' ')[0] == numeral
  {
    if rest == "" {
      IndexOfAbsent(numeral, ' ');
      assert numeral + rest == numeral;
    } else {
      assert numeral + rest == numeral + [' '] + rest[1..];
      SplitFirst(numeral, ' ', rest[1..]);
    }
  }

  lemma DecodeCarriedPid(text: string, pid: int)
    requires IsInt32(pid) && CarriesPid(text, pid)
    ensures DecodePid(text) == Some(pid)
  {
    hide ToString;
    var rest: string :| text == "PID: " + ToString(pid) + rest && (rest == "" || rest[0] == ' ');
    var numeral := ToString(pid);
    ToStringCharacters(pid, ' ');
    ToStringLength(pid);
    assert text == "PID:" + [' '] + (numeral + rest);
    SplitFirst("PID:", ' ', numeral + rest);
    SplitNumeral(numeral, rest);
    StoiOfToString(pid, "");
    assert numeral + "" == numeral;
  }

  /** Round trip: built, truncated, split and parsed, a creation message yields its pid, whatever the duration. */
  lemma CreationRoundTrip(pid: int, duration: string)
    requires IsInt32(pid)
    ensures DecodePid(Payload(CreationText(pid, duration))) == Some(pid)
  {
    CreationTextCarriesPid(pid, duration);
    PayloadCarriesPid(CreationText(pid, duration), pid);
    DecodeCarriedPid(Payload(CreationText(pid, duration)), pid);
  }

  /** The same for termination messages. */
  lemma TerminationRoundTrip(pid: int, duration: string, exitCode: int)
    requires IsInt32(pid)
    ensures DecodePid(Payload(TerminationText(pid, duration, exitCode))) == Some(pid)
  {
    TerminationTextCarriesPid(pid, duration, exitCode);
    PayloadCarriesPid(TerminationText(pid, duration, exitCode), pid);
    DecodeCarriedPid(Payload(TerminationText(pid, duration, exitCode)), pid);
  }

  /** No encoded message is empty, so an empty receive result always means "no message". */
  lemma PayloadNotEmpty(pid: int, duration: string, exitCode: int)
    requires IsInt32(pid)
    ensures Payload(CreationText(pid, duration)) != "" && Payload(TerminationText(pid, duration, exitCode)) != ""
  {
    CreationTextCarriesPid(pid, duration);
    TerminationTextCarriesPid(pid, duration, exitCode);
    PayloadCarriesPid(CreationText(pid, duration), pid);
    PayloadCarriesPid(TerminationText(pid, duration, exitCode), pid);
  }

  /** What createMessage makes of a 32-bit pid, as a payload. */
  ghost predicate Encoded(payload: string) {
    exists pid, duration, exitCode :: Encodes(payload, pid, duration, exitCode)
  }

  predicate Encodes(payload: string, pid: int, duration: string, exitCode: int) {
    && IsInt32(pid)
    && (payload == Payload(CreationText(pid, duration)) || payload == Payload(TerminationText(pid, duration, exitCode)))
  }

  lemma EncodedIsNotEmpty(payload: string)
    requires Encoded(payload)
    ensures payload != ""
  {
    var pid, duration, exitCode :| Encodes(payload, pid, duration, exitCode);
    PayloadNotEmpty(pid, duration, exitCode);
  }

  lemma ShortIsWhole(text: string)
    requires |text| < MSG_SIZE && NUL !in text
    ensures Payload(text) == text
  {
    IndexOfAbsent(text, NUL);
  }

  /** With the durations the program produces, nothing is ever cut: 97 characters at most. */
  lemma NothingIsTruncated(pid: int, duration: string, exitCode: int, ms: int, units: string)
    requires IsInt32(pid) && IsInt32(exitCode) && IsInt64(ms) && IsUnits(units)
    requires duration == "" || duration == TimeToStr(ms, units)
    ensures |CreationText(pid, duration)| <= 97 && |TerminationText(pid, duration, exitCode)| <= 97
    ensures Payload(CreationText(pid, duration)) == CreationText(pid, duration)
    ensures Payload(TerminationText(pid, duration, exitCode)) == TerminationText(pid, duration, exitCode)
  {
    hide ToString, TimeToStr, Payload;
    ToStringLength(pid);
    ToStringLength(exitCode);
    ToStringCharacters(pid, NUL);
    ToStringCharacters(exitCode, NUL);
    TimeToStrLength(ms, units);
    TimeToStrHasNoNul(ms, units);
    ShortIsWhole(CreationText(pid, duration));
    ShortIsWhole(TerminationText(pid, duration, exitCode));
  }

  lemma TimeToStrHasNoNul(ms: int, units: string)
    requires IsInt64(ms) && IsUnits(units)
    ensures NUL !in TimeToStr(ms, units)
  {
    RemainderRange(ms);
    var r := Remainder(ms, 60000);
    ToStringCharacters(Quotient(ms, 60000), NUL);
    ToStringCharacters(Abs(r) / 1000, NUL);
    assert NUL !in SecondsText(r);
  }
}
