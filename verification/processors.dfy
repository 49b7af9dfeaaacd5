/**
 * The data processors of ex0/stream_processor.py: output quoting, the numeric
 * processor (count, sum, mean), the text processor (characters and words, and the
 * "not an integer" check) and the log processor (level detection and message).
 */
module Processors {
  import opened Wrappers
  import opened Text
  import opened Values

  /** `format_output`: the result wrapped in one pair of double quotes. */
  function FormatOutput(result: string): (r: string)
    ensures |r| == |result| + 2
    ensures r[0] == '"' && r[|r| - 1] == '"'
    ensures r[1..|r| - 1] == result
  {
    "\"" + result + "\""
  }

  // ---------------------------------------------------------------------------
  // NumericProcessor
  // ---------------------------------------------------------------------------

  /** The sum of a list of integers. */
  function Total(xs: seq<int>): int {
    if xs == [] then 0 else Total(xs[..|xs| - 1]) + xs[|xs| - 1]
  }

  /** Summing a concatenation is adding the sums. */
  lemma {:induction false} TotalAppend(a: seq<int>, b: seq<int>)
    ensures Total(a + b) == Total(a) + Total(b)
    decreases |b|
  {
    if b == [] {
      assert a + b == a;
    } else {
      assert (a + b)[..|a + b| - 1] == a + b[..|b| - 1];
      TotalAppend(a, b[..|b| - 1]);
    }
  }

  /**
   * `NumericProcessor.process`: the number of values, their sum, and their mean,
   * which is 0 for an empty list.
   */
  method NumericProcess(data: seq<int>) returns (count: nat, numSum: int, avg: real)
    ensures count == |data| && numSum == Total(data)
    ensures count == 0 ==> avg == 0.0
    ensures count > 0 ==> avg * count as real == numSum as real
  {
    count, numSum := 0, 0;
    for i := 0 to |data|
      invariant count == i && numSum == Total(data[..i])
    {
      assert data[..i + 1] == data[..i] + [data[i]];
      TotalAppend(data[..i], [data[i]]);
      assert Total([data[i]]) == data[i] by {
        assert [data[i]][..0] == [];
      }
      count := count + 1;
      numSum := numSum + data[i];
    }
    assert data[..|data|] == data;
    avg := if count > 0 then numSum as real / count as real else 0.0;
  }

  /** `int(v)` succeeds: integers and booleans always, strings when they spell an integer. */
  predicate Converts(v: Value)
    requires v.Int? || v.Bool? || v.Str?
  {
    v.Str? ==> ParseInt(v.text).Some?
  }

  /** `NumericProcessor.validate`: True exactly when `int()` accepts every element. */
  method NumericValidate(data: seq<Value>) returns (ok: bool)
    requires forall k :: 0 <= k < |data| ==> data[k].Int? || data[k].Bool? || data[k].Str?
    ensures ok <==> forall k :: 0 <= k < |data| ==> Converts(data[k])
  {
    for i := 0 to |data|
      invariant forall k :: 0 <= k < i ==> Converts(data[k])
    {
      var num := data[i];
      if num.Str? && ParseInt(num.text).None? {
        assert !Converts(data[i]);
        return false;
      }
    }
    return true;
  }

  // ---------------------------------------------------------------------------
  // TextProcessor
  // ---------------------------------------------------------------------------

  /** The sentence `TextProcessor.process` returns. */
  function TextSummary(chars: nat, words: nat): string {
    "Processed text: " + ShowInt(chars) + " characters, " + ShowInt(words) + " words"
  }

  /**
   * `TextProcessor.process`: counts the characters and the whitespace-separated
   * words, that is, the maximal runs of non-whitespace characters.
   */
  method TextProcess(data: string) returns (summary: string, chars: nat, words: nat)
    ensures chars == |data| && words == RunCount(data)
    ensures summary == TextSummary(chars, words)
  {
    var parts := Words(data);
    words := 0;
    for i := 0 to |parts|
      invariant words == i
    {
      words := words + 1;
    }
    chars := 0;
    for i := 0 to |data|
      invariant chars == i
    {
      chars := chars + 1;
    }
    WordCountIsRunCount(data);
    summary := TextSummary(chars, words);
  }

  /** `TextProcessor.validate`: True exactly when `int(data)` raises, i.e. the text is not an integer. */
  function TextValidate(data: string): (valid: bool)
    ensures valid <==> ParseInt(data).None?
  {
    match ParseInt(data)
    case Some(_) => false
    case None => true
  }

  /** The decimal form of an integer is rejected as text; a string with a letter in it is accepted. */
  lemma TextValidateSpec(n: int, s: string, k: nat)
    requires k < |s| && !IsIntSpace(s[k]) && !IsDigit(s[k]) && s[k] !in "_+-"
    ensures !TextValidate(ShowInt(n))
    ensures TextValidate(s)
  {
    ParseShowInt(n);
    ParseIntRejectsForeign(s, k);
  }

  // ---------------------------------------------------------------------------
  // LogProcessor
  // ---------------------------------------------------------------------------

  datatype Level = Error | Info

  /** The level a log entry's first token announces: ERROR for "ERROR:", INFO for anything else. */
  function DetectLevel(first: string): Level {
    if first == "ERROR:" then Error
    else if first == "INFO:" then Info
    else Info
  }

  function Label(level: Level): string {
    match level
    case Error => "[ALERT]"
    case Info => "[INFO]"
  }

  function LevelName(level: Level): string {
    match level
    case Error => "ERROR"
    case Info => "INFO"
  }

  const EmptyLogEntry: string := "[INFO] Empty log entry"

  /** The text before the message: label, level and " level detected: ". */
  function Header(level: Level): string {
    Label(level) + " " + LevelName(level) + " level detected: "
  }

  /** What `LogProcessor.process` returns for an entry. */
  function LogEntry(data: string): string {
    var parts := Words(data);
    if parts == [] then EmptyLogEntry
    else Header(DetectLevel(parts[0])) + Join(parts[1..], ' ')
  }

  /**
   * `LogProcessor.process`: the label and level of the first token, then the
   * remaining tokens joined by single spaces.
   */
  method LogProcess(data: string) returns (r: string)
    ensures r == LogEntry(data)
  {
    var parts := Words(data);
    if |parts| == 0 {
      return EmptyLogEntry;
    }
    var level: string;
    var labelText: string;
    if parts[0] == "ERROR:" {
      level, labelText := "ERROR", "[ALERT]";
    } else if parts[0] == "INFO:" {
      level, labelText := "INFO", "[INFO]";
    } else {
      labelText, level := "[INFO]", "INFO";
    }
    var message := "";
    var i := 1;
    while i < |parts|
      invariant 1 <= i <= |parts|
      invariant message == Join(parts[1..i], ' ')
    {
      assert parts[1..i + 1] == parts[1..i] + [parts[i]];
      if message != "" {
        message := message + " ";
      }
      if i > 1 {
        JoinSnoc(parts[1..i], parts[i], ' ');
      }
      message := message + parts[i];
      i := i + 1;
    }
    assert parts[1..i] == parts[1..];
    assert labelText + " " + level + " level detected: " == Header(DetectLevel(parts[0]));
    r := labelText + " " + level + " level detected: " + message;
  }

  /** The two headers: "[ALERT] ERROR level detected: " and "[INFO] INFO level detected: ". */
  lemma Headers()
    ensures Header(Error) == "[ALERT] ERROR level detected: "
    ensures Header(Info) == "[INFO] INFO level detected: "
    ensures Header(Error) != Header(Info)
  {
    assert Header(Error)[1] != Header(Info)[1];
  }

  /** An empty or all-whitespace entry gives "[INFO] Empty log entry". */
  lemma BlankLogEntry(data: string)
    requires forall k :: 0 <= k < |data| ==> IsSpace(data[k])
    ensures LogEntry(data) == EmptyLogEntry
  {
    WordsOfBlank(data);
  }

  /**
   * An entry with at least one token reports the ERROR header exactly when its
   * first token is "ERROR:", followed by a message that tokenises to exactly the
   * tokens after the first one (the first token itself is always dropped).
   */
  lemma LogEntryShape(data: string)
    requires Words(data) != []
    ensures exists message ::
      && LogEntry(data) == Header(DetectLevel(Words(data)[0])) + message
      && Words(message) == Words(data)[1..]
    ensures DetectLevel(Words(data)[0]) == Error <==> Words(data)[0] == "ERROR:"
  {
    var parts := Words(data);
    WordsOfJoin(parts[1..]);
    var message := Join(parts[1..], ' ');
    assert LogEntry(data) == Header(DetectLevel(parts[0])) + message;
  }

  /**
   * "ERROR: Connection timeout" gives "[ALERT] ERROR level detected: Connection timeout".
   * The entry is a parameter fixed by the precondition: with the literal written
   * inside `LogEntry(...)` the verifier unfolds the tokeniser character by
   * character and does not finish.
   */
  lemma DemoErrorEntry(data: string)
    requires data == "ERROR: Connection timeout"
    ensures LogEntry(data) == "[ALERT] ERROR level detected: Connection timeout"
  {
    assert IsWord("ERROR:");
    assert IsWord("Connection") && IsWord("timeout");
    assert data == "ERROR:" + " " + "Connection" + " " + "timeout";
    Headers();
    assert Header(DetectLevel("ERROR:")) + "Connection" + " " + "timeout" == "[ALERT] ERROR level detected: Connection timeout";
    DemoEntry(data, "ERROR:", "Connection", "timeout");
  }

  /**
   * "INFO: System ready" gives "[INFO] INFO level detected: System ready", with the
   * entry a parameter for the reason given at `DemoErrorEntry`.
   */
  lemma DemoInfoEntry(data: string)
    requires data == "INFO: System ready"
    ensures LogEntry(data) == "[INFO] INFO level detected: System ready"
  {
    assert IsWord("INFO:");
    assert IsWord("System") && IsWord("ready");
    assert data == "INFO:" + " " + "System" + " " + "ready";
    Headers();
    assert Header(DetectLevel("INFO:")) + "System" + " " + "ready" == "[INFO] INFO level detected: System ready";
    DemoEntry(data, "INFO:", "System", "ready");
  }

  lemma DemoEntry(data: string, first: string, second: string, third: string)
    requires IsWord(first) && IsWord(second) && IsWord(third)
    requires data == first + " " + second + " " + third
    ensures LogEntry(data) == Header(DetectLevel(first)) + second + " " + third
  {
    var tokens := [first, second, third];
    assert Join(tokens, ' ') == data;
    WordsOfJoin(tokens);
    assert tokens[1..][1..] == [third];
    assert Join(tokens[1..], ' ') == second + " " + third;
  }

  /** `LogProcessor.validate`: every log entry is valid. */
  function LogValidate(data: string): (valid: bool)
    ensures valid
  {
    true
  }
}
