/** The planner's handling of the worker process's answer: extracting the JSON
    array of agent roles from free-form output (`extract_json`) and the checks
    `generate_agents` applies once the process has returned.

    Launching the process, writing the debug files and logging are left out; the
    process's result arrives as a `ProcessOutput`, and decoding the JSON text into
    agent configurations is the parameter `parse`. */
module MetaAgent {
  import opened Wrappers
  import opened Text

  datatype AgentConfig = AgentConfig(id: string, name: string, role: string)

  // ---------------------------------------------------------------------------
  // extract_json

  const TaggedFence: string := "```json"
  const Fence: string := "```"
  const NoArrayMessage: string := "Could not find JSON array in output"

  /** Stage 1: the trimmed text between the first "```json" and the next "```". */
  function TaggedFenceBody(text: string): Option<string> {
    match Find(text, TaggedFence)
    case None => None
    case Some(start) =>
      var from := start + |TaggedFence|;
      match Find(text[from..], Fence)
      case None => None
      case Some(end) => Some(Trim(text[from..from + end]))
  }

  /** Where the body of a fence opened at `start` begins: after the first newline
      that follows the marker, or directly after the marker when none follows. */
  function FenceContentStart(text: string, start: nat): (c: nat)
    requires start + |Fence| <= |text|
    ensures start + |Fence| <= c <= |text|
  {
    var after := start + |Fence|;
    match Find(text[after..], "\n")
    case Some(newline) => after + newline + 1
    case None => after
  }

  /** Stage 2: the trimmed body of the first "```" fence, skipping a language tag. */
  function AnyFenceBody(text: string): Option<string> {
    match Find(text, Fence)
    case None => None
    case Some(start) =>
      var contentStart := FenceContentStart(text, start);
      match Find(text[contentStart..], Fence)
      case None => None
      case Some(end) => Some(Trim(text[contentStart..contentStart + end]))
  }

  /** Stage 3: the trimmed text from the first `[` to the last `]`, if the first
      comes before the last and the result still starts with `[` and ends
      with `]`. */
  function BracketedArray(text: string): (r: Option<string>)
    ensures r.Some? ==> |r.value| >= 2 && r.value[0] == '[' && r.value[|r.value| - 1] == ']'
  {
    match Find(text, "[")
    case None => None
    case Some(start) =>
      match RFindChar(text, ']')
      case None => None
      case Some(end) =>
        if end > start then
          var json := Trim(text[start..end + 1]);
          if |json| > 0 && json[0] == '[' && json[|json| - 1] == ']' then Some(json) else None
        else None
  }

  /** `extract_json`: the three stages in order; the first that applies wins.
      Whatever it returns is trimmed, and its one error is the no-array
      message. */
  function ExtractJson(text: string): (r: Result<string, string>)
    ensures r.Failure? ==> r.error == NoArrayMessage
    ensures r.Success? && r.value != [] ==> !IsWhitespace(r.value[0]) && !IsWhitespace(r.value[|r.value| - 1])
  {
    match TaggedFenceBody(text)
    case Some(json) => Success(json)
    case None =>
      match AnyFenceBody(text)
      case Some(json) => Success(json)
      case None =>
        match BracketedArray(text)
        case Some(json) => Success(json)
        case None => Failure(NoArrayMessage)
  }

  /** The stages in order: the first that finds something decides. */
  lemma ExtractByStages(text: string)
    ensures TaggedFenceBody(text).Some? ==> ExtractJson(text) == Success(TaggedFenceBody(text).value)
    ensures TaggedFenceBody(text).None? && AnyFenceBody(text).Some? ==>
      ExtractJson(text) == Success(AnyFenceBody(text).value)
    ensures TaggedFenceBody(text).None? && AnyFenceBody(text).None? ==>
      ExtractJson(text) == if BracketedArray(text).Some? then Success(BracketedArray(text).value) else Failure(NoArrayMessage)
  {
  }

  /** When "```json" is found at `start` and the next "```" `end` characters
      after the marker, the result is the trimmed text strictly between them. */
  lemma ExtractTaggedFence(text: string, start: nat, end: nat)
    requires Find(text, TaggedFence) == Some(start)
    requires start + 7 <= |text| && Find(text[start + 7..], Fence) == Some(end)
    ensures ExtractJson(text) == Success(Trim(text[start + 7..start + 7 + end]))
  {
    ExtractByStages(text);
  }

  /** Otherwise, when "```" is found at `start` and again `end` characters after
      the start of the body, the result is the trimmed body. */
  lemma ExtractAnyFence(text: string, start: nat, end: nat)
    requires TaggedFenceBody(text).None?
    requires Find(text, Fence) == Some(start)
    requires var c := FenceContentStart(text, start);
      Find(text[c..], Fence) == Some(end)
    ensures var c := FenceContentStart(text, start);
      ExtractJson(text) == Success(Trim(text[c..c + end]))
  {
    ExtractByStages(text);
  }

  /** A fence body starts after the first newline following the marker. */
  lemma FenceContentAfterNewline(text: string, start: nat, newline: nat)
    requires start + 3 + newline < |text| && text[start + 3 + newline] == '\n'
    requires forall i :: start + 3 <= i < start + 3 + newline ==> text[i] != '\n'
    ensures FenceContentStart(text, start) == start + 3 + newline + 1
  {
    var rest := text[start + 3..];
    assert Find(rest, "\n") == Some(newline) by {
      forall j: nat | j < newline ensures !IsAt(rest, "\n", j) {
        IsAtChar(rest, '\n', j);
        assert rest[j] == text[start + 3 + j];
      }
      IsAtChar(rest, '\n', newline);
      FindFirstAt(rest, "\n", newline);
    }
  }

  /** With no newline after the marker, the body starts right after it. */
  lemma FenceContentWithoutNewline(text: string, start: nat)
    requires start + 3 <= |text| && forall i :: start + 3 <= i < |text| ==> text[i] != '\n'
    ensures FenceContentStart(text, start) == start + 3
  {
    var rest := text[start + 3..];
    forall j: nat ensures !IsAt(rest, "\n", j) {
      IsAtChar(rest, '\n', j);
      if j < |rest| {
        assert rest[j] == text[start + 3 + j];
      }
    }
  }

  /** Stage 3 is exact: whenever it applies, its result is the inclusive slice
      from the first `[` to the last `]`, untouched by trimming, and it applies
      exactly when the first `[` precedes the last `]`. */
  lemma BracketedArrayExact(text: string)
    ensures BracketedArray(text).Some? <==>
      (Find(text, "[").Some? && RFindChar(text, ']').Some? && RFindChar(text, ']').value > Find(text, "[").value)
    ensures BracketedArray(text).Some? ==>
      var a, b := Find(text, "[").value, RFindChar(text, ']').value;
      && BracketedArray(text).value == text[a..b + 1]
      && text[a] == '[' && text[b] == ']'
  {
    var f, l := Find(text, "["), RFindChar(text, ']');
    if f.Some? && l.Some? && l.value > f.value {
      var a, b := f.value, l.value;
      assert text[a] == '[' by {
        IsAtChar(text, '[', a);
      }
      var slice := text[a..b + 1];
      assert slice[0] == '[' && slice[|slice| - 1] == ']';
      TrimKeepsSolidText(slice);
      assert BracketedArray(text) == Some(slice);
    } else {
      assert BracketedArray(text).None?;
    }
  }

  /** Without a fence, the result is exactly the slice from the first `[` to
      the last `]`, so it starts with `[` and ends with `]`. */
  lemma ExtractBareArray(text: string, a: nat, b: nat)
    requires Find(text, Fence).None?
    requires Find(text, "[") == Some(a) && RFindChar(text, ']') == Some(b) && a < b
    ensures ExtractJson(text) == Success(text[a..b + 1])
    ensures text[a..b + 1][0] == '[' && text[a..b + 1][b - a] == ']'
  {
    NoFenceNoTaggedFence(text);
    BracketedArrayExact(text);
    ExtractByStages(text);
  }

  /** A text without "```" has no "```json" either. */
  lemma NoFenceNoTaggedFence(text: string)
    requires Find(text, Fence).None?
    ensures Find(text, TaggedFence).None?
  {
    FindFirst(text, Fence);
    forall j: nat | IsAt(text, TaggedFence, j) ensures false {
      assert text[j..j + 3] == text[j..j + 7][..3];
      assert IsAt(text, Fence, j);
    }
  }

  /** Without a fence, extraction fails exactly when no `[` stands before a `]`. */
  lemma ExtractFailsIffNoBracketPair(text: string)
    requires Find(text, Fence).None?
    ensures ExtractJson(text).Failure? <==>
      !exists a, b :: 0 <= a < b < |text| && text[a] == '[' && text[b] == ']'
  {
    NoFenceNoTaggedFence(text);
    ExtractByStages(text);
    BracketedArrayExact(text);
    FindFirst(text, "[");
    RFindCharLast(text, ']');
    if exists a, b :: 0 <= a < b < |text| && text[a] == '[' && text[b] == ']' {
      var a, b :| 0 <= a < b < |text| && text[a] == '[' && text[b] == ']';
      IsAtChar(text, '[', a);
      var first := Find(text, "[").value;
      IsAtChar(text, '[', first);
    } else if Find(text, "[").Some? && RFindChar(text, ']').Some? {
      var first := Find(text, "[").value;
      IsAtChar(text, '[', first);
    }
  }

  /** A tagged fence after a backtick-free preamble, with a backtick-free body:
      the trimmed body is extracted, whatever follows the closing fence. */
  lemma ExtractTaggedBlock(pre: string, body: string, post: string)
    requires '`' !in pre && '`' !in body
    ensures ExtractJson(pre + TaggedFence + body + Fence + post) == Success(Trim(body))
  {
    TaggedBlockAt(pre, body, post, pre + TaggedFence + body + Fence + post);
  }

  lemma TaggedBlockAt(pre: string, body: string, post: string, text: string)
    requires '`' !in pre && '`' !in body
    requires text == pre + TaggedFence + body + Fence + post
    ensures ExtractJson(text) == Success(Trim(body))
  {
    var start := |pre|;
    assert Find(text, TaggedFence) == Some(start) && start + 7 <= |text| by {
      TaggedBlockFences(pre, body, post, text);
      FindFirstAt(text, TaggedFence, start);
    }
    assert Find(text[start + 7..], Fence) == Some(|body|) by {
      TaggedBlockFences(pre, body, post, text);
      FindFirstAt(text[start + 7..], Fence, |body|);
    }
    var inner := text[start + 7..start + 7 + |body|];
    assert inner == body by {
      TaggedBlockFences(pre, body, post, text);
    }
    ExtractTaggedFence(text, start, |body|);
    assert Trim(inner) == Trim(body);
  }

  /** Where the two fences of a tagged block are found. */
  lemma TaggedBlockFences(pre: string, body: string, post: string, text: string)
    requires '`' !in pre && '`' !in body
    requires text == pre + TaggedFence + body + Fence + post
    ensures FirstAt(text, TaggedFence, |pre|) && |pre| + 7 <= |text|
    ensures FirstAt(text[|pre| + 7..], Fence, |body|)
    ensures text[|pre| + 7..|pre| + 7 + |body|] == body
  {
    assert FirstAt(text, TaggedFence, |pre|) by {
      assert text == pre + (TaggedFence + (body + Fence + post));
      FirstAtAfter(pre, TaggedFence, TaggedFence + (body + Fence + post));
    }
    assert text[|pre| + 7..] == body + (Fence + post);
    FirstAtAfter(body, Fence, Fence + post);
  }

  /** A bare array: in backtick-free text, an array with no `[` before it and
      no `]` after it is extracted as it stands. */
  lemma ExtractBareBlock(pre: string, arr: string, post: string)
    requires '`' !in pre && '`' !in arr && '`' !in post
    requires |arr| >= 2 && arr[0] == '[' && arr[|arr| - 1] == ']'
    requires '[' !in pre && ']' !in post
    ensures ExtractJson(pre + arr + post) == Success(arr)
  {
    BareBlockAt(pre, arr, post, pre + arr + post);
  }

  lemma BareBlockAt(pre: string, arr: string, post: string, text: string)
    requires '`' !in pre && '`' !in arr && '`' !in post
    requires |arr| >= 2 && arr[0] == '[' && arr[|arr| - 1] == ']'
    requires '[' !in pre && ']' !in post
    requires text == pre + arr + post
    ensures ExtractJson(text) == Success(arr)
  {
    var b := |pre| + |arr| - 1;
    assert Find(text, Fence).None? by {
      AbsentHead(text, Fence);
    }
    assert Find(text, "[") == Some(|pre|) by {
      assert text == pre + (arr + post);
      assert "[" <= arr + post;
      FirstAtAfter(pre, "[", arr + post);
      FindFirstAt(text, "[", |pre|);
    }
    assert RFindChar(text, ']') == Some(b) by {
      assert text[b] == arr[|arr| - 1];
      forall j | b < j < |text| ensures text[j] != ']' {
        assert text[j] == post[j - b - 1];
      }
      RFindCharAt(text, ']', b);
    }
    ExtractBareArray(text, |pre|, b);
    assert text[|pre|..b + 1] == arr;
  }

  /** A solid text between two newlines trims to itself. */
  lemma TrimNewlineFramed(inner: string)
    requires |inner| > 0 && !IsWhitespace(inner[0]) && !IsWhitespace(inner[|inner| - 1])
    ensures Trim("\n" + inner + "\n") == inner
  {
    var framed := "\n" + inner + "\n";
    var rest := inner + "\n";
    assert framed[1..] == rest;
    assert rest[0] == inner[0];
    assert TrimStart(framed) == rest;
    assert rest[..|rest| - 1] == inner;
    assert TrimEnd(rest) == TrimEnd(inner);
  }

  /** The array of the two test texts, written around the key the first test
      looks for. */
  const IdKey: string := "\"id\""
  const TestTail: string := ": \"01\", \"name\": \"Test\", \"role\": \"Testing\"}\n]"
  const TestArray: string := "[\n  {" + IdKey + TestTail

  /** The prose around the fence in the first test text. */
  const TestPreamble: string := "\nSure, here are the agents:\n\n"
  const TestTrailer: string := "\n\nHope this helps!\n        "

  lemma TestArrayShape()
    ensures |TestArray| >= 2 && TestArray[0] == '[' && TestArray[|TestArray| - 1] == ']'
    ensures '`' !in TestArray
    ensures Contains(TestArray, IdKey)
  {
    assert '`' !in TestTail && TestTail[|TestTail| - 1] == ']';
    ContainsMiddle("[\n  {", IdKey, TestTail);
  }

  /** The first test text (a fenced answer): the result is the array, which
      mentions `"id"`. */
  lemma ExtractFencedExample(text: string)
    requires text == TestPreamble + TaggedFence + ("\n" + TestArray + "\n") + Fence + TestTrailer
    ensures ExtractJson(text) == Success(TestArray) && Contains(TestArray, IdKey)
  {
    TestArrayShape();
    TaggedBlockAt(TestPreamble, "\n" + TestArray + "\n", TestTrailer, text);
    TrimNewlineFramed(TestArray);
  }

  /** The second test text (a bare array): the result is the array, starting
      with `[`. */
  lemma ExtractPlainExample(text: string)
    requires text == "\n" + TestArray + "\n        "
    ensures ExtractJson(text) == Success(TestArray) && TestArray[0] == '['
  {
    TestArrayShape();
    BareBlockAt("\n", TestArray, "\n        ", text);
  }

  // ---------------------------------------------------------------------------
  // generate_agents: what happens once the worker process has returned

  /** What `Command::output` reports: exit success, exit code, and the captured
      streams (already decoded to text). */
  datatype ProcessOutput = ProcessOutput(success: bool, code: Option<int>, stdout: string, stderr: string)

  datatype PlanError =
    | LaunchFailed                                  // the process could not be started
    | ExecutionFailed(stderr: string)               // non-zero exit and blank stdout
    | NoOutput(code: Option<int>, stderrHead: string) // zero exit and blank stdout
    | ExtractionFailed(stdoutHead: string)          // no JSON array found
    | ParseFailed(jsonHead: string)                 // the JSON did not decode
    | NoAgents                                      // the array was empty

  /** `s.chars().take(n)`. */
  function Take(s: string, n: nat): (r: string)
    ensures |r| <= n && |r| <= |s| && r == s[..|r|]
    ensures |s| <= n ==> r == s
  {
    if |s| <= n then s else s[..n]
  }

  /** The decisions of `generate_agents` after the subprocess: blank stdout is
      fatal, a non-zero exit with output is tolerated, and the output is then
      read as a plan. */
  function PlanOutcome(launch: Option<ProcessOutput>, parse: string -> Option<seq<AgentConfig>>): (r: Result<seq<AgentConfig>, PlanError>)
    ensures r == Failure(LaunchFailed) <==> launch.None?
    ensures r.Success? ==> |r.value| > 0 && launch.Some? && !IsBlank(launch.value.stdout)
  {
    match launch
    case None => Failure(LaunchFailed)
    case Some(out) =>
      TrimEmptyIffBlank(out.stdout);
      if !out.success && Trim(out.stdout) == [] then Failure(ExecutionFailed(out.stderr))
      else if Trim(out.stdout) == [] then Failure(NoOutput(out.code, Take(out.stderr, 500)))
      else ReadPlan(out.stdout, parse)
  }

  /** The JSON array is extracted from the output and decoded, and an empty list
      is refused; each failure reports the first 500 characters of the text it
      gave up on. */
  function ReadPlan(stdout: string, parse: string -> Option<seq<AgentConfig>>): (r: Result<seq<AgentConfig>, PlanError>)
    ensures r.Failure? ==> r.error.ExtractionFailed? || r.error.ParseFailed? || r.error.NoAgents?
    ensures r.Success? ==> |r.value| > 0
    ensures r.Failure? && r.error.ExtractionFailed? <==> ExtractJson(stdout).Failure?
  {
    match ExtractJson(stdout)
    case Failure(_) => Failure(ExtractionFailed(Take(stdout, 500)))
    case Success(json) =>
      match parse(json)
      case None => Failure(ParseFailed(Take(json, 500)))
      case Some(agents) => if |agents| == 0 then Failure(NoAgents) else Success(agents)
  }

  /** Planning stops before extraction exactly when stdout is all white space,
      whatever the exit status. */
  lemma BlankOutputIsFatal(out: ProcessOutput, parse: string -> Option<seq<AgentConfig>>)
    ensures var r := PlanOutcome(Some(out), parse);
      (r.Failure? && (r.error.ExecutionFailed? || r.error.NoOutput?)) <==> IsBlank(out.stdout)
    ensures IsBlank(out.stdout) ==>
      PlanOutcome(Some(out), parse) ==
        if out.success then Failure(NoOutput(out.code, Take(out.stderr, 500)))
        else Failure(ExecutionFailed(out.stderr))
  {
    TrimEmptyIffBlank(out.stdout);
  }

  /** With non-blank stdout the exit status does not matter: a failed exit is
      treated exactly like a successful one. */
  lemma ExitStatusToleratedWithOutput(out: ProcessOutput, parse: string -> Option<seq<AgentConfig>>)
    requires !IsBlank(out.stdout)
    ensures PlanOutcome(Some(out), parse) == PlanOutcome(Some(out.(success := true, code := Some(0))), parse)
    ensures PlanOutcome(Some(out), parse) == ReadPlan(out.stdout, parse)
  {
    TrimEmptyIffBlank(out.stdout);
  }

  /** Planning succeeds exactly when stdout is not blank, a JSON array is
      extracted, it decodes and the list is not empty; the list is then returned
      as decoded. */
  lemma PlanSucceedsIff(out: ProcessOutput, parse: string -> Option<seq<AgentConfig>>, agents: seq<AgentConfig>)
    ensures PlanOutcome(Some(out), parse) == Success(agents) <==>
      && !IsBlank(out.stdout)
      && ExtractJson(out.stdout).Success?
      && parse(ExtractJson(out.stdout).value) == Some(agents)
      && |agents| > 0
  {
    TrimEmptyIffBlank(out.stdout);
  }

  /** An empty decoded list is refused. */
  lemma EmptyPlanRefused(out: ProcessOutput, parse: string -> Option<seq<AgentConfig>>)
    requires !IsBlank(out.stdout) && ExtractJson(out.stdout).Success?
    requires parse(ExtractJson(out.stdout).value) == Some([])
    ensures PlanOutcome(Some(out), parse) == Failure(NoAgents)
  {
    TrimEmptyIffBlank(out.stdout);
  }

  // ---------------------------------------------------------------------------
  // The advisory id check

  /** The id expected at position `i`: `format!("{:02}", i + 1)`. */
  function ExpectedId(i: nat): string {
    ZeroPad2(i + 1)
  }

  /** One logged warning: the agent at `index` has id `found`, not `expected`. */
  datatype IdWarning = IdWarning(index: nat, found: string, expected: string)

  /** The warnings the loop logs for the first `n` agents, in order. */
  function IdWarnings(agents: seq<AgentConfig>, n: nat): (r: seq<IdWarning>)
    requires n <= |agents|
    ensures |r| <= n
  {
    if n == 0 then []
    else
      var i := n - 1;
      IdWarnings(agents, i) + if agents[i].id != ExpectedId(i) then [IdWarning(i, agents[i].id, ExpectedId(i))] else []
  }

  /** The id-checking loop of `generate_agents`; it returns the warnings it
      would log and changes nothing. */
  method CheckSequentialIds(agents: seq<AgentConfig>) returns (warnings: seq<IdWarning>)
    ensures warnings == IdWarnings(agents, |agents|)
  {
    warnings := [];
    var i := 0;
    while i < |agents|
      invariant i <= |agents|
      invariant warnings == IdWarnings(agents, i)
    {
      var expected := ExpectedId(i);
      if agents[i].id != expected {
        warnings := warnings + [IdWarning(i, agents[i].id, expected)];
      }
      i := i + 1;
    }
  }

  /** Each warning names a position before `n` whose id differs from the
      expected one, with the id found and the id expected. */
  lemma {:induction false} IdWarningsSound(agents: seq<AgentConfig>, n: nat)
    requires n <= |agents|
    ensures forall w :: w in IdWarnings(agents, n) ==>
      w.index < n && w.found == agents[w.index].id && w.expected == ExpectedId(w.index) && w.found != w.expected
  {
    if n > 0 {
      IdWarningsSound(agents, n - 1);
    }
  }

  /** The warnings come in increasing order of position, so no position is
      reported twice. */
  lemma {:induction false} IdWarningsOrdered(agents: seq<AgentConfig>, n: nat)
    requires n <= |agents|
    ensures forall k, l :: 0 <= k < l < |IdWarnings(agents, n)| ==>
      IdWarnings(agents, n)[k].index < IdWarnings(agents, n)[l].index
  {
    if n > 0 {
      IdWarningsOrdered(agents, n - 1);
      IdWarningsSound(agents, n - 1);
      var i := n - 1;
      var prev := IdWarnings(agents, i);
      var tail := if agents[i].id != ExpectedId(i) then [IdWarning(i, agents[i].id, ExpectedId(i))] else [];
      var ws := IdWarnings(agents, n);
      assert ws == prev + tail;
      forall k, l | 0 <= k < l < |ws| ensures ws[k].index < ws[l].index {
        assert ws[k] == prev[k];
        if l < |prev| {
          assert ws[l] == prev[l];
          assert prev[k].index < prev[l].index;
        } else {
          assert prev[k] in prev;
          assert prev[k].index < i;
          assert ws[l] == tail[0];
        }
      }
    }
  }

  /** Every position before `n` whose id differs from the expected one is
      reported. */
  lemma {:induction false} IdWarningsComplete(agents: seq<AgentConfig>, n: nat)
    requires n <= |agents|
    ensures forall i :: 0 <= i < n && agents[i].id != ExpectedId(i) ==>
      IdWarning(i, agents[i].id, ExpectedId(i)) in IdWarnings(agents, n)
  {
    if n > 0 {
      IdWarningsComplete(agents, n - 1);
    }
  }

  /** Together: a position is reported exactly when its id is not the expected
      one. */
  lemma IdWarningIff(agents: seq<AgentConfig>, i: nat)
    requires i < |agents|
    ensures (exists w :: w in IdWarnings(agents, |agents|) && w.index == i) <==> agents[i].id != ExpectedId(i)
  {
    IdWarningsSound(agents, |agents|);
    IdWarningsComplete(agents, |agents|);
  }

  /** Different positions expect different ids. */
  lemma ExpectedIdsDistinct(i: nat, j: nat)
    requires i != j
    ensures ExpectedId(i) != ExpectedId(j)
  {
    ParseZeroPad2(i + 1);
    ParseZeroPad2(j + 1);
  }

  function Agent(id: string): AgentConfig {
    AgentConfig(id, "agent " + id, "role " + id)
  }

  /** The first five expected ids. */
  lemma FirstExpectedIds()
    ensures ExpectedId(0) == "01" && ExpectedId(1) == "02" && ExpectedId(2) == "03"
    ensures ExpectedId(3) == "04" && ExpectedId(4) == "05"
  {
  }

  /** Ids "01" to "05" in order draw no warning. */
  lemma SequentialIdsNoWarning()
    ensures IdWarnings([Agent("01"), Agent("02"), Agent("03"), Agent("04"), Agent("05")], 5) == []
  {
    FirstExpectedIds();
  }

  /** Ids "01", "03", "02" draw a warning at positions 1 and 2 only. The check is
      advisory: a process answer that decodes to this list is still returned
      as the plan. */
  lemma ShuffledIdsWarn(out: ProcessOutput, parse: string -> Option<seq<AgentConfig>>)
    requires !IsBlank(out.stdout) && ExtractJson(out.stdout).Success?
    requires parse(ExtractJson(out.stdout).value) == Some([Agent("01"), Agent("03"), Agent("02")])
    ensures IdWarnings([Agent("01"), Agent("03"), Agent("02")], 3) ==
      [IdWarning(1, "03", "02"), IdWarning(2, "02", "03")]
    ensures PlanOutcome(Some(out), parse) == Success([Agent("01"), Agent("03"), Agent("02")])
  {
    FirstExpectedIds();
    PlanSucceedsIff(out, parse, [Agent("01"), Agent("03"), Agent("02")]);
  }
}
