/** The `prompt` command: an outer loop of cycles, each collecting prompts
    from standard input line by line until `done`, sending the batch once and
    asking whether to go on. Standard input is a `Scanner` over a fixed
    sequence of lines; the generation service is left out, so a submitted
    batch is recorded rather than sent, and the service only says which
    request, if any, ends the process. */
module Prompt {
  import opened Text

  /** Typed during collection or at the confirmation, ends the command. */
  const QuitWord: string := "q"
  /** Typed during collection, ends the cycle and submits the batch. */
  const DoneWord: string := "done"
  /** What `getResponse` puts between the prompts of a batch. */
  const Separator: string := ". "

  /** How one collection ended. */
  datatype Outcome =
    | Quit                            // a line trimmed to "q"
    | NoPrompts                       // "done" before any prompt
    | Submit(batch: seq<string>)      // "done" after at least one prompt
    | InputEnded(batch: seq<string>)  // end of input; the batch is submitted anyway

  /** Why the whole command ended. */
  datatype SessionEnd =
    | QuitCommand       // "q" while collecting or at the confirmation
    | NoPromptsEntered  // "done" with an empty batch
    | InputExhausted    // input ended: from here every cycle requests an empty batch, for as long as the service answers
    | RequestFailed     // getResponse exited the process: no client, no reply, or no candidate

  /** How the generation service treats the command's requests: it answers
      all of them, or it answers the first `answered` and the next one makes
      `getResponse` exit the process. */
  datatype Service = AlwaysAnswers | FailsAfter(answered: nat)

  /** The next request makes `getResponse` exit. */
  predicate NextFails(svc: Service) {
    svc == FailsAfter(0)
  }

  /** The service after it has answered one request. */
  function Answered(svc: Service): (r: Service)
    requires !NextFails(svc)
    ensures svc.FailsAfter? <==> r.FailsAfter?
    ensures svc.FailsAfter? ==> r.answered + 1 == svc.answered
  {
    match svc
    case AlwaysAnswers => AlwaysAnswers
    case FailsAfter(n) => FailsAfter(n - 1)
  }

  /** What one pass of the outer loop did; `next` is the input position after it. */
  datatype Step =
    | Stopped(end: SessionEnd, next: nat)                  // the command returned without a request
    | Requested(batch: seq<string>, quit: bool, next: nat)  // getResponse(batch) returned; quit: the confirmation was "q"
    | Failed(batch: seq<string>, next: nat)                 // getResponse(batch) exited the process

  /** Standard input, read line by line by `bufio.Scanner.Scan`. */
  class Scanner {
    const lines: seq<string>
    var pos: nat

    ghost predicate Valid()
      reads this
    {
      pos <= |lines|
    }

    constructor (lines: seq<string>)
      ensures Valid() && this.lines == lines && pos == 0
    {
      this.lines := lines;
      pos := 0;
    }

    /** The next line, or `ok == false` at end of input. */
    method Scan() returns (ok: bool, text: string)
      requires Valid()
      modifies this`pos
      ensures Valid()
      ensures ok == (old(pos) < |lines|)
      ensures ok ==> text == lines[old(pos)] && pos == old(pos) + 1
      ensures !ok ==> text == "" && pos == old(pos)
    {
      if pos < |lines| {
        ok, text := true, lines[pos];
        pos := pos + 1;
      } else {
        ok, text := false, "";
      }
    }
  }

  /** A prompt as it may stand in a batch. */
  predicate IsPrompt(p: string) {
    p != "" && p != QuitWord && p != DoneWord && TrimSpace(p) == p
  }

  predicate AllPrompts(batch: seq<string>) {
    forall p :: p in batch ==> IsPrompt(p)
  }

  /** The inner loop of the command from input position `i`, with `batch`
      collected so far: the outcome and the position after the last line read. */
  function Collect(lines: seq<string>, i: nat, batch: seq<string>): (r: (Outcome, nat))
    requires i <= |lines|
    ensures i <= r.1 <= |lines|
    ensures i < |lines| ==> i < r.1
    ensures r.0.InputEnded? ==> r.1 == |lines|
    ensures r.0.Submit? ==> r.0.batch != []
    decreases |lines| - i
  {
    if i == |lines| then (InputEnded(batch), i)
    else
      var input := TrimSpace(lines[i]);
      if input == QuitWord then (Quit, i + 1)
      else if input == DoneWord then (if batch == [] then NoPrompts else Submit(batch), i + 1)
      else if input == "" then Collect(lines, i + 1, batch)
      else Collect(lines, i + 1, batch + [input])
  }

  /** The inner loop of `promptCmd.Run`: reads lines until "q", "done" or
      end of input, skipping blank lines and appending every other trimmed line. */
  method CollectPrompts(sc: Scanner) returns (outcome: Outcome)
    requires sc.Valid()
    modifies sc`pos
    ensures sc.Valid()
    ensures (outcome, sc.pos) == Collect(sc.lines, old(sc.pos), [])
  {
    var prompts: seq<string> := [];
    while true
      invariant sc.Valid() && old(sc.pos) <= sc.pos
      invariant Collect(sc.lines, sc.pos, prompts) == Collect(sc.lines, old(sc.pos), [])
      decreases |sc.lines| - sc.pos
    {
      var ok, text := sc.Scan();
      if !ok {
        outcome := InputEnded(prompts);
        break;
      }
      var userInput := TrimSpace(text);
      if userInput == QuitWord {
        return Quit;
      }
      if userInput == DoneWord {
        if |prompts| == 0 {
          return NoPrompts;
        }
        outcome := Submit(prompts);
        break;
      }
      if userInput == "" {
        continue;
      }
      prompts := prompts + [userInput];
    }
  }

  /** After a request, the confirmation line at position `j`: "q" ends the
      command; any other line, or end of input, lets the loop go round. */
  function Confirm(lines: seq<string>, j: nat, batch: seq<string>): (s: Step)
    requires j <= |lines|
  {
    if j < |lines| then Requested(batch, TrimSpace(lines[j]) == QuitWord, j + 1)
    else Requested(batch, false, j)
  }

  /** After collection, the request for `batch` and, when it returns, the
      confirmation read from position `j`. */
  function Request(lines: seq<string>, j: nat, batch: seq<string>, fails: bool): (s: Step)
    requires j <= |lines|
    ensures !s.Stopped? && s.batch == batch
    ensures s.Failed? <==> fails
    ensures s.Failed? ==> s.next == j
  {
    if fails then Failed(batch, j) else Confirm(lines, j, batch)
  }

  /** One pass of the outer loop from input position `i`; `fails` says
      whether a request made in it makes `getResponse` exit. Only a cycle
      that reads to the end of input requests an empty batch. */
  function Cycle(lines: seq<string>, i: nat, fails: bool): (s: Step)
    requires i <= |lines|
    ensures i <= s.next <= |lines|
    ensures s.next == i <==> i == |lines|
    ensures !s.Stopped? && s.batch == [] ==> s.next == |lines| && !(s.Requested? && s.quit)
  {
    var (outcome, j) := Collect(lines, i, []);
    match outcome
    case Quit => Stopped(QuitCommand, j)
    case NoPrompts => Stopped(NoPromptsEntered, j)
    case Submit(batch) => Request(lines, j, batch, fails)
    case InputEnded(batch) => Request(lines, j, batch, fails)
  }

  /** One pass of the outer loop of `promptCmd.Run`: collect, submit the
      batch, read the confirmation. */
  method RunCycle(sc: Scanner, fails: bool) returns (step: Step)
    requires sc.Valid()
    modifies sc`pos
    ensures sc.Valid()
    ensures step == Cycle(sc.lines, old(sc.pos), fails) && sc.pos == step.next
  {
    var outcome := CollectPrompts(sc);
    var prompts: seq<string>;
    match outcome {
      case Quit => return Stopped(QuitCommand, sc.pos);
      case NoPrompts => return Stopped(NoPromptsEntered, sc.pos);
      case Submit(b) => prompts := b;
      case InputEnded(b) => prompts := b;
    }
    // getResponse(prompts) is called here.
    if fails {
      return Failed(prompts, sc.pos);
    }
    var ok, choice := sc.Scan();
    step := Requested(prompts, ok && TrimSpace(choice) == QuitWord, sc.pos);
  }

  /** The batches the command requests from input position `i` with the
      service `svc`, in order, and why it ended. A cycle that reads no input
      repeats itself unchanged for as long as the service answers, so the
      session is cut there and reported as `InputExhausted`. */
  function Session(lines: seq<string>, i: nat, svc: Service): (r: (seq<seq<string>>, SessionEnd))
    requires i <= |lines|
    ensures r.1 == RequestFailed ==> svc.FailsAfter?
    decreases |lines| - i
  {
    match Cycle(lines, i, NextFails(svc))
    case Stopped(end, _) => ([], end)
    case Failed(batch, _) => ([batch], RequestFailed)
    case Requested(batch, quit, next) =>
      if quit then ([batch], QuitCommand)
      else if next == i then ([batch], InputExhausted)
      else
        var (rest, end) := Session(lines, next, Answered(svc));
        ([batch] + rest, end)
  }

  /** `Session` after one cycle: what that cycle ends or adds, followed by
      the session from its `next` position. */
  lemma SessionStep(lines: seq<string>, i: nat, svc: Service)
    requires i <= |lines|
    ensures match Cycle(lines, i, NextFails(svc))
      case Stopped(e, _) => Session(lines, i, svc) == ([], e)
      case Failed(b, _) => Session(lines, i, svc) == ([b], RequestFailed)
      case Requested(b, quit, next) =>
        if quit then Session(lines, i, svc) == ([b], QuitCommand)
        else if next == i then Session(lines, i, svc) == ([b], InputExhausted)
        else
          && Session(lines, i, svc).0 == [b] + Session(lines, next, Answered(svc)).0
          && Session(lines, i, svc).1 == Session(lines, next, Answered(svc)).1
  {
  }

  /** `promptCmd.Run`: cycles until the command returns or a request exits
      the process; `batches` are the arguments of the successive
      `getResponse` calls. */
  method RunSession(sc: Scanner, svc: Service) returns (batches: seq<seq<string>>, end: SessionEnd)
    requires sc.Valid()
    modifies sc`pos
    ensures sc.Valid()
    ensures (batches, end) == Session(sc.lines, old(sc.pos), svc)
  {
    ghost var total := Session(sc.lines, sc.pos, svc);
    batches := [];
    var service := svc;
    assert total.0 == batches + total.0;
    while true
      invariant sc.Valid()
      invariant total == Session(sc.lines, old(sc.pos), svc)
      invariant total.0 == batches + Session(sc.lines, sc.pos, service).0
      invariant total.1 == Session(sc.lines, sc.pos, service).1
      decreases |sc.lines| - sc.pos
    {
      var start := sc.pos;
      ghost var here := Session(sc.lines, start, service);
      SessionStep(sc.lines, start, service);
      var step := RunCycle(sc, NextFails(service));
      match step {
        case Stopped(e, _) =>
          assert batches + [] == batches;
          return batches, e;
        case Failed(batch, _) =>
          return batches + [batch], RequestFailed;
        case Requested(batch, quit, _) =>
          if quit {
            return batches + [batch], QuitCommand;
          }
          if sc.pos == start {
            return batches + [batch], InputExhausted;
          }
          service := Answered(service);
          assert batches + here.0 == (batches + [batch]) + Session(sc.lines, sc.pos, service).0;
          batches := batches + [batch];
      }
    }
  }

  /** The request text `getResponse` sends for a batch. */
  function RequestText(batch: seq<string>): string {
    Join(batch, Separator)
  }

  /** The text `getResponse` shows for the service's reply. */
  function ResponseText(reply: string): string {
    StripStars(reply)
  }

  // ---------------------------------------------------------------------
  // Properties of collection

  /** The lines that collection appends, trimmed, in arrival order: every
      line that is not blank after trimming. */
  function Kept(ls: seq<string>): seq<string>
    decreases |ls|
  {
    if ls == [] then []
    else
      var input := TrimSpace(ls[0]);
      (if input == "" then [] else [input]) + Kept(ls[1..])
  }

  /** A line that ends collection. */
  predicate IsStop(line: string) {
    TrimSpace(line) == QuitWord || TrimSpace(line) == DoneWord
  }

  /** The outcome of a collection ended by the stop word `word` with `batch` collected. */
  function StopOutcome(word: string, batch: seq<string>): Outcome {
    if word == QuitWord then Quit
    else if batch == [] then NoPrompts
    else Submit(batch)
  }

  /** Collection runs up to the first line that trims to "q" or "done" and
      consumes it: "q" quits whatever was collected, "done" submits the batch
      or, when nothing was collected, ends without a request. Until then every
      non-blank line is appended trimmed and blank lines change nothing. */
  lemma {:induction false} CollectUntilStop(lines: seq<string>, i: nat, k: nat, batch: seq<string>)
    requires i <= k < |lines| && IsStop(lines[k])
    requires forall j :: i <= j < k ==> !IsStop(lines[j])
    ensures Collect(lines, i, batch) == (StopOutcome(TrimSpace(lines[k]), batch + Kept(lines[i..k])), k + 1)
    decreases k - i
  {
    if i == k {
      assert lines[i..k] == [];
      assert batch + [] == batch;
    } else {
      var input := TrimSpace(lines[i]);
      assert lines[i..k][1..] == lines[i + 1..k];
      if input == "" {
        CollectUntilStop(lines, i + 1, k, batch);
        assert Kept(lines[i..k]) == Kept(lines[i + 1..k]);
      } else {
        CollectUntilStop(lines, i + 1, k, batch + [input]);
        assert batch + [input] + Kept(lines[i + 1..k]) == batch + Kept(lines[i..k]);
      }
    }
  }

  /** Without a stop line, collection reads to the end of input and the
      batch holds every non-blank line, trimmed, in order. */
  lemma {:induction false} CollectToEnd(lines: seq<string>, i: nat, batch: seq<string>)
    requires i <= |lines|
    requires forall j :: i <= j < |lines| ==> !IsStop(lines[j])
    ensures Collect(lines, i, batch) == (InputEnded(batch + Kept(lines[i..])), |lines|)
    decreases |lines| - i
  {
    if i == |lines| {
      assert lines[i..] == [];
      assert batch + [] == batch;
    } else {
      var input := TrimSpace(lines[i]);
      assert lines[i..][1..] == lines[i + 1..];
      if input == "" {
        CollectToEnd(lines, i + 1, batch);
        assert Kept(lines[i..]) == Kept(lines[i + 1..]);
      } else {
        CollectToEnd(lines, i + 1, batch + [input]);
        assert batch + [input] + Kept(lines[i + 1..]) == batch + Kept(lines[i..]);
      }
    }
  }

  /** With no blank line among them, every line is kept, trimmed, in place. */
  lemma {:induction false} KeptNoBlank(ls: seq<string>)
    requires forall j :: 0 <= j < |ls| ==> TrimSpace(ls[j]) != ""
    ensures |Kept(ls)| == |ls|
    ensures forall j :: 0 <= j < |ls| ==> Kept(ls)[j] == TrimSpace(ls[j])
    decreases |ls|
  {
    if ls != [] {
      KeptNoBlank(ls[1..]);
    }
  }

  /** Lines that are neither blank nor a stop word, followed by the end of
      input, are collected as exactly those lines, trimmed, in arrival order. */
  lemma PlainLinesCollectedInOrder(lines: seq<string>)
    requires forall j :: 0 <= j < |lines| ==> !IsStop(lines[j]) && TrimSpace(lines[j]) != ""
    ensures Collect(lines, 0, []).0.InputEnded?
    ensures |Collect(lines, 0, []).0.batch| == |lines|
    ensures forall j :: 0 <= j < |lines| ==> Collect(lines, 0, []).0.batch[j] == TrimSpace(lines[j])
  {
    CollectToEnd(lines, 0, []);
    KeptNoBlank(lines);
    assert lines[0..] == lines;
  }

  /** The batch of a finished collection. */
  function Collected(outcome: Outcome): seq<string> {
    match outcome
    case Submit(batch) => batch
    case InputEnded(batch) => batch
    case _ => []
  }

  /** A batch never holds "", "q" or "done", and every prompt is already
      trimmed. */
  lemma {:induction false} CollectKeepsPrompts(lines: seq<string>, i: nat, batch: seq<string>)
    requires i <= |lines| && AllPrompts(batch)
    ensures AllPrompts(Collected(Collect(lines, i, batch).0))
    decreases |lines| - i
  {
    if i < |lines| {
      var input := TrimSpace(lines[i]);
      if input != QuitWord && input != DoneWord {
        if input == "" {
          CollectKeepsPrompts(lines, i + 1, batch);
        } else {
          TrimSpaceIdempotent(lines[i]);
          assert IsPrompt(input);
          CollectKeepsPrompts(lines, i + 1, batch + [input]);
        }
      }
    }
  }

  // ---------------------------------------------------------------------
  // Properties of the session

  /** A cycle that starts at the end of input requests an empty batch and,
      when the request returns, leaves everything as it was: the source's
      loop repeats it until a request exits the process. */
  lemma CycleAtEndRepeats(lines: seq<string>, fails: bool)
    ensures Cycle(lines, |lines|, fails) == if fails then Failed([], |lines|) else Requested([], false, |lines|)
  {
  }

  /** Every batch the command requests consists of prompts only. */
  lemma {:induction false} SessionSubmitsPrompts(lines: seq<string>, i: nat, svc: Service)
    requires i <= |lines|
    ensures forall b :: b in Session(lines, i, svc).0 ==> AllPrompts(b)
    decreases |lines| - i
  {
    CollectKeepsPrompts(lines, i, []);
    var step := Cycle(lines, i, NextFails(svc));
    if step.Requested? && !step.quit && step.next != i {
      SessionSubmitsPrompts(lines, step.next, Answered(svc));
    }
  }

  /** An empty batch is requested only by a cycle that read to the end of
      input (see `Cycle`), so no line is read after it: it is one of the
      last two requests, every request after it is empty too, and the
      session ends there, cut at the end of input or by a failed request.
      When the session is cut at the end of input the last request is
      empty. A batch ended by "done" is never empty. */
  lemma {:induction false} SessionEmptyBatches(lines: seq<string>, i: nat, svc: Service)
    requires i <= |lines|
    ensures var (bs, end) := Session(lines, i, svc);
      && (forall k :: 0 <= k < |bs| && bs[k] == [] ==> (end == InputExhausted || end == RequestFailed) && |bs| - 2 <= k)
      && (forall k, m :: 0 <= k <= m < |bs| && bs[k] == [] ==> bs[m] == [])
      && (end == InputExhausted ==> |bs| > 0 && bs[|bs| - 1] == [])
    decreases |lines| - i
  {
    var (outcome, j) := Collect(lines, i, []);
    var step := Cycle(lines, i, NextFails(svc));
    if step.Requested? && !step.quit && step.next != i {
      SessionEmptyBatches(lines, step.next, Answered(svc));
      var (rest, end) := Session(lines, step.next, Answered(svc));
      if outcome.InputEnded? {
        assert step.next == |lines|;
        assert rest == [[]];
      }
    }
  }

  /** A service that answers every request never ends the command; one that
      fails after `n` answers ends it exactly when the command makes an
      `n + 1`st request, and never sees more requests than that. */
  lemma {:induction false} SessionRequestFailure(lines: seq<string>, i: nat, svc: Service)
    requires i <= |lines|
    ensures var (bs, end) := Session(lines, i, svc);
      && (end == RequestFailed <==> svc.FailsAfter? && |bs| == svc.answered + 1)
      && (svc.FailsAfter? ==> |bs| <= svc.answered + 1)
    decreases |lines| - i
  {
    var step := Cycle(lines, i, NextFails(svc));
    if step.Requested? && !step.quit && step.next != i {
      SessionRequestFailure(lines, step.next, Answered(svc));
    }
  }

  /** The prompts joined with ". ", a single prompt as it is; the response
      shown without its emphasis markers. */
  lemma ShapingExamples(p: string)
    ensures RequestText(["a", "b", "c"]) == "a. b. c"
    ensures RequestText([p]) == p
    ensures RequestText([]) == ""
    ensures ResponseText("**bold**") == "bold"
  {
    assert ["a", "b", "c"][1..] == ["b", "c"];
    assert ["b", "c"][1..] == ["c"];
  }

  /** A session: "hello", "done", then "q" at the confirmation. */
  lemma HelloScenario()
    ensures Session(["hello", "done", "q"], 0, AlwaysAnswers) == ([["hello"]], QuitCommand)
    ensures RequestText(["hello"]) == "hello"
    ensures ResponseText("*Hi there*") == "Hi there"
  {
    var lines := ["hello", "done", "q"];
    HelloCollected(lines);
    assert TrimSpace(lines[2]) == QuitWord by {
      assert TrimLeft("q") == "q";
    }
    assert Cycle(lines, 0, false) == Requested(["hello"], true, 3);
    HiThere();
  }

  lemma HiThere()
    ensures ResponseText("*Hi there*") == "Hi there"
  {
    StripStarsEmphasis("Hi there");
    assert "*Hi there*" == "*" + "Hi there" + "*";
  }

  lemma HelloCollected(lines: seq<string>)
    requires lines == ["hello", "done", "q"]
    ensures Collect(lines, 0, []) == (Submit(["hello"]), 2)
  {
    assert TrimSpace(lines[0]) == "hello" by {
      assert TrimLeft("hello") == "hello";
    }
    assert TrimSpace(lines[1]) == DoneWord by {
      assert TrimLeft("done") == "done";
    }
    assert [] + ["hello"] == ["hello"];
    assert Collect(lines, 1, ["hello"]) == (Submit(["hello"]), 2);
  }
}
