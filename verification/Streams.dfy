/** The two stream readers of the web client: `deleteJobs` (webui/src/api/jobs.ts),
    framed by newlines, and `analyzeProxyLevel` (webui/src/api/network.ts), framed
    by blank lines. A stream is the texts its decoder gives, cut anywhere. */
module Streams {
  import opened Basics
  import opened Text

  type Obj = map<string, string>

  // ---- Cutting a text into chunks --------------------------------------------

  // The frames that are complete: all pieces but the last.
  function Complete(t: string, d: string): seq<string>
    requires d != ""
  {
    Init(Split(t, d))
  }

  function Carry(t: string, d: string): string
    requires d != ""
  {
    Last(Split(t, d))
  }

  /** Reading t and then u completes the frames of the whole, in order. */
  lemma {:induction false} CompleteCarry(t: string, u: string, d: string)
    requires d != ""
    ensures Complete(t + u, d) == Complete(t, d) + Complete(Carry(t, d) + u, d)
    ensures Carry(t + u, d) == Carry(Carry(t, d) + u, d)
  {
    SplitCarry(t, u, d);
  }

  /** Text that completes no delimiter is never read, wherever the stream ends. */
  lemma {:induction false} UnterminatedIgnored(t: string, u: string, d: string)
    requires d != "" && !Contains(Carry(t, d) + u, d)
    ensures Complete(t + u, d) == Complete(t, d)
  {
    CompleteCarry(t, u, d);
    NoDelimiter(Carry(t, d) + u, d);
  }

  // ---- deleteJobs -----------------------------------------------------------

  // What JSON.parse makes of a line, by the event's type.
  datatype JobEvent =
    | Progress(event: Obj)
    | Cleanup(event: Obj)    // "cleanup" or "state"
    | Failure(message: string)
    | Finished(response: Obj)
    | OtherEvent

  datatype Outcome =
    | Returned(response: Obj)
    | Threw(message: string)
    | Malformed(line: string)
    | ConnectionEnded
    | ReadFailed

  datatype Ending = Done(flush: string) | Broken

  datatype Deletion = Deletion(delivered: seq<Obj>, latest: Obj, outcome: Option<Outcome>)

  const NOTHING_YET := Deletion([], map["completed" := "0", "total" := "0"], None)

  predicate JsSpace(c: char) {
    c in {'\t', '\n', '\U{0B}', '\U{0C}', '\r', ' ', '\U{A0}', '\U{1680}', '\U{2028}', '\U{2029}', '\U{202F}',
          '\U{205F}', '\U{3000}', '\U{FEFF}'} || '\U{2000}' <= c <= '\U{200A}'
  }

  predicate Blank(line: string) {
    forall i :: 0 <= i < |line| ==> JsSpace(line[i])
  }

  function HandleLine(d: Deletion, line: string, parse: string -> Option<JobEvent>): Deletion {
    if Blank(line) then d
    else match parse(line)
      case None => d.(outcome := Some(Malformed(line)))
      case Some(Progress(event)) => Deletion(d.delivered + [event], event, None)
      case Some(Cleanup(event)) => d.(delivered := d.delivered + [d.latest + event])
      case Some(Failure(message)) => d.(outcome := Some(Threw(message)))
      case Some(Finished(response)) => d.(outcome := Some(Returned(response)))
      case Some(OtherEvent) => d
  }

  // The lines in order, up to the first that ends the call.
  function HandleLines(d: Deletion, lines: seq<string>, parse: string -> Option<JobEvent>): Deletion
    decreases lines
  {
    if d.outcome.Some? || lines == [] then d
    else HandleLines(HandleLine(d, lines[0], parse), lines[1..], parse)
  }

  lemma {:induction false} HandleLinesAppend(d: Deletion, a: seq<string>, b: seq<string>,
                                             parse: string -> Option<JobEvent>)
    ensures HandleLines(d, a + b, parse) == HandleLines(HandleLines(d, a, parse), b, parse)
    decreases |a|
  {
    if a == [] {
      assert a + b == b;
    } else if d.outcome.None? {
      assert (a + b)[1..] == a[1..] + b;
      HandleLinesAppend(HandleLine(d, a[0], parse), a[1..], b, parse);
    }
  }

  // All the text a stream gives before it ends.
  function WholeText(chunks: seq<string>, ending: Ending): string {
    if ending.Done? then Concat(chunks) + ending.flush else Concat(chunks)
  }

  // What the call does with a text it is given whole.
  function DeletionOf(text: string, ending: Ending, parse: string -> Option<JobEvent>): Deletion {
    var d := HandleLines(NOTHING_YET, Complete(text, "\n"), parse);
    if d.outcome.Some? then d
    else d.(outcome := Some(if ending.Done? then ConnectionEnded else ReadFailed))
  }

  /** A call that ended within the text read so far ends the same on any longer text. */
  lemma {:induction false} EndedEarly(text: string, more: string, parse: string -> Option<JobEvent>)
    requires HandleLines(NOTHING_YET, Complete(text, "\n"), parse).outcome.Some?
    ensures HandleLines(NOTHING_YET, Complete(text + more, "\n"), parse) ==
            HandleLines(NOTHING_YET, Complete(text, "\n"), parse)
  {
    CompleteCarry(text, more, "\n");
    HandleLinesAppend(NOTHING_YET, Complete(text, "\n"), Complete(Carry(text, "\n") + more, "\n"), parse);
  }

  // The inner loop, over the lines that one read completed.
  method ReadLines(lines: seq<string>, parse: string -> Option<JobEvent>, delivered0: seq<Obj>, latest0: Obj)
    returns (delivered: seq<Obj>, latest: Obj, outcome: Option<Outcome>)
    ensures Deletion(delivered, latest, outcome) == HandleLines(Deletion(delivered0, latest0, None), lines, parse)
  {
    delivered, latest := delivered0, latest0;
    for k := 0 to |lines|
      invariant HandleLines(Deletion(delivered0, latest0, None), lines, parse) ==
                HandleLines(Deletion(delivered, latest, None), lines[k..], parse)
    {
      var line := lines[k];
      assert lines[k..][0] == line && lines[k..][1..] == lines[k + 1..];
      if Blank(line) { continue; }
      match parse(line) {
        case None =>
          return delivered, latest, Some(Malformed(line));
        case Some(Progress(event)) =>
          latest := event;
          delivered := delivered + [latest];
        case Some(Cleanup(event)) =>
          delivered := delivered + [latest + event];
        case Some(Failure(message)) =>
          return delivered, latest, Some(Threw(message));
        case Some(Finished(response)) =>
          return delivered, latest, Some(Returned(response));
        case Some(OtherEvent) =>
      }
    }
    outcome := None;
  }

  /** The loop of `deleteJobs`: the events delivered, their order and the outcome
      are those of the text as a whole, however it was cut into chunks. */
  method DeleteJobs(chunks: seq<string>, ending: Ending, parse: string -> Option<JobEvent>)
    returns (delivered: seq<Obj>, outcome: Outcome)
    ensures var d := DeletionOf(WholeText(chunks, ending), ending, parse);
            delivered == d.delivered && Some(outcome) == d.outcome
  {
    delivered := [];
    var buffer := "";
    var latest: Obj := NOTHING_YET.latest;
    var i := 0;
    while true
      invariant 0 <= i <= |chunks|
      invariant buffer == Carry(Concat(chunks[..i]), "\n")
      invariant Deletion(delivered, latest, None) ==
                HandleLines(NOTHING_YET, Complete(Concat(chunks[..i]), "\n"), parse)
      decreases |chunks| - i
    {
      ghost var seen := Concat(chunks[..i]);
      CutAt(chunks, i, ending);
      if i == |chunks| && ending.Broken? {
        return delivered, ReadFailed;
      }
      var done := i == |chunks|;
      var text := if done then ending.flush else chunks[i];
      CompleteCarry(seen, text, "\n");
      var lines := Split(buffer + text, "\n");
      HandleLinesAppend(NOTHING_YET, Complete(seen, "\n"), Init(lines), parse);
      buffer := Last(lines);
      var ended: Option<Outcome>;
      delivered, latest, ended := ReadLines(Init(lines), parse, delivered, latest);
      if ended.Some? {
        EndedEarly(seen + text, TextAfter(chunks, i, ending), parse);
        return delivered, ended.value;
      }
      if done {
        return delivered, ConnectionEnded;
      }
      i := i + 1;
    }
  }

  // The text read after the i-th read.
  ghost function TextAfter(chunks: seq<string>, i: nat, ending: Ending): string
    requires i <= |chunks|
  {
    if i == |chunks| then "" else WholeText(chunks[i + 1..], ending)
  }

  lemma {:induction false} CutAt(chunks: seq<string>, i: nat, ending: Ending)
    requires i <= |chunks|
    ensures var seen := Concat(chunks[..i]);
            if i < |chunks| then
              && seen + chunks[i] == Concat(chunks[..i + 1])
              && seen + chunks[i] + TextAfter(chunks, i, ending) == WholeText(chunks, ending)
            else
              WholeText(chunks, ending) == if ending.Done? then seen + ending.flush else seen
  {
    if i < |chunks| {
      assert Init(chunks[..i + 1]) == chunks[..i];
      ConcatAppend(chunks[..i + 1], chunks[i + 1..]);
      assert chunks[..i + 1] + chunks[i + 1..] == chunks;
    } else {
      assert chunks[..i] == chunks;
    }
  }

  // ---- analyzeProxyLevel ------------------------------------------------------

  // What JSON.parse makes of a frame's data, by the event's type.
  datatype AnalysisEvent =
    | Warmup(ip: string)
    | Measured(event: Obj)             // "progress"
    | Measurement(result: Option<Obj>) // "result"; None when it holds none
    | Finish(event: Obj)               // "complete"
    | OtherAnalysis

  datatype Delivery = OnWarmup(ip: string) | OnProgress(event: Obj) | OnResult(result: Obj) | OnComplete(event: Obj)

  datatype Analysis = Analysis(delivered: seq<Delivery>, hadResults: bool)

  const DATA := "data: "

  // Frames that are not data, and data that does not parse, are skipped.
  function HandleFrame(a: Analysis, frame: string, parse: string -> Option<AnalysisEvent>): Analysis {
    if !(DATA <= frame) then a
    else match parse(frame[|DATA|..])
      case Some(Warmup(ip)) => a.(delivered := a.delivered + [OnWarmup(ip)])
      case Some(Measured(event)) => a.(delivered := a.delivered + [OnProgress(event)])
      case Some(Measurement(Some(result))) => Analysis(a.delivered + [OnResult(result)], true)
      case Some(Finish(event)) => a.(delivered := a.delivered + [OnComplete(event)])
      case _ => a
  }

  function HandleFrames(a: Analysis, frames: seq<string>, parse: string -> Option<AnalysisEvent>): Analysis
    decreases frames
  {
    if frames == [] then a else HandleFrames(HandleFrame(a, frames[0], parse), frames[1..], parse)
  }

  lemma {:induction false} HandleFramesAppend(a: Analysis, x: seq<string>, y: seq<string>,
                                              parse: string -> Option<AnalysisEvent>)
    ensures HandleFrames(a, x + y, parse) == HandleFrames(HandleFrames(a, x, parse), y, parse)
    decreases |x|
  {
    if x == [] {
      assert x + y == y;
    } else {
      assert (x + y)[1..] == x[1..] + y;
      HandleFramesAppend(HandleFrame(a, x[0], parse), x[1..], y, parse);
    }
  }

  /** Results were had exactly when one was delivered. */
  lemma {:induction false} HadResultsMeansDelivered(a: Analysis, frames: seq<string>,
                                                    parse: string -> Option<AnalysisEvent>)
    requires a.hadResults <==> exists k :: 0 <= k < |a.delivered| && a.delivered[k].OnResult?
    ensures var r := HandleFrames(a, frames, parse);
            r.hadResults <==> exists k :: 0 <= k < |r.delivered| && r.delivered[k].OnResult?
    decreases |frames|
  {
    if frames != [] {
      var next := HandleFrame(a, frames[0], parse);
      assert a.delivered <= next.delivered;
      if exists k :: 0 <= k < |a.delivered| && a.delivered[k].OnResult? {
        var k :| 0 <= k < |a.delivered| && a.delivered[k].OnResult?;
        assert next.delivered[k].OnResult?;
      } else if next.hadResults {
        assert next.delivered[|a.delivered|].OnResult?;
      }
      HadResultsMeansDelivered(next, frames[1..], parse);
    }
  }

  /** The loop of `analyzeProxyLevel`: the callbacks made and the answer are those of
      the complete frames of the whole text, however it was cut. A read that fails
      rejects the call after the same callbacks. */
  method AnalyzeProxyLevel(chunks: seq<string>, broken: bool, parse: string -> Option<AnalysisEvent>)
    returns (delivered: seq<Delivery>, answer: Option<bool>)
    ensures var a := HandleFrames(Analysis([], false), Complete(Concat(chunks), "\n\n"), parse);
            delivered == a.delivered && answer == if broken then None else Some(a.hadResults)
  {
    delivered := [];
    var buffer := "";
    var hadResults := false;
    for i := 0 to |chunks|
      invariant buffer == Carry(Concat(chunks[..i]), "\n\n")
      invariant Analysis(delivered, hadResults) ==
                HandleFrames(Analysis([], false), Complete(Concat(chunks[..i]), "\n\n"), parse)
    {
      ghost var seen := Concat(chunks[..i]);
      CutAt(chunks, i, Broken);
      CompleteCarry(seen, chunks[i], "\n\n");
      var frames := Split(buffer + chunks[i], "\n\n");
      HandleFramesAppend(Analysis([], false), Complete(seen, "\n\n"), Init(frames), parse);
      buffer := Last(frames);
      delivered, hadResults := ReadFrames(Init(frames), parse, delivered, hadResults);
    }
    assert chunks[..|chunks|] == chunks;
    answer := if broken then None else Some(hadResults);
  }

  // The inner loop, over the frames that one read completed.
  method ReadFrames(frames: seq<string>, parse: string -> Option<AnalysisEvent>,
                    delivered0: seq<Delivery>, hadResults0: bool)
    returns (delivered: seq<Delivery>, hadResults: bool)
    ensures Analysis(delivered, hadResults) == HandleFrames(Analysis(delivered0, hadResults0), frames, parse)
  {
    delivered, hadResults := delivered0, hadResults0;
    for k := 0 to |frames|
      invariant HandleFrames(Analysis(delivered0, hadResults0), frames, parse) ==
                HandleFrames(Analysis(delivered, hadResults), frames[k..], parse)
    {
      var frame := frames[k];
      assert frames[k..][0] == frame && frames[k..][1..] == frames[k + 1..];
      if !(DATA <= frame) { continue; }
      match parse(frame[|DATA|..]) {
        case Some(Warmup(ip)) => delivered := delivered + [OnWarmup(ip)];
        case Some(Measured(event)) => delivered := delivered + [OnProgress(event)];
        case Some(Measurement(Some(result))) =>
          hadResults := true;
          delivered := delivered + [OnResult(result)];
        case Some(Finish(event)) => delivered := delivered + [OnComplete(event)];
        case _ =>
      }
    }
  }
}
