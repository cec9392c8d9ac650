/** Bounded capture of child streams, and the two ways the kernel judges a child by
    what its capture threads report. */
module Capture {
  import opened Basics

  /** The first `limit` bytes, or all of them. */
  function Kept(s: string, limit: nat): string { if |s| <= limit then s else s[..limit] }

  lemma KeptAppends(s: string, more: string, limit: nat)
    ensures var kept := Kept(s, limit);
            var room := limit - |kept|;
            && room >= 0
            && Kept(s + more, limit) == kept + (if |more| <= room then more else more[..room])
            && (|s + more| > limit <==> |s| > limit || |more| > room)
  {
  }

  /** `capture` and `capture_stream`: however the stream is cut into reads, the result is
      its first `limit` bytes and the flag says whether there were more. */
  method CaptureStream(chunks: seq<Chunk>, limit: nat) returns (captured: string, exceeded: bool)
    ensures captured == Kept(Concat(chunks), limit) && (exceeded <==> |Concat(chunks)| > limit)
  {
    captured, exceeded := "", false;
    var i := 0;
    while i < |chunks|
      invariant 0 <= i <= |chunks|
      invariant captured == Kept(Concat(chunks[..i]), limit) && (exceeded <==> |Concat(chunks[..i])| > limit)
    {
      var buffer := chunks[i];
      KeptAppends(Concat(chunks[..i]), buffer, limit);
      assert chunks[..i + 1] == chunks[..i] + [buffer];
      ConcatSnoc(chunks[..i], buffer);
      var remaining := limit - |captured|;
      var admitted := if |buffer| <= remaining then |buffer| else remaining;
      captured := captured + buffer[..admitted];
      if admitted < |buffer| { exceeded := true; }
      i := i + 1;
    }
    assert chunks[..i] == chunks;
  }

  lemma NothingLost(s: string, limit: nat)
    ensures Kept(s, limit) == s <==> |s| <= limit
  {
  }

  // ------------------------------------------------------- waiting for a child

  /** One look at the child: its exit status, the two overflow flags, the clock. */
  datatype Poll = Poll(status: Option<int>, outFlag: bool, errFlag: bool, expired: bool)

  datatype Ending = Exited(status: int) | StdoutLimit | StderrLimit | TimedOut | StillRunning

  /** Both wait loops look at the exit status first, then at the flags, then at the clock. */
  function Ended(polls: seq<Poll>): Ending {
    if polls == [] then StillRunning
    else
      var p := polls[0];
      if p.status.Some? then Exited(p.status.value)
      else if p.outFlag then StdoutLimit
      else if p.errFlag then StderrLimit
      else if p.expired then TimedOut
      else Ended(polls[1..])
  }

  method WaitForTerminal(polls: seq<Poll>) returns (ending: Ending)
    ensures ending == Ended(polls)
  {
    var i := 0;
    assert polls[0..] == polls;
    while i < |polls|
      invariant 0 <= i <= |polls| && Ended(polls) == Ended(polls[i..])
    {
      var p := polls[i];
      if p.status.Some? { return Exited(p.status.value); }
      if p.outFlag { return StdoutLimit; }
      if p.errFlag { return StderrLimit; }
      if p.expired { return TimedOut; }
      assert polls[i..][1..] == polls[i + 1..];
      i := i + 1;
    }
    ending := StillRunning;
  }

  datatype Output = Output(status: int, stdout: string, stderr: string)
  datatype GitError = DeadlineExceeded | StreamLimitExceeded

  /** A flag seen while waiting was raised by a capture that had already gone over. */
  predicate FlagsAreReal(polls: seq<Poll>, out: seq<Chunk>, err: seq<Chunk>, limit: nat) {
    forall i :: 0 <= i < |polls| ==>
      (polls[i].outFlag ==> |Concat(out)| > limit) && (polls[i].errFlag ==> |Concat(err)| > limit)
  }

  /** `run_with_environment` from its wait loop on. The flags are read again after both
      captures have been joined, so an answer of Ok holds the whole of both streams. */
  method RunGit(polls: seq<Poll>, out: seq<Chunk>, err: seq<Chunk>, limit: nat)
    returns (result: Result<Output, GitError>)
    requires !Ended(polls).StillRunning? && FlagsAreReal(polls, out, err, limit)
    ensures result.Ok? ==> Ended(polls) == Exited(result.value.status) && result.value.stdout == Concat(out) && result.value.stderr == Concat(err)
    ensures result.Ok? <==> Ended(polls).Exited? && |Concat(out)| <= limit && |Concat(err)| <= limit
    ensures result == Err(DeadlineExceeded) <==> Ended(polls) == TimedOut
  {
    var ending := WaitForTerminal(polls);
    var stdout, outLimited := CaptureStream(out, limit);
    var stderr, errLimited := CaptureStream(err, limit);
    if ending == TimedOut { return Err(DeadlineExceeded); }
    if ending == StdoutLimit || ending == StderrLimit || outLimited || errLimited { return Err(StreamLimitExceeded); }
    NothingLost(Concat(out), limit);
    NothingLost(Concat(err), limit);
    result := Ok(Output(ending.status, stdout, stderr));
  }

  /** The command runner judges by the wait loop alone: after an exit it reports whatever
      was captured. That is everything exactly when neither stream went over its limit. */
  method RunCommand(polls: seq<Poll>, out: seq<Chunk>, err: seq<Chunk>, outLimit: nat, errLimit: nat)
    returns (ending: Ending, stdout: string, stderr: string)
    ensures ending == Ended(polls)
    ensures stdout == Kept(Concat(out), outLimit) && stderr == Kept(Concat(err), errLimit)
    ensures stdout == Concat(out) && stderr == Concat(err) <==> |Concat(out)| <= outLimit && |Concat(err)| <= errLimit
  {
    ending := WaitForTerminal(polls);
    var outLimited, errLimited;
    stdout, outLimited := CaptureStream(out, outLimit);
    stderr, errLimited := CaptureStream(err, errLimit);
    NothingLost(Concat(out), outLimit);
    NothingLost(Concat(err), errLimit);
  }

  /** A child that writes too much and exits before the next look ends as an exit with a
      truncated stream; the same child run through Git custody is refused. */
  lemma ExitHidesOverflow()
    ensures var polls := [Poll(Some(0), false, false, false)];
            Ended(polls) == Exited(0) && Kept(Concat(["ab"]), 1) != Concat(["ab"])
  {
    assert ["ab"][1..] == [];
  }
}
