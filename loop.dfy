/** The nag loop of `main` (src/gpt-nagger.ts:36-71): nag, record, check the
    break flag, sleep, repeat, with a SIGINT handler that sets the flag the
    first time and exits with status 1 the second time. The outside world of
    one iteration (the screenshot, the chat reply, the clock, the signals
    that arrive) is given as a `Round`. */
module Loop {
  import opened Js
  import opened Config
  import opened History
  import opened Sentinel
  import opened NagStep

  /** Where control is.
      Polling: in the loop body (or at its test), not waiting on the timer.
      Sleeping: waiting for the interval timer.
      Stalled: the timer was cleared while sleeping, so the wait never ends.
      Broken: `main` left the loop and returned.
      Exited: `process.exit` was called with this status. */
  datatype Phase = Polling | Sleeping | Stalled | Broken | Exited(status: int)

  datatype LoopState = LoopState(breakTriggered: bool, phase: Phase, history: seq<Nag>, log: seq<Effect>)

  /** The state when `main` starts. */
  const START := LoopState(false, Polling, [], [])

  /** The SIGINT handler (src/gpt-nagger.ts:40-48): clear the pending timer
      (which strands a sleeping loop), then set the flag, or exit with
      status 1 if it was already set. A process that has exited receives
      nothing. */
  function OnSigint(s: LoopState): LoopState
  {
    if s.phase.Exited? then s
    else
      var phase := if s.phase.Sleeping? then Stalled else s.phase;
      if !s.breakTriggered then s.(breakTriggered := true, phase := phase)
      else s.(phase := Exited(1))
  }

  /** The state after `k` signals. */
  function Deliver(s: LoopState, k: nat): LoopState
  {
    if k == 0 then s else OnSigint(Deliver(s, k - 1))
  }

  /** The first signal only sets the flag (and strands a sleep); every later
      one ends the process with status 1. Neither touches the history or the
      calls made. */
  lemma {:induction false} DeliverSpec(s: LoopState, k: nat)
    requires !s.phase.Exited? && !s.breakTriggered
    ensures var t := Deliver(s, k);
      && t.history == s.history && t.log == s.log
      && (k == 0 ==> t == s)
      && (k == 1 ==> t.breakTriggered && t.phase == (if s.phase.Sleeping? then Stalled else s.phase))
      && (k >= 2 ==> t.phase == Exited(1))
  {
    if k > 0 {
      DeliverSpec(s, k - 1);
    }
  }

  /** What the world does during one iteration: the base64 encoding of the
      captured screenshot, the chat model's reply, the relative-time label
      stamped on replayed nags, the clock when the nag is recorded, and how
      many SIGINTs arrive while the nag runs and while the loop sleeps. */
  datatype Round = Round(base64: string, reply: string, ago: string, date: int,
                         nagSignals: nat, sleepSignals: nat)

  /** One pass through the loop body, entered with the flag clear. Signals
      that arrive while the nag runs take effect when it returns. */
  function Iterate(s: LoopState, cfg: Config, r: Round): LoopState
  {
    var o := PerformNag(cfg, s.history, r.base64, r.reply, r.ago);
    var nagged := Deliver(s.(log := s.log + o.effects), r.nagSignals);
    if nagged.phase.Exited? then nagged
    else
      var recorded := nagged.(history := Record(nagged.history, o.text, o.screenshotDataUri, r.date));
      if recorded.breakTriggered then recorded.(phase := Broken)
      else
        var slept := Deliver(recorded.(phase := Sleeping, log := recorded.log + [Sleep(INTERVAL)]), r.sleepSignals);
        if slept.phase.Sleeping? then slept.(phase := Polling) else slept
  }

  /** The loop over the rounds of `world`, for as long as it keeps going. */
  function Run(s: LoopState, cfg: Config, world: seq<Round>): LoopState
    decreases |world|
  {
    if !s.phase.Polling? then s
    else if s.breakTriggered then s.(phase := Broken)
    else if world == [] then s
    else Run(Iterate(s, cfg, world[0]), cfg, world[1..])
  }

  /** What holds between iterations: at most three records, all spoken; the
      flag is clear while the loop runs or sleeps, and set once it is
      stranded or has left. */
  predicate Inv(s: LoopState)
  {
    && |s.history| <= CAPACITY
    && AllSpoken(s.history)
    && (s.phase.Polling? || s.phase.Sleeping? ==> !s.breakTriggered)
    && (s.phase.Stalled? || s.phase.Broken? ==> s.breakTriggered)
  }

  /** The outcome of one iteration. Two signals during the nag end the
      process before anything is recorded. One signal during the nag lets
      the nag be recorded and then leaves the loop without sleeping. With
      no signal during the nag, the nag is recorded and the loop sleeps for
      the interval: it carries on if no signal comes, is stranded by one and
      exits with status 1 on a second. */
  lemma IterateSpec(s: LoopState, cfg: Config, r: Round)
    requires Inv(s) && s.phase.Polling?
    ensures var o := PerformNag(cfg, s.history, r.base64, r.reply, r.ago);
      var t := Iterate(s, cfg, r);
      var recorded := Record(s.history, o.text, o.screenshotDataUri, r.date);
      && (r.nagSignals >= 2 ==>
            t.phase == Exited(1) && t.history == s.history && t.log == s.log + o.effects)
      && (r.nagSignals == 1 ==>
            t.phase == Broken && t.history == recorded && t.log == s.log + o.effects)
      && (r.nagSignals == 0 ==>
            && t.history == recorded
            && t.log == s.log + o.effects + [Sleep(INTERVAL)]
            && t.phase == (if r.sleepSignals == 0 then Polling
                           else if r.sleepSignals == 1 then Stalled
                           else Exited(1)))
  {
    var o := PerformNag(cfg, s.history, r.base64, r.reply, r.ago);
    var asked := s.(log := s.log + o.effects);
    DeliverSpec(asked, r.nagSignals);
    if r.nagSignals == 0 {
      var nagged := Deliver(asked, 0);
      var recorded := nagged.(history := Record(nagged.history, o.text, o.screenshotDataUri, r.date));
      DeliverSpec(recorded.(phase := Sleeping, log := recorded.log + [Sleep(INTERVAL)]), r.sleepSignals);
    }
  }

  /** Every iteration keeps the invariant. */
  lemma IterateKeepsInv(s: LoopState, cfg: Config, r: Round)
    requires Inv(s) && s.phase.Polling?
    ensures Inv(Iterate(s, cfg, r))
  {
    var o := PerformNag(cfg, s.history, r.base64, r.reply, r.ago);
    IterateSpec(s, cfg, r);
    RecordSpec(s.history, o.text, o.screenshotDataUri, r.date);
    RecordKeepsSpoken(s.history, o.text, o.screenshotDataUri, r.date);
    var asked := s.(log := s.log + o.effects);
    DeliverSpec(asked, r.nagSignals);
    if r.nagSignals == 0 {
      var recorded := asked.(history := Record(asked.history, o.text, o.screenshotDataUri, r.date));
      DeliverSpec(recorded.(phase := Sleeping, log := recorded.log + [Sleep(INTERVAL)]), r.sleepSignals);
    }
  }

  /** The loop keeps the invariant however the world behaves: in
      particular the history never holds more than three records. */
  lemma {:induction false} RunKeepsInv(s: LoopState, cfg: Config, world: seq<Round>)
    requires Inv(s)
    ensures Inv(Run(s, cfg, world))
    decreases |world|
  {
    if s.phase.Polling? && !s.breakTriggered && world != [] {
      IterateKeepsInv(s, cfg, world[0]);
      RunKeepsInv(Iterate(s, cfg, world[0]), cfg, world[1..]);
    }
  }

  /** Once a signal has arrived in a round, the loop starts no further nag:
      the rest of the world is never consulted. */
  lemma NoNagAfterSignal(s: LoopState, cfg: Config, r: Round, rest: seq<Round>)
    requires Inv(s) && s.phase.Polling?
    requires r.nagSignals > 0 || r.sleepSignals > 0
    ensures Run(s, cfg, [r] + rest) == Iterate(s, cfg, r)
  {
    IterateSpec(s, cfg, r);
    assert ([r] + rest)[1..] == rest;
  }

  /** What the nag of round `r` hands back to the loop for the history. */
  function Result(r: Round): (Option<string>, string, int)
  {
    (if Test(r.reply) then None else Some(r.reply), EncodeImage(r.base64), r.date)
  }

  function Results(world: seq<Round>): (rs: seq<(Option<string>, string, int)>)
    ensures |rs| == |world|
    ensures forall k :: 0 <= k < |world| ==> rs[k] == Result(world[k])
  {
    seq(|world|, k requires 0 <= k < |world| => Result(world[k]))
  }

  lemma ResultsAppend(a: seq<Round>, b: seq<Round>)
    ensures Results(a + b) == Results(a) + Results(b)
  {
  }

  /** One iteration records its nag's result unless two signals ended the
      process first. */
  lemma IterateRecords(s: LoopState, cfg: Config, r: Round)
    requires Inv(s) && s.phase.Polling?
    ensures r.nagSignals >= 2 ==> Iterate(s, cfg, r).history == s.history
    ensures r.nagSignals < 2 ==>
      Iterate(s, cfg, r).history == KeepLast(s.history + Fired(Results([r])), CAPACITY)
  {
    IterateSpec(s, cfg, r);
    NagResult(cfg, s.history, r.base64, r.reply, r.ago);
    var (text, screenshot, date) := Result(r);
    RecordIsFired(s.history, text, screenshot, date);
    assert Results([r]) == [Result(r)];
  }

  /** The history is always the last three of the nags that fired, in the
      order they fired, over the rounds that were recorded: whatever the
      signals, some prefix of the world was recorded and nothing else. */
  lemma {:induction false} RunHistory(s: LoopState, cfg: Config, world: seq<Round>)
    requires Inv(s)
    ensures exists k :: 0 <= k <= |world| && Run(s, cfg, world).history == RecordedUpTo(s.history, world, k)
    decreases |world|
  {
    if !s.phase.Polling? || s.breakTriggered || world == [] || world[0].nagSignals >= 2 {
      if s.phase.Polling? && !s.breakTriggered && world != [] {
        IterateRecords(s, cfg, world[0]);
        IterateSpec(s, cfg, world[0]);
      }
      NothingRecorded(s.history, world);
      assert Run(s, cfg, world).history == RecordedUpTo(s.history, world, 0);
    } else {
      var t := Iterate(s, cfg, world[0]);
      IterateKeepsInv(s, cfg, world[0]);
      IterateRecords(s, cfg, world[0]);
      RunHistory(t, cfg, world[1..]);
      var k :| 0 <= k <= |world| - 1 && Run(t, cfg, world[1..]).history == RecordedUpTo(t.history, world[1..], k);
      RecordedStep(s.history, world, k);
      assert Run(s, cfg, world).history == RecordedUpTo(s.history, world, k + 1);
    }
  }

  /** The history that results from `history` once the first `k` rounds of
      `world` have been recorded. */
  function RecordedUpTo(history: seq<Nag>, world: seq<Round>, k: nat): seq<Nag>
    requires k <= |world|
  {
    KeepLast(history + Fired(Results(world[..k])), CAPACITY)
  }

  lemma NothingRecorded(history: seq<Nag>, world: seq<Round>)
    requires |history| <= CAPACITY
    ensures RecordedUpTo(history, world, 0) == history
  {
    assert world[..0] == [];
    assert history + Fired(Results(world[..0])) == history;
  }

  lemma RecordedStep(history: seq<Nag>, world: seq<Round>, k: nat)
    requires |world| > 0 && k < |world|
    ensures RecordedUpTo(KeepLast(history + Fired(Results([world[0]])), CAPACITY), world[1..], k)
         == RecordedUpTo(history, world, k + 1)
  {
    var rest := world[1..];
    var first := history + Fired(Results([world[0]]));
    var later := Fired(Results(rest[..k]));
    assert RecordedUpTo(KeepLast(first, CAPACITY), rest, k) == KeepLast(first + later, CAPACITY) by {
      KeepLastConcat(first, later, CAPACITY);
    }
    assert Fired(Results(world[..k + 1])) == Fired(Results([world[0]])) + later by {
      assert world[..k + 1] == [world[0]] + rest[..k];
      ResultsAppend([world[0]], rest[..k]);
      FiredAppend(Results([world[0]]), Results(rest[..k]));
    }
    assert history + Fired(Results(world[..k + 1])) == first + later;
  }

  /** A round in which no signal arrives. */
  predicate Quiet(r: Round)
  {
    r.nagSignals == 0 && r.sleepSignals == 0
  }

  /** How many rounds get a reply that is not the all-clear. */
  function Reprimands(world: seq<Round>): (n: nat)
    ensures n <= |world|
  {
    if world == [] then 0
    else (if Test(world[0].reply) then 0 else 1) + Reprimands(world[1..])
  }

  /** Left alone, the loop nags every round: it keeps running, its history
      is the last three of all the nags that fired, and it has spoken once
      per reply that was not the all-clear. */
  lemma {:induction false} QuietRun(s: LoopState, cfg: Config, world: seq<Round>)
    requires Inv(s) && s.phase.Polling?
    requires forall k :: 0 <= k < |world| ==> Quiet(world[k])
    ensures var t := Run(s, cfg, world);
      && t.phase.Polling? && !t.breakTriggered
      && t.history == RecordedUpTo(s.history, world, |world|)
      && SpeechCount(t.log) == SpeechCount(s.log) + Reprimands(world)
    decreases |world|
  {
    if world == [] {
      NothingRecorded(s.history, world);
    } else {
      var t := Iterate(s, cfg, world[0]);
      QuietIterate(s, cfg, world[0]);
      IterateKeepsInv(s, cfg, world[0]);
      IterateRecords(s, cfg, world[0]);
      QuietRun(t, cfg, world[1..]);
      RecordedStep(s.history, world, |world| - 1);
      assert world[1..][..|world| - 1] == world[1..];
    }
  }

  /** The loop's history after `k` rounds is the history that recording
      their results in turn would leave. */
  lemma RecordedIsRecordAll(history: seq<Nag>, world: seq<Round>, k: nat)
    requires |history| <= CAPACITY && k <= |world|
    ensures RecordedUpTo(history, world, k) == RecordAll(history, Results(world[..k]))
  {
    RecordAllKeepsRecent(history, Results(world[..k]));
  }

  /** An empty reply is not the all-clear, so it is spoken; but it is falsy,
      so it is not kept. */
  lemma EmptyReplySpokenNotKept(s: LoopState, cfg: Config, r: Round)
    requires Inv(s) && s.phase.Polling? && Quiet(r) && r.reply == ""
    ensures Iterate(s, cfg, r).history == s.history
    ensures SpeechCount(Iterate(s, cfg, r).log) == SpeechCount(s.log) + 1
  {
    assert !Test(r.reply);
    QuietIterate(s, cfg, r);
    IterateSpec(s, cfg, r);
    NagResult(cfg, s.history, r.base64, r.reply, r.ago);
  }

  /** A quiet round leaves the loop running and has spoken once unless the
      reply was the all-clear. */
  lemma QuietIterate(s: LoopState, cfg: Config, r: Round)
    requires Inv(s) && s.phase.Polling? && Quiet(r)
    ensures Iterate(s, cfg, r).phase.Polling?
    ensures SpeechCount(Iterate(s, cfg, r).log) == SpeechCount(s.log) + (if Test(r.reply) then 0 else 1)
  {
    var o := PerformNag(cfg, s.history, r.base64, r.reply, r.ago);
    IterateSpec(s, cfg, r);
    SpeechCountAppend(s.log, o.effects);
    SpeechCountAppend(s.log + o.effects, [Sleep(INTERVAL)]);
    SpeaksUnlessAllClear(cfg, s.history, r.base64, r.reply, r.ago);
    assert SpeechCount([Sleep(INTERVAL)]) == 0;
  }

  /** If every reply is exactly "Good boy", the history stays empty and
      nothing is ever spoken. */
  lemma GoodBoyEveryRound(cfg: Config, world: seq<Round>)
    requires forall k :: 0 <= k < |world| ==> Quiet(world[k]) && world[k].reply == "Good boy"
    ensures Run(START, cfg, world).history == []
    ensures SpeechCount(Run(START, cfg, world).log) == 0
  {
    QuietRun(START, cfg, world);
    AllClearRecognised();
    NoReprimands(world);
    NothingFires(world);
    assert world[..|world|] == world;
    assert START.history + Fired(Results(world)) == [];
  }

  lemma {:induction false} NoReprimands(world: seq<Round>)
    requires forall k :: 0 <= k < |world| ==> Test(world[k].reply)
    ensures Reprimands(world) == 0
  {
    if world != [] {
      NoReprimands(world[1..]);
    }
  }

  lemma {:induction false} NothingFires(world: seq<Round>)
    requires forall k :: 0 <= k < |world| ==> Test(world[k].reply)
    ensures Fired(Results(world)) == []
    decreases |world|
  {
    if world != [] {
      var init := world[..|world| - 1];
      NothingFires(init);
      assert Results(world)[..|world| - 1] == Results(init);
    }
  }

  /** If every reply is the same reprimand, then after three or more rounds
      the history holds three records of it, dated by the last three rounds,
      and it has been spoken once per round. */
  lemma SameReprimandEveryRound(cfg: Config, world: seq<Round>, text: string)
    requires text != "" && !Test(text)
    requires |world| >= 3
    requires forall k :: 0 <= k < |world| ==> Quiet(world[k]) && world[k].reply == text
    ensures var t := Run(START, cfg, world);
      && |t.history| == 3
      && (forall k :: 0 <= k < 3 ==>
            t.history[k].text == text && t.history[k].date == world[|world| - 3 + k].date)
      && SpeechCount(t.log) == |world|
  {
    QuietRun(START, cfg, world);
    AllReprimands(world, text);
    RecordedSame(world, text);
  }

  /** Recording the same reprimand every round leaves the last three. */
  lemma RecordedSame(world: seq<Round>, text: string)
    requires text != "" && !Test(text)
    requires |world| >= 3
    requires forall k :: 0 <= k < |world| ==> world[k].reply == text
    ensures var h := RecordedUpTo([], world, |world|);
      && |h| == 3
      && forall k :: 0 <= k < 3 ==> h[k].text == text && h[k].date == world[|world| - 3 + k].date
  {
    var fired := Fired(Results(world));
    assert RecordedUpTo([], world, |world|) == KeepLast(fired, CAPACITY) by {
      assert world[..|world|] == world;
      assert [] + fired == fired;
    }
    AllFire(world, text);
    LastThree(fired, world, text);
  }

  lemma LastThree(fired: seq<Nag>, world: seq<Round>, text: string)
    requires |fired| == |world| >= 3
    requires forall k :: 0 <= k < |world| ==> fired[k].text == text && fired[k].date == world[k].date
    ensures var h := KeepLast(fired, CAPACITY);
      && |h| == 3
      && forall k :: 0 <= k < 3 ==> h[k].text == text && h[k].date == world[|world| - 3 + k].date
  {
    var h := KeepLast(fired, CAPACITY);
    forall k | 0 <= k < 3
      ensures h[k].text == text && h[k].date == world[|world| - 3 + k].date
    {
      assert h[k] == fired[|world| - 3 + k];
    }
  }

  lemma {:induction false} AllReprimands(world: seq<Round>, text: string)
    requires !Test(text)
    requires forall k :: 0 <= k < |world| ==> world[k].reply == text
    ensures Reprimands(world) == |world|
  {
    if world != [] {
      AllReprimands(world[1..], text);
    }
  }

  lemma {:induction false} AllFire(world: seq<Round>, text: string)
    requires text != "" && !Test(text)
    requires forall k :: 0 <= k < |world| ==> world[k].reply == text
    ensures |Fired(Results(world))| == |world|
    ensures forall k :: 0 <= k < |world| ==>
      Fired(Results(world))[k].text == text && Fired(Results(world))[k].date == world[k].date
    decreases |world|
  {
    if world != [] {
      var init := world[..|world| - 1];
      AllFire(init, text);
      assert Results(world)[..|world| - 1] == Results(init);
    }
  }

  /** The running program: the fields `main` keeps in local variables and
      the log of the calls it has made. */
  class Nagger {
    var breakTriggered: bool
    var phase: Phase
    var previousNags: seq<Nag>
    var log: seq<Effect>

    function State(): LoopState
      reads this
    {
      LoopState(breakTriggered, phase, previousNags, log)
    }

    constructor ()
      ensures State() == START
    {
      breakTriggered, phase, previousNags, log := false, Polling, [], [];
    }

    /** The SIGINT handler. */
    method Sigint()
      modifies this
      ensures State() == OnSigint(old(State()))
    {
      if phase.Exited? {
        return;
      }
      if phase.Sleeping? {
        phase := Stalled;
      }
      if !breakTriggered {
        breakTriggered := true;
      } else {
        phase := Exited(1);
      }
    }

    /** The runtime invokes the handler once per signal. */
    method DeliverSignals(k: nat)
      modifies this
      ensures State() == Deliver(old(State()), k)
    {
      for i := 0 to k
        invariant State() == Deliver(old(State()), i)
      {
        Sigint();
      }
    }

    /** src/gpt-nagger.ts:56-61: push the nag if its text is truthy, then
        keep the last three. */
    method RecordNag(text: Option<string>, screenshot: string, date: int)
      modifies this`previousNags
      ensures previousNags == Record(old(previousNags), text, screenshot, date)
    {
      if text.Some? && text.value != "" {
        previousNags := previousNags + [Nag(date, text.value, screenshot)];
        if |previousNags| > CAPACITY {
          previousNags := previousNags[|previousNags| - CAPACITY..];
        }
      }
    }

    /** `main`'s loop, over the rounds of `world`. */
    method MainLoop(cfg: Config, world: seq<Round>)
      modifies this
      ensures State() == Run(old(State()), cfg, world)
    {
      var i := 0;
      while i < |world| && phase.Polling? && !breakTriggered
        invariant 0 <= i <= |world|
        invariant Run(State(), cfg, world[i..]) == Run(old(State()), cfg, world)
      {
        var r := world[i];
        ghost var before := State();
        var o := PerformNag(cfg, previousNags, r.base64, r.reply, r.ago);
        log := log + o.effects;
        DeliverSignals(r.nagSignals);
        if !phase.Exited? {
          RecordNag(o.text, o.screenshotDataUri, r.date);
          if breakTriggered {
            phase := Broken;
          } else {
            phase := Sleeping;
            log := log + [Sleep(INTERVAL)];
            DeliverSignals(r.sleepSignals);
            if phase.Sleeping? {
              phase := Polling;
            }
          }
        }
        assert State() == Iterate(before, cfg, r);
        assert world[i..][1..] == world[i + 1..];
        i := i + 1;
      }
      if phase.Polling? && breakTriggered {
        phase := Broken;
      }
    }
  }
}
