/** The load generator of the revocation service: a bounded fork, a join, and a channel of indexed replies. */
module RevocationClient {
  import opened Sums

  /** `reply` is what the service answers to the request of each index; any function will do. */
  datatype Config = Config(runs: nat, concurrent: nat, trust: bool, reply: nat -> int)

  /** A request goroutine, from the permit taken for it to its report to the wait group. */
  datatype Stage = Unborn | Posting | Sending(body: int) | Releasing | Finishing | Gone

  datatype Main = Spawning(next: nat) | Joined

  datatype Signature = Signature(body: int, index: nat)

  datatype State = State(main: Main, stages: seq<Stage>, permits: nat, channel: seq<Signature>)

  datatype Label = Spawn | Join | Request(index: nat)

  function Init(c: Config): State {
    State(Spawning(0), seq(c.runs, _ => Unborn), c.concurrent, [])
  }

  predicate Can(c: Config, s: State, l: Label) {
    match l
    case Spawn => s.main.Spawning? && s.main.next < |s.stages| && s.permits > 0
    case Join =>
      s.main.Spawning? && s.main.next == |s.stages| && forall i :: 0 <= i < |s.stages| ==> s.stages[i].Gone?
    case Request(i) =>
      && i < |s.stages| && !s.stages[i].Unborn? && !s.stages[i].Gone?
      && (s.stages[i].Sending? ==> |s.channel| < c.runs)
  }

  function Next(c: Config, s: State, l: Label): State
    requires Can(c, s, l)
  {
    match l
    case Spawn =>
      s.(main := Spawning(s.main.next + 1), stages := s.stages[s.main.next := Posting], permits := s.permits - 1)
    case Join => s.(main := Joined)
    case Request(i) =>
      match s.stages[i]
      case Posting => s.(stages := s.stages[i := if c.trust then Releasing else Sending(c.reply(i))])
      case Sending(body) =>
        s.(stages := s.stages[i := Releasing], channel := s.channel + [Signature(body, i)])
      case Releasing => s.(stages := s.stages[i := Finishing], permits := s.permits + 1)
      case _ => s.(stages := s.stages[i := Gone])
  }

  function Step(c: Config, s: State, l: Label): State {
    if Can(c, s, l) then Next(c, s, l) else s
  }

  function After(c: Config, run: seq<Label>): State {
    if run == [] then Init(c) else Step(c, After(c, run[..|run| - 1]), run[|run| - 1])
  }

  // ---- the invariant

  predicate HasPermit(stage: Stage) {
    stage.Posting? || stage.Sending? || stage.Releasing?
  }

  function Holding(stages: seq<Stage>): seq<int> {
    seq(|stages|, i requires 0 <= i < |stages| => One(HasPermit(stages[i])))
  }

  function Indices(channel: seq<Signature>): seq<nat> {
    seq(|channel|, k requires 0 <= k < |channel| => channel[k].index)
  }

  predicate HasSent(stage: Stage) {
    stage.Releasing? || stage.Finishing? || stage.Gone?
  }

  ghost predicate ChannelHolds(c: Config, s: State) {
    && DistinctBelow(Indices(s.channel), |s.stages|)
    && (forall k :: 0 <= k < |s.channel| ==>
          s.channel[k].body == c.reply(s.channel[k].index) && s.channel[k].index < |s.stages|
          && HasSent(s.stages[s.channel[k].index]))
    && (if c.trust then s.channel == []
        else forall i :: 0 <= i < |s.stages| && HasSent(s.stages[i]) ==> i in Indices(s.channel))
  }

  ghost predicate StagesHold(c: Config, s: State) {
    && |s.stages| == c.runs
    && (match s.main
        case Spawning(next) =>
          next <= c.runs && forall i :: 0 <= i < c.runs ==> (s.stages[i].Unborn? <==> next <= i)
        case Joined => forall i :: 0 <= i < c.runs ==> s.stages[i].Gone?)
    && forall i :: 0 <= i < c.runs && s.stages[i].Sending? ==> !c.trust && s.stages[i].body == c.reply(i)
  }

  ghost predicate Inv(c: Config, s: State) {
    StagesHold(c, s) && ChannelHolds(c, s) && s.permits + Sum(Holding(s.stages)) == c.concurrent
  }

  lemma HoldingUpdate(stages: seq<Stage>, i: nat, stage: Stage)
    requires i < |stages|
    ensures Sum(Holding(stages[i := stage])) ==
              Sum(Holding(stages)) - One(HasPermit(stages[i])) + One(HasPermit(stage))
  {
    assert Holding(stages[i := stage]) == Holding(stages)[i := One(HasPermit(stage))];
    SumUpdate(Holding(stages), i, One(HasPermit(stage)));
  }

  lemma StepKeepsPermits(c: Config, s: State, l: Label)
    requires Can(c, s, l) && StagesHold(c, s)
    ensures Next(c, s, l).permits + Sum(Holding(Next(c, s, l).stages)) == s.permits + Sum(Holding(s.stages))
  {
    match l {
      case Spawn => HoldingUpdate(s.stages, s.main.next, Posting);
      case Join =>
      case Request(i) => HoldingUpdate(s.stages, i, Next(c, s, l).stages[i]);
    }
  }

  lemma SendKeepsChannel(c: Config, s: State, i: nat)
    requires StagesHold(c, s) && ChannelHolds(c, s) && Can(c, s, Request(i)) && s.stages[i].Sending?
    ensures ChannelHolds(c, Next(c, s, Request(i)))
  {
    var s' := Next(c, s, Request(i));
    assert Indices(s'.channel) == Indices(s.channel) + [i];
    assert i !in Indices(s.channel);
  }

  lemma StepKeepsChannel(c: Config, s: State, l: Label)
    requires StagesHold(c, s) && ChannelHolds(c, s) && Can(c, s, l)
    ensures ChannelHolds(c, Next(c, s, l))
  {
    match l {
      case Spawn =>
      case Join =>
      case Request(i) =>
        if s.stages[i].Sending? {
          SendKeepsChannel(c, s, i);
        } else {
          assert Next(c, s, l).channel == s.channel;
        }
    }
  }

  lemma StepKeepsStages(c: Config, s: State, l: Label)
    requires StagesHold(c, s) && Can(c, s, l)
    ensures StagesHold(c, Next(c, s, l))
  {
  }

  lemma InitInv(c: Config)
    ensures Inv(c, Init(c))
  {
    var idle := Holding(Init(c).stages);
    SumConst(idle, 0);
    assert |idle| * 0 == 0;
  }

  lemma StepInv(c: Config, s: State, l: Label)
    requires Inv(c, s) && Can(c, s, l)
    ensures Inv(c, Next(c, s, l))
  {
    StepKeepsStages(c, s, l);
    StepKeepsPermits(c, s, l);
    StepKeepsChannel(c, s, l);
  }

  lemma {:induction false} RunInv(c: Config, run: seq<Label>)
    ensures Inv(c, After(c, run))
  {
    if run == [] {
      InitInv(c);
    } else {
      RunInv(c, run[..|run| - 1]);
      if Can(c, After(c, run[..|run| - 1]), run[|run| - 1]) {
        StepInv(c, After(c, run[..|run| - 1]), run[|run| - 1]);
      }
    }
  }

  // ---- the theorems

  /** Permits are conserved, so no more requests than allowed are ever open. */
  lemma BoundedRequests(c: Config, run: seq<Label>)
    ensures After(c, run).permits + Sum(Holding(After(c, run).stages)) == c.concurrent
    ensures Sum(Holding(After(c, run).stages)) <= c.concurrent
  {
    RunInv(c, run);
  }

  /** The channel always has room for a reply, although nobody receives before the join. */
  lemma SendNeverBlocks(c: Config, run: seq<Label>, i: nat)
    requires i < |After(c, run).stages| && After(c, run).stages[i].Sending?
    ensures Can(c, After(c, run), Request(i))
  {
    var s := After(c, run);
    RunInv(c, run);
    LogBound(Indices(s.channel), c.runs);
    assert i !in Indices(s.channel);
  }

  /** And nothing is sent without room, in any state. */
  lemma SendsFit(c: Config, s: State, l: Label)
    requires Can(c, s, l) && |s.channel| <= c.runs
    ensures |Next(c, s, l).channel| <= c.runs
  {
    match l {
      case Spawn =>
      case Join =>
      case Request(i) => match s.stages[i] { case _ => }
    }
  }

  /** At the join every request has reported, all permits are back and, unless the client trusts the service,
      the channel holds exactly one reply for every index, each the reply to the request of that index: the
      verification that follows gets the number of signatures it waits for, each with its own key. */
  lemma JoinCollectsEverything(c: Config, run: seq<Label>, i: nat)
    requires After(c, run).main.Joined? && i < c.runs
    ensures var s := After(c, run);
      && s.permits == c.concurrent
      && (forall j :: 0 <= j < |s.stages| ==> s.stages[j].Gone?)
      && |s.channel| == (if c.trust then 0 else c.runs)
      && (!c.trust ==>
            && (exists k :: 0 <= k < |s.channel| && s.channel[k] == Signature(c.reply(i), i))
            && forall k, m :: 0 <= k < m < |s.channel| ==> s.channel[k].index != s.channel[m].index)
  {
    var s := After(c, run);
    RunInv(c, run);
    SumConst(Holding(s.stages), 0);
    assert |s.stages| * 0 == 0;
    if !c.trust {
      ChannelIsFull(c, s, i);
    }
  }

  lemma ChannelIsFull(c: Config, s: State, i: nat)
    requires |s.stages| == c.runs && ChannelHolds(c, s) && !c.trust && i < c.runs
    requires forall j :: 0 <= j < c.runs ==> s.stages[j].Gone?
    ensures |s.channel| == c.runs
    ensures exists k :: 0 <= k < |s.channel| && s.channel[k] == Signature(c.reply(i), i)
    ensures forall k, m :: 0 <= k < m < |s.channel| ==> s.channel[k].index != s.channel[m].index
  {
    var indices := Indices(s.channel);
    LogBound(indices, c.runs);
    assert i in indices;
    var k :| 0 <= k < |s.channel| && indices[k] == i;
    assert s.channel[k] == Signature(c.reply(i), i);
    forall k, m | 0 <= k < m < |s.channel| ensures s.channel[k].index != s.channel[m].index {
      assert indices[k] != indices[m];
    }
  }

  ghost predicate Stuck(c: Config, s: State) {
    forall l :: !Can(c, s, l)
  }

  /** A run that can go no further has joined, exactly when there was a permit to hand out or nothing to do. */
  lemma JoinsIff(c: Config, run: seq<Label>)
    requires Stuck(c, After(c, run))
    ensures After(c, run).main.Joined? <==> c.concurrent > 0 || c.runs == 0
  {
    var s := After(c, run);
    RunInv(c, run);
    forall i | 0 <= i < |s.stages| ensures s.stages[i].Unborn? || s.stages[i].Gone? {
      assert !Can(c, s, Request(i));
      if s.stages[i].Sending? {
        SendNeverBlocks(c, run, i);
      }
    }
    SumConst(Holding(s.stages), 0);
    assert |s.stages| * 0 == 0;
    assert !Can(c, s, Spawn) && !Can(c, s, Join);
    if c.concurrent == 0 && c.runs > 0 {
      SomebodyHadPermit(c, run);
    }
  }

  /** Without permits nothing is ever spawned. */
  lemma {:induction false} SomebodyHadPermit(c: Config, run: seq<Label>)
    requires c.runs > 0 && c.concurrent == 0
    ensures After(c, run) == Init(c)
  {
    if run != [] {
      SomebodyHadPermit(c, run[..|run| - 1]);
    }
  }

  // ---- termination

  function StageWork(stage: Stage): int {
    match stage
    case Unborn => 5
    case Posting => 4
    case Sending(_) => 3
    case Releasing => 2
    case Finishing => 1
    case Gone => 0
  }

  function Works(stages: seq<Stage>): seq<int> {
    seq(|stages|, i requires 0 <= i < |stages| => StageWork(stages[i]))
  }

  function Work(s: State): int {
    Sum(Works(s.stages)) + One(!s.main.Joined?)
  }

  /** How many of the labels of the run were steps. */
  function Moves(c: Config, run: seq<Label>): nat {
    if run == [] then 0
    else Moves(c, run[..|run| - 1]) + One(Can(c, After(c, run[..|run| - 1]), run[|run| - 1]))
  }

  lemma StepWorks(c: Config, s: State, l: Label)
    requires StagesHold(c, s) && Can(c, s, l)
    ensures Work(Next(c, s, l)) < Work(s)
  {
    match l {
      case Join =>
      case Spawn =>
        assert Works(Next(c, s, l).stages) == Works(s.stages)[s.main.next := 4];
        SumUpdate(Works(s.stages), s.main.next, 4);
      case Request(i) =>
        var work := StageWork(Next(c, s, l).stages[i]);
        assert Works(Next(c, s, l).stages) == Works(s.stages)[i := work];
        SumUpdate(Works(s.stages), i, work);
    }
  }

  /** No run has more than five steps per request and the join. */
  lemma {:induction false} ClientTerminates(c: Config, run: seq<Label>)
    ensures Moves(c, run) + Work(After(c, run)) <= 5 * c.runs + 1
    ensures Moves(c, run) <= 5 * c.runs + 1
  {
    if run == [] {
      SumConst(Works(Init(c).stages), 5);
    } else {
      var s, l := After(c, run[..|run| - 1]), run[|run| - 1];
      RunInv(c, run[..|run| - 1]);
      ClientTerminates(c, run[..|run| - 1]);
      if Can(c, s, l) {
        StepWorks(c, s, l);
      }
    }
    SumNonNegative(Works(After(c, run).stages));
  }
}
