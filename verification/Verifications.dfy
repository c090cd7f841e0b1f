/** How many identity checks of a finished simulation go through the full proof verification: each peer keeps a
    cache for each of its operations, and a check whose key is in its cache verifies nothing. */
module Verifications {
  import opened Sums
  import E = Endorsers
  import opened Events
  import opened Protocol
  import opened Invariant
  import opened Budgets
  import opened Guarantees
  import opened Runs
  import opened Theorems
  import P = Preservation

  datatype Operation = ForEndorsement | ForOrdering | ForValidation

  /** The cache that is asked, a peer's for one operation, and the transaction whose author is checked. */
  datatype Target = Target(op: Operation, peer: nat, tx: nat)

  datatype Look = NoLook | Look(target: Target, hit: bool)

  /** The identity check that a step makes. */
  ghost function LookOf(c: Config, s: State, l: Label): Look
    requires Shape(c, s) && Enabled(c, s, l)
  {
    match l
    case Endorser(n, slot, hit) =>
      if s.txs[n].endorse[slot] == Working(1) || s.txs[n].endorse[slot] == Working(2) then
        Look(Target(ForEndorsement, EndorserAt(c, n, slot), n), hit)
      else NoLook
    case Orderer(n, hit) =>
      if s.txs[n].order == Working(0) then Look(Target(ForOrdering, OrdererOf(c, n), n), hit) else NoLook
    case Validator(n, p, hit) =>
      if s.txs[n].validate[p] == Working(2) then Look(Target(ForValidation, p, n), hit) else NoLook
    case _ => NoLook
  }

  /** The checks of a run that went through the full verification, in order. */
  ghost function Verified(c: Config, run: Run): seq<Target>
    requires Feasible(c, run)
  {
    if run == [] then []
    else
      Verified(c, Front(run))
      + match LookOf(c, After(c, Front(run)), Last(run))
        case Look(target, false) => [target]
        case _ => []
  }

  /** A hit finds a key that is in the cache because a check of the same cache verified it before; which
      appends are lost, and so which checks hit, is left open. */
  ghost predicate Earned<Key>(c: Config, run: Run, key: nat -> Key)
    requires Feasible(c, run)
  {
    run != [] ==>
      && Earned(c, Front(run), key)
      && match LookOf(c, After(c, Front(run)), Last(run))
         case Look(target, true) => Cached(Verified(c, Front(run)), target, key)
         case _ => true
  }

  ghost predicate Cached<Key>(verified: seq<Target>, target: Target, key: nat -> Key) {
    exists t :: t in verified && t.op == target.op && t.peer == target.peer && key(t.tx) == key(target.tx)
  }

  /** No two transactions have the same key. */
  ghost predicate OneToOne<Key>(key: nat -> Key, n: nat) {
    forall i, j :: 0 <= i < j < n ==> key(i) != key(j)
  }

  // ---- what is recorded

  lemma BuildVerifiesNothing(c: Config)
    ensures BuildEvents(c)[Crypto(CredVerify)] == 0
  {
    if c.revoke { if c.audit {} else {} } else { if c.audit {} else {} }
  }

  lemma UserVerifiesNothing(c: Config, s: State, n: nat)
    requires Shape(c, s) && UserCan(c, s, n)
    ensures UserStep(c, s, n).events[Crypto(CredVerify)] == s.events[Crypto(CredVerify)]
  {
    match s.txs[n].user
    case Waiting =>
    case Building => BuildVerifiesNothing(c);
    case Reading => if s.txs[n].epoch != s.epoch {} else {}
    case Committing(got) => if got < c.peers {} else {}
    case _ =>
  }

  lemma MainVerifiesNothing(c: Config, s: State)
    requires Shape(c, s) && MainCan(c, s)
    ensures MainStep(c, s).events[Crypto(CredVerify)] == s.events[Crypto(CredVerify)]
  {
  }

  lemma LoopVerifiesNothing(c: Config, s: State, p: nat)
    requires Shape(c, s) && LoopCan(c, s, p)
    ensures LoopStep(c, s, p).events[Crypto(CredVerify)] == s.events[Crypto(CredVerify)]
  {
    match s.loops[p].job { case _ => }
  }

  predicate Verifies(look: Look) {
    look.Look? && !look.hit
  }

  lemma EndorserVerifies(c: Config, s: State, n: nat, slot: nat, hit: bool)
    requires Shape(c, s) && Enabled(c, s, Label.Endorser(n, slot, hit))
    ensures EndorserStep(c, s, n, slot, hit).events[Crypto(CredVerify)] ==
              s.events[Crypto(CredVerify)] + One(Verifies(LookOf(c, s, Label.Endorser(n, slot, hit))))
  {
    match s.txs[n].endorse[slot]
    case Working(at) => EndorsementVerifies(at, hit);
    case _ =>
  }

  lemma EndorsementVerifies(at: nat, hit: bool)
    ensures EndorseEvents(at, hit)[Crypto(CredVerify)] == One((at == 1 || at == 2) && !hit)
  {
    if hit {} else {}
  }

  lemma OrdererVerifies(c: Config, s: State, n: nat, hit: bool)
    requires Shape(c, s) && Enabled(c, s, Label.Orderer(n, hit))
    ensures OrdererStep(c, s, n, hit).events[Crypto(CredVerify)] ==
              s.events[Crypto(CredVerify)] + One(Verifies(LookOf(c, s, Label.Orderer(n, hit))))
  {
    if hit {} else {}
  }

  lemma ValidationVerifies(c: Config, at: nat, hit: bool)
    ensures ValidateEvents(c, at, hit)[Crypto(CredVerify)] == One(at == 2 && !hit)
  {
    if hit {} else {}
  }

  lemma ValidatorVerifies(c: Config, s: State, n: nat, p: nat, hit: bool)
    requires Shape(c, s) && Enabled(c, s, Label.Validator(n, p, hit))
    ensures ValidatorStep(c, s, n, p, hit).events[Crypto(CredVerify)] ==
              s.events[Crypto(CredVerify)] + One(Verifies(LookOf(c, s, Label.Validator(n, p, hit))))
  {
    match s.txs[n].validate[p]
    case Working(at) => ValidationVerifies(c, at, hit);
    case _ =>
  }

  lemma StepVerifies(c: Config, s: State, l: Label)
    requires Shape(c, s) && Enabled(c, s, l)
    ensures Apply(c, s, l).events[Crypto(CredVerify)] ==
              s.events[Crypto(CredVerify)] + One(Verifies(LookOf(c, s, l)))
  {
    match l
    case User(n) => UserVerifiesNothing(c, s, n);
    case Endorser(n, slot, hit) => EndorserVerifies(c, s, n, slot, hit);
    case Orderer(n, hit) => OrdererVerifies(c, s, n, hit);
    case Validator(n, p, hit) => ValidatorVerifies(c, s, n, p, hit);
    case Main => MainVerifiesNothing(c, s);
    case Loop(p) => LoopVerifiesNothing(c, s, p);
    case _ =>
  }

  lemma {:induction false} VerifiedIsRecorded(c: Config, run: Run)
    requires Valid(c) && Feasible(c, run)
    ensures After(c, run).events[Crypto(CredVerify)] == |Verified(c, run)|
  {
    if run != [] {
      VerifiedIsRecorded(c, Front(run));
      StepVerifies(c, After(c, Front(run)), Last(run));
    }
  }

  // ---- which checks a simulation has to make

  /** The peers a transaction needs: its window of endorsers, and its orderer. */
  datatype Plan = Plan(asked: seq<nat>, orderer: nat)

  function Plans(c: Config, n: nat): (plans: seq<Plan>)
    requires c.peers >= 1
    ensures |plans| == n && forall k :: 0 <= k < n ==> plans[k] == Plan(AskedOf(c, k), OrdererOf(c, k))
  {
    seq(n, k requires 0 <= k < n => Plan(AskedOf(c, k), OrdererOf(c, k)))
  }

  /** The transactions get to this cache: of an endorser in the window, of the orderer, or of any peer's
      validation. */
  predicate Needed(plans: seq<Plan>, peers: nat, t: Target) {
    t.tx < |plans|
    && match t.op
       case ForEndorsement => t.peer in plans[t.tx].asked
       case ForOrdering => t.peer == plans[t.tx].orderer
       case ForValidation => t.peer < peers
  }

  ghost function EndorseTargets(asked: seq<nat>, n: nat): set<Target> {
    if asked == [] then {}
    else EndorseTargets(asked[..|asked| - 1], n) + {Target(ForEndorsement, asked[|asked| - 1], n)}
  }

  ghost function ValidateTargets(peers: nat, n: nat): set<Target> {
    if peers == 0 then {} else ValidateTargets(peers - 1, n) + {Target(ForValidation, peers - 1, n)}
  }

  ghost function TxTargets(plan: Plan, peers: nat, n: nat): set<Target> {
    EndorseTargets(plan.asked, n) + ValidateTargets(peers, n) + {Target(ForOrdering, plan.orderer, n)}
  }

  /** The caches that the transactions get to, as a set. */
  ghost function Targets(plans: seq<Plan>, peers: nat): set<Target> {
    if plans == [] then {}
    else
      var n := |plans| - 1;
      Targets(plans[..n], peers) + TxTargets(plans[n], peers, n)
  }

  lemma {:induction false} InEndorse(asked: seq<nat>, n: nat, t: Target)
    ensures t in EndorseTargets(asked, n) <==> t.op.ForEndorsement? && t.tx == n && t.peer in asked
  {
    if asked != [] {
      InEndorse(asked[..|asked| - 1], n, t);
      assert asked == asked[..|asked| - 1] + [asked[|asked| - 1]];
    }
  }

  lemma {:induction false} InValidate(peers: nat, n: nat, t: Target)
    ensures t in ValidateTargets(peers, n) <==> t.op.ForValidation? && t.tx == n && t.peer < peers
    ensures |ValidateTargets(peers, n)| == peers
  {
    if peers > 0 {
      InValidate(peers - 1, n, t);
      InValidate(peers - 1, n, Target(ForValidation, peers - 1, n));
    }
  }

  lemma InTxTargets(plan: Plan, peers: nat, n: nat, t: Target)
    ensures t in TxTargets(plan, peers, n) <==>
              t.tx == n && match t.op
                           case ForEndorsement => t.peer in plan.asked
                           case ForOrdering => t.peer == plan.orderer
                           case ForValidation => t.peer < peers
  {
    InEndorse(plan.asked, n, t);
    InValidate(peers, n, t);
  }

  lemma {:induction false} InTargets(plans: seq<Plan>, peers: nat, t: Target)
    ensures t in Targets(plans, peers) <==> Needed(plans, peers, t)
  {
    if plans != [] {
      var n := |plans| - 1;
      InTargets(plans[..n], peers, t);
      InTxTargets(plans[n], peers, n, t);
    }
  }

  function Least(a: nat, b: nat): nat {
    if a <= b then a else b
  }

  /** The window has no peer twice until it starts over after as many slots as there are peers. */
  ghost predicate Cyclic(asked: seq<nat>, peers: nat) {
    && (forall i, j :: 0 <= i < j < |asked| && j < peers ==> asked[i] != asked[j])
    && (forall j :: peers <= j < |asked| ==> asked[j] in asked[..j])
  }

  lemma AskedIsCyclic(c: Config, n: nat)
    requires c.peers >= 1
    ensures Cyclic(AskedOf(c, n), c.peers)
  {
    var asked, first := AskedOf(c, n), E.PeerByHash(c.sha3(c.message(n)), c.peers);
    forall i, j | 0 <= i < j < |asked| && j < c.peers ensures asked[i] != asked[j] {
      E.DistinctSlots(first, i, j, c.peers);
    }
    forall j | c.peers <= j < |asked| ensures asked[j] in asked[..j] {
      E.SlotAgain(first, j - c.peers, c.peers);
      assert asked[..j][j - c.peers] == asked[j];
    }
  }

  lemma CyclicFront(asked: seq<nat>, peers: nat)
    requires Cyclic(asked, peers) && asked != []
    ensures Cyclic(asked[..|asked| - 1], peers)
    ensures asked[|asked| - 1] in asked[..|asked| - 1] <==> |asked| > peers
  {
    var front := asked[..|asked| - 1];
    forall j | peers <= j < |front| ensures front[j] in front[..j] {
      assert front[..j] == asked[..j];
    }
  }

  lemma {:induction false} EndorseTargetsSize(asked: seq<nat>, peers: nat, n: nat)
    requires Cyclic(asked, peers)
    ensures |EndorseTargets(asked, n)| == Least(|asked|, peers)
  {
    if asked != [] {
      var last := |asked| - 1;
      CyclicFront(asked, peers);
      EndorseTargetsSize(asked[..last], peers, n);
      var t := Target(ForEndorsement, asked[last], n);
      InEndorse(asked[..last], n, t);
      OneMoreElement(EndorseTargets(asked[..last], n), t);
    }
  }

  lemma OneMoreElement(s: set<Target>, t: Target)
    ensures |s + {t}| == |s| + One(t !in s)
  {
    if t in s {
      assert s + {t} == s;
    }
  }

  lemma TxTargetsSize(plan: Plan, peers: nat, n: nat)
    requires Cyclic(plan.asked, peers)
    ensures |TxTargets(plan, peers, n)| == 1 + peers + Least(|plan.asked|, peers)
  {
    EndorseTargetsSize(plan.asked, peers, n);
    var endorse, validate := EndorseTargets(plan.asked, n), ValidateTargets(peers, n);
    forall t: Target ensures t in endorse ==> t.op.ForEndorsement? {
      InEndorse(plan.asked, n, t);
    }
    forall t: Target ensures t in validate ==> t.op.ForValidation? {
      InValidate(peers, n, t);
    }
    InValidate(peers, n, Target(ForOrdering, plan.orderer, n));
    assert endorse !! validate;
    OneMoreElement(endorse + validate, Target(ForOrdering, plan.orderer, n));
  }

  lemma OneMoreTime(n: nat, each: nat)
    ensures (n + 1) * each == n * each + each
  {
  }

  lemma {:induction false} TargetsSize(plans: seq<Plan>, peers: nat, each: nat)
    requires forall k :: 0 <= k < |plans| ==>
               Cyclic(plans[k].asked, peers) && 1 + peers + Least(|plans[k].asked|, peers) == each
    ensures |Targets(plans, peers)| == |plans| * each
  {
    if plans != [] {
      var n := |plans| - 1;
      TargetsSize(plans[..n], peers, each);
      TxTargetsSize(plans[n], peers, n);
      Apart(plans, peers);
      OneMoreTime(n, each);
    }
  }

  lemma Apart(plans: seq<Plan>, peers: nat)
    requires plans != []
    ensures Targets(plans[..|plans| - 1], peers) !! TxTargets(plans[|plans| - 1], peers, |plans| - 1)
  {
    var n := |plans| - 1;
    forall t: Target ensures !(t in Targets(plans[..n], peers) && t in TxTargets(plans[n], peers, n)) {
      InTargets(plans[..n], peers, t);
      InTxTargets(plans[n], peers, n, t);
    }
  }

  function PlansOf(c: Config): seq<Plan>
    requires c.peers >= 1
  {
    Plans(c, c.users * c.transactions)
  }

  /** One verification for every cache that the transactions get to. */
  function Fewest(c: Config): nat {
    c.users * c.transactions * (1 + c.peers + Least(c.endorsements, c.peers))
  }

  /** One for every check: two by each endorser, and one by the orderer and by each peer. */
  function Most(c: Config): nat {
    c.users * c.transactions * (1 + 2 * c.endorsements + c.peers)
  }

  /** The plans of the first n transactions. */
  lemma PlansSize(c: Config, n: nat)
    requires c.peers >= 1
    ensures |Targets(Plans(c, n), c.peers)| == n * (1 + c.peers + Least(c.endorsements, c.peers))
  {
    var each := 1 + c.peers + Least(c.endorsements, c.peers);
    forall k | 0 <= k < n
      ensures Cyclic(Plans(c, n)[k].asked, c.peers) && 1 + c.peers + Least(|Plans(c, n)[k].asked|, c.peers) == each
    {
      AskedIsCyclic(c, k);
    }
    TargetsSize(Plans(c, n), c.peers, each);
  }

  lemma NeededTargets(c: Config)
    requires c.peers >= 1
    ensures |Targets(PlansOf(c), c.peers)| == Fewest(c)
  {
    var n := c.users * c.transactions;
    PlansSize(c, n);
    assert Fewest(c) == n * (1 + c.peers + Least(c.endorsements, c.peers));
  }

  // ---- every cache that is needed is asked, and verifies at least once

  /** The first check of a goroutine is the piece of its work with this number. */
  function CheckOf(j: Job): nat {
    match j
    case EndorseJob(_, _) => 1
    case OrderJob(_) => 0
    case ValidateJob(_, _) => 2
  }

  predicate Checked(j: Job, pc: JobPc) {
    (pc.Working? && pc.at > CheckOf(j)) || pc.Replying? || pc.Releasing? || pc.Gone?
  }

  function TargetOf(c: Config, j: Job): Target
    requires c.peers >= 1
  {
    match j
    case EndorseJob(n, slot) => Target(ForEndorsement, EndorserAt(c, n, slot), n)
    case OrderJob(n) => Target(ForOrdering, OrdererOf(c, n), n)
    case ValidateJob(n, peer) => Target(ForValidation, peer, n)
  }

  /** The job is where it was, or has not yet come to its first check. */
  ghost predicate Unchecking(c: Config, s: State, s': State, j: Job)
    requires Shape(c, s) && IsJob(c, s, j)
  {
    Shape(c, s') && IsJob(c, s', j) && (PcOf(c, s', j) == PcOf(c, s, j) || !Checked(j, PcOf(c, s', j)))
  }

  lemma UserSendsOne(c: Config, s: State, n: nat, j: Job)
    requires Shape(c, s) && UserCan(c, s, n) && IsJob(c, s, j) && Shape(c, UserStep(c, s, n))
    requires s.txs[n].user.Sending?
    ensures Unchecking(c, s, UserStep(c, s, n), j)
  {
  }

  lemma UserKeepsJobs(c: Config, s: State, n: nat)
    requires Shape(c, s) && UserCan(c, s, n) && !s.txs[n].user.Sending? && !s.txs[n].user.Ordering?
    ensures var s' := UserStep(c, s, n);
      && |s'.txs| == |s.txs| && s'.txs == s.txs[n := s'.txs[n]]
      && s'.txs[n].endorse == s.txs[n].endorse && s'.txs[n].order == s.txs[n].order
      && s'.txs[n].validate == s.txs[n].validate
  {
    match s.txs[n].user { case _ => }
  }

  lemma UserOrdersOne(c: Config, s: State, n: nat, j: Job)
    requires Shape(c, s) && UserCan(c, s, n) && IsJob(c, s, j) && Shape(c, UserStep(c, s, n))
    requires s.txs[n].user.Ordering?
    ensures Unchecking(c, s, UserStep(c, s, n), j)
  {
  }

  lemma UserChecksNothing(c: Config, s: State, n: nat, j: Job)
    requires Shape(c, s) && UserCan(c, s, n) && IsJob(c, s, j) && Shape(c, UserStep(c, s, n))
    ensures Unchecking(c, s, UserStep(c, s, n), j)
  {
    if s.txs[n].user.Sending? {
      UserSendsOne(c, s, n, j);
    } else if s.txs[n].user.Ordering? {
      UserOrdersOne(c, s, n, j);
    } else {
      UserKeepsJobs(c, s, n);
    }
  }

  /** The loop's own job comes to its start at most. */
  lemma LoopJobIsEarly(c: Config, s: State, p: nat)
    requires Shape(c, s) && LoopCan(c, s, p) && Shape(c, LoopStep(c, s, p))
    ensures var pc := PcOf(c, LoopStep(c, s, p), s.loops[p].job); pc.Acquiring? || pc == Working(0)
  {
    match s.loops[p].job { case _ => }
  }

  lemma LoopChecksNothing(c: Config, s: State, p: nat, j: Job)
    requires Shape(c, s) && LoopCan(c, s, p) && IsJob(c, s, j) && Shape(c, LoopStep(c, s, p))
    ensures Unchecking(c, s, LoopStep(c, s, p), j)
  {
    if j == s.loops[p].job {
      LoopJobIsEarly(c, s, p);
    } else {
      P.LoopFrameOf(c, s, p);
      OtherJobsStay(c, s, LoopStep(c, s, p), p, j);
    }
  }

  lemma OtherJobsStay(c: Config, s: State, s': State, p: nat, j: Job)
    requires Shape(c, s) && LoopCan(c, s, p) && IsJob(c, s, j) && P.LoopMoved(c, s, s', p) && j != s.loops[p].job
    ensures IsJob(c, s', j) && PcOf(c, s', j) == PcOf(c, s, j)
  {
  }

  ghost predicate Checks(look: Look, target: Target) {
    look.Look? && look.target == target
  }

  lemma EndorserKeepsOthers(c: Config, s: State, n: nat, slot: nat, hit: bool, j: Job)
    requires Shape(c, s) && EndorserCan(c, s, n, slot) && IsJob(c, s, j) && j != EndorseJob(n, slot)
    requires Shape(c, EndorserStep(c, s, n, slot, hit))
    ensures Unchecking(c, s, EndorserStep(c, s, n, slot, hit), j)
  {
    match s.txs[n].endorse[slot] { case _ => }
  }

  lemma EndorserChecks(c: Config, s: State, n: nat, slot: nat, hit: bool)
    requires Shape(c, s) && Enabled(c, s, Label.Endorser(n, slot, hit)) && Shape(c, EndorserStep(c, s, n, slot, hit))
    requires var j := EndorseJob(n, slot);
      !Checked(j, PcOf(c, s, j)) && Checked(j, PcOf(c, EndorserStep(c, s, n, slot, hit), j))
    ensures Checks(LookOf(c, s, Label.Endorser(n, slot, hit)), TargetOf(c, EndorseJob(n, slot)))
  {
    match s.txs[n].endorse[slot] { case _ => }
  }

  lemma OrdererKeepsOthers(c: Config, s: State, n: nat, hit: bool, j: Job)
    requires Shape(c, s) && OrdererCan(c, s, n) && IsJob(c, s, j) && j != OrderJob(n)
    requires Shape(c, OrdererStep(c, s, n, hit))
    ensures Unchecking(c, s, OrdererStep(c, s, n, hit), j)
  {
  }

  lemma ValidatorKeepsOthers(c: Config, s: State, n: nat, p: nat, hit: bool, j: Job)
    requires Shape(c, s) && ValidatorCan(c, s, n, p) && IsJob(c, s, j) && j != ValidateJob(n, p)
    requires Shape(c, ValidatorStep(c, s, n, p, hit))
    ensures Unchecking(c, s, ValidatorStep(c, s, n, p, hit), j)
  {
    match s.txs[n].validate[p] { case _ => }
  }

  lemma ValidatorChecks(c: Config, s: State, n: nat, p: nat, hit: bool)
    requires Shape(c, s) && Enabled(c, s, Label.Validator(n, p, hit)) && Shape(c, ValidatorStep(c, s, n, p, hit))
    requires var j := ValidateJob(n, p);
      !Checked(j, PcOf(c, s, j)) && Checked(j, PcOf(c, ValidatorStep(c, s, n, p, hit), j))
    ensures Checks(LookOf(c, s, Label.Validator(n, p, hit)), TargetOf(c, ValidateJob(n, p)))
  {
    match s.txs[n].validate[p] { case _ => }
  }

  lemma OthersCheckNothing(c: Config, s: State, l: Label, j: Job)
    requires Shape(c, s) && Enabled(c, s, l) && IsJob(c, s, j) && Shape(c, Apply(c, s, l))
    requires !l.Endorser? && !l.Orderer? && !l.Validator?
    ensures Unchecking(c, s, Apply(c, s, l), j)
  {
    match l
    case User(n) => UserChecksNothing(c, s, n, j);
    case Loop(p) => LoopChecksNothing(c, s, p, j);
    case Main =>
    case Authority =>
    case Granter(_) =>
    case Tick =>
  }

  /** A goroutine gets past its first check only by making it. */
  lemma StepChecks(c: Config, s: State, l: Label, j: Job)
    requires Shape(c, s) && Enabled(c, s, l) && IsJob(c, s, j) && Shape(c, Apply(c, s, l))
    requires IsJob(c, Apply(c, s, l), j) && !Checked(j, PcOf(c, s, j)) && Checked(j, PcOf(c, Apply(c, s, l), j))
    ensures Checks(LookOf(c, s, l), TargetOf(c, j))
  {
    match l
    case Endorser(n, slot, hit) =>
      if j == EndorseJob(n, slot) {
        EndorserChecks(c, s, n, slot, hit);
      } else {
        EndorserKeepsOthers(c, s, n, slot, hit, j);
      }
    case Orderer(n, hit) =>
      if j != OrderJob(n) {
        OrdererKeepsOthers(c, s, n, hit, j);
      }
    case Validator(n, p, hit) =>
      if j == ValidateJob(n, p) {
        ValidatorChecks(c, s, n, p, hit);
      } else {
        ValidatorKeepsOthers(c, s, n, p, hit, j);
      }
    case _ => OthersCheckNothing(c, s, l, j);
  }

  lemma SlotIsAsked(c: Config, n: nat, slot: nat)
    requires c.peers >= 1 && slot < c.endorsements
    ensures EndorserAt(c, n, slot) in AskedOf(c, n)
  {
    assert AskedOf(c, n)[slot] == EndorserAt(c, n, slot);
  }

  lemma LookIsNeeded(c: Config, s: State, l: Label)
    requires Shape(c, s) && Enabled(c, s, l) && LookOf(c, s, l).Look?
    ensures Needed(Plans(c, |s.txs|), c.peers, LookOf(c, s, l).target)
  {
    if l.Endorser? {
      SlotIsAsked(c, l.tx, l.slot);
    }
  }

  lemma LastIsNeeded(c: Config, run: Run)
    requires Valid(c) && Feasible(c, run) && run != []
    ensures var look := LookOf(c, After(c, Front(run)), Last(run));
      look.Look? ==> Needed(PlansOf(c), c.peers, look.target)
  {
    RunShape(c, Front(run));
    if LookOf(c, After(c, Front(run)), Last(run)).Look? {
      LookIsNeeded(c, After(c, Front(run)), Last(run));
    }
  }

  lemma {:induction false} VerifiedAreNeeded(c: Config, run: Run)
    requires Valid(c) && Feasible(c, run)
    ensures forall t :: t in Verified(c, run) ==> Needed(PlansOf(c), c.peers, t)
  {
    if run != [] {
      VerifiedAreNeeded(c, Front(run));
      LastIsNeeded(c, run);
    }
  }

  /** With distinct keys only the same transaction can have filled the cache. */
  lemma CachedIsVerified<Key>(verified: seq<Target>, target: Target, n: nat, key: nat -> Key)
    requires OneToOne(key, n) && target.tx < n && (forall t :: t in verified ==> t.tx < n)
    requires Cached(verified, target, key)
    ensures target in verified
  {
    var t :| t in verified && t.op == target.op && t.peer == target.peer && key(t.tx) == key(target.tx);
    assert t == target;
  }

  lemma LookLeavesVerified<Key>(c: Config, run: Run, key: nat -> Key)
    requires Valid(c) && Feasible(c, run) && run != [] && Earned(c, run, key)
    requires OneToOne(key, c.users * c.transactions) && LookOf(c, After(c, Front(run)), Last(run)).Look?
    ensures LookOf(c, After(c, Front(run)), Last(run)).target in Verified(c, run)
  {
    var look := LookOf(c, After(c, Front(run)), Last(run));
    if look.hit {
      LastIsNeeded(c, run);
      VerifiedAreNeeded(c, Front(run));
      CachedIsVerified(Verified(c, Front(run)), look.target, c.users * c.transactions, key);
    }
  }

  /** A goroutine that has just come past its first check has made it in the last step. */
  lemma LastStepChecks(c: Config, run: Run, j: Job)
    requires Valid(c) && Feasible(c, run) && run != []
    requires Shape(c, After(c, run)) && IsJob(c, After(c, run), j) && Checked(j, PcOf(c, After(c, run), j))
    ensures Shape(c, After(c, Front(run))) && IsJob(c, After(c, Front(run)), j)
    ensures Checked(j, PcOf(c, After(c, Front(run)), j))
            || Checks(LookOf(c, After(c, Front(run)), Last(run)), TargetOf(c, j))
  {
    RunShape(c, Front(run));
    if !Checked(j, PcOf(c, After(c, Front(run)), j)) {
      StepChecks(c, After(c, Front(run)), Last(run), j);
    }
  }

  /** Whatever has been checked was verified for its cache at some step. */
  lemma {:induction false} CheckedIsVerified<Key>(c: Config, run: Run, j: Job, key: nat -> Key)
    requires Valid(c) && Feasible(c, run) && Earned(c, run, key) && OneToOne(key, c.users * c.transactions)
    requires Shape(c, After(c, run)) && IsJob(c, After(c, run), j) && Checked(j, PcOf(c, After(c, run), j))
    ensures TargetOf(c, j) in Verified(c, run)
  {
    if run != [] {
      LastStepChecks(c, run, j);
      if Checked(j, PcOf(c, After(c, Front(run)), j)) {
        CheckedIsVerified(c, Front(run), j, key);
      } else {
        LookLeavesVerified(c, run, key);
      }
    }
  }

  /** A target belongs to a goroutine. */
  lemma TargetHasJob(c: Config, s: State, t: Target) returns (j: Job)
    requires Shape(c, s) && Needed(Plans(c, |s.txs|), c.peers, t)
    ensures IsJob(c, s, j) && TargetOf(c, j) == t
  {
    match t.op
    case ForEndorsement =>
      var i :| 0 <= i < |AskedOf(c, t.tx)| && AskedOf(c, t.tx)[i] == t.peer;
      j := EndorseJob(t.tx, i);
    case ForOrdering => j := OrderJob(t.tx);
    case ForValidation => j := ValidateJob(t.tx, t.peer);
  }

  lemma CompleteIsChecked(c: Config, s: State, j: Job)
    requires Shape(c, s) && Drained(c, s) && IsJob(c, s, j)
    ensures Checked(j, PcOf(c, s, j))
  {
    assert Complete(c, s.txs[j.tx]);
  }

  lemma NeededIsVerified<Key>(c: Config, run: Run, t: Target, key: nat -> Key)
    requires Valid(c) && Feasible(c, run) && Joined(After(c, run).main)
    requires Earned(c, run, key) && OneToOne(key, c.users * c.transactions)
    requires Needed(PlansOf(c), c.peers, t)
    ensures t in Verified(c, run)
  {
    ShutdownNeverBlocks(c, run);
    var j := TargetHasJob(c, After(c, run), t);
    CompleteIsChecked(c, After(c, run), j);
    CheckedIsVerified(c, run, j, key);
  }

  lemma VerifiedIsNeeded<Key>(c: Config, run: Run, key: nat -> Key)
    requires Valid(c) && Feasible(c, run) && Joined(After(c, run).main)
    requires Earned(c, run, key) && OneToOne(key, c.users * c.transactions)
    ensures Entries(Verified(c, run)) == Targets(PlansOf(c), c.peers)
  {
    VerifiedAreNeeded(c, run);
    forall t: Target ensures t in Verified(c, run) <==> t in Targets(PlansOf(c), c.peers) {
      InTargets(PlansOf(c), c.peers, t);
      if Needed(PlansOf(c), c.peers, t) {
        NeededIsVerified(c, run, t, key);
      }
    }
  }

  // ---- the theorem

  lemma VerifyBudget(c: Config)
    ensures Budget(c, Crypto(CredVerify)) == Most(c)
  {
  }

  lemma VerifiedOrHit(c: Config, run: Run)
    requires Valid(c) && Feasible(c, run) && After(c, run).crash == NoCrash && After(c, run).main.Finished?
    ensures After(c, run).events[Crypto(CredVerify)] == Most(c) - Hits(c, run)
  {
    FinalAccounts(c, run, Crypto(CredVerify));
    VerifyBudget(c);
  }

  lemma AtMost(c: Config, run: Run)
    requires Valid(c) && Feasible(c, run) && After(c, run).crash == NoCrash && After(c, run).main.Finished?
    ensures After(c, run).events[Crypto(CredVerify)] <= Most(c)
  {
    VerifiedOrHit(c, run);
  }

  lemma AtLeast<Key>(c: Config, run: Run, key: nat -> Key)
    requires Valid(c) && Feasible(c, run) && Joined(After(c, run).main)
    requires Earned(c, run, key) && OneToOne(key, c.users * c.transactions)
    ensures Fewest(c) <= After(c, run).events[Crypto(CredVerify)]
    ensures After(c, run).events[Crypto(CredVerify)] == Fewest(c) <==> NoRepeat(Verified(c, run))
  {
    VerifiedIsRecorded(c, run);
    VerifiedIsNeeded(c, run, key);
    NeededTargets(c);
    EntriesSize(Verified(c, run));
  }

  /** With N transactions of distinct keys, a finished simulation verifies between N(1 + P + min(E, P)) and
      N(1 + P + 2E) identity proofs, under every interleaving and whichever appends to the caches are lost.  Any
      verification above the lower bound repeats one for the same cache; when that can happen is the subject of
      modules Caching, Crowds and LostAppends. */
  lemma VerificationBounds<Key>(c: Config, run: Run, key: nat -> Key)
    requires Valid(c) && Feasible(c, run) && After(c, run).crash == NoCrash && After(c, run).main.Finished?
    requires Earned(c, run, key) && OneToOne(key, c.users * c.transactions)
    ensures Fewest(c) <= After(c, run).events[Crypto(CredVerify)] <= Most(c)
    ensures After(c, run).events[Crypto(CredVerify)] == Fewest(c) <==> NoRepeat(Verified(c, run))
  {
    AtMost(c, run);
    AtLeast(c, run, key);
  }
}
