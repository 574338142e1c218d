/** The order of effects in the `send` command (controller/src/command.rs:463-640) and in the send helper of
    `Owner::init_send_tx` (api/src/owner.rs:731-800), over every method and every way a step may fail.

    Each step is an attempt that the outside world answers. A run is the history of its attempts. */
module SendFlow {
  import opened Wrappers

  /** The identity of a slate in one state of completion. */
  type Slate = nat

  datatype Act =
    | Create             // init_send_tx of the wallet
    | Estimate(all: bool)
    | OpenChannel        // create_sender
    | HandOver(answered: bool) // the slate leaves the wallet: shown or written to a file, or sent and answered
    | Lock               // tx_lock_outputs
    | Receive            // receive_tx, into the same wallet
    | Verify             // verify_slate_messages
    | Finalize           // finalize_tx
    | Post               // post_tx
    | AwaitMempool       // wait_for_tx_in_mempool, answered with "found"
    | MarkMempool        // update_mempool_status

  /** A step succeeds and may return a slate, or it ends in an error or a panic. Even then it may have taken effect: an
      http send fails or panics on the reply to a slate that was delivered (impls/src/adapters/http.rs:168-190), and a
      lock is committed before the transaction is stored (libwallet/src/internal/selection.rs:213-216). */
  datatype Answer = Done(slate: Slate) | Failed(happened: bool) | Panicked(happened: bool) {
    predicate TookEffect() {
      Done? || happened
    }
  }

  type World = (Act, Slate) -> Answer

  datatype Attempt = Attempt(act: Act, slate: Slate, answer: Answer)

  datatype Run = Start | Then(before: Run, last: Attempt) {
    /** `this` is `run` at some earlier point, or now. */
    predicate Within(run: Run)
      decreases run
    {
      this == run || (run.Then? && Within(run.before))
    }
  }

  datatype Ending = Success | Failure | Panic

  const BLANK: Slate := 0

  // ---------- The discipline ----------

  function Tried(run: Run): set<Act> {
    if run.Start? then {} else Tried(run.before) + {run.last.act}
  }

  /** The steps that succeeded. */
  function Did(run: Run): set<Act> {
    if run.Start? then {} else Did(run.before) + if run.last.answer.Done? then {run.last.act} else {}
  }

  /** The steps that took effect, whether they succeeded or not. */
  function Effects(run: Run): set<Act> {
    if run.Start? then {} else Effects(run.before) + if run.last.answer.TookEffect() then {run.last.act} else {}
  }

  /** Steps that return a slate to go on with. */
  predicate Returns(act: Act) {
    act == Create || act == HandOver(true) || act == Receive || act == Finalize
  }

  /** The slate that the last such step returned. */
  function Current(run: Run): Slate {
    match run
    case Start => BLANK
    case Then(before, a) => if Returns(a.act) && a.answer.Done? then a.answer.slate else Current(before)
  }

  /** What must have succeeded before a step is tried. */
  predicate Prepared(run: Run, act: Act) {
    match act
    case Create => true
    case Estimate(_) => Lock !in Did(run)
    case OpenChannel => Create in Did(run) && Lock !in Did(run)
    case HandOver(_) => Create in Did(run) && Lock !in Did(run)
    case Lock => Create in Did(run)
    case Receive => Lock in Did(run) && Finalize !in Did(run)
    case Verify => Lock in Did(run)
    case Finalize => Lock in Did(run)
    case Post => Lock in Did(run)
    case AwaitMempool => Post in Did(run)
    case MarkMempool => Post in Did(run) && AwaitMempool in Did(run)
  }

  /** Steps whose errors the code shrugs off, though not their panics. */
  predicate Optional(act: Act) {
    act.AwaitMempool? || act.MarkMempool?
  }

  /** How a run stands after its last attempt. */
  function Outcome(run: Run): Ending {
    match run
    case Start => Success
    case Then(_, a) =>
      if a.answer.Done? || (a.answer.Failed? && Optional(a.act)) then Success
      else if a.answer.Failed? then Failure
      else Panic
  }

  /** Every step is prepared, tried at most once, and tried on the current slate; an error that matters and a panic are
      the end. */
  predicate Orderly(world: World, run: Run) {
    match run
    case Start => true
    case Then(before, a) =>
      && Orderly(world, before) && Outcome(before) == Success
      && a.act !in Tried(before) && Prepared(before, a.act) && a.slate == Current(before)
      && a.answer == world(a.act, a.slate)
  }

  /** What is posted was finalized. */
  predicate PostsOnlyFinalized(run: Run) {
    run.Then? ==> PostsOnlyFinalized(run.before) && (run.last.act == Post ==> Finalize in Did(run.before))
  }

  /** What is finalized was verified. */
  predicate VerifiesFirst(run: Run) {
    run.Then? ==> VerifiesFirst(run.before) && (run.last.act == Finalize ==> Verify in Did(run.before))
  }

  /** What is verified or finalized was answered: received by the own wallet, or sent and returned. */
  predicate AnsweredFirst(run: Run) {
    run.Then? ==>
      && AnsweredFirst(run.before)
      && (run.last.act == Verify || run.last.act == Finalize ==> Receive in Did(run.before) || HandOver(true) in Did(run.before))
  }

  function Len(run: Run): nat {
    if run.Start? then 0 else Len(run.before) + 1
  }

  /** The steps tried are those of the script, from its beginning. */
  predicate Obeys(run: Run, script: seq<Act>) {
    run.Then? ==> Obeys(run.before, script) && Len(run.before) < |script| && run.last.act == script[Len(run.before)]
  }

  /** The slate is out. */
  predicate HandedOver(run: Run) {
    HandOver(true) in Effects(run) || HandOver(false) in Effects(run)
  }

  /** The last step stops the run between handing over and locking: it handed over and did not succeed, or it is the
      lock and took no effect. */
  predicate StopsBetween(run: Run) {
    && run.Then? && !run.last.answer.Done?
    && ((run.last.act.HandOver? && run.last.answer.happened) || (run.last.act == Lock && !run.last.answer.happened))
  }

  /** A script names no step twice, and each step after those it needs: with any run that obeys it, the next step is
      prepared. */
  predicate Proper(script: seq<Act>) {
    forall k | 0 <= k < |script| :: ProperAt(script, k)
  }

  predicate ProperAt(script: seq<Act>, k: nat)
    requires k < |script|
  {
    script[k] !in script[..k] && Placed(script[..k], script[k])
  }

  lemma ProperGrows(script: seq<Act>, act: Act, longer: seq<Act>)
    requires Proper(script) && act !in script && Placed(script, act) && longer == script + [act]
    ensures Proper(longer)
  {
    forall k | 0 <= k < |longer|
      ensures ProperAt(longer, k)
    {
      if k < |script| {
        assert ProperAt(script, k) && longer[..k] == script[..k];
      } else {
        assert longer[..k] == script;
      }
    }
  }

  predicate Placed(earlier: seq<Act>, act: Act) {
    match act
    case Create => true
    case Estimate(_) => Lock !in earlier
    case OpenChannel => Create in earlier && Lock !in earlier
    case HandOver(_) => Create in earlier && Lock !in earlier
    case Lock => Create in earlier
    case Receive => Lock in earlier && Finalize !in earlier
    case Verify => Lock in earlier
    case Finalize => Lock in earlier
    case Post => Lock in earlier
    case AwaitMempool => Post in earlier
    case MarkMempool => Post in earlier && AwaitMempool in earlier
  }

  /** In a run that is still going on, the steps of the script so far have succeeded, but for what is optional, and no
      others were tried. */
  lemma {:induction false} DoneSoFar(world: World, run: Run, script: seq<Act>)
    requires Orderly(world, run) && Outcome(run) == Success && Obeys(run, script)
    ensures Len(run) <= |script|
    ensures forall a :: a in script[..Len(run)] && !Optional(a) ==> a in Did(run)
    ensures forall a :: a in Did(run) || a in Effects(run) || a in Tried(run) ==> a in script[..Len(run)]
  {
    if run.Then? {
      DoneSoFar(world, run.before, script);
      assert script[..Len(run)] == script[..Len(run.before)] + [run.last.act];
    }
  }

  /** Performs the next step of the script and writes it down. */
  method Try(world: World, run: Run, act: Act, slate: Slate, ghost script: seq<Act>) returns (r: Answer, after: Run)
    requires Orderly(world, run) && Outcome(run) == Success && Obeys(run, script) && Proper(script)
    requires Len(run) < |script| && act == script[Len(run)] && slate == Current(run)
    requires act == MarkMempool ==> run.Then? && run.last.act == AwaitMempool && run.last.answer.Done?
    ensures r == world(act, slate) && after == Then(run, Attempt(act, slate, r))
    ensures Orderly(world, after) && Obeys(after, script) && Len(after) == Len(run) + 1
    ensures Current(after) == if Returns(act) && r.Done? then r.slate else slate
  {
    DoneSoFar(world, run, script);
    assert ProperAt(script, Len(run));
    r := world(act, slate);
    after := Then(run, Attempt(act, slate, r));
  }

  // ---------- What the discipline gives ----------

  /** The steps that come after the lock. */
  predicate AfterLock(act: Act) {
    act.Receive? || act.Verify? || act.Finalize? || act.Post? || Optional(act)
  }

  lemma {:induction false} DidIsTried(world: World, run: Run)
    requires Orderly(world, run)
    ensures Did(run) <= Effects(run) <= Tried(run)
    ensures Lock in Did(run) ==> Create in Did(run)
    ensures Post in Did(run) || Finalize in Did(run) ==> Lock in Did(run)
  {
    if run.Then? {
      DidIsTried(world, run.before);
    }
  }

  /** What took effect without succeeding ended the run. */
  lemma {:induction false} EffectsAreDone(world: World, run: Run, act: Act)
    requires Orderly(world, run) && Outcome(run) == Success && act in Effects(run) && !Optional(act)
    ensures act in Did(run)
  {
    if act in Effects(run.before) {
      EffectsAreDone(world, run.before, act);
    }
  }

  /** The lock divides a run: what is tried before it and after it are different steps. */
  lemma LockDivides(world: World, run: Run)
    requires Orderly(world, run) && run.Then?
    ensures AfterLock(run.last.act) <==> Lock in Did(run.before)
  {
    DidIsTried(world, run.before);
  }

  /** A run that locks nothing tries nothing that comes after a lock. */
  lemma {:induction false} UnlockedMeansUntouched(world: World, run: Run, act: Act)
    requires Orderly(world, run) && act in Tried(run) && AfterLock(act)
    ensures Lock in Did(run)
  {
    LockDivides(world, run);
    if act in Tried(run.before) {
      UnlockedMeansUntouched(world, run.before, act);
    }
  }

  /** Outputs stay locked behind a run that ends badly, exactly if it ended in a step after the lock, or in the lock
      itself after it took effect. */
  lemma LeftLockedIff(world: World, run: Run)
    requires Orderly(world, run) && Outcome(run) != Success
    ensures Lock in Effects(run) <==> AfterLock(run.last.act) || (run.last.act == Lock && run.last.answer.happened)
  {
    LockDivides(world, run);
    DidIsTried(world, run.before);
    if Lock in Effects(run.before) {
      EffectsAreDone(world, run.before, Lock);
    }
  }

  /** The point of a run at which a step succeeded. */
  lemma {:induction false} DidAt(world: World, run: Run, act: Act) returns (at: Run)
    requires Orderly(world, run) && act in Did(run)
    ensures at.Then? && at.Within(run) && Orderly(world, at) && at.last.act == act && at.last.answer.Done?
  {
    at := run;
    if !(run.last.act == act && run.last.answer.Done?) {
      at := DidAt(world, run.before, act);
    }
  }

  /** Once there is a successful finalization, what it returned stays the current slate. */
  lemma {:induction false} CurrentIsFinalized(world: World, run: Run) returns (at: Run)
    requires Orderly(world, run) && Finalize in Did(run)
    ensures at.Then? && at.Within(run) && Orderly(world, at) && at.last.act == Finalize && at.last.answer == Done(Current(run))
  {
    at := run;
    if !(run.last.act == Finalize && run.last.answer.Done?) {
      DidIsTried(world, run.before);
      at := CurrentIsFinalized(world, run.before);
    }
  }

  /** Each step is tried once. */
  lemma {:induction false} TriedOnce(world: World, run: Run, earlier: Run)
    requires Orderly(world, run) && run.Then? && earlier.Then? && earlier.Within(run.before)
    ensures earlier.last.act != run.last.act
  {
    TriedHas(run.before, earlier);
  }

  lemma {:induction false} TriedHas(run: Run, earlier: Run)
    requires earlier.Then? && earlier.Within(run)
    ensures earlier.last.act in Tried(run)
  {
    if earlier != run {
      TriedHas(run.before, earlier);
    }
  }

  /** The chain behind a posted slate: a successful lock, then a finalization that returned this very slate. */
  lemma PostedWasLockedAndFinalized(world: World, run: Run) returns (locked: Run, finalized: Run)
    requires Orderly(world, run) && PostsOnlyFinalized(run) && run.Then? && run.last.act == Post
    ensures finalized.Then? && finalized.Within(run.before) && locked.Then? && locked.Within(finalized.before)
    ensures locked.last.act == Lock && locked.last.answer.Done?
    ensures finalized.last.act == Finalize && finalized.last.answer == Done(run.last.slate)
  {
    finalized := CurrentIsFinalized(world, run.before);
    LockDivides(world, finalized);
    locked := DidAt(world, finalized.before, Lock);
  }

  // ---------- The send command ----------

  /** How the slate reaches the counterparty; Other is any other word, handed to `create_sender`. */
  datatype Method = Emoji | File | Self | Epicbox | Other(name: string)

  /** `proofAddress`: whether the payment proof address, if one is given, can be parsed. */
  datatype SendArgs = SendArgs(estimate: bool, via: Method, proofAddress: Option<bool>, torConfig: bool)

  /** With these the command stops after the lock: the counterparty's answer comes by another way. */
  predicate StopsAfterLock(via: Method) {
    via.Emoji? || via.File? || via.Epicbox?
  }

  const ESTIMATES := [Estimate(false), Estimate(true)]

  /** What each method does, in this order, unless it stops early. */
  function Script(via: Method): seq<Act> {
    match via
    case Emoji => [Create, HandOver(false), Lock]
    case File => [Create, HandOver(false), Lock]
    case Self => [Create, Lock, Receive, Verify, Finalize, Post, AwaitMempool, MarkMempool]
    case Epicbox => [Create, HandOver(true), Lock]
    case Other(_) => [Create, OpenChannel, HandOver(true), Lock, Verify, Finalize, Post, AwaitMempool, MarkMempool]
  }

  /** The whole script was followed, or all but the marking of a transaction that was not found in the mempool. */
  predicate Completes(run: Run, script: seq<Act>) {
    || Len(run) == |script|
    || (Len(run) + 1 == |script| && script[Len(run)] == MarkMempool && run.Then? && !run.last.answer.Done?)
  }

  lemma ScriptsAreProper(via: Method)
    ensures Proper(Script(via))
  {
    match via
    case Emoji | File =>
      ProperGrows([], Create, [Create]);
      ProperGrows([Create], HandOver(false), [Create, HandOver(false)]);
      ProperGrows([Create, HandOver(false)], Lock, [Create, HandOver(false), Lock]);
    case Epicbox =>
      ProperGrows([], Create, [Create]);
      ProperGrows([Create], HandOver(true), [Create, HandOver(true)]);
      ProperGrows([Create, HandOver(true)], Lock, [Create, HandOver(true), Lock]);
    case Self =>
      ProperGrows([], Create, [Create]);
      ProperGrows([Create], Lock, [Create, Lock]);
      ProperGrows([Create, Lock], Receive, [Create, Lock, Receive]);
      ProperEnds([Create, Lock, Receive], Script(Self));
    case Other(_) =>
      ProperGrows([], Create, [Create]);
      ProperGrows([Create], OpenChannel, [Create, OpenChannel]);
      ProperGrows([Create, OpenChannel], HandOver(true), [Create, OpenChannel, HandOver(true)]);
      ProperGrows([Create, OpenChannel, HandOver(true)], Lock, [Create, OpenChannel, HandOver(true), Lock]);
      ProperEnds([Create, OpenChannel, HandOver(true), Lock], Script(via));
  }

  lemma ProperEnds(s: seq<Act>, script: seq<Act>)
    requires script == s + [Verify, Finalize, Post, AwaitMempool, MarkMempool]
    requires Proper(s) && Lock in s && forall a :: a in s ==> a.Create? || a.OpenChannel? || a.HandOver? || a.Lock? || a.Receive?
    ensures Proper(script)
  {
    ProperGrows(s, Verify, s + [Verify]);
    ProperGrows(s + [Verify], Finalize, s + [Verify] + [Finalize]);
    ProperGrows(s + [Verify] + [Finalize], Post, s + [Verify] + [Finalize] + [Post]);
    ProperGrows(s + [Verify] + [Finalize] + [Post], AwaitMempool, s + [Verify] + [Finalize] + [Post] + [AwaitMempool]);
    ProperGrows(s + [Verify] + [Finalize] + [Post] + [AwaitMempool], MarkMempool, script);
  }

  lemma EstimatesAreProper()
    ensures Proper(ESTIMATES)
  {
    ProperGrows([], Estimate(false), [Estimate(false)]);
    ProperGrows([Estimate(false)], Estimate(true), [Estimate(false), Estimate(true)]);
  }

  /** Whatever obeys a method's script answers before it verifies, verifies before it finalizes, and finalizes before it
      posts. */
  lemma {:induction false} ScriptsAreSafe(world: World, run: Run, via: Method)
    requires Orderly(world, run) && Obeys(run, Script(via))
    ensures AnsweredFirst(run) && VerifiesFirst(run) && PostsOnlyFinalized(run)
  {
    if run.Then? {
      ScriptsAreSafe(world, run.before, via);
      DoneSoFar(world, run.before, Script(via));
      NeededStepsComeFirst(via, Len(run.before));
    }
  }

  lemma NeededStepsComeFirst(via: Method, k: nat)
    requires k < |Script(via)|
    ensures var (act, earlier) := (Script(via)[k], Script(via)[..k]);
            && (act == Verify || act == Finalize ==> (Receive in earlier || HandOver(true) in earlier))
            && (act == Finalize ==> Verify in earlier) && (act == Post ==> Finalize in earlier)
  {
    var script, at := Script(via), if via.Self? then 2 else 3;
    if k > at {
      assert script[..k][2] == script[2];
      assert k > at + 1 ==> script[..k][at + 1] == script[at + 1];
      assert k > at + 2 ==> script[..k][at + 2] == script[at + 2];
    }
  }

  /** In a script, the lock stands directly behind a hand-over. */
  predicate LocksBehindHandOver(script: seq<Act>, k: nat)
    requires k < |script|
  {
    var (act, earlier) := (script[k], script[..k]);
    && (act == Lock || Lock in earlier ==> HandOver(true) in earlier || HandOver(false) in earlier)
    && (HandOver(true) in earlier || HandOver(false) in earlier ==> act == Lock || Lock in earlier)
  }

  lemma OutUnlockedIff(world: World, run: Run, script: seq<Act>)
    requires Orderly(world, run) && Obeys(run, script)
    requires run.Then? ==> LocksBehindHandOver(script, Len(run.before)) && !(run.last.act.HandOver? && run.last.answer.Done?)
    ensures HandedOver(run) && Lock !in Effects(run) <==> StopsBetween(run)
    ensures Lock in Effects(run) ==> HandedOver(run)
  {
    if run.Then? {
      DoneSoFar(world, run.before, script);
      DidIsTried(world, run.before);
    }
  }

  /** The slate is out and its outputs are not locked, exactly if the run stopped between the two; with "self" the slate
      never leaves. */
  lemma SlateOutUnlockedIff(world: World, run: Run, via: Method)
    requires Orderly(world, run) && Obeys(run, Script(via))
    requires run.Then? ==> !(run.last.act.HandOver? && run.last.answer.Done?)
    ensures HandedOver(run) && Lock !in Effects(run) <==> via != Self && StopsBetween(run)
    ensures Lock in Effects(run) ==> (HandedOver(run) <==> via != Self)
  {
    if via == Self {
      NeverHandedOver(run);
    } else {
      if run.Then? {
        HandOverStandsBeforeLock(via, Len(run.before));
      }
      OutUnlockedIff(world, run, Script(via));
    }
  }

  lemma {:induction false} NeverHandedOver(run: Run)
    requires Obeys(run, Script(Self))
    ensures !HandedOver(run)
  {
    if run.Then? {
      NeverHandedOver(run.before);
    }
  }

  lemma HandOverStandsBeforeLock(via: Method, k: nat)
    requires k < |Script(via)| && via != Self
    ensures LocksBehindHandOver(Script(via), k)
  {
    var script, at := Script(via), if via.Other? then 2 else 1;
    if k > at {
      assert script[..k][at] == script[at];
      assert k > at + 1 ==> script[..k][at + 1] == script[at + 1];
    }
  }

  method SendEstimate(world: World) returns (run: Run, ending: Ending)
    ensures Orderly(world, run) && Obeys(run, ESTIMATES)
    ensures ending == if Outcome(run) == Success then Success else Panic
    ensures ending == Success ==> Len(run) == 2
  {
    EstimatesAreProper();
    run := Start;
    var smallest, all;
    smallest, run := Try(world, run, Estimate(false), BLANK, ESTIMATES);
    if !smallest.Done? {
      return run, Panic;
    }
    all, run := Try(world, run, Estimate(true), BLANK, ESTIMATES);
    ending := if all.Done? then Success else Panic;
  }

  /** The slate leaves the wallet; then the outputs are locked, of the slate that came back if one did. */
  method HandOverAndLock(world: World, created: Run, slate: Slate, answered: bool, ghost script: seq<Act>) returns (run: Run, back: Slate)
    requires Orderly(world, created) && Outcome(created) == Success && Obeys(created, script) && Proper(script)
    requires Len(created) + 1 < |script| && script[Len(created)] == HandOver(answered) && script[Len(created) + 1] == Lock
    requires slate == Current(created)
    ensures Orderly(world, run) && Obeys(run, script) && run.Then? && !(run.last.act.HandOver? && run.last.answer.Done?)
    ensures Outcome(run) == Success ==> back == Current(run) && Len(run) == Len(created) + 2
  {
    var r;
    run, back := created, slate;
    r, run := Try(world, run, HandOver(answered), slate, script);
    if !r.Done? {
      return;
    }
    if answered {
      back := r.slate;
    }
    r, run := Try(world, run, Lock, back, script);
  }

  method ReceiveOwn(world: World, created: Run, slate: Slate, ghost script: seq<Act>) returns (run: Run, back: Slate)
    requires Orderly(world, created) && Outcome(created) == Success && Obeys(created, script) && Proper(script)
    requires Len(created) + 1 < |script| && script[Len(created)] == Lock && script[Len(created) + 1] == Receive
    requires slate == Current(created)
    ensures Orderly(world, run) && Obeys(run, script) && run.Then? && !run.last.act.HandOver?
    ensures Outcome(run) == Success ==> back == Current(run) && Len(run) == Len(created) + 2
  {
    var r;
    run, back := created, slate;
    r, run := Try(world, run, Lock, slate, script);
    if !r.Done? {
      return;
    }
    r, run := Try(world, run, Receive, slate, script);
    if r.Done? {
      back := r.slate;
    }
  }

  /** The steps up to the lock, and the answer of the counterparty. An epicbox send without a tor configuration panics
      between two steps. */
  method Deliver(world: World, via: Method, torConfig: bool) returns (run: Run, slate: Slate, noConfig: bool)
    ensures Orderly(world, run) && Obeys(run, Script(via))
    ensures noConfig <==> via == Epicbox && !torConfig && Create in Did(run)
    ensures Outcome(run) == Success && !noConfig ==> slate == Current(run) && Len(run) == if via.Other? then 4 else 3
    ensures run.Then? && !(run.last.act.HandOver? && run.last.answer.Done?)
  {
    ScriptsAreProper(via);
    ghost var script := Script(via);
    run, slate, noConfig := Start, BLANK, false;
    var r;
    r, run := Try(world, run, Create, BLANK, script);
    if !r.Done? {
      return;
    }
    slate := r.slate;
    match via {
      case Emoji | File =>
        run, slate := HandOverAndLock(world, run, slate, false, script);
      case Self =>
        run, slate := ReceiveOwn(world, run, slate, script);
      case Epicbox =>
        if !torConfig {
          noConfig := true;
          return;
        }
        run, slate := HandOverAndLock(world, run, slate, true, script);
      case Other(_) =>
        r, run := Try(world, run, OpenChannel, slate, script);
        if r.Done? {
          run, slate := HandOverAndLock(world, run, slate, true, script);
        }
    }
  }

  /** From the first step to the last one that is left to this wallet. */
  method SendSlate(world: World, via: Method, torConfig: bool) returns (run: Run, ending: Ending)
    ensures Orderly(world, run) && Obeys(run, Script(via)) && run.Then? && !(run.last.act.HandOver? && run.last.answer.Done?)
    ensures ending == if via == Epicbox && !torConfig && Create in Did(run) then Panic else Outcome(run)
    ensures ending == Success ==> Completes(run, Script(via))
  {
    var slate, noConfig;
    run, slate, noConfig := Deliver(world, via, torConfig);
    ending := if noConfig then Panic else Outcome(run);
    if ending == Success && !StopsAfterLock(via) {
      ScriptsAreProper(via);
      run := Complete(world, run, slate, Script(via));
      ending := Outcome(run);
    }
  }

  /** A posted transaction is looked for in the mempool, and marked if it is found; no error of either fails the run. */
  method WatchMempool(world: World, posted: Run, slate: Slate, ghost script: seq<Act>) returns (run: Run)
    requires Orderly(world, posted) && Outcome(posted) == Success && Obeys(posted, script) && Proper(script)
    requires Len(posted) + 2 == |script| && script[Len(posted)] == AwaitMempool && script[Len(posted) + 1] == MarkMempool
    requires slate == Current(posted) && Post in Did(posted)
    ensures Orderly(world, run) && Obeys(run, script) && Outcome(run) != Failure && Post in Did(run)
    ensures run.Then? && Optional(run.last.act)
    ensures Outcome(run) == Success ==> Completes(run, script)
  {
    var found, marked;
    found, run := Try(world, posted, AwaitMempool, slate, script);
    if found.Done? {
      marked, run := Try(world, run, MarkMempool, slate, script);
    }
  }

  method PostAndMark(world: World, finalized: Run, slate: Slate, ghost script: seq<Act>) returns (run: Run)
    requires Orderly(world, finalized) && Outcome(finalized) == Success && Obeys(finalized, script) && Proper(script)
    requires Len(finalized) + 3 == |script| && script[Len(finalized)] == Post
    requires script[Len(finalized) + 1] == AwaitMempool && script[Len(finalized) + 2] == MarkMempool
    requires slate == Current(finalized)
    ensures Orderly(world, run) && Obeys(run, script) && run.Then? && AfterLock(run.last.act)
    ensures Outcome(run) == Failure ==> Post !in Did(run)
    ensures Outcome(run) == Success ==> Post in Did(run) && Completes(run, script)
  {
    DoneSoFar(world, finalized, script);
    assert ProperAt(script, Len(finalized));
    var posted;
    posted, run := Try(world, finalized, Post, slate, script);
    if posted.Done? {
      run := WatchMempool(world, run, slate, script);
    }
  }

  /** The answer is checked and finalized: the slate to post, if both succeed. */
  method VerifyAndFinalize(world: World, delivered: Run, answered: Slate, ghost script: seq<Act>) returns (run: Run, slate: Slate)
    requires Orderly(world, delivered) && Outcome(delivered) == Success && Obeys(delivered, script) && Proper(script)
    requires Len(delivered) + 1 < |script| && script[Len(delivered)] == Verify && script[Len(delivered) + 1] == Finalize
    requires answered == Current(delivered)
    ensures Orderly(world, run) && Obeys(run, script) && run.Then? && AfterLock(run.last.act)
    ensures Outcome(run) == Success ==> Finalize in Did(run) && slate == Current(run) && Len(run) == Len(delivered) + 2
  {
    slate := answered;
    var r;
    r, run := Try(world, delivered, Verify, answered, script);
    if r.Done? {
      r, run := Try(world, run, Finalize, answered, script);
      slate := if r.Done? then r.slate else answered;
    }
  }

  /** From the answered slate to the chain. */
  method Complete(world: World, delivered: Run, answered: Slate, ghost script: seq<Act>) returns (run: Run)
    requires Orderly(world, delivered) && Outcome(delivered) == Success && Obeys(delivered, script) && Proper(script)
    requires Len(delivered) + 5 == |script| && script[Len(delivered)] == Verify && script[Len(delivered) + 1] == Finalize
    requires script[Len(delivered) + 2] == Post && script[Len(delivered) + 3] == AwaitMempool && script[Len(delivered) + 4] == MarkMempool
    requires answered == Current(delivered)
    ensures Orderly(world, run) && Obeys(run, script) && run.Then? && AfterLock(run.last.act)
    ensures Outcome(run) == Success ==> Post in Did(run) && Completes(run, script)
  {
    var slate;
    run, slate := VerifyAndFinalize(world, delivered, answered, script);
    if Outcome(run) == Success {
      run := PostAndMark(world, run, slate, script);
    }
  }

  /** Every run of the command is orderly and obeys the script of its method, so it verifies only what was answered,
      finalizes only what it verified and posts only what it finalized; if it ends well, it went through the script. It
      ends as its last step did, but for three things: a failed estimate panics, an address that cannot be parsed fails
      the command before the first step, and an epicbox send without a tor configuration panics. The slate is out and its
      outputs are not locked, exactly if the run stopped between the two. */
  method Send(world: World, args: SendArgs) returns (run: Run, ending: Ending)
    ensures Orderly(world, run) && Obeys(run, if args.estimate then ESTIMATES else Script(args.via))
    ensures AnsweredFirst(run) && VerifiesFirst(run) && PostsOnlyFinalized(run)
    ensures ending == if args.estimate then (if Outcome(run) == Success then Success else Panic)
                      else if args.proofAddress == Some(false) then Failure
                      else if args.via == Epicbox && !args.torConfig && Create in Did(run) then Panic
                      else Outcome(run)
    ensures !args.estimate && args.proofAddress == Some(false) ==> run == Start
    ensures ending == Success ==> Completes(run, if args.estimate then ESTIMATES else Script(args.via))
    ensures ending == Success && !args.estimate ==> Lock in Did(run) && (Post in Did(run) <==> args.via == Self || args.via.Other?)
    ensures ending == Success && !args.estimate ==> (Receive in Did(run) <==> args.via == Self)
    ensures ending == Success && !args.estimate ==> (HandOver(true) in Did(run) <==> args.via == Epicbox || args.via.Other?)
    ensures ending == Success && !args.estimate ==> (HandOver(false) in Did(run) <==> args.via == Emoji || args.via == File)
    ensures ending == Success && Post in Did(run) ==> AwaitMempool in Tried(run)
    ensures ending == Success && Post in Did(run) ==> (MarkMempool in Tried(run) <==> AwaitMempool in Did(run))
    ensures ending == Failure ==> Post !in Did(run)
    ensures HandedOver(run) && Lock !in Effects(run) <==> args.via != Self && StopsBetween(run)
    ensures Lock in Effects(run) ==> (HandedOver(run) <==> args.via != Self)
  {
    if args.estimate {
      run, ending := SendEstimate(world);
      EstimatesAreSafe(run);
      return;
    }
    if args.proofAddress == Some(false) {
      return Start, Failure;
    }
    run, ending := SendSlate(world, args.via, args.torConfig);
    SlateOutUnlockedIff(world, run, args.via);
    ScriptsAreSafe(world, run, args.via);
    EndsAreRight(world, run, args.via);
  }

  lemma EndsAreRight(world: World, run: Run, via: Method)
    requires Orderly(world, run) && Obeys(run, Script(via))
    ensures Outcome(run) == Failure ==> Post !in Did(run)
    ensures Outcome(run) == Success && Completes(run, Script(via)) ==> StepsOf(via, Did(run)) && (Post in Did(run) ==> Watched(run))
  {
    ScriptHolds(via);
    if Outcome(run) == Failure {
      FailedRunsPostNothing(world, run, via);
    } else if Outcome(run) == Success && Completes(run, Script(via)) {
      FullRunsDo(world, run, Script(via), via);
      if !StopsAfterLock(via) {
        ScriptEndsWatching(via);
        MempoolIsWatched(world, run, Script(via));
      }
    }
  }

  lemma FailedRunsPostNothing(world: World, run: Run, via: Method)
    requires Orderly(world, run) && Obeys(run, Script(via)) && Outcome(run) == Failure
    ensures Post !in Did(run)
  {
    DoneSoFar(world, run.before, Script(via));
    PostIsFollowedByOptional(via, Len(run.before));
  }

  lemma PostIsFollowedByOptional(via: Method, k: nat)
    requires k < |Script(via)|
    ensures Post in Script(via)[..k] ==> Optional(Script(via)[k])
  {
  }

  /** What was posted was looked for in the mempool, and marked exactly if it was found. */
  predicate Watched(run: Run) {
    AwaitMempool in Tried(run) && (MarkMempool in Tried(run) <==> AwaitMempool in Did(run))
  }

  /** A run that followed the whole script has done its steps, and no others. */
  lemma CompletedSteps(world: World, run: Run, script: seq<Act>)
    requires Orderly(world, run) && Obeys(run, script) && Outcome(run) == Success && Completes(run, script)
    ensures forall a | !Optional(a) :: a in Did(run) <==> a in script
  {
    DoneSoFar(world, run, script);
    assert script[..Len(run)] == script || script == script[..Len(run)] + [script[Len(run)]];
  }

  /** The steps that each method takes, but for those behind the post. */
  predicate StepsOf(via: Method, acts: set<Act>) {
    && Create in acts && Lock in acts && (Post in acts <==> via == Self || via.Other?)
    && (Receive in acts <==> via == Self) && (OpenChannel in acts <==> via.Other?)
    && (HandOver(true) in acts <==> via == Epicbox || via.Other?) && (HandOver(false) in acts <==> via == Emoji || via == File)
  }

  lemma ScriptHolds(via: Method)
    ensures StepsOf(via, set a | a in Script(via))
  {
  }

  lemma FullRunsDo(world: World, run: Run, script: seq<Act>, via: Method)
    requires Orderly(world, run) && Obeys(run, script) && Outcome(run) == Success && Completes(run, script)
    requires StepsOf(via, set a | a in script)
    ensures StepsOf(via, Did(run))
  {
    CompletedSteps(world, run, script);
  }

  predicate EndsWatching(script: seq<Act>) {
    var n := |script|;
    n >= 2 && script[n - 2] == AwaitMempool && script[n - 1] == MarkMempool && MarkMempool !in script[..n - 1]
  }

  lemma ScriptEndsWatching(via: Method)
    requires !StopsAfterLock(via)
    ensures EndsWatching(Script(via))
  {
  }

  lemma MempoolIsWatched(world: World, run: Run, script: seq<Act>)
    requires Orderly(world, run) && Obeys(run, script) && Outcome(run) == Success && Completes(run, script)
    requires EndsWatching(script)
    ensures Watched(run)
  {
    if run.last.act == AwaitMempool {
      DoneSoFar(world, run, script);
      DidIsTried(world, run.before);
    } else {
      DidIsTried(world, run);
    }
  }

  lemma {:induction false} EstimatesAreSafe(run: Run)
    requires Obeys(run, ESTIMATES)
    ensures AnsweredFirst(run) && VerifiesFirst(run) && PostsOnlyFinalized(run) && !StopsBetween(run)
    ensures forall a :: a in Effects(run) || a in Did(run) ==> a.Estimate?
  {
    if run.Then? {
      EstimatesAreSafe(run.before);
    }
  }

  // ---------- The send helper of Owner::init_send_tx ----------

  datatype HelperMethod = Http | Keybase | EpicboxSend | Unsupported

  datatype Helper = Helper(via: HelperMethod, finalize: bool, postTx: bool)

  /** What a caller can see in the arguments: the helper would post without finalizing. */
  predicate PostsUnfinalized(send: Option<Helper>) {
    send.Some? && (send.value.via.Http? || send.value.via.Keybase?) && send.value.postTx && !send.value.finalize
  }

  /** What the helper does, in this order, unless it stops early. */
  function HelperScript(send: Option<Helper>): seq<Act> {
    match send
    case None => [Create]
    case Some(helper) =>
      match helper.via
      case Unsupported => [Create]
      case EpicboxSend => [Create, HandOver(true), Lock]
      case _ =>
        if helper.finalize && helper.postTx then [Create, OpenChannel, HandOver(true), Lock, Finalize, Post]
        else if helper.finalize then [Create, OpenChannel, HandOver(true), Lock, Finalize]
        else if helper.postTx then [Create, OpenChannel, HandOver(true), Lock, Post]
        else [Create, OpenChannel, HandOver(true), Lock]
  }

  lemma HelperScriptsAreProper(send: Option<Helper>)
    ensures Proper(HelperScript(send))
  {
    ProperGrows([], Create, [Create]);
    if send.Some? && send.value.via.EpicboxSend? {
      ScriptsAreProper(Epicbox);
    } else if send.Some? && !send.value.via.Unsupported? {
      ProperGrows([Create], OpenChannel, [Create, OpenChannel]);
      ProperGrows([Create, OpenChannel], HandOver(true), [Create, OpenChannel, HandOver(true)]);
      ProperGrows([Create, OpenChannel, HandOver(true)], Lock, [Create, OpenChannel, HandOver(true), Lock]);
      var locked := [Create, OpenChannel, HandOver(true), Lock];
      var finalized := [Create, OpenChannel, HandOver(true), Lock, Finalize];
      ProperGrows(locked, Finalize, finalized);
      ProperGrows(locked, Post, [Create, OpenChannel, HandOver(true), Lock, Post]);
      ProperGrows(finalized, Post, [Create, OpenChannel, HandOver(true), Lock, Finalize, Post]);
    }
  }

  lemma {:induction false} HelperPosts(world: World, run: Run, send: Option<Helper>)
    requires Orderly(world, run) && Obeys(run, HelperScript(send))
    ensures !PostsUnfinalized(send) ==> PostsOnlyFinalized(run)
  {
    if run.Then? {
      HelperPosts(world, run.before, send);
      DoneSoFar(world, run.before, HelperScript(send));
      if run.last.act == Post {
        FinalizeStandsBeforePost(send, Len(run.before));
      }
    }
  }

  lemma FinalizeStandsBeforePost(send: Option<Helper>, k: nat)
    requires k < |HelperScript(send)| && HelperScript(send)[k] == Post
    ensures Finalize in HelperScript(send)[..k] <==> !PostsUnfinalized(send)
  {
    assert k == 5 ==> HelperScript(send)[..k][4] == Finalize;
  }

  /** What a run of the helper that went to the end of its script has done. */
  lemma FullHelperRuns(world: World, run: Run, send: Option<Helper>)
    requires Orderly(world, run) && Obeys(run, HelperScript(send)) && Outcome(run) == Success && Len(run) == |HelperScript(send)|
    ensures forall a | !Optional(a) :: a in Did(run) <==> a in HelperScript(send)
    ensures PostsUnfinalized(send) ==> !PostsOnlyFinalized(run)
  {
    var script := HelperScript(send);
    CompletedSteps(world, run, script);
    if PostsUnfinalized(send) {
      DoneSoFar(world, run.before, script);
      FinalizeStandsBeforePost(send, 4);
    }
  }

  lemma HelperSlateOutUnlockedIff(world: World, run: Run, send: Option<Helper>)
    requires Orderly(world, run) && Obeys(run, HelperScript(send))
    requires run.Then? ==> !(run.last.act.HandOver? && run.last.answer.Done?)
    ensures HandedOver(run) && Lock !in Effects(run) <==> StopsBetween(run)
    ensures Lock in Effects(run) ==> HandedOver(run) && send.Some? && !send.value.via.Unsupported?
  {
    if run.Then? {
      HelperHandsOverFirst(send, Len(run.before));
      OutUnlockedIff(world, run, HelperScript(send));
    }
    if send.None? || send.value.via.Unsupported? {
      NothingLocked(run, send);
    }
  }

  lemma {:induction false} NothingLocked(run: Run, send: Option<Helper>)
    requires Obeys(run, HelperScript(send)) && (send.None? || send.value.via.Unsupported?)
    ensures Lock !in Effects(run)
  {
    if run.Then? {
      NothingLocked(run.before, send);
    }
  }

  lemma HelperHandsOverFirst(send: Option<Helper>, k: nat)
    requires k < |HelperScript(send)|
    ensures LocksBehindHandOver(HelperScript(send), k)
  {
    var script := HelperScript(send);
    var at := if |script| == 3 then 1 else 2;
    if k > at {
      assert script[..k][at] == script[at];
      assert k > at + 1 ==> script[..k][at + 1] == script[at + 1];
    }
  }

  /** Finalizing and posting as the caller asked for. */
  method FinalizeAndPost(world: World, locked: Run, answered: Slate, helper: Helper) returns (run: Run, slate: Slate)
    requires Orderly(world, locked) && Outcome(locked) == Success && Obeys(locked, HelperScript(Some(helper))) && Len(locked) == 4
    requires answered == Current(locked) && (helper.via.Http? || helper.via.Keybase?)
    ensures Orderly(world, run) && Obeys(run, HelperScript(Some(helper))) && run.Then? && (run == locked || AfterLock(run.last.act))
    ensures Outcome(run) == Success ==> slate == Current(run) && Len(run) == |HelperScript(Some(helper))|
  {
    HelperScriptsAreProper(Some(helper));
    run, slate := locked, answered;
    var r;
    if helper.finalize {
      r, run := Try(world, run, Finalize, answered, HelperScript(Some(helper)));
      if !r.Done? {
        return;
      }
      slate := r.slate;
    }
    if helper.postTx {
      r, run := Try(world, run, Post, slate, HelperScript(Some(helper)));
    }
  }

  /** Channel, hand-over, lock, and the rest: an epicbox send ends with the lock. */
  method SendCreated(world: World, created: Run, sent: Slate, helper: Helper) returns (run: Run, slate: Slate)
    requires Orderly(world, created) && Outcome(created) == Success && Obeys(created, HelperScript(Some(helper))) && Len(created) == 1
    requires sent == Current(created) && !helper.via.Unsupported?
    ensures Orderly(world, run) && Obeys(run, HelperScript(Some(helper)))
    ensures run.Then? && !(run.last.act.HandOver? && run.last.answer.Done?)
    ensures Outcome(run) == Success ==> slate == Current(run) && Len(run) == |HelperScript(Some(helper))|
  {
    HelperScriptsAreProper(Some(helper));
    ghost var script := HelperScript(Some(helper));
    run, slate := created, sent;
    if !helper.via.EpicboxSend? {
      var r;
      r, run := Try(world, run, OpenChannel, sent, script);
      if !r.Done? {
        return;
      }
    }
    run, slate := HandOverAndLock(world, run, sent, true, script);
    if Outcome(run) == Success && !helper.via.EpicboxSend? {
      run, slate := FinalizeAndPost(world, run, slate, helper);
    }
  }

  /** With the helper arguments the slate is sent, locked, and then finalized and posted as the arguments say; a run that
      ends well went through the whole script. Nothing is posted unfinalized if the arguments do not say so; if they do,
      every run that ends well has done it. */
  method InitSendTx(world: World, send: Option<Helper>) returns (run: Run, slate: Slate, ending: Ending)
    ensures Orderly(world, run) && Obeys(run, HelperScript(send))
    ensures ending == if send.Some? && send.value.via.Unsupported? && Outcome(run) == Success then Failure else Outcome(run)
    ensures ending == Success ==> slate == Current(run) && Len(run) == |HelperScript(send)|
    ensures Lock in Effects(run) ==> HandedOver(run) && send.Some? && !send.value.via.Unsupported?
    ensures ending == Success && send.Some? ==> HandOver(true) in Did(run) && Lock in Did(run)
    ensures ending == Success && send.Some? ==> (Post in Did(run) <==> send.value.postTx && !send.value.via.EpicboxSend?)
    ensures ending == Success && send.Some? ==> (Finalize in Did(run) <==> send.value.finalize && !send.value.via.EpicboxSend?)
    ensures HandedOver(run) && Lock !in Effects(run) <==> StopsBetween(run)
    ensures !PostsUnfinalized(send) ==> PostsOnlyFinalized(run)
    ensures PostsUnfinalized(send) && ending == Success ==> !PostsOnlyFinalized(run)
  {
    HelperScriptsAreProper(send);
    var r;
    r, run := Try(world, Start, Create, BLANK, HelperScript(send));
    slate, ending := if r.Done? then r.slate else BLANK, Outcome(run);
    if r.Done? && send.Some? {
      if send.value.via.Unsupported? {
        ending := Failure;
      } else {
        run, slate := SendCreated(world, run, slate, send.value);
        ending := Outcome(run);
      }
    }
    HelperPosts(world, run, send);
    HelperSlateOutUnlockedIff(world, run, send);
    if ending == Success {
      FullHelperRuns(world, run, send);
    }
  }
}
