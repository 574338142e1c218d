/** The lock scopes of the Owner API, the V3 handler, the updater threads and the listeners.

    Each function gives the scopes of one method in the order its source takes them; what a method does without locks
    is left out, and every place where it may return an error is `Fallible`. */
module OwnerLocks {
  import opened LockOrder

  // ---------- The wallet, as libwallet uses it ----------

  /** Work under the wallet lock, which may take the global secp context for a moment (coinbase kernel excess,
      printing of slate messages). */
  const WALLET_WORK := Locked(Wallet, Then(Fallible, Then(Loop(Locked(Secp, Fallible)), Fallible)))

  /** `update_wallet_state`, `scan`, `wait_for_tx_in_mempool`: the wallet is locked and released many times. */
  const WALLET_ROUNDS := Loop(Then(WALLET_WORK, Fallible))

  // ---------- Owner ----------

  datatype SendArgs = SendArgs(known: bool, epicbox: bool, finalize: bool, post: bool)

  datatype Call =
    | WalletMethod                            // accounts, tx_lock_outputs, finalize_tx, post_tx, get_stored_tx, ...
    | WalletRounds(checked: bool)             // node_height, get_public_proof_address test the mask in a scope of their own;
                                              // verify_payment_proof, wait_for_tx_in_mempool do not
    | SetTorConfig
    | SetEpicboxConfig
    | StatusMethod                            // retrieve_*, cancel_tx, scan, retrieve_payment_proof
    | InitSendTx(send: bool, args: SendArgs)
    | GetPublicAddress
    | OpenWallet(doctest: bool)
    | StartUpdater
    | StopUpdater
    | GetUpdaterMessages
    | InitSecureApi

  /** `init_send_tx`: with send arguments, both configurations stay locked through the whole exchange. */
  function InitSendTxCode(send: bool, args: SendArgs): Code {
    var exchange :=
      if args.epicbox then Then(Then(Fallible, WALLET_ROUNDS), WALLET_WORK)
      else Then(Then(Fallible, WALLET_WORK),
                Then(if args.finalize then WALLET_WORK else Skip, if args.post then Then(WALLET_WORK, Fallible) else Skip));
    Then(WALLET_WORK,
         if !send then Skip
         else if !args.known then Fallible
         else Locked(TorConfig, Locked(EpicboxConfig, exchange)))
  }

  function CallCode(call: Call): Code {
    match call
    case WalletMethod => Then(WALLET_WORK, Fallible)
    case WalletRounds(checked) => if checked then Then(WALLET_WORK, WALLET_ROUNDS) else WALLET_ROUNDS
    case SetTorConfig => Locked(TorConfig, Skip)
    case SetEpicboxConfig => Locked(EpicboxConfig, Skip)
    case StatusMethod => Then(Locked(StatusTx, Skip), WALLET_ROUNDS)
    case InitSendTx(send, args) => InitSendTxCode(send, args)
    case GetPublicAddress => Locked(EpicboxConfig, Then(WALLET_WORK, WALLET_WORK))
    case OpenWallet(doctest) => if doctest then Locked(Secp, Skip) else WALLET_WORK
    case StartUpdater => Locked(StatusTx, Skip)
    case StopUpdater => Skip
    case GetUpdaterMessages => Locked(UpdaterMessages, Skip)
    case InitSecureApi => Locked(Secp, Then(Then(Fallible, Locked(OwnerKey, Skip)), Fallible))
  }

  // ---------- The threads of the owner process ----------

  datatype Task =
    | V3Request(encrypted: bool, call: Call, runningForeign: bool)
    | V2Request(call: Call)
    | ForeignRequest                          // POST on /v2/foreign of the same server
    | UpdaterThread                           // spawned by start_updater
    | UpdaterLogThread

  /** Copying the Owner's key into the handler's cell: the Owner's guard is a temporary of the same statement. */
  const COPY_KEY := Locked(OwnerKey, Either(Skip, Locked(HandlerKey, Skip)))

  const UPDATE_MASK := Either(Skip, Locked(Secp, Then(Fallible, Locked(Mask, Skip))))

  /** `call_api` of the V3 handler. A key check, a decryption and an encryption lock the handler's key one at a time. */
  function V3Code(encrypted: bool, call: Call, runningForeign: bool): Code {
    var opening := if encrypted then Then(Locked(HandlerKey, Fallible), Locked(HandlerKey, Fallible)) else Skip;
    var mask := if call.OpenWallet? && runningForeign then UPDATE_MASK else Skip;
    var sealing := if encrypted then Locked(HandlerKey, Fallible) else Skip;
    var copying := if call.InitSecureApi? then COPY_KEY else Skip;
    Then(Then(opening, Then(Either(CallCode(call), Skip), Fallible)), Then(mask, Then(sealing, copying)))
  }

  function TaskCode(task: Task): Code {
    match task
    case V3Request(encrypted, call, runningForeign) => V3Code(encrypted, call, runningForeign)
    case V2Request(call) => CallCode(call)
    case ForeignRequest => Then(Locked(Mask, Skip), WALLET_ROUNDS)
    case UpdaterThread => Locked(Updater, WALLET_ROUNDS)
    case UpdaterLogThread => Loop(Locked(UpdaterMessages, Skip))
  }

  /** The order in which the owner process takes its locks. */
  function OwnerRank(lock: Lock): int {
    match lock
    case Updater => 0
    case TorConfig => 1
    case EpicboxConfig => 2
    case Wallet => 3
    case Secp => 4
    case OwnerKey => 5
    case HandlerKey => 6
    case Mask => 7
    case StatusTx => 8
    case UpdaterMessages => 9
  }

  // ---------- The listener process ----------

  /** `listen`: the tor, epicbox and keybase listeners lock the mask first and the wallet inside its scope. */
  datatype Listener = Http | Tor | Epicbox | Keybase

  function ListenerCode(listener: Listener): Code {
    match listener
    case Http => Then(Locked(Mask, Skip), WALLET_ROUNDS)
    case Tor => Locked(Mask, WALLET_WORK)
    case Epicbox => Then(Locked(Mask, WALLET_WORK), Locked(Mask, WALLET_ROUNDS))
    case Keybase => Locked(Mask, Locked(Wallet, Loop(Locked(Secp, Fallible))))
  }

  function ListenerRank(lock: Lock): int {
    if lock == Mask then -1 else OwnerRank(lock)
  }

  // ---------- Discipline and its consequences ----------

  lemma WalletCodeIsDisciplined(rank: Ranking, floor: int)
    requires floor < rank(Wallet) < rank(Secp)
    ensures Disciplined(WALLET_WORK, rank, floor) && Disciplined(WALLET_ROUNDS, rank, floor)
  {
    var inner := Locked(Secp, Fallible);
    assert Disciplined(Loop(inner), rank, rank(Wallet));
    assert Disciplined(Then(Loop(inner), Fallible), rank, rank(Wallet));
  }

  /** What the owner process asks of a ranking of its locks. */
  predicate OwnerOrder(rank: Ranking, floor: int) {
    && floor < rank(Updater) < rank(Wallet) && floor < rank(TorConfig) < rank(EpicboxConfig) < rank(Wallet)
    && rank(Wallet) < rank(Secp) < rank(OwnerKey) < rank(HandlerKey) && rank(Secp) < rank(Mask)
    && floor < rank(StatusTx) && floor < rank(UpdaterMessages)
  }

  lemma InitSendTxIsDisciplined(send: bool, args: SendArgs, rank: Ranking, floor: int)
    requires OwnerOrder(rank, floor)
    ensures Disciplined(InitSendTxCode(send, args), rank, floor)
  {
    WalletCodeIsDisciplined(rank, rank(EpicboxConfig));
    WalletCodeIsDisciplined(rank, floor);
    var inner := rank(EpicboxConfig);
    var finalize, post := if args.finalize then WALLET_WORK else Skip, if args.post then Then(WALLET_WORK, Fallible) else Skip;
    assert Disciplined(finalize, rank, inner) && Disciplined(post, rank, inner);
    assert Disciplined(Then(Fallible, WALLET_WORK), rank, inner) && Disciplined(Then(finalize, post), rank, inner);
    assert Disciplined(Then(Fallible, WALLET_ROUNDS), rank, inner);
    var exchange := if args.epicbox then Then(Then(Fallible, WALLET_ROUNDS), WALLET_WORK)
                    else Then(Then(Fallible, WALLET_WORK), Then(finalize, post));
    assert Disciplined(exchange, rank, inner);
    assert Disciplined(Locked(TorConfig, Locked(EpicboxConfig, exchange)), rank, floor);
  }

  lemma CallsAreDisciplined(call: Call, rank: Ranking, floor: int)
    requires OwnerOrder(rank, floor)
    ensures Disciplined(CallCode(call), rank, floor)
  {
    WalletCodeIsDisciplined(rank, rank(EpicboxConfig));
    WalletCodeIsDisciplined(rank, floor);
    match call
    case InitSendTx(send, args) =>
      InitSendTxIsDisciplined(send, args, rank, floor);
    case InitSecureApi =>
      assert Disciplined(Locked(OwnerKey, Skip), rank, rank(Secp));
      assert Disciplined(Then(Fallible, Locked(OwnerKey, Skip)), rank, rank(Secp));
    case _ =>
  }

  lemma KeyCodeIsDisciplined(rank: Ranking, floor: int)
    requires OwnerOrder(rank, floor)
    ensures Disciplined(Then(Locked(HandlerKey, Fallible), Locked(HandlerKey, Fallible)), rank, floor)
    ensures Disciplined(UPDATE_MASK, rank, floor) && Disciplined(COPY_KEY, rank, floor)
  {
    assert Disciplined(Locked(Mask, Skip), rank, rank(Secp));
    assert Disciplined(Then(Fallible, Locked(Mask, Skip)), rank, rank(Secp));
    assert Disciplined(Locked(HandlerKey, Skip), rank, rank(OwnerKey));
    assert Disciplined(Either(Skip, Locked(HandlerKey, Skip)), rank, rank(OwnerKey));
  }

  lemma TasksAreDisciplined(task: Task, rank: Ranking, floor: int)
    requires OwnerOrder(rank, floor)
    ensures Disciplined(TaskCode(task), rank, floor)
  {
    WalletCodeIsDisciplined(rank, floor);
    WalletCodeIsDisciplined(rank, rank(Updater));
    match task
    case V3Request(encrypted, call, runningForeign) =>
      CallsAreDisciplined(call, rank, floor);
      KeyCodeIsDisciplined(rank, floor);
      assert Disciplined(Then(Either(CallCode(call), Skip), Fallible), rank, floor);
    case V2Request(call) => CallsAreDisciplined(call, rank, floor);
    case _ =>
  }

  lemma SendTakesConfigsFirst(rank: Ranking, floor: int)
    requires forall task: Task :: Disciplined(TaskCode(task), rank, floor)
    ensures floor < rank(TorConfig) < rank(EpicboxConfig) < rank(Wallet)
  {
    var args := SendArgs(true, true, false, false);
    var exchange := Then(Then(Fallible, WALLET_ROUNDS), WALLET_WORK);
    var scopes := Locked(TorConfig, Locked(EpicboxConfig, exchange));
    assert TaskCode(V2Request(InitSendTx(true, args))) == Then(WALLET_WORK, scopes);
    assert Disciplined(scopes, rank, floor);
    assert Disciplined(Locked(EpicboxConfig, exchange), rank, rank(TorConfig));
    assert Disciplined(exchange, rank, rank(EpicboxConfig));
    assert Disciplined(WALLET_WORK, rank, rank(EpicboxConfig));
  }

  lemma KeysComeAfterSecp(rank: Ranking, floor: int)
    requires forall task: Task :: Disciplined(TaskCode(task), rank, floor)
    ensures floor < rank(Secp) < rank(OwnerKey) < rank(HandlerKey) && rank(Secp) < rank(Mask)
  {
    var writing := Then(Then(Fallible, Locked(OwnerKey, Skip)), Fallible);
    assert TaskCode(V2Request(InitSecureApi)) == Locked(Secp, writing) && Disciplined(Locked(Secp, writing), rank, floor);
    assert Disciplined(writing, rank, rank(Secp));
    assert Disciplined(Then(Fallible, Locked(OwnerKey, Skip)), rank, rank(Secp));
    assert Disciplined(Locked(OwnerKey, Skip), rank, rank(Secp));
    var starting := V3Request(false, InitSecureApi, false);
    assert TaskCode(starting) == Then(Then(Skip, Then(Either(CallCode(InitSecureApi), Skip), Fallible)), Then(Skip, Then(Skip, COPY_KEY)));
    assert Disciplined(Then(Skip, Then(Skip, COPY_KEY)), rank, floor);
    assert Disciplined(Then(Skip, COPY_KEY), rank, floor);
    assert Disciplined(COPY_KEY, rank, floor);
    assert Disciplined(Either(Skip, Locked(HandlerKey, Skip)), rank, rank(OwnerKey));
    assert Disciplined(Locked(HandlerKey, Skip), rank, rank(OwnerKey));
    var opening := V3Request(false, OpenWallet(false), true);
    assert TaskCode(opening) == Then(Then(Skip, Then(Either(CallCode(OpenWallet(false)), Skip), Fallible)), Then(UPDATE_MASK, Then(Skip, Skip)));
    assert Disciplined(Then(UPDATE_MASK, Then(Skip, Skip)), rank, floor);
    UpdateMaskTakesSecpFirst(rank, floor);
  }

  /** A ranking serves all tasks, exactly if it keeps to these inequalities. */
  lemma OwnerOrderIsForced(rank: Ranking, floor: int)
    ensures (forall task: Task :: Disciplined(TaskCode(task), rank, floor)) <==>
            && floor < rank(Updater) < rank(Wallet) && floor < rank(TorConfig) < rank(EpicboxConfig) < rank(Wallet)
            && rank(Wallet) < rank(Secp) < rank(OwnerKey) < rank(HandlerKey) && rank(Secp) < rank(Mask)
            && floor < rank(StatusTx) && floor < rank(UpdaterMessages)
  {
    if forall task: Task :: Disciplined(TaskCode(task), rank, floor) {
      SendTakesConfigsFirst(rank, floor);
      KeysComeAfterSecp(rank, floor);
      assert Disciplined(TaskCode(UpdaterThread), rank, floor);
      assert Disciplined(Then(WALLET_WORK, Fallible), rank, rank(Updater));
      WalletWorkTakesWalletFirst(rank, rank(Updater));
      assert Disciplined(TaskCode(V2Request(StartUpdater)), rank, floor);
      assert Disciplined(TaskCode(V2Request(GetUpdaterMessages)), rank, floor);
    }
    if OwnerOrder(rank, floor) {
      forall task: Task
        ensures Disciplined(TaskCode(task), rank, floor)
      {
        TasksAreDisciplined(task, rank, floor);
      }
    }
  }

  lemma ListenersAreDisciplined(listener: Listener, rank: Ranking, floor: int)
    requires floor < rank(Mask) < rank(Wallet) < rank(Secp)
    ensures Disciplined(ListenerCode(listener), rank, floor)
  {
    WalletCodeIsDisciplined(rank, floor);
    WalletCodeIsDisciplined(rank, rank(Mask));
    assert Disciplined(Locked(Secp, Fallible), rank, rank(Wallet));
    assert Disciplined(Loop(Locked(Secp, Fallible)), rank, rank(Wallet));
  }

  /** A ranking serves all listeners, exactly if it has the mask before the wallet and the wallet before secp. */
  lemma ListenerOrderIsForced(rank: Ranking, floor: int)
    ensures (forall listener: Listener :: Disciplined(ListenerCode(listener), rank, floor)) <==>
            floor < rank(Mask) < rank(Wallet) < rank(Secp)
  {
    if forall listener: Listener :: Disciplined(ListenerCode(listener), rank, floor) {
      assert Disciplined(ListenerCode(Tor), rank, floor);
      WalletWorkTakesWalletFirst(rank, rank(Mask));
    }
    if floor < rank(Mask) < rank(Wallet) < rank(Secp) {
      forall listener: Listener
        ensures Disciplined(ListenerCode(listener), rank, floor)
      {
        ListenersAreDisciplined(listener, rank, floor);
      }
    }
  }

  /** A run of threads on the given codes: steps are taken when they are possible, codes are started at any time. */
  ghost predicate RunOf(codes: iset<Code>, sys: System, events: seq<Event>, last: System)
    decreases |events|
  {
    if events == [] then sys == last
    else
      match events[0]
      case Step(i) =>
        Enabled(sys, i) && (sys[i].todo[0].Release? ==> sys[i].held != [])
        && RunOf(codes, sys[i := Performed(sys[i])], events[1..], last)
      case Spawn(code, ops, ok) =>
        code in codes && Executes(code, ops, ok) && RunOf(codes, sys + [Thread([], ops)], events[1..], last)
  }

  ghost const OWNER_CODES: iset<Code> := iset task: Task | true :: TaskCode(task)

  ghost const LISTENER_CODES: iset<Code> := iset listener: Listener | true :: ListenerCode(listener)

  lemma {:induction false} DisciplinedRun(codes: iset<Code>, rank: Ranking, floor: int, sys: System, events: seq<Event>, last: System)
    requires RunOf(codes, sys, events, last) && forall code :: code in codes ==> Disciplined(code, rank, floor)
    ensures Reaches(sys, events, last, rank, floor)
    decreases |events|
  {
    if events != [] {
      match events[0]
      case Step(i) => DisciplinedRun(codes, rank, floor, sys[i := Performed(sys[i])], events[1..], last);
      case Spawn(code, ops, ok) => DisciplinedRun(codes, rank, floor, sys + [Thread([], ops)], events[1..], last);
    }
  }

  /** Some thread is not done, and none can go on. */
  predicate Deadlocked(sys: System) {
    (exists i :: 0 <= i < |sys| && sys[i].todo != []) && forall i :: 0 <= i < |sys| ==> !Enabled(sys, i)
  }

  lemma RunNeverDeadlocks(codes: iset<Code>, rank: Ranking, floor: int, events: seq<Event>, sys: System)
    requires RunOf(codes, [], events, sys) && forall code :: code in codes ==> Disciplined(code, rank, floor)
    ensures !Deadlocked(sys)
    ensures exists more: seq<Event>, last: System :: Reaches(sys, more, last, rank, floor)
              && forall i :: 0 <= i < |last| ==> last[i].todo == [] && last[i].held == []
  {
    DisciplinedRun(codes, rank, floor, [], events, sys);
    EveryoneCanFinish(events, sys, rank, floor);
    if exists i :: 0 <= i < |sys| && sys[i].todo != [] {
      NoDeadlock(events, sys, rank, floor);
      var i :| 0 <= i < |sys| && Possible(sys, Step(i), rank, floor);
      assert Enabled(sys, i);
    }
  }

  lemma OwnerCodesAreDisciplined()
    ensures forall code :: code in OWNER_CODES ==> Disciplined(code, OwnerRank, -1)
  {
    assert OwnerOrder(OwnerRank, -1);
    forall code | code in OWNER_CODES
      ensures Disciplined(code, OwnerRank, -1)
    {
      var task: Task :| code == TaskCode(task);
      TasksAreDisciplined(task, OwnerRank, -1);
    }
  }

  /** No interleaving of any number of requests, updaters and log threads deadlocks the owner process, and all of them
      can be brought to their ends. */
  lemma OwnerNeverDeadlocks(events: seq<Event>, sys: System)
    requires RunOf(OWNER_CODES, [], events, sys)
    ensures !Deadlocked(sys)
    ensures exists more: seq<Event>, last: System :: Reaches(sys, more, last, OwnerRank, -1)
              && forall i :: 0 <= i < |last| ==> last[i].todo == [] && last[i].held == []
  {
    OwnerCodesAreDisciplined();
    RunNeverDeadlocks(OWNER_CODES, OwnerRank, -1, events, sys);
  }

  /** Neither does the listener process. */
  lemma ListenersNeverDeadlock(events: seq<Event>, sys: System)
    requires RunOf(LISTENER_CODES, [], events, sys)
    ensures !Deadlocked(sys)
    ensures exists more: seq<Event>, last: System :: Reaches(sys, more, last, ListenerRank, -2)
              && forall i :: 0 <= i < |last| ==> last[i].todo == [] && last[i].held == []
  {
    forall code | code in LISTENER_CODES
      ensures Disciplined(code, ListenerRank, -2)
    {
      var listener: Listener :| code == ListenerCode(listener);
      ListenersAreDisciplined(listener, ListenerRank, -2);
    }
    RunNeverDeadlocks(LISTENER_CODES, ListenerRank, -2, events, sys);
  }

  // ---------- One process for both ----------

  lemma UpdateMaskTakesSecpFirst(rank: Ranking, floor: int)
    requires Disciplined(UPDATE_MASK, rank, floor)
    ensures rank(Secp) < rank(Mask)
  {
    assert Disciplined(Locked(Secp, Then(Fallible, Locked(Mask, Skip))), rank, floor);
    assert Disciplined(Then(Fallible, Locked(Mask, Skip)), rank, rank(Secp));
    assert Disciplined(Locked(Mask, Skip), rank, rank(Secp));
  }

  lemma WalletWorkTakesWalletFirst(rank: Ranking, floor: int)
    requires Disciplined(WALLET_WORK, rank, floor)
    ensures rank(Wallet) < rank(Secp)
  {
    var inner := Then(Loop(Locked(Secp, Fallible)), Fallible);
    assert Disciplined(Then(Fallible, inner), rank, rank(Wallet));
    assert Disciplined(inner, rank, rank(Wallet));
    assert Disciplined(Loop(Locked(Secp, Fallible)), rank, rank(Wallet));
    assert Disciplined(Locked(Secp, Fallible), rank, rank(Wallet));
  }

  /** Updating the mask takes secp before the mask, the listeners take the mask before the wallet, and the wallet is
      taken before secp. No order serves all three. */
  lemma NoCommonOrder(rank: Ranking, floor: int)
    ensures !(Disciplined(UPDATE_MASK, rank, floor) && Disciplined(ListenerCode(Tor), rank, floor)
              && Disciplined(WALLET_WORK, rank, floor))
  {
    if Disciplined(UPDATE_MASK, rank, floor) {
      UpdateMaskTakesSecpFirst(rank, floor);
    }
    if Disciplined(WALLET_WORK, rank, floor) {
      WalletWorkTakesWalletFirst(rank, floor);
    }
    assert Disciplined(Locked(Mask, WALLET_WORK), rank, floor) ==> Disciplined(WALLET_WORK, rank, rank(Mask));
    assert Disciplined(WALLET_WORK, rank, rank(Mask)) ==> rank(Mask) < rank(Wallet);
  }

  lemma ThenExecutes(first: Code, second: Code, a: seq<Op>, b: seq<Op>, ok: bool)
    requires Executes(first, a, true) && Executes(second, b, ok)
    ensures Executes(Then(first, second), a + b, ok)
  {
    var ops := a + b;
    assert ops[..|a|] == a && ops[|a|..] == b;
  }

  lemma LockedExecutes(lock: Lock, body: Code, inner: seq<Op>, ok: bool)
    requires Executes(body, inner, ok)
    ensures Executes(Locked(lock, body), [Acquire(lock)] + inner + [Release(lock)], ok)
  {
    var ops := [Acquire(lock)] + inner + [Release(lock)];
    assert ops[1..|ops| - 1] == inner;
  }

  lemma LoopExecutesOnce(body: Code, a: seq<Op>)
    requires a != [] && Executes(body, a, true)
    ensures Executes(Loop(body), a, true)
  {
    assert a[..|a|] == a && a[|a|..] == [];
  }

  function Hold(lock: Lock): seq<Op> {
    [Acquire(lock), Release(lock)]
  }

  lemma HoldExecutes(lock: Lock, ok: bool)
    ensures Executes(Locked(lock, Skip), Hold(lock), true) && Executes(Locked(lock, Fallible), Hold(lock), ok)
  {
    LockedExecutes(lock, Skip, [], true);
    LockedExecutes(lock, Fallible, [], ok);
    assert [Acquire(lock)] + [] + [Release(lock)] == Hold(lock);
  }

  lemma EitherExecutes(left: Code, right: Code, ops: seq<Op>, ok: bool)
    requires Executes(left, ops, ok) || Executes(right, ops, ok)
    ensures Executes(Either(left, right), ops, ok)
  {
  }

  /** Wallet work that looks into the secp context once. */
  const WORK_WITH_SECP := [Acquire(Wallet)] + Hold(Secp) + [Release(Wallet)]

  const NOTHING: seq<Op> := []

  lemma InnerWorkExecutes(ops: seq<Op>)
    requires Executes(Loop(Locked(Secp, Fallible)), ops, true)
    ensures Executes(WALLET_WORK, [Acquire(Wallet)] + ops + [Release(Wallet)], true)
  {
    var inner := Then(Loop(Locked(Secp, Fallible)), Fallible);
    assert NOTHING + ops == ops && ops + NOTHING == ops;
    ThenExecutes(Loop(Locked(Secp, Fallible)), Fallible, ops, NOTHING, true);
    ThenExecutes(Fallible, inner, NOTHING, ops, true);
    LockedExecutes(Wallet, Then(Fallible, inner), ops, true);
  }

  lemma WalletWorkExecutes()
    ensures Executes(WALLET_WORK, WORK_WITH_SECP, true) && Executes(WALLET_WORK, Hold(Wallet), true)
  {
    HoldExecutes(Secp, true);
    LoopExecutesOnce(Locked(Secp, Fallible), Hold(Secp));
    InnerWorkExecutes(Hold(Secp));
    assert Executes(Loop(Locked(Secp, Fallible)), NOTHING, true);
    InnerWorkExecutes(NOTHING);
    assert [Acquire(Wallet)] + NOTHING + [Release(Wallet)] == Hold(Wallet);
  }

  /** An encrypted `open_wallet`: two looks at the handler's key, the call, the mask, the sealing. */
  const OPENING := V3Request(true, OpenWallet(false), true)

  const CHECK_AND_CALL :=
    Then(Then(Locked(HandlerKey, Fallible), Locked(HandlerKey, Fallible)), Then(Either(WALLET_WORK, Skip), Fallible))

  const MASK_AND_SEAL := Then(UPDATE_MASK, Then(Locked(HandlerKey, Fallible), Skip))

  const CHECK_AND_CALL_OPS := Hold(HandlerKey) + Hold(HandlerKey) + Hold(Wallet)

  const MASK_AND_SEAL_OPS := [Acquire(Secp)] + Hold(Mask) + [Release(Secp)] + Hold(HandlerKey)

  lemma CheckAndCallExecutes()
    ensures Executes(CHECK_AND_CALL, CHECK_AND_CALL_OPS, true)
  {
    var key := Locked(HandlerKey, Fallible);
    HoldExecutes(HandlerKey, true);
    ThenExecutes(key, key, Hold(HandlerKey), Hold(HandlerKey), true);
    WalletWorkExecutes();
    EitherExecutes(WALLET_WORK, Skip, Hold(Wallet), true);
    ThenExecutes(Either(WALLET_WORK, Skip), Fallible, Hold(Wallet), NOTHING, true);
    assert Hold(Wallet) + NOTHING == Hold(Wallet);
    ThenExecutes(Then(key, key), Then(Either(WALLET_WORK, Skip), Fallible), Hold(HandlerKey) + Hold(HandlerKey), Hold(Wallet), true);
  }

  lemma MaskAndSealExecutes()
    ensures Executes(MASK_AND_SEAL, MASK_AND_SEAL_OPS, true)
  {
    HoldExecutes(Mask, true);
    ThenExecutes(Fallible, Locked(Mask, Skip), NOTHING, Hold(Mask), true);
    assert NOTHING + Hold(Mask) == Hold(Mask);
    LockedExecutes(Secp, Then(Fallible, Locked(Mask, Skip)), Hold(Mask), true);
    var setting := [Acquire(Secp)] + Hold(Mask) + [Release(Secp)];
    EitherExecutes(Skip, Locked(Secp, Then(Fallible, Locked(Mask, Skip))), setting, true);
    HoldExecutes(HandlerKey, true);
    ThenExecutes(Locked(HandlerKey, Fallible), Skip, Hold(HandlerKey), NOTHING, true);
    assert Hold(HandlerKey) + NOTHING == Hold(HandlerKey);
    ThenExecutes(UPDATE_MASK, Then(Locked(HandlerKey, Fallible), Skip), setting, Hold(HandlerKey), true);
  }

  lemma OpeningExecutes()
    ensures Executes(TaskCode(OPENING), CHECK_AND_CALL_OPS + MASK_AND_SEAL_OPS, true)
  {
    CheckAndCallExecutes();
    MaskAndSealExecutes();
    ThenExecutes(CHECK_AND_CALL, MASK_AND_SEAL, CHECK_AND_CALL_OPS, MASK_AND_SEAL_OPS, true);
    assert TaskCode(OPENING) == Then(CHECK_AND_CALL, MASK_AND_SEAL);
  }

  lemma {:induction false} OneMoreEvent(codes: iset<Code>, start: System, events: seq<Event>, sys: System, event: Event, next: System)
    requires RunOf(codes, start, events, sys) && RunOf(codes, sys, [event], next)
    ensures RunOf(codes, start, events + [event], next)
    decreases |events|
  {
    if events == [] {
      assert events + [event] == [event];
    } else {
      var all := events + [event];
      assert all[0] == events[0] && all[1..] == events[1..] + [event];
      match events[0]
      case Step(i) => OneMoreEvent(codes, start[i := Performed(start[i])], events[1..], sys, event, next);
      case Spawn(_, ops, _) => OneMoreEvent(codes, start + [Thread([], ops)], events[1..], sys, event, next);
    }
  }

  /** The next `n` operations release what is held, and acquire what nobody holds. */
  predicate Unhindered(sys: System, t: Thread, n: nat)
    requires n <= |t.todo|
    decreases n
  {
    n == 0 ||
    (match t.todo[0]
     case Acquire(lock) => !Taken(sys, lock) && lock !in t.held && Unhindered(sys, Performed(t), n - 1)
     case Release(_) => t.held != [] && Unhindered(sys, Performed(t), n - 1))
  }

  /** A thread after its next `n` operations. */
  function Went(t: Thread, n: nat): Thread
    requires n <= |t.todo|
    decreases n
  {
    if n == 0 || (t.todo[0].Release? && t.held == []) then t else Went(Performed(t), n - 1)
  }

  /** The last thread takes `n` steps while the others stand still. */
  lemma {:induction false} LastThreadGoes(codes: iset<Code>, events: seq<Event>, sys: System, t: Thread, n: nat) returns (more: seq<Event>)
    requires RunOf(codes, [], events, sys + [t]) && n <= |t.todo| && Unhindered(sys, t, n)
    ensures RunOf(codes, [], more, sys + [Went(t, n)])
    decreases n
  {
    more := events;
    if n > 0 {
      var all, last := sys + [t], |sys|;
      var now := all[last := Performed(t)];
      assert all[last] == t && now == sys + [Performed(t)];
      assert RunOf(codes, now, [], now);
      OneMoreEvent(codes, [], events, all, Step(last), now);
      more := LastThreadGoes(codes, events + [Step(last)], sys, Performed(t), n - 1);
    }
  }

  /** A new thread starts and takes `n` steps. */
  lemma NewThreadGoes(codes: iset<Code>, events: seq<Event>, sys: System, code: Code, ops: seq<Op>, n: nat) returns (more: seq<Event>)
    requires RunOf(codes, [], events, sys) && code in codes && Executes(code, ops, true)
    requires n <= |ops| && Unhindered(sys, Thread([], ops), n)
    ensures RunOf(codes, [], more, sys + [Went(Thread([], ops), n)])
  {
    var started := sys + [Thread([], ops)];
    assert RunOf(codes, started, [], started);
    OneMoreEvent(codes, [], events, sys, Spawn(code, ops, true), started);
    more := LastThreadGoes(codes, events + [Spawn(code, ops, true)], sys, Thread([], ops), n);
  }

  const TOR_OPS := [Acquire(Mask)] + Hold(Wallet) + [Release(Mask)]

  lemma OthersExecute()
    ensures Executes(ListenerCode(Tor), TOR_OPS, true) && Executes(TaskCode(V2Request(WalletMethod)), WORK_WITH_SECP, true)
  {
    WalletWorkExecutes();
    LockedExecutes(Mask, WALLET_WORK, Hold(Wallet), true);
    ThenExecutes(WALLET_WORK, Fallible, WORK_WITH_SECP, NOTHING, true);
    assert WORK_WITH_SECP + NOTHING == WORK_WITH_SECP;
  }

  /** A thread that goes on with operation `k` of `ops` and holds nothing comes, alone, to hold just the lock of
      operation `last`. */
  ghost predicate Comes(ops: seq<Op>, k: nat, last: nat)
    requires k <= last < |ops|
  {
    var t, n := Thread([], ops[k..]), last + 1 - k;
    ops[last].Acquire? && Unhindered([], t, n) && Went(t, n) == Thread([ops[last].lock], ops[last + 1..])
  }

  lemma ComesAtOnce(ops: seq<Op>, last: nat)
    requires last < |ops| && ops[last].Acquire?
    ensures Comes(ops, last, last)
  {
    var t := Thread([], ops[last..]);
    assert t.todo[1..] == ops[last + 1..];
    assert Performed(t) == Thread([ops[last].lock], ops[last + 1..]);
  }

  lemma ComesAfterHold(ops: seq<Op>, k: nat, last: nat)
    requires k + 2 <= last < |ops| && Comes(ops, k + 2, last)
    requires ops[k].Acquire? && ops[k + 1] == Release(ops[k].lock)
    ensures Comes(ops, k, last)
  {
    var t := Thread([], ops[k..]);
    var u := Performed(t);
    assert u == Thread([ops[k].lock], ops[k + 1..]);
    assert Performed(u) == Thread([], ops[k + 2..]);
  }

  /** The opening thread may come to hold the secp context, with the mask to take next. */
  lemma OpeningComesToMask()
    ensures Comes(CHECK_AND_CALL_OPS + MASK_AND_SEAL_OPS, 0, 6)
    ensures var ops := CHECK_AND_CALL_OPS + MASK_AND_SEAL_OPS; ops[6] == Acquire(Secp) && ops[7] == Acquire(Mask)
  {
    var ops := CHECK_AND_CALL_OPS + MASK_AND_SEAL_OPS;
    assert CHECK_AND_CALL_OPS == [Acquire(HandlerKey), Release(HandlerKey), Acquire(HandlerKey), Release(HandlerKey),
                                  Acquire(Wallet), Release(Wallet)];
    assert MASK_AND_SEAL_OPS[0] == Acquire(Secp) && MASK_AND_SEAL_OPS[1] == Acquire(Mask);
    ComesAfterThree(ops);
  }

  lemma ComesAfterThree(ops: seq<Op>)
    requires |ops| > 6 && ops[0] == ops[2] == Acquire(HandlerKey) && ops[1] == ops[3] == Release(HandlerKey)
    requires ops[4] == Acquire(Wallet) && ops[5] == Release(Wallet) && ops[6] == Acquire(Secp)
    ensures Comes(ops, 0, 6)
  {
    ComesAtOnce(ops, 6);
    ComesAfterHold(ops, 4, 6);
    ComesAfterHold(ops, 2, 6);
    ComesAfterHold(ops, 0, 6);
  }

  /** It holds one lock and waits for another. */
  predicate Waits(t: Thread, held: Lock, wanted: Lock) {
    t.held == [held] && t.todo != [] && t.todo[0] == Acquire(wanted)
  }

  /** Each of the three holds the lock that the one before it wants. */
  lemma CircleIsDeadlocked(a: Thread, b: Thread, c: Thread)
    requires Waits(a, Secp, Mask) && Waits(b, Mask, Wallet) && Waits(c, Wallet, Secp)
    ensures Deadlocked([a, b, c])
  {
    var sys := [a, b, c];
    assert Secp in sys[0].held && Mask in sys[1].held && Wallet in sys[2].held;
    assert Taken(sys, Secp) && Taken(sys, Mask) && Taken(sys, Wallet);
  }

  ghost const MIXED_CODES: iset<Code> := OWNER_CODES + LISTENER_CODES

  lemma OpeningWaits() returns (events: seq<Event>, a: Thread)
    ensures RunOf(MIXED_CODES, [], events, [a]) && Waits(a, Secp, Mask)
  {
    var ops := CHECK_AND_CALL_OPS + MASK_AND_SEAL_OPS;
    OpeningExecutes();
    OpeningComesToMask();
    assert TaskCode(OPENING) in OWNER_CODES;
    assert ops[0..] == ops;
    a := Went(Thread([], ops), 7);
    events := NewThreadGoes(MIXED_CODES, [], [], TaskCode(OPENING), ops, 7);
    assert [] + [a] == [a];
  }

  /** A thread whose first operation takes a free lock waits for its second. */
  lemma NewThreadWaits(codes: iset<Code>, before: seq<Event>, sys: System, code: Code, ops: seq<Op>, held: Lock, wanted: Lock)
      returns (events: seq<Event>, t: Thread)
    requires RunOf(codes, [], before, sys) && code in codes && Executes(code, ops, true)
    requires |ops| >= 2 && ops[0] == Acquire(held) && ops[1] == Acquire(wanted) && !Taken(sys, held)
    ensures RunOf(codes, [], events, sys + [t]) && Waits(t, held, wanted)
  {
    ComesAtOnce(ops, 0);
    assert ops[0..] == ops;
    t := Went(Thread([], ops), 1);
    events := NewThreadGoes(codes, before, sys, code, ops, 1);
  }

  /** If one process ran both on one mask cell, an `open_wallet`, the start of the tor listener and any wallet call could
      wait for one another for ever. */
  lemma SharedMaskDeadlocks()
    ensures exists events, sys :: RunOf(MIXED_CODES, [], events, sys) && Deadlocked(sys)
  {
    OthersExecute();
    assert ListenerCode(Tor) in LISTENER_CODES && TaskCode(V2Request(WalletMethod)) in OWNER_CODES;
    var one, a := OpeningWaits();
    var two, b := NewThreadWaits(MIXED_CODES, one, [a], ListenerCode(Tor), TOR_OPS, Mask, Wallet);
    assert [a] + [b] == [a, b];
    var three, c := NewThreadWaits(MIXED_CODES, two, [a, b], TaskCode(V2Request(WalletMethod)), WORK_WITH_SECP, Wallet, Secp);
    assert [a, b] + [c] == [a, b, c];
    CircleIsDeadlocked(a, b, c);
  }
}
