/** The Owner V3 session of controller/src/controller.rs under concurrency: any number of requests in flight, one
    atomic step per lock acquisition.

    There are two key cells. `init_secure_api` writes the Owner's cell; the handler copies it into its own cell after
    the reply is built, and keeps the Owner's cell locked until the copy is done. Requests are opened, and replies sealed,
    under the handler's cell. */
module SecureSession {
  import opened Wrappers

  /** The identity of a shared key. */
  type Key = nat

  /** The identity of a request. */
  type Rid = nat

  datatype Inner = Init | Call

  /** What arrives: a plaintext `init_secure_api`, any other plaintext, or a request sealed under some key. */
  datatype Body = PlainInit | PlainOther | Sealed(key: Key, inner: Inner)

  datatype Ending =
    | Refused      // -32001, no session yet
    | Unreadable   // -32002, not an encrypted request or not under the handler's key
    | NoReply      // a notification
    | SealFailed   // -32003
    | Replied

  datatype Phase =
    | Arrived
    | Started                    // check_encryption_started passed
    | Opened                     // decrypt_request passed
    | Answered                   // handle_request returned a reply
    | ReplySealed                // encrypt_response passed
    | Copying(seen: Option<Key>) // holds the Owner's cell, has read it
    | Done(ending: Ending)
    | Panicked                   // an `unwrap` of the handler's cell met None

  /** A request with the history of what it did. `openedAt` and `sealedAt` are the handler's copy count then. */
  datatype Request = Request(body: Body, phase: Phase, ok: bool, wrote: Option<Key>,
                             openedWith: Option<Key>, openedAt: nat, sealedWith: Option<Key>, sealedAt: nat)
  {
    predicate IsInit() {
      body.PlainInit? || (body.Sealed? && body.inner.Init?)
    }

    /** It put a key into the Owner's cell and did not end with a success reply. */
    predicate Unsettled() {
      wrote.Some? && !(phase == Done(Replied) && ok)
    }
  }

  /** `log` lists the keys written to the Owner's cell, `copied` says how many of them existed at the last copy. */
  datatype State = State(requests: map<Rid, Request>, handlerKey: Option<Key>, ownerKey: Option<Key>,
                         guard: Option<Rid>, log: seq<(Rid, Key)>, copied: nat)

  const START := State(map[], None, None, None, [], 0)

  datatype Action =
    | Arrive(body: Body)
    | Check
    | Open
    | Execute(write: Option<Key>, ok: bool, reply: bool)
    | SealReply(fails: bool)
    | BeginCopy
    | EndCopy
    | Finish

  function Moved(s: State, r: Rid, q: Request): State {
    s.(requests := s.requests[r := q])
  }

  /** `handle_request`: the call runs, and an init may write the Owner's cell before it succeeds or fails. */
  function Executed(s: State, r: Rid, q: Request, write: Option<Key>, ok: bool, reply: bool): Option<State> {
    var answered := q.(ok := ok, wrote := write, phase := if reply then Answered else Done(NoReply));
    match write
    case None =>
      if q.IsInit() && ok then None else Some(Moved(s, r, answered))
    case Some(key) =>
      if !q.IsInit() || s.guard.Some? then None
      else Some(Moved(s, r, answered).(ownerKey := write, log := s.log + [(r, key)]))
  }

  /** One atomic step of request `r`; None when the step is not enabled. */
  function Next(s: State, r: Rid, a: Action): Option<State> {
    if a.Arrive? then
      if r in s.requests then None
      else Some(Moved(s, r, Request(a.body, Arrived, false, None, None, 0, None, 0)))
    else if r !in s.requests then None
    else
      var q := s.requests[r];
      match a
      case Check =>
        if q.phase != Arrived || q.body.PlainInit? then None
        else Some(Moved(s, r, q.(phase := if s.handlerKey.Some? then Started else Done(Refused))))
      case Open =>
        if q.phase != Started then None
        else if s.handlerKey.None? then Some(Moved(s, r, q.(phase := Panicked)))
        else if q.body.Sealed? && Some(q.body.key) == s.handlerKey then
          Some(Moved(s, r, q.(phase := Opened, openedWith := s.handlerKey, openedAt := s.copied)))
        else Some(Moved(s, r, q.(phase := Done(Unreadable))))
      case Execute(write, ok, reply) =>
        if q.phase == Opened || (q.phase == Arrived && q.body.PlainInit?) then Executed(s, r, q, write, ok, reply)
        else None
      case SealReply(fails) =>
        if q.phase != Answered || !q.body.Sealed? then None
        else if s.handlerKey.None? then Some(Moved(s, r, q.(phase := Panicked)))
        else if fails then Some(Moved(s, r, q.(phase := Done(SealFailed))))
        else Some(Moved(s, r, q.(phase := ReplySealed, sealedWith := s.handlerKey, sealedAt := s.copied)))
      case BeginCopy =>
        if !q.IsInit() || q.phase != (if q.body.Sealed? then ReplySealed else Answered) || s.guard.Some? then None
        else Some(Moved(s, r, q.(phase := Copying(s.ownerKey))).(guard := Some(r)))
      case EndCopy =>
        if !q.phase.Copying? then None
        else
          var released := Moved(s, r, q.(phase := Done(Replied))).(guard := None);
          Some(if q.ok then released.(handlerKey := q.phase.seen, copied := |s.log|) else released)
      case Finish =>
        if q.phase != ReplySealed || q.IsInit() then None
        else Some(Moved(s, r, q.(phase := Done(Replied))))
  }

  type Event = (Rid, Action)

  /** The state after a sequence of steps, None if one of them is not enabled. */
  function Run(s: State, events: seq<Event>): Option<State>
    decreases |events|
  {
    if events == [] then Some(s)
    else
      match Next(s, events[0].0, events[0].1)
      case None => None
      case Some(s') => Run(s', events[1..])
  }

  // ---------- The invariant ----------

  /** The key that `n` writes leave in the Owner's cell. */
  function KeyAt(log: seq<(Rid, Key)>, n: nat): Option<Key>
    requires n <= |log|
  {
    if n == 0 then None else Some(log[n - 1].1)
  }

  /** Past `check_encryption_started`, on the way to opening the request or sealing the reply. */
  predicate NeedsHandlerKey(q: Request) {
    q.phase == Started || q.phase == Opened || q.phase == ReplySealed
    || (q.body.Sealed? && (q.phase == Answered || q.phase.Copying?))
  }

  ghost predicate Sound(s: State, r: Rid)
    requires r in s.requests && s.copied <= |s.log|
  {
    var q := s.requests[r];
    && !q.phase.Panicked?
    && (q.phase.Copying? <==> s.guard == Some(r))
    && (q.phase.Copying? ==> q.IsInit() && q.phase.seen == s.ownerKey)
    && (NeedsHandlerKey(q) ==> s.handlerKey.Some?)
    && (q.phase == Started ==> !q.body.PlainInit?)
    && (q.phase == Arrived || q.phase == Started || q.phase == Opened ==> q.wrote.None?)
    && (q.wrote.Some? ==> q.IsInit() && (r, q.wrote.value) in s.log)
    && (q.IsInit() && q.ok && (q.phase == Answered || q.phase == ReplySealed || q.phase.Copying?) ==> q.wrote.Some?)
    && (q.phase == Arrived || q.phase == Started || q.phase == Opened || q.phase == Answered ==> q.sealedWith.None?)
    && q.openedAt <= s.copied && q.sealedAt <= s.copied
    && (q.openedWith.Some? ==> q.openedWith == KeyAt(s.log, q.openedAt) && q.body.Sealed? && q.openedWith == Some(q.body.key))
    && (q.sealedWith.Some? ==> q.openedWith.Some? && q.sealedWith == KeyAt(s.log, q.sealedAt) && q.openedAt <= q.sealedAt)
    && (q.phase == Opened || (q.body.Sealed? && q.phase == Answered) ==> q.openedWith.Some?)
  }

  /** Each write belongs to one request. */
  ghost predicate LogSound(s: State) {
    && (forall i :: 0 <= i < |s.log| ==> s.log[i].0 in s.requests && s.requests[s.log[i].0].wrote == Some(s.log[i].1))
    && (forall i, j :: 0 <= i < j < |s.log| ==> s.log[i].0 != s.log[j].0)
  }

  ghost predicate CellsSound(s: State) {
    && s.copied <= |s.log|
    && s.ownerKey == KeyAt(s.log, |s.log|)
    && s.handlerKey == KeyAt(s.log, s.copied)
    && (s.guard.Some? ==> s.guard.value in s.requests)
  }

  ghost predicate RequestsSound(s: State)
    requires s.copied <= |s.log|
  {
    forall r {:trigger Sound(s, r)} :: r in s.requests ==> Sound(s, r)
  }

  /** If a key was written after the last copy, its writer is still at work or has failed. */
  ghost predicate LastWriterUnsettled(s: State)
    requires LogSound(s)
  {
    s.copied < |s.log| ==> s.requests[s.log[|s.log| - 1].0].Unsettled()
  }

  ghost predicate Valid(s: State) {
    CellsSound(s) && RequestsSound(s) && LogSound(s) && LastWriterUnsettled(s)
  }

  /** The invariant of a request that does not move, when the cells do. */
  lemma BystanderStaysSound(s: State, s': State, t: Rid)
    requires t in s.requests && t in s'.requests && s'.requests[t] == s.requests[t]
    requires s.copied <= s'.copied && s.copied <= |s.log| && s'.copied <= |s'.log| && s.log <= s'.log
    requires s.handlerKey.Some? ==> s'.handlerKey.Some?
    requires s'.guard == Some(t) <==> s.guard == Some(t)
    requires s.guard == Some(t) ==> s'.ownerKey == s.ownerKey
    requires Sound(s, t)
    ensures Sound(s', t)
  {
    var q := s.requests[t];
    if q.wrote.Some? {
      assert (t, q.wrote.value) in s'.log by {
        var i :| 0 <= i < |s.log| && s.log[i] == (t, q.wrote.value);
        assert s'.log[i] == s.log[i];
      }
    }
  }

  /** `s'` differs from `s` in request `r` and in what `r` may do to the cells. */
  ghost predicate ActsAlone(s: State, s': State, r: Rid) {
    && r in s'.requests && s'.requests == s.requests[r := s'.requests[r]]
    && s.log <= s'.log && s.copied <= s'.copied && s'.copied <= |s'.log|
    && (s.handlerKey.Some? ==> s'.handlerKey.Some?)
    && (s'.guard == s.guard || (s.guard == None && s'.guard == Some(r)) || (s.guard == Some(r) && s'.guard == None))
    && (s'.ownerKey == s.ownerKey || s.guard == None)
  }

  lemma RequestsStaySound(s: State, s': State, r: Rid)
    requires CellsSound(s) && RequestsSound(s) && ActsAlone(s, s', r) && Sound(s', r)
    ensures RequestsSound(s')
  {
    forall t | t in s'.requests
      ensures Sound(s', t)
    {
      if t != r {
        assert Sound(s, t);
        BystanderStaysSound(s, s', t);
      }
    }
  }

  lemma LogStaysSound(s: State, s': State, r: Rid)
    requires LogSound(s) && s'.log == s.log
    requires r in s'.requests && s'.requests == s.requests[r := s'.requests[r]]
    requires r in s.requests ==> s'.requests[r].wrote == s.requests[r].wrote
    ensures LogSound(s')
  {
  }

  lemma LogGrowsSound(s: State, s': State, r: Rid, key: Key)
    requires LogSound(s) && s'.log == s.log + [(r, key)]
    requires r in s.requests && s.requests[r].wrote.None?
    requires r in s'.requests && s'.requests == s.requests[r := s'.requests[r]] && s'.requests[r].wrote == Some(key)
    ensures LogSound(s')
  {
    assert forall i :: 0 <= i < |s.log| ==> s.log[i].0 != r;
  }

  /** A step that only moves one request along, without touching a cell. */
  lemma MoveIsValid(s: State, r: Rid, q: Request)
    requires Valid(s) && Sound(Moved(s, r, q), r)
    requires if r in s.requests then q.wrote == s.requests[r].wrote else q.wrote.None?
    requires r in s.requests && s.requests[r].Unsettled() ==> q.Unsettled()
    ensures Valid(Moved(s, r, q))
  {
    RequestsStaySound(s, Moved(s, r, q), r);
    LogStaysSound(s, Moved(s, r, q), r);
  }

  lemma WriteIsValid(s: State, s': State, r: Rid, key: Key)
    requires Valid(s) && r in s.requests && s.requests[r].wrote.None? && s.guard.None?
    requires r in s'.requests && s'.requests[r].wrote == Some(key) && s'.requests[r].Unsettled()
    requires s' == Moved(s, r, s'.requests[r]).(ownerKey := Some(key), log := s.log + [(r, key)])
    requires Sound(s', r)
    ensures Valid(s')
  {
    RequestsStaySound(s, s', r);
    LogGrowsSound(s, s', r, key);
  }

  lemma ExecuteIsValid(s: State, r: Rid, write: Option<Key>, ok: bool, reply: bool)
    requires Valid(s) && Next(s, r, Execute(write, ok, reply)).Some?
    ensures Valid(Next(s, r, Execute(write, ok, reply)).value)
  {
    assert Sound(s, r);
    var s' := Next(s, r, Execute(write, ok, reply)).value;
    if write.None? {
      MoveIsValid(s, r, s'.requests[r]);
    } else {
      assert s'.log[|s.log|] == (r, write.value);
      WriteIsValid(s, s', r, write.value);
    }
  }

  lemma BeginCopyIsValid(s: State, r: Rid)
    requires Valid(s) && Next(s, r, BeginCopy).Some?
    ensures Valid(Next(s, r, BeginCopy).value)
  {
    var s' := Next(s, r, BeginCopy).value;
    assert Sound(s, r);
    RequestsStaySound(s, s', r);
    LogStaysSound(s, s', r);
  }

  lemma EndCopyIsValid(s: State, r: Rid)
    requires Valid(s) && Next(s, r, EndCopy).Some?
    ensures Valid(Next(s, r, EndCopy).value)
  {
    var s' := Next(s, r, EndCopy).value;
    assert Sound(s, r);
    RequestsStaySound(s, s', r);
    LogStaysSound(s, s', r);
  }

  lemma OpenIsValid(s: State, r: Rid)
    requires Valid(s) && Next(s, r, Open).Some?
    ensures Valid(Next(s, r, Open).value)
  {
    assert Sound(s, r);
    MoveIsValid(s, r, Next(s, r, Open).value.requests[r]);
  }

  lemma SealReplyIsValid(s: State, r: Rid, fails: bool)
    requires Valid(s) && Next(s, r, SealReply(fails)).Some?
    ensures Valid(Next(s, r, SealReply(fails)).value)
  {
    assert Sound(s, r);
    MoveIsValid(s, r, Next(s, r, SealReply(fails)).value.requests[r]);
  }

  lemma PlainStepIsValid(s: State, r: Rid, a: Action)
    requires Valid(s) && (a.Arrive? || a.Check? || a.Finish?) && Next(s, r, a).Some?
    ensures Valid(Next(s, r, a).value)
  {
    assert r in s.requests ==> Sound(s, r);
    MoveIsValid(s, r, Next(s, r, a).value.requests[r]);
  }

  /** Every step of every request keeps the invariant. */
  lemma NextIsValid(s: State, r: Rid, a: Action)
    requires Valid(s) && Next(s, r, a).Some?
    ensures Valid(Next(s, r, a).value)
  {
    match a
    case Open => OpenIsValid(s, r);
    case Execute(write, ok, reply) => ExecuteIsValid(s, r, write, ok, reply);
    case SealReply(fails) => SealReplyIsValid(s, r, fails);
    case BeginCopy => BeginCopyIsValid(s, r);
    case EndCopy => EndCopyIsValid(s, r);
    case _ => PlainStepIsValid(s, r, a);
  }

  /** Nothing is forgotten: writes are appended, and the handler never falls back behind an earlier copy. */
  lemma NextGoesForward(s: State, r: Rid, a: Action)
    requires Valid(s) && Next(s, r, a).Some?
    ensures var s' := Next(s, r, a).value; s.copied <= s'.copied && s.log <= s'.log
    ensures forall t :: t in s.requests ==> t in Next(s, r, a).value.requests
  {
  }

  lemma {:induction false} RunsAreValid(s: State, events: seq<Event>)
    requires Valid(s) && Run(s, events).Some?
    ensures var s' := Run(s, events).value; Valid(s') && s.copied <= s'.copied && s.log <= s'.log
    decreases |events|
  {
    if events != [] {
      var (r, a) := events[0];
      NextIsValid(s, r, a);
      NextGoesForward(s, r, a);
      RunsAreValid(Next(s, r, a).value, events[1..]);
    }
  }

  // ---------- What holds in every run ----------

  lemma OneStep(s: State, events: seq<Event>, k: nat, s': State)
    requires k < |events| && Next(s, events[k].0, events[k].1) == Some(s')
    ensures Run(s, events[k..]) == Run(s', events[k + 1..])
  {
    assert events[k..][1..] == events[k + 1..];
  }

  /** In every interleaving: the cells agree, or the request that wrote last is still at work or failed. */
  lemma CellsAgreeOrLastWriterIsUnsettled(events: seq<Event>)
    requires Run(START, events).Some?
    ensures var s := Run(START, events).value;
            || s.handlerKey == s.ownerKey
            || (s.log != [] && s.log[|s.log| - 1].0 in s.requests && s.requests[s.log[|s.log| - 1].0].Unsettled())
  {
    RunsAreValid(START, events);
  }

  /** When all requests are done and every request that wrote a key was answered with success, the cells agree. */
  lemma CellsAgreeAtRest(events: seq<Event>)
    requires Run(START, events).Some?
    requires var s := Run(START, events).value;
             forall r :: r in s.requests && s.requests[r].wrote.Some? ==> s.requests[r].phase == Done(Replied) && s.requests[r].ok
    ensures Run(START, events).value.handlerKey == Run(START, events).value.ownerKey
  {
    CellsAgreeOrLastWriterIsUnsettled(events);
  }

  /** Every session got its own key. */
  ghost predicate KeysDiffer(s: State) {
    forall i, j :: 0 <= i < j < |s.log| ==> s.log[i].1 != s.log[j].1
  }

  /** The cells agree exactly when the last write has been copied. */
  lemma CellsAgreeIff(events: seq<Event>)
    requires Run(START, events).Some? && KeysDiffer(Run(START, events).value)
    ensures var s := Run(START, events).value; s.handlerKey == s.ownerKey <==> s.copied == |s.log|
  {
    RunsAreValid(START, events);
  }

  /** An init sent as a notification runs, writes the Owner's cell, and gets no reply and no copy: at rest the Owner
      has a key and the handler has none. */
  lemma NotificationLeavesCellsApart(events: seq<Event>, key: Key)
    requires events == [(0, Arrive(PlainInit)), (0, Execute(Some(key), true, false))]
    ensures Run(START, events).Some?
    ensures var s := Run(START, events).value;
            s.ownerKey == Some(key) && s.handlerKey == None && forall r :: r in s.requests ==> s.requests[r].phase == Done(NoReply)
  {
    var s1 := Next(START, 0, Arrive(PlainInit)).value;
    var s2 := Next(s1, 0, Execute(Some(key), true, false)).value;
    OneStep(START, events, 0, s1);
    OneStep(s1, events, 1, s2);
    assert events[0..] == events && events[2..] == [];
  }

  /** Once there is a session there always is one, its key is one that was written, and no `unwrap` fails. */
  lemma SessionNeverEnds(before: seq<Event>, after: seq<Event>)
    requires Run(START, before).Some? && Run(Run(START, before).value, after).Some?
    ensures var s, s' := Run(START, before).value, Run(Run(START, before).value, after).value;
            && (s.handlerKey.Some? ==> s'.handlerKey.Some?)
            && (s'.handlerKey.Some? ==> exists i :: 0 <= i < |s'.log| && s'.log[i].1 == s'.handlerKey.value)
            && (forall r :: r in s'.requests ==> !s'.requests[r].phase.Panicked?)
  {
    RunsAreValid(START, before);
    var s := Run(START, before).value;
    RunsAreValid(s, after);
    var s' := Run(s, after).value;
    forall r | r in s'.requests
      ensures !s'.requests[r].phase.Panicked?
    {
      assert Sound(s', r);
    }
    if s'.handlerKey.Some? {
      assert s'.log[s'.copied - 1].1 == s'.handlerKey.value;
    }
  }

  // ---------- Whose key opens a request and seals its reply ----------

  /** A request is only ever opened with the key that sealed it. */
  lemma OpenedWithItsOwnKey(events: seq<Event>, r: Rid)
    requires Run(START, events).Some?
    requires var s := Run(START, events).value; r in s.requests && s.requests[r].openedWith.Some?
    ensures var q := Run(START, events).value.requests[r]; q.body.Sealed? && q.openedWith == Some(q.body.key)
  {
    RunsAreValid(START, events);
    assert Sound(Run(START, events).value, r);
  }

  /** A request gets past its check exactly if there is a session, and past opening exactly if it was sealed under the
      handler's key; else it ends, with -32001 or -32002. */
  lemma AdmittedIff(events: seq<Event>, r: Rid)
    requires Run(START, events).Some? && r in Run(START, events).value.requests
    ensures var s := Run(START, events).value;
            && (Next(s, r, Check).Some? ==>
                  Next(s, r, Check).value.requests[r].phase == if s.handlerKey.Some? then Started else Done(Refused))
            && (Next(s, r, Open).Some? ==>
                  var q := Next(s, r, Open).value.requests[r];
                  if q.body.Sealed? && s.handlerKey == Some(q.body.key) then q.phase == Opened && q.openedWith == s.handlerKey
                  else q.phase == Done(Unreadable))
  {
    RunsAreValid(START, events);
    assert Sound(Run(START, events).value, r);
  }

  /** A reply is sealed with the key that opened the request, exactly if no newer key was copied in between. */
  lemma ReplyKeyMatchesIff(events: seq<Event>, r: Rid)
    requires Run(START, events).Some?
    requires var s := Run(START, events).value;
             KeysDiffer(s) && r in s.requests && s.requests[r].sealedWith.Some?
    ensures var q := Run(START, events).value.requests[r];
            q.sealedWith == q.openedWith <==> q.sealedAt == q.openedAt
  {
    RunsAreValid(START, events);
    assert Sound(Run(START, events).value, r);
  }

  /** After a successful copy the handler holds the requester's own key, exactly if nobody wrote after it. */
  lemma CopyInstallsOwnKeyIff(events: seq<Event>, r: Rid)
    requires Run(START, events).Some?
    requires var s := Run(START, events).value;
             KeysDiffer(s) && Next(s, r, EndCopy).Some? && s.requests[r].ok
    ensures var s := Run(START, events).value;
            && s.log != []
            && (Next(s, r, EndCopy).value.handlerKey == s.requests[r].wrote <==> s.log[|s.log| - 1].0 == r)
  {
    RunsAreValid(START, events);
    var s := Run(START, events).value;
    assert Sound(s, r);
    var i :| 0 <= i < |s.log| && s.log[i] == (r, s.requests[r].wrote.value);
    assert s.log[|s.log| - 1].1 == s.log[i].1 <==> i == |s.log| - 1;
    assert s.log[|s.log| - 1].0 == r <==> i == |s.log| - 1;
  }

  function InitSteps(r: Rid, key: Key): seq<Event> {
    [(r, Arrive(PlainInit)), (r, Execute(Some(key), true, true)), (r, BeginCopy), (r, EndCopy)]
  }

  /** A plaintext init from start to end. */
  lemma WholeInit(s: State, events: seq<Event>, k: nat, r: Rid, key: Key) returns (s': State)
    requires k + 4 <= |events| && r !in s.requests && s.guard.None?
    requires events[k..k + 4] == InitSteps(r, key)
    ensures Run(s, events[k..]) == Run(s', events[k + 4..])
    ensures s'.handlerKey == Some(key) && s'.guard.None?
    ensures forall t :: t != r ==> (t in s'.requests <==> t in s.requests)
    ensures forall t :: t != r && t in s.requests ==> s'.requests[t] == s.requests[t]
  {
    assert events[k] == events[k..k + 4][0] && events[k + 1] == events[k..k + 4][1];
    assert events[k + 2] == events[k..k + 4][2] && events[k + 3] == events[k..k + 4][3];
    var s1 := Next(s, r, Arrive(PlainInit)).value;
    var s2 := Next(s1, r, Execute(Some(key), true, true)).value;
    var s3 := Next(s2, r, BeginCopy).value;
    s' := Next(s3, r, EndCopy).value;
    OneStep(s, events, k, s1);
    OneStep(s1, events, k + 1, s2);
    OneStep(s2, events, k + 2, s3);
    OneStep(s3, events, k + 3, s');
  }

  lemma CallIsOpened(s: State, events: seq<Event>, k: nat, r: Rid, key: Key) returns (s': State)
    requires k + 3 <= |events| && r !in s.requests && s.guard.None? && s.handlerKey == Some(key)
    requires events[k..k + 3] == [(r, Arrive(Sealed(key, Call))), (r, Check), (r, Open)]
    ensures Run(s, events[k..]) == Run(s', events[k + 3..])
    ensures s'.requests == s.requests[r := Request(Sealed(key, Call), Opened, false, None, Some(key), s.copied, None, 0)]
    ensures s'.guard.None?
  {
    assert events[k] == events[k..k + 3][0] && events[k + 1] == events[k..k + 3][1] && events[k + 2] == events[k..k + 3][2];
    var s1 := Next(s, r, Arrive(Sealed(key, Call))).value;
    var s2 := Next(s1, r, Check).value;
    s' := Next(s2, r, Open).value;
    OneStep(s, events, k, s1);
    OneStep(s1, events, k + 1, s2);
    OneStep(s2, events, k + 2, s');
  }

  lemma CallIsReplied(s: State, events: seq<Event>, k: nat, r: Rid) returns (s': State)
    requires k + 3 == |events| && r in s.requests && s.requests[r].phase == Opened && s.requests[r].body.Sealed?
    requires !s.requests[r].IsInit() && s.handlerKey.Some?
    requires events[k..] == [(r, Execute(None, true, true)), (r, SealReply(false)), (r, Finish)]
    ensures Run(s, events[k..]) == Some(s') && r in s'.requests
    ensures s'.requests[r].openedWith == s.requests[r].openedWith && s'.requests[r].sealedWith == s.handlerKey
  {
    assert events[k] == events[k..][0] && events[k + 1] == events[k..][1] && events[k + 2] == events[k..][2];
    var s1 := Next(s, r, Execute(None, true, true)).value;
    var s2 := Next(s1, r, SealReply(false)).value;
    s' := Next(s2, r, Finish).value;
    OneStep(s, events, k, s1);
    OneStep(s1, events, k + 1, s2);
    OneStep(s2, events, k + 2, s');
    assert events[k + 3..] == [];
  }

  /** Two clients: the second one re-keys the session while a call of the first one is being answered. Then the first
      client gets a reply that its own key does not open. */
  lemma ReplyKeyCanDiffer(events: seq<Event>, first: Key, second: Key)
    requires events == InitSteps(0, first)
                       + [(1, Arrive(Sealed(first, Call))), (1, Check), (1, Open)]
                       + InitSteps(2, second)
                       + [(1, Execute(None, true, true)), (1, SealReply(false)), (1, Finish)]
    ensures Run(START, events).Some? && 1 in Run(START, events).value.requests
    ensures var q := Run(START, events).value.requests[1]; q.openedWith == Some(first) && q.sealedWith == Some(second)
  {
    var s1 := WholeInit(START, events, 0, 0, first);
    var s2 := CallIsOpened(s1, events, 4, 1, first);
    var s3 := WholeInit(s2, events, 7, 2, second);
    var s4 := CallIsReplied(s3, events, 11, 1);
    assert events[0..] == events;
  }
}
