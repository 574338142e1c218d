/** SecureCalls refines SecureSession: a call that runs alone takes the steps of the transition system, with the contents
    deciding which, and leaves the same keys in the cells. So what holds in every interleaving holds for sequences of
    calls. */
module SessionRefinement {
  import opened Wrappers
  import opened EncryptedBody
  import opened JsonRpc
  import C = SecureCalls
  import S = SecureSession

  /** What the transition system sees of a request. */
  function BodyOf(w: C.World, c: C.Cells, request: Json): S.Body {
    if C.IsInit(request) then S.PlainInit
    else
      match C.Effective(w, c, request)
      case None => S.PlainOther
      case Some(inner) => S.Sealed(c.handlerKey.value, if C.IsInit(inner) then S.Init else S.Call)
  }

  /** The API's part: the key it writes, whether an init succeeds, and whether there is a reply. */
  function ExecuteOf(w: C.World, val: Json, chance: C.Chance): S.Action {
    var (raw, write) := C.Handled(w, val, chance);
    S.Execute(write, C.IsInit(val) && raw.Some? && C.OkText(raw.value).Some?, raw.Some?)
  }

  function Steps(r: S.Rid, actions: seq<S.Action>): seq<S.Event> {
    seq(|actions|, i requires 0 <= i < |actions| => (r, actions[i]))
  }

  const COPY: seq<S.Action> := [S.BeginCopy, S.EndCopy]

  /** The steps of one call. */
  function ActionsOf(w: C.World, c: C.Cells, request: Json, chance: C.Chance, message: string): seq<S.Action> {
    var arrive := S.Arrive(BodyOf(w, c, request));
    if C.IsInit(request) then
      [arrive, ExecuteOf(w, request, chance)] + if C.Handled(w, request, chance).0.Some? then COPY else []
    else if c.handlerKey.None? then [arrive, S.Check]
    else
      match C.Effective(w, c, request)
      case None => [arrive, S.Check, S.Open]
      case Some(inner) => [arrive, S.Check, S.Open, ExecuteOf(w, inner, chance)] + ReplyActions(w, c.handlerKey.value, inner, chance, message)
  }

  function ReplyActions(w: C.World, key: C.Key, inner: Json, chance: C.Chance, message: string): seq<S.Action> {
    match C.Handled(w, inner, chance).0
    case None => []
    case Some(raw) =>
      var fails := C.CannotSeal(w, key, chance.nonce, C.Intercepted(raw, message));
      [S.SealReply(fails)] + if fails then [] else if C.IsInit(inner) then COPY else [S.Finish]
  }

  /** The keys are the same, and no copy is under way. */
  predicate Matches(s: S.State, c: C.Cells) {
    s.handlerKey == c.handlerKey && s.ownerKey == c.ownerKey && s.guard == None
  }

  /** How the request ended, and what the client was told. */
  predicate Told(ending: S.Ending, reply: Json) {
    match ending
    case Refused => CodeOf(reply) == Some(-32001)
    case Unreadable => CodeOf(reply) == Some(-32002)
    case NoReply => reply == Arr([])
    case SealFailed => CodeOf(reply) == Some(-32003)
    case Replied => true
  }

  // ---------- Runs of steps ----------

  lemma {:induction false} RunAppend(s: S.State, a: seq<S.Event>, b: seq<S.Event>)
    requires S.Run(s, a).Some?
    ensures S.Run(s, a + b) == S.Run(S.Run(s, a).value, b)
    decreases |a|
  {
    if a == [] {
      assert a + b == b;
    } else {
      assert (a + b)[0] == a[0] && (a + b)[1..] == a[1..] + b;
      RunAppend(S.Next(s, a[0].0, a[0].1).value, a[1..], b);
    }
  }

  lemma OneStep(s: S.State, r: S.Rid, a: S.Action, more: seq<S.Action>)
    requires S.Next(s, r, a).Some?
    ensures S.Run(s, Steps(r, [a] + more)) == S.Run(S.Next(s, r, a).value, Steps(r, more))
  {
    var events := Steps(r, [a] + more);
    assert events[0] == (r, a) && events[1..] == Steps(r, more);
  }

  lemma NoSteps(s: S.State, r: S.Rid)
    ensures S.Run(s, Steps(r, [])) == Some(s)
  {
  }

  lemma CopyRuns(s: S.State, r: S.Rid)
    requires r in s.requests && s.guard == None
    requires var q := s.requests[r]; q.IsInit() && q.phase == if q.body.Sealed? then S.ReplySealed else S.Answered
    ensures var s' := S.Run(s, Steps(r, COPY));
            && s'.Some? && r in s'.value.requests && s'.value.requests[r].phase == S.Done(S.Replied)
            && s'.value.guard == None && s'.value.ownerKey == s.ownerKey
            && s'.value.handlerKey == (if s.requests[r].ok then s.ownerKey else s.handlerKey)
            && s'.value.requests.Keys == s.requests.Keys
  {
    var s1 := S.Next(s, r, S.BeginCopy).value;
    var s2 := S.Next(s1, r, S.EndCopy).value;
    assert COPY == [S.BeginCopy] + [S.EndCopy] && [S.EndCopy] == [S.EndCopy] + [];
    OneStep(s, r, S.BeginCopy, [S.EndCopy]);
    OneStep(s1, r, S.EndCopy, []);
    NoSteps(s2, r);
  }

  lemma FinishRuns(s: S.State, r: S.Rid)
    requires S.Next(s, r, S.Finish).Some?
    ensures S.Run(s, Steps(r, [S.Finish])) == S.Next(s, r, S.Finish)
  {
    assert [S.Finish] == [S.Finish] + [];
    OneStep(s, r, S.Finish, []);
    NoSteps(S.Next(s, r, S.Finish).value, r);
  }

  /** An init that is answered with success has written a key. */
  lemma SuccessHasWritten(w: C.World, val: Json, chance: C.Chance)
    ensures var (raw, write) := C.Handled(w, val, chance);
            C.IsInit(val) && raw.Some? && C.OkText(raw.value).Some? ==> write.Some? && !C.IsError(raw.value)
    ensures !C.IsInit(val) ==> C.Handled(w, val, chance).1 == None
  {
    var id := Field(val, "id");
    C.ReplyParts(id, chance.failure);
    ErrorReplyHasCode(id, -32602, "Invalid params");
    var point := w.publicKey(chance.secret);
    if point.Some? {
      C.ReplyParts(id, Str(w.showPoint(point.value)));
    }
  }

  // ---------- One call ----------

  /** Request `r` is done, with the cells and the reply that the call gives. */
  ghost predicate Ends(s: Option<S.State>, r: S.Rid, before: S.State, served: (C.Cells, Json)) {
    && s.Some? && Matches(s.value, served.0) && s.value.requests.Keys == before.requests.Keys + {r}
    && s.value.requests[r].phase.Done? && Told(s.value.requests[r].phase.ending, served.1)
  }

  /** The state when the request has been executed. */
  ghost predicate Executed(s: S.State, r: S.Rid, before: S.State, w: C.World, c: C.Cells, val: Json, chance: C.Chance) {
    var (raw, write) := C.Handled(w, val, chance);
    && r in s.requests && s.requests.Keys == before.requests.Keys + {r}
    && s.guard == None && s.handlerKey == c.handlerKey && s.ownerKey == (if write.Some? then write else c.ownerKey)
    && s.requests[r].phase == (if raw.Some? then S.Answered else S.Done(S.NoReply))
    && s.requests[r].ok == (C.IsInit(val) && raw.Some? && C.OkText(raw.value).Some?)
    && s.requests[r].IsInit() == C.IsInit(val)
  }

  lemma ExecuteRuns(s: S.State, r: S.Rid, before: S.State, w: C.World, c: C.Cells, val: Json, chance: C.Chance)
    requires Matches(s, c) && r in s.requests && s.requests.Keys == before.requests.Keys + {r}
    requires s.requests[r].IsInit() == C.IsInit(val)
    requires s.requests[r].phase == S.Opened || (s.requests[r].phase == S.Arrived && s.requests[r].body == S.PlainInit)
    ensures var s' := S.Next(s, r, ExecuteOf(w, val, chance));
            s'.Some? && Executed(s'.value, r, before, w, c, val, chance) && s'.value.requests[r].body == s.requests[r].body
  {
    SuccessHasWritten(w, val, chance);
  }

  lemma PlainInitRuns(s: S.State, r: S.Rid, w: C.World, c: C.Cells, request: Json, chance: C.Chance, message: string)
    requires Matches(s, c) && r !in s.requests && C.IsInit(request) && !C.IsOpenWallet(request)
    ensures Ends(S.Run(s, Steps(r, ActionsOf(w, c, request, chance, message))), r, s, C.Served(w, c, request, chance, message))
  {
    var raw := C.Handled(w, request, chance).0;
    var copy := if raw.Some? then COPY else [];
    var s1 := S.Next(s, r, S.Arrive(S.PlainInit)).value;
    var execute := ExecuteOf(w, request, chance);
    ExecuteRuns(s1, r, s, w, c, request, chance);
    var s2 := S.Next(s1, r, execute).value;
    assert [S.Arrive(S.PlainInit), execute] + copy == [S.Arrive(S.PlainInit)] + ([execute] + copy);
    OneStep(s, r, S.Arrive(S.PlainInit), [execute] + copy);
    OneStep(s1, r, execute, copy);
    SuccessHasWritten(w, request, chance);
    if raw.Some? {
      C.InterceptKeepsOk(raw.value, message);
      CopyRuns(s2, r);
    } else {
      NoSteps(s2, r);
    }
  }

  lemma AdmissionRuns(s: S.State, r: S.Rid, body: S.Body, more: seq<S.Action>) returns (s': S.State)
    requires s.handlerKey.Some? && r !in s.requests && body.Sealed? && body.key == s.handlerKey.value
    ensures S.Run(s, Steps(r, [S.Arrive(body), S.Check, S.Open] + more)) == S.Run(s', Steps(r, more))
    ensures s'.handlerKey == s.handlerKey && s'.ownerKey == s.ownerKey && s'.guard == s.guard
    ensures r in s'.requests && s'.requests.Keys == s.requests.Keys + {r}
    ensures s'.requests[r].phase == S.Opened && s'.requests[r].body == body
  {
    var s1 := S.Next(s, r, S.Arrive(body)).value;
    var s2 := S.Next(s1, r, S.Check).value;
    s' := S.Next(s2, r, S.Open).value;
    assert [S.Arrive(body), S.Check, S.Open] + more == [S.Arrive(body)] + ([S.Check] + ([S.Open] + more));
    OneStep(s, r, S.Arrive(body), [S.Check] + ([S.Open] + more));
    OneStep(s1, r, S.Check, [S.Open] + more);
    OneStep(s2, r, S.Open, more);
  }

  /** What a sealed request that reaches the API leaves in the key cells, and how it is answered. */
  ghost predicate Leaves(served: (C.Cells, Json), w: C.World, c: C.Cells, inner: Json, chance: C.Chance, message: string)
    requires c.handlerKey.Some?
  {
    var (raw, write) := C.Handled(w, inner, chance);
    var owner := if write.Some? then write else c.ownerKey;
    && served.0.ownerKey == owner
    && (raw.None? ==> served.0.handlerKey == c.handlerKey && served.1 == Arr([]))
    && (raw.Some? ==>
          if C.CannotSeal(w, c.handlerKey.value, chance.nonce, C.Intercepted(raw.value, message)) then
            served.0.handlerKey == c.handlerKey && CodeOf(served.1) == Some(-32003)
          else served.0.handlerKey == if C.IsInit(inner) && C.OkText(raw.value).Some? then owner else c.handlerKey)
  }

  lemma ServedLeaves(w: C.World, c: C.Cells, request: Json, chance: C.Chance, message: string)
    requires c.handlerKey.Some? && !C.IsInit(request) && C.Effective(w, c, request).Some?
    ensures Leaves(C.Served(w, c, request, chance, message), w, c, C.Effective(w, c, request).value, chance, message)
  {
    var inner, key := C.Effective(w, c, request).value, c.handlerKey.value;
    var raw := C.Handled(w, inner, chance).0;
    ErrorReplyHasCode(Number(1), -32003, "EncryptionError");
    if raw.Some? {
      SealedFailsAt(w.cipher, key, chance.nonce, C.Intercepted(raw.value, message));
      C.InterceptKeepsOk(raw.value, message);
      SuccessHasWritten(w, inner, chance);
    }
  }

  /** From the API's reply on. */
  lemma ReplyRuns(s: S.State, r: S.Rid, before: S.State, w: C.World, c: C.Cells, inner: Json, chance: C.Chance, message: string,
                  served: (C.Cells, Json))
    requires c.handlerKey.Some? && Leaves(served, w, c, inner, chance, message)
    requires Executed(s, r, before, w, c, inner, chance) && s.requests[r].body.Sealed?
    ensures Ends(S.Run(s, Steps(r, ReplyActions(w, c.handlerKey.value, inner, chance, message))), r, before, served)
  {
    var key := c.handlerKey.value;
    var raw := C.Handled(w, inner, chance).0;
    if raw.None? {
      NoSteps(s, r);
    } else {
      var fails := C.CannotSeal(w, key, chance.nonce, C.Intercepted(raw.value, message));
      var s1 := S.Next(s, r, S.SealReply(fails)).value;
      var more := if fails then [] else if C.IsInit(inner) then COPY else [S.Finish];
      OneStep(s, r, S.SealReply(fails), more);
      if fails {
        NoSteps(s1, r);
      } else if C.IsInit(inner) {
        CopyRuns(s1, r);
      } else {
        FinishRuns(s1, r);
      }
    }
  }

  lemma UnstartedRuns(s: S.State, r: S.Rid, w: C.World, c: C.Cells, request: Json, chance: C.Chance, message: string)
    requires Matches(s, c) && r !in s.requests && !C.IsInit(request) && c.handlerKey.None?
    ensures Ends(S.Run(s, Steps(r, ActionsOf(w, c, request, chance, message))), r, s, C.Served(w, c, request, chance, message))
  {
    C.RefusedChangesNothing(w, c, request, chance, message);
    var arrive := S.Arrive(S.PlainOther);
    var s1 := S.Next(s, r, arrive).value;
    assert [arrive, S.Check] == [arrive] + ([S.Check] + []);
    OneStep(s, r, arrive, [S.Check] + []);
    OneStep(s1, r, S.Check, []);
    NoSteps(S.Next(s1, r, S.Check).value, r);
  }

  lemma UnreadableRuns(s: S.State, r: S.Rid, w: C.World, c: C.Cells, request: Json, chance: C.Chance, message: string)
    requires Matches(s, c) && r !in s.requests && c.handlerKey.Some? && C.Effective(w, c, request).None?
    ensures Ends(S.Run(s, Steps(r, ActionsOf(w, c, request, chance, message))), r, s, C.Served(w, c, request, chance, message))
  {
    C.RefusedChangesNothing(w, c, request, chance, message);
    var arrive := S.Arrive(S.PlainOther);
    var s1 := S.Next(s, r, arrive).value;
    var s2 := S.Next(s1, r, S.Check).value;
    assert [arrive, S.Check, S.Open] == [arrive] + ([S.Check] + ([S.Open] + []));
    OneStep(s, r, arrive, [S.Check] + ([S.Open] + []));
    OneStep(s1, r, S.Check, [S.Open] + []);
    OneStep(s2, r, S.Open, []);
    NoSteps(S.Next(s2, r, S.Open).value, r);
  }

  lemma SealedCallRuns(s: S.State, r: S.Rid, w: C.World, c: C.Cells, inner: Json, chance: C.Chance, message: string,
                       served: (C.Cells, Json))
    requires Matches(s, c) && r !in s.requests && c.handlerKey.Some? && Leaves(served, w, c, inner, chance, message)
    ensures var body := S.Sealed(c.handlerKey.value, if C.IsInit(inner) then S.Init else S.Call);
            var actions := [S.Arrive(body), S.Check, S.Open, ExecuteOf(w, inner, chance)]
                           + ReplyActions(w, c.handlerKey.value, inner, chance, message);
            Ends(S.Run(s, Steps(r, actions)), r, s, served)
  {
    var execute, more := ExecuteOf(w, inner, chance), ReplyActions(w, c.handlerKey.value, inner, chance, message);
    var body := S.Sealed(c.handlerKey.value, if C.IsInit(inner) then S.Init else S.Call);
    var s1 := AdmissionRuns(s, r, body, [execute] + more);
    ExecuteRuns(s1, r, s, w, c, inner, chance);
    OneStep(s1, r, execute, more);
    assert [S.Arrive(body), S.Check, S.Open, execute] + more == [S.Arrive(body), S.Check, S.Open] + ([execute] + more);
    ReplyRuns(S.Next(s1, r, execute).value, r, s, w, c, inner, chance, message, served);
  }

  /** A call that runs alone takes these steps of the transition system, and both end with the same keys and with
      matching answers. */
  lemma CallIsARun(s: S.State, r: S.Rid, w: C.World, c: C.Cells, request: Json, chance: C.Chance, message: string)
    requires Matches(s, c) && r !in s.requests
    ensures Ends(S.Run(s, Steps(r, ActionsOf(w, c, request, chance, message))), r, s, C.Served(w, c, request, chance, message))
  {
    if C.IsInit(request) {
      InitIsNotOpen(request);
      PlainInitRuns(s, r, w, c, request, chance, message);
    } else if c.handlerKey.None? {
      UnstartedRuns(s, r, w, c, request, chance, message);
    } else if C.Effective(w, c, request).None? {
      UnreadableRuns(s, r, w, c, request, chance, message);
    } else {
      ServedLeaves(w, c, request, chance, message);
      SealedCallRuns(s, r, w, c, C.Effective(w, c, request).value, chance, message, C.Served(w, c, request, chance, message));
    }
  }

  lemma InitIsNotOpen(request: Json)
    requires C.IsInit(request)
    ensures !C.IsOpenWallet(request)
  {
    assert |"init_secure_api"| == 15 && |"open_wallet"| == 11;
  }

  // ---------- Runs of calls ----------

  type Turn = (Json, C.Chance, string)

  /** The cells after calls one after the other. */
  function CellsAfter(w: C.World, c: C.Cells, turns: seq<Turn>): C.Cells
    decreases |turns|
  {
    if turns == [] then c
    else CellsAfter(w, C.Served(w, c, turns[0].0, turns[0].1, turns[0].2).0, turns[1..])
  }

  predicate Below(s: S.State, next: S.Rid) {
    forall r :: r in s.requests ==> r < next
  }

  /** Any calls one after the other are a run of the transition system that leaves the same keys. */
  lemma {:induction false} CallsAreARun(s: S.State, next: S.Rid, w: C.World, c: C.Cells, turns: seq<Turn>)
      returns (events: seq<S.Event>, free: S.Rid)
    requires Matches(s, c) && Below(s, next)
    ensures S.Run(s, events).Some? && Matches(S.Run(s, events).value, CellsAfter(w, c, turns)) && Below(S.Run(s, events).value, free)
    decreases |turns|
  {
    events, free := [], next;
    if turns != [] {
      var first, s1 := OneCall(s, next, w, c, turns[0]);
      var more;
      more, free := CallsAreARun(s1, next + 1, w, C.Served(w, c, turns[0].0, turns[0].1, turns[0].2).0, turns[1..]);
      RunAppend(s, first, more);
      events := first + more;
    }
  }

  lemma OneCall(s: S.State, next: S.Rid, w: C.World, c: C.Cells, turn: Turn) returns (events: seq<S.Event>, s': S.State)
    requires Matches(s, c) && Below(s, next)
    ensures S.Run(s, events) == Some(s') && Matches(s', C.Served(w, c, turn.0, turn.1, turn.2).0) && Below(s', next + 1)
  {
    CallIsARun(s, next, w, c, turn.0, turn.1, turn.2);
    events := Steps(next, ActionsOf(w, c, turn.0, turn.1, turn.2));
    s' := S.Run(s, events).value;
  }

  lemma {:induction false} CellsAppend(w: C.World, c: C.Cells, turns: seq<Turn>, more: seq<Turn>)
    ensures CellsAfter(w, c, turns + more) == CellsAfter(w, CellsAfter(w, c, turns), more)
    decreases |turns|
  {
    if turns == [] {
      assert turns + more == more;
    } else {
      assert (turns + more)[0] == turns[0] && (turns + more)[1..] == turns[1..] + more;
      CellsAppend(w, C.Served(w, c, turns[0].0, turns[0].1, turns[0].2).0, turns[1..], more);
    }
  }

  /** So what is proved of all interleavings holds of calls: no sequence of calls whatever takes the session away again. */
  lemma SessionStays(w: C.World, turns: seq<Turn>, more: seq<Turn>)
    ensures CellsAfter(w, C.FRESH, turns).handlerKey.Some? ==> CellsAfter(w, C.FRESH, turns + more).handlerKey.Some?
  {
    var before, next := CallsAreARun(S.START, 0, w, C.FRESH, turns);
    var s := S.Run(S.START, before).value;
    var after, _ := CallsAreARun(s, next, w, CellsAfter(w, C.FRESH, turns), more);
    CellsAppend(w, C.FRESH, turns, more);
    S.SessionNeverEnds(before, after);
  }
}
