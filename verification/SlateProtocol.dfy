/** The slates of the two-party protocol (controller/src/command.rs:700-766, libwallet/src/slate.rs,
    libwallet/src/internal/tx.rs:134-274): send (init_send_tx, receive_tx, finalize) and invoice (issue_invoice_tx,
    process_invoice_tx, finalize), with any number of wallets, slates and mistaken steps.

    Signatures are symbolic: a partial signature is good if it was made with the participant's own key, over the sum of
    the keys that are on the slate, for the kernel that is on the slate. */
module SlateProtocol {
  import opened Wrappers

  type Key = nat
  type SlateId = nat
  type WalletId = nat

  datatype Signature = Signature(key: Key, group: multiset<Key>, kernel: nat)

  datatype Participant = Participant(id: nat, key: Key, partSig: Option<Signature>) {
    predicate IsComplete() {
      partSig.Some?
    }
  }

  /** `kernel` stands for the fee and lock height that are signed; `paid` and `received` say how often the amount was
      put in as inputs and taken out as an output. */
  datatype Slate = Slate(id: SlateId, numParticipants: nat, kernel: nat, paid: nat, received: nat,
                         participants: seq<Participant>, finalized: bool)

  /** Panicked: an `unwrap` on a missing signature, or an index past the participants. */
  datatype Outcome<+T> = Done(value: T) | Failed | Panicked

  // ---------- Slate operations ----------

  function KeysOf(ps: seq<Participant>): multiset<Key> {
    if ps == [] then multiset{} else KeysOf(ps[..|ps| - 1]) + multiset{ps[|ps| - 1].key}
  }

  function Good(s: Slate, p: Participant): bool {
    p.partSig == Some(Signature(p.key, KeysOf(s.participants), s.kernel))
  }

  predicate SigsVerify(s: Slate) {
    forall p :: p in s.participants && p.IsComplete() ==> Good(s, p)
  }

  method VerifyPartSigs(s: Slate) returns (ok: bool)
    ensures ok == SigsVerify(s)
  {
    var i := 0;
    while i < |s.participants|
      invariant i <= |s.participants|
      invariant forall j :: 0 <= j < i && s.participants[j].IsComplete() ==> Good(s, s.participants[j])
    {
      if s.participants[i].IsComplete() && !Good(s, s.participants[i]) {
        return false;
      }
      i := i + 1;
    }
    ok := true;
  }

  /** The first participant with this id. */
  function Slot(ps: seq<Participant>, id: nat): (r: Option<nat>)
    ensures r.Some? ==> r.value < |ps| && ps[r.value].id == id && forall j :: 0 <= j < r.value ==> ps[j].id != id
    ensures r.None? ==> forall j :: 0 <= j < |ps| ==> ps[j].id != id
  {
    if ps == [] then None
    else if ps[0].id == id then Some(0)
    else
      match Slot(ps[1..], id)
      case None => None
      case Some(k) => Some(k + 1)
  }

  lemma SlotIsFirst(ps: seq<Participant>, id: nat, k: nat)
    requires k < |ps| && ps[k].id == id && forall j :: 0 <= j < k ==> ps[j].id != id
    ensures Slot(ps, id) == Some(k)
  {
  }

  method ParticipantWithId(s: Slate, id: nat) returns (r: Option<Participant>)
    ensures r == match Slot(s.participants, id) case None => None case Some(k) => Some(s.participants[k])
  {
    for i := 0 to |s.participants|
      invariant forall j :: 0 <= j < i ==> s.participants[j].id != id
    {
      if s.participants[i].id == id {
        SlotIsFirst(s.participants, id, i);
        return Some(s.participants[i]);
      }
    }
    r := None;
  }

  function FillRound1(s: Slate, key: Key, id: nat): Slate {
    s.(participants := s.participants + [Participant(id, key, None)])
  }

  function Sign(s: Slate, key: Key, k: nat): Slate
    requires k < |s.participants|
  {
    var sig := Signature(key, KeysOf(s.participants), s.kernel);
    s.(participants := s.participants[k := s.participants[k].(partSig := Some(sig))])
  }

  /** Signs in the first slot with the given id among the first `numParticipants`. */
  function FillRound2(s: Slate, key: Key, id: nat): Outcome<Slate> {
    if !SigsVerify(s) then Failed
    else
      match Slot(s.participants, id)
      case Some(k) => if k < s.numParticipants then Done(Sign(s, key, k)) else Done(s)
      case None => if |s.participants| < s.numParticipants then Panicked else Done(s)
  }

  method FillSlot(s: Slate, key: Key, id: nat) returns (r: Outcome<Slate>)
    ensures r == FillRound2(s, key, id)
  {
    var ok := VerifyPartSigs(s);
    if !ok {
      return Failed;
    }
    var i := 0;
    while i < s.numParticipants
      invariant i <= s.numParticipants && i <= |s.participants|
      invariant forall j :: 0 <= j < i ==> s.participants[j].id != id
    {
      if i == |s.participants| {
        return Panicked;
      }
      if s.participants[i].id == id {
        SlotIsFirst(s.participants, id, i);
        return Done(Sign(s, key, i));
      }
      i := i + 1;
    }
    r := Done(s);
  }

  predicate AllSigned(s: Slate) {
    forall p :: p in s.participants ==> p.IsComplete()
  }

  /** The final signature and the kernel: the kernel verifies only if the amount was paid in as often as taken out. */
  function Finalize(s: Slate): Outcome<Slate> {
    if !SigsVerify(s) then Failed
    else if !AllSigned(s) then Panicked
    else if s.paid != s.received then Failed
    else Done(s.(finalized := true))
  }

  function CompleteTx(s: Slate, key: Key, id: nat): Outcome<Slate> {
    match FillRound2(s, key, id)
    case Done(signed) => Finalize(signed)
    case Failed => Failed
    case Panicked => Panicked
  }

  method CompleteSlate(s: Slate, key: Key, id: nat) returns (r: Outcome<Slate>)
    ensures r == CompleteTx(s, key, id)
  {
    r := FillSlot(s, key, id);
    if !r.Done? {
      return;
    }
    var signed := r.value;
    var ok := VerifyPartSigs(signed);
    if !ok {
      return Failed;
    }
    for i := 0 to |signed.participants|
      invariant forall j :: 0 <= j < i ==> signed.participants[j].IsComplete()
    {
      if signed.participants[i].partSig.None? {
        assert signed.participants[i] in signed.participants;
        return Panicked;
      }
    }
    r := if signed.paid != signed.received then Failed else Done(signed.(finalized := true));
  }

  // ---------- Protocol steps ----------

  function Sent(id: SlateId, key: Key, kernel: nat): Slate {
    FillRound1(Slate(id, 2, kernel, 1, 0, [], false), key, 0)
  }

  function Invoiced(id: SlateId, key: Key): Slate {
    FillRound1(Slate(id, 2, 0, 0, 1, [], false), key, 1)
  }

  function Received(s: Slate, key: Key): Outcome<Slate> {
    FillRound2(FillRound1(s.(received := s.received + 1), key, 1), key, 1)
  }

  function Paid(s: Slate, key: Key, kernel: nat): Outcome<Slate> {
    FillRound2(FillRound1(s.(kernel := kernel, paid := s.paid + 1), key, 0), key, 0)
  }

  type Contexts = map<(SlateId, nat), Key>

  datatype Path = InvoicePath | OwnerPath

  /** How the finalize command tells the kind of transaction; None: participant 1 is missing. */
  function Dispatch(s: Slate): Option<Path> {
    match Slot(s.participants, 1)
    case None => None
    case Some(k) => Some(if s.participants[k].IsComplete() then OwnerPath else InvoicePath)
  }

  function IdOf(path: Path): nat {
    if path.InvoicePath? then 1 else 0
  }

  /** The finalize command, up to posting: it needs the wallet's private context, and uses it up. */
  function Finished(contexts: Contexts, s: Slate): Outcome<(Slate, Contexts)> {
    match Dispatch(s)
    case None => Failed
    case Some(path) =>
      var at := (s.id, IdOf(path));
      if at !in contexts then Failed
      else
        match CompleteTx(s, contexts[at], IdOf(path))
        case Done(f) => Done((f, contexts - {at}))
        case Failed => Failed
        case Panicked => Panicked
  }

  class Wallet {
    var contexts: Contexts

    constructor ()
      ensures contexts == map[]
    {
      contexts := map[];
    }

    method InitSendTx(id: SlateId, key: Key, kernel: nat) returns (s: Slate)
      modifies this
      ensures s == Sent(id, key, kernel) && contexts == old(contexts)[(id, 0) := key]
    {
      s := Slate(id, 2, kernel, 1, 0, [], false);
      s := FillRound1(s, key, 0);
      contexts := contexts[(id, 0) := key];
    }

    method IssueInvoiceTx(id: SlateId, key: Key) returns (s: Slate)
      modifies this
      ensures s == Invoiced(id, key) && contexts == old(contexts)[(id, 1) := key]
    {
      s := Slate(id, 2, 0, 0, 1, [], false);
      s := FillRound1(s, key, 1);
      contexts := contexts[(id, 1) := key];
    }

    method ReceiveTx(s: Slate, key: Key) returns (r: Outcome<Slate>)
      ensures r == Received(s, key)
    {
      var slate := s.(received := s.received + 1);
      slate := FillRound1(slate, key, 1);
      r := FillSlot(slate, key, 1);
    }

    method ProcessInvoiceTx(s: Slate, key: Key, kernel: nat) returns (r: Outcome<Slate>)
      modifies this
      ensures r == Paid(s, key, kernel)
      ensures contexts == if r.Done? then old(contexts)[(s.id, 0) := key] else old(contexts)
    {
      var slate := s.(kernel := kernel, paid := s.paid + 1);
      slate := FillRound1(slate, key, 0);
      r := FillSlot(slate, key, 0);
      if r.Done? {
        contexts := contexts[(s.id, 0) := key];
      }
    }

    method FinalizeCommand(s: Slate) returns (r: Outcome<Slate>)
      modifies this
      ensures match Finished(old(contexts), s)
              case Done((f, left)) => r == Done(f) && contexts == left
              case Failed => r == Failed && contexts == old(contexts)
              case Panicked => r == Panicked && contexts == old(contexts)
    {
      var partData := ParticipantWithId(s, 1);
      if partData.None? {
        return Failed;
      }
      var isInvoice := !partData.value.IsComplete();
      var id := if isInvoice then 1 else 0;
      if (s.id, id) !in contexts {
        return Failed;
      }
      r := CompleteSlate(s, contexts[(s.id, id)], id);
      if r.Done? {
        contexts := contexts - {(s.id, id)};
      }
    }
  }

  // ---------- All runs ----------

  datatype Flow = SendFlow | InvoiceFlow

  /** Who holds which contexts, every slate that ever left a wallet, how each slate began, and the next unused
      identity. */
  datatype State = State(wallets: map<WalletId, Contexts>, network: set<Slate>, origin: map<SlateId, Flow>, next: nat, panicked: bool)

  const START := State(map[], {}, map[], 0, false)

  /** What a wallet does next. Any wallet may try any step on any slate it has ever seen; a step may also be refused
      for reasons outside this model, which is the same as not taking it. */
  datatype Step =
    | InitSend(kernel: nat)
    | Issue
    | Receive(slate: Slate)
    | Process(slate: Slate, kernel: nat)
    | Finish(slate: Slate)

  function Of(st: State, w: WalletId): Contexts {
    if w in st.wallets then st.wallets[w] else map[]
  }

  function Released(st: State, w: WalletId, contexts: Contexts, slate: Slate): State {
    st.(wallets := st.wallets[w := contexts], network := st.network + {slate}, next := st.next + 1)
  }

  function Next(st: State, w: WalletId, step: Step): State {
    var (mine, key) := (Of(st, w), st.next);
    match step
    case InitSend(kernel) =>
      Released(st, w, mine[(key, 0) := key], Sent(key, key, kernel)).(origin := st.origin[key := SendFlow])
    case Issue =>
      Released(st, w, mine[(key, 1) := key], Invoiced(key, key)).(origin := st.origin[key := InvoiceFlow])
    case Receive(s) =>
      if s !in st.network then st
      else
        (match Received(s, key)
         case Done(r) => Released(st, w, mine, r)
         case Failed => st
         case Panicked => st.(panicked := true))
    case Process(s, kernel) =>
      if s !in st.network then st
      else
        (match Paid(s, key, kernel)
         case Done(r) => Released(st, w, mine[(s.id, 0) := key], r)
         case Failed => st
         case Panicked => st.(panicked := true))
    case Finish(s) =>
      if s !in st.network then st
      else
        (match Finished(mine, s)
         case Done((r, left)) => Released(st, w, left, r)
         case Failed => st
         case Panicked => st.(panicked := true))
  }

  function Run(st: State, steps: seq<(WalletId, Step)>): State
    decreases |steps|
  {
    if steps == [] then st else Run(Next(st, steps[0].0, steps[0].1), steps[1..])
  }

  // ---------- What slates look like ----------

  function Blank(id: nat, key: Key): Participant {
    Participant(id, key, None)
  }

  /** Signed with the slot's own key, together with `other`, for `kernel`. */
  function Signed(id: nat, key: Key, other: Key, kernel: nat): Participant {
    Participant(id, key, Some(Signature(key, multiset{key, other}, kernel)))
  }

  /** Only the initiator is on the slate. */
  predicate IsOpen(s: Slate, flow: Flow) {
    && |s.participants| == 1
    && s.participants[0] == Blank(if flow == SendFlow then 0 else 1, s.participants[0].key)
    && (s.paid, s.received) == (if flow == SendFlow then (1, 0) else (0, 1)) && !s.finalized
  }

  /** The counterparty has signed, the initiator has not. */
  predicate IsAnswered(s: Slate, flow: Flow) {
    && |s.participants| == 2
    && (var (a, b) := (s.participants[0].key, s.participants[1].key);
        var (mine, theirs) := if flow == SendFlow then (0, 1) else (1, 0);
        a != b && s.participants == [Blank(mine, a), Signed(theirs, b, a, s.kernel)])
    && (s.paid, s.received) == (1, 1) && !s.finalized
  }

  /** Sender and receiver have both signed. */
  predicate IsFinal(s: Slate, flow: Flow) {
    && |s.participants| == 2
    && (var (a, b) := (s.participants[0].key, s.participants[1].key);
        var (mine, theirs) := if flow == SendFlow then (0, 1) else (1, 0);
        a != b && s.participants == [Signed(mine, a, b, s.kernel), Signed(theirs, b, a, s.kernel)])
    && (s.paid, s.received) == (1, 1) && s.finalized
  }

  /** A slate was answered with the wrong command: the second entry has the first one's id, and the signature went into
      the first one's slot. */
  predicate IsSpoilt(s: Slate, flow: Flow) {
    && |s.participants| == 2
    && s.participants[1].partSig.None? && s.participants[0].IsComplete()
    && s.participants[0].id == s.participants[1].id == (if flow == SendFlow then 0 else 1)
    && s.participants[0].partSig.value.key != s.participants[0].key && !s.finalized
  }

  predicate Shaped(s: Slate, flow: Flow) {
    s.numParticipants == 2 && (IsOpen(s, flow) || IsAnswered(s, flow) || IsFinal(s, flow) || IsSpoilt(s, flow))
  }

  predicate Known(st: State, s: Slate) {
    && s.id in st.origin && Shaped(s, st.origin[s.id])
    && forall p :: p in s.participants ==> p.key < st.next
  }

  ghost predicate Valid(st: State) {
    && !st.panicked
    && (forall s :: s in st.network ==> Known(st, s))
    && (forall id :: id in st.origin ==> id < st.next)
  }

  // ---------- Operations on such slates ----------

  lemma KeysOfOne(p: Participant)
    ensures KeysOf([p]) == multiset{p.key}
  {
    assert [p][..0] == [];
  }

  lemma KeysOfTwo(p: Participant, q: Participant)
    ensures KeysOf([p, q]) == multiset{p.key, q.key}
  {
    KeysOfOne(p);
    assert [p, q][..1] == [p];
  }

  lemma {:induction false} KeysOfUpdate(ps: seq<Participant>, k: nat, p: Participant)
    requires k < |ps| && p.key == ps[k].key
    ensures KeysOf(ps[k := p]) == KeysOf(ps)
  {
    var last := |ps| - 1;
    if k < last {
      KeysOfUpdate(ps[..last], k, p);
      assert ps[k := p][..last] == ps[..last][k := p];
    } else {
      assert ps[k := p][..last] == ps[..last];
    }
  }

  /** The signatures on the slate, as they should be. */
  predicate ProperlySigned(s: Slate) {
    forall j :: 0 <= j < |s.participants| && s.participants[j].partSig.Some? ==>
      s.participants[j].partSig.value == Signature(s.participants[j].key, KeysOf(s.participants), s.kernel)
  }

  predicate OthersSigned(s: Slate, k: nat) {
    forall j :: 0 <= j < |s.participants| && j != k ==> s.participants[j].partSig.Some?
  }

  /** Any slate whatever is completed from slot `k`, exactly if every signature on it is good, the key is the one of the
      slot, all others have signed, and the amount is paid in as often as taken out; a missing signature is the panic. */
  lemma CompletedIff(s: Slate, key: Key, id: nat, k: nat)
    requires k < |s.participants| && k < s.numParticipants && s.participants[k].id == id
    requires forall j :: 0 <= j < k ==> s.participants[j].id != id
    ensures var (r, all) := (CompleteTx(s, key, id), KeysOf(s.participants));
            && (r.Done? <==> ProperlySigned(s) && key == s.participants[k].key && OthersSigned(s, k) && s.paid == s.received)
            && (r.Panicked? <==> ProperlySigned(s) && key == s.participants[k].key && !OthersSigned(s, k))
            && (r.Done? ==> r.value == s.(finalized := true, participants :=
                  s.participants[k := s.participants[k].(partSig := Some(Signature(key, all, s.kernel)))]))
  {
    SlotIsFirst(s.participants, id, k);
    SigsVerifyIff(s);
    if ProperlySigned(s) {
      SigsVerifyIff(Sign(s, key, k));
      SignedFrom(s, key, k);
      AllSignedIff(Sign(s, key, k), k);
    }
  }

  lemma SignedFrom(s: Slate, key: Key, k: nat)
    requires k < |s.participants| && ProperlySigned(s)
    ensures var signed := Sign(s, key, k);
            && (ProperlySigned(signed) <==> key == s.participants[k].key)
            && (OthersSigned(signed, k) <==> OthersSigned(s, k)) && signed.participants[k].partSig.Some?
  {
    var signed := Sign(s, key, k);
    KeysOfUpdate(s.participants, k, signed.participants[k]);
    assert signed.participants[k].partSig == Some(Signature(key, KeysOf(s.participants), s.kernel));
    assert forall j :: 0 <= j < |s.participants| && j != k ==> signed.participants[j] == s.participants[j];
    if key == s.participants[k].key {
      forall j | 0 <= j < |s.participants| && signed.participants[j].partSig.Some?
        ensures signed.participants[j].partSig.value == Signature(signed.participants[j].key, KeysOf(s.participants), s.kernel)
      {
        if j != k {
          assert s.participants[j].partSig.Some?;
        }
      }
    }
    if OthersSigned(signed, k) {
      forall j | 0 <= j < |s.participants| && j != k
        ensures s.participants[j].partSig.Some?
      {
        assert signed.participants[j].partSig.Some?;
      }
    }
  }

  /** Somebody who is not on the slate completes it only if it needs no further signature. */
  lemma OutsiderCompletesIff(s: Slate, key: Key, id: nat)
    requires forall j :: 0 <= j < |s.participants| && j < s.numParticipants ==> s.participants[j].id != id
    ensures var r := CompleteTx(s, key, id);
            && (r.Done? <==> ProperlySigned(s) && |s.participants| >= s.numParticipants && OthersSigned(s, |s.participants|) && s.paid == s.received)
            && (r.Panicked? <==> ProperlySigned(s) && (|s.participants| < s.numParticipants || !OthersSigned(s, |s.participants|)))
            && (r.Done? ==> r.value == s.(finalized := true))
  {
    SigsVerifyIff(s);
    AllSignedIff(s, |s.participants|);
  }

  lemma SigsVerifyIff(s: Slate)
    ensures SigsVerify(s) <==> ProperlySigned(s)
  {
    if SigsVerify(s) {
      forall j | 0 <= j < |s.participants| && s.participants[j].partSig.Some?
        ensures s.participants[j].partSig.value == Signature(s.participants[j].key, KeysOf(s.participants), s.kernel)
      {
        assert s.participants[j] in s.participants && Good(s, s.participants[j]);
      }
    }
  }

  lemma AllSignedIff(s: Slate, k: nat)
    ensures AllSigned(s) <==> OthersSigned(s, k) && (k < |s.participants| ==> s.participants[k].partSig.Some?)
  {
    if AllSigned(s) {
      assert forall j :: 0 <= j < |s.participants| ==> s.participants[j] in s.participants;
    }
  }

  /** Nobody joins a slate that somebody has signed: the signature does not cover the new key. */
  lemma SignedSlateIsClosed(s: Slate, k: nat, key: Key, id: nat)
    requires k < |s.participants| && s.participants[k].IsComplete()
    requires var sig := s.participants[k].partSig.value; sig.group == KeysOf(s.participants) || sig.key != s.participants[k].key
    ensures FillRound2(FillRound1(s, key, id), key, id) == Failed
  {
    var joined, p := FillRound1(s, key, id), s.participants[k];
    assert joined.participants[k] == p && p in joined.participants;
    assert joined.participants[..|joined.participants| - 1] == s.participants;
    assert KeysOf(joined.participants) == KeysOf(s.participants) + multiset{key};
    assert |KeysOf(joined.participants)| == |KeysOf(s.participants)| + 1;
    assert !Good(joined, p);
  }

  /** Somebody joins an open slate: as the other party, or by mistake as the same one again. */
  lemma JoinOpenSlate(s: Slate, key: Key, id: nat)
    requires |s.participants| == 1 && s.participants[0].partSig.None? && s.numParticipants == 2
    ensures var a, joined := s.participants[0], FillRound1(s, key, id);
            var sig := Signature(key, multiset{a.key, key}, s.kernel);
            FillRound2(joined, key, id) == Done(joined.(participants :=
              if a.id == id then [a.(partSig := Some(sig)), Blank(id, key)] else [a, Participant(id, key, Some(sig))]))
  {
    var a, joined := s.participants[0], FillRound1(s, key, id);
    assert joined.participants == [a, Blank(id, key)];
    KeysOfTwo(a, Blank(id, key));
    var k := if a.id == id then 0 else 1;
    SlotIsFirst(joined.participants, id, k);
    assert SigsVerify(joined);
    var sig := Some(Signature(key, multiset{a.key, key}, s.kernel));
    assert Sign(joined, key, k).participants == if k == 0 then [a.(partSig := sig), Blank(id, key)] else [a, Participant(id, key, sig)];
  }

  /** A mistakenly answered slate satisfies nobody. */
  lemma SpoiltSlateFails(s: Slate, key: Key, id: nat, flow: Flow)
    requires IsSpoilt(s, flow)
    ensures FillRound2(s, key, id) == Failed && CompleteTx(s, key, id) == Failed
  {
    assert s.participants[0] in s.participants && !Good(s, s.participants[0]);
  }

  /** The initiator completes an answered slate with its own key, and nobody does with another key. */
  lemma CompleteAnsweredSlate(s: Slate, key: Key, flow: Flow)
    requires IsAnswered(s, flow) && s.numParticipants == 2
    ensures var id, done := if flow == SendFlow then 0 else 1, CompleteTx(s, key, if flow == SendFlow then 0 else 1);
            if key == s.participants[0].key then
              done.Done? && IsFinal(done.value, flow) && done.value == s.(participants := done.value.participants, finalized := true)
              && done.value.participants[1] == s.participants[1]
              && KeysOf(done.value.participants) == KeysOf(s.participants)
              && forall p :: p in done.value.participants ==> p.key in KeysOf(s.participants)
            else done == Failed
  {
    var id := if flow == SendFlow then 0 else 1;
    var (a, b) := (s.participants[0], s.participants[1]);
    KeysOfTwo(a, b);
    assert s.participants == [a, b];
    assert multiset{a.key, b.key} == multiset{b.key, a.key};
    assert Good(s, b) && SigsVerify(s);
    SlotIsFirst(s.participants, id, 0);
    var signed := Sign(s, key, 0);
    var p := a.(partSig := Some(Signature(key, multiset{a.key, b.key}, s.kernel)));
    assert signed.participants == [p, b];
    KeysOfTwo(p, b);
    assert p in signed.participants;
  }

  /** Completing a finalized slate once more gives the same slate, or fails. */
  lemma CompleteFinalSlate(s: Slate, key: Key, flow: Flow)
    requires IsFinal(s, flow) && s.numParticipants == 2
    ensures CompleteTx(s, key, 0) == if key == s.participants[if flow == SendFlow then 0 else 1].key then Done(s) else Failed
  {
    var (a, b) := (s.participants[0], s.participants[1]);
    var k := if flow == SendFlow then 0 else 1;
    assert multiset{a.key, b.key} == multiset{b.key, a.key};
    KeysOfTwo(a, b);
    assert s.participants == [a, b];
    assert ProperlySigned(s) && OthersSigned(s, k);
    CompletedIff(s, key, 0, k);
    var p := s.participants[k].(partSig := Some(Signature(key, KeysOf(s.participants), s.kernel)));
    assert key == s.participants[k].key ==> p == s.participants[k] && s.participants[k := p] == s.participants;
  }

  /** An invoice that nobody has paid cannot be completed. */
  lemma CompleteOpenInvoice(s: Slate, key: Key)
    requires IsOpen(s, InvoiceFlow) && s.numParticipants == 2
    ensures CompleteTx(s, key, 1) == Failed
  {
    var a := s.participants[0];
    KeysOfOne(a);
    assert s.participants == [a];
    assert SigsVerify(s);
    SlotIsFirst(s.participants, 1, 0);
    var p := a.(partSig := Some(Signature(key, multiset{a.key}, s.kernel)));
    assert Sign(s, key, 0).participants == [p];
    KeysOfOne(p);
  }

  // ---------- The commands on slates of a run ----------

  lemma DispatchOnShapes(s: Slate, flow: Flow)
    requires Shaped(s, flow)
    ensures IsOpen(s, flow) ==> Dispatch(s) == if flow == SendFlow then None else Some(InvoicePath)
    ensures IsAnswered(s, flow) ==> Dispatch(s) == Some(if flow == SendFlow then OwnerPath else InvoicePath)
    ensures IsFinal(s, flow) ==> Dispatch(s) == Some(OwnerPath)
    ensures IsSpoilt(s, flow) ==> Dispatch(s) == if flow == SendFlow then None else Some(OwnerPath)
  {
    if flow == InvoiceFlow {
      SlotIsFirst(s.participants, 1, 0);
    } else if IsAnswered(s, flow) || IsFinal(s, flow) {
      SlotIsFirst(s.participants, 1, 1);
    }
  }

  /** A slot that shows the slate is closed. */
  function SignedSlot(s: Slate, flow: Flow): (k: nat)
    requires Shaped(s, flow) && !IsOpen(s, flow)
    ensures k < |s.participants| && s.participants[k].IsComplete()
    ensures var sig := s.participants[k].partSig.value; sig.group == KeysOf(s.participants) || sig.key != s.participants[k].key
  {
    var (p, q) := (s.participants[0], s.participants[1]);
    KeysOfTwo(p, q);
    assert s.participants == [p, q];
    assert multiset{p.key, q.key} == multiset{q.key, p.key};
    if IsSpoilt(s, flow) then 0 else 1
  }

  function InitiatorId(flow: Flow): nat {
    if flow == SendFlow then 0 else 1
  }

  /** Joining an open slate as the other party answers it, joining it as the same party spoils it. */
  lemma JoinOnShapes(s: Slate, taken: Slate, flow: Flow, key: Key, id: nat)
    requires IsOpen(s, flow) && s.numParticipants == 2 && s.participants[0].key < key && id < 2
    requires taken == s.(kernel := taken.kernel, paid := taken.paid, received := taken.received)
    requires id != InitiatorId(flow) ==> (taken.paid, taken.received) == (1, 1)
    ensures var r := FillRound2(FillRound1(taken, key, id), key, id);
            && r.Done? && r.value.id == s.id && r.value.kernel == taken.kernel && r.value.numParticipants == 2
            && |r.value.participants| == 2 && r.value.participants[0].key == s.participants[0].key && r.value.participants[1].key == key
            && (if id != InitiatorId(flow) then IsAnswered(r.value, flow) else IsSpoilt(r.value, flow))
  {
    JoinOpenSlate(taken, key, id);
    var a := s.participants[0];
    assert multiset{a.key, key} == multiset{key, a.key};
  }

  lemma ClosedSlateRefuses(s: Slate, taken: Slate, flow: Flow, key: Key, id: nat)
    requires Shaped(s, flow) && !IsOpen(s, flow) && taken.participants == s.participants
    ensures FillRound2(FillRound1(taken, key, id), key, id) == Failed
  {
    SignedSlateIsClosed(taken, SignedSlot(s, flow), key, id);
  }

  /** Receiving answers the open slates of the send flow, spoils those of the invoice flow, and fails on all others. */
  lemma ReceiveOnShapes(s: Slate, flow: Flow, key: Key)
    requires Shaped(s, flow) && forall p :: p in s.participants ==> p.key < key
    ensures var r := Received(s, key);
            if !IsOpen(s, flow) then r == Failed
            else (r.Done? && r.value.id == s.id && r.value.kernel == s.kernel && Shaped(r.value, flow)
                  && (forall p :: p in r.value.participants ==> p.key <= key)
                  && if flow == SendFlow then IsAnswered(r.value, flow) else IsSpoilt(r.value, flow))
  {
    var taken := s.(received := s.received + 1);
    if IsOpen(s, flow) {
      JoinOnShapes(s, taken, flow, key, 1);
    } else {
      ClosedSlateRefuses(s, taken, flow, key, 1);
    }
  }

  /** Paying answers the open slates of the invoice flow, spoils those of the send flow, and fails on all others. */
  lemma PaidOnShapes(s: Slate, flow: Flow, key: Key, kernel: nat)
    requires Shaped(s, flow) && forall p :: p in s.participants ==> p.key < key
    ensures var r := Paid(s, key, kernel);
            if !IsOpen(s, flow) then r == Failed
            else (r.Done? && r.value.id == s.id && r.value.kernel == kernel && Shaped(r.value, flow)
                  && (forall p :: p in r.value.participants ==> p.key <= key)
                  && if flow == InvoiceFlow then IsAnswered(r.value, flow) else IsSpoilt(r.value, flow))
  {
    var taken := s.(kernel := kernel, paid := s.paid + 1);
    if IsOpen(s, flow) {
      JoinOnShapes(s, taken, flow, key, 0);
    } else {
      ClosedSlateRefuses(s, taken, flow, key, 0);
    }
  }

  /** Completing an answered slate keeps its identity and its keys. */
  lemma CompletedIsSame(s: Slate, key: Key, flow: Flow)
    requires IsAnswered(s, flow) && s.numParticipants == 2
    ensures match CompleteTx(s, key, InitiatorId(flow))
            case Done(f) => IsFinal(f, flow) && f.id == s.id && f.numParticipants == 2 && SameKeys(s, f) && SameDeal(s, f)
            case Failed => true
            case Panicked => false
  {
    CompleteAnsweredSlate(s, key, flow);
    var r := CompleteTx(s, key, InitiatorId(flow));
    if r.Done? {
      KeysOfTwo(s.participants[0], s.participants[1]);
      assert s.participants == [s.participants[0], s.participants[1]];
    }
  }

  /** Same kernel, same counterparty. */
  predicate SameDeal(s: Slate, f: Slate) {
    f.kernel == s.kernel && |f.participants| == |s.participants| == 2 && f.participants[1] == s.participants[1]
  }

  predicate SameKeys(s: Slate, f: Slate) {
    forall p :: p in f.participants ==> p.key in KeysOf(s.participants)
  }

  lemma {:induction false} KeysAreKeys(ps: seq<Participant>, bound: Key)
    requires forall p :: p in ps ==> p.key < bound
    ensures forall k :: k in KeysOf(ps) ==> k < bound
  {
    if ps != [] {
      KeysAreKeys(ps[..|ps| - 1], bound);
    }
  }

  /** The finalize command succeeds only on answered slates, and on slates that are final already. */
  lemma FinishOnShapes(s: Slate, flow: Flow, contexts: Contexts)
    requires Shaped(s, flow)
    ensures match Finished(contexts, s)
            case Done((f, left)) =>
              IsFinal(f, flow) && f.id == s.id && f.numParticipants == 2 && SameDeal(s, f)
              && (f == s || (IsAnswered(s, flow) && SameKeys(s, f)))
            case Failed => true
            case Panicked => false
  {
    DispatchOnShapes(s, flow);
    if Dispatch(s).Some? && (s.id, IdOf(Dispatch(s).value)) in contexts {
      var key := contexts[(s.id, IdOf(Dispatch(s).value))];
      if IsAnswered(s, flow) {
        CompletedIsSame(s, key, flow);
      } else if IsFinal(s, flow) {
        CompleteFinalSlate(s, key, flow);
      } else if IsOpen(s, flow) {
        CompleteOpenInvoice(s, key);
      } else {
        SpoiltSlateFails(s, key, IdOf(Dispatch(s).value), flow);
      }
    }
  }

  /** A successful finalization uses up the context it signed with, and no other; so the same slate cannot be finalized a
      second time. */
  lemma FinishUsesUpContext(s: Slate, contexts: Contexts)
    requires Finished(contexts, s).Done?
    ensures var left, at := Finished(contexts, s).value.1, (s.id, if Dispatch(s) == Some(InvoicePath) then 1 else 0);
            && at in contexts && left.Keys == contexts.Keys - {at} && (forall k :: k in left ==> left[k] == contexts[k])
            && Finished(left, s) == Failed
  {
  }

  lemma ReleaseIsValid(st: State, st': State, s: Slate)
    requires Valid(st) && st'.network == st.network + {s} && st'.next == st.next + 1 && !st'.panicked
    requires (forall id :: id in st.origin ==> id in st'.origin && st'.origin[id] == st.origin[id])
    requires (forall id :: id in st'.origin ==> id < st'.next) && Known(st', s)
    ensures Valid(st')
  {
    forall t | t in st'.network
      ensures Known(st', t)
    {
      if t != s {
        assert Known(st, t);
      }
    }
  }

  lemma ReceiveIsValid(st: State, w: WalletId, s: Slate)
    requires Valid(st) && s in st.network
    ensures Valid(Next(st, w, Receive(s)))
  {
    assert Known(st, s);
    ReceiveOnShapes(s, st.origin[s.id], st.next);
    if Received(s, st.next).Done? {
      ReleaseIsValid(st, Next(st, w, Receive(s)), Received(s, st.next).value);
    }
  }

  lemma ProcessIsValid(st: State, w: WalletId, s: Slate, kernel: nat)
    requires Valid(st) && s in st.network
    ensures Valid(Next(st, w, Process(s, kernel)))
  {
    assert Known(st, s);
    PaidOnShapes(s, st.origin[s.id], st.next, kernel);
    if Paid(s, st.next, kernel).Done? {
      ReleaseIsValid(st, Next(st, w, Process(s, kernel)), Paid(s, st.next, kernel).value);
    }
  }

  lemma FinishIsValid(st: State, w: WalletId, s: Slate)
    requires Valid(st) && s in st.network
    ensures Valid(Next(st, w, Finish(s)))
  {
    assert Known(st, s);
    FinishOnShapes(s, st.origin[s.id], Of(st, w));
    if Finished(Of(st, w), s).Done? {
      KeysAreKeys(s.participants, st.next);
      ReleaseIsValid(st, Next(st, w, Finish(s)), Finished(Of(st, w), s).value.0);
    }
  }

  /** Every step of every wallet keeps the slates in shape, and no step panics. */
  lemma NextIsValid(st: State, w: WalletId, step: Step)
    requires Valid(st)
    ensures Valid(Next(st, w, step))
  {
    match step
    case InitSend(kernel) => ReleaseIsValid(st, Next(st, w, step), Sent(st.next, st.next, kernel));
    case Issue => ReleaseIsValid(st, Next(st, w, step), Invoiced(st.next, st.next));
    case Receive(s) =>
      if s in st.network {
        ReceiveIsValid(st, w, s);
      }
    case Process(s, kernel) =>
      if s in st.network {
        ProcessIsValid(st, w, s, kernel);
      }
    case Finish(s) =>
      if s in st.network {
        FinishIsValid(st, w, s);
      }
  }

  lemma {:induction false} RunsAreValid(st: State, steps: seq<(WalletId, Step)>)
    requires Valid(st)
    ensures Valid(Run(st, steps))
    decreases |steps|
  {
    if steps != [] {
      NextIsValid(st, steps[0].0, steps[0].1);
      RunsAreValid(Next(st, steps[0].0, steps[0].1), steps[1..]);
    }
  }

  // ---------- What holds in every run ----------

  predicate HasBoth(s: Slate) {
    Slot(s.participants, 0).Some? && Slot(s.participants, 1).Some?
  }

  /** Once the counterparty has answered, the finalize command takes the invoice path exactly for invoices that are not
      final yet. (A final invoice goes the other way.) */
  lemma DispatchIff(steps: seq<(WalletId, Step)>, s: Slate)
    requires s in Run(START, steps).network && HasBoth(s)
    ensures s.id in Run(START, steps).origin
    ensures Dispatch(s) == Some(InvoicePath) <==> Run(START, steps).origin[s.id] == InvoiceFlow && !s.finalized
  {
    RunsAreValid(START, steps);
    var st := Run(START, steps);
    assert Known(st, s);
    DispatchOnShapes(s, st.origin[s.id]);
  }

  /** Whatever any wallet finalizes in any run carries the good signatures of exactly one sender and one receiver, over
      both keys and the same kernel, and pays the amount in once and out once. */
  lemma FinalizedIsSignedByBoth(steps: seq<(WalletId, Step)>, w: WalletId, s: Slate)
    requires s in Run(START, steps).network && Finished(Of(Run(START, steps), w), s).Done?
    ensures var f := Finished(Of(Run(START, steps), w), s).value.0;
            && |f.participants| == 2 && HasBoth(f) && f.paid == f.received == 1
            && f.participants[0].key != f.participants[1].key
            && forall p :: p in f.participants ==> Good(f, p)
  {
    RunsAreValid(START, steps);
    var st := Run(START, steps);
    assert Known(st, s);
    var flow := st.origin[s.id];
    FinishOnShapes(s, flow, Of(st, w));
    FinalSlateIsGood(Finished(Of(st, w), s).value.0, flow);
  }

  lemma FinalSlateIsGood(f: Slate, flow: Flow)
    requires IsFinal(f, flow)
    ensures HasBoth(f) && forall p :: p in f.participants ==> Good(f, p)
  {
    var (a, b) := (f.participants[0], f.participants[1]);
    KeysOfTwo(a, b);
    assert f.participants == [a, b];
    assert multiset{a.key, b.key} == multiset{b.key, a.key};
    SlotIsFirst(f.participants, a.id, 0);
    SlotIsFirst(f.participants, b.id, 1);
  }

  /** No step of any run panics. */
  lemma NothingPanics(steps: seq<(WalletId, Step)>)
    ensures !Run(START, steps).panicked
  {
    RunsAreValid(START, steps);
  }

  lemma FinishAnswered(s: Slate, flow: Flow, contexts: Contexts)
    requires IsAnswered(s, flow) && s.numParticipants == 2
    ensures var at := (s.id, InitiatorId(flow));
            Finished(contexts, s).Done? <==> at in contexts && contexts[at] == s.participants[0].key
  {
    DispatchOnShapes(s, flow);
    var at := (s.id, InitiatorId(flow));
    if at in contexts {
      CompleteAnsweredSlate(s, contexts[at], flow);
    }
  }

  /** An answered slate is completed exactly by a wallet that holds the initiator's context. */
  lemma AnsweredIsFinishedIff(steps: seq<(WalletId, Step)>, w: WalletId, s: Slate)
    requires s in Run(START, steps).network && HasBoth(s) && !s.finalized
    ensures s.id in Run(START, steps).origin
    ensures var st := Run(START, steps);
            var at := (s.id, InitiatorId(st.origin[s.id]));
            Finished(Of(st, w), s).Done? <==> at in Of(st, w) && Of(st, w)[at] == s.participants[0].key
  {
    RunsAreValid(START, steps);
    var st := Run(START, steps);
    assert Known(st, s);
    DispatchOnShapes(s, st.origin[s.id]);
    FinishAnswered(s, st.origin[s.id], Of(st, w));
  }

  /** Once a wallet has finalized a slate, doing it again changes nothing. */
  lemma SecondFinishChangesNothing(st: State, w: WalletId, s: Slate)
    requires s in st.network && Finished(Of(st, w), s).Done?
    ensures var st' := Next(st, w, Finish(s)); Next(st', w, Finish(s)) == st'
  {
    FinishUsesUpContext(s, Of(st, w));
  }

  // ---------- Whole transactions ----------

  lemma ThreeSteps(a: (WalletId, Step), b: (WalletId, Step), c: (WalletId, Step))
    ensures Run(START, [a, b, c]) == Next(Next(Next(START, a.0, a.1), b.0, b.1), c.0, c.1)
  {
    var st1 := Next(START, a.0, a.1);
    assert [a, b, c][1..] == [b, c] && [b, c][1..] == [c] && [c][1..] == [];
    assert Run(START, [a, b, c]) == Run(st1, [b, c]) == Run(Next(st1, b.0, b.1), [c]);
  }

  function Opened(flow: Flow, kernel: nat): Slate {
    if flow == SendFlow then Sent(0, 0, kernel) else Invoiced(0, 0)
  }

  /** The three steps of a transaction of either flow. */
  function Opening(flow: Flow, kernel: nat): Step {
    if flow == SendFlow then InitSend(kernel) else Issue
  }

  function Answering(flow: Flow, s: Slate, kernel: nat): Step {
    if flow == SendFlow then Receive(s) else Process(s, kernel)
  }

  function Answer(flow: Flow, s: Slate, key: Key, kernel: nat): Outcome<Slate> {
    if flow == SendFlow then Received(s, key) else Paid(s, key, kernel)
  }

  /** The initiator's context of the one slate there is. */
  predicate HoldsContext(st: State, w: WalletId, flow: Flow) {
    (0, InitiatorId(flow)) in Of(st, w) && Of(st, w)[(0, InitiatorId(flow))] == 0
  }

  lemma AfterOpening(flow: Flow, w: WalletId, kernel: nat)
    ensures var st := Next(START, w, Opening(flow, kernel));
            && Opened(flow, kernel) in st.network && st.next == 1 && st.origin == map[0 := flow] && HoldsContext(st, w, flow)
  {
  }

  lemma OpenedIsAnswered(flow: Flow, kernel: nat)
    ensures var r := Answer(flow, Opened(flow, kernel), 1, kernel);
            && r.Done? && IsAnswered(r.value, flow) && r.value.id == 0 && r.value.kernel == kernel && r.value.numParticipants == 2
            && r.value.participants[0].key == 0 && r.value.participants[1].key == 1
  {
    var s := Opened(flow, kernel);
    assert IsOpen(s, flow) && s.participants[0].key == 0;
    var taken := if flow == SendFlow then s.(received := s.received + 1) else s.(kernel := kernel, paid := s.paid + 1);
    JoinOnShapes(s, taken, flow, 1, 1 - InitiatorId(flow));
  }

  lemma AfterAnswer(st: State, flow: Flow, initiator: WalletId, w: WalletId, s: Slate, kernel: nat)
    requires s in st.network && s.id == 0 && HoldsContext(st, initiator, flow) && Answer(flow, s, st.next, kernel).Done?
    ensures var st' := Next(st, w, Answering(flow, s, kernel));
            && Answer(flow, s, st.next, kernel).value in st'.network && st'.origin == st.origin && HoldsContext(st', initiator, flow)
            && (flow == InvoiceFlow ==> (0, 0) in Of(st', w) && Of(st', w)[(0, 0)] == st.next)
  {
  }

  lemma AfterFinish(st: State, flow: Flow, w: WalletId, s: Slate) returns (final: Slate)
    requires s in st.network && IsAnswered(s, flow) && s.numParticipants == 2 && s.id == 0 && s.participants[0].key == 0
    requires HoldsContext(st, w, flow)
    ensures var st' := Next(st, w, Finish(s)); final in st'.network && s in st'.network && st'.origin == st.origin
    ensures final.id == 0 && final.numParticipants == 2 && IsFinal(final, flow) && SameDeal(s, final) && Dispatch(final) == Some(OwnerPath)
    ensures forall v :: v != w || flow == InvoiceFlow ==>
      ((0, 0) in Of(st, v) ==> (0, 0) in Of(Next(st, w, Finish(s)), v) && Of(Next(st, w, Finish(s)), v)[(0, 0)] == Of(st, v)[(0, 0)])
  {
    DispatchOnShapes(s, flow);
    FinishAnswered(s, flow, Of(st, w));
    FinishOnShapes(s, flow, Of(st, w));
    final := Finished(Of(st, w), s).value.0;
    DispatchOnShapes(final, flow);
  }

  /** A transaction of either flow from start to end, between any two wallets. The finalize command tells the flow of the
      answered slate; the final slate it takes for an ordinary transaction in either flow, so for an invoice wrongly: the
      payer, whose context is still there, then finalizes the invoice once more. */
  lemma TransactionCompletes(flow: Flow, initiator: WalletId, other: WalletId, kernel: nat) returns (answered: Slate, final: Slate)
    ensures var steps := [(initiator, Opening(flow, kernel)), (other, Answering(flow, Opened(flow, kernel), kernel)), (initiator, Finish(answered))];
            && answered in Run(START, steps).network && final in Run(START, steps).network
            && Run(START, steps).origin == map[0 := flow] && answered.id == final.id == 0
    ensures IsAnswered(answered, flow) && Dispatch(answered) == Some(if flow == SendFlow then OwnerPath else InvoicePath)
    ensures IsFinal(final, flow) && Dispatch(final) == Some(OwnerPath) && final.kernel == kernel
    ensures var steps := [(initiator, Opening(flow, kernel)), (other, Answering(flow, Opened(flow, kernel), kernel)), (initiator, Finish(answered))];
            flow == InvoiceFlow ==>
              var again := Finished(Of(Run(START, steps), other), final); again.Done? && again.value.0 == final
  {
    var start := Opened(flow, kernel);
    AfterOpening(flow, initiator, kernel);
    var st1 := Next(START, initiator, Opening(flow, kernel));
    OpenedIsAnswered(flow, kernel);
    answered := Answer(flow, start, 1, kernel).value;
    DispatchOnShapes(answered, flow);
    AfterAnswer(st1, flow, initiator, other, start, kernel);
    var st2 := Next(st1, other, Answering(flow, start, kernel));
    final := AfterFinish(st2, flow, initiator, answered);
    ThreeSteps((initiator, Opening(flow, kernel)), (other, Answering(flow, start, kernel)), (initiator, Finish(answered)));
    if flow == InvoiceFlow {
      CompleteFinalSlate(final, 1, flow);
    }
  }
}
