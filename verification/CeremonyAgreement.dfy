/**
  Where memory, state file, pre-anchor and transcript agree, and exactly where
  they stop agreeing: repeated pairings, late store failures, restarts.
*/
module CeremonyAgreement {
  import opened Bytes
  import opened CeremonyState
  import opened StateImage
  import opened Trust
  import opened AnchorMedia
  import opened Ceremony
  import opened CeremonyInvariants
  import opened CeremonyRuns
  import opened CeremonyProgress

  // ------------------------------------------------------- pairing once more

  /** The recorded list with the bindings of its first two pairs exchanged. */
  function Exchanged(pairs: seq<AdminPair>): seq<AdminPair>
    requires |pairs| >= 2
  {
    [AdminPair(pairs[0].certificate, pairs[1].binding), AdminPair(pairs[1].certificate, pairs[0].binding)] + pairs[2..]
  }

  lemma ExchangeKeepsFields(pairs: seq<AdminPair>)
    requires |pairs| >= 2
    ensures SamePreFields(Exchanged(pairs), pairs)
  {
    var p, q, rest := pairs[0], pairs[1], pairs[2..];
    TwoPairs(p, q, rest);
    TwoPairs(AdminPair(p.certificate, q.binding), AdminPair(q.certificate, p.binding), rest);
    assert pairs == [p, q] + rest;
  }

  /** The three hash lists, two pairs at a time. */
  lemma TwoPairs(p: AdminPair, q: AdminPair, rest: seq<AdminPair>)
    ensures Certificates([p, q] + rest) == [p.certificate, q.certificate] + Certificates(rest)
    ensures Bindings([p, q] + rest) == [p.binding, q.binding] + Bindings(rest)
    ensures AllHashes([p, q] + rest) == [p.certificate, p.binding, q.certificate, q.binding] + AllHashes(rest)
  {
    assert ([p, q] + rest)[1..] == [q] + rest;
    assert ([q] + rest)[1..] == rest;
  }

  lemma SwapKeepsDistinct<T>(a: T, b: T, c: T, d: T, rest: seq<T>)
    requires NoDuplicates([a, b, c, d] + rest)
    ensures NoDuplicates([a, d, c, b] + rest) && b != d
  {
    var s, r := [a, b, c, d] + rest, [a, d, c, b] + rest;
    assert s[1] == b && s[3] == d;
    forall i, j | 0 <= i < j < |r|
      ensures r[i] != r[j]
    {
      var from := (k: int) => if k == 1 then 3 else if k == 3 then 1 else k;
      assert r[i] == s[from(i)] && r[j] == s[from(j)];
    }
  }

  lemma ExchangeKeepsDistinct(pairs: seq<AdminPair>)
    requires |pairs| >= 2 && NoDuplicates(AllHashes(pairs))
    ensures NoDuplicates(AllHashes(Exchanged(pairs))) && Exchanged(pairs) != pairs
  {
    hide AllHashes, NoDuplicates;
    var p, q, rest := pairs[0], pairs[1], pairs[2..];
    assert pairs == [p, q] + rest;
    TwoPairs(p, q, rest);
    TwoPairs(AdminPair(p.certificate, q.binding), AdminPair(q.certificate, p.binding), rest);
    SwapKeepsDistinct(p.certificate, p.binding, q.certificate, q.binding, AllHashes(rest));
    assert Exchanged(pairs)[0] != pairs[0];
  }

  /**
    So the pre-anchor does not bind who holds which key: every sealed ceremony
    accepts a list that pairs its certificates and bindings differently.
  */
  lemma AnotherPairingIsAccepted(t: TrustFormat, c: Coordinator)
    requires GoodCoordinator(t, c) && t.Lawful() && Sealed(c.state) && !c.state.aborted
    ensures |c.state.adminPairs| >= 2
    ensures var other := Exchanged(c.state.adminPairs);
            other != c.state.adminPairs && JudgeAdminPairs(t, c, other).Keep?
  {
    hide AllHashes, ApproverObligation, BackupObligation, AnchorObligation, KeyObligation;
    ExchangeKeepsFields(c.state.adminPairs);
    ExchangeKeepsDistinct(c.state.adminPairs);
    RepeatedPairing(t, c, Exchanged(c.state.adminPairs));
  }

  // ------------------------------------------------------------ memory and file

  predicate Agrees(sys: System) {
    sys.live.Some? && sys.store.Visible() == Some(sys.live.value.state)
  }

  /** What the store's own two refusals let through. */
  predicate Fits(port: Port, store: Store, s: BootstrapState) {
    port.FilePort? ==> WellFormed(s) && (store.Visible().Some? ==> !Before(s.step, store.Visible().value.step))
  }

  /**
    Every call, by its inputs alone: it stores and holds the new state, marks the
    abort, keeps a repeated root or list in memory, or changes nothing.
  */
  lemma EveryCallIsDecided(t: TrustFormat, port: Port, sys: System, call: Call)
    requires Sane(t, sys) && t.Lawful() && Genuine(t, Invoke(call, NoFault)) && sys.live.Some?
    ensures var c := sys.live.value;
            var (after, r) := Step(t, port, sys, Invoke(call, NoFault));
            && after.live.Some?
            && if Advances(t, c, call) && Fits(port, sys.store, Stored(t, c, call)) then
                 && r == Ok(()) && after.live.value.state == Stored(t, c, call)
                 && after.store == Store(Some(Stored(t, c, call)), [])
               else if Aborts(t, c, call) && Fits(port, sys.store, c.state.(aborted := true)) then
                 && r == Err(PreFieldChanged) && after.live.value.state == c.state.(aborted := true)
                 && after.store == Store(Some(c.state.(aborted := true)), [])
               else if Keeps(t, c, call) then
                 r == Ok(()) && after.live.value.state == Kept(t, c, call) && after.store == sys.store
               else
                 r.Err? && after.live.value.state == c.state && after.store == sys.store
  {
    hide Judge, Good, WellFormed, t.Lawful, Advances, Aborts, Keeps, Kept, Stored;
    EveryVerdictIsDecided(t, sys.live.value, call);
    JudgeSound(t, sys.live.value, call);
    RestoredIsGood(t, sys.live.value.state);
  }

  /** A repeated step 3 with another list: accepted, and only memory changes. */
  predicate Repairs(t: TrustFormat, c: Coordinator, call: Call) {
    call.AdminPairs? && call.pairs != c.state.adminPairs && Keeps(t, c, call)
  }

  /** A call whose state the store takes and that is not the one it holds. */
  predicate Replaces(t: TrustFormat, port: Port, store: Store, c: Coordinator, call: Call) {
    || (&& Advances(t, c, call) && Stored(t, c, call) != c.state && Fits(port, store, Stored(t, c, call)))
    || (Aborts(t, c, call) && Fits(port, store, c.state.(aborted := true)))
  }

  /** Keeping leaves the state alone unless the list is another one. */
  lemma KeptIsTheSame(t: TrustFormat, c: Coordinator, call: Call)
    requires GoodCoordinator(t, c) && Keeps(t, c, call)
    ensures Kept(t, c, call) == c.state <==> !Repairs(t, c, call)
  {
    hide NoDuplicates, AllHashes, PreFields, KeyObligation, ApproverObligation, BackupObligation, AnchorObligation;
  }

  /**
    Memory and state file agree after a call exactly when it was not a repeated
    step 3 with another list, and no late failure hit a call that replaces the state.
  */
  lemma AgreementAfterCall(t: TrustFormat, port: Port, sys: System, call: Call, fault: Fault)
    requires Sane(t, sys) && t.Lawful() && Genuine(t, Invoke(call, fault)) && Agrees(sys)
    ensures Agrees(Step(t, port, sys, Invoke(call, fault)).0) <==>
            && !Repairs(t, sys.live.value, call)
            && (fault == Late ==> !Replaces(t, port, sys.store, sys.live.value, call))
  {
    hide Judge, Settle, Good, WellFormed, t.Lawful, Advances, Aborts, Keeps, Kept, Stored, Repairs;
    var c := sys.live.value;
    EveryVerdictIsDecided(t, c, call);
    JudgeSound(t, c, call);
    if Keeps(t, c, call) {
      KeptIsTheSame(t, c, call);
    } else {
      assert !Repairs(t, c, call) by { NotKept(t, c, call); }
    }
    SettleAgreement(t, port, sys, call, fault);
  }

  // ------------------------------------------------------- agreement over runs

  /** The event is no call, or one after which memory and file agree. */
  predicate Harmless(t: TrustFormat, port: Port, sys: System, e: Event) {
    e.Invoke? && sys.live.Some? ==>
      && !Repairs(t, sys.live.value, e.call)
      && (e.fault == Late ==> !Replaces(t, port, sys.store, sys.live.value, e.call))
  }

  predicate Calm(t: TrustFormat, port: Port, sys: System, events: seq<Event>)
    decreases |events|
  {
    events == [] || (Harmless(t, port, sys, events[0]) && Calm(t, port, Step(t, port, sys, events[0]).0, events[1..]))
  }

  /** While a coordinator lives it agrees with the file. */
  predicate AgreesIfLive(sys: System) {
    sys.live.Some? ==> Agrees(sys)
  }

  /** The same at every point of the run. */
  predicate AgreesThroughout(t: TrustFormat, port: Port, sys: System, events: seq<Event>)
    decreases |events|
  {
    && AgreesIfLive(sys)
    && (events != [] ==> AgreesThroughout(t, port, Step(t, port, sys, events[0]).0, events[1..]))
  }

  /** One event of a run. */
  lemma AgreementAfterEvent(t: TrustFormat, port: Port, sys: System, e: Event)
    requires Sane(t, sys) && t.Lawful() && Genuine(t, e) && AgreesIfLive(sys)
    ensures AgreesIfLive(Step(t, port, sys, e).0) <==> Harmless(t, port, sys, e)
  {
    hide Judge, Good, WellFormed, t.Lawful, Repairs, Replaces, Settle;
    if e.Invoke? && sys.live.Some? {
      AgreementAfterCall(t, port, sys, e.call, e.fault);
    }
  }

  lemma {:induction false} AgreementFrom(t: TrustFormat, port: Port, sys: System, events: seq<Event>)
    requires Sane(t, sys) && t.Lawful() && AllGenuine(t, events) && AgreesIfLive(sys)
    ensures AgreesThroughout(t, port, sys, events) <==> Calm(t, port, sys, events)
    decreases |events|
  {
    hide Sane, Step, Genuine, t.Lawful, Harmless, AgreesIfLive;
    if events != [] {
      var next := Step(t, port, sys, events[0]).0;
      AgreementAfterEvent(t, port, sys, events[0]);
      if Harmless(t, port, sys, events[0]) {
        StepKeepsSane(t, port, sys, events[0]);
        AgreementFrom(t, port, next, events[1..]);
      } else {
        NotThroughout(t, port, next, events[1..]);
      }
    }
  }

  lemma NotThroughout(t: TrustFormat, port: Port, sys: System, events: seq<Event>)
    requires !AgreesIfLive(sys)
    ensures !AgreesThroughout(t, port, sys, events)
  {
    hide AgreesIfLive;
  }

  /**
    From nothing, over any port: memory and file agree at every point of a run
    while a coordinator lives if and only if no call of the run repeats step 3 with
    another list and no late failure hits a call that replaces the state.
  */
  lemma AgreementOverRuns(t: TrustFormat, port: Port, events: seq<Event>)
    requires t.Lawful() && AllGenuine(t, events)
    ensures AgreesThroughout(t, port, NOTHING, events) <==> Calm(t, port, NOTHING, events)
  {
    hide t.Lawful, Genuine;
    AgreementFrom(t, port, NOTHING, events);
  }

  lemma NotKept(t: TrustFormat, c: Coordinator, call: Call)
    requires !Keeps(t, c, call)
    ensures !Repairs(t, c, call)
  {
    hide Keeps;
  }

  lemma SettleAgreement(t: TrustFormat, port: Port, sys: System, call: Call, fault: Fault)
    requires Agrees(sys) && Decided(t, sys.live.value, call) && Sound(t, sys.live.value, Judge(t, sys.live.value, call))
    ensures var c := sys.live.value;
            var (next, store, r) := Settle(t, port, c, sys.store, Judge(t, c, call), fault);
            Agrees(System(Some(next), store)) <==>
            && (Keeps(t, c, call) ==> Kept(t, c, call) == c.state)
            && (fault == Late ==> !Replaces(t, port, sys.store, c, call))
  {
    hide Sound, Judge, Advances, Aborts, Keeps, Kept, Stored, Fits, Settle;
    var c := sys.live.value;
    if Advances(t, c, call) {
      HandedAgreement(t, port, sys, Judge(t, c, call), Stored(t, c, call), fault);
    } else if Aborts(t, c, call) {
      AbortIsNew(t, c, call);
      HandedAgreement(t, port, sys, Judge(t, c, call), c.state.(aborted := true), fault);
    } else {
      UnhandedAgreement(t, port, sys, Judge(t, c, call), fault);
    }
  }

  /** A verdict that hands a state to the store. */
  lemma HandedAgreement(t: TrustFormat, port: Port, sys: System, v: Verdict, s: BootstrapState, fault: Fault)
    requires Agrees(sys) && Sound(t, sys.live.value, v)
    requires || (v.Commit? && !Before(v.step, sys.live.value.state.step) && s == v.next.state.(step := v.step))
             || (v.Abort? && s == sys.live.value.state.(aborted := true))
    ensures var (next, store, r) := Settle(t, port, sys.live.value, sys.store, v, fault);
            Agrees(System(Some(next), store)) <==>
            (fault == Late && Fits(port, sys.store, s) ==> s == sys.live.value.state)
  {
    hide Good, Put, Fits;
    PutIsSeen(port, sys.store, s, fault);
    assert Settle(t, port, sys.live.value, sys.store, v, fault).1 == Put(port, sys.store, s, fault).0;
  }

  /** A verdict that does not. */
  lemma UnhandedAgreement(t: TrustFormat, port: Port, sys: System, v: Verdict, fault: Fault)
    requires Agrees(sys) && Sound(t, sys.live.value, v) && !v.Abort?
    requires v.Commit? ==> Before(v.step, sys.live.value.state.step)
    ensures var (next, store, r) := Settle(t, port, sys.live.value, sys.store, v, fault);
            Agrees(System(Some(next), store)) <==> (v.Keep? ==> v.next.state == sys.live.value.state)
  {
    hide Good, Put;
  }

  /** What a reader finds after a store was attempted. */
  lemma PutIsSeen(port: Port, store: Store, s: BootstrapState, fault: Fault)
    ensures var (after, failed) := Put(port, store, s, fault);
            && (failed.None? <==> fault == NoFault && Fits(port, store, s))
            && after.Visible() ==
               if (fault == NoFault || fault == Late) && Fits(port, store, s) then Some(s) else store.Visible()
  {
    hide WellFormed;
  }

  lemma AbortIsNew(t: TrustFormat, c: Coordinator, call: Call)
    requires Aborts(t, c, call)
    ensures c.state.(aborted := true) != c.state
  {
  }

  /**
    What a repeated step 3 before the seal answered is gone after a crash: the
    file still holds the first list, and that is what is resumed.
  */
  lemma UnsealedRepairIsLost(t: TrustFormat, port: Port, sys: System, pairs: seq<AdminPair>, survivor: nat)
    requires Sane(t, sys) && t.Lawful() && Agrees(sys) && sys.store.pending == []
    requires Repairs(t, sys.live.value, AdminPairs(pairs)) && !Sealed(sys.live.value.state)
    ensures var c := sys.live.value;
            var (after, r) := Step(t, port, sys, Invoke(AdminPairs(pairs), NoFault));
            var resumed := Step(t, port, Step(t, port, after, Crash(survivor)).0, Resume(true));
            && r == Ok(()) && after.live.Some? && after.live.value.state.adminPairs == pairs
            && after.live.value.state.exactPreAnchor == Encoding(t, c.state, pairs) && after.live.value.state != c.state
            && (resumed.0.live.Some? ==> resumed.0.live.value.state == c.state)
            && (resumed.0.live.Some? <==> t.decodesAsPreAnchor(c.state.exactPreAnchor.value))
  {
    hide Judge, Good, WellFormed, t.Lawful, Advances, Aborts, Stored, PreFields, NoDuplicates, AllHashes;
    EveryCallIsDecided(t, port, sys, AdminPairs(pairs));
    EveryVerdictIsDecided(t, sys.live.value, AdminPairs(pairs));
    PairedHoldsAnchor(t, sys.live.value);
  }

  lemma PairedHoldsAnchor(t: TrustFormat, c: Coordinator)
    requires GoodCoordinator(t, c) && Reached(c.state, CreateAdminPairs)
    ensures c.state.exactPreAnchor.Some?
  {
    hide NoDuplicates, AllHashes, PreFields, Custody, Closing;
  }

  lemma JudgeOfPairs(t: TrustFormat, c: Coordinator, call: Call)
    requires call.AdminPairs?
    ensures Judge(t, c, call) == JudgeAdminPairs(t, c, call.pairs)
  {
    hide JudgeAdminPairs;
  }

  // ---------------------------------------------------- the signed transcript

  /** From step 11 on, the state can be written exactly while memory holds the list the root signed. */
  lemma TranscriptBindsPairs(t: TrustFormat, s: BootstrapState)
    requires Good(t, s) && Reached(s, CreateGenesisAndFinalAnchor)
    ensures s.transcript.Some?
    ensures TranscriptConsistent(s) <==> s.adminPairs == s.transcript.value.adminPairs
  {
    hide TranscriptBytes, ApproverObligation, BackupObligation, KeyObligation, SealObligation, PairObligation;
  }

  /** Whatever is committed outside step 11 carries the same list and the same transcript. */
  lemma OthersKeepTranscript(t: TrustFormat, c: Coordinator, call: Call)
    requires !call.FinalAnchor? && Reached(c.state, CreateGenesisAndFinalAnchor)
    ensures var v := Judge(t, c, call);
            v.Commit? ==> v.next.state.transcript == c.state.transcript && v.next.state.adminPairs == c.state.adminPairs
  {
    hide JudgeFinalAnchor, RequireSealed, ConfirmOnMirror, FirstBackupError, Classes, Thumbprints, OwnThumbprints,
         NoDuplicates, OnlyNames, ConfirmOnMedia, PreFields, AllHashes;
  }

  /**
    A list paired anew after step 11 cuts the coordinator off from its file: no
    call but a repeated step 11 changes the file, so the ceremony is never recorded ready.
  */
  lemma RepairedPairsAreNeverStored(t: TrustFormat, sys: System, call: Call, fault: Fault)
    requires Sane(t, sys) && t.Lawful() && Genuine(t, Invoke(call, fault)) && sys.live.Some?
    requires Reached(sys.live.value.state, CreateGenesisAndFinalAnchor) && !call.FinalAnchor?
    requires !TranscriptConsistent(sys.live.value.state)
    ensures Step(t, FilePort, sys, Invoke(call, fault)).0.store == sys.store
  {
    hide Judge, Good, Sized, t.Lawful, TranscriptBytes, StateTranscriptBytes;
    var c := sys.live.value;
    JudgeSound(t, c, call);
    OthersKeepTranscript(t, c, call);
    GoodTranscript(t, c.state);
    RestoredIsGood(t, c.state);
  }

  lemma GoodTranscript(t: TrustFormat, s: BootstrapState)
    requires Good(t, s) && Reached(s, CreateGenesisAndFinalAnchor) && !TranscriptConsistent(s)
    ensures s.transcript.Some? && s.adminPairs != s.transcript.value.adminPairs
  {
    hide TranscriptConsistent, ApproverObligation, BackupObligation, KeyObligation, SealObligation, PairObligation,
      SignedTranscript;
    TranscriptBindsPairs(t, s);
  }

  // -------------------------------------------------- the file's own contents

  ghost predicate AllWellFormed(store: Store) {
    && (store.durable.Some? ==> WellFormed(store.durable.value))
    && forall i :: 0 <= i < |store.pending| ==> WellFormed(store.pending[i])
  }

  /** Everything the file store ever holds reads back, and agrees with its own signed transcript. */
  lemma {:induction false} FileHoldsOnlyReadableStates(t: TrustFormat, sys: System, events: seq<Event>)
    requires AllWellFormed(sys.store)
    ensures AllWellFormed(Run(t, FilePort, sys, events).store)
    decreases |events|
  {
    hide WellFormed, Judge, Restored;
    if events != [] {
      FileHoldsOnlyReadableStates(t, Step(t, FilePort, sys, events[0]).0, events[1..]);
    }
  }

  // ------------------------------------------------- failures, retries, restart

  /**
    After a failed store the same call, made again, ends exactly where it would
    have ended without the failure, whether it stores a step or an abort: in
    memory and in the store.
  */
  lemma RetryAfterFailure(t: TrustFormat, port: Port, sys: System, call: Call, fault: Fault)
    requires Sane(t, sys) && t.Lawful() && Genuine(t, Invoke(call, fault))
    requires sys.live.Some? && sys.live.value == Restored(t, sys.live.value.state)
    requires var c := sys.live.value;
             || (Advances(t, c, call) && Fits(port, sys.store, Stored(t, c, call)))
             || (Aborts(t, c, call) && Fits(port, sys.store, c.state.(aborted := true)))
    ensures var failed := Step(t, port, sys, Invoke(call, fault)).0;
            var again := Step(t, port, failed, Invoke(call, NoFault));
            fault != NoFault ==> again == Step(t, port, sys, Invoke(call, NoFault))
  {
    hide Judge, WellFormed, Good, t.Lawful, Advances, Aborts, Keeps, Stored, Kept;
    EveryVerdictIsDecided(t, sys.live.value, call);
    JudgeSound(t, sys.live.value, call);
  }

  /** After a late failure of a step forward, the file is ahead, and the file store refuses to record an abort. */
  lemma NoAbortWhileFileIsAhead(t: TrustFormat, sys: System, call: Call, fault: Fault)
    requires Sane(t, sys) && t.Lawful() && Genuine(t, Invoke(call, fault)) && sys.live.Some?
    requires Before(sys.live.value.state.step, sys.store.Visible().value.step)
    requires Judge(t, sys.live.value, call).Abort?
    ensures var (after, r) := Step(t, FilePort, sys, Invoke(call, fault));
            && after.store == sys.store && after.live.Some?
            && after.live.value.state == sys.live.value.state
            && r in {Err(StateShape), Err(StepRegression), Err(StoreUnavailable)}
  {
    hide Judge, Good, WellFormed, t.Lawful;
    JudgeSound(t, sys.live.value, call);
  }

  /** Over a port without the file store's own check, a restart begins a fresh ceremony under two new ids. */
  lemma RestartOverAnyPort(t: TrustFormat, sys: System, ids: Option<(Id16, Id16)>, machine: Option<Hash32>)
    ensures var aborted := sys.store.Visible();
            var (after, r) := Step(t, AnyPort, sys, Restart(true, ids, machine, NoFault));
            && (r.Ok? <==>
                  && aborted.Some? && aborted.value.aborted && ids.Some?
                  && ids.value.0 != aborted.value.organizationId && ids.value.1 != aborted.value.chainId)
            && (r.Ok? ==>
                  && after.live == Some(Coordinator(Fresh(ids.value.0, ids.value.1, machine), None)) && Agrees(after)
                  && !after.live.value.state.aborted)
            && (r.Err? ==> after.store == sys.store && after.live.None?)
  {
  }

  // ------------------------------------------------------------------ step 11

  /**
    When step 11 commits over a port that reads honestly: the media it wrote are
    exactly those sealed in step 4, each now holds the final bytes and no other
    medium changed, every write came before the first read back, and the anchor
    in those bytes continues the sealed pre-anchor.
  */
  lemma FinalAnchorOnSealedMedia(
    t: TrustFormat, c: Coordinator, genesis: Hash32, exactFinal: Bytes, media: Media, ids: seq<Id16>,
    reported: Hash32, signature: Option<Bytes>)
    requires GoodCoordinator(t, c)
    requires JudgeFinalAnchor(t, c, genesis, exactFinal, media, ids, reported, signature).Commit?
    requires forall k :: |ids| <= k < |media.script| ==> !media.script[k].Substituted?
    ensures var after := ConfirmFinalOnMedia(t, c.state, exactFinal, media, ids, reported).0;
            && Elements(ids) == Elements(c.state.sealedMedia) && |Elements(ids)| >= 2
            && after.contents == (map x | x in media.contents.Keys + Elements(ids) :: if x in ids then exactFinal
              else media.contents[x])
            && after.log == media.log + WriteEvents(ids, exactFinal) + ReadEvents(ids, exactFinal)
    ensures c.state.exactPreAnchor.Some?
    ensures t.decodeTrustAnchor(exactFinal) == Some(TrustAnchor(c.state.exactPreAnchor.value, genesis))
    ensures c.state.sealedFingerprint == Some(t.bootstrapAnchorHash(c.state.exactPreAnchor.value))
    ensures reported == t.trustAnchorHash(exactFinal)
  {
    hide ConfirmOnMedia, SignTranscript, WriteEvents, ReadEvents, FinalAnchorPrecheck, Opening, Custody, Closing, Sort;
    PrecheckedAnchor(t, c, genesis, exactFinal);
    SealOf(t, c.state);
    var confirmation := SecondChannelConfirmation(reported, Final);
    ConfirmedMeansReadBack(t, media, ids, exactFinal, confirmation);
    ConfirmedMeansHeld(t, media, ids, exactFinal, confirmation);
    SortedSame(ids);
    DistinctCount(ids);
  }

  lemma SealOf(t: TrustFormat, s: BootstrapState)
    requires Opening(t, s) && Reached(s, PinPreAnchorOnMedia)
    ensures s.exactPreAnchor.Some? && s.sealedFingerprint == Some(t.bootstrapAnchorHash(s.exactPreAnchor.value))
    ensures |s.sealedMedia| >= 2
  {
    hide NoDuplicates, AllHashes, PreFields, Ordered;
  }

  lemma SortedSame(ids: seq<Id16>)
    ensures Elements(SortedIds(ids)) == Elements(ids)
  {
    assert forall x :: x in SortedIds(ids) <==> x in multiset(SortedIds(ids));
    assert forall x :: x in ids <==> x in multiset(ids);
  }
}
