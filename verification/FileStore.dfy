/**
  The file store over a filesystem that loses what was not flushed: one state
  file, one temporary file beside it, and a crash possible between any two
  effects.
*/
module FileStore {
  import opened Bytes
  import opened CeremonyState
  import opened StateImage
  import opened Trust
  import opened Ceremony
  import opened CeremonyInvariants

  datatype File = File(bytes: Bytes, synced: bool)

  /** The directory entry of the state file as last flushed, the renames since, and the temporary file. */
  datatype Disk = Disk(durable: Option<File>, pending: seq<File>, temporary: Option<File>) {
    function Visible(): Option<File> {
      if pending == [] then durable else Some(pending[|pending| - 1])
    }
  }

  /** What a reader may find under the state file's name after a crash: unsynced contents come back as anything. */
  ghost predicate MayFind(d: Disk, found: Option<Bytes>) {
    || FoundIn(d.durable, found)
    || exists i :: 0 <= i < |d.pending| && FoundIn(Some(d.pending[i]), found)
  }

  predicate FoundIn(entry: Option<File>, found: Option<Bytes>) {
    match entry
    case None => found.None?
    case Some(f) => found.Some? && (f.synced ==> found.value == f.bytes)
  }

  predicate Readable(f: File) {
    f.synced && FromPersistedImage(f.bytes).Some?
  }

  /** Every entry a reader can meet, now or after a crash, is a complete synced image. */
  ghost predicate Intact(d: Disk) {
    && (d.durable.Some? ==> Readable(d.durable.value))
    && forall i :: 0 <= i < |d.pending| ==> Readable(d.pending[i])
  }

  function StateOf(f: File): BootstrapState
    requires Readable(f)
  {
    FromPersistedImage(f.bytes).value
  }

  /** The disk as the ceremony's transition system sees it. */
  ghost function Abstract(d: Disk): Store
    requires Intact(d)
  {
    Store(if d.durable.Some? then Some(StateOf(d.durable.value)) else None,
          seq(|d.pending|, i requires 0 <= i < |d.pending| && Intact(d) => StateOf(d.pending[i])))
  }

  /** What the environment does to one call. */
  datatype Weather = Weather(
    leased: bool, readable: bool, removed: bool, created: bool,
    accepted: nat, synced: bool, renamed: bool, flushed: bool, cleaned: bool)

  /** The fault of the transition system this weather amounts to, for an image of this length. */
  function AsFault(w: Weather, d: Disk, length: nat): Fault {
    if !w.leased then NoLease
    else if d.Visible().Some? && !w.readable then Unreadable
    else if (d.temporary.Some? && !w.removed) || !w.created || w.accepted < length || !w.synced || !w.renamed then Early
    else if !w.flushed then Late
    else NoFault
  }

  /** The disks a store call may pass through: the old entries, the rename on top of them, or the flushed rename. */
  ghost predicate OnTheWay(before: Disk, image: Bytes, d: Disk) {
    || (d.durable == before.durable && d.pending == before.pending)
    || (d.durable == before.durable && d.pending == before.pending + [File(image, true)])
    || (d.durable == Some(File(image, true)) && d.pending == [])
  }

  /** What the store's image of a state reads back as, if the store goes on with it. */
  function ReadBack(s: BootstrapState): Option<BootstrapState> {
    var read := FromPersistedImage(Image(s));
    if read.Some? && read.value.step == s.step then read else None
  }

  /** What `store` does to the disk and answers, as a move of the transition system's store. */
  ghost predicate SaveOutcome(before: Disk, s: BootstrapState, w: Weather, after: Disk, r: Outcome<()>)
    requires Intact(before)
  {
    && Intact(after)
    && match ReadBack(s)
       case None => after == before && r == Err(if w.leased then StateShape else StoreUnavailable)
       case Some(read) =>
         var (store, failed) := Put(FilePort, Abstract(before), read, AsFault(w, before, |Image(s)|));
         Abstract(after) == store && r == if failed.Some? then Err(failed.value) else Ok(())
  }

  class FileBootstrapStore {
    var disk: Disk
    /** Every disk this store has left behind after an effect. */
    ghost var trace: seq<Disk>

    constructor (disk: Disk)
      ensures this.disk == disk && trace == []
    {
      this.disk, trace := disk, [];
    }

    /** One effect on the disk. */
    method Effect(next: Disk)
      modifies this
      ensures disk == next && trace == old(trace) + [next]
    {
      disk, trace := next, trace + [next];
    }

    /** Since then only the temporary file has changed, at every moment. */
    twostate predicate OnlyTemporary()
      reads this
    {
      && disk.durable == old(disk).durable && disk.pending == old(disk).pending
      && |old(trace)| <= |trace| && trace[..|old(trace)|] == old(trace)
      && forall k :: |old(trace)| <= k < |trace| ==>
        trace[k].durable == old(disk).durable && trace[k].pending == old(disk).pending
    }

    method Load(leased: bool, readable: bool) returns (r: Outcome<Option<BootstrapState>>)
      ensures !leased ==> r == Err(StoreUnavailable)
      ensures leased && disk.Visible().None? ==> r == Ok(None)
      ensures leased && disk.Visible().Some? && !readable ==> r == Err(StoreUnavailable)
      ensures leased && disk.Visible().Some? && readable ==>
                r == match FromPersistedImage(disk.Visible().value.bytes) { case None =>
                  Err(StateShape) case Some(s) => Ok(Some(s)) }
    {
      if !leased {
        return Err(StoreUnavailable);
      }
      if disk.Visible().None? {
        return Ok(None);
      }
      if !readable {
        return Err(StoreUnavailable);
      }
      var s := FromPersistedImage(disk.Visible().value.bytes);
      return if s.None? then Err(StateShape) else Ok(s);
    }

    method RemoveTemporary(removed: bool)
      modifies this
      ensures OnlyTemporary()
      ensures disk.temporary == if removed then None else old(disk).temporary
    {
      if removed {
        Effect(disk.(temporary := None));
      }
    }

    /** Create, write byte by byte, sync; on any failure the bytes written so far stay behind. */
    method WriteTemporary(image: Bytes, w: Weather) returns (written: bool)
      modifies this
      ensures OnlyTemporary()
      ensures written <==> old(disk).temporary.None? && w.created && |image| <= w.accepted && w.synced
      ensures written ==> disk.temporary == Some(File(image, true))
    {
      if disk.temporary.Some? || !w.created {
        return false;
      }
      Effect(disk.(temporary := Some(File([], false))));
      for i := 0 to |image|
        invariant OnlyTemporary() && disk.temporary == Some(File(image[..i], false))
        invariant i <= w.accepted
      {
        if w.accepted <= i {
          return false;
        }
        assert image[..i + 1] == image[..i] + [image[i]];
        Effect(disk.(temporary := Some(File(disk.temporary.value.bytes + [image[i]], false))));
      }
      assert image[..|image|] == image;
      if !w.synced {
        return false;
      }
      Effect(disk.(temporary := Some(File(image, true))));
      return true;
    }

    /** Write beside, rename over, flush the directory; clean up what failed before the rename. */
    method Replace(image: Bytes, w: Weather) returns (r: Outcome<()>)
      requires w.leased && (disk.Visible().Some? ==> w.readable)
      modifies this
      ensures |old(trace)| <= |trace| && trace[..|old(trace)|] == old(trace)
      ensures forall k :: |old(trace)| <= k < |trace| ==> OnTheWay(old(disk), image, trace[k])
      ensures match AsFault(w, old(disk), |image|)
              case NoFault => r == Ok(()) && disk == Disk(Some(File(image, true)), [], None)
              case Late => r == Err(StoreUnavailable)
                   && disk == Disk(old(disk).durable, old(disk).pending + [File(image, true)], None)
              case _ =>
                && r == Err(StoreUnavailable) && disk.durable == old(disk).durable
                && disk.pending == old(disk).pending
    {
      RemoveTemporary(w.removed);
      var written := WriteTemporary(image, w);
      if !written || !w.renamed {
        RemoveTemporary(w.cleaned);
        return Err(StoreUnavailable);
      }
      Effect(Disk(disk.durable, disk.pending + [disk.temporary.value], None));
      if !w.flushed {
        return Err(StoreUnavailable);
      }
      Effect(Disk(disk.Visible(), [], disk.temporary));
      return Ok(());
    }

    /**
      `store`. Whatever fails: the call is one move of the transition system's
      store, and every disk it passes through holds, for any reader and after any
      crash, only entries that were there before or the complete new image.
    */
    method Save(s: BootstrapState, w: Weather) returns (r: Outcome<()>)
      requires Intact(disk)
      modifies this
      ensures Intact(disk)
      ensures |old(trace)| <= |trace| && trace[..|old(trace)|] == old(trace)
      ensures forall k :: |old(trace)| <= k < |trace| ==> OnTheWay(old(disk), Image(s), trace[k])
      ensures SaveOutcome(old(disk), s, w, disk, r)
      ensures ReadBack(s).None? ==> trace == old(trace)
    {
      hide FromPersistedImage, Image, WellFormed;
      if !w.leased {
        return Err(StoreUnavailable);
      }
      var image := Image(s);
      var read := FromPersistedImage(image);
      if read.None? || read.value.step != s.step {
        assert ReadBack(s).None?;
        return Err(StateShape);
      }
      AcceptedExactlyImages(image);
      AbstractVisible(disk);
      var persisted := Load(true, w.readable);
      if persisted.Err? {
        return Err(persisted.error);
      }
      if persisted.value.Some? && Before(s.step, persisted.value.value.step) {
        return Err(StepRegression);
      }
      AbstractRename(disk, image);
      ghost var before := disk;
      r := Replace(image, w);
      AbstractEntries(before, disk);
    }
  }

  /** The temporary file is no part of what the transition system sees. */
  lemma AbstractEntries(a: Disk, b: Disk)
    requires Intact(a)
    ensures a.durable == b.durable && a.pending == b.pending ==> Intact(b) && Abstract(a) == Abstract(b)
  {
    hide FromPersistedImage;
  }

  lemma AbstractVisible(d: Disk)
    requires Intact(d)
    ensures Abstract(d).Visible() == if d.Visible().Some? then Some(StateOf(d.Visible().value)) else None
  {
    hide FromPersistedImage;
  }

  /** The rename as the transition system sees it: one more replacement not yet flushed. */
  lemma AbstractRename(d: Disk, image: Bytes)
    requires Intact(d) && FromPersistedImage(image).Some?
    ensures var after := Disk(d.durable, d.pending + [File(image, true)], None);
            Intact(after) && Abstract(after) == Store(Abstract(d).durable,
              Abstract(d).pending + [FromPersistedImage(image).value])
    ensures var flushed := Disk(Some(File(image, true)), [], None);
            Intact(flushed) && Abstract(flushed) == Store(Some(FromPersistedImage(image).value), [])
  {
    hide FromPersistedImage;
  }

  /** A reader of any disk on the way finds nothing new but the whole new image, even after a crash. */
  lemma OldOrNew(before: Disk, image: Bytes, d: Disk, found: Option<Bytes>)
    requires OnTheWay(before, image, d) && MayFind(d, found)
    ensures MayFind(before, found) || found == Some(image)
  {
    if !FoundIn(d.durable, found) {
      var i :| 0 <= i < |d.pending| && FoundIn(Some(d.pending[i]), found);
      assert i < |before.pending| ==> FoundIn(Some(before.pending[i]), found);
    }
  }

  /** So what a crash leaves is no file, or a file that decodes: an old state or the new one. */
  lemma CrashLeavesReadableState(before: Disk, s: BootstrapState, d: Disk, found: Option<Bytes>)
    requires Intact(before) && FromPersistedImage(Image(s)).Some?
    requires OnTheWay(before, Image(s), d) && MayFind(d, found)
    ensures found.Some? ==> FromPersistedImage(found.value).Some?
    ensures Intact(d)
    ensures exists survivor: nat :: Abstract(d).AfterCrash(survivor) == if found.Some? then
            FromPersistedImage(found.value) else None
  {
    hide FromPersistedImage, Image;
    OldOrNew(before, Image(s), d, found);
    if FoundIn(d.durable, found) {
      assert Abstract(d).AfterCrash(|d.pending|) == Abstract(d).durable;
    } else {
      var i :| 0 <= i < |d.pending| && FoundIn(Some(d.pending[i]), found);
      assert Abstract(d).AfterCrash(i) == Some(StateOf(d.pending[i]));
    }
  }

  /** A crash in the middle of a store is a crash of the transition system: after an early, a late or no failure. */
  lemma CrashInsideStore(before: Disk, s: BootstrapState, d: Disk)
    requires Intact(before) && WellFormed(s) && OnTheWay(before, Image(s), d)
    requires Abstract(before).Visible().Some? ==> !Before(s.step, Abstract(before).Visible().value.step)
    ensures Intact(d)
    ensures exists fault :: Abstract(d) == Put(FilePort, Abstract(before), s, fault).0
  {
    hide FromPersistedImage, Image, WellFormed;
    ReadsBack(s);
    if d.durable == before.durable && d.pending == before.pending {
      assert Abstract(d) == Put(FilePort, Abstract(before), s, Early).0;
    } else if d.durable == before.durable && d.pending == before.pending + [File(Image(s), true)] {
      assert Abstract(d) == Put(FilePort, Abstract(before), s, Late).0;
    } else {
      assert Abstract(d) == Put(FilePort, Abstract(before), s, NoFault).0;
    }
  }

  lemma ReadsBack(s: BootstrapState)
    requires WellFormed(s)
    ensures FromPersistedImage(Image(s)) == Some(s)
  {
    RoundTrip(s);
  }

  /**
    The store's check of its own image refuses exactly the states that do not
    read back: those whose pairs are not the ones in the signed transcript.
  */
  lemma AcceptsExactlyWellFormed(t: TrustFormat, s: BootstrapState)
    requires Good(t, s) && Sized(s)
    ensures FromPersistedImage(Image(s)).Some? <==> WellFormed(s)
    ensures WellFormed(s) ==> FromPersistedImage(Image(s)) == Some(s)
  {
    hide FromPersistedImage, Image, Sized, TranscriptBytes;
    RoundTrip(s);
    if s.transcript.Some? {
      TranscriptOf(t, s);
      var x := s.transcript.value;
      if x.exactBytes == StateTranscriptBytes(s) {
        PairsFit(s);
        TranscriptBindsEveryPair(s.organizationId, s.chainId, s.root.value, x.adminPairs, s.adminPairs,
          s.sealedFingerprint.value);
      }
    }
  }

  lemma PairsFit(s: BootstrapState)
    requires Sized(s)
    ensures |s.adminPairs| <= MAX_COUNT
  {
  }

  lemma TranscriptOf(t: TrustFormat, s: BootstrapState)
    requires Good(t, s) && s.transcript.Some?
    ensures SignedTranscript(t, s, s.transcript.value)
  {
    hide SignedTranscript;
  }
}
