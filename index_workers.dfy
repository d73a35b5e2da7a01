/**
 * Classification of search-index builds: why an index is being (re)built,
 * which kind of flusher does the work, and how fast it may read the
 * database while doing so.
 */
module IndexWorkers {

  /** Nanoseconds in one second. */
  const NANOS_PER_SEC: nat := 1_000_000_000

  /** A sub-second part in nanoseconds, always below one second as in Rust. */
  type SubsecNanos = n: nat | n < NANOS_PER_SEC

  /** A `std::time::Duration`: whole seconds plus a sub-second part in nanoseconds. */
  datatype Duration = Duration(secs: nat, nanos: SubsecNanos)

  /** `Duration::from_secs`: a whole number of seconds and no sub-second part. */
  function FromSecs(secs: nat): Duration
  {
    Duration(secs, 0)
  }

  /** The longest a retrying index worker backs off: ten minutes. */
  const MAX_BACKOFF: Duration := FromSecs(10 * 60)

  lemma MaxBackoffIsTenMinutes()
    ensures MAX_BACKOFF.secs == 600 && MAX_BACKOFF.nanos == 0
  {
  }

  /** A `NonZeroU32`: an unsigned 32-bit integer that is never zero. */
  type NonZeroU32 = x: int | 0 < x < 0x1_0000_0000 witness 1

  /**
   * The two configuration knobs that bound the read rate of a build, in pages
   * per second. Their values come from the deployment; nothing is assumed about
   * how they compare.
   */
  datatype Knobs = Knobs(pagesPerSecond: NonZeroU32, passivePagesPerSecond: NonZeroU32)

  /** Why a search index is being built. */
  datatype BuildReason = Backfilling | TooOld | TooLarge | VersionMismatch

  /** The two kinds of flushers, kept apart so a slow backfill never delays an in-memory flush. */
  datatype FlusherType = LiveFlush | Backfill

  /** The index is newly added or on the wrong version, so it must be built from the documents. */
  predicate NeedsBackfill(reason: BuildReason)
  {
    reason.Backfilling? || reason.VersionMismatch?
  }

  /** The in-memory part of the index has grown too old or too large and must be written out. */
  predicate NeedsMemoryFlush(reason: BuildReason)
  {
    reason.TooOld? || reason.TooLarge?
  }

  /**
   * The developer is waiting on this build: either they added the index, or their
   * own writes filled the in-memory index. Such builds get the normal read limit,
   * not the passive one, so that the developer's writes are not turned away with
   * transient errors.
   */
  predicate DeveloperWaits(reason: BuildReason)
  {
    reason.Backfilling? || reason.TooLarge?
  }

  /** `impl From<BuildReason> for FlusherType`. */
  function FlusherTypeOf(reason: BuildReason): (t: FlusherType)
    ensures t == Backfill <==> NeedsBackfill(reason)
    ensures t == LiveFlush <==> NeedsMemoryFlush(reason)
  {
    match reason
    case Backfilling | VersionMismatch => Backfill
    case TooOld | TooLarge => LiveFlush
  }

  /** `BuildReason::read_max_pages_per_second`: the read-rate limit for a build. */
  function ReadMaxPagesPerSecond(reason: BuildReason, knobs: Knobs): (r: NonZeroU32)
    ensures r > 0
    ensures DeveloperWaits(reason) ==> r == knobs.pagesPerSecond
    ensures !DeveloperWaits(reason) ==> r == knobs.passivePagesPerSecond
  {
    match reason
    case TooOld | VersionMismatch => knobs.passivePagesPerSecond
    case Backfilling | TooLarge => knobs.pagesPerSecond
  }

  /**
   * Every reason needs exactly one of backfilling and flushing memory, so the
   * conversion to a flusher type is total and single-valued.
   */
  lemma ReasonsPartition(reason: BuildReason)
    ensures NeedsBackfill(reason) != NeedsMemoryFlush(reason)
    ensures FlusherTypeOf(reason) == (if NeedsBackfill(reason) then Backfill else LiveFlush)
  {
  }

  /**
   * The flusher type does not decide which knob bounds the read rate: under each
   * flusher type there is one reason with the passive knob and one with the normal
   * knob, and the flusher type together with the choice of knob picks out a single
   * reason.
   */
  lemma FlusherTypeDoesNotDetermineKnob(t: FlusherType, knobs: Knobs)
    ensures exists reason :: FlusherTypeOf(reason) == t && !DeveloperWaits(reason) &&
                             ReadMaxPagesPerSecond(reason, knobs) == knobs.passivePagesPerSecond
    ensures exists reason :: FlusherTypeOf(reason) == t && DeveloperWaits(reason) &&
                             ReadMaxPagesPerSecond(reason, knobs) == knobs.pagesPerSecond
    ensures forall r1, r2 ::
              (FlusherTypeOf(r1) == t && FlusherTypeOf(r2) == t &&
               DeveloperWaits(r1) == DeveloperWaits(r2)) ==> r1 == r2
  {
    var passive := if t == Backfill then VersionMismatch else TooOld;
    var normal := if t == Backfill then Backfilling else TooLarge;
    assert FlusherTypeOf(passive) == t && !DeveloperWaits(passive);
    assert FlusherTypeOf(normal) == t && DeveloperWaits(normal);
  }
}
