/** The crash-recovery checkpoint (`recovery.rs`): a start marks the session
    dirty, a clean shutdown marks it clean, and a start after a dirty session
    raises a notice until the user acknowledges it. Reading and writing the
    checkpoint file and reading the clock are left out; times are inputs. */
module Recovery {
  import opened Wrappers
  import opened Ints

  datatype RecoveryCheckpoint = RecoveryCheckpoint(
    cleanShutdown: bool,
    recoveryNoticePending: bool,
    launchCount: u64,
    lastStartUnixMs: Option<u128>,
    lastShutdownUnixMs: Option<u128>)

  function DefaultCheckpoint(): RecoveryCheckpoint {
    RecoveryCheckpoint(true, false, 0, None, None)
  }

  function MarkStart(c: RecoveryCheckpoint, nowUnixMs: u128): RecoveryCheckpoint {
    RecoveryCheckpoint(false, !c.cleanShutdown, SaturatingIncU64(c.launchCount), Some(nowUnixMs), c.lastShutdownUnixMs)
  }

  function MarkCleanShutdown(c: RecoveryCheckpoint, nowUnixMs: u128): RecoveryCheckpoint {
    RecoveryCheckpoint(true, false, c.launchCount, c.lastStartUnixMs, Some(nowUnixMs))
  }

  function AcknowledgeRecoveryNotice(c: RecoveryCheckpoint): RecoveryCheckpoint {
    c.(recoveryNoticePending := false)
  }

  /** The first launch raises no notice and counts one launch. */
  lemma FirstLaunch(now: u128)
    ensures var s := MarkStart(DefaultCheckpoint(), now);
      !s.recoveryNoticePending && !s.cleanShutdown && s.launchCount == 1 && s.lastStartUnixMs == Some(now)
      && s.lastShutdownUnixMs.None?
  {
  }

  /** A start: the session becomes dirty; a notice is pending exactly when the
      previous session did not shut down cleanly; the launch count goes up by
      one unless it is saturated; the start time is recorded and the last
      shutdown time is kept. */
  lemma StartRules(c: RecoveryCheckpoint, now: u128)
    ensures var s := MarkStart(c, now);
      && !s.cleanShutdown
      && (s.recoveryNoticePending <==> !c.cleanShutdown)
      && (c.launchCount < U64_MAX ==> s.launchCount == c.launchCount + 1)
      && (c.launchCount == U64_MAX ==> s.launchCount == U64_MAX)
      && s.launchCount >= c.launchCount
      && s.lastStartUnixMs == Some(now)
      && s.lastShutdownUnixMs == c.lastShutdownUnixMs
  {
  }

  /** A clean shutdown clears the notice, records the time, and keeps the
      launch count and start time. */
  lemma ShutdownRules(c: RecoveryCheckpoint, now: u128)
    ensures var s := MarkCleanShutdown(c, now);
      && s.cleanShutdown && !s.recoveryNoticePending
      && s.launchCount == c.launchCount && s.lastStartUnixMs == c.lastStartUnixMs
      && s.lastShutdownUnixMs == Some(now)
  {
  }

  /** Acknowledging clears only the notice, and twice is once. */
  lemma AcknowledgeRules(c: RecoveryCheckpoint)
    ensures var a := AcknowledgeRecoveryNotice(c);
      && !a.recoveryNoticePending
      && a.(recoveryNoticePending := c.recoveryNoticePending) == c
      && AcknowledgeRecoveryNotice(a) == a
  {
  }

  /** Two starts without a clean shutdown between them leave a notice pending;
      a clean shutdown in between leaves none, whatever came before. */
  lemma StartSequences(c: RecoveryCheckpoint, t1: u128, t2: u128)
    ensures MarkStart(MarkStart(c, t1), t2).recoveryNoticePending
    ensures !MarkStart(MarkCleanShutdown(c, t1), t2).recoveryNoticePending
    ensures MarkStart(AcknowledgeRecoveryNotice(MarkStart(c, t1)), t2).recoveryNoticePending
  {
  }

  /** The source's examples. */
  lemma CheckpointExamples()
    ensures var s := MarkStart(RecoveryCheckpoint(false, false, 9, Some(10), None), 1234);
      !s.cleanShutdown && s.recoveryNoticePending && s.launchCount == 10 && s.lastStartUnixMs == Some(1234)
    ensures var s := MarkCleanShutdown(RecoveryCheckpoint(false, true, 3, Some(33), None), 55);
      s.cleanShutdown && !s.recoveryNoticePending && s.lastShutdownUnixMs == Some(55)
  {
  }
}
