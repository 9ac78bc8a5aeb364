/**
 * `StartCommandOptions` (`src/options.rs`): the per-command settings sent with
 * every StartCommand request. The builder takes the value, replaces one field
 * and hands it back, so each setter is a record update on an immutable value.
 */
module Options {
  import opened Wrappers
  import KachakaApi

  datatype StartCommandOptions = StartCommandOptions(
    title: string,
    ttsOnSuccess: string,
    cancelAll: bool,
    deferrable: bool,
    lockOnEnd: Option<KachakaApi.LockOnEnd>)

  /** `#[derive(Default)]`: every field takes its type's default. */
  function Default(): (o: StartCommandOptions)
    ensures o.title == [] && o.ttsOnSuccess == []
    ensures !o.cancelAll && !o.deferrable
    ensures o.lockOnEnd == None
  {
    StartCommandOptions("", "", false, false, None)
  }

  /** `StartCommandOptions::new`. */
  function New(): (o: StartCommandOptions)
    ensures o == Default()
  {
    Default()
  }

  function Title(o: StartCommandOptions, title: string): (r: StartCommandOptions)
    ensures r.title == title
    ensures r.ttsOnSuccess == o.ttsOnSuccess && r.cancelAll == o.cancelAll
    ensures r.deferrable == o.deferrable && r.lockOnEnd == o.lockOnEnd
  {
    o.(title := title)
  }

  function TtsOnSuccess(o: StartCommandOptions, ttsOnSuccess: string): (r: StartCommandOptions)
    ensures r.ttsOnSuccess == ttsOnSuccess
    ensures r.title == o.title && r.cancelAll == o.cancelAll
    ensures r.deferrable == o.deferrable && r.lockOnEnd == o.lockOnEnd
  {
    o.(ttsOnSuccess := ttsOnSuccess)
  }

  function CancelAll(o: StartCommandOptions, cancelAll: bool): (r: StartCommandOptions)
    ensures r.cancelAll == cancelAll
    ensures r.title == o.title && r.ttsOnSuccess == o.ttsOnSuccess
    ensures r.deferrable == o.deferrable && r.lockOnEnd == o.lockOnEnd
  {
    o.(cancelAll := cancelAll)
  }

  function Deferrable(o: StartCommandOptions, deferrable: bool): (r: StartCommandOptions)
    ensures r.deferrable == deferrable
    ensures r.title == o.title && r.ttsOnSuccess == o.ttsOnSuccess
    ensures r.cancelAll == o.cancelAll && r.lockOnEnd == o.lockOnEnd
  {
    o.(deferrable := deferrable)
  }

  function LockOnEnd(o: StartCommandOptions, lockOnEnd: Option<KachakaApi.LockOnEnd>): (r: StartCommandOptions)
    ensures r.lockOnEnd == lockOnEnd
    ensures r.title == o.title && r.ttsOnSuccess == o.ttsOnSuccess
    ensures r.cancelAll == o.cancelAll && r.deferrable == o.deferrable
  {
    o.(lockOnEnd := lockOnEnd)
  }

  /** Setting a field twice to the same value is the same as setting it once. */
  lemma SettersIdempotent(o: StartCommandOptions, s: string, b: bool, l: Option<KachakaApi.LockOnEnd>)
    ensures Title(Title(o, s), s) == Title(o, s)
    ensures TtsOnSuccess(TtsOnSuccess(o, s), s) == TtsOnSuccess(o, s)
    ensures CancelAll(CancelAll(o, b), b) == CancelAll(o, b)
    ensures Deferrable(Deferrable(o, b), b) == Deferrable(o, b)
    ensures LockOnEnd(LockOnEnd(o, l), l) == LockOnEnd(o, l)
  {
  }

  /** Setters of different fields commute, so the order of a builder chain does not matter. */
  lemma SettersCommute(o: StartCommandOptions, t: string, s: string, c: bool, d: bool, l: Option<KachakaApi.LockOnEnd>)
    ensures TtsOnSuccess(Title(o, t), s) == Title(TtsOnSuccess(o, s), t)
    ensures CancelAll(Title(o, t), c) == Title(CancelAll(o, c), t)
    ensures Deferrable(Title(o, t), d) == Title(Deferrable(o, d), t)
    ensures LockOnEnd(Title(o, t), l) == Title(LockOnEnd(o, l), t)
    ensures CancelAll(TtsOnSuccess(o, s), c) == TtsOnSuccess(CancelAll(o, c), s)
    ensures Deferrable(TtsOnSuccess(o, s), d) == TtsOnSuccess(Deferrable(o, d), s)
    ensures LockOnEnd(TtsOnSuccess(o, s), l) == TtsOnSuccess(LockOnEnd(o, l), s)
    ensures Deferrable(CancelAll(o, c), d) == CancelAll(Deferrable(o, d), c)
    ensures LockOnEnd(CancelAll(o, c), l) == CancelAll(LockOnEnd(o, l), c)
    ensures LockOnEnd(Deferrable(o, d), l) == Deferrable(LockOnEnd(o, l), d)
  {
  }

  /** A later setter of a field overrides an earlier one: the last value set is the one sent. */
  lemma LastSetterWins(o: StartCommandOptions, s1: string, s2: string, b1: bool, b2: bool,
                       l1: Option<KachakaApi.LockOnEnd>, l2: Option<KachakaApi.LockOnEnd>)
    ensures Title(Title(o, s1), s2) == Title(o, s2)
    ensures TtsOnSuccess(TtsOnSuccess(o, s1), s2) == TtsOnSuccess(o, s2)
    ensures CancelAll(CancelAll(o, b1), b2) == CancelAll(o, b2)
    ensures Deferrable(Deferrable(o, b1), b2) == Deferrable(o, b2)
    ensures LockOnEnd(LockOnEnd(o, l1), l2) == LockOnEnd(o, l2)
  {
  }
}
