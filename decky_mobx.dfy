/**
 * `deckyMobx.ts`: takes MobX from the host's `window.mobx`, configures it at
 * most once per window (the flag lives on `window`, so it is shared by every
 * evaluation of the module), and exports the host's `runInAction`.
 */
module DeckyMobx {
  import opened Wrappers
  import opened MobxRuntime

  /** The two globals the module reads; a falsy `window.mobx` is `None`. */
  class Window {
    var mobx: Option<Mobx>
    var metaDeckMobxConfigured: bool

    constructor (mobx: Option<Mobx>, metaDeckMobxConfigured: bool)
      ensures this.mobx == mobx && this.metaDeckMobxConfigured == metaDeckMobxConfigured
    {
      this.mobx := mobx;
      this.metaDeckMobxConfigured := metaDeckMobxConfigured;
    }
  }

  const MobxMissingMessage: string :=
    "[MetaDeck] window.mobx is not available. Decky did not provide MobX globally."

  /** The options the module configures the host's MobX with. */
  const DeckyOptions: ConfigureOptions := ConfigureOptions(true, Some("never"))

  /** `getMobx()`: the host's MobX, or the error thrown when there is none. */
  function GetMobx(w: Window): (r: Result<Mobx, string>)
    reads w
    ensures r.Success? <==> w.mobx.Some?
    ensures r.Success? ==> r.value == w.mobx.value
    ensures r.Failure? ==> r.error == MobxMissingMessage
  {
    if w.mobx.None? then Failure(MobxMissingMessage) else Success(w.mobx.value)
  }

  /** What one evaluation may change: the window and the host's MobX. */
  function Footprint(w: Window): set<object>
    reads w
  {
    {w} + (if w.mobx.Some? then {w.mobx.value} else {})
  }

  /**
   * One evaluation of the module. Without a host MobX it throws and changes
   * nothing. Otherwise the flag ends set, `configure` is called with
   * `{isolateGlobalState: true, enforceActions: "never"}` exactly when the
   * flag was clear and `configure` is a function, and the export is the
   * host's `runInAction`.
   */
  method EvaluateModule(w: Window) returns (runInAction: Result<object, string>)
    modifies Footprint(w)
    ensures w.mobx == old(w.mobx)
    ensures old(w.mobx).None? ==>
              runInAction == Failure(MobxMissingMessage)
              && w.metaDeckMobxConfigured == old(w.metaDeckMobxConfigured)
    ensures old(w.mobx).Some? ==>
              var m := old(w.mobx).value;
              && runInAction == Success(m.runInAction)
              && w.metaDeckMobxConfigured
              && m.configureCalls
                 == old(m.configureCalls)
                    + (if !old(w.metaDeckMobxConfigured) && m.hasConfigure then [DeckyOptions] else [])
  {
    var got := GetMobx(w);
    if got.Failure? {
      return Failure(got.error);
    }
    var m := got.value;
    if !w.metaDeckMobxConfigured {
      if m.hasConfigure {
        m.Configure(DeckyOptions);
      }
      w.metaDeckMobxConfigured := true;
    }
    runInAction := Success(m.runInAction);
  }

  /**
   * Any number of evaluations sharing one window: the host's MobX is
   * configured by the first evaluation that finds the flag clear, and by
   * no other, so at most once.
   */
  method EvaluateRepeatedly(w: Window, times: nat)
    modifies Footprint(w)
    ensures w.mobx == old(w.mobx)
    ensures old(w.mobx).Some? ==>
              var m := old(w.mobx).value;
              && (times > 0 ==> w.metaDeckMobxConfigured)
              && m.configureCalls
                 == old(m.configureCalls)
                    + (if times > 0 && !old(w.metaDeckMobxConfigured) && m.hasConfigure then [DeckyOptions] else [])
              && |m.configureCalls| <= |old(m.configureCalls)| + 1
  {
    var i := 0;
    while i < times
      invariant 0 <= i <= times
      invariant w.mobx == old(w.mobx)
      invariant old(w.mobx).Some? ==>
                  var m := old(w.mobx).value;
                  && (i > 0 ==> w.metaDeckMobxConfigured)
                  && (i == 0 ==> w.metaDeckMobxConfigured == old(w.metaDeckMobxConfigured))
                  && m.configureCalls
                     == old(m.configureCalls)
                        + (if i > 0 && !old(w.metaDeckMobxConfigured) && m.hasConfigure then [DeckyOptions] else [])
    {
      var _ := EvaluateModule(w);
      i := i + 1;
    }
  }
}
