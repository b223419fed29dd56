/**
 * The MobX runtime as the two bootstrap modules see it: whether it exports
 * a `configure` function, the `runInAction` it exports, and the log of the
 * `configure` calls made on it.
 */
module MobxRuntime {
  import opened Wrappers

  /** The options object passed to `configure`; an absent `enforceActions` is `None`. */
  datatype ConfigureOptions = ConfigureOptions(isolateGlobalState: bool, enforceActions: Option<string>)

  class Mobx {
    /** `typeof mobx.configure === "function"`. */
    const hasConfigure: bool
    /** The `runInAction` function the runtime exports. */
    const runInAction: object
    var configureCalls: seq<ConfigureOptions>

    constructor (hasConfigure: bool, runInAction: object)
      ensures this.hasConfigure == hasConfigure && this.runInAction == runInAction
      ensures configureCalls == []
    {
      this.hasConfigure := hasConfigure;
      this.runInAction := runInAction;
      configureCalls := [];
    }

    /** `mobx.configure(options)`; calling it when it is not a function would throw. */
    method Configure(options: ConfigureOptions)
      requires hasConfigure
      modifies this
      ensures configureCalls == old(configureCalls) + [options]
    {
      configureCalls := configureCalls + [options];
    }
  }
}
