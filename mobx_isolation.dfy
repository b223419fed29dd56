/**
 * `mobx.ts`: configures the bundled MobX for isolation once per module
 * instance, guarded by a flag local to the module, and does so when the
 * module is loaded.
 */
module MobxIsolation {
  import opened Wrappers
  import opened MobxRuntime

  /** The options `initMobxIsolation` configures with. */
  const IsolationOptions: ConfigureOptions := ConfigureOptions(true, None)

  /** One loaded instance of the module: its own flag over the MobX it imports. */
  class MobxModule {
    const mobx: Mobx
    var mobxIsolationInitialized: bool

    /**
     * Loading the module: the flag starts clear and `initMobxIsolation` runs
     * once, so the instance has configured MobX exactly once. The bundled
     * MobX exports `configure`.
     */
    constructor Load(mobx: Mobx)
      requires mobx.hasConfigure
      modifies mobx
      ensures this.mobx == mobx && mobxIsolationInitialized
      ensures mobx.configureCalls == old(mobx.configureCalls) + [IsolationOptions]
    {
      this.mobx := mobx;
      mobxIsolationInitialized := false;
      new;
      InitMobxIsolation();
    }

    /** `initMobxIsolation()`: configures only while the flag is clear, then the flag is set. */
    method InitMobxIsolation()
      requires mobx.hasConfigure
      modifies this, mobx
      ensures mobxIsolationInitialized
      ensures mobx.configureCalls
              == old(mobx.configureCalls) + (if old(mobxIsolationInitialized) then [] else [IsolationOptions])
    {
      if !mobxIsolationInitialized {
        mobx.Configure(IsolationOptions);
        mobxIsolationInitialized := true;
      }
    }
  }

  /** After load, further calls on the same instance configure nothing. */
  method LoadThenInitAgain(mobx: Mobx) returns (instance: MobxModule)
    requires mobx.hasConfigure
    modifies mobx
    ensures fresh(instance) && instance.mobx == mobx
    ensures mobx.configureCalls == old(mobx.configureCalls) + [IsolationOptions]
  {
    instance := new MobxModule.Load(mobx);
    instance.InitMobxIsolation();
    instance.InitMobxIsolation();
  }

  /**
   * The guard is per module instance: two instances of the module over one
   * MobX configure it twice.
   */
  method LoadTwice(mobx: Mobx) returns (first: MobxModule, second: MobxModule)
    requires mobx.hasConfigure
    modifies mobx
    ensures fresh(first) && fresh(second) && first != second
    ensures mobx.configureCalls == old(mobx.configureCalls) + [IsolationOptions, IsolationOptions]
  {
    first := new MobxModule.Load(mobx);
    second := new MobxModule.Load(mobx);
  }
}
