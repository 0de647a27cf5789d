/**
 * The configuration manager: one shared instance, created and loaded on the
 * first `get_instance` call, holding a two-level map section -> setting name
 * -> value. The class attribute that holds the instance is the object
 * `ManagerSlot`; the file 'config.json' is the object `ConfigFile`, whose
 * contents are `None` when the file is missing or is not valid JSON.
 */
module Configuration {
  import opened Wrappers

  type Config<V> = map<string, map<string, V>>

  /** What `load_config` leaves in the manager: the decoded file, or an empty map when there is none. */
  function Loaded<V>(stored: Option<Config<V>>): (config: Config<V>)
    ensures stored.None? ==> config == map[]
    ensures stored.Some? ==> config == stored.value
  {
    match stored
    case None => map[]
    case Some(c) => c
  }

  /** The value of `name` in `section`; None when either is absent. */
  function Lookup<V>(config: Config<V>, section: string, name: string): (r: Option<V>)
    ensures r.Some? <==> section in config && name in config[section]
    ensures r.Some? ==> r.value == config[section][name]
  {
    var settings := if section in config then config[section] else map[];
    if name in settings then Some(settings[name]) else None
  }

  /** The section is created empty when absent, then the setting is stored in it. */
  function Updated<V>(config: Config<V>, section: string, name: string, value: V): Config<V>
  {
    var settings := if section in config then config[section] else map[];
    config[section := settings[name := value]]
  }

  /**
   * A lookup right after a set finds the value set; every other
   * (section, name) pair reads as before, and the set section exists.
   */
  lemma LookupUpdated<V>(config: Config<V>, section: string, name: string, value: V, s: string, n: string)
    ensures Lookup(Updated(config, section, name, value), section, name) == Some(value)
    ensures (s, n) != (section, name) ==>
              Lookup(Updated(config, section, name, value), s, n) == Lookup(config, s, n)
    ensures section in Updated(config, section, name, value)
    ensures Updated(config, section, name, value).Keys == config.Keys + {section}
  {
  }

  /** The file 'config.json': `None` when it is missing or cannot be decoded. */
  class ConfigFile<V> {
    var stored: Option<Config<V>>

    constructor (stored: Option<Config<V>>)
      ensures this.stored == stored
    {
      this.stored := stored;
    }
  }

  class ConfigurationManager<V> {
    var configData: Config<V>
    const file: ConfigFile<V>

    constructor (file: ConfigFile<V>)
      ensures this.file == file && configData == map[]
    {
      this.file := file;
      configData := map[];
    }

    /** Reads the file; a missing or undecodable file gives an empty configuration. */
    method LoadConfig()
      modifies this
      ensures configData == Loaded(file.stored)
    {
      match file.stored {
        case None => configData := map[];
        case Some(c) => configData := c;
      }
    }

    function GetSetting(section: string, name: string): Option<V>
      reads this
    {
      Lookup(configData, section, name)
    }

    /** Stores the value, creating the section if needed, and writes the whole configuration back to the file. */
    method SetSetting(section: string, name: string, value: V)
      modifies this, file
      ensures configData == Updated(old(configData), section, name, value)
      ensures file.stored == Some(configData)
      ensures GetSetting(section, name) == Some(value)
    {
      if section !in configData {
        configData := configData[section := map[]];
      }
      configData := configData[section := configData[section][name := value]];
      file.stored := Some(configData);
      LookupUpdated(old(configData), section, name, value, section, name);
    }
  }

  /** The class attribute `_instance`: null until the first `get_instance` call. */
  class ManagerSlot<V> {
    var instance: ConfigurationManager?<V>

    constructor ()
      ensures instance == null
    {
      instance := null;
    }

    /**
     * The first call creates the manager and loads the file; every later call
     * returns that same manager without loading again.
     */
    method GetInstance(file: ConfigFile<V>) returns (manager: ConfigurationManager<V>)
      modifies this
      ensures instance == manager
      ensures old(instance) != null ==> manager == old(instance)
      ensures old(instance) == null ==>
                fresh(manager) && manager.file == file && manager.configData == Loaded(file.stored)
    {
      if instance == null {
        var created := new ConfigurationManager(file);
        created.LoadConfig();
        instance := created;
      }
      manager := instance;
    }
  }

  /**
   * The module-level demo: two `get_instance` calls give the same manager, so
   * a value set through the first is read back through the second.
   */
  method Demo(stored: Option<Config<string>>) returns (same: bool, before: Option<string>, after: Option<string>)
    ensures same
    ensures before == Lookup(Loaded(stored), "AppConfig", "setting1")
    ensures after == Some("new_value")
  {
    var file := new ConfigFile(stored);
    var slot := new ManagerSlot<string>();
    var manager1 := slot.GetInstance(file);
    var manager2 := slot.GetInstance(file);
    same := manager1 == manager2;
    before := manager1.GetSetting("AppConfig", "setting1");
    manager1.SetSetting("AppConfig", "setting1", "new_value");
    after := manager2.GetSetting("AppConfig", "setting1");
  }
}
