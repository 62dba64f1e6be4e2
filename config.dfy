/** The in-memory settings store (samael.huginandmunin.Config): one key/value
    map, seeded with the application's defaults, reached through a single
    instance. A Java HashMap accepts null as a key and as a value, so both are
    nullable here. */
module AppConfig {

  import opened JavaLang

  /** The store: HashMap<String, String>. */
  type Store = map<Nullable<string>, Nullable<string>>

  /** HashMap.get: the value stored under `key`, or null when there is none. */
  function Lookup(m: Store, key: Nullable<string>): Nullable<string> {
    if key in m then m[key] else Null
  }

  /** What the constructor builds: the five default settings. */
  function Defaults(): Store {
    map[
      NonNull("App.Name") := NonNull("HelloJWorld"),
      NonNull("App.Version") := NonNull("00.01"),
      NonNull("App.Author") := NonNull("Patrik Eigemann"),
      NonNull("App.Label.Text") := NonNull("Hello Java World!"),
      NonNull("App.LogName") := NonNull("HelloJWorld.log")
    ]
  }

  /** The keys the constructor seeds. */
  function DefaultKeys(): set<Nullable<string>> {
    {NonNull("App.Name"), NonNull("App.Version"), NonNull("App.Author"),
     NonNull("App.Label.Text"), NonNull("App.LogName")}
  }

  /** After construction the store holds exactly the five defaults. */
  lemma DefaultsContents()
    ensures Defaults().Keys == DefaultKeys()
    ensures Lookup(Defaults(), NonNull("App.Name")) == NonNull("HelloJWorld")
    ensures Lookup(Defaults(), NonNull("App.Version")) == NonNull("00.01")
    ensures Lookup(Defaults(), NonNull("App.Author")) == NonNull("Patrik Eigemann")
    ensures Lookup(Defaults(), NonNull("App.Label.Text")) == NonNull("Hello Java World!")
    ensures Lookup(Defaults(), NonNull("App.LogName")) == NonNull("HelloJWorld.log")
  {
  }

  /** get of any key other than the five defaults, null included, finds nothing
      after construction. */
  lemma DefaultsOnlyKeys(key: Nullable<string>)
    requires key !in DefaultKeys()
    ensures Lookup(Defaults(), key) == Null
  {
    DefaultsContents();
  }

  /** Every default value is non-null, so after construction get returns null
      exactly for the keys that are absent. */
  lemma DefaultsNullIffAbsent(key: Nullable<string>)
    ensures Lookup(Defaults(), key) == Null <==> key !in Defaults()
  {
  }

  /** put then get returns the value put, null included. */
  lemma GetAfterSet(m: Store, key: Nullable<string>, value: Nullable<string>)
    ensures Lookup(m[key := value], key) == value
  {
  }

  /** put leaves every other key as it was. */
  lemma SetKeepsOtherKeys(m: Store, key: Nullable<string>, value: Nullable<string>, other: Nullable<string>)
    requires other != key
    ensures Lookup(m[key := value], other) == Lookup(m, other)
  {
  }

  /** The later of two puts to one key wins, and repeating a put changes nothing. */
  lemma SetTwice(m: Store, key: Nullable<string>, v1: Nullable<string>, v2: Nullable<string>)
    ensures m[key := v1][key := v2] == m[key := v2]
    ensures m[key := v2][key := v2] == m[key := v2]
  {
  }

  /** After a put of null, get cannot tell the key from an absent one, although
      the key is present in the map. */
  lemma NullValueLooksAbsent(m: Store, key: Nullable<string>, other: Nullable<string>)
    requires other !in m && other != key
    ensures key in m[key := Null] && other !in m[key := Null]
    ensures Lookup(m[key := Null], key) == Lookup(m[key := Null], other) == Null
  {
  }

  class Config {
    /** The in-memory key/value store. */
    var settings: Store

    /** Seeds the store with the five defaults through setSetting. */
    constructor ()
      ensures settings == Defaults()
    {
      settings := map[];
      new;
      SetSetting(NonNull("App.Name"), NonNull("HelloJWorld"));
      SetSetting(NonNull("App.Version"), NonNull("00.01"));
      SetSetting(NonNull("App.Author"), NonNull("Patrik Eigemann"));
      SetSetting(NonNull("App.Label.Text"), NonNull("Hello Java World!"));
      SetSetting(NonNull("App.LogName"), NonNull("HelloJWorld.log"));
    }

    /** getSetting: a lookup that leaves the store alone. */
    function GetSetting(key: Nullable<string>): Nullable<string>
      reads this
    {
      Lookup(settings, key)
    }

    /** setSetting: HashMap.put. */
    method SetSetting(key: Nullable<string>, value: Nullable<string>)
      modifies this
      ensures settings == old(settings)[key := value]
      ensures GetSetting(key) == value
      ensures forall k :: k != key ==> GetSetting(k) == Lookup(old(settings), k)
    {
      settings := settings[key := value];
    }
  }

  /** The holder of the one Config instance, with the static get/set proxies that
      delegate to it. */
  class ConfigHolder {
    const instance: Config

    constructor ()
      ensures fresh(instance) && instance.settings == Defaults()
    {
      instance := new Config();
    }

    /** getInstance. */
    function GetInstance(): Config {
      instance
    }

    /** Config.get(key). */
    function Get(key: Nullable<string>): Nullable<string>
      reads instance
    {
      GetInstance().GetSetting(key)
    }

    /** Config.set(key, value): what it stores is seen both through the proxy and
        through every instance getInstance returns. */
    method Set(key: Nullable<string>, value: Nullable<string>)
      modifies instance
      ensures instance.settings == old(instance.settings)[key := value]
      ensures Get(key) == value && GetInstance().GetSetting(key) == value
      ensures forall k :: k != key ==> Get(k) == Lookup(old(instance.settings), k)
    {
      GetInstance().SetSetting(key, value);
    }
  }

  /** A set through the static proxy is seen by a later getInstance().getSetting and
      by the proxy get alike, other defaults stay, and a key set to null reads as null. */
  method SharedStoreScenario() returns (viaInstance: Nullable<string>, viaProxy: Nullable<string>,
                                        untouched: Nullable<string>, cleared: Nullable<string>)
    ensures viaInstance == NonNull("Bye") && viaProxy == NonNull("Bye")
    ensures untouched == NonNull("00.01")
    ensures cleared == Null
  {
    var holder := new ConfigHolder();
    holder.Set(NonNull("App.Name"), NonNull("Bye"));
    var config := holder.GetInstance();
    viaInstance := config.GetSetting(NonNull("App.Name"));
    viaProxy := holder.Get(NonNull("App.Name"));
    untouched := holder.Get(NonNull("App.Version"));
    holder.Set(NonNull("App.Author"), Null);
    cleared := holder.Get(NonNull("App.Author"));
  }
}
