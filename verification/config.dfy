/**
 * The game configuration manager: it fetches a dashboard configuration per
 * game, caches it, keeps one current, and maps decoder ids to game ids.
 *
 * The fetch of a configuration file is a parameter of the load: the parsed
 * document, or the message of the error the fetch or the parse threw.
 */
module Config {
  import opened Wire
  import Decoders

  /** A parsed configuration document; its contents play no part here. */
  datatype ConfigFile = ConfigFile(document: string)

  /** The keys of `GAME_CONFIGS`, one per configuration file. */
  const GameIds: seq<string> := ["forza-motorsport", "forza-horizon", "assetto-corsa", "f1-2024", "f1-2025"]

  /** `DECODER_TO_GAME_MAP`, as (decoder id, game id) pairs in declaration order. */
  const DecoderToGame: seq<(string, string)> := [
    ("forza-motorsport", "forza-motorsport"),
    ("forza-horizon", "forza-horizon"),
    ("assetto-corsa", "assetto-corsa"),
    ("f1-2024", "f1-2024"),
    ("f1-2025", "f1-2025")
  ]

  /** The fields of a `ConfigManager`. */
  datatype ConfigState = ConfigState(
    configCache: map<string, ConfigFile>,
    currentConfig: Option<ConfigFile>,
    currentGameId: Option<string>)

  /**
   * Every cached id is a game id, and the current id is either absent
   * together with the current config, or a cached id whose config is the
   * current one.
   */
  predicate Consistent(s: ConfigState)
  {
    && (forall id | id in s.configCache :: id in GameIds)
    && (s.currentGameId.None? <==> s.currentConfig.None?)
    && (s.currentGameId.Some? ==>
          s.currentGameId.value in s.configCache
          && s.currentConfig == Some(s.configCache[s.currentGameId.value]))
  }

  /**
   * `loadConfig(gameId)`: a cached config becomes current without a fetch;
   * an id that is not a game id throws; otherwise the fetched config is
   * cached and made current, or the fetch's error is rethrown wrapped.
   */
  function LoadConfigStep(s: ConfigState, gameId: string, fetched: Result<ConfigFile>): (ConfigState, Result<ConfigFile>)
  {
    if gameId in s.configCache then
      var c := s.configCache[gameId];
      (s.(currentConfig := Some(c), currentGameId := Some(gameId)), Ok(c))
    else if gameId !in GameIds then
      (s, Err("Unknown game configuration: " + gameId))
    else if fetched.Err? then
      (s, Err("Failed to load configuration for " + gameId + ": " + fetched.error))
    else
      (ConfigState(s.configCache[gameId := fetched.value], Some(fetched.value), Some(gameId)), fetched)
  }

  /** `clearCache`. */
  function Cleared(s: ConfigState): (r: ConfigState)
    ensures Consistent(r) && r.configCache == map[]
    ensures r.currentConfig.None? && r.currentGameId.None?
  {
    ConfigState(map[], None, None)
  }

  class ConfigManager {
    var configCache: map<string, ConfigFile>
    var currentConfig: Option<ConfigFile>
    var currentGameId: Option<string>

    function State(): ConfigState
      reads this
    {
      ConfigState(configCache, currentConfig, currentGameId)
    }

    ghost predicate Valid()
      reads this
    {
      Consistent(State())
    }

    constructor()
      ensures Valid() && State() == ConfigState(map[], None, None)
    {
      configCache := map[];
      currentConfig := None;
      currentGameId := None;
    }

    /** `loadConfig`; `fetched` is what fetching and parsing the game's file gives. */
    method LoadConfig(gameId: string, fetched: Result<ConfigFile>) returns (r: Result<ConfigFile>)
      requires Valid()
      modifies this
      ensures Valid()
      ensures (State(), r) == LoadConfigStep(old(State()), gameId, fetched)
    {
      if gameId in configCache {
        var config := configCache[gameId];
        currentConfig := Some(config);
        currentGameId := Some(gameId);
        return Ok(config);
      }
      if gameId !in GameIds {
        return Err("Unknown game configuration: " + gameId);
      }
      if fetched.Err? {
        return Err("Failed to load configuration for " + gameId + ": " + fetched.error);
      }
      configCache := configCache[gameId := fetched.value];
      currentConfig := Some(fetched.value);
      currentGameId := Some(gameId);
      return fetched;
    }

    function GetCurrentConfig(): (r: Option<ConfigFile>)
      reads this
      ensures r == State().currentConfig
    {
      currentConfig
    }

    function GetCurrentGameId(): (r: Option<string>)
      reads this
      ensures r == State().currentGameId
    {
      currentGameId
    }

    function IsConfigLoaded(): (r: bool)
      reads this
      ensures r <==> State().currentConfig.Some?
    {
      currentConfig.Some?
    }

    method ClearCache()
      modifies this
      ensures Valid() && State() == Cleared(old(State()))
      ensures !IsConfigLoaded()
    {
      configCache := map[];
      currentConfig := None;
      currentGameId := None;
    }
  }

  /**
   * `loadConfigForDecoder(decoderId)`: the decoder's game id, then
   * `loadConfig`; a decoder id without a game throws and changes nothing.
   */
  method LoadConfigForDecoder(manager: ConfigManager, decoderId: string, fetched: Result<ConfigFile>)
    returns (r: Result<ConfigFile>)
    requires manager.Valid()
    modifies manager
    ensures manager.Valid()
    ensures var gameId := Decoders.Find(DecoderToGame, decoderId);
      if gameId.None? then
        r == Err("No configuration available for decoder: " + decoderId) && manager.State() == old(manager.State())
      else
        (manager.State(), r) == LoadConfigStep(old(manager.State()), gameId.value, fetched)
  {
    var gameId := Decoders.Find(DecoderToGame, decoderId);
    if gameId.None? {
      return Err("No configuration available for decoder: " + decoderId);
    }
    r := manager.LoadConfig(gameId.value, fetched);
  }

  // ---------------------------------------------------------------------
  // Lemmas

  /** A load keeps the manager consistent. */
  lemma LoadKeepsConsistent(s: ConfigState, gameId: string, fetched: Result<ConfigFile>)
    requires Consistent(s)
    ensures Consistent(LoadConfigStep(s, gameId, fetched).0)
  {
  }

  /**
   * A cache hit returns the cached config whatever the fetch would give; a
   * miss that fails (unknown id or fetch error) leaves the state as it was;
   * a success caches the fetched config and makes it current.
   */
  lemma LoadOutcome(s: ConfigState, gameId: string, fetched: Result<ConfigFile>)
    ensures var (s', r) := LoadConfigStep(s, gameId, fetched);
      && (gameId in s.configCache ==> r == Ok(s.configCache[gameId]) && s'.configCache == s.configCache)
      && (r.Err? ==> s' == s)
      && (r.Ok? ==> s'.configCache[gameId] == r.value && s'.currentConfig == Some(r.value)
                    && s'.currentGameId == Some(gameId))
  {
  }

  /**
   * The five decoder ids map to the game ids of the same name, which are
   * exactly the registry's decoder ids; every other decoder id has no game.
   */
  lemma DecoderToGameSpec(decoderId: string)
    ensures Decoders.Find(DecoderToGame, decoderId).Some? <==> Decoders.Find(Decoders.AvailableDecoders, decoderId).Some?
    ensures Decoders.Find(DecoderToGame, decoderId).Some? ==>
      Decoders.Find(DecoderToGame, decoderId).value == decoderId && decoderId in GameIds
  {
    Decoders.RegistryLookup(decoderId);
    Decoders.FindSpec(DecoderToGame, decoderId);
    assert Decoders.DistinctKeys(DecoderToGame);
    assert forall i | 0 <= i < |DecoderToGame| :: DecoderToGame[i].1 == DecoderToGame[i].0 && DecoderToGame[i].0 in GameIds;
  }
}
