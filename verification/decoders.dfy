/**
 * The registry of available decoders and the decoder manager that loads
 * them on demand, caches each loaded decoder under its id and keeps one of
 * them current.
 *
 * A loader is a dynamic `import()`; its outcome (the decoder object or the
 * error it throws) is a parameter of the load. A decoder object is a
 * `DecoderHandle`, and what it decodes is a parameter of `Decode`.
 */
module Decoders {
  import opened Wire
  import opened Frames

  /** One registry entry: what the dashboard lists; the loader is not modelled. */
  datatype DecoderInfo = DecoderInfo(id: string, name: string, description: string)

  /** A decoder object handed out by a loader. */
  datatype DecoderHandle = DecoderHandle(id: string, instance: nat)

  /** `AVAILABLE_DECODERS`, as (key, entry) pairs in declaration order. */
  const AvailableDecoders: seq<(string, DecoderInfo)> := [
    ("forza-motorsport", DecoderInfo("forza-motorsport", "Forza Motorsport",
      "Forza Motorsport series UDP telemetry decoder")),
    ("forza-horizon", DecoderInfo("forza-horizon", "Forza Horizon 4/5",
      "Forza Horizon 4/5 series UDP telemetry decoder")),
    ("assetto-corsa", DecoderInfo("assetto-corsa", "Assetto Corsa Series",
      "Assetto Corsa EVO UDP telemetry decoder (Coming Soon)")),
    ("f1-2024", DecoderInfo("f1-2024", "F1 2024",
      "F1 2024 UDP telemetry decoder with full packet type support")),
    ("f1-2025", DecoderInfo("f1-2025", "F1 2025",
      "F1 2025 UDP telemetry decoder with full packet type support including new Lap Positions packet"))
  ]

  /** The entry stored under `key`, if any: the first pair with that key. */
  function Find<T>(entries: seq<(string, T)>, key: string): Option<T>
  {
    if entries == [] then None
    else if entries[0].0 == key then Some(entries[0].1)
    else Find(entries[1..], key)
  }

  /** `getAvailableDecoders`: the entries of the registry in order. */
  function AvailableDecoderInfos(): (r: seq<DecoderInfo>)
    ensures |r| == |AvailableDecoders|
    ensures forall i | 0 <= i < |r| :: r[i] == AvailableDecoders[i].1
  {
    seq(|AvailableDecoders|, i requires 0 <= i < |AvailableDecoders| => AvailableDecoders[i].1)
  }

  /** Every key of `entries` is written once. */
  predicate DistinctKeys<T>(entries: seq<(string, T)>)
  {
    forall i, j | 0 <= i < j < |entries| :: entries[i].0 != entries[j].0
  }

  // ---------------------------------------------------------------------
  // The manager as a state machine

  /** The fields of a `DecoderManager`. */
  datatype ManagerState = ManagerState(
    decoders: map<string, DecoderHandle>,
    currentDecoder: Option<DecoderHandle>,
    currentDecoderId: Option<string>)

  /**
   * Every cached id is a registry key, and the current id is either absent
   * together with the current decoder, or a cached id whose decoder is the
   * current one.
   */
  predicate Consistent(s: ManagerState)
  {
    && (forall id | id in s.decoders :: Find(AvailableDecoders, id).Some?)
    && (s.currentDecoderId.None? <==> s.currentDecoder.None?)
    && (s.currentDecoderId.Some? ==>
          s.currentDecoderId.value in s.decoders
          && s.currentDecoder == Some(s.decoders[s.currentDecoderId.value]))
  }

  /**
   * `loadDecoder(decoderId)`: a cached decoder becomes current without its
   * loader running; an id outside the registry throws; otherwise the
   * loader's outcome is cached and made current, or its error rethrown.
   */
  function Load(s: ManagerState, decoderId: string, loaded: Result<DecoderHandle>): (ManagerState, Result<DecoderHandle>)
  {
    if decoderId in s.decoders then
      var d := s.decoders[decoderId];
      (s.(currentDecoder := Some(d), currentDecoderId := Some(decoderId)), Ok(d))
    else if Find(AvailableDecoders, decoderId).None? then
      (s, Err("Unknown decoder: " + decoderId))
    else if loaded.Err? then
      (s, loaded)
    else
      (ManagerState(s.decoders[decoderId := loaded.value], Some(loaded.value), Some(decoderId)), loaded)
  }

  /** `decode(buffer)`: no decoder current gives null, else the current decoder's own result. */
  function DecodeWith(s: ManagerState, buffer: seq<byte>, run: (DecoderHandle, seq<byte>) -> Option<Frame>): (r: Option<Frame>)
    ensures s.currentDecoder.None? ==> r.None?
    ensures s.currentDecoder.Some? ==> r == run(s.currentDecoder.value, buffer)
  {
    if s.currentDecoder.None? then None else run(s.currentDecoder.value, buffer)
  }

  class DecoderManager {
    var decoders: map<string, DecoderHandle>
    var currentDecoder: Option<DecoderHandle>
    var currentDecoderId: Option<string>

    function State(): ManagerState
      reads this
    {
      ManagerState(decoders, currentDecoder, currentDecoderId)
    }

    ghost predicate Valid()
      reads this
    {
      Consistent(State())
    }

    constructor()
      ensures Valid()
      ensures decoders == map[] && currentDecoder.None? && currentDecoderId.None?
    {
      decoders := map[];
      currentDecoder := None;
      currentDecoderId := None;
    }

    /** `loadDecoder`; `loaded` is what awaiting the registry entry's loader gives. */
    method LoadDecoder(decoderId: string, loaded: Result<DecoderHandle>) returns (r: Result<DecoderHandle>)
      requires Valid()
      modifies this
      ensures Valid()
      ensures (State(), r) == Load(old(State()), decoderId, loaded)
    {
      if decoderId in decoders {
        var decoder := decoders[decoderId];
        currentDecoder := Some(decoder);
        currentDecoderId := Some(decoderId);
        return Ok(decoder);
      }
      var info := Find(AvailableDecoders, decoderId);
      if info.None? {
        return Err("Unknown decoder: " + decoderId);
      }
      if loaded.Err? {
        return loaded;
      }
      LoadKeepsConsistent(State(), decoderId, loaded);
      decoders := decoders[decoderId := loaded.value];
      currentDecoder := Some(loaded.value);
      currentDecoderId := Some(decoderId);
      return loaded;
    }

    function GetCurrentDecoder(): (r: Option<DecoderHandle>)
      reads this
      ensures r == State().currentDecoder
    {
      currentDecoder
    }

    function GetCurrentDecoderId(): (r: Option<string>)
      reads this
      ensures r == State().currentDecoderId
    {
      currentDecoderId
    }

    method Decode(buffer: seq<byte>, run: (DecoderHandle, seq<byte>) -> Option<Frame>) returns (r: Option<Frame>)
      ensures r == DecodeWith(State(), buffer, run)
    {
      if currentDecoder.None? {
        return None;
      }
      return run(currentDecoder.value, buffer);
    }
  }

  // ---------------------------------------------------------------------
  // Lemmas

  /** The registry has five entries, distinct keys, and each entry's `id` is its key. */
  lemma RegistryShape()
    ensures |AvailableDecoders| == 5 && DistinctKeys(AvailableDecoders)
    ensures forall i | 0 <= i < |AvailableDecoders| :: AvailableDecoders[i].1.id == AvailableDecoders[i].0
  {
  }

  /** `Find` gives the entry of a key exactly when some pair has that key; with distinct keys, that pair's entry. */
  lemma {:induction false} FindSpec<T>(entries: seq<(string, T)>, key: string)
    ensures Find(entries, key).Some? <==> exists i | 0 <= i < |entries| :: entries[i].0 == key
    ensures DistinctKeys(entries) ==>
      forall i | 0 <= i < |entries| && entries[i].0 == key :: Find(entries, key) == Some(entries[i].1)
  {
    if entries != [] {
      FindSpec(entries[1..], key);
      if entries[0].0 != key {
        forall i | 1 <= i < |entries| && entries[i].0 == key
          ensures entries[1..][i - 1].0 == key
        {
        }
      }
      if DistinctKeys(entries) {
        assert DistinctKeys(entries[1..]) by {
          forall i, j | 0 <= i < j < |entries[1..]|
            ensures entries[1..][i].0 != entries[1..][j].0
          {
            assert entries[1..][i] == entries[i + 1] && entries[1..][j] == entries[j + 1];
          }
        }
        forall i | 0 <= i < |entries| && entries[i].0 == key
          ensures Find(entries, key) == Some(entries[i].1)
        {
          if i > 0 {
            assert entries[1..][i - 1] == entries[i];
          }
        }
      }
    }
  }

  /** The registry's entry for a key is the one whose `id` is that key. */
  lemma RegistryLookup(decoderId: string)
    ensures Find(AvailableDecoders, decoderId).Some? ==> Find(AvailableDecoders, decoderId).value.id == decoderId
    ensures Find(AvailableDecoders, decoderId).Some? <==>
      decoderId in {"forza-motorsport", "forza-horizon", "assetto-corsa", "f1-2024", "f1-2025"}
  {
    RegistryShape();
    FindSpec(AvailableDecoders, decoderId);
  }

  /** A load keeps the manager consistent. */
  lemma LoadKeepsConsistent(s: ManagerState, decoderId: string, loaded: Result<DecoderHandle>)
    requires Consistent(s)
    ensures Consistent(Load(s, decoderId, loaded).0)
  {
  }

  /**
   * After a successful load the id is cached and current; a failed load
   * (unknown id or loader error) leaves the whole state as it was.
   */
  lemma LoadOutcome(s: ManagerState, decoderId: string, loaded: Result<DecoderHandle>)
    requires Consistent(s)
    ensures var (s', r) := Load(s, decoderId, loaded);
      && (r.Ok? ==> decoderId in s'.decoders && s'.decoders[decoderId] == r.value
                    && s'.currentDecoderId == Some(decoderId) && s'.currentDecoder == Some(r.value))
      && (r.Err? ==> s' == s)
      && s.decoders.Keys <= s'.decoders.Keys
  {
  }

  /** A cached id loads to the same decoder whatever its loader would do, and a second load changes nothing. */
  lemma LoadCached(s: ManagerState, decoderId: string, first: Result<DecoderHandle>, second: Result<DecoderHandle>)
    requires Consistent(s)
    ensures var (s1, r1) := Load(s, decoderId, first);
      r1.Ok? ==> Load(s1, decoderId, second) == (s1, r1)
  {
  }

  /** Only registry ids are ever loaded. */
  lemma UnknownNeverLoads(s: ManagerState, decoderId: string, loaded: Result<DecoderHandle>)
    requires decoderId !in s.decoders
    requires decoderId !in {"forza-motorsport", "forza-horizon", "assetto-corsa", "f1-2024", "f1-2025"}
    ensures Load(s, decoderId, loaded) == (s, Err("Unknown decoder: " + decoderId))
  {
    RegistryLookup(decoderId);
  }
}
